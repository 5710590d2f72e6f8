/** The interval-driven detector of the page scripts `paper-detection.js`
    and `index.js`: once a second it looks for the page's `__PAPER_JS__`
    global, announces it with a `PAPER_JS_DETECTED` event, and gives up
    after `MAX_TRIES`. A timer tick is an explicit call; whether the global
    is present on that tick is its argument. */
module Detection {

  const MaxTries: nat := 10

  /** The detector's variables: the `tryCount` counter, whether its
      interval is still armed, and how many `PAPER_JS_DETECTED` events it
      has dispatched. */
  datatype PollState = PollState(tryCount: nat, polling: bool, detections: nat)

  /** The state right after `startPolling()`. */
  const Start := PollState(0, true, 0)

  /** One interval callback. Once the interval was cleared no callback runs.
      Otherwise the callback requests a stop when `tryCount > MAX_TRIES` but
      still runs to the end: it dispatches and stops when the global is
      present, and always increments `tryCount`. */
  function Tick(s: PollState, present: bool): (t: PollState)
    ensures !s.polling ==> t == s
    ensures s.polling ==> t.tryCount == s.tryCount + 1
    ensures s.polling ==> t.detections == if present then s.detections + 1 else s.detections
    ensures s.polling ==> (t.polling <==> !present && s.tryCount <= MaxTries)
  {
    if !s.polling then s
    else
      var polling := s.tryCount <= MaxTries;
      if present then PollState(s.tryCount + 1, false, s.detections + 1)
      else PollState(s.tryCount + 1, polling, s.detections)
  }

  /** The state after the ticks `presents`, oldest first. */
  function Run(s: PollState, presents: seq<bool>): PollState
    decreases |presents|
  {
    if presents == [] then s
    else Tick(Run(s, presents[..|presents| - 1]), presents[|presents| - 1])
  }

  function Absent(k: nat): (p: seq<bool>)
    ensures |p| == k && forall i :: 0 <= i < k ==> !p[i]
  {
    seq(k, _ => false)
  }

  function Min(a: nat, b: nat): nat {
    if a <= b then a else b
  }

  /** Without the global, the detector counts twelve ticks (the twelfth is
      the one that sees `tryCount > MAX_TRIES`) and then falls silent,
      having dispatched nothing. */
  lemma {:induction false} AbsentRun(k: nat)
    ensures Run(Start, Absent(k)) == PollState(Min(k, MaxTries + 2), k < MaxTries + 2, 0)
  {
    if k > 0 {
      assert Absent(k)[..k - 1] == Absent(k - 1);
      AbsentRun(k - 1);
    }
  }

  /** What every reachable detector state satisfies: an armed interval has
      counted at most `MAX_TRIES + 1` ticks, and a detection disarms it. */
  predicate Reachable(s: PollState) {
    (s.polling ==> s.tryCount <= MaxTries + 1) &&
    s.tryCount <= MaxTries + 2 &&
    s.detections <= 1 &&
    (s.detections == 1 ==> !s.polling)
  }

  /** While the interval is armed, `tryCount` is the number of ticks so far. */
  lemma {:induction false} RunInvariant(presents: seq<bool>)
    ensures Reachable(Run(Start, presents))
    ensures Run(Start, presents).polling ==> Run(Start, presents).tryCount == |presents|
    decreases |presents|
  {
    if presents != [] {
      RunInvariant(presents[..|presents| - 1]);
    }
  }

  /** Whatever the page does, the detector dispatches `PAPER_JS_DETECTED`
      at most once and its interval is cleared after at most twelve ticks. */
  lemma AtMostOneDetection(presents: seq<bool>)
    ensures Run(Start, presents).detections <= 1
    ensures |presents| >= MaxTries + 2 ==> !Run(Start, presents).polling
  {
    RunInvariant(presents);
  }

  /** The first armed tick that sees the global announces it. */
  lemma {:induction false} DetectsWhenPresent(presents: seq<bool>)
    requires |presents| < MaxTries + 2
    requires forall i :: 0 <= i < |presents| - 1 ==> !presents[i]
    requires presents != [] && presents[|presents| - 1]
    ensures Run(Start, presents).detections == 1
    ensures !Run(Start, presents).polling
  {
    var k := |presents| - 1;
    assert presents[..k] == Absent(k);
    AbsentRun(k);
  }

  /** The module variables of one loaded detection script. */
  class DetectionPoller {
    var tryCount: nat
    var polling: bool
    var detections: nat

    function State(): PollState
      reads this
    {
      PollState(tryCount, polling, detections)
    }

    /** Loading the script runs `startPolling()`. */
    constructor()
      ensures State() == Start
    {
      tryCount := 0;
      polling := true;
      detections := 0;
    }

    method OnInterval(present: bool)
      modifies this
      ensures State() == Tick(old(State()), present)
    {
      if polling {
        if tryCount > MaxTries {
          polling := false;
        }
        if present {
          detections := detections + 1;
          polling := false;
        }
        tryCount := tryCount + 1;
      }
    }
  }

  // ------------------------------------------------------ loading the script

  /** The page as far as detection goes: whether `paper-detection.js` has
      declared its top-level `const`/`let` bindings, and the state of each
      interval that a load started. */
  datatype Page = Page(declared: bool, pollers: seq<PollState>)

  const FreshPage := Page(false, [])

  /** Evaluating `paper-detection.js` as written. Its bindings live in the
      page's global lexical scope, so a second evaluation fails on the
      redeclaration of `MAX_TRIES` before running any statement. */
  function LoadDetectionScript(p: Page): (q: Page)
    ensures p.declared ==> q == p
    ensures !p.declared ==> q.declared && q.pollers == p.pollers + [Start]
  {
    if p.declared then p else Page(true, p.pollers + [Start])
  }

  /** Evaluating `index.js`, whose variables live in a fresh closure: every
      evaluation starts a new interval. */
  function LoadIifeScript(p: Page): (q: Page)
    ensures q.declared == p.declared && q.pollers == p.pollers + [Start]
  {
    Page(p.declared, p.pollers + [Start])
  }

  /** One second passes: every interval runs its callback. */
  function TickPage(p: Page, present: bool): (q: Page)
    ensures q.declared == p.declared && |q.pollers| == |p.pollers|
    ensures forall i :: 0 <= i < |p.pollers| ==> q.pollers[i] == Tick(p.pollers[i], present)
  {
    Page(p.declared, seq(|p.pollers|, i requires 0 <= i < |p.pollers| => Tick(p.pollers[i], present)))
  }

  function TickPageAbsent(p: Page, k: nat): (q: Page)
    ensures q.declared == p.declared && |q.pollers| == |p.pollers|
  {
    if k == 0 then p else TickPage(TickPageAbsent(p, k - 1), false)
  }

  function Detections(ps: seq<PollState>): nat
  {
    if ps == [] then 0 else Detections(ps[..|ps| - 1]) + ps[|ps| - 1].detections
  }

  /** The page after the first load of a script and `k` seconds without
      the global: one poller, in the state `AbsentRun` describes. */
  lemma {:induction false} AbsentPage(p: Page, k: nat)
    requires |p.pollers| == 1 && p.pollers[0] == Start
    ensures |TickPageAbsent(p, k).pollers| == 1
    ensures TickPageAbsent(p, k).pollers[0] == Run(Start, Absent(k))
    ensures TickPageAbsent(p, k).declared == p.declared
  {
    if k > 0 {
      AbsentPage(p, k - 1);
      assert Absent(k)[..k - 1] == Absent(k - 1);
    }
  }

  /** As written: after the first interval gave up, the retry injection of
      `paper-detection.js` cannot restart detection, so an instance that
      appears later is never announced. */
  lemma RetryAfterTimeoutNeverDetects()
    ensures var gaveUp := TickPageAbsent(LoadDetectionScript(FreshPage), MaxTries + 2);
            var retried := TickPage(LoadDetectionScript(gaveUp), true);
            !gaveUp.pollers[0].polling && Detections(retried.pollers) == 0
  {
    var first := LoadDetectionScript(FreshPage);
    AbsentPage(first, MaxTries + 2);
    AbsentRun(MaxTries + 2);
    var gaveUp := TickPageAbsent(first, MaxTries + 2);
    var retried := TickPage(LoadDetectionScript(gaveUp), true);
    assert retried.pollers == [gaveUp.pollers[0]];
    assert retried.pollers[..0] == [];
  }

  /** With the closure form of `index.js`, the same retry starts a new
      interval, which announces the instance on its first tick. */
  lemma RetryWithIifeDetects()
    ensures var gaveUp := TickPageAbsent(LoadIifeScript(FreshPage), MaxTries + 2);
            var retried := TickPage(LoadIifeScript(gaveUp), true);
            !gaveUp.pollers[0].polling && Detections(retried.pollers) == 1
  {
    var first := LoadIifeScript(FreshPage);
    AbsentPage(first, MaxTries + 2);
    AbsentRun(MaxTries + 2);
    var gaveUp := TickPageAbsent(first, MaxTries + 2);
    var retried := TickPage(LoadIifeScript(gaveUp), true);
    assert gaveUp.pollers[0] == PollState(MaxTries + 2, false, 0);
    assert retried.pollers == [gaveUp.pollers[0], Tick(Start, true)];
    assert retried.pollers[..1] == [gaveUp.pollers[0]];
    assert retried.pollers[..1][..0] == [];
    assert Detections(retried.pollers[..1]) == 0;
    assert Tick(Start, true).detections == 1;
  }
}
