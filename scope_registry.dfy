/** The page script `inject/index.ts`: the page-global `__PAPER_SCOPES__`
    registry of paper.js scopes, and the interval that registers the scope
    the page exposes as `__PAPER_SCOPE__`. Page objects the registry only
    stores (a PaperScope, a canvas element) are opaque handles. */
module ScopeRegistry {
  import opened Wrappers
  import Detection

  /** A Map key as the registry receives it: `undefined`, `null` (the
      initial `activeScope`) or a string such as a canvas element's id. */
  datatype ScopeId = UndefinedId | NullId | Name(s: string)

  /** JavaScript falsiness of a key. */
  predicate Falsy(id: ScopeId) {
    id.UndefinedId? || id.NullId? || id == Name("")
  }

  /** An opaque reference to an object of the page. */
  datatype Ref = Ref(address: nat)

  /** The record `register` stores under a key; a `None` is `undefined`. */
  datatype ScopeData = ScopeData(scope: Option<Ref>, canvas: Option<Ref>, id: ScopeId)

  /** One element of `getAllScopes()`. */
  datatype ScopeEntry = ScopeEntry(id: ScopeId, canvas: Option<Ref>, active: bool)

  /** `getAllScopes()` over the keys `ids`, in the order given. */
  function Entries(ids: seq<ScopeId>, scopes: map<ScopeId, ScopeData>, active: ScopeId): (es: seq<ScopeEntry>)
    requires forall id :: id in ids ==> id in scopes
    ensures |es| == |ids|
    ensures forall i :: 0 <= i < |ids| ==> es[i].id == ids[i] && es[i].canvas == scopes[ids[i]].canvas
    ensures forall i :: 0 <= i < |ids| ==> (es[i].active <==> ids[i] == active)
  {
    if ids == [] then []
    else Entries(ids[..|ids| - 1], scopes, active) + [ScopeEntry(ids[|ids| - 1], scopes[ids[|ids| - 1]].canvas, ids[|ids| - 1] == active)]
  }

  predicate Distinct<T(==)>(s: seq<T>) {
    forall i, j :: 0 <= i < j < |s| ==> s[i] != s[j]
  }

  /** Each registered key is listed once, and exactly the active one is
      flagged: at most one entry, and one exactly when the active key is
      registered. */
  lemma OneActiveEntry(ids: seq<ScopeId>, scopes: map<ScopeId, ScopeData>, active: ScopeId)
    requires forall id :: id in ids ==> id in scopes
    requires Distinct(ids)
    ensures var es := Entries(ids, scopes, active);
            Distinct(es) &&
            (forall i, j :: 0 <= i < |es| && 0 <= j < |es| && es[i].active && es[j].active ==> i == j) &&
            ((exists i :: 0 <= i < |es| && es[i].active) <==> active in ids)
  {
    var es := Entries(ids, scopes, active);
    if active in ids {
      var i :| 0 <= i < |ids| && ids[i] == active;
      assert es[i].active;
    }
    forall i, j | 0 <= i < j < |es|
      ensures es[i] != es[j]
    {
      assert es[i].id == ids[i] && es[j].id == ids[j];
    }
  }

  /** The `__PAPER_SCOPES__` object. `order` is the Map's insertion order. */
  class Registry {
    var order: seq<ScopeId>
    var scopes: map<ScopeId, ScopeData>
    var activeScope: ScopeId

    /** The Map's keys are `order`, each once, and each record carries its key. */
    predicate Valid()
      reads this
    {
      (forall id :: id in scopes ==> id in order) &&
      (forall i :: 0 <= i < |order| ==> order[i] in scopes) &&
      Distinct(order) &&
      (forall id :: id in scopes ==> scopes[id].id == id)
    }

    constructor()
      ensures Valid() && order == [] && scopes == map[] && activeScope == NullId
    {
      order := [];
      scopes := map[];
      activeScope := NullId;
    }

    /** `register(scopeId, paperScope, canvas)`: an upsert that keeps the
        key's place in the Map, and a key that becomes active only while no
        truthy key is. */
    method Register(scopeId: ScopeId, scope: Option<Ref>, canvas: Option<Ref>)
      requires Valid()
      modifies this
      ensures Valid()
      ensures scopes == old(scopes)[scopeId := ScopeData(scope, canvas, scopeId)]
      ensures order == if scopeId in old(scopes) then old(order) else old(order) + [scopeId]
      ensures activeScope == if Falsy(old(activeScope)) then scopeId else old(activeScope)
    {
      if scopeId !in scopes {
        order := order + [scopeId];
      }
      scopes := scopes[scopeId := ScopeData(scope, canvas, scopeId)];
      if Falsy(activeScope) {
        activeScope := scopeId;
      }
    }

    /** `getActiveScope()`: null without a truthy active key or its entry,
        the entry's scope otherwise. */
    function GetActiveScope(): (r: Option<Ref>)
      reads this
      ensures (Falsy(activeScope) || activeScope !in scopes) ==> r.None?
      ensures !Falsy(activeScope) && activeScope in scopes ==> r == scopes[activeScope].scope
    {
      if Falsy(activeScope) then None
      else if activeScope in scopes then scopes[activeScope].scope
      else None
    }

    /** `switchScope(scopeId)`. */
    method SwitchScope(scopeId: ScopeId) returns (switched: bool)
      modifies this
      ensures switched <==> scopeId in old(scopes)
      ensures activeScope == if switched then scopeId else old(activeScope)
      ensures scopes == old(scopes) && order == old(order)
    {
      if scopeId in scopes {
        activeScope := scopeId;
        return true;
      }
      return false;
    }

    /** `getAllScopes()`. */
    function GetAllScopes(): (entries: seq<ScopeEntry>)
      reads this
      requires Valid()
      ensures |entries| == |order|
      ensures forall i :: 0 <= i < |order| ==>
        entries[i] == ScopeEntry(order[i], scopes[order[i]].canvas, order[i] == activeScope)
    {
      Entries(order, scopes, activeScope)
    }
  }

  /** The script's first statement: the registry is created only when the
      page has none, so a second evaluation keeps the registered scopes. */
  method InstallRegistry(existing: Option<Registry>) returns (r: Registry)
    ensures existing.Some? ==> r == existing.value
    ensures existing.None? ==> fresh(r) && r.Valid() && r.order == [] && r.activeScope == NullId
  {
    if existing.Some? {
      r := existing.value;
    } else {
      r := new Registry();
    }
  }

  // ------------------------------------------------------------------ polling

  /** A canvas element, with its `id` attribute (`''` when it has none). */
  datatype Canvas = Canvas(element: Ref, id: string)

  /** A PaperScope with its `view?.element`. */
  datatype PaperScopeObj = PaperScopeObj(scope: Ref, element: Option<Canvas>)

  /** The object the page exposes as `__PAPER_SCOPE__`: its `paperScope`,
      and its own `canvas` and `scopeId` keys when it has them (a key that
      holds `undefined` is `Some(None)` / `Some(UndefinedId)`). */
  datatype ScopeGlobal = ScopeGlobal(paperScope: Option<PaperScopeObj>, canvasKey: Option<Option<Ref>>, scopeIdKey: Option<ScopeId>)

  datatype Registration = Registration(scopeId: ScopeId, scope: Option<Ref>, canvas: Option<Ref>)

  /** The object literal built at each tick: defaults read through
      `paperScope?.view?.element`, overridden by whatever the page's own
      object spreads in. */
  function RegistrationOf(g: ScopeGlobal): (r: Registration)
    ensures r.scope == if g.paperScope.Some? then Some(g.paperScope.value.scope) else None
    ensures g.canvasKey.Some? ==> r.canvas == g.canvasKey.value
    ensures g.scopeIdKey.Some? ==> r.scopeId == g.scopeIdKey.value
    ensures g.canvasKey.None? && g.paperScope.Some? && g.paperScope.value.element.Some? ==>
      r.canvas == Some(g.paperScope.value.element.value.element)
    ensures g.scopeIdKey.None? && g.paperScope.Some? && g.paperScope.value.element.Some? ==>
      r.scopeId == Name(g.paperScope.value.element.value.id)
    ensures g.paperScope.None? || g.paperScope.value.element.None? ==>
      (g.canvasKey.None? ==> r.canvas.None?) && (g.scopeIdKey.None? ==> r.scopeId == UndefinedId)
  {
    var element := if g.paperScope.Some? then g.paperScope.value.element else None;
    var scope := if g.paperScope.Some? then Some(g.paperScope.value.scope) else None;
    var canvas := if element.Some? then Some(element.value.element) else None;
    var scopeId := if element.Some? then Name(element.value.id) else UndefinedId;
    Registration(
      g.scopeIdKey.GetOr(scopeId),
      scope,
      g.canvasKey.GetOr(canvas))
  }

  /** One tick of the interval as written. With `__PAPER_SCOPE__` absent,
      reading its `paperScope` throws: the tick ends after the stop request
      and before `tryCount++`. With it present, the check on
      `__PAPER_SCOPES__.getActiveScope` always passes, so the tick
      registers, dispatches `PAPER_JS_DETECTED` and stops. */
  function InjectTick(s: Detection.PollState, present: bool): (t: Detection.PollState)
    ensures present ==> t == Detection.Tick(s, true)
    ensures !present ==> t.tryCount == s.tryCount && t.detections == s.detections
  {
    if !s.polling then s
    else if present then Detection.PollState(s.tryCount + 1, false, s.detections + 1)
    else Detection.PollState(s.tryCount, s.tryCount <= Detection.MaxTries, s.detections)
  }

  function InjectRun(s: Detection.PollState, presents: seq<bool>): Detection.PollState
    decreases |presents|
  {
    if presents == [] then s
    else InjectTick(InjectRun(s, presents[..|presents| - 1]), presents[|presents| - 1])
  }

  /** As written: on a page that never exposes `__PAPER_SCOPE__` every tick
      throws before counting, so `tryCount` stays 0 and the interval is
      never cleared, even after `MAX_TRIES` ticks. */
  lemma {:induction false} AbsentScopeNeverStops(k: nat)
    ensures InjectRun(Detection.Start, Detection.Absent(k)) == Detection.Start
  {
    if k > 0 {
      assert Detection.Absent(k)[..k - 1] == Detection.Absent(k - 1);
      AbsentScopeNeverStops(k - 1);
    }
  }

  /** The tick with the read guarded (`globalThis.__PAPER_SCOPE__?.…`, and
      nothing registered without it): a tick without the global is counted
      like any other. */
  function GuardedInjectTick(s: Detection.PollState, present: bool): (t: Detection.PollState)
  {
    if present then InjectTick(s, true)
    else Detection.Tick(s, false)
  }

  function GuardedInjectRun(s: Detection.PollState, presents: seq<bool>): Detection.PollState
    decreases |presents|
  {
    if presents == [] then s
    else GuardedInjectTick(GuardedInjectRun(s, presents[..|presents| - 1]), presents[|presents| - 1])
  }

  /** The guarded tick behaves like the detection scripts' tick. */
  lemma {:induction false} GuardedRunIsDetectionRun(s: Detection.PollState, presents: seq<bool>)
    ensures GuardedInjectRun(s, presents) == Detection.Run(s, presents)
    decreases |presents|
  {
    if presents != [] {
      GuardedRunIsDetectionRun(s, presents[..|presents| - 1]);
    }
  }

  /** With the guard, polling gives up after twelve ticks and announces at
      most once, whatever the page exposes. */
  lemma GuardedInjectStops(presents: seq<bool>)
    ensures GuardedInjectRun(Detection.Start, presents).detections <= 1
    ensures |presents| >= Detection.MaxTries + 2 ==> !GuardedInjectRun(Detection.Start, presents).polling
  {
    GuardedRunIsDetectionRun(Detection.Start, presents);
    Detection.AtMostOneDetection(presents);
  }

  /** The closure variables of `inject/index.ts` together with the
      registry it writes to. */
  class InjectPoller {
    const registry: Registry
    var tryCount: nat
    var polling: bool
    var detections: nat

    function State(): Detection.PollState
      reads this
    {
      Detection.PollState(tryCount, polling, detections)
    }

    constructor(registry: Registry)
      ensures this.registry == registry && State() == Detection.Start
    {
      this.registry := registry;
      tryCount := 0;
      polling := true;
      detections := 0;
    }

    /** One interval callback; `g` is `__PAPER_SCOPE__` (`None` when the
        page has not defined it). */
    method OnInterval(g: Option<ScopeGlobal>)
      requires registry.Valid()
      modifies this, registry
      ensures registry.Valid()
      ensures State() == InjectTick(old(State()), g.Some?)
      ensures old(polling) && g.Some? ==>
        var r := RegistrationOf(g.value);
        registry.scopes == old(registry.scopes)[r.scopeId := ScopeData(r.scope, r.canvas, r.scopeId)] &&
        registry.order == (if r.scopeId in old(registry.scopes) then old(registry.order) else old(registry.order) + [r.scopeId]) &&
        registry.activeScope == if Falsy(old(registry.activeScope)) then r.scopeId else old(registry.activeScope)
      ensures !(old(polling) && g.Some?) ==> unchanged(registry)
    {
      if !polling {
        return;
      }
      if tryCount > Detection.MaxTries {
        polling := false;
      }
      if g.None? {
        return;
      }
      var r := RegistrationOf(g.value);
      registry.Register(r.scopeId, r.scope, r.canvas);
      detections := detections + 1;
      polling := false;
      tryCount := tryCount + 1;
    }
  }
}
