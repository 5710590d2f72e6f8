/** The content script `content/index.ts`: it injects the detection
    script, records the `PAPER_JS_DETECTED` event, and relays the panel's
    data requests to the page through a correlated pair of page events.
    Script injection is a counter, an event dispatched to the page is a
    record appended to a log, a pending `sendResponse` is an entry in a
    listener table, and each call of `sendResponse` is a record in a reply
    log naming the request it answers. */
module ContentRelay {
  import opened Wrappers
  import opened Text
  import opened Protocol

  /** A registered `PAPER_DEVTOOLS_RESPONSE` listener: the message id it
      waits for and the request whose `sendResponse` it holds. */
  datatype Listener = Listener(messageId: string, request: nat)

  /** A call of a request's `sendResponse`. */
  datatype Reply = Reply(request: nat, payload: Payload)

  const NotDetectedError := "Paper.js 未检测到"

  /** The four actions relayed to the page. */
  predicate IsDataAction(action: string) {
    action == GetSceneTreeAction || action == SelectNodeAction ||
    action == ToggleVisibilityAction || action == UpdatePropertyAction
  }

  /** The listeners a response with id `id` fires, in registration order. */
  function Matching(ls: seq<Listener>, id: string): (fired: seq<Listener>)
    ensures |fired| <= |ls|
  {
    if ls == [] then []
    else Matching(ls[..|ls| - 1], id) + (if ls[|ls| - 1].messageId == id then [ls[|ls| - 1]] else [])
  }

  /** The listeners that stay attached after that response. */
  function Remaining(ls: seq<Listener>, id: string): (kept: seq<Listener>)
    ensures |kept| <= |ls|
  {
    if ls == [] then []
    else Remaining(ls[..|ls| - 1], id) + (if ls[|ls| - 1].messageId != id then [ls[|ls| - 1]] else [])
  }

  /** A response fires exactly the listeners waiting for its id and keeps
      exactly the others. */
  lemma {:induction false} MatchingRemainingMembers(ls: seq<Listener>, id: string, l: Listener)
    ensures l in Matching(ls, id) <==> l in ls && l.messageId == id
    ensures l in Remaining(ls, id) <==> l in ls && l.messageId != id
  {
    if ls != [] {
      var init, last := ls[..|ls| - 1], ls[|ls| - 1];
      MatchingRemainingMembers(init, id, l);
      assert ls == init + [last];
    }
  }

  /** A response splits the listener table: nothing is lost or duplicated. */
  lemma {:induction false} MatchingRemainingPartition(ls: seq<Listener>, id: string)
    ensures multiset(Matching(ls, id)) + multiset(Remaining(ls, id)) == multiset(ls)
  {
    if ls != [] {
      var init, last := ls[..|ls| - 1], ls[|ls| - 1];
      MatchingRemainingPartition(init, id);
      assert ls == init + [last];
      assert multiset(ls) == multiset(init) + multiset{last};
      if last.messageId == id {
        assert Matching(ls, id) == Matching(init, id) + [last];
        assert Remaining(ls, id) == Remaining(init, id);
      } else {
        assert Matching(ls, id) == Matching(init, id);
        assert Remaining(ls, id) == Remaining(init, id) + [last];
      }
    }
  }

  /** One more listener at the end of the table joins the fired or the
      kept part. */
  lemma TableSnoc(ls: seq<Listener>, x: Listener, id: string)
    ensures Matching(ls + [x], id) == Matching(ls, id) + (if x.messageId == id then [x] else [])
    ensures Remaining(ls + [x], id) == Remaining(ls, id) + (if x.messageId != id then [x] else [])
  {
    assert (ls + [x])[..|ls|] == ls;
  }

  /** The `sendResponse(data.response)` calls of the fired listeners. */
  function Replies(fired: seq<Listener>, payload: Payload): (rs: seq<Reply>)
    ensures |rs| == |fired|
    ensures forall k :: 0 <= k < |fired| ==> rs[k] == Reply(fired[k].request, payload)
  {
    if fired == [] then [] else Replies(fired[..|fired| - 1], payload) + [Reply(fired[|fired| - 1].request, payload)]
  }

  class ContentScript {
    var paperJsDetected: bool
    var detectionInjections: nat
    var sceneTreeInjections: nat
    var listeners: seq<Listener>
    var dispatched: seq<Envelope>
    var replies: seq<Reply>

    /** Loading the content script: the flag starts false and the
        detection script is injected once. */
    constructor()
      ensures !paperJsDetected && detectionInjections == 1 && sceneTreeInjections == 0
      ensures listeners == [] && dispatched == [] && replies == []
    {
      paperJsDetected := false;
      detectionInjections := 1;
      sceneTreeInjections := 0;
      listeners := [];
      dispatched := [];
      replies := [];
    }

    /** The `PAPER_JS_DETECTED` listener: the flag is set and the scene-tree
        script injected, on every such event. */
    method OnPaperJsDetected()
      modifies this
      ensures paperJsDetected && sceneTreeInjections == old(sceneTreeInjections) + 1
      ensures detectionInjections == old(detectionInjections)
      ensures listeners == old(listeners) && dispatched == old(dispatched) && replies == old(replies)
    {
      paperJsDetected := true;
      sceneTreeInjections := sceneTreeInjections + 1;
    }

    /** The `runtime.onMessage` listener for the panel's request number
        `request`, received at time `now` (`Date.now()`). The result is the
        listener's return value: `true` for "reply asynchronously". */
    method OnMessage(message: Option<Request>, request: nat, now: nat) returns (keepOpen: bool)
      modifies this
      ensures paperJsDetected == old(paperJsDetected) && sceneTreeInjections == old(sceneTreeInjections)
      // no message or a falsy action: ignored
      ensures message.None? || !TruthyString(message.value.action) ==>
        !keepOpen && unchanged(this)
      // the liveness probe: answered at once, re-injecting only while undetected
      ensures message.Some? && message.value.action == Some(DetectAction) ==>
        !keepOpen &&
        replies == old(replies) + [Reply(request, DetectedReply(old(paperJsDetected)))] &&
        detectionInjections == old(detectionInjections) + (if old(paperJsDetected) then 0 else 1) &&
        listeners == old(listeners) && dispatched == old(dispatched)
      // a data action before detection: an immediate error, nothing relayed
      ensures message.Some? && TruthyString(message.value.action) && IsDataAction(message.value.action.value) && !old(paperJsDetected) ==>
        !keepOpen &&
        replies == old(replies) + [Reply(request, ErrorReply(NotDetectedError))] &&
        listeners == old(listeners) && dispatched == old(dispatched) && detectionInjections == old(detectionInjections)
      // a data action after detection: one listener, one page event, reply pending
      ensures message.Some? && TruthyString(message.value.action) && IsDataAction(message.value.action.value) && old(paperJsDetected) ==>
        keepOpen &&
        listeners == old(listeners) + [Listener(NatToString(now), request)] &&
        dispatched == old(dispatched) + [Envelope(NatToString(now), message.value)] &&
        replies == old(replies) && detectionInjections == old(detectionInjections)
      // any other action: no reply
      ensures message.Some? && TruthyString(message.value.action) && message.value.action.value != DetectAction
              && !IsDataAction(message.value.action.value) ==>
        !keepOpen && unchanged(this)
    {
      if message.None? || !TruthyString(message.value.action) {
        return false;
      }
      var action := message.value.action.value;
      if action == DetectAction {
        if !paperJsDetected {
          detectionInjections := detectionInjections + 1;
        }
        replies := replies + [Reply(request, DetectedReply(paperJsDetected))];
        return false;
      }
      if IsDataAction(action) {
        if !paperJsDetected {
          replies := replies + [Reply(request, ErrorReply(NotDetectedError))];
          return false;
        }
        var messageId := NatToString(now);
        listeners := listeners + [Listener(messageId, request)];
        dispatched := dispatched + [Envelope(messageId, message.value)];
        return true;
      }
      return false;
    }

    /** One pass over the listener table: the listeners waiting for `id`
        and the others, each in table order. */
    static method SplitListeners(all: seq<Listener>, id: string) returns (kept: seq<Listener>, fired: seq<Listener>)
      ensures kept == Remaining(all, id) && fired == Matching(all, id)
    {
      kept := [];
      fired := [];
      var i := 0;
      while i < |all|
        invariant 0 <= i <= |all|
        invariant kept == Remaining(all[..i], id) && fired == Matching(all[..i], id)
      {
        assert all[..i + 1] == all[..i] + [all[i]];
        TableSnoc(all[..i], all[i], id);
        if all[i].messageId == id {
          fired := fired + [all[i]];
        } else {
          kept := kept + [all[i]];
        }
        i := i + 1;
      }
      assert all[..|all|] == all;
    }

    /** A `PAPER_DEVTOOLS_RESPONSE` event with detail `data` (`None` when
        it is null or undefined). Every listener front to back compares
        ids; each matching one detaches itself and calls its request's
        `sendResponse` with `data.response`. */
    method OnResponseEvent(data: Option<ResponseEnvelope>)
      modifies this
      ensures data.None? ==> unchanged(this)
      ensures data.Some? ==>
        listeners == Remaining(old(listeners), data.value.id) &&
        replies == old(replies) + Replies(Matching(old(listeners), data.value.id), data.value.response)
      ensures paperJsDetected == old(paperJsDetected) && dispatched == old(dispatched)
      ensures detectionInjections == old(detectionInjections) && sceneTreeInjections == old(sceneTreeInjections)
    {
      if data.None? {
        return;
      }
      var kept, fired := SplitListeners(listeners, data.value.id);
      listeners := kept;
      replies := replies + Replies(fired, data.value.response);
    }
  }

  /** The request relayed after detection is the one answered: the reply
      its listener sends is the page's response to the envelope carrying
      the same id. */
  lemma RelayedRequestIsAnswered(ls: seq<Listener>, now: nat, request: nat, response: Payload)
    requires forall l :: l in ls ==> l.messageId != NatToString(now)
    ensures Replies(Matching(ls + [Listener(NatToString(now), request)], NatToString(now)), response) == [Reply(request, response)]
    ensures Remaining(ls + [Listener(NatToString(now), request)], NatToString(now)) == ls
  {
    var id := NatToString(now);
    var all := ls + [Listener(id, request)];
    assert all[..|all| - 1] == ls;
    MatchingNone(ls, id);
    RemainingAll(ls, id);
  }

  lemma {:induction false} MatchingNone(ls: seq<Listener>, id: string)
    requires forall l :: l in ls ==> l.messageId != id
    ensures Matching(ls, id) == []
  {
    if ls != [] {
      var init, last := ls[..|ls| - 1], ls[|ls| - 1];
      assert forall l :: l in init ==> l in ls;
      assert last in ls;
      MatchingNone(init, id);
      assert Matching(ls, id) == Matching(init, id);
    }
  }

  lemma {:induction false} RemainingAll(ls: seq<Listener>, id: string)
    requires forall l :: l in ls ==> l.messageId != id
    ensures Remaining(ls, id) == ls
  {
    if ls != [] {
      var init, last := ls[..|ls| - 1], ls[|ls| - 1];
      assert ls == init + [last];
      assert forall l :: l in init ==> l in ls;
      assert last in ls;
      RemainingAll(init, id);
      assert Remaining(ls, id) == Remaining(init, id) + [last];
    }
  }
}
