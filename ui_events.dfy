/**
 * The message-handler pattern shared by the plugin's dialogs and screens: `show`
 * opens a window, installs a handler for messages from it and returns a promise.
 * A recognised message first invokes the matching callback, when one was
 * supplied, and then resolves the promise. Every later recognised message still
 * invokes its callback, because the handler stays installed, but cannot change
 * the value the promise already resolved with. Unrecognised messages do nothing.
 */
module UiEvents {
  import opened Wrappers

  /**
   * A callback handed to a screen: an empty arrow function, one that notifies
   * the user with a message, or a closure supplied by a caller outside the model.
   */
  datatype Callback = NoOp | Notify(message: string) | Provided(id: nat)

  /** What the handler installed by the latest `show` has done: the resolved value, if any, and the callbacks invoked, in order. */
  datatype Session<A> = Session(result: Option<A>, invoked: seq<Callback>)

  /** The callback list a recognised message adds: its callback, if supplied. */
  function CallbackList(callback: Option<Callback>): (r: seq<Callback>)
    ensures |r| <= 1
    ensures r == [] <==> callback.None?
  {
    if callback.Some? then [callback.value] else []
  }

  /**
   * One delivered message, already mapped to the action it stands for (`None`
   * when the handler's switch has no case for it) and to that action's callback.
   */
  function Deliver<A>(s: Session<A>, action: Option<A>, callback: Option<Callback>): (r: Session<A>)
    ensures action.None? ==> r == s
    ensures action.Some? ==> r.invoked == s.invoked + CallbackList(callback)
    ensures s.result.Some? ==> r.result == s.result
    ensures s.result.None? ==> r.result == action
  {
    match action
    case None => s
    case Some(a) =>
      Session(if s.result.None? then Some(a) else s.result, s.invoked + CallbackList(callback))
  }

  /** The callback a message causes to be invoked, if any. */
  function Fired<A>(recognise: string -> Option<A>, callbackOf: A -> Option<Callback>, m: string): seq<Callback> {
    if recognise(m).Some? then CallbackList(callbackOf(recognise(m).value)) else []
  }

  /** The session after the messages `msgs`, delivered one at a time from a fresh handler. */
  function Replay<A>(recognise: string -> Option<A>, callbackOf: A -> Option<Callback>, msgs: seq<string>): Session<A>
    decreases |msgs|
  {
    if msgs == [] then Session(None, [])
    else
      var a := recognise(msgs[|msgs| - 1]);
      Deliver(Replay(recognise, callbackOf, msgs[..|msgs| - 1]), a, if a.Some? then callbackOf(a.value) else None)
  }

  /** Reference definition: the action of the first recognised message. */
  function FirstRecognised<A>(recognise: string -> Option<A>, msgs: seq<string>): Option<A> {
    if msgs == [] then None
    else if recognise(msgs[0]).Some? then recognise(msgs[0])
    else FirstRecognised(recognise, msgs[1..])
  }

  /** Reference definition: every callback the messages invoke, in the order of the messages. */
  function AllFired<A>(recognise: string -> Option<A>, callbackOf: A -> Option<Callback>, msgs: seq<string>): seq<Callback> {
    if msgs == [] then [] else Fired(recognise, callbackOf, msgs[0]) + AllFired(recognise, callbackOf, msgs[1..])
  }

  lemma {:induction false} FirstRecognisedSnoc<A>(recognise: string -> Option<A>, msgs: seq<string>, m: string)
    ensures FirstRecognised(recognise, msgs + [m]) ==
      if FirstRecognised(recognise, msgs).Some? then FirstRecognised(recognise, msgs) else recognise(m)
    decreases |msgs|
  {
    if msgs == [] {
      assert msgs + [m] == [m];
      assert [m][1..] == [];
    } else {
      assert (msgs + [m])[0] == msgs[0];
      assert (msgs + [m])[1..] == msgs[1..] + [m];
      FirstRecognisedSnoc(recognise, msgs[1..], m);
    }
  }

  lemma {:induction false} AllFiredSnoc<A>(recognise: string -> Option<A>, callbackOf: A -> Option<Callback>, msgs: seq<string>, m: string)
    ensures AllFired(recognise, callbackOf, msgs + [m]) == AllFired(recognise, callbackOf, msgs) + Fired(recognise, callbackOf, m)
    decreases |msgs|
  {
    if msgs == [] {
      assert msgs + [m] == [m];
      assert [m][1..] == [];
    } else {
      assert (msgs + [m])[0] == msgs[0];
      assert (msgs + [m])[1..] == msgs[1..] + [m];
      AllFiredSnoc(recognise, callbackOf, msgs[1..], m);
    }
  }

  /**
   * The promise resolves with the action of the FIRST recognised message, and
   * the handler invokes the callback of EVERY recognised message, in order.
   */
  lemma {:induction false} ReplayMeaning<A>(recognise: string -> Option<A>, callbackOf: A -> Option<Callback>, msgs: seq<string>)
    ensures Replay(recognise, callbackOf, msgs).result == FirstRecognised(recognise, msgs)
    ensures Replay(recognise, callbackOf, msgs).invoked == AllFired(recognise, callbackOf, msgs)
    decreases |msgs|
  {
    if msgs != [] {
      var front, m := msgs[..|msgs| - 1], msgs[|msgs| - 1];
      assert msgs == front + [m];
      ReplayMeaning(recognise, callbackOf, front);
      FirstRecognisedSnoc(recognise, front, m);
      AllFiredSnoc(recognise, callbackOf, front, m);
    }
  }

  /**
   * The first recognised message, characterised by position: the result is absent
   * exactly when no message is recognised, and otherwise is the action of some
   * message preceded only by unrecognised ones.
   */
  lemma {:induction false} FirstRecognisedPosition<A>(recognise: string -> Option<A>, msgs: seq<string>)
    ensures FirstRecognised(recognise, msgs).None? <==> forall i :: 0 <= i < |msgs| ==> recognise(msgs[i]).None?
    ensures FirstRecognised(recognise, msgs).Some? ==>
      exists i :: 0 <= i < |msgs| && recognise(msgs[i]) == FirstRecognised(recognise, msgs) &&
        forall j :: 0 <= j < i ==> recognise(msgs[j]).None?
    decreases |msgs|
  {
    if msgs != [] {
      FirstRecognisedPosition(recognise, msgs[1..]);
      if recognise(msgs[0]).None? {
        forall i | 1 <= i < |msgs| ensures recognise(msgs[i]) == recognise(msgs[1..][i - 1]) { }
        if FirstRecognised(recognise, msgs[1..]).Some? {
          var i :| 0 <= i < |msgs[1..]| && recognise(msgs[1..][i]) == FirstRecognised(recognise, msgs[1..]) &&
            forall j :: 0 <= j < i ==> recognise(msgs[1..][j]).None?;
          assert recognise(msgs[i + 1]) == FirstRecognised(recognise, msgs);
          forall j | 0 <= j < i + 1 ensures recognise(msgs[j]).None? {
            if j > 0 { assert msgs[j] == msgs[1..][j - 1]; }
          }
        }
      } else {
        assert recognise(msgs[0]) == FirstRecognised(recognise, msgs);
      }
    }
  }

  /** When no action has a callback, no message invokes anything. */
  lemma {:induction false} NoCallbacksNoInvocations<A(!new)>(recognise: string -> Option<A>, callbackOf: A -> Option<Callback>, msgs: seq<string>)
    requires forall a :: callbackOf(a) == None
    ensures Replay(recognise, callbackOf, msgs).invoked == []
  {
    ReplayMeaning(recognise, callbackOf, msgs);
    AllFiredEmpty(recognise, callbackOf, msgs);
  }

  lemma {:induction false} AllFiredEmpty<A(!new)>(recognise: string -> Option<A>, callbackOf: A -> Option<Callback>, msgs: seq<string>)
    requires forall a :: callbackOf(a) == None
    ensures AllFired(recognise, callbackOf, msgs) == []
    decreases |msgs|
  {
    if msgs != [] {
      AllFiredEmpty(recognise, callbackOf, msgs[1..]);
    }
  }

  /** The values of the callbacks that were supplied. */
  function Supplied(callbacks: seq<Option<Callback>>): (r: set<Callback>)
    ensures forall c :: c in r <==> Some(c) in callbacks
  {
    if callbacks == [] then {}
    else (if callbacks[0].Some? then {callbacks[0].value} else {}) + Supplied(callbacks[1..])
  }

  /** A handler invokes nothing but callbacks it was given. */
  lemma {:induction false} InvokedAmong<A(!new)>(recognise: string -> Option<A>, callbackOf: A -> Option<Callback>,
                                                  msgs: seq<string>, supplied: set<Callback>)
    requires forall a :: callbackOf(a).Some? ==> callbackOf(a).value in supplied
    ensures forall c :: c in Replay(recognise, callbackOf, msgs).invoked ==> c in supplied
    decreases |msgs|
  {
    if msgs != [] {
      InvokedAmong(recognise, callbackOf, msgs[..|msgs| - 1], supplied);
    }
  }
}
