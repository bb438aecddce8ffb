/**
 Event sequences: the server handling one callback after another. Racing
 callbacks of the voice API are modelled as the different orders in which
 their events can arrive.
 */
module Traces {
  import opened Optional
  import opened LegRegistry
  import opened CallFlow

  datatype Trace = Trace(reg: Registry, replies: seq<Reply>, cmds: seq<Command>)

  /** Handles `evs` in order from registry `r`, collecting replies and commands. */
  function Run(r: Registry, evs: seq<Event>): (t: Trace)
    ensures |t.replies| == |evs|
    decreases |evs|
  {
    if evs == [] then Trace(r, [], [])
    else
      var o := Step(r, evs[0]);
      var rest := Run(o.reg, evs[1..]);
      Trace(rest.reg, [o.reply] + rest.replies, o.cmds + rest.cmds)
  }

  /** The WebSocket legs whose creation the voice API confirmed in `evs`. */
  function CreatedLegs(evs: seq<Event>): set<Uuid> {
    if evs == [] then {}
    else (if evs[0].WsCreated? then {evs[0].wsUuid} else {}) + CreatedLegs(evs[1..])
  }

  /** `e` stores a conference number for leg `u`. */
  predicate StoresDigits(e: Event, u: Uuid) {
    e.Dtmf? && e.uuid == u && !e.timedOut
  }

  /** `e` records a WebSocket peer for leg `u`. */
  predicate RecordsPeer(e: Event, u: Uuid) {
    e.WsCreated? && e.peer == u
  }

  /** Handling a non-empty suffix of a sequence handles its first event, then the rest. */
  lemma RunSuffix(r: Registry, evs: seq<Event>, i: nat)
    requires i < |evs|
    ensures Run(r, evs[i..]).reg == Run(Step(r, evs[i]).reg, evs[i + 1..]).reg
    ensures Run(r, evs[i..]).cmds == Step(r, evs[i]).cmds + Run(Step(r, evs[i]).reg, evs[i + 1..]).cmds
  {
  }

  /** Running two sequences one after the other is running their concatenation. */
  lemma {:induction false} RunAppend(r: Registry, a: seq<Event>, b: seq<Event>)
    ensures Run(r, a + b).reg == Run(Run(r, a).reg, b).reg
    ensures Run(r, a + b).cmds == Run(r, a).cmds + Run(Run(r, a).reg, b).cmds
    decreases |a|
  {
    if a == [] {
      assert a + b == b;
    } else {
      var ab := a + b;
      var o := Step(r, a[0]);
      assert ab[0] == a[0];
      assert ab[1..] == a[1..] + b;
      var mid := Run(o.reg, a[1..]);
      var tail := Run(mid.reg, b);
      RunAppend(o.reg, a[1..], b);
      var whole := Run(r, ab);
      assert whole.reg == Run(o.reg, ab[1..]).reg;
      assert whole.cmds == o.cmds + Run(o.reg, ab[1..]).cmds;
      assert Run(r, a).reg == mid.reg;
      assert Run(r, a).cmds == o.cmds + mid.cmds;
      assert whole.cmds == o.cmds + (mid.cmds + tail.cmds);
      AppendAssociates(o.cmds, mid.cmds, tail.cmds);
    }
  }

  lemma AppendAssociates<T>(x: seq<T>, y: seq<T>, z: seq<T>)
    ensures x + (y + z) == (x + y) + z
  {
  }

  /** Handling two events is handling one, then the other. */
  lemma RunTwo(r: Registry, e1: Event, e2: Event)
    ensures Run(r, [e1, e2]).reg == Step(Step(r, e1).reg, e2).reg
    ensures Run(r, [e1, e2]).cmds == Step(r, e1).cmds + Step(Step(r, e1).reg, e2).cmds
  {
    var o1 := Step(r, e1);
    var o2 := Step(o1.reg, e2);
    assert [e1, e2][1..] == [e2];
    assert [e2][1..] == [];
    assert Run(o1.reg, [e2]) == Trace(o2.reg, [o2.reply], o2.cmds + []);
    assert o2.cmds + [] == o2.cmds;
  }

  /** Every reply in a run is the kind of answer its event gets. */
  lemma {:induction false} RepliesFitEvents(r: Registry, evs: seq<Event>)
    ensures forall i :: 0 <= i < |evs| ==> ReplyFits(evs[i], Run(r, evs).replies[i])
    decreases |evs|
  {
    if evs != [] {
      var o := Step(r, evs[0]);
      var rest := Run(o.reg, evs[1..]);
      RepliesFitEvents(o.reg, evs[1..]);
      forall i | 0 <= i < |evs| ensures ReplyFits(evs[i], Run(r, evs).replies[i]) {
        if i > 0 {
          assert evs[i] == evs[1..][i - 1];
          assert Run(r, evs).replies[i] == rest.replies[i - 1];
        }
      }
    }
  }

  /** Events about other legs never change the bindings of leg `u`. */
  lemma {:induction false} OtherLegsUntouched(r: Registry, evs: seq<Event>, u: Uuid)
    requires forall i :: 0 <= i < |evs| ==> u !in Touched(evs[i])
    ensures Lookup(Run(r, evs).reg.confOf, u) == Lookup(r.confOf, u)
    ensures Lookup(Run(r, evs).reg.wsOf, u) == Lookup(r.wsOf, u)
    decreases |evs|
  {
    if evs != [] {
      assert u !in Touched(evs[0]);
      OtherLegsUntouched(Step(r, evs[0]).reg, evs[1..], u);
    }
  }

  /** A leg gets a conference binding only from a DTMF result that did not
      time out: a leg whose every digit collection timed out is never bound. */
  lemma {:induction false} NoConfBindingWithoutDigits(r: Registry, evs: seq<Event>, u: Uuid)
    requires u !in r.confOf
    requires forall i :: 0 <= i < |evs| ==> !StoresDigits(evs[i], u)
    ensures u !in Run(r, evs).reg.confOf
    decreases |evs|
  {
    if evs != [] {
      var o := Step(r, evs[0]);
      assert !StoresDigits(evs[0], u);
      assert u !in o.reg.confOf by {
        assert Lookup(o.reg.confOf, u) == None;
      }
      NoConfBindingWithoutDigits(o.reg, evs[1..], u);
    }
  }

  /** A leg gets a peer binding only from a confirmed WebSocket-leg creation. */
  lemma {:induction false} NoPeerBindingWithoutCreation(r: Registry, evs: seq<Event>, u: Uuid)
    requires u !in r.wsOf
    requires forall i :: 0 <= i < |evs| ==> !RecordsPeer(evs[i], u)
    ensures u !in Run(r, evs).reg.wsOf
    decreases |evs|
  {
    if evs != [] {
      var o := Step(r, evs[0]);
      assert !RecordsPeer(evs[0], u);
      assert u !in o.reg.wsOf by {
        assert Lookup(o.reg.wsOf, u) == None;
      }
      NoPeerBindingWithoutCreation(o.reg, evs[1..], u);
    }
  }

  /** Every hangup names a WebSocket leg that was already recorded or whose
      creation the voice API confirmed along the way, and so does every peer
      binding left at the end. */
  lemma {:induction false} HangupsTargetKnownLegs(r: Registry, evs: seq<Event>)
    ensures forall c :: c in Run(r, evs).cmds && c.Hangup? && c.wsUuid.Some? ==>
      c.wsUuid.value in r.wsOf.Values + CreatedLegs(evs)
    ensures Run(r, evs).reg.wsOf.Values <= r.wsOf.Values + CreatedLegs(evs)
    decreases |evs|
  {
    if evs != [] {
      var o := Step(r, evs[0]);
      HangupsTargetKnownLegs(o.reg, evs[1..]);
      assert Run(r, evs).cmds == o.cmds + Run(o.reg, evs[1..]).cmds;
      assert CreatedLegs(evs) ==
        (if evs[0].WsCreated? then {evs[0].wsUuid} else {}) + CreatedLegs(evs[1..]);
    }
  }

  /** From a fresh process, no hangup ever names a WebSocket leg that was
      not created. */
  lemma HangupsFromStartTargetCreatedLegs(evs: seq<Event>)
    ensures forall c :: c in Run(Empty, evs).cmds && c.Hangup? && c.wsUuid.Some? ==>
      c.wsUuid.value in CreatedLegs(evs)
  {
    HangupsTargetKnownLegs(Empty, evs);
  }

  /** Whatever happened before, a `completed` event leaves its leg with no
      binding in either dictionary and its last command hangs up the peer
      that was recorded just before it. */
  lemma CompletedLeavesNoBinding(r: Registry, evs: seq<Event>, dir: Direction, u: Uuid)
    ensures u !in Run(r, evs + [Completed(dir, u)]).reg.confOf
    ensures u !in Run(r, evs + [Completed(dir, u)]).reg.wsOf
    ensures var cmds := Run(r, evs + [Completed(dir, u)]).cmds;
      |cmds| > 0 && cmds[|cmds| - 1] == Hangup(Lookup(Run(r, evs).reg.wsOf, u))
  {
    RunAppend(r, evs, [Completed(dir, u)]);
    var before := Run(r, evs).reg;
    var o := Step(before, Completed(dir, u));
    assert Lookup(o.reg.confOf, u) == None && Lookup(o.reg.wsOf, u) == None;
    assert CountCreates(o.cmds) == 0 && CountHangups(o.cmds) == 1;
    PinSingle(o.cmds, Hangup(Lookup(before.wsOf, u)));
  }

  /** A list of creations and hangups whose counts add to one, all of whose
      members of `c`'s kind equal `c`, is `c` alone. */
  lemma PinSingle(cmds: seq<Command>, c: Command)
    requires c.CreateWsLeg? || c.Hangup?
    requires forall x :: x in cmds ==> x.CreateWsLeg? || x.Hangup?
    requires c.CreateWsLeg? ==> CountCreates(cmds) == 1 && CountHangups(cmds) == 0
    requires c.Hangup? ==> CountCreates(cmds) == 0 && CountHangups(cmds) == 1
    requires forall x :: x in cmds && x.CreateWsLeg? == c.CreateWsLeg? ==> x == c
    ensures cmds == [c]
  {
  }

  /** A `completed` event delivered twice: the second hangs up `undefined`
      (a failure the handler swallows) and changes nothing. */
  lemma DuplicateCompleted(r: Registry, dir: Direction, u: Uuid)
    ensures var once := Step(r, Completed(dir, u));
      var twice := Run(r, [Completed(dir, u), Completed(dir, u)]);
      && once.cmds == [Hangup(Lookup(r.wsOf, u))]
      && twice.cmds == [Hangup(Lookup(r.wsOf, u)), Hangup(None)]
      && twice.reg == once.reg
  {
    var o1 := Step(r, Completed(dir, u));
    var o2 := Step(o1.reg, Completed(dir, u));
    PinSingle(o1.cmds, Hangup(Lookup(r.wsOf, u)));
    PinSingle(o2.cmds, Hangup(None));
    RemoveTwiceIsRemoveOnce(r, u);
    RunTwo(r, Completed(dir, u), Completed(dir, u));
  }

  /** The race the handlers do not guard against: when `completed` is
      handled before the WebSocket creation's continuation, the continuation
      records a peer for a leg that is already gone. Handling these two
      events issues no hangup of the new leg, which is left bound to a
      finished PSTN leg; only a later `completed` for the same leg would
      hang it up. */
  lemma CompletedBeforeWsCreatedLeavesPeer(r: Registry, dir: Direction, u: Uuid, w: Uuid)
    requires Lookup(r.wsOf, u) != Some(w)
    ensures var t := Run(r, [Completed(dir, u), WsCreated(u, w)]);
      && Lookup(t.reg.wsOf, u) == Some(w)
      && Lookup(t.reg.confOf, u) == None
      && Hangup(Some(w)) !in t.cmds
  {
    var o1 := Step(r, Completed(dir, u));
    PinSingle(o1.cmds, Hangup(Lookup(r.wsOf, u)));
    RunTwo(r, Completed(dir, u), WsCreated(u, w));
  }

  /** A `completed` delivered again after the late continuation does hang up
      the WebSocket leg left behind, and clears the leg once more. */
  lemma RepeatedCompletedHangsUpLateLeg(r: Registry, dir: Direction, u: Uuid, w: Uuid)
    ensures var t := Run(r, [Completed(dir, u), WsCreated(u, w), Completed(dir, u)]);
      && u !in t.reg.confOf && u !in t.reg.wsOf
      && |t.cmds| > 0 && t.cmds[|t.cmds| - 1] == Hangup(Some(w))
  {
    var race := [Completed(dir, u), WsCreated(u, w)];
    RunTwo(r, Completed(dir, u), WsCreated(u, w));
    CompletedLeavesNoBinding(r, race, dir, u);
    assert race + [Completed(dir, u)] == [Completed(dir, u), WsCreated(u, w), Completed(dir, u)];
  }

  /** In the other order the same callbacks leave nothing behind and hang
      up exactly the WebSocket leg that was created. */
  lemma WsCreatedBeforeCompletedCleansUp(r: Registry, dir: Direction, u: Uuid, w: Uuid)
    ensures var t := Run(r, [WsCreated(u, w), Completed(dir, u)]);
      && u !in t.reg.confOf && u !in t.reg.wsOf
      && t.cmds == [Hangup(Some(w))]
  {
    var o1 := Step(r, WsCreated(u, w));
    var o2 := Step(o1.reg, Completed(dir, u));
    PinSingle(o2.cmds, Hangup(Some(w)));
    RunTwo(r, WsCreated(u, w), Completed(dir, u));
    assert Lookup(o2.reg.confOf, u) == None && Lookup(o2.reg.wsOf, u) == None;
  }

  /** After a caller keys a non-empty conference number, the `transfer` event
      requests exactly one WebSocket leg, and that leg's answer places it in
      the caller's own room, hearing only the caller. */
  lemma WsLegJoinsCallerRoom(r: Registry, d: Direction, dir: Direction, u: Uuid, digits: string)
    requires digits != ""
    ensures var o1 := Step(r, Dtmf(d, u, false, digits));
      var o2 := Step(o1.reg, Transfer(dir, u));
      && o2.cmds == [CreateWsLeg(dir, u, Some(digits))]
      && OnWsAnswer(QueryOf(o2.cmds[0])) ==
           Ncco([ListenConversation(o1.reply.actions[1].name, [u], true)])
  {
  }

  /** The two directions part ways on an empty digit string (a caller who
      presses only `#`): the stored "" is falsy, so the inbound handler
      creates no WebSocket leg while the outbound handler does. */
  lemma EmptyDigitsSplitDirections(r: Registry, d: Direction, u: Uuid)
    ensures var o1 := Step(r, Dtmf(d, u, false, ""));
      && Lookup(o1.reg.confOf, u) == Some("")
      && Step(o1.reg, Transfer(Inbound, u)).cmds == []
      && Step(o1.reg, Transfer(Outbound, u)).cmds == [CreateWsLeg(Outbound, u, Some(""))]
  {
  }

  /** An outbound `transfer` for a leg with no conference number still
      creates a WebSocket leg; its answer URL carries the text "undefined",
      so it joins the room "conf_undefined". */
  lemma OutboundTransferWithoutBinding(r: Registry, u: Uuid)
    requires u !in r.confOf
    ensures var o := Step(r, Transfer(Outbound, u));
      && o.cmds == [CreateWsLeg(Outbound, u, None)]
      && OnWsAnswer(QueryOf(o.cmds[0])) == Ncco([ListenConversation("conf_undefined", [u], true)])
  {
    var o := Step(r, Transfer(Outbound, u));
    PinSingle(o.cmds, CreateWsLeg(Outbound, u, None));
    assert RoomName(Undefined) == "conf_undefined";
  }

  /** An inbound call from start to finish: answered, "77" keyed, transferred,
      WebSocket leg created, completed. One binding of "77", one WebSocket
      leg requested for it, one peer binding, then one hangup of that leg
      and both dictionaries as they were. */
  lemma InboundCallScenario(u: Uuid, w: Uuid)
    ensures var setup := [Answered(Inbound, u), Dtmf(Inbound, u, false, "77"), Transfer(Inbound, u), WsCreated(u, w)];
      && Run(Empty, setup).reg == Registry(map[u := "77"], map[u := w])
      && Run(Empty, setup + [Completed(Inbound, u)]).reg == Empty
      && Run(Empty, setup + [Completed(Inbound, u)]).cmds == [CreateWsLeg(Inbound, u, Some("77")), Hangup(Some(w))]
  {
    var setup := [Answered(Inbound, u), Dtmf(Inbound, u, false, "77"), Transfer(Inbound, u), WsCreated(u, w)];
    var o1 := Step(Empty, setup[0]);
    var o2 := Step(o1.reg, setup[1]);
    var o3 := Step(o2.reg, setup[2]);
    var o4 := Step(o3.reg, setup[3]);
    WsLegJoinsCallerRoom(o1.reg, Inbound, Inbound, u, "77");
    assert o4.reg == Registry(map[u := "77"], map[u := w]);
    RunSuffix(o3.reg, setup, 3);
    RunSuffix(o2.reg, setup, 2);
    RunSuffix(o1.reg, setup, 1);
    RunSuffix(Empty, setup, 0);
    assert setup[4..] == [];
    assert setup[0..] == setup;
    assert Run(Empty, setup).reg == o4.reg;
    assert Run(Empty, setup).cmds == [CreateWsLeg(Inbound, u, Some("77"))];
    var o5 := Step(o4.reg, Completed(Inbound, u));
    PinSingle(o5.cmds, Hangup(Some(w)));
    assert o5.reg == Empty;
    RunAppend(Empty, setup, [Completed(Inbound, u)]);
    assert [Completed(Inbound, u)][1..] == [];
  }
}
