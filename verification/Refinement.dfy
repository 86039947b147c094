/** The imperative hub against the whole-server specification: every sequence of calls is a run of operations, so
    what holds of every run holds of the hub. */
module Refinement {
  import opened Sequences
  import opened Envelopes
  import opened Server
  import opened Hub
  import opened ServerSafety
  import Presence
  import Leader
  import Mailbox
  import Scratchpad
  import Sessions
  import ServerRuns
  import Effects
  import History
  import Events = EventProtocol
  import Restart
  import Lives
  import Api

  method Build(ttl: int, maxPerBox: int) returns (h: Hub)
    ensures h.Valid() && fresh(h.Footprint())
    ensures h.Model() == NewServer(h.presence.ttl, Presence.DEFAULT_FORGET_AFTER)
    ensures h.Lim().history == MAX_HISTORY == 100 && h.Lim().box >= 1
    ensures h.Lim().box == if maxPerBox <= 0 then 1000 else maxPerBox
  {
    hide Hub.Valid;
    var sessions := new Sessions.Store();
    var leaders := new Leader.Tracker();
    var pads := new Scratchpad.Store();
    var presence := new Presence.Tracker(ttl);
    var boxes := new Mailbox.Store(maxPerBox);
    h := new Hub(sessions, leaders, pads, presence, boxes, MAX_HISTORY);
  }

  /** What the server holds when it begins to serve. */
  ghost function Begins(saved: Option<Restart.Snapshot>, ttl: nat): State {
    var empty := NewServer(ttl, Presence.DEFAULT_FORGET_AFTER);
    if saved.Some? then Restart.RestoredServer(saved.value, empty) else empty
  }

  /** A server as it starts, from the state saved by an earlier process if there is one. A run begins,
      unless a saved session id has a '/' or a saved history is longer than the window. */
  method Start(ttl: int, maxPerBox: int, saved: Option<Restart.Snapshot>) returns (h: Hub)
    ensures h.Valid() && fresh(h.Footprint()) && h.Lim().history == MAX_HISTORY == 100
    ensures h.Model() == Begins(saved, h.presence.ttl)
    ensures Run(h.Lim(), [h.Model()], []) <==> saved.None? || Lives.Storable(MAX_HISTORY, saved.value)
    ensures saved.None? || Lives.Sound(MAX_HISTORY, saved.value) ==> Fits(h.Model())
  {
    hide Apply, Enabled, Hub.Valid, Run, Stripped, Lives.Sound, Lives.Storable, Fits, Starts;
    h := Build(ttl, maxPerBox);
    ServerRuns.NewStarts(h.Lim(), h.presence.ttl, Presence.DEFAULT_FORGET_AFTER);
    if saved.Some? {
      Restart.RestoreState(h, saved.value);
      Lives.SoundStarts(h.Lim(), saved.value, h.presence.ttl, Presence.DEFAULT_FORGET_AFTER);
    }
    RunStarts(h.Lim(), h.Model());
  }

  /** On a server with this window the last hundred messages of a session are all still in its history, at any point
      of any run. */
  lemma LastHundred(lim: Limits, states: seq<State>, ops: seq<Op>, i: nat, sid: string, j: nat)
    requires Run(lim, states, ops) && i <= |ops| && lim.history == 100
    ensures var full := Events.FullHistory(FirstHistory(states[i], sid), Log(states[i], sid));
            && (|full| - 100 <= j < |full| ==> full[j] in HistoryOf(states[i], sid))
            && |HistoryOf(states[i], sid)| == if |full| < 100 then |full| else 100
  {
    hide Apply, Enabled, Starts, Events.FullHistory, FitsIn, HistoryFits, History.FirstAbove;
    ServerRuns.HistoryRefinesLog(lim, states, ops, i, sid, 0, 0);
    var full := Events.FullHistory(FirstHistory(states[i], sid), Log(states[i], sid));
    NewestCut(full, 100);
    if |full| - 100 <= j < |full| {
      var h := HistoryOf(states[i], sid);
      assert full[j] == h[j - (|full| - |h|)];
    }
  }

  /** A call made by a client, or by one of the server's own timers. */
  datatype Call = Request(op: Op) | SweepTick(at: nat)

  function At(c: Call): nat {
    if c.Request? then c.op.at else c.at
  }

  predicate Callable(c: Call) {
    c.Request? ==> !c.op.Sweep? && (Single(c.op) ==> SlashFree(c.op.sid))
  }

  predicate OfMember(op: Op) {
    op.Register? || op.Refresh? || op.Peek? || op.Drain?
  }

  predicate OfMessage(op: Op) {
    op.Send? || op.Broadcast? || op.SetPad? || op.DeletePad? || op.Transfer?
  }

  method ServeMember(h: Hub, op: Op)
    requires h.Valid() && OfMember(op) && Enabled(h.Model(), op)
    modifies h.Footprint()
    ensures h.Valid() && fresh(h.Footprint() - old(h.Footprint()))
    ensures h.Model() == Apply(h.Lim(), old(h.Model()), op)
  {
    hide Hub.Valid, Stripped, Registered, Refreshed, Seen, Drained;
    match op {
      case Register(sid, aid, caps, at) => var _ := h.Register(sid, aid, caps, at);
      case Refresh(sid, aid, at) => Refresh(h, sid, aid, at);
      case Peek(sid, aid, at) => Peek(h, sid, aid, at);
      case Drain(sid, aid, from, kind, at) => Drain(h, sid, aid, from, kind, at);
    }
  }

  method Refresh(h: Hub, sid: string, aid: string, now: nat)
    requires h.Valid()
    modifies h.Footprint()
    ensures h.Valid() && fresh(h.Footprint() - old(h.Footprint()))
    ensures h.Model() == Refreshed(old(h.Model()), sid, aid, now)
  {
    hide Stripped, Refreshed;
    h.RefreshPresence(sid, aid, now);
  }

  method Peek(h: Hub, sid: string, aid: string, now: nat)
    requires h.Valid()
    modifies h.Footprint()
    ensures h.Valid() && fresh(h.Footprint() - old(h.Footprint())) && h.Model() == Seen(old(h.Model()), sid, aid, now)
  {
    hide Stripped, Seen;
    var _ := h.PeekMailbox(sid, aid, now);
  }

  method Drain(h: Hub, sid: string, aid: string, from: string, kind: string, now: nat)
    requires h.Valid()
    modifies h.Footprint()
    ensures h.Valid() && fresh(h.Footprint() - old(h.Footprint()))
    ensures h.Model() == Drained(old(h.Model()), sid, aid, from, kind, now)
  {
    hide Stripped, Drained;
    var _ := h.DrainMailboxFiltered(sid, aid, from, kind, now);
  }

  method ServeMessage(h: Hub, op: Op)
    requires h.Valid() && OfMessage(op) && Enabled(h.Model(), op)
    modifies h, h.leader, h.scratchpad, h.mailboxes.Repr
    ensures h.Valid() && fresh(h.Footprint() - old(h.Footprint()))
    ensures h.Model() == Apply(h.Lim(), old(h.Model()), op)
  {
    hide Hub.Valid, Stripped, Sent, Broadcasted, PadChanged, PadRemoved, Transferred, Effects.OneMore;
    match op {
      case Send(sid, from, to, kind, payload, at) => var _ := h.SendMessage(sid, from, to, kind, payload, at);
      case Broadcast(sid, from, kind, payload, at) => var _ := h.Broadcast(sid, from, kind, payload, at);
      case SetPad(sid, aid, key, value, at) => var _ := h.ScratchpadSet(sid, aid, key, value, at);
      case DeletePad(sid, aid, key, at) => var _ := h.ScratchpadDelete(sid, aid, key, at);
      case Transfer(sid, from, to, at) => var _ := h.LeaderTransfer(sid, from, to, at);
    }
  }

  method CreateSession(h: Hub, sid: string, psk: string, name: string, now: nat)
    requires h.Valid()
    modifies h.Footprint()
    ensures h.Valid() && fresh(h.Footprint() - old(h.Footprint()))
    ensures h.Model() == old(h.Model()).(sessions := old(h.Model()).sessions[sid :=
                                                       Sessions.Session(sid, name, psk, now, Some(now))])
  {
    hide Stripped;
    var _ := h.sessionStore.Create(sid, psk, name, now);
  }

  method SetForgetAfter(h: Hub, d: int)
    requires h.Valid()
    modifies h.Footprint()
    ensures h.Valid() && h.Footprint() == old(h.Footprint())
    ensures h.Model() == old(h.Model()).(roster := old(h.Model()).roster.(forgetAfter := d))
  {
    hide Stripped;
    h.presence.SetForgetAfter(d);
  }

  method CloseOne(h: Hub, sid: string)
    requires h.Valid()
    modifies h.Footprint()
    ensures h.Valid() && h.Footprint() == old(h.Footprint()) && h.Model() == ClosedOne(old(h.Model()), sid)
  {
    hide Stripped, ClosedOne;
    var _ := h.DeleteSession(sid);
  }

  method Reap(h: Hub, retention: nat, now: nat)
    requires h.Valid()
    modifies h.Footprint()
    ensures h.Valid() && h.Footprint() == old(h.Footprint())
    ensures h.Model() == Closed(old(h.Model()), Stale(old(h.Model()).sessions, now - retention))
  {
    hide Stripped, Closed, Stale;
    h.ReapStaleSessions(retention, now);
  }

  method OpenOne(h: Hub, sid: string, psk: string, now: nat)
    requires h.Valid()
    modifies h.Footprint()
    ensures h.Valid() && fresh(h.Footprint() - old(h.Footprint()))
    ensures var m := old(h.Model()).sessions;
            var found := Sessions.Opened(m, sid, psk, "", now);
            h.Model() == old(h.Model()).(sessions := Sessions.AfterOpening(m, sid, found))
  {
    hide Stripped, Sessions.Opened, Sessions.AfterOpening;
    var _ := Api.OpenSession(h, sid, psk, now);
  }

  method ServeSession(h: Hub, op: Op)
    requires h.Valid() && !OfMember(op) && !OfMessage(op) && !op.Sweep? && Enabled(h.Model(), op)
    modifies h.Footprint()
    ensures h.Valid() && fresh(h.Footprint() - old(h.Footprint()))
    ensures h.Model() == Apply(h.Lim(), old(h.Model()), op)
  {
    hide Hub.Valid, Stripped, ClosedOne, Closed, Stale, Sessions.Opened, Sessions.AfterOpening;
    match op {
      case Create(sid, psk, name, at) => CreateSession(h, sid, psk, name, at);
      case Open(sid, psk, at) => OpenOne(h, sid, psk, at);
      case Close(sid, at) => CloseOne(h, sid);
      case SetForgetAfter(d, at) => SetForgetAfter(h, d);
      case Reap(retention, at) => Reap(h, retention, at);
    }
  }

  method Message(h: Hub, op: Op)
    requires h.Valid() && OfMessage(op) && Enabled(h.Model(), op)
    modifies h.Footprint()
    ensures h.Valid() && fresh(h.Footprint() - old(h.Footprint()))
    ensures h.Model() == Apply(h.Lim(), old(h.Model()), op)
  {
    hide Stripped, Apply, Enabled;
    ServeMessage(h, op);
  }

  /** Whatever the call, the hub does what one enabled operation of the specification does. */
  method Serve(h: Hub, c: Call) returns (ghost op: Op)
    requires h.Valid() && Callable(c)
    modifies h.Footprint()
    ensures h.Valid() && fresh(h.Footprint() - old(h.Footprint()))
    ensures (c.Request? ==> op == c.op) && op.at == At(c) && (c.SweepTick? ==> op.Sweep?)
    ensures Enabled(old(h.Model()), op) && h.Model() == Apply(h.Lim(), old(h.Model()), op)
  {
    hide Hub.Valid, Stripped, SweepReports, SweptServer, Registered, Refreshed, Drained, Seen, Sent, Broadcasted,
        PadChanged, PadRemoved,
         Transferred, ClosedOne, Closed, Stale, SlashFree;
    if c.SweepTick? {
      ghost var lapsed, heirs, gone := h.Sweep(c.at);
      op := Op.Sweep(lapsed, heirs, gone, c.at);
    } else {
      op := c.op;
      if OfMember(c.op) {
        ServeMember(h, c.op);
      } else if OfMessage(c.op) {
        Message(h, c.op);
      } else {
        ServeSession(h, c.op);
      }
    }
  }

  /** What a call asked for is what was done; a sweep adds what it found. */
  predicate Answers(op: Op, c: Call) {
    op.at == At(c) && if c.Request? then op == c.op else op.Sweep?
  }

  lemma RunGrows(lim: Limits, states: seq<State>, ops: seq<Op>, op: Op, s: State)
    requires Run(lim, states, ops) && Enabled(states[|ops|], op) && s == Apply(lim, states[|ops|], op)
    requires ops != [] ==> ops[|ops| - 1].at <= op.at
    ensures Run(lim, states + [s], ops + [op])
  {
    hide Apply, Enabled;
    var states', ops' := states + [s], ops + [op];
    assert forall i :: 0 <= i <= |ops| ==> states'[i] == states[i];
    assert forall i :: 0 <= i < |ops| ==> ops'[i] == ops[i];
  }

  lemma RunStarts(lim: Limits, s: State)
    ensures Run(lim, [s], []) <==> Starts(lim, s)
  {
    hide Apply, Enabled;
  }

  /** Every sequence of calls on the hub, with a clock that does not go back, extends its run of operations: whatever
      holds of every run holds of the hub. */
  method ServeAll(h: Hub, calls: seq<Call>, ghost before: seq<State>, ghost done: seq<Op>)
    returns (ghost states: seq<State>, ghost ops: seq<Op>)
    requires h.Valid() && Run(h.Lim(), before, done) && before[|done|] == h.Model()
    requires forall i :: 0 <= i < |calls| ==> Callable(calls[i]) && At(calls[i]) >= Now(done, |done|)
    requires forall i, j :: 0 <= i < j < |calls| ==> At(calls[i]) <= At(calls[j])
    modifies h.Footprint()
    ensures h.Valid() && fresh(h.Footprint() - old(h.Footprint()))
    ensures Run(h.Lim(), states, ops) && states[|ops|] == h.Model()
    ensures |ops| == |done| + |calls| && done <= ops && before <= states
    ensures forall i :: 0 <= i < |calls| ==> Answers(ops[|done| + i], calls[i])
    ensures Inv(h.Lim(), h.Model(), Now(ops, |ops|))
  {
    hide Stripped, Inv, Apply, Enabled, Callable, Run, Answers;
    states, ops := before, done;
    RunLengths(h.Lim(), states, ops);
    for i := 0 to |calls|
      invariant h.Valid() && fresh(h.Footprint() - old(h.Footprint()))
      invariant |states| == |ops| + 1 && |ops| == |done| + i && done <= ops && before <= states
      invariant Run(h.Lim(), states, ops) && states[|ops|] == h.Model()
      invariant forall j :: 0 <= j < i ==> Answers(ops[|done| + j], calls[j])
      invariant i > 0 ==> ops[|ops| - 1].at == At(calls[i - 1])
    {
      ghost var op := Serve(h, calls[i]);
      Answered(op, calls[i]);
      RunGrows(h.Lim(), states, ops, op, h.Model());
      states, ops := states + [h.Model()], ops + [op];
    }
    ServerRuns.RunInv(h.Lim(), states, ops, |ops|);
  }

  lemma RunLengths(lim: Limits, states: seq<State>, ops: seq<Op>)
    requires Run(lim, states, ops)
    ensures |states| == |ops| + 1
  {
    hide Apply, Enabled;
  }

  lemma Answered(op: Op, c: Call)
    requires op.at == At(c) && (c.Request? ==> op == c.op) && (c.SweepTick? ==> op.Sweep?)
    ensures Answers(op, c)
  {
  }

  /** So at any point of any sequence of calls on a hub that has just started, with saved state or without, the leader
      of a session is a known member whose Expired flag is clear, and right after a sweep it is online. */
  method LeadersOfHub(ttl: int, maxPerBox: int, saved: Option<Restart.Snapshot>, calls: seq<Call>) returns (h: Hub)
    requires saved.Some? ==> Lives.Storable(MAX_HISTORY, saved.value)
    requires forall i :: 0 <= i < |calls| ==> Callable(calls[i])
    requires forall i, j :: 0 <= i < j < |calls| ==> At(calls[i]) <= At(calls[j])
    ensures h.Valid()
    ensures forall sid :: sid in h.leader.leaders ==> Leads(h.presence.M, sid, h.leader.leaders[sid])
    ensures calls != [] && calls[|calls| - 1].SweepTick? ==>
              forall sid :: sid in h.leader.leaders ==>
                Online(h.presence.M, sid, h.leader.leaders[sid], At(calls[|calls| - 1]))
  {
    hide Stripped, Inv, Apply, Enabled, Callable, Run, Leads, Online, ServerSafety.Inv;
    h := Start(ttl, maxPerBox, saved);
    ghost var states, ops := ServeAll(h, calls, [h.Model()], []);
    forall sid | sid in h.leader.leaders
      ensures Leads(h.presence.M, sid, h.leader.leaders[sid])
      ensures calls != [] && calls[|calls| - 1].SweepTick? ==>
                Online(h.presence.M, sid, h.leader.leaders[sid], At(calls[|calls| - 1]))
    {
      ServerRuns.LeaderSafety(h.Lim(), states, ops, |ops|, sid);
      if calls != [] {
        assert Answers(ops[0 + (|calls| - 1)], calls[|calls| - 1]);
      }
    }
  }
}
