/** When a session has a leader: the exact condition over every run, and how it comes to be without one. */
module ServerLeaders {
  import opened Sequences
  import opened Envelopes
  import opened Sessions
  import opened PresenceSpec
  import opened Server
  import opened ServerSafety
  import opened ServerSweep
  import opened ServerRuns
  import Events = EventProtocol

  /** An agent that the roster does not know registers with the session. */
  predicate Joins(s: State, op: Op, sid: string) {
    op.Register? && op.sid == sid && Key(sid, op.aid) !in s.roster.agents
  }

  ghost predicate Deserted(r: Roster, sid: string, at: nat) {
    forall a :: !Online(r, sid, a, at)
  }

  /** The session is closed, or a sweep finds nobody of it online. */
  ghost predicate Clears(s: State, op: Op, sid: string) {
    match op
    case Close(t, _) => t == sid && sid in s.sessions
    case Reap(retention, at) => sid in Stale(s.sessions, at - retention)
    case Sweep(_, _, _, at) => Deserted(s.roster, sid, at)
    case _ => false
  }

  /** Some agent has joined since the session was last closed or deserted. */
  ghost predicate JoinedSince(states: seq<State>, ops: seq<Op>, i: nat, sid: string)
    requires |states| == |ops| + 1 && i <= |ops|
  {
    exists j :: 0 <= j < i && Joins(states[j], ops[j], sid) && forall m :: j < m < i ==> !Clears(states[m], ops[m], sid)
  }

  /** No agent of the session has an empty name. */
  predicate Named(r: Roster, sid: string) {
    Key(sid, "") !in r.agents
  }

  /** Every request of an agent carries its name: the handlers refuse one that does not. */
  predicate HasName(op: Op) {
    op.Register? || op.Refresh? || op.Peek? || op.Drain? ==> op.aid != ""
  }

  /** Emitting an event changes no leader. */
  lemma EmitLeaders(lim: Limits, s: State, sid: string, job: Events.Job, kind: string, from: string, to: string,
      payload: Payload)
    ensures Emit(lim, s, sid, job, kind, from, to, payload).leaders == s.leaders
  {
    hide Fanned, KeysOf, Events.Addressees, Members, Newest;
  }

  // ---- One sweep -----------------------------------------------------------------------------------

  /** A sweep removes nobody who is online. */
  lemma OnlineStays(r: Roster, at: nat, sid: string, a: string)
    requires RosterOk(r, at)
    ensures Online(Swept(r, at), sid, a, at) <==> Online(r, sid, a, at)
  {
    hide Key;
    var k := Key(sid, a);
    if k in r.agents {
      assert Truthful(r.agents[k], r.ttl, at);
    }
  }

  lemma {:induction false} OfflineLeaders(lim: Limits, s: State, at: nat, lapsed: seq<Agent>, heirs: seq<string>,
      sid: string, a: string)
    requires |heirs| == |lapsed| && sid in s.leaders && Named(s.roster, sid) && Online(s.roster, sid, a, at)
    requires forall i :: 0 <= i < |lapsed| ==> ValidHeir(s.roster, lapsed[i].sid, heirs[i], at)
    ensures sid in Offline(lim, s, lapsed, heirs).leaders
  {
    hide WentOffline, ValidHeir, Online, Named;
    if lapsed != [] {
      var n := |lapsed| - 1;
      OfflineLeaders(lim, s, at, lapsed[..n], heirs[..n], sid, a);
      HeirTakesOver(lim, s.roster, Offline(lim, s, lapsed[..n], heirs[..n]), at, lapsed[n], heirs[n], sid, a);
    }
  }

  lemma HeirTakesOver(lim: Limits, r: Roster, s: State, at: nat, gone: Agent, heir: string, sid: string, a: string)
    requires sid in s.leaders && Named(r, sid) && Online(r, sid, a, at) && ValidHeir(r, gone.sid, heir, at)
    ensures sid in WentOffline(lim, s, gone.sid, gone.aid, heir).leaders
  {
    hide Key, Emit;
    var s1 := s.(leaders := s.leaders[gone.sid := heir]);
    EmitLeaders(lim, s1, gone.sid, Events.System(""), "leader_info", SERVER, EVERYONE, LeaderIs(heir));
  }

  lemma {:induction false} OfflineAddsNone(lim: Limits, s: State, lapsed: seq<Agent>, heirs: seq<string>)
    requires |heirs| == |lapsed|
    ensures Offline(lim, s, lapsed, heirs).leaders.Keys <= s.leaders.Keys
  {
    hide WentOffline;
    if lapsed != [] {
      var n := |lapsed| - 1;
      OfflineAddsNone(lim, s, lapsed[..n], heirs[..n]);
      CallbackAddsNone(lim, Offline(lim, s, lapsed[..n], heirs[..n]), lapsed[n].sid, lapsed[n].aid, heirs[n]);
    }
  }

  lemma CallbackAddsNone(lim: Limits, s: State, sid: string, aid: string, heir: string)
    ensures WentOffline(lim, s, sid, aid, heir).leaders.Keys <= s.leaders.Keys
  {
    hide Emit;
    var s1 := s.(leaders := s.leaders[sid := heir]);
    EmitLeaders(lim, s1, sid, Events.System(""), "leader_info", SERVER, EVERYONE, LeaderIs(heir));
  }

  lemma {:induction false} DeparturesLeaders(lim: Limits, s: State, gone: seq<Agent>)
    ensures Departures(lim, s, gone).leaders == s.leaders
  {
    if gone != [] {
      DeparturesLeaders(lim, s, gone[..|gone| - 1]);
    }
  }

  /** A sweep leaves a session with a leader exactly if it had one and somebody is online. */
  lemma SweptLeadership(lim: Limits, s: State, at: nat, lapsed: seq<Agent>, heirs: seq<string>, gone: seq<Agent>,
      sid: string)
    requires Inv(lim, s, at) && lim.history >= 1 && SweepReports(s, at, lapsed, heirs, gone)
    requires Named(s.roster, sid)
    ensures sid in SweptServer(lim, s, at, lapsed, heirs, gone).leaders <==>
            sid in s.leaders && !Deserted(s.roster, sid, at)
  {
    hide Offline, Departures, Swept, ValidHeir, Online, Base;
    InvParts(lim, s, at);
    var s1 := s.(roster := Swept(s.roster, at));
    OfflineAddsNone(lim, s1, lapsed, heirs);
    DeparturesLeaders(lim, Offline(lim, s1, lapsed, heirs), gone);
    if sid in SweptServer(lim, s, at, lapsed, heirs, gone).leaders {
      LeadersLiveAfterSweep(lim, s, at, lapsed, heirs, gone, sid);
      SweptServerInv(lim, s, at, lapsed, heirs, gone);
      OnlineStays(s.roster, at, sid, SweptServer(lim, s, at, lapsed, heirs, gone).leaders[sid]);
    } else if sid in s.leaders && !Deserted(s.roster, sid, at) {
      var a :| Online(s.roster, sid, a, at);
      OnlineStays(s.roster, at, sid, a);
      StillNamed(s.roster, at, sid);
      OfflineLeaders(lim, s1, at, lapsed, heirs, sid, a);
    }
  }

  lemma StillNamed(r: Roster, at: nat, sid: string)
    requires Named(r, sid)
    ensures Named(Swept(r, at), sid)
  {
    hide Key;
  }

  // ---- One operation -------------------------------------------------------------------------------

  lemma RegisteredLeadership(lim: Limits, s: State, sid: string, aid: string, caps: seq<string>, at: nat, t: string)
    ensures t in Registered(lim, s, sid, aid, caps, at).leaders <==>
            t in s.leaders || (t == sid && Key(sid, aid) !in s.roster.agents)
  {
    hide Touched, Known, Present, Key, Announced, FirstLeader;
    var s1 := s.(roster := Touched(s.roster, sid, aid, Some(caps), at));
    var back := Announced(lim, s1, sid, aid, caps, "agent_reconnected", at);
    var s2 := if Known(s.roster, sid, aid) && !Present(s.roster, sid, aid, at) then back else s1;
    AnnouncedLeadership(lim, s1, sid, aid, caps, "agent_reconnected", at);
    AnnouncedLeadership(lim, s2, sid, aid, caps, "agent_joined", at);
    FirstLeadership(Announced(lim, s2, sid, aid, caps, "agent_joined", at), sid, aid);
  }

  lemma FirstLeadership(s: State, sid: string, aid: string)
    ensures FirstLeader(s, sid, aid).leaders.Keys == s.leaders.Keys + {sid}
  {
    var m := s.leaders;
    assert FirstLeader(s, sid, aid).leaders == if sid in m then m else m[sid := aid];
  }

  lemma AnnouncedLeadership(lim: Limits, s: State, sid: string, aid: string, caps: seq<string>, kind: string, at: nat)
    ensures Announced(lim, s, sid, aid, caps, kind, at).leaders == s.leaders
  {
    hide TouchedActivity;
  }

  lemma MessagesLeadership(lim: Limits, s: State, sid: string, from: string, to: string, kind: string, payload: Payload)
    ensures Sent(lim, s, sid, from, to, kind, payload).leaders == s.leaders
    ensures Broadcasted(lim, s, sid, from, kind, payload).leaders == s.leaders
  {
    hide SendRefusal;
  }

  lemma SeenLeadership(s: State, sid: string, aid: string, from: string, kind: string, at: nat)
    ensures Seen(s, sid, aid, at).leaders == s.leaders && Refreshed(s, sid, aid, at).leaders == s.leaders
    ensures Drained(s, sid, aid, from, kind, at).leaders == s.leaders
  {
    hide Touched, TouchedActivity, Key;
  }

  lemma PadLeadership(lim: Limits, s: State, sid: string, aid: string, key: string, value: string, at: nat)
    ensures PadChanged(lim, s, sid, aid, key, value, at).leaders == s.leaders
    ensures PadRemoved(lim, s, sid, aid, key).leaders == s.leaders
  {
  }

  lemma TransferredLeadership(lim: Limits, s: State, sid: string, from: string, to: string, at: nat)
    ensures Transferred(lim, s, sid, from, to, at).leaders.Keys == s.leaders.Keys
  {
    hide LeaderOf, Present;
  }

  /** Who has a leader changes only when an agent joins, and when a session is closed or deserted. */
  lemma LeadershipStep(lim: Limits, s: State, op: Op, sid: string)
    requires Inv(lim, s, op.at) && Enabled(s, op) && lim.history >= 1 && Named(s.roster, sid)
    ensures sid in Apply(lim, s, op).leaders <==>
            Joins(s, op, sid) || (sid in s.leaders && !Clears(s, op, sid))
  {
    hide Inv, SweptServer, SweepReports, Deserted, Named, Registered, Sent, Broadcasted, PadChanged, PadRemoved,
        Transferred, Seen, Refreshed, Drained, Stale, Key, SlashFree, Opened, AfterOpening;
    match op
    case Sweep(lapsed, heirs, gone, at) => SweptLeadership(lim, s, at, lapsed, heirs, gone, sid);
    case Register(t, aid, caps, at) => RegisteredLeadership(lim, s, t, aid, caps, at, sid);
    case Refresh(t, aid, at) => SeenLeadership(s, t, aid, "", "", at);
    case Peek(t, aid, at) => SeenLeadership(s, t, aid, "", "", at);
    case Drain(t, aid, from, kind, at) => SeenLeadership(s, t, aid, from, kind, at);
    case Send(t, from, to, kind, payload, _) => MessagesLeadership(lim, s, t, from, to, kind, payload);
    case Broadcast(t, from, kind, payload, _) => MessagesLeadership(lim, s, t, from, "", kind, payload);
    case SetPad(t, aid, key, value, at) => PadLeadership(lim, s, t, aid, key, value, at);
    case DeletePad(t, aid, key, at) => PadLeadership(lim, s, t, aid, key, "", at);
    case Transfer(t, from, to, at) => TransferredLeadership(lim, s, t, from, to, at);
    case Create(_, _, _, _) =>
    case Open(_, _, _) =>
    case Close(_, _) =>
    case SetForgetAfter(_, _) =>
    case Reap(_, _) =>
  }

  // ---- Runs ----------------------------------------------------------------------------------------

  ghost predicate AllNamed(r: Roster) {
    forall k :: k in r.agents ==> r.agents[k].aid != ""
  }

  lemma {:induction false} EveryoneNamed(lim: Limits, states: seq<State>, ops: seq<Op>, i: nat)
    requires Run(lim, states, ops) && i <= |ops| && forall j :: 0 <= j < |ops| ==> HasName(ops[j])
    ensures AllNamed(states[i].roster)
  {
    hide Apply, Enabled, Stale, ForgetsNow, RecordsOk, Key;
    if i > 0 {
      EveryoneNamed(lim, states, ops, i - 1);
      RosterStep(lim, states[i - 1], ops[i - 1]);
    }
  }

  lemma NoEmptyName(r: Roster, now: nat, sid: string)
    requires RosterOk(r, now) && AllNamed(r) && SlashFree(sid)
    ensures Named(r, sid)
  {
    hide SlashFree, Key, Truthful;
    if Key(sid, "") in r.agents {
      var a := r.agents[Key(sid, "")];
      KeyInjective(sid, "", a.sid, a.aid);
    }
  }

  /** A session has a leader exactly if some agent has joined it since it was last closed or deserted. Being online
      is not enough: whoever returns to a deserted session leads it only if it had been forgotten. */
  lemma {:induction false} LedExactly(lim: Limits, states: seq<State>, ops: seq<Op>, i: nat, sid: string)
    requires Run(lim, states, ops) && i <= |ops| && forall j :: 0 <= j < |ops| ==> HasName(ops[j])
    ensures sid in states[i].leaders <==> JoinedSince(states, ops, i, sid)
  {
    hide Inv, Apply, Enabled, Joins, Clears, Named, HasName, AllNamed, Starts, SlashFree, RosterOk, LeadersOk, BoxesOk,
        RecordsOk;
    RunInv(lim, states, ops, i);
    InvParts(lim, states[i], Now(ops, i));
    NobodyYet(lim, states[0]);
    if !SlashFree(sid) {
      NeverJoined(lim, states, ops, i, sid);
      NeverLed(states[i], sid);
    } else if i > 0 {
      LedExactly(lim, states, ops, i - 1, sid);
      RunInv(lim, states, ops, i - 1);
      LaterInv(lim, states[i - 1], Now(ops, i - 1), ops[i - 1].at);
      EveryoneNamed(lim, states, ops, i - 1);
      InvParts(lim, states[i - 1], ops[i - 1].at);
      NoEmptyName(states[i - 1].roster, ops[i - 1].at, sid);
      LeadershipStep(lim, states[i - 1], ops[i - 1], sid);
      JoinedStep(states, ops, i, sid);
    }
  }

  lemma NobodyYet(lim: Limits, s: State)
    requires Starts(lim, s)
    ensures s.leaders == map[] && s.roster.agents == map[] && lim.history >= 1
  {
  }

  lemma NeverLed(s: State, sid: string)
    requires LeadersOk(s) && !SlashFree(sid)
    ensures sid !in s.leaders
  {
    hide Leads;
  }

  lemma NeverJoined(lim: Limits, states: seq<State>, ops: seq<Op>, i: nat, sid: string)
    requires Run(lim, states, ops) && i <= |ops| && !SlashFree(sid)
    ensures !JoinedSince(states, ops, i, sid)
  {
    hide Apply, Clears, SweepReports, Starts, SlashFree;
  }

  lemma JoinedStep(states: seq<State>, ops: seq<Op>, i: nat, sid: string)
    requires |states| == |ops| + 1 && 0 < i <= |ops|
    ensures JoinedSince(states, ops, i, sid) <==>
            Joins(states[i - 1], ops[i - 1], sid)
            || (JoinedSince(states, ops, i - 1, sid) && !Clears(states[i - 1], ops[i - 1], sid))
  {
    hide Joins, Clears;
    if JoinedSince(states, ops, i, sid) && !Joins(states[i - 1], ops[i - 1], sid) {
      var j :| 0 <= j < i && Joins(states[j], ops[j], sid) && forall m :: j < m < i ==> !Clears(states[m], ops[m], sid);
      assert j < i - 1;
    }
  }

  /** The smallest case: a request of an agent that has not registered uses up its joining, so the session has an
      online, registered member and no leader. */
  lemma OnlineWithoutLeader(lim: Limits, ttl: nat, forgetAfter: int, sid: string, psk: string, name: string,
      aid: string, caps: seq<string>, at: nat)
      returns (states: seq<State>, ops: seq<Op>)
    requires lim.history >= 1 && lim.box >= 1 && ttl >= 1 && SlashFree(sid)
    ensures Run(lim, states, ops)
    ensures ops == [Create(sid, psk, name, at), Refresh(sid, aid, at), Register(sid, aid, caps, at)]
    ensures Online(states[3].roster, sid, aid, at) && sid !in states[3].leaders
  {
    hide Key, SlashFree;
    var s0 := NewServer(ttl, forgetAfter);
    NewStarts(lim, ttl, forgetAfter);
    ops := [Create(sid, psk, name, at), Refresh(sid, aid, at), Register(sid, aid, caps, at)];
    var s1 := Apply(lim, s0, ops[0]);
    var s2 := Refreshed(s1, sid, aid, at);
    var s3 := Registered(lim, s2, sid, aid, caps, at);
    states := [s0, s1, s2, s3];
  }
}
