/** The guarantees of the whole server over every run of atomic operations, and the separation of sessions. */
module ServerRuns {
  import opened Sequences
  import opened Envelopes
  import opened History
  import opened Sessions
  import opened Scratchpad
  import opened PresenceSpec
  import opened Server
  import opened ServerSafety
  import opened ServerSweep
  import Events = EventProtocol

  /** A server that begins to serve is consistent, whatever it was restored with. */
  lemma StartInv(lim: Limits, s: State)
    requires Starts(lim, s)
    ensures Inv(lim, s, 0)
  {
    hide RecordsOk, Newest, BoxOk, SlashFree;
    forall sid
      ensures LogOk(FirstCounter(s, sid), sid, Log(s, sid), Counter(s, sid))
      ensures WindowOk(lim.history, FirstHistory(s, sid), Log(s, sid), HistoryOf(s, sid))
    {
      WholeWindow(HistoryOf(s, sid), lim.history);
    }
  }

  lemma WholeWindow(h: seq<Envelope>, max: nat)
    requires |h| <= max
    ensures Newest(Events.FullHistory(h, []), max) == h
  {
    hide Newest;
    NewestCut(h, max);
    assert h + [] == h;
  }

  /** A server with nothing to restore. */
  lemma NewStarts(lim: Limits, ttl: nat, forgetAfter: int)
    requires lim.history >= 1 && lim.box >= 1
    ensures Starts(lim, NewServer(ttl, forgetAfter)) && Fits(NewServer(ttl, forgetAfter))
  {
  }

  /** Every operation keeps the invariant. */
  lemma ApplyInv(lim: Limits, s: State, op: Op)
    requires Inv(lim, s, op.at) && Enabled(s, op) && lim.history >= 1
    ensures Inv(lim, Apply(lim, s, op), op.at)
  {
    hide Inv, Registered, Sent, Broadcasted, PadChanged, PadRemoved, Transferred, SweptServer, Closed, Seen, Drained,
        SweepReports,
         Touched, TouchedActivity, SlashFree, Stale;
    match op
    case Register(sid, aid, caps, at) => RegisteredInv(lim, s, sid, aid, caps, at);
    case Refresh(sid, aid, at) => RefreshedInv(lim, s, sid, aid, at);
    case Peek(sid, aid, at) => SeenDrainedInv(lim, s, sid, aid, "", "", at);
    case Drain(sid, aid, from, kind, at) => SeenDrainedInv(lim, s, sid, aid, from, kind, at);
    case Send(sid, from, to, kind, payload, at) => MessagesInv(lim, s, sid, from, to, kind, payload, at);
    case Broadcast(sid, from, kind, payload, at) => MessagesInv(lim, s, sid, from, "", kind, payload, at);
    case SetPad(sid, aid, key, value, at) => PadChangedInv(lim, s, sid, aid, key, value, at);
    case DeletePad(sid, aid, key, at) => PadChangedInv(lim, s, sid, aid, key, "", at);
    case Transfer(sid, from, to, at) => TransferredInv(lim, s, sid, from, to, at);
    case Create(sid, psk, name, at) => SessionsInv(lim, s, sid, Session(sid, name, psk, at, Some(at)), at);
    case Open(sid, psk, at) => SessionsInv(lim, s, sid, Session(sid, sid, psk, at, None), at);
    case Close(sid, at) => ClosedInv(lim, s, at, {sid});
    case SetForgetAfter(d, at) => HorizonInv(lim, s, at, d);
    case Sweep(lapsed, heirs, gone, at) => SweptServerInv(lim, s, at, lapsed, heirs, gone);
    case Reap(retention, at) => ClosedInv(lim, s, at, Stale(s.sessions, at - retention));
  }

  lemma RefreshedInv(lim: Limits, s: State, sid: string, aid: string, at: nat)
    requires Inv(lim, s, at) && SlashFree(sid)
    ensures Inv(lim, Refreshed(s, sid, aid, at), at)
  {
    hide Inv, TouchedActivity, Touched, SlashFree;
    SeenDrainedInv(lim, s, sid, aid, "", "", at);
    SessionsInv(lim, Seen(s, sid, aid, at), sid, Session("", "", "", 0, None), at);
  }

  lemma HorizonInv(lim: Limits, s: State, now: nat, d: int)
    requires Inv(lim, s, now)
    ensures Inv(lim, s.(roster := s.roster.(forgetAfter := d)), now)
  {
    hide LogsOk, HistoriesOk, BoxesOk, RecordsOk, Truthful, SlashFree, Key;
    var s' := s.(roster := s.roster.(forgetAfter := d));
    SameLogs(lim, s, s');
    SameRecords(s, s');
    SameBoxes(s, s', s.roster.agents);
  }

  /** The invariant holds after every run. */
  lemma {:induction false} RunInv(lim: Limits, states: seq<State>, ops: seq<Op>, i: nat)
    requires Run(lim, states, ops) && i <= |ops|
    ensures Inv(lim, states[i], Now(ops, i))
  {
    hide Inv, Apply, Enabled;
    if i == 0 {
      StartInv(lim, states[0]);
    } else {
      RunInv(lim, states, ops, i - 1);
      LaterInv(lim, states[i - 1], Now(ops, i - 1), ops[i - 1].at);
      ApplyInv(lim, states[i - 1], ops[i - 1]);
    }
  }

  // ---- What the invariant says ---------------------------------------------------------------------

  /** Leader safety: at any point of any run the leader of a session is a known member whose Expired flag is
      clear, and right after a sweep it is online. */
  lemma LeaderSafety(lim: Limits, states: seq<State>, ops: seq<Op>, i: nat, sid: string)
    requires Run(lim, states, ops) && i <= |ops| && sid in states[i].leaders
    ensures Leads(states[i].roster, sid, states[i].leaders[sid])
    ensures i > 0 && ops[i - 1].Sweep? ==> Online(states[i].roster, sid, states[i].leaders[sid], ops[i - 1].at)
  {
    hide Base, SweptServer, Enabled, Leads, SweepReports, Online, Starts;
    StartLimits(lim, states[0]);
    RunInv(lim, states, ops, i);
    if i > 0 && ops[i - 1].Sweep? {
      var s, op := states[i - 1], ops[i - 1];
      RunInv(lim, states, ops, i - 1);
      hide Inv;
      LaterInv(lim, s, Now(ops, i - 1), op.at);
      SweepEnabled(lim, s, op);
      LeadersLiveAfterSweep(lim, s, op.at, op.lapsed, op.heirs, op.gone, sid);
    }
  }

  lemma StartLimits(lim: Limits, s: State)
    requires Starts(lim, s)
    ensures lim.history >= 1 && lim.box >= 1
  {
  }

  lemma SweepEnabled(lim: Limits, s: State, op: Op)
    requires Enabled(s, op) && op.Sweep?
    ensures SweepReports(s, op.at, op.lapsed, op.heirs, op.gone)
    ensures Apply(lim, s, op) == SweptServer(lim, s, op.at, op.lapsed, op.heirs, op.gone)
  {
    hide SweptServer, SweepReports;
  }

  /** The envelope was emitted for this agent, as its own labels say: it is no broadcast, nor a change, that the agent
      made itself, no direct message to anybody else, and no ambient event. */
  predicate ForAgent(job: Events.Job, x: Envelope, aid: string) {
    match job
    case Send(_) => x.to == aid
    case Broadcast(_) => x.from != aid && x.to == EVERYONE
    case System(except) => (x.from != aid || x.from == SERVER) && except != aid && x.to == EVERYONE
    case Ambient => false
  }

  /** The mailbox of a known agent: restored entries, and events of the agent's session for this agent; if the restored
      ones fit the counter, the new ones come after them in strictly increasing order up to the session's counter. */
  ghost predicate SoundBox(s: State, kept: seq<Envelope>, k: string)
    requires k in s.roster.agents && k in s.boxes
  {
    var a := s.roster.agents[k];
    var first, log := FirstCounter(s, a.sid), Log(s, a.sid);
    && k == Key(a.sid, a.aid)
    && (Events.Below(kept, first) ==>
          && NewInOrder(first, s.boxes[k]) && (Ordered(kept) ==> Ordered(s.boxes[k]))
          && Events.Below(s.boxes[k], Counter(s, a.sid)))
    && forall x :: x in s.boxes[k] && x !in kept ==>
         && x.session == a.sid && first < x.number <= Counter(s, a.sid) && x.number <= first + |log|
         && log[x.number - first - 1].env == x && ForAgent(log[x.number - first - 1].job, x, a.aid)
  }

  /** At any point of any run, a mailbox whose agent has not been seen since the start is as it was restored, and
      every other one is sound. What was restored fits the counters if it did so at the start. */
  lemma MailboxesAreSound(lim: Limits, states: seq<State>, ops: seq<Op>, i: nat, k: string)
    requires Run(lim, states, ops) && i <= |ops| && k in states[i].boxes
    ensures var s := states[i];
            var kept := BoxAt(s.origin.boxes, k);
            && (k in s.origin.boxes ==> k in states[0].boxes && kept == states[0].boxes[k])
            && if k !in s.roster.agents then k in s.origin.boxes && s.boxes[k] == kept
               else SoundBox(s, kept, k)
                    && var sid := s.roster.agents[k].sid;
                       (FitsIn(states[0], sid) ==> Events.Below(kept, FirstCounter(s, sid)))
  {
    hide Inv, Apply, Enabled, Starts, SoundBox, FitsIn, Events.Below;
    RunInv(lim, states, ops, i);
    OriginOver(lim, states, ops, i);
    var s := states[i];
    InvParts(lim, s, Now(ops, i));
    assert BoxFits(s, s.roster.agents, k);
    if k in s.roster.agents {
      InvSoundBox(lim, s, Now(ops, i), k);
      var sid := s.roster.agents[k].sid;
      if FitsIn(states[0], sid) {
        FitsOver(lim, states, ops, i, sid);
        RestoredFits(s, Now(ops, i), k);
      }
    }
  }

  lemma RestoredFits(s: State, now: nat, k: string)
    requires RosterOk(s.roster, now) && k in s.roster.agents && FitsIn(s, s.roster.agents[k].sid)
    ensures Events.Below(BoxAt(s.origin.boxes, k), FirstCounter(s, s.roster.agents[k].sid))
  {
    hide Key, SlashFree, Truthful, HistoryFits;
  }

  lemma InvSoundBox(lim: Limits, s: State, now: nat, k: string)
    requires Inv(lim, s, now) && k in s.roster.agents && k in s.boxes
    ensures SoundBox(s, BoxAt(s.origin.boxes, k), k)
  {
    InvParts(lim, s, now);
    InvLogs(lim, s, now);
    hide Inv, LogOk, BoxOk, Truthful, SlashFree, Key, SoundBox;
    assert BoxFits(s, s.roster.agents, k);
    var a := s.roster.agents[k];
    assert LogOk(FirstCounter(s, a.sid), a.sid, Log(s, a.sid), Counter(s, a.sid));
    OwnedBox(s, k, BoxAt(s.origin.boxes, k));
  }

  lemma OwnedBox(s: State, k: string, kept: seq<Envelope>)
    requires k in s.roster.agents && k in s.boxes && k == Key(s.roster.agents[k].sid, s.roster.agents[k].aid)
    requires var a := s.roster.agents[k];
             && LogOk(FirstCounter(s, a.sid), a.sid, Log(s, a.sid), Counter(s, a.sid))
             && BoxOk(FirstCounter(s, a.sid), Log(s, a.sid), a.aid, kept, s.boxes[k])
    ensures SoundBox(s, kept, k)
  {
    hide LogOk, Ordered, NewInOrder, ForAgent, Events.Addressed, Key, FirstCounter, Log, Counter;
    var a := s.roster.agents[k];
    var first, log := FirstCounter(s, a.sid), Log(s, a.sid);
    forall x | x in s.boxes[k]
      ensures x.number <= first ==> x.number <= Counter(s, a.sid)
      ensures x !in kept ==> x.session == a.sid && ForAgent(log[x.number - first - 1].job, x, a.aid)
      ensures x !in kept ==> x.number <= Counter(s, a.sid)
    {
      LogEntry(first, a.sid, log, Counter(s, a.sid), x);
      if x !in kept {
        MeantFor(log[x.number - first - 1].job, x, a.aid);
      }
    }
  }

  lemma MeantFor(job: Events.Job, x: Envelope, aid: string)
    requires Events.Addressed(job, aid) && Labels(job, x.from, x.to)
    ensures ForAgent(job, x, aid)
  {
  }

  lemma InvLogs(lim: Limits, s: State, now: nat)
    requires Inv(lim, s, now)
    ensures LogsOk(s) && HistoriesOk(s, lim.history)
  {
    hide RosterOk, LogsOk, HistoriesOk, RecordsOk, BoxesOk, Extends, LeadersOk;
  }

  lemma LogEntry(first: nat, sid: string, log: seq<Events.Issue>, counter: nat, x: Envelope)
    requires LogOk(first, sid, log, counter)
    ensures x.number <= first ==> x.number <= counter
    ensures Events.Genuine(first, log, x) ==>
              x.session == sid && x.number <= counter && Labels(log[x.number - first - 1].job, x.from, x.to)
  {
    hide Labels;
  }

  /** A marked agent is not online, now or later, until it is seen again. */
  lemma ExpiredIsOffline(lim: Limits, states: seq<State>, ops: seq<Op>, i: nat, k: string, later: nat)
    requires Run(lim, states, ops) && i <= |ops| && later >= Now(ops, i)
    requires k in states[i].roster.agents && states[i].roster.agents[k].expired
    ensures !Live(states[i].roster.agents[k], states[i].roster.ttl, later)
  {
    hide Inv, Apply, Enabled;
    RunInv(lim, states, ops, i);
    InvParts(lim, states[i], Now(ops, i));
    assert Truthful(states[i].roster.agents[k], states[i].roster.ttl, Now(ops, i));
  }

  /** The history of a session is the window of everything restored and recorded for it. If what was restored fits the
      counter, it is in order, and a catch-up page is what the full log would give exactly when nothing above the
      cursor has been evicted. */
  lemma HistoryRefinesLog(lim: Limits, states: seq<State>, ops: seq<Op>, i: nat, sid: string, after: int, limit: int)
    requires Run(lim, states, ops) && i <= |ops|
    ensures FitsIn(states[0], sid) ==> HistoryFits(FirstHistory(states[i], sid), FirstCounter(states[i], sid))
    ensures var s := states[i];
            var full := Events.FullHistory(FirstHistory(s, sid), Log(s, sid));
            && HistoryOf(s, sid) == Newest(full, lim.history)
            && (HistoryFits(FirstHistory(s, sid), FirstCounter(s, sid)) ==>
                  && HistoryFits(full, Counter(s, sid))
                  && var page := FirstAbove(HistoryOf(s, sid), after, limit, lim.history);
                     (page == FirstAbove(full, after, limit, lim.history)
                      <==> forall e :: e in Overflow(full, lim.history) ==> e.number <= after))
  {
    hide Inv, Apply, Enabled, Newest, FirstAbove, Overflow, Ordered, Events.FullHistory, Events.Below;
    RunInv(lim, states, ops, i);
    var s := states[i];
    InvLogs(lim, s, Now(ops, i));
    if FitsIn(states[0], sid) {
      FitsOver(lim, states, ops, i, sid);
    }
    hide FitsIn, LogOk;
    assert LogOk(FirstCounter(s, sid), sid, Log(s, sid), Counter(s, sid));
    assert WindowOk(lim.history, FirstHistory(s, sid), Log(s, sid), HistoryOf(s, sid));
    if HistoryFits(FirstHistory(s, sid), FirstCounter(s, sid)) {
      FullFits(FirstCounter(s, sid), sid, FirstHistory(s, sid), Log(s, sid), Counter(s, sid));
      WindowPageIsLogPage(Events.FullHistory(FirstHistory(s, sid), Log(s, sid)), lim.history, after, limit);
    }
  }

  lemma FullFits(first: nat, sid: string, boot: seq<Envelope>, log: seq<Events.Issue>, counter: nat)
    requires HistoryFits(boot, first) && LogOk(first, sid, log, counter)
    ensures HistoryFits(Events.FullHistory(boot, log), counter)
  {
    hide Events.FullHistory, Ordered, Events.Below;
    Events.FullHistoryOrdered(boot, first, log, counter);
  }

  // ---- What a message reaches ----------------------------------------------------------------------

  /** A broadcast arrives, last and once, in the mailbox of every known member but its sender, and nowhere else. */
  lemma BroadcastReaches(lim: Limits, s: State, now: nat, sid: string, from: string, kind: string, payload: Payload,
      k: string)
    requires Inv(lim, s, now) && lim.box >= 1
    ensures var s' := Broadcasted(lim, s, sid, from, kind, payload);
            var e := Envelope(kind, sid, from, EVERYONE, payload, Counter(s, sid) + 1);
            if k in s.roster.agents && s.roster.agents[k].sid == sid && s.roster.agents[k].aid != from
            then k in s'.boxes && s'.boxes[k] == Newest(BoxAt(s.boxes, k) + [e], lim.box)
                 && (Events.Below(BoxAt(s.origin.boxes, k), FirstCounter(s, sid)) ==> e !in BoxAt(s.boxes, k))
            else BoxAt(s'.boxes, k) == BoxAt(s.boxes, k)
  {
    hide Inv, Newest, Emit, Key;
    var e := Envelope(kind, sid, from, EVERYONE, payload, Counter(s, sid) + 1);
    EmitEffect(lim, s, sid, Events.Broadcast(from), kind, from, EVERYONE, payload);
    InvParts(lim, s, now);
    InvLogs(lim, s, now);
    var keys := KeysOf(sid, Members(s.roster, sid) - {from});
    if k in keys {
      var a :| a in Members(s.roster, sid) - {from} && k == Key(sid, a);
      MemberRecord(s.roster, sid, a);
      NotYetDelivered(s, k, e);
    } else if k in s.roster.agents && s.roster.agents[k].sid == sid && s.roster.agents[k].aid != from {
      MemberKey(s.roster, k, sid, from);
    }
  }

  /** A direct message is accepted exactly if its recipient is a known member, online or not; it then arrives, last
      and once, in the recipient's mailbox and in no other. */
  lemma SendReaches(lim: Limits, s: State, now: nat, sid: string, from: string, to: string, kind: string,
      payload: Payload, k: string)
    requires Inv(lim, s, now) && lim.box >= 1 && SlashFree(sid)
    ensures SendRefusal(s, sid, to).None? <==> to != "" && Known(s.roster, sid, to)
    ensures var s' := Sent(lim, s, sid, from, to, kind, payload);
            var e := Envelope(kind, sid, from, to, payload, Counter(s, sid) + 1);
            if SendRefusal(s, sid, to).None? && k == Key(sid, to)
            then k in s'.boxes && s'.boxes[k] == Newest(BoxAt(s.boxes, k) + [e], lim.box)
                 && (Events.Below(BoxAt(s.origin.boxes, k), FirstCounter(s, sid)) ==> e !in BoxAt(s.boxes, k))
            else BoxAt(s'.boxes, k) == BoxAt(s.boxes, k)
  {
    hide Inv, Newest, Emit, Key, Members, RosterOk, Known, SlashFree;
    InvParts(lim, s, now);
    InvLogs(lim, s, now);
    KnownMember(s.roster, now, sid, to);
    var e := Envelope(kind, sid, from, to, payload, Counter(s, sid) + 1);
    RosterKeys(s.roster, now);
    if to in Members(s.roster, sid) {
      MemberRecord(s.roster, sid, to);
      NotYetDelivered(s, Key(sid, to), e);
    }
    EmitEffect(lim, s, sid, Events.Send(to), kind, from, to, payload);
    assert KeysOf(sid, {to}) == {Key(sid, to)};
  }

  lemma MemberKey(r: Roster, k: string, sid: string, from: string)
    requires KeysMatch(r) && k in r.agents && r.agents[k].sid == sid && r.agents[k].aid != from
    ensures k in KeysOf(sid, Members(r, sid) - {from})
  {
    hide Key;
    assert r.agents[k].aid in Members(r, sid);
  }

  lemma NotYetDelivered(s: State, k: string, e: Envelope)
    requires BoxesOk(s, s.roster.agents) && LogsOk(s)
    requires k in s.roster.agents && s.roster.agents[k].sid == e.session && e.number == Counter(s, e.session) + 1
    ensures Events.Below(BoxAt(s.origin.boxes, k), FirstCounter(s, e.session)) ==> e !in BoxAt(s.boxes, k)
  {
    hide Ordered, NewInOrder;
    var first, log := FirstCounter(s, e.session), Log(s, e.session);
    assert LogOk(first, e.session, log, Counter(s, e.session));
    if e in BoxAt(s.boxes, k) {
      assert BoxFits(s, s.roster.agents, k);
      LogEntry(first, e.session, log, Counter(s, e.session), e);
    }
  }

  // ---- Who is known, and what was restored -----------------------------------------------------------

  function RosterAfter(s: State, op: Op): Roster {
    match op
    case Register(sid, aid, caps, at) => Touched(s.roster, sid, aid, Some(caps), at)
    case Refresh(sid, aid, at) => Touched(s.roster, sid, aid, None, at)
    case Peek(sid, aid, at) => Touched(s.roster, sid, aid, None, at)
    case Drain(sid, aid, _, _, at) => Touched(s.roster, sid, aid, None, at)
    case Close(sid, _) => if sid in s.sessions then RosterWithout(s.roster, {sid}) else s.roster
    case SetForgetAfter(d, _) => s.roster.(forgetAfter := d)
    case Sweep(_, _, _, at) => Swept(s.roster, at)
    case Reap(retention, at) => RosterWithout(s.roster, Stale(s.sessions, at - retention))
    case _ => s.roster
  }

  function KeysGone(gone: seq<Agent>): set<string> {
    set a | a in gone :: Key(a.sid, a.aid)
  }

  function OriginAfter(s: State, op: Op): Origin {
    match op
    case Close(sid, _) => if sid in s.sessions then OriginWithout(s.origin, {sid}) else s.origin
    case Sweep(_, _, gone, _) => OriginLess(s.origin, KeysGone(gone))
    case Reap(retention, at) => OriginWithout(s.origin, Stale(s.sessions, at - retention))
    case _ => s.origin
  }

  /** The operation leaves the roster and the origin alone. */
  predicate SameRoster(s: State, s': State) {
    s'.roster == s.roster && s'.origin == s.origin
  }

  lemma EmitRoster(lim: Limits, s: State, sid: string, job: Events.Job, kind: string, from: string, to: string,
      payload: Payload)
    ensures SameRoster(s, Emit(lim, s, sid, job, kind, from, to, payload))
  {
    hide Fanned, KeysOf, Events.Addressees, Members, Newest;
  }

  lemma RegisteredRoster(lim: Limits, s: State, sid: string, aid: string, caps: seq<string>, at: nat)
    ensures SameRoster(s.(roster := Touched(s.roster, sid, aid, Some(caps), at)),
                       Registered(lim, s, sid, aid, caps, at))
  {
    hide Touched, Known, Present, Key, Announced;
    var s1 := s.(roster := Touched(s.roster, sid, aid, Some(caps), at));
    var s2 := Announced(lim, s1, sid, aid, caps, "agent_reconnected", at);
    AnnouncedRoster(lim, s1, sid, aid, caps, "agent_reconnected", at);
    AnnouncedRoster(lim, s1, sid, aid, caps, "agent_joined", at);
    AnnouncedRoster(lim, s2, sid, aid, caps, "agent_joined", at);
  }

  lemma AnnouncedRoster(lim: Limits, s: State, sid: string, aid: string, caps: seq<string>, kind: string, at: nat)
    ensures SameRoster(s, Announced(lim, s, sid, aid, caps, kind, at))
  {
    hide Emit;
    EmitRoster(lim, s.(sessions := TouchedActivity(s.sessions, sid, at)), sid, Events.Ambient, kind, SERVER, EVERYONE,
        AgentIs(aid, caps, true));
  }

  lemma MessagesRoster(lim: Limits, s: State, sid: string, from: string, to: string, kind: string, payload: Payload)
    ensures SameRoster(s, Sent(lim, s, sid, from, to, kind, payload))
    ensures SameRoster(s, Broadcasted(lim, s, sid, from, kind, payload))
  {
    hide SendRefusal, Emit;
    EmitRoster(lim, s, sid, Events.Send(to), kind, from, to, payload);
    EmitRoster(lim, s, sid, Events.Broadcast(from), kind, from, EVERYONE, payload);
  }

  lemma ChangesRoster(lim: Limits, s: State, sid: string, aid: string, key: string, value: string, to: string, at: nat)
    ensures SameRoster(s, PadChanged(lim, s, sid, aid, key, value, at))
    ensures SameRoster(s, PadRemoved(lim, s, sid, aid, key))
    ensures SameRoster(s, Transferred(lim, s, sid, aid, to, at))
  {
    hide Fanned, KeysOf, Events.Addressees, Members, Newest, TransferRefusal, Pad, Bumped;
  }

  lemma {:induction false} OfflineRoster(lim: Limits, s: State, lapsed: seq<Agent>, heirs: seq<string>)
    requires |heirs| == |lapsed|
    ensures SameRoster(s, Offline(lim, s, lapsed, heirs))
  {
    hide Emit;
    if lapsed != [] {
      var n := |lapsed| - 1;
      OfflineRoster(lim, s, lapsed[..n], heirs[..n]);
      var s1, sid := Offline(lim, s, lapsed[..n], heirs[..n]), lapsed[n].sid;
      EmitRoster(lim, s1.(leaders := s1.leaders[sid := heirs[n]]), sid, Events.System(""), "leader_info", SERVER,
          EVERYONE, LeaderIs(heirs[n]));
    }
  }

  lemma {:induction false} DeparturesRoster(lim: Limits, s: State, gone: seq<Agent>)
    ensures Departures(lim, s, gone).roster == s.roster
    ensures Departures(lim, s, gone).origin == OriginLess(s.origin, KeysGone(gone))
  {
    hide Emit, Key;
    if gone != [] {
      var n := |gone| - 1;
      assert gone == gone[..n] + [gone[n]];
      assert KeysGone(gone) == KeysGone(gone[..n]) + {Key(gone[n].sid, gone[n].aid)};
      DeparturesRoster(lim, s, gone[..n]);
      EmitRoster(lim, Departures(lim, s, gone[..n]), gone[n].sid, Events.Ambient, "agent_left", SERVER, EVERYONE,
                 AgentIs(gone[n].aid, gone[n].caps, false));
    }
  }

  lemma SweptRoster(lim: Limits, s: State, at: nat, lapsed: seq<Agent>, heirs: seq<string>, gone: seq<Agent>)
    requires |heirs| == |lapsed|
    ensures SweptServer(lim, s, at, lapsed, heirs, gone).roster == Swept(s.roster, at)
    ensures SweptServer(lim, s, at, lapsed, heirs, gone).origin == OriginLess(s.origin, KeysGone(gone))
  {
    hide Offline, Departures, Swept, OriginLess, KeysGone;
    var s1 := s.(roster := Swept(s.roster, at));
    OfflineRoster(lim, s1, lapsed, heirs);
    DeparturesRoster(lim, Offline(lim, s1, lapsed, heirs), gone);
  }

  /** Operations that neither see an agent nor remove one. */
  predicate Quiet(op: Op) {
    op.Send? || op.Broadcast? || op.SetPad? || op.DeletePad? || op.Transfer? || op.Create? || op.Open?
  }

  lemma QuietStep(lim: Limits, s: State, op: Op)
    requires Enabled(s, op) && Quiet(op)
    ensures SameRoster(s, Apply(lim, s, op))
  {
    hide Sent, Broadcasted, PadChanged, PadRemoved, Transferred, Opened, AfterOpening, SlashFree, SweepReports;
    match op
    case Send(sid, from, to, kind, payload, _) => MessagesRoster(lim, s, sid, from, to, kind, payload);
    case Broadcast(sid, from, kind, payload, _) => MessagesRoster(lim, s, sid, from, "", kind, payload);
    case SetPad(sid, aid, key, value, at) => ChangesRoster(lim, s, sid, aid, key, value, "", at);
    case DeletePad(sid, aid, key, at) => ChangesRoster(lim, s, sid, aid, key, "", "", at);
    case Transfer(sid, from, to, at) => ChangesRoster(lim, s, sid, from, "", "", to, at);
    case Create(_, _, _, _) =>
    case Open(_, _, _) =>
  }

  /** What an operation does to the roster, and to the record of what was restored. */
  lemma RosterStep(lim: Limits, s: State, op: Op)
    requires Enabled(s, op)
    ensures Apply(lim, s, op).roster == RosterAfter(s, op) && Apply(lim, s, op).origin == OriginAfter(s, op)
  {
    if Quiet(op) {
      hide Apply, Enabled;
      QuietStep(lim, s, op);
    } else {
      BusyStep(lim, s, op);
    }
  }

  lemma BusyStep(lim: Limits, s: State, op: Op)
    requires Enabled(s, op) && !Quiet(op)
    ensures Apply(lim, s, op).roster == RosterAfter(s, op) && Apply(lim, s, op).origin == OriginAfter(s, op)
  {
    hide Registered, SweptServer, Touched, Swept, Stale, Seen, Refreshed, Drained, Closed, RosterWithout, OriginWithout,
        OriginLess, KeysGone, SlashFree;
    match op
    case Register(sid, aid, caps, at) => RegisteredRoster(lim, s, sid, aid, caps, at);
    case Refresh(sid, aid, at) => SeenIsTouched(s, sid, aid, "", "", at);
    case Peek(sid, aid, at) => SeenIsTouched(s, sid, aid, "", "", at);
    case Drain(sid, aid, from, kind, at) => SeenIsTouched(s, sid, aid, from, kind, at);
    case Close(sid, _) => ClosedRoster(s, {sid});
    case SetForgetAfter(_, _) =>
    case Sweep(lapsed, heirs, gone, at) => SweptRoster(lim, s, at, lapsed, heirs, gone);
    case Reap(retention, at) => ClosedRoster(s, Stale(s.sessions, at - retention));
  }

  lemma SeenIsTouched(s: State, sid: string, aid: string, from: string, kind: string, at: nat)
    ensures var t := s.(roster := Touched(s.roster, sid, aid, None, at));
            && SameRoster(t, Seen(s, sid, aid, at)) && SameRoster(t, Refreshed(s, sid, aid, at))
            && SameRoster(t, Drained(s, sid, aid, from, kind, at))
  {
    hide Touched, TouchedActivity, Filter, Key;
  }

  lemma ClosedRoster(s: State, gone: set<string>)
    ensures Closed(s, gone).roster == RosterWithout(s.roster, gone)
    ensures Closed(s, gone).origin == OriginWithout(s.origin, gone)
  {
    hide RosterWithout, OriginWithout, BoxesWithout;
  }

  /** What a session began with is what was restored for it, until the session is removed. */
  ghost predicate PartOf(o: Origin, start: State) {
    && (forall sid :: sid in o.counters ==> sid in start.counters && o.counters[sid] == start.counters[sid])
    && (forall sid :: sid in o.history ==> sid in start.history && o.history[sid] == start.history[sid])
    && (forall k :: k in o.boxes ==> k in start.boxes && o.boxes[k] == start.boxes[k])
  }

  lemma {:induction false} OriginOver(lim: Limits, states: seq<State>, ops: seq<Op>, i: nat)
    requires Run(lim, states, ops) && i <= |ops|
    ensures PartOf(states[i].origin, states[0])
  {
    hide Apply, Enabled, Stale, OfSession;
    if i > 0 {
      OriginOver(lim, states, ops, i - 1);
      RosterStep(lim, states[i - 1], ops[i - 1]);
    }
  }

  /** What was restored for a session goes on fitting its counter. */
  lemma {:induction false} FitsOver(lim: Limits, states: seq<State>, ops: seq<Op>, i: nat, sid: string)
    requires Run(lim, states, ops) && i <= |ops| && FitsIn(states[0], sid)
    ensures FitsIn(states[i], sid)
  {
    hide Apply, Enabled, Stale, FitsIn, OriginWithout, OriginLess, KeysGone, Starts;
    if i > 0 {
      var s, op := states[i - 1], ops[i - 1];
      FitsOver(lim, states, ops, i - 1, sid);
      RosterStep(lim, s, op);
      FitsStill(s, states[i], {}, {}, sid);
      if op.Close? {
        FitsStill(s, states[i], {op.sid}, {}, sid);
      } else if op.Reap? {
        FitsStill(s, states[i], Stale(s.sessions, op.at - op.retention), {}, sid);
      } else if op.Sweep? {
        FitsStill(s, states[i], {}, KeysGone(op.gone), sid);
      }
    }
  }

  lemma FitsStill(s: State, s': State, gone: set<string>, keys: set<string>, sid: string)
    requires FitsIn(s, sid)
    ensures s'.origin in {s.origin, OriginWithout(s.origin, gone), OriginLess(s.origin, keys)} ==> FitsIn(s', sid)
  {
    hide Key, SlashFree, Ordered;
    if s'.origin in {s.origin, OriginWithout(s.origin, gone), OriginLess(s.origin, keys)} {
      EmptyOrdered();
      forall aid | SlashFree(sid) && Key(sid, aid) in s'.origin.boxes
        ensures Events.Below(s'.origin.boxes[Key(sid, aid)], FirstCounter(s', sid))
      {
        KeyStarts(sid, aid);
      }
    }
  }

  lemma EmptyOrdered()
    ensures Ordered([])
  {
  }

  // ---- Sessions are separate -------------------------------------------------------------------------

  /** Everything the server holds for one session. */
  datatype View = View(
    records: map<string, Agent>, leader: Option<string>, pad: Option<map<string, PadEntry>>, padCount: Option<nat>,
    boxes: map<string, seq<Envelope>>, history: Option<seq<Envelope>>, counter: Option<nat>,
    session: Option<Session>, log: Option<seq<Events.Issue>>,
    firstCounter: Option<nat>, firstHistory: Option<seq<Envelope>>, restored: map<string, seq<Envelope>>)

  function At<T>(m: map<string, T>, sid: string): Option<T> {
    if sid in m then Some(m[sid]) else None
  }

  function RecordsOf(r: Roster, sid: string): map<string, Agent> {
    map k | k in r.agents && r.agents[k].sid == sid :: r.agents[k]
  }

  predicate InSession(k: string, sid: string) {
    sid + "/" <= k
  }

  function BoxesOf(boxes: Boxes, sid: string): Boxes {
    map k | k in boxes && InSession(k, sid) :: boxes[k]
  }

  function ViewOf(s: State, sid: string): View {
    View(RecordsOf(s.roster, sid), At(s.leaders, sid), At(s.pads, sid), At(s.padCounts, sid), BoxesOf(s.boxes, sid),
         At(s.history, sid), At(s.counters, sid), At(s.sessions, sid), At(s.log, sid),
         At(s.origin.counters, sid), At(s.origin.history, sid), BoxesOf(s.origin.boxes, sid))
  }

  const NOTHING := View(map[], None, None, None, map[], None, None, None, None, None, None, map[])

  lemma KeyInSession(sid: string, aid: string, t: string)
    requires SlashFree(sid) && SlashFree(t)
    ensures InSession(Key(sid, aid), t) <==> t == sid
  {
    PrefixExact(t, sid, aid);
  }

  /** Closing removes everything of the closed sessions and changes nothing of any other, whatever the server holds. */
  lemma ClosedIsExact(s: State, gone: set<string>, t: string)
    requires SlashFree(t) && forall g :: g in gone ==> SlashFree(g)
    ensures ViewOf(Closed(s, gone), t) == if t in gone then NOTHING else ViewOf(s, t)
  {
    hide SlashFree, InSession, OfSession, RecordsOf, BoxesOf, BoxesWithout;
    ClosedBoxesExact(s.boxes, gone, t);
    ClosedBoxesExact(s.origin.boxes, gone, t);
    ClosedRecordsExact(s, gone, t);
  }

  lemma ClosedBoxesExact(boxes: Boxes, gone: set<string>, t: string)
    requires SlashFree(t) && forall g :: g in gone ==> SlashFree(g)
    ensures BoxesOf(BoxesWithout(boxes, gone), t) == if t in gone then map[] else BoxesOf(boxes, t)
  {
    hide SlashFree;
    forall k | k in boxes && InSession(k, t)
      ensures OfSession(k, gone) <==> t in gone
    {
      SessionOfKey(k, gone, t);
    }
  }

  /** A key with the prefix of one session has the prefix of no other. */
  lemma SessionOfKey(k: string, gone: set<string>, t: string)
    requires SlashFree(t) && InSession(k, t) && forall g :: g in gone ==> SlashFree(g)
    ensures OfSession(k, gone) <==> t in gone
  {
    hide SlashFree;
    var aid := k[|t| + 1..];
    assert k == Key(t, aid);
    if g :| g in gone && g + "/" <= k {
      PrefixExact(g, t, aid);
    }
  }

  lemma ClosedRecordsExact(s: State, gone: set<string>, t: string)
    ensures RecordsOf(Closed(s, gone).roster, t) == if t in gone then map[] else RecordsOf(s.roster, t)
  {
    hide OfSession;
  }

  /** Session removal is exact, on any server at all: closing one session, or reaping, leaves nothing of the sessions
      it chose and everything of the others; a reap chooses those whose last activity is at or before the cutoff. */
  lemma RemovalIsExact(lim: Limits, s: State, op: Op, t: string)
    requires Enabled(s, op) && (op.Close? || op.Reap?) && SlashFree(t)
    requires op.Reap? ==> forall k :: k in s.sessions ==> SlashFree(k)
    ensures var gone := if op.Close? then t == op.sid && t in s.sessions
                        else t in s.sessions && !ActiveAfter(s.sessions[t].lastActive, op.at - op.retention);
            ViewOf(Apply(lim, s, op), t) == if gone then NOTHING else ViewOf(s, t)
  {
    hide Closed, ViewOf, SlashFree, ActiveAfter;
    if op.Close? {
      if op.sid in s.sessions {
        ClosedIsExact(s, {op.sid}, t);
      }
    } else {
      ClosedIsExact(s, Stale(s.sessions, op.at - op.retention), t);
    }
  }

  /** An emit touches no other session. */
  lemma EmitIsLocal(lim: Limits, s: State, sid: string, job: Events.Job, kind: string, from: string, to: string,
      payload: Payload, t: string)
    requires SlashFree(sid) && SlashFree(t) && t != sid
    ensures ViewOf(Emit(lim, s, sid, job, kind, from, to, payload), t) == ViewOf(s, t)
  {
    hide Newest, Members, Events.Addressees, SlashFree, InSession, Key;
    var s' := Emit(lim, s, sid, job, kind, from, to, payload);
    var keys := KeysOf(sid, Events.Addressees(job, Members(s.roster, sid)));
    forall k | k in keys
      ensures !InSession(k, t)
    {
      var a :| a in Events.Addressees(job, Members(s.roster, sid)) && k == Key(sid, a);
      KeyInSession(sid, a, t);
    }
    assert BoxesOf(s'.boxes, t) == BoxesOf(s.boxes, t);
  }

  lemma TouchIsLocal(r: Roster, sid: string, aid: string, caps: Option<seq<string>>, at: nat, t: string)
    requires KeysMatch(r) && SlashFree(sid) && SlashFree(t) && t != sid
    requires forall k :: k in r.agents ==> SlashFree(r.agents[k].sid)
    ensures RecordsOf(Touched(r, sid, aid, caps, at), t) == RecordsOf(r, t)
  {
    hide Key, SlashFree;
    if Key(sid, aid) in r.agents {
      var a := r.agents[Key(sid, aid)];
      KeyInjective(sid, aid, a.sid, a.aid);
    }
  }

  lemma SeenIsLocal(s: State, sid: string, aid: string, caps: Option<seq<string>>, at: nat, t: string)
    requires RosterOk(s.roster, at) && SlashFree(sid) && SlashFree(t) && t != sid
    ensures ViewOf(s.(roster := Touched(s.roster, sid, aid, caps, at)), t) == ViewOf(s, t)
  {
    hide Touched, RecordsOf, BoxesOf, Key, SlashFree, Truthful;
    TouchIsLocal(s.roster, sid, aid, caps, at, t);
  }

  lemma AnnouncedIsLocal(lim: Limits, s: State, sid: string, aid: string, caps: seq<string>, kind: string, at: nat,
      t: string)
    requires SlashFree(sid) && SlashFree(t) && t != sid
    ensures ViewOf(Announced(lim, s, sid, aid, caps, kind, at), t) == ViewOf(s, t)
  {
    hide Emit, RecordsOf, BoxesOf, SlashFree;
    EmitIsLocal(lim, s.(sessions := TouchedActivity(s.sessions, sid, at)), sid, Events.Ambient, kind, SERVER,
        EVERYONE, AgentIs(aid, caps, true), t);
  }

  lemma RegisteredIsLocal(lim: Limits, s: State, sid: string, aid: string, caps: seq<string>, at: nat, t: string)
    requires RosterOk(s.roster, at) && SlashFree(sid) && SlashFree(t) && t != sid
    ensures ViewOf(Registered(lim, s, sid, aid, caps, at), t) == ViewOf(s, t)
  {
    hide Announced, RosterOk, ViewOf, FirstLeader, SlashFree, Touched, Known, Present;
    var s1 := s.(roster := Touched(s.roster, sid, aid, Some(caps), at));
    SeenIsLocal(s, sid, aid, Some(caps), at, t);
    AnnouncedIsLocal(lim, s1, sid, aid, caps, "agent_reconnected", at, t);
    var s2 := Announced(lim, s1, sid, aid, caps, "agent_reconnected", at);
    AnnouncedIsLocal(lim, s1, sid, aid, caps, "agent_joined", at, t);
    AnnouncedIsLocal(lim, s2, sid, aid, caps, "agent_joined", at, t);
    FirstLeaderIsLocal(Announced(lim, s1, sid, aid, caps, "agent_joined", at), sid, aid, t);
    FirstLeaderIsLocal(Announced(lim, s2, sid, aid, caps, "agent_joined", at), sid, aid, t);
  }

  lemma FirstLeaderIsLocal(s: State, sid: string, aid: string, t: string)
    requires t != sid
    ensures ViewOf(FirstLeader(s, sid, aid), t) == ViewOf(s, t)
  {
    hide RecordsOf, BoxesOf;
  }

  lemma DrainIsLocal(s: State, sid: string, aid: string, from: string, kind: string, at: nat, t: string)
    requires RosterOk(s.roster, at) && SlashFree(sid) && SlashFree(t) && t != sid
    ensures ViewOf(Seen(s, sid, aid, at), t) == ViewOf(s, t)
    ensures ViewOf(Drained(s, sid, aid, from, kind, at), t) == ViewOf(s, t)
  {
    hide RosterOk, RecordsOf, SlashFree, Touched, Key, Filter, InSession;
    SeenIsLocal(s, sid, aid, None, at, t);
    KeyInSession(sid, aid, t);
    assert Key(sid, aid) in s.boxes ==>
        BoxesOf(s.boxes[Key(sid, aid) := Filter(s.boxes[Key(sid, aid)], Events.Unmatched(from, kind))],
            t) == BoxesOf(s.boxes, t);
  }

  lemma PadIsLocal(lim: Limits, s: State, sid: string, aid: string, key: string, value: string, at: nat, t: string)
    requires SlashFree(sid) && SlashFree(t) && t != sid
    ensures ViewOf(PadChanged(lim, s, sid, aid, key, value, at), t) == ViewOf(s, t)
    ensures ViewOf(PadRemoved(lim, s, sid, aid, key), t) == ViewOf(s, t)
  {
    hide Emit, RecordsOf, BoxesOf, SlashFree, Pad;
    var e := PadEntry(key, value, aid, at);
    var a := s.(pads := s.pads[sid := Pad(s.pads, sid)[key := e]], padCounts := Bumped(s.padCounts, sid));
    var b := s.(pads := s.pads[sid := Pad(s.pads, sid) - {key}], padCounts := Bumped(s.padCounts, sid));
    EmitIsLocal(lim, a, sid, Events.System(aid), "scratchpad_update", aid, EVERYONE, PadSet(e), t);
    EmitIsLocal(lim, b, sid, Events.System(aid), "scratchpad_update", aid, EVERYONE, PadDeleted(key), t);
  }

  lemma TransferIsLocal(lim: Limits, s: State, sid: string, from: string, to: string, at: nat, t: string)
    requires SlashFree(sid) && SlashFree(t) && t != sid
    ensures ViewOf(Transferred(lim, s, sid, from, to, at), t) == ViewOf(s, t)
  {
    hide Emit, RecordsOf, BoxesOf, SlashFree, TransferRefusal;
    var a := s.(leaders := s.leaders[sid := to]);
    EmitIsLocal(lim, a, sid, Events.System(from), "leader_info", SERVER, EVERYONE, LeaderMoved(to, from), t);
  }

  lemma MessageIsLocal(lim: Limits, s: State, sid: string, from: string, to: string, kind: string, payload: Payload,
      t: string)
    requires SlashFree(sid) && SlashFree(t) && t != sid
    ensures ViewOf(Sent(lim, s, sid, from, to, kind, payload), t) == ViewOf(s, t)
    ensures ViewOf(Broadcasted(lim, s, sid, from, kind, payload), t) == ViewOf(s, t)
  {
    hide Emit, ViewOf, SlashFree, SendRefusal;
    EmitIsLocal(lim, s, sid, Events.Send(to), kind, from, to, payload, t);
    EmitIsLocal(lim, s, sid, Events.Broadcast(from), kind, from, EVERYONE, payload, t);
  }

  lemma SessionIsLocal(s: State, sid: string, x: Session, t: string)
    requires t != sid && x.id == sid
    ensures ViewOf(s.(sessions := s.sessions[sid := x]), t) == ViewOf(s, t)
  {
    hide RecordsOf, BoxesOf;
  }

  /** Isolation: an operation on one session changes nothing of any other. */
  lemma SessionsAreSeparate(lim: Limits, s: State, op: Op, t: string)
    requires RosterOk(s.roster, op.at) && Enabled(s, op) && Single(op) && SlashFree(t) && t != op.sid
    ensures ViewOf(Apply(lim, s, op), t) == ViewOf(s, t)
  {
    hide RosterOk, ViewOf, Closed, Registered, Refreshed, Drained, Seen, SlashFree, Touched, Sent, Broadcasted,
        PadChanged, PadRemoved, Transferred, SweptServer, SweepReports;
    match op {
      case Register(sid, aid, caps, at) => RegisteredIsLocal(lim, s, sid, aid, caps, at, t);
      case Refresh(sid, aid, at) => RefreshIsLocal(s, sid, aid, at, t);
      case Peek(sid, aid, at) => DrainIsLocal(s, sid, aid, "", "", at, t);
      case Drain(sid, aid, from, kind, at) => DrainIsLocal(s, sid, aid, from, kind, at, t);
      case Send(sid, from, to, kind, payload, at) => MessageIsLocal(lim, s, sid, from, to, kind, payload, t);
      case Broadcast(sid, from, kind, payload, at) => MessageIsLocal(lim, s, sid, from, "", kind, payload, t);
      case SetPad(sid, aid, key, value, at) => PadIsLocal(lim, s, sid, aid, key, value, at, t);
      case DeletePad(sid, aid, key, at) => PadIsLocal(lim, s, sid, aid, key, "", at, t);
      case Transfer(sid, from, to, at) => TransferIsLocal(lim, s, sid, from, to, at, t);
      case Create(sid, psk, name, at) => SessionIsLocal(s, sid, Session(sid, name, psk, at, Some(at)), t);
      case Open(sid, psk, at) => SessionIsLocal(s, sid, Session(sid, sid, psk, at, None), t);
      case Close(_, _) => RemovalIsExact(lim, s, op, t);
    }
  }

  lemma RefreshIsLocal(s: State, sid: string, aid: string, at: nat, t: string)
    requires RosterOk(s.roster, at) && SlashFree(sid) && SlashFree(t) && t != sid
    ensures ViewOf(Refreshed(s, sid, aid, at), t) == ViewOf(s, t)
  {
    hide RosterOk, RecordsOf, BoxesOf, SlashFree, Touched;
    SeenIsLocal(s, sid, aid, None, at, t);
  }
}
