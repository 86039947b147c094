/** What holds of the whole server after every run of atomic operations. */
module ServerSafety {
  import opened Sequences
  import opened Envelopes
  import opened History
  import opened Sessions
  import opened Scratchpad
  import opened PresenceSpec
  import opened Server
  import Events = EventProtocol

  // ---- The invariant -------------------------------------------------------------------------------

  /** Records are stored under their own keys, in sessions without '/', and a marked record is not live. */
  ghost predicate RosterOk(r: Roster, now: nat) {
    && KeysMatch(r)
    && forall k :: k in r.agents ==> SlashFree(r.agents[k].sid) && Truthful(r.agents[k], r.ttl, now)
  }

  /** The envelope names the sender and the recipient that its emitter had in mind. */
  predicate Labels(job: Events.Job, from: string, to: string) {
    match job
    case Send(recipient) => to == recipient
    case Broadcast(sender) => from == sender && to == EVERYONE
    case System(except) => (from == except || from == SERVER) && to == EVERYONE
    case Ambient => from == SERVER && to == EVERYONE
  }

  /** The events of a session are numbered on from the counter it began with, and carry its id and truthful labels. */
  ghost predicate LogOk(first: nat, sid: string, log: seq<Events.Issue>, counter: nat) {
    && Events.NumberedLog(first, log, counter)
    && forall i :: 0 <= i < |log| ==>
         log[i].env.session == sid && Labels(log[i].job, log[i].env.from, log[i].env.to)
  }

  ghost predicate LogsOk(s: State) {
    forall sid :: LogOk(FirstCounter(s, sid), sid, Log(s, sid), Counter(s, sid))
  }

  /** The history is the window of everything recorded, beginning with what was restored. */
  ghost predicate WindowOk(max: nat, boot: seq<Envelope>, log: seq<Events.Issue>, h: seq<Envelope>) {
    |boot| <= max && h == Newest(Events.FullHistory(boot, log), max)
  }

  ghost predicate HistoriesOk(s: State, max: nat) {
    forall sid :: WindowOk(max, FirstHistory(s, sid), Log(s, sid), HistoryOf(s, sid))
  }

  /** x is the event issued under its number, and its emitter meant it for this agent. */
  predicate Meant(first: nat, log: seq<Events.Issue>, aid: string, x: Envelope) {
    Events.Genuine(first, log, x) && Events.Addressed(log[x.number - first - 1].job, aid)
  }

  /** Among entries of which one is new the order is that of their numbers. */
  ghost predicate NewInOrder(first: nat, q: seq<Envelope>) {
    forall i, j :: 0 <= i < j < |q| && (q[i].number > first || q[j].number > first) ==> q[i].number < q[j].number
  }

  /** A mailbox holds restored entries and new events meant for its agent, and if the restored ones fit the counter,
      the new ones come after them and in order. */
  ghost predicate BoxOk(first: nat, log: seq<Events.Issue>, aid: string, kept: seq<Envelope>, q: seq<Envelope>) {
    && (Events.Below(kept, first) ==> NewInOrder(first, q) && (Ordered(kept) ==> Ordered(q)))
    && forall x :: x in q ==> x in kept || Meant(first, log, aid, x)
  }

  /** A mailbox without an owner is as it was restored. */
  ghost predicate BoxFits(s: State, owners: map<string, Agent>, k: string)
    requires k in s.boxes
  {
    if k in owners then
      var a := owners[k];
      BoxOk(FirstCounter(s, a.sid), Log(s, a.sid), a.aid, BoxAt(s.origin.boxes, k), s.boxes[k])
    else k in s.origin.boxes && s.boxes[k] == s.origin.boxes[k]
  }

  ghost predicate BoxesOk(s: State, owners: map<string, Agent>) {
    forall k :: k in s.boxes ==> BoxFits(s, owners, k)
  }

  ghost predicate Extends(owners: map<string, Agent>, r: Roster) {
    forall k :: k in r.agents ==> k in owners && owners[k].sid == r.agents[k].sid && owners[k].aid == r.agents[k].aid
  }

  /** A session's leader is a known member whose Expired flag is clear. */
  predicate Leads(r: Roster, sid: string, aid: string) {
    Known(r, sid, aid) && !r.agents[Key(sid, aid)].expired
  }

  ghost predicate LeadersOk(s: State) {
    forall sid :: sid in s.leaders ==> SlashFree(sid) && Leads(s.roster, sid, s.leaders[sid])
  }

  /** Everything but leadership. During a sweep the owners include agents whose mailbox is about to go. */
  ghost predicate Base(lim: Limits, s: State, now: nat, owners: map<string, Agent>) {
    && RosterOk(s.roster, now) && LogsOk(s) && HistoriesOk(s, lim.history) && RecordsOk(s)
    && BoxesOk(s, owners) && Extends(owners, s.roster)
  }

  ghost predicate Inv(lim: Limits, s: State, now: nat) {
    Base(lim, s, now, s.roster.agents) && LeadersOk(s)
  }

  // ---- Emitting one event --------------------------------------------------------------------------

  /** The key of a member leads to its record. */
  lemma MemberRecord(r: Roster, sid: string, aid: string)
    requires KeysMatch(r) && aid in Members(r, sid)
    ensures Key(sid, aid) in r.agents && r.agents[Key(sid, aid)].sid == sid && r.agents[Key(sid, aid)].aid == aid
  {
    hide Key;
  }

  lemma KnownMember(r: Roster, now: nat, sid: string, aid: string)
    requires RosterOk(r, now) && SlashFree(sid)
    ensures Known(r, sid, aid) <==> aid in Members(r, sid)
    ensures Key(sid, aid) in r.agents <==> aid in Members(r, sid)
  {
    if aid in Members(r, sid) {
      MemberRecord(r, sid, aid);
    } else if Key(sid, aid) in r.agents {
      var a := r.agents[Key(sid, aid)];
      KeyInjective(sid, aid, a.sid, a.aid);
    }
  }

  lemma AddresseesAreMembers(job: Events.Job, members: set<string>)
    requires job.Send? ==> job.to in members
    ensures Events.Addressees(job, members) <= members
    ensures forall a :: a in Events.Addressees(job, members) ==> Events.Addressed(job, a)
  {
  }

  lemma BoxGrows(first: nat, log: seq<Events.Issue>, aid: string, kept: seq<Envelope>, q: seq<Envelope>,
      x: Events.Issue)
    requires BoxOk(first, log, aid, kept, q)
    ensures BoxOk(first, log + [x], aid, kept, q)
  {
    hide NewInOrder, Ordered;
  }

  /** The new event goes to the end of the box. */
  lemma BoxTakes(sid: string, first: nat, log: seq<Events.Issue>, counter: nat, aid: string, kept: seq<Envelope>,
      q: seq<Envelope>, x: Events.Issue, max: nat)
    requires BoxOk(first, log, aid, kept, q) && LogOk(first, sid, log, counter) && x.env.number == counter + 1
    requires Events.Addressed(x.job, aid)
    ensures BoxOk(first, log + [x], aid, kept, Newest(q + [x.env], max))
  {
    hide Newest, Events.Addressed;
    BoxGrows(first, log, aid, kept, q, x);
    assert forall i :: 0 <= i < |q| ==> q[i] in q && (Events.Below(kept, first) ==> q[i].number <= counter);
    NewestSuffix(q + [x.env], max);
    assert Meant(first, log + [x], aid, x.env);
  }

  lemma LogTakes(first: nat, sid: string, log: seq<Events.Issue>, counter: nat, x: Events.Issue)
    requires LogOk(first, sid, log, counter) && x.env.number == counter + 1 && x.env.session == sid
    requires Labels(x.job, x.env.from, x.env.to)
    ensures LogOk(first, sid, log + [x], counter + 1)
  {
    hide Labels;
  }

  /** What an emit changes, session by session. */
  lemma EmitEffect(lim: Limits, s: State, sid: string, job: Events.Job, kind: string, from: string, to: string,
      payload: Payload)
    ensures var e := Envelope(kind, sid, from, to, payload, Counter(s, sid) + 1);
            var s' := Emit(lim, s, sid, job, kind, from, to, payload);
            && s' == s.(counters := s'.counters, history := s'.history, boxes := s'.boxes, log := s'.log)
            && (forall t :: Counter(s', t) == if t == sid then e.number else Counter(s, t))
            && (forall t :: Log(s', t) == if t == sid then Log(s, t) + [Events.Issue(e, job)] else Log(s, t))
            && (forall t :: HistoryOf(s', t) ==
                            if t == sid && Events.Recorded(job) then Newest(HistoryOf(s, t) + [e], lim.history)
                            else HistoryOf(s, t))
            && s'.boxes == Fanned(s.boxes, KeysOf(sid, Events.Addressees(job, Members(s.roster, sid))), e, lim.box)
  {
    hide Newest, Fanned, Members, KeysOf, Events.Addressees;
  }

  lemma EmitLogs(s: State, s': State, sid: string, x: Events.Issue)
    requires LogsOk(s) && x.env.number == Counter(s, sid) + 1 && x.env.session == sid
    requires Labels(x.job, x.env.from, x.env.to) && s'.origin == s.origin
    requires forall t :: Counter(s', t) == if t == sid then x.env.number else Counter(s, t)
    requires forall t :: Log(s', t) == if t == sid then Log(s, t) + [x] else Log(s, t)
    ensures LogsOk(s')
  {
    hide LogOk, Log, Counter;
    forall t
      ensures LogOk(FirstCounter(s', t), t, Log(s', t), Counter(s', t))
    {
      assert LogOk(FirstCounter(s, t), t, Log(s, t), Counter(s, t));
      if t == sid {
        LogTakes(FirstCounter(s, sid), sid, Log(s, sid), Counter(s, sid), x);
      }
    }
  }

  lemma EmitHistories(s: State, s': State, sid: string, x: Events.Issue, max: nat)
    requires HistoriesOk(s, max) && max >= 1 && s'.origin == s.origin
    requires forall t :: Log(s', t) == if t == sid then Log(s, t) + [x] else Log(s, t)
    requires forall t :: HistoryOf(s', t) ==
                         if t == sid && Events.Recorded(x.job) then Newest(HistoryOf(s, t) + [x.env], max)
                         else HistoryOf(s, t)
    ensures HistoriesOk(s', max)
  {
    hide Log, HistoryOf, WindowOk;
    forall t
      ensures WindowOk(max, FirstHistory(s', t), Log(s', t), HistoryOf(s', t))
    {
      assert WindowOk(max, FirstHistory(s, t), Log(s, t), HistoryOf(s, t));
      if t == sid {
        WindowTakes(max, FirstHistory(s, t), Log(s, t), HistoryOf(s, t), x);
      }
    }
  }

  lemma WindowTakes(max: nat, boot: seq<Envelope>, log: seq<Events.Issue>, h: seq<Envelope>, x: Events.Issue)
    requires WindowOk(max, boot, log, h) && max >= 1
    ensures WindowOk(max, boot, log + [x], if Events.Recorded(x.job) then Newest(h + [x.env], max) else h)
  {
    hide Newest, Events.Messages;
    Events.MessagesStep(log, x);
    NewestAppend(Events.FullHistory(boot, log), x.env, max);
    assert boot + (Events.Messages(log) + [x.env]) == Events.FullHistory(boot, log) + [x.env];
    assert Events.Messages(log) + [] == Events.Messages(log);
  }

  lemma EmitBoxes(s: State, s': State, now: nat, owners: map<string, Agent>, sid: string, x: Events.Issue, max: nat)
    requires BoxesOk(s, owners) && Extends(owners, s.roster) && RosterOk(s.roster, now) && s'.roster == s.roster
    requires LogOk(FirstCounter(s, sid), sid, Log(s, sid), Counter(s, sid)) && x.env.number == Counter(s, sid) + 1
    requires (x.job.Send? ==> x.job.to in Members(s.roster, sid)) && s'.origin == s.origin
    requires forall t :: Log(s', t) == if t == sid then Log(s, t) + [x] else Log(s, t)
    requires s'.boxes == Fanned(s.boxes, KeysOf(sid, Events.Addressees(x.job, Members(s.roster, sid))), x.env, max)
    ensures BoxesOk(s', owners)
  {
    hide Log, Counter, BoxOk, LogOk, Newest, Key, Members, Events.Addressees, Events.Addressed, Truthful, KeysMatch;
    var to := Events.Addressees(x.job, Members(s.roster, sid));
    AddresseesAreMembers(x.job, Members(s.roster, sid));
    forall k | k in s'.boxes
      ensures BoxFits(s', owners, k)
    {
      if k in KeysOf(sid, to) {
        var a :| a in to && k == Key(sid, a);
        MemberRecord(s.roster, sid, a);
        var first, kept := FirstCounter(s, sid), BoxAt(s.origin.boxes, k);
        EmptyBoxOk(first, Log(s, sid), a, kept);
        BoxTakes(sid, first, Log(s, sid), Counter(s, sid), a, kept, BoxAt(s.boxes, k), x, max);
      } else if k in owners {
        var r := owners[k];
        BoxGrows(FirstCounter(s, r.sid), Log(s, r.sid), r.aid, BoxAt(s.origin.boxes, k), s.boxes[k], x);
      }
    }
  }

  lemma EmptyBoxOk(first: nat, log: seq<Events.Issue>, aid: string, kept: seq<Envelope>)
    ensures BoxOk(first, log, aid, kept, [])
  {
  }

  /** Emitting keeps the invariant: a direct message must go to a known member. */
  lemma EmitBase(lim: Limits, s: State, now: nat, owners: map<string, Agent>, sid: string, job: Events.Job,
      kind: string, from: string, to: string, payload: Payload)
    requires Base(lim, s, now, owners) && lim.history >= 1
    requires Labels(job, from, to) && (job.Send? ==> job.to in Members(s.roster, sid))
    ensures Base(lim, Emit(lim, s, sid, job, kind, from, to, payload), now, owners)
  {
    hide RosterOk, LogsOk, HistoriesOk, BoxesOk, RecordsOk, Extends, Emit, Members, Fanned, KeysOf, Newest, Log,
        HistoryOf, Counter;
    var s' := Emit(lim, s, sid, job, kind, from, to, payload);
    var x := Events.Issue(Envelope(kind, sid, from, to, payload, Counter(s, sid) + 1), job);
    EmitEffect(lim, s, sid, job, kind, from, to, payload);
    LogOf(s, sid);
    EmitLogs(s, s', sid, x);
    EmitHistories(s, s', sid, x, lim.history);
    EmitBoxes(s, s', now, owners, sid, x, lim.box);
    SameRecords(s, s');
  }

  lemma EmitInv(lim: Limits, s: State, now: nat, sid: string, job: Events.Job, kind: string, from: string,
      to: string, payload: Payload)
    requires Inv(lim, s, now) && lim.history >= 1
    requires Labels(job, from, to) && (job.Send? ==> job.to in Members(s.roster, sid))
    ensures Inv(lim, Emit(lim, s, sid, job, kind, from, to, payload), now)
  {
    hide Base, LeadersOk, Emit, Members;
    EmitBase(lim, s, now, s.roster.agents, sid, job, kind, from, to, payload);
    EmitEffect(lim, s, sid, job, kind, from, to, payload);
    SameLeaders(s, Emit(lim, s, sid, job, kind, from, to, payload));
  }

  lemma LogOf(s: State, sid: string)
    requires LogsOk(s)
    ensures LogOk(FirstCounter(s, sid), sid, Log(s, sid), Counter(s, sid))
  {
  }

  lemma SameLeaders(s: State, s': State)
    requires LeadersOk(s) && s'.leaders == s.leaders && s'.roster == s.roster
    ensures LeadersOk(s')
  {
    hide Leads;
  }

  lemma SameRecords(s: State, s': State)
    requires RecordsOk(s) && s'.sessions == s.sessions && s'.pads == s.pads
    ensures RecordsOk(s')
  {
  }

  // ---- The other building blocks ---------------------------------------------------------------------

  /** Time passes. */
  lemma LaterInv(lim: Limits, s: State, now: nat, later: nat)
    requires Inv(lim, s, now) && now <= later
    ensures Inv(lim, s, later)
  {
    hide LogsOk, HistoriesOk, BoxesOk, LeadersOk, RecordsOk, KeysMatch, Extends;
  }

  lemma SameLogs(lim: Limits, s: State, s': State)
    requires LogsOk(s) && HistoriesOk(s, lim.history)
    requires s'.log == s.log && s'.counters == s.counters && s'.history == s.history
    requires s'.origin.counters == s.origin.counters && s'.origin.history == s.origin.history
    ensures LogsOk(s') && HistoriesOk(s', lim.history)
  {
    hide LogOk, WindowOk;
    assert forall t :: Log(s', t) == Log(s, t) && Counter(s', t) == Counter(s, t);
    assert forall t :: HistoryOf(s', t) == HistoryOf(s, t) && FirstHistory(s', t) == FirstHistory(s, t);
    assert forall t :: FirstCounter(s', t) == FirstCounter(s, t);
  }

  lemma SameBoxes(s: State, s': State, owners: map<string, Agent>)
    requires BoxesOk(s, owners) && s'.log == s.log && s'.boxes == s.boxes && s'.origin == s.origin
    ensures BoxesOk(s', owners)
  {
    hide BoxOk;
    assert forall k :: k in s.boxes ==> BoxFits(s, owners, k);
  }

  /** Only the sessions or the pads change. */
  lemma StoresInv(lim: Limits, s: State, s': State, now: nat)
    requires Inv(lim, s, now) && RecordsOk(s')
    requires s' == s.(sessions := s'.sessions, pads := s'.pads, padCounts := s'.padCounts)
    ensures Inv(lim, s', now)
  {
    hide RosterOk, LogsOk, HistoriesOk, BoxesOk, LeadersOk, RecordsOk, Extends;
    SameLogs(lim, s, s');
    SameBoxes(s, s', s.roster.agents);
    SameLeaders(s, s');
  }

  lemma TouchedRecords(s: State, sid: string, at: nat)
    requires RecordsOk(s)
    ensures RecordsOk(s.(sessions := TouchedActivity(s.sessions, sid, at)))
  {
    hide IdsMatch, PadsMatch, SlashFree;
    IdsKept(s.sessions, Session(sid, "", "", 0, None), sid, at);
  }

  lemma NewRecords(s: State, x: Session)
    requires RecordsOk(s) && SlashFree(x.id)
    ensures RecordsOk(s.(sessions := s.sessions[x.id := x]))
  {
    hide IdsMatch, PadsMatch, SlashFree;
    IdsKept(s.sessions, x, x.id, 0);
  }

  lemma PadRecords(s: State, sid: string, key: string, e: PadEntry, n: map<string, nat>)
    requires RecordsOk(s) && e.key == key
    ensures RecordsOk(s.(pads := s.pads[sid := Pad(s.pads, sid)[key := e]], padCounts := n))
    ensures RecordsOk(s.(pads := s.pads[sid := Pad(s.pads, sid) - {key}], padCounts := n))
  {
    hide Pad, PadsMatch, SlashFree, IdsMatch;
    PadsKept(s.pads, sid, key, e);
  }

  /** A touch at the present time. */
  lemma SeenInv(lim: Limits, s: State, now: nat, sid: string, aid: string, caps: Option<seq<string>>)
    requires Inv(lim, s, now) && SlashFree(sid)
    ensures Inv(lim, s.(roster := Touched(s.roster, sid, aid, caps, now)), now)
  {
    hide RosterOk, LogsOk, HistoriesOk, RecordsOk, LeadersOk, BoxesOk, Leads, Touched, Extends;
    var s' := s.(roster := Touched(s.roster, sid, aid, caps, now));
    SeenRoster(s.roster, now, sid, aid, caps);
    SeenLeaders(s, s', now, sid, aid, caps);
    SeenBoxes(s, s', now, sid, aid);
    SameLogs(lim, s, s');
    SameRecords(s, s');
    Reflexive(s'.roster);
  }

  /** An agent that is seen for the first time finds its restored mail. */
  lemma SeenBoxes(s: State, s': State, now: nat, sid: string, aid: string)
    requires BoxesOk(s, s.roster.agents) && RosterOk(s.roster, now) && RosterOk(s'.roster, now) && SlashFree(sid)
    requires s'.boxes == s.boxes && s'.log == s.log && s'.origin == s.origin
    requires s'.roster.agents.Keys == s.roster.agents.Keys + {Key(sid, aid)}
    requires forall k :: k in s.roster.agents ==>
                           s'.roster.agents[k].sid == s.roster.agents[k].sid &&
                           s'.roster.agents[k].aid == s.roster.agents[k].aid
    ensures BoxesOk(s', s'.roster.agents)
  {
    hide BoxOk, Key, SlashFree, Truthful;
    forall k | k in s'.boxes
      ensures BoxFits(s', s'.roster.agents, k)
    {
      assert BoxFits(s, s.roster.agents, k);
      if k !in s.roster.agents && k in s'.roster.agents {
        var a := s'.roster.agents[k];
        FirstBox(FirstCounter(s, a.sid), Log(s, a.sid), a.aid, s.boxes[k]);
      }
    }
  }

  lemma FirstBox(first: nat, log: seq<Events.Issue>, aid: string, q: seq<Envelope>)
    ensures BoxOk(first, log, aid, q, q)
  {
    assert forall i :: 0 <= i < |q| ==> q[i] in q;
  }

  lemma Reflexive(r: Roster)
    ensures Extends(r.agents, r)
  {
  }

  lemma SeenRoster(r: Roster, now: nat, sid: string, aid: string, caps: Option<seq<string>>)
    requires RosterOk(r, now) && SlashFree(sid)
    ensures var r' := Touched(r, sid, aid, caps, now);
            && RosterOk(r', now) && r'.agents.Keys == r.agents.Keys + {Key(sid, aid)}
            && (forall k :: k in r.agents ==>
                 r'.agents[k].sid == r.agents[k].sid && r'.agents[k].aid == r.agents[k].aid)
  {
    hide Key, SlashFree;
  }

  lemma SeenLeaders(s: State, s': State, now: nat, sid: string, aid: string, caps: Option<seq<string>>)
    requires LeadersOk(s) && s'.leaders == s.leaders && s'.roster == Touched(s.roster, sid, aid, caps, now)
    ensures LeadersOk(s')
  {
    hide Key, SlashFree;
  }

  /** Only the leaders change. */
  lemma LeaderBase(lim: Limits, s: State, now: nat, owners: map<string, Agent>, leaders: map<string, string>)
    requires Base(lim, s, now, owners)
    ensures Base(lim, s.(leaders := leaders), now, owners)
  {
    hide RosterOk, LogsOk, HistoriesOk, BoxesOk, RecordsOk, Extends;
    var s' := s.(leaders := leaders);
    SameLogs(lim, s, s');
    SameBoxes(s, s', owners);
    SameRecords(s, s');
  }

  /** A leader may be replaced by any member whose flag is clear. */
  lemma LeaderInv(lim: Limits, s: State, now: nat, sid: string, aid: string)
    requires Inv(lim, s, now) && SlashFree(sid) && Leads(s.roster, sid, aid)
    ensures Inv(lim, s.(leaders := s.leaders[sid := aid]), now)
  {
    hide Base, Leads;
    LeaderBase(lim, s, now, s.roster.agents, s.leaders[sid := aid]);
  }

  /** A mailbox may be filtered. */
  lemma DrainedInv(lim: Limits, s: State, now: nat, k: string, p: Envelope -> bool)
    requires Inv(lim, s, now) && k in s.boxes && k in s.roster.agents
    ensures Inv(lim, s.(boxes := s.boxes[k := Filter(s.boxes[k], p)]), now)
  {
    hide RosterOk, RecordsOk, LogsOk, HistoriesOk, LeadersOk, BoxOk, Filter, Extends;
    var s' := s.(boxes := s.boxes[k := Filter(s.boxes[k], p)]);
    SameLogs(lim, s, s');
    SameRecords(s, s');
    SameLeaders(s, s');
    var a := s.roster.agents[k];
    FilteredBox(FirstCounter(s, a.sid), Log(s, a.sid), a.aid, BoxAt(s.origin.boxes, k), s.boxes[k], p);
    forall j | j in s'.boxes
      ensures BoxFits(s', s.roster.agents, j)
    {
      assert BoxFits(s, s.roster.agents, j);
    }
  }

  lemma FilteredBox(first: nat, log: seq<Events.Issue>, aid: string, kept: seq<Envelope>, q: seq<Envelope>,
      p: Envelope -> bool)
    requires BoxOk(first, log, aid, kept, q)
    ensures BoxOk(first, log, aid, kept, Filter(q, p))
  {
    hide Meant, Filter, NewInOrder, Ordered, Events.Below;
    FilterMembers(q, p);
    if NewInOrder(first, q) {
      FilterInOrder(first, q, p);
    }
    if Ordered(q) {
      FilterOrdered(q, p);
    }
  }

  lemma {:induction false} FilterInOrder(first: nat, q: seq<Envelope>, p: Envelope -> bool)
    requires NewInOrder(first, q)
    ensures NewInOrder(first, Filter(q, p))
  {
    if q != [] {
      var r := q[..|q| - 1];
      FilterInOrder(first, r, p);
      FilterMembers(r, p);
      assert forall i :: 0 <= i < |Filter(r, p)| ==> Filter(r, p)[i] in r;
    }
  }

  lemma {:induction false} FilterOrdered(q: seq<Envelope>, p: Envelope -> bool)
    requires Ordered(q)
    ensures Ordered(Filter(q, p))
  {
    if q != [] {
      var r := q[..|q| - 1];
      FilterOrdered(r, p);
      FilterMembers(r, p);
      assert forall i :: 0 <= i < |Filter(r, p)| ==> Filter(r, p)[i] in r;
    }
  }

  // ---- Operations on one session -------------------------------------------------------------------

  lemma AnnouncedInv(lim: Limits, s: State, now: nat, sid: string, aid: string, caps: seq<string>, kind: string,
      at: nat)
    requires Inv(lim, s, now) && lim.history >= 1
    ensures Inv(lim, Announced(lim, s, sid, aid, caps, kind, at), now)
    ensures Announced(lim, s, sid, aid, caps, kind, at).roster == s.roster
  {
    hide Base, LeadersOk, Emit, TouchedActivity;
    var s1 := s.(sessions := TouchedActivity(s.sessions, sid, at));
    InvParts(lim, s, now);
    TouchedRecords(s, sid, at);
    StoresInv(lim, s, s1, now);
    EmitInv(lim, s1, now, sid, Events.Ambient, kind, SERVER, EVERYONE, AgentIs(aid, caps, true));
    EmitEffect(lim, s1, sid, Events.Ambient, kind, SERVER, EVERYONE, AgentIs(aid, caps, true));
  }

  lemma InvParts(lim: Limits, s: State, now: nat)
    requires Inv(lim, s, now)
    ensures RecordsOk(s) && RosterOk(s.roster, now) && LeadersOk(s) && BoxesOk(s, s.roster.agents)
  {
    hide RosterOk, LogsOk, HistoriesOk, BoxesOk, LeadersOk, RecordsOk, Extends;
  }

  lemma RegisteredInv(lim: Limits, s: State, sid: string, aid: string, caps: seq<string>, at: nat)
    requires Inv(lim, s, at) && lim.history >= 1 && SlashFree(sid)
    ensures Inv(lim, Registered(lim, s, sid, aid, caps, at), at)
  {
    hide Inv, Announced, Touched, Known, Present, Leads, SlashFree;
    var r1 := Touched(s.roster, sid, aid, Some(caps), at);
    var s1 := s.(roster := r1);
    SeenInv(lim, s, at, sid, aid, Some(caps));
    AnnouncedInv(lim, s1, at, sid, aid, caps, "agent_reconnected", at);
    var known, live := Known(s.roster, sid, aid), Present(s.roster, sid, aid, at);
    var s2 := if known && !live then Announced(lim, s1, sid, aid, caps, "agent_reconnected", at) else s1;
    AnnouncedInv(lim, s2, at, sid, aid, caps, "agent_joined", at);
    if Key(sid, aid) !in s.roster.agents {
      NewLeads(s.roster, sid, aid, caps, at);
      LeaderInv(lim, Announced(lim, s2, sid, aid, caps, "agent_joined", at), at, sid, aid);
    }
  }

  lemma NewLeads(r: Roster, sid: string, aid: string, caps: seq<string>, at: nat)
    requires Key(sid, aid) !in r.agents
    ensures Leads(Touched(r, sid, aid, Some(caps), at), sid, aid)
  {
    hide Key;
  }

  lemma TransferredInv(lim: Limits, s: State, sid: string, from: string, to: string, at: nat)
    requires Inv(lim, s, at) && lim.history >= 1 && SlashFree(sid)
    ensures Inv(lim, Transferred(lim, s, sid, from, to, at), at)
  {
    hide Base, LeadersOk, Emit, Leads, SlashFree, Present;
    if TransferRefusal(s, sid, from, to, at).None? {
      InvParts(lim, s, at);
      PresentLeads(s.roster, sid, to, at);
      LeaderInv(lim, s, at, sid, to);
      EmitInv(lim, s.(leaders := s.leaders[sid := to]), at, sid, Events.System(from), "leader_info", SERVER,
          EVERYONE, LeaderMoved(to, from));
    }
  }

  lemma PresentLeads(r: Roster, sid: string, aid: string, at: nat)
    requires RosterOk(r, at) && SlashFree(sid) && Present(r, sid, aid, at)
    ensures Leads(r, sid, aid)
  {
    var a := r.agents[Key(sid, aid)];
    assert Key(sid, aid) == Key(a.sid, a.aid);
    KeyInjective(sid, aid, a.sid, a.aid);
  }

  lemma PadChangedInv(lim: Limits, s: State, sid: string, aid: string, key: string, value: string, at: nat)
    requires Inv(lim, s, at) && lim.history >= 1
    ensures Inv(lim, PadChanged(lim, s, sid, aid, key, value, at), at)
    ensures Inv(lim, PadRemoved(lim, s, sid, aid, key), at)
  {
    hide Base, LeadersOk, Emit, Pad, Bumped;
    var e := PadEntry(key, value, aid, at);
    var a := s.(pads := s.pads[sid := Pad(s.pads, sid)[key := e]], padCounts := Bumped(s.padCounts, sid));
    var b := s.(pads := s.pads[sid := Pad(s.pads, sid) - {key}], padCounts := Bumped(s.padCounts, sid));
    InvParts(lim, s, at);
    PadRecords(s, sid, key, e, Bumped(s.padCounts, sid));
    StoresInv(lim, s, a, at);
    StoresInv(lim, s, b, at);
    EmitInv(lim, a, at, sid, Events.System(aid), "scratchpad_update", aid, EVERYONE, PadSet(e));
    EmitInv(lim, b, at, sid, Events.System(aid), "scratchpad_update", aid, EVERYONE, PadDeleted(key));
  }

  lemma MessagesInv(lim: Limits, s: State, sid: string, from: string, to: string, kind: string, payload: Payload,
      at: nat)
    requires Inv(lim, s, at) && lim.history >= 1
    ensures Inv(lim, Sent(lim, s, sid, from, to, kind, payload), at)
    ensures Inv(lim, Broadcasted(lim, s, sid, from, kind, payload), at)
  {
    hide Inv, Emit, Members;
    EmitInv(lim, s, at, sid, Events.Broadcast(from), kind, from, EVERYONE, payload);
    if to in Members(s.roster, sid) {
      EmitInv(lim, s, at, sid, Events.Send(to), kind, from, to, payload);
    }
  }

  lemma SeenDrainedInv(lim: Limits, s: State, sid: string, aid: string, from: string, kind: string, at: nat)
    requires Inv(lim, s, at) && SlashFree(sid)
    ensures Inv(lim, Seen(s, sid, aid, at), at)
    ensures Inv(lim, Drained(s, sid, aid, from, kind, at), at)
  {
    hide Inv, Filter, SlashFree, Key;
    SeenInv(lim, s, at, sid, aid, None);
    if Key(sid, aid) in s.boxes {
      DrainedInv(lim, Seen(s, sid, aid, at), at, Key(sid, aid), Events.Unmatched(from, kind));
    }
  }

  lemma SessionsInv(lim: Limits, s: State, sid: string, x: Session, at: nat)
    requires Inv(lim, s, at) && SlashFree(sid)
    ensures Inv(lim, s.(sessions := TouchedActivity(s.sessions, sid, at)), at)
    ensures x.id == sid ==> Inv(lim, s.(sessions := s.sessions[sid := x]), at)
  {
    hide Base, LeadersOk, TouchedActivity, SlashFree;
    InvParts(lim, s, at);
    TouchedRecords(s, sid, at);
    StoresInv(lim, s, s.(sessions := TouchedActivity(s.sessions, sid, at)), at);
    if x.id == sid {
      NewRecords(s, x);
      StoresInv(lim, s, s.(sessions := s.sessions[sid := x]), at);
    }
  }

  // ---- Closing sessions ------------------------------------------------------------------------------

  lemma ClosedInv(lim: Limits, s: State, now: nat, gone: set<string>)
    requires Inv(lim, s, now)
    ensures Inv(lim, Closed(s, gone), now)
  {
    hide LogsOk, HistoriesOk, BoxesOk, RecordsOk, Key, SlashFree, OfSession, Truthful, Leads;
    var s' := Closed(s, gone);
    ClosedLogs(lim, s, gone);
    ClosedLeaders(s, gone);
    ClosedBoxes(s, gone);
    ClosedRecords(s, gone);
  }

  lemma ClosedRecords(s: State, gone: set<string>)
    requires RecordsOk(s)
    ensures RecordsOk(Closed(s, gone))
  {
    hide OfSession;
  }

  lemma ClosedValues(s: State, gone: set<string>, t: string)
    ensures var s' := Closed(s, gone);
            if t in gone then Log(s', t) == [] && HistoryOf(s', t) == [] && Counter(s', t) == 0
                 && FirstCounter(s', t) == 0 && FirstHistory(s', t) == []
            else Log(s', t) == Log(s, t) && HistoryOf(s', t) == HistoryOf(s, t) && Counter(s', t) == Counter(s, t)
                 && FirstCounter(s', t) == FirstCounter(s, t) && FirstHistory(s', t) == FirstHistory(s, t)
  {
    hide RosterWithout, BoxesWithout;
  }

  lemma NothingYet(sid: string, max: nat)
    ensures LogOk(0, sid, [], 0) && WindowOk(max, [], [], [])
  {
    hide Newest;
    NewestCut<Envelope>([], max);
  }

  lemma ClosedLogs(lim: Limits, s: State, gone: set<string>)
    requires LogsOk(s) && HistoriesOk(s, lim.history)
    ensures LogsOk(Closed(s, gone)) && HistoriesOk(Closed(s, gone), lim.history)
  {
    hide Closed, LogOk, WindowOk, Log, HistoryOf, Counter, FirstCounter, FirstHistory;
    var s' := Closed(s, gone);
    forall t
      ensures LogOk(FirstCounter(s', t), t, Log(s', t), Counter(s', t))
      ensures WindowOk(lim.history, FirstHistory(s', t), Log(s', t), HistoryOf(s', t))
    {
      ClosedValues(s, gone, t);
      NothingYet(t, lim.history);
      assert LogOk(FirstCounter(s, t), t, Log(s, t), Counter(s, t));
      assert WindowOk(lim.history, FirstHistory(s, t), Log(s, t), HistoryOf(s, t));
    }
  }

  lemma ClosedLeaders(s: State, gone: set<string>)
    requires LeadersOk(s)
    ensures LeadersOk(Closed(s, gone))
  {
    hide OfSession, Key, SlashFree;
  }

  lemma ClosedBoxes(s: State, gone: set<string>)
    requires BoxesOk(s, s.roster.agents) && KeysMatch(s.roster)
    ensures BoxesOk(Closed(s, gone), Closed(s, gone).roster.agents)
  {
    hide BoxOk, Key, SlashFree;
    var s' := Closed(s, gone);
    forall k | k in s'.boxes
      ensures BoxFits(s', s'.roster.agents, k)
    {
      assert BoxFits(s, s.roster.agents, k);
      if k in s.roster.agents {
        var a := s.roster.agents[k];
        KeyStarts(a.sid, a.aid);
        ClosedValues(s, gone, a.sid);
      }
    }
  }

  lemma KeyStarts(sid: string, aid: string)
    ensures sid + "/" <= Key(sid, aid)
  {
  }
}
