/** The presence sweep and its callbacks keep the server consistent, however many members lapse or are forgotten. */
module ServerSweep {
  import opened Envelopes
  import opened PresenceSpec
  import opened Server
  import opened ServerSafety
  import Events = EventProtocol

  /** Some callback still to come is for this agent. */
  predicate Waiting(lapsed: seq<Agent>, n: nat, sid: string, aid: string) {
    exists j :: n <= j < |lapsed| && lapsed[j].sid == sid && lapsed[j].aid == aid
  }

  /** Between callbacks a leader may be marked only if its own callback is still to come. */
  ghost predicate LeadersPending(s: State, lapsed: seq<Agent>, n: nat) {
    forall sid :: sid in s.leaders ==>
      SlashFree(sid) && (Leads(s.roster, sid, s.leaders[sid]) || Waiting(lapsed, n, sid, s.leaders[sid]))
  }

  lemma SweptBase(lim: Limits, s: State, at: nat)
    requires Inv(lim, s, at)
    ensures Base(lim, s.(roster := Swept(s.roster, at)), at, s.roster.agents)
  {
    hide LogsOk, HistoriesOk, RecordsOk, BoxesOk, LeadersOk, Key, SlashFree, ForgetsNow;
    var s' := s.(roster := Swept(s.roster, at));
    SameLogs(lim, s, s');
    SameRecords(s, s');
    SameBoxes(s, s', s.roster.agents);
  }

  lemma SweptLeaders(s: State, at: nat, lapsed: seq<Agent>, keys: seq<string>)
    requires LeadersOk(s) && KeysMatch(s.roster)
    requires Lists(keys, Expiring(s.roster, at)) && Reports(lapsed, keys, s.roster, at)
    ensures LeadersPending(s.(roster := Swept(s.roster, at)), lapsed, 0)
  {
    hide SlashFree;
    var r' := Swept(s.roster, at);
    forall sid | sid in s.leaders
      ensures SlashFree(sid) && (Leads(r', sid, s.leaders[sid]) || Waiting(lapsed, 0, sid, s.leaders[sid]))
    {
      var k := Key(sid, s.leaders[sid]);
      if k in Expiring(s.roster, at) {
        var j :| 0 <= j < |keys| && keys[j] == k;
        assert lapsed[j] == Marked(s.roster, k, at);
        KeyInjectiveAt(s.roster, k, sid, s.leaders[sid]);
      }
    }
  }

  lemma KeyInjectiveAt(r: Roster, k: string, sid: string, aid: string)
    requires KeysMatch(r) && k in r.agents && k == Key(sid, aid) && r.agents[k].sid == sid
    ensures r.agents[k].aid == aid
  {
    assert Key(sid, aid)[|sid| + 1..] == aid;
    assert Key(sid, r.agents[k].aid)[|sid| + 1..] == r.agents[k].aid;
  }

  lemma OnlineLeads(r: Roster, sid: string, aid: string, at: nat)
    requires RosterOk(r, at) && Online(r, sid, aid, at)
    ensures Leads(r, sid, aid)
  {
  }

  /** One expiry callback settles the leadership of the agent it is for. */
  lemma WentOfflinePending(lim: Limits, s: State, at: nat, owners: map<string, Agent>, lapsed: seq<Agent>, n: nat,
      heir: string)
    requires Base(lim, s, at, owners) && lim.history >= 1 && n < |lapsed| && LeadersPending(s, lapsed, n)
    requires ValidHeir(s.roster, lapsed[n].sid, heir, at)
    ensures var s' := WentOffline(lim, s, lapsed[n].sid, lapsed[n].aid, heir);
            && Base(lim, s', at, owners) && LeadersPending(s', lapsed, n + 1) && s'.roster == s.roster
  {
    hide Base, Leads, SlashFree, Emit, Online;
    var sid, aid := lapsed[n].sid, lapsed[n].aid;
    BaseRoster(lim, s, at, owners);
    if sid in s.leaders && s.leaders[sid] == aid {
      LeaderBase(lim, s, at, owners, s.leaders - {sid});
      if heir != "" {
        OnlineLeads(s.roster, sid, heir, at);
        LeaderBase(lim, s, at, owners, s.leaders[sid := heir]);
        var s1 := s.(leaders := s.leaders[sid := heir]);
        EmitBase(lim, s1, at, owners, sid, Events.System(""), "leader_info", SERVER, EVERYONE, LeaderIs(heir));
        EmitEffect(lim, s1, sid, Events.System(""), "leader_info", SERVER, EVERYONE, LeaderIs(heir));
      }
    }
  }

  lemma BaseRoster(lim: Limits, s: State, at: nat, owners: map<string, Agent>)
    requires Base(lim, s, at, owners)
    ensures RosterOk(s.roster, at) && BoxesOk(s, owners) && Extends(owners, s.roster)
  {
    hide LogsOk, HistoriesOk, RecordsOk, RosterOk, BoxesOk, Extends;
  }

  lemma MemberKeysOf(r: Roster, sid: string, job: Events.Job)
    requires KeysMatch(r) && (job.Send? ==> job.to in Members(r, sid))
    ensures KeysOf(sid, Events.Addressees(job, Members(r, sid))) <= r.agents.Keys
  {
    hide Key, Members;
    AddresseesAreMembers(job, Members(r, sid));
    forall a | a in Members(r, sid)
      ensures Key(sid, a) in r.agents
    {
      MemberRecord(r, sid, a);
    }
  }

  lemma WentOfflineBoxes(lim: Limits, s: State, at: nat, sid: string, aid: string, heir: string)
    requires KeysMatch(s.roster)
    ensures WentOffline(lim, s, sid, aid, heir).boxes.Keys <= s.boxes.Keys + s.roster.agents.Keys
  {
    hide Emit, Members, KeysOf, Events.Addressees, Key;
    if sid in s.leaders && s.leaders[sid] == aid && heir != "" {
      var s1 := s.(leaders := s.leaders[sid := heir]);
      EmitEffect(lim, s1, sid, Events.System(""), "leader_info", SERVER, EVERYONE, LeaderIs(heir));
      MemberKeysOf(s.roster, sid, Events.System(""));
    }
  }

  lemma {:induction false} OfflineInv(lim: Limits, s: State, at: nat, owners: map<string, Agent>, lapsed: seq<Agent>,
      heirs: seq<string>, n: nat)
    requires Base(lim, s, at, owners) && lim.history >= 1 && LeadersPending(s, lapsed, 0)
    requires |heirs| == |lapsed| && n <= |lapsed|
    requires forall i :: 0 <= i < |lapsed| ==> ValidHeir(s.roster, lapsed[i].sid, heirs[i], at)
    ensures var s' := Offline(lim, s, lapsed[..n], heirs[..n]);
            && Base(lim, s', at, owners) && LeadersPending(s', lapsed, n) && s'.roster == s.roster
            && s'.boxes.Keys <= s.boxes.Keys + s.roster.agents.Keys
  {
    hide Base, LeadersPending, WentOffline, ValidHeir;
    if n > 0 {
      OfflineInv(lim, s, at, owners, lapsed, heirs, n - 1);
      assert lapsed[..n][..n - 1] == lapsed[..n - 1] && heirs[..n][..n - 1] == heirs[..n - 1];
      var s1 := Offline(lim, s, lapsed[..n - 1], heirs[..n - 1]);
      WentOfflinePending(lim, s1, at, owners, lapsed, n - 1, heirs[n - 1]);
      BaseRoster(lim, s, at, owners);
      WentOfflineBoxes(lim, s1, at, lapsed[n - 1].sid, lapsed[n - 1].aid, heirs[n - 1]);
    } else {
      assert lapsed[..0] == [];
    }
  }

  lemma AllSettled(s: State, lapsed: seq<Agent>)
    requires LeadersPending(s, lapsed, |lapsed|)
    ensures LeadersOk(s)
  {
    hide Leads, SlashFree;
  }

  lemma DepartedInv(lim: Limits, s: State, at: nat, owners: map<string, Agent>, a: Agent)
    requires Base(lim, s, at, owners) && LeadersOk(s) && lim.history >= 1
    ensures var s' := Departed(lim, s, a);
            && Base(lim, s', at, owners) && LeadersOk(s') && s'.roster == s.roster
            && s'.boxes.Keys == s.boxes.Keys - {Key(a.sid, a.aid)}
  {
    hide Base, Emit, Leads, SlashFree, Key;
    var s1 := Emit(lim, s, a.sid, Events.Ambient, "agent_left", SERVER, EVERYONE, AgentIs(a.aid, a.caps, false));
    EmitBase(lim, s, at, owners, a.sid, Events.Ambient, "agent_left", SERVER, EVERYONE, AgentIs(a.aid, a.caps, false));
    EmitEffect(lim, s, a.sid, Events.Ambient, "agent_left", SERVER, EVERYONE, AgentIs(a.aid, a.caps, false));
    assert KeysOf(a.sid, {}) == {};
    FewerBoxes(lim, s1, at, owners, {Key(a.sid, a.aid)});
  }

  lemma FewerBoxes(lim: Limits, s: State, at: nat, owners: map<string, Agent>, gone: set<string>)
    requires Base(lim, s, at, owners)
    ensures Base(lim, s.(boxes := s.boxes - gone, origin := OriginLess(s.origin, gone)), at, owners)
  {
    hide RosterOk, LogsOk, HistoriesOk, RecordsOk, BoxOk, Extends;
    var s' := s.(boxes := s.boxes - gone, origin := OriginLess(s.origin, gone));
    SameLogs(lim, s, s');
    SameRecords(s, s');
    forall k | k in s'.boxes
      ensures BoxFits(s', owners, k)
    {
      assert BoxFits(s, owners, k);
    }
  }

  lemma {:induction false} DeparturesInv(lim: Limits, s: State, at: nat, owners: map<string, Agent>, gone: seq<Agent>)
    requires Base(lim, s, at, owners) && LeadersOk(s) && lim.history >= 1
    ensures var s' := Departures(lim, s, gone);
            && Base(lim, s', at, owners) && LeadersOk(s') && s'.roster == s.roster && s'.boxes.Keys <= s.boxes.Keys
            && forall a :: a in gone ==> Key(a.sid, a.aid) !in s'.boxes
  {
    hide Base, LeadersOk, Departed, Key;
    if gone != [] {
      var n := |gone| - 1;
      DeparturesInv(lim, s, at, owners, gone[..n]);
      DepartedInv(lim, Departures(lim, s, gone[..n]), at, owners, gone[n]);
      assert gone == gone[..n] + [gone[n]];
    }
  }

  /** What is left after the departures belongs to agents that are still known, or to nobody yet. */
  lemma OwnersLeft(s: State, r: Roster, at: nat, gone: seq<Agent>, keys: seq<string>)
    requires BoxesOk(s, r.agents) && KeysMatch(r) && s.roster == Swept(r, at)
    requires Lists(keys, Forgetting(r, at)) && Reports(gone, keys, r, at)
    requires forall a :: a in gone ==> Key(a.sid, a.aid) !in s.boxes
    ensures BoxesOk(s, s.roster.agents)
  {
    hide BoxOk, Key;
    forall k | k in s.boxes
      ensures BoxFits(s, s.roster.agents, k)
    {
      assert BoxFits(s, r.agents, k);
      if k in Forgetting(r, at) {
        Departing(r, at, gone, keys, k);
      }
    }
  }

  lemma Departing(r: Roster, at: nat, gone: seq<Agent>, keys: seq<string>, k: string)
    requires KeysMatch(r) && k in keys && Reports(gone, keys, r, at)
    ensures exists a :: a in gone && Key(a.sid, a.aid) == k
  {
    hide Key;
    var j :| 0 <= j < |keys| && keys[j] == k;
    assert gone[j] in gone && gone[j] == Marked(r, k, at);
  }

  lemma SweptServerInv(lim: Limits, s: State, at: nat, lapsed: seq<Agent>, heirs: seq<string>, gone: seq<Agent>)
    requires Inv(lim, s, at) && lim.history >= 1 && SweepReports(s, at, lapsed, heirs, gone)
    ensures var s' := SweptServer(lim, s, at, lapsed, heirs, gone);
            Inv(lim, s', at) && s'.roster == Swept(s.roster, at)
  {
    hide Base, LeadersOk, BoxesOk, LeadersPending, Offline, Departures, Swept, ValidHeir, Lists, Reports, Expiring,
        Forgetting;
    InvParts(lim, s, at);
    var r, owners := Swept(s.roster, at), s.roster.agents;
    var keys: seq<string> :| Lists(keys, Expiring(s.roster, at)) && Reports(lapsed, keys, s.roster, at);
    var goneKeys: seq<string> :| Lists(goneKeys, Forgetting(s.roster, at)) && Reports(gone, goneKeys, s.roster, at);
    var s1 := s.(roster := r);
    SweptBase(lim, s, at);
    RosterKeys(s.roster, at);
    SweptLeaders(s, at, lapsed, keys);
    OfflineInv(lim, s1, at, owners, lapsed, heirs, |lapsed|);
    assert lapsed[..|lapsed|] == lapsed && heirs[..|lapsed|] == heirs;
    var s2 := Offline(lim, s1, lapsed, heirs);
    AllSettled(s2, lapsed);
    DeparturesInv(lim, s2, at, owners, gone);
    var s3 := Departures(lim, s2, gone);
    BaseRoster(lim, s3, at, owners);
    OwnersLeft(s3, s.roster, at, gone, goneKeys);
    OwnersAre(lim, s3, at, owners);
  }

  lemma RosterKeys(r: Roster, at: nat)
    requires RosterOk(r, at)
    ensures KeysMatch(r)
  {
  }

  lemma OwnersAre(lim: Limits, s: State, at: nat, owners: map<string, Agent>)
    requires Base(lim, s, at, owners) && BoxesOk(s, s.roster.agents)
    ensures Base(lim, s, at, s.roster.agents)
  {
    hide RosterOk, LogsOk, HistoriesOk, RecordsOk, BoxesOk;
  }

  /** Whoever is not marked by a sweep is online at the time of the sweep. */
  lemma UnmarkedIsLive(r: Roster, at: nat, k: string)
    requires k in Swept(r, at).agents && !Swept(r, at).agents[k].expired
    ensures Live(Swept(r, at).agents[k], r.ttl, at)
  {
  }

  /** Right after a sweep every leader is online, even if several members lapsed or were forgotten in it. */
  lemma LeadersLiveAfterSweep(lim: Limits, s: State, at: nat, lapsed: seq<Agent>, heirs: seq<string>,
      gone: seq<Agent>, sid: string)
    requires Inv(lim, s, at) && lim.history >= 1 && SweepReports(s, at, lapsed, heirs, gone)
    requires sid in SweptServer(lim, s, at, lapsed, heirs, gone).leaders
    ensures var s' := SweptServer(lim, s, at, lapsed, heirs, gone);
            Online(s'.roster, sid, s'.leaders[sid], at)
  {
    SweptServerInv(lim, s, at, lapsed, heirs, gone);
    hide Base, SweptServer, SweepReports, Swept;
    var s' := SweptServer(lim, s, at, lapsed, heirs, gone);
    TtlKept(s.roster, at);
    UnmarkedIsLive(s.roster, at, Key(sid, s'.leaders[sid]));
  }

  lemma TtlKept(r: Roster, at: nat)
    ensures Swept(r, at).ttl == r.ttl
  {
  }
}
