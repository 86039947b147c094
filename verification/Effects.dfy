/** What each request does to the server, told by the fields it changes and those it leaves, and by the one event it
    puts in the session's log. */
module Effects {
  import opened Sequences
  import opened Envelopes
  import opened Sessions
  import opened Scratchpad
  import opened PresenceSpec
  import opened Server
  import opened ServerSafety
  import ServerRuns
  import Events = EventProtocol

  /** One more event in the log of the session, with these labels and the next number, and otherwise only the
      session's counter, its history, and mailboxes may have changed. */
  ghost predicate Logged(s: State, s': State, sid: string, job: Events.Job, kind: string, from: string, to: string,
      payload: Payload) {
    && s' == s.(counters := s'.counters, history := s'.history, boxes := s'.boxes, log := s'.log)
    && (forall t :: t != sid ==> Log(s', t) == Log(s, t) && Counter(s', t) == Counter(s, t))
    && |Log(s', sid)| == |Log(s, sid)| + 1 && Log(s, sid) <= Log(s', sid)
    && Log(s', sid)[|Log(s, sid)|].job == job
    && var e := Log(s', sid)[|Log(s, sid)|].env;
       && e.session == sid && e.kind == kind && e.from == from && e.to == to && e.payload == payload
       && e.number == Counter(s, sid) + 1 == Counter(s', sid)
  }

  /** An ambient event enters no mailbox and no history. */
  ghost predicate AmbientOnly(s: State, s': State) {
    s'.history == s.history && s'.boxes == s.boxes
  }

  lemma EmitFields(lim: Limits, s: State, sid: string, job: Events.Job, kind: string, from: string, to: string,
      payload: Payload)
    ensures Logged(s, Emit(lim, s, sid, job, kind, from, to, payload), sid, job, kind, from, to, payload)
    ensures job.Ambient? ==> AmbientOnly(s, Emit(lim, s, sid, job, kind, from, to, payload))
    ensures job.System? ==> Emit(lim, s, sid, job, kind, from, to, payload).history == s.history
  {
    hide Newest, Members, Fanned, KeysOf;
    EmitEffect(lim, s, sid, job, kind, from, to, payload);
    if job.Ambient? {
      NoneFanned(s.boxes, Envelope(kind, sid, from, to, payload, Counter(s, sid) + 1), lim.box);
      assert KeysOf(sid, {}) == {} by { NoKeys(sid); }
    }
  }

  lemma NoKeys(sid: string)
    ensures KeysOf(sid, {}) == {}
  {
  }

  lemma NoneFanned(boxes: Boxes, e: Envelope, max: nat)
    ensures Fanned(boxes, {}, e, max) == boxes
  {
  }

  // ---- System events ---------------------------------------------------------------------------------

  /** A system event arrives, last and once, in the mailbox of every known member but the one that caused it. */
  lemma SystemReaches(lim: Limits, s: State, now: nat, sid: string, except: string, kind: string, from: string,
      payload: Payload, k: string)
    requires Inv(lim, s, now) && lim.box >= 1
    ensures var s' := Emit(lim, s, sid, Events.System(except), kind, from, "*", payload);
            var e := Envelope(kind, sid, from, "*", payload, Counter(s, sid) + 1);
            if k in s.roster.agents && s.roster.agents[k].sid == sid && s.roster.agents[k].aid != except
            then k in s'.boxes && s'.boxes[k] == Newest(BoxAt(s.boxes, k) + [e], lim.box)
            else BoxAt(s'.boxes, k) == BoxAt(s.boxes, k)
  {
    hide Inv, Newest, Emit, Key;
    EmitEffect(lim, s, sid, Events.System(except), kind, from, "*", payload);
    InvParts(lim, s, now);
    var keys := KeysOf(sid, Members(s.roster, sid) - {except});
    if k in keys {
      var a :| a in Members(s.roster, sid) - {except} && k == Key(sid, a);
      MemberRecord(s.roster, sid, a);
    } else if k in s.roster.agents && s.roster.agents[k].sid == sid && s.roster.agents[k].aid != except {
      ServerRuns.MemberKey(s.roster, k, sid, except);
    }
  }

  // ---- Registration ----------------------------------------------------------------------------------

  /** Registering: the record is fresh and has the given capabilities, and no other changes. */
  lemma RegisteredRecord(lim: Limits, s: State, sid: string, aid: string, caps: seq<string>, at: nat)
    ensures var s', k := Registered(lim, s, sid, aid, caps, at), sid + "/" + aid;
            && k in s'.roster.agents && s'.roster.agents.Keys == s.roster.agents.Keys + {k}
            && (forall j :: j in s.roster.agents && j != k ==> s'.roster.agents[j] == s.roster.agents[j])
            && var a := s'.roster.agents[k];
               && a.caps == caps && a.seen == at && !a.expired
               && (k !in s.roster.agents ==> a.sid == sid && a.aid == aid)
               && (k in s.roster.agents ==> a.sid == s.roster.agents[k].sid && a.aid == s.roster.agents[k].aid)
  {
    hide Registered, Touched;
    ServerRuns.RegisteredRoster(lim, s, sid, aid, caps, at);
    TouchedFields(s.roster, sid, aid, Some(caps), at);
  }

  /** A newcomer is announced as joined, and leads if nobody does; a member past the ttl is announced as back, a live
      one not at all. */
  lemma RegisteredEvents(lim: Limits, s: State, sid: string, aid: string, caps: seq<string>, at: nat)
    ensures var s', k := Registered(lim, s, sid, aid, caps, at), sid + "/" + aid;
            var known := k in s.roster.agents && s.roster.agents[k].sid == sid;
            && (k !in s.roster.agents ==>
                  && s'.leaders == (if sid in s.leaders then s.leaders else s.leaders[sid := aid])
                  && OneMore(s, s', sid, Events.Ambient, "agent_joined", AgentIs(aid, caps, true)))
            && (k in s.roster.agents ==> s'.leaders == s.leaders)
            && (known && at - s.roster.agents[k].seen >= s.roster.ttl ==>
                  OneMore(s, s', sid, Events.Ambient, "agent_reconnected", AgentIs(aid, caps, true)))
            && (k in s.roster.agents && (!known || at - s.roster.agents[k].seen < s.roster.ttl) ==>
                  s'.log == s.log && s'.counters == s.counters && s'.sessions == s.sessions)
  {
    hide Announced, Touched, Key, OneMore, FirstLeader, Known, Present;
    var k := Key(sid, aid);
    KeyIs(sid, aid);
    var s1 := s.(roster := Touched(s.roster, sid, aid, Some(caps), at));
    var back, joined := Announced(lim, s1, sid, aid, caps, "agent_reconnected", at),
                        Announced(lim, s1, sid, aid, caps, "agent_joined", at);
    AnnouncedFields(lim, s1, sid, aid, caps, "agent_reconnected", at);
    AnnouncedFields(lim, s1, sid, aid, caps, "agent_joined", at);
    FirstOnly(joined, sid, aid);
    SameEvents(s1, back, s, back, sid, Events.Ambient, "agent_reconnected", AgentIs(aid, caps, true));
    SameEvents(s1, joined, s, FirstLeader(joined, sid, aid), sid, Events.Ambient, "agent_joined",
               AgentIs(aid, caps, true));
    SeenBefore(s.roster, sid, aid, at);
  }

  /** Mail, history and pads are as they were, and sessions keep their ids and keys. */
  lemma RegisteredRest(lim: Limits, s: State, sid: string, aid: string, caps: seq<string>, at: nat)
    ensures var s' := Registered(lim, s, sid, aid, caps, at);
            && s'.boxes == s.boxes && s'.history == s.history && s'.pads == s.pads
            && s'.sessions.Keys == s.sessions.Keys
            && forall t :: t in s.sessions ==>
                 s'.sessions[t].psk == s.sessions[t].psk && s'.sessions[t].id == s.sessions[t].id
  {
    hide Announced, Touched, Key, OneMore, FirstLeader, Known, Present;
    var s1 := s.(roster := Touched(s.roster, sid, aid, Some(caps), at));
    AnnouncedFields(lim, s1, sid, aid, caps, "agent_reconnected", at);
    AnnouncedFields(lim, s1, sid, aid, caps, "agent_joined", at);
    FirstOnly(Announced(lim, s1, sid, aid, caps, "agent_joined", at), sid, aid);
    KeyIs(sid, aid);
    SeenBefore(s.roster, sid, aid, at);
  }

  lemma FirstOnly(s: State, sid: string, aid: string)
    ensures FirstLeader(s, sid, aid) ==
            s.(leaders := if sid in s.leaders then s.leaders else s.leaders[sid := aid])
  {
  }

  lemma SeenBefore(r: Roster, sid: string, aid: string, at: nat)
    ensures var k := sid + "/" + aid;
            && (Known(r, sid, aid) <==> k in r.agents && r.agents[k].sid == sid)
            && (Present(r, sid, aid, at) <==> k in r.agents && at - r.agents[k].seen < r.ttl)
  {
  }

  lemma SameEvents(s: State, s': State, t: State, t': State, sid: string, job: Events.Job, kind: string,
      payload: Payload)
    requires OneMore(s, s', sid, job, kind, payload) && t.log == s.log && t.counters == s.counters
    requires t'.log == s'.log && t'.counters == s'.counters
    ensures OneMore(t, t', sid, job, kind, payload)
  {
    assert forall u :: Log(t, u) == Log(s, u) && Counter(t, u) == Counter(s, u);
    assert forall u :: Log(t', u) == Log(s', u) && Counter(t', u) == Counter(s', u);
  }

  lemma KeyIs(sid: string, aid: string)
    ensures Key(sid, aid) == sid + "/" + aid
  {
  }

  /** The log of the session has one event more: from the server, to everybody, of this kind and content, put into the
      mailboxes that the job says. */
  ghost predicate OneMore(s: State, s': State, sid: string, job: Events.Job, kind: string, payload: Payload) {
    && Log(s, sid) <= Log(s', sid) && |Log(s', sid)| == |Log(s, sid)| + 1
    && Counter(s', sid) == Counter(s, sid) + 1
    && (forall t :: t != sid ==> Log(s', t) == Log(s, t))
    && Log(s', sid)[|Log(s, sid)|].job == job
    && var e := Log(s', sid)[|Log(s, sid)|].env;
       && e.session == sid && e.kind == kind && e.from == "server" && e.to == "*" && e.payload == payload
       && e.number == Counter(s', sid)
  }

  lemma AnnouncedFields(lim: Limits, s: State, sid: string, aid: string, caps: seq<string>, kind: string, at: nat)
    ensures var s' := Announced(lim, s, sid, aid, caps, kind, at);
            && OneMore(s, s', sid, Events.Ambient, kind, AgentIs(aid, caps, true))
            && s'.roster == s.roster && s'.leaders == s.leaders
            && s'.boxes == s.boxes && s'.history == s.history && s'.pads == s.pads
            && s'.sessions.Keys == s.sessions.Keys
            && (sid in s.sessions ==> s'.sessions[sid].lastActive.Some? && s'.sessions[sid].lastActive.value >= at)
            && forall t :: t in s.sessions ==>
                 s'.sessions[t].psk == s.sessions[t].psk && s'.sessions[t].id == s.sessions[t].id
  {
    hide Emit;
    var s1 := s.(sessions := TouchedActivity(s.sessions, sid, at));
    EmitFields(lim, s1, sid, Events.Ambient, kind, SERVER, EVERYONE, AgentIs(aid, caps, true));
  }

  // ---- Activity ----------------------------------------------------------------------------------------

  /** Every authorised request: the agent has just been seen, and its session has been active. */
  lemma RefreshedFields(s: State, sid: string, aid: string, at: nat)
    ensures var s', k := Refreshed(s, sid, aid, at), sid + "/" + aid;
            && s' == s.(roster := s'.roster, sessions := s'.sessions)
            && k in s'.roster.agents && s'.roster.agents[k].seen == at && !s'.roster.agents[k].expired
            && (k in s.roster.agents ==> s'.roster.agents[k].caps == s.roster.agents[k].caps)
            && s'.sessions.Keys == s.sessions.Keys
            && (sid in s.sessions ==> s'.sessions[sid].lastActive.Some? && s'.sessions[sid].lastActive.value >= at)
            && (forall t :: t in s.sessions && t != sid ==> s'.sessions[t] == s.sessions[t])
  {
    hide Touched;
    TouchedFields(s.roster, sid, aid, None, at);
  }

  /** So the janitor keeps the session as long as its cutoff is before the request; and it removes exactly the
      sessions with no activity after the cutoff. */
  lemma ReapFields(lim: Limits, s: State, retention: nat, at: nat)
    ensures var s' := Apply(lim, s, Op.Reap(retention, at));
            forall t :: t in s'.sessions <==>
              t in s.sessions && s.sessions[t].lastActive.Some? && s.sessions[t].lastActive.value > at - retention
    ensures var s' := Apply(lim, s, Op.Reap(retention, at));
            forall t :: t in s'.sessions ==> s'.sessions[t] == s.sessions[t]
  {
    hide RosterWithout, BoxesWithout;
  }

  lemma ActiveIsKept(lim: Limits, s: State, sid: string, aid: string, at: nat, retention: nat, later: nat)
    requires sid in s.sessions && later - retention < at
    ensures sid in Apply(lim, Refreshed(s, sid, aid, at), Op.Reap(retention, later)).sessions
  {
    hide Refreshed, Apply;
    RefreshedFields(s, sid, aid, at);
    ReapFields(lim, Refreshed(s, sid, aid, at), retention, later);
  }

  /** Creating a session stores it with its key, active from now on, and changes nothing else. */
  lemma CreateFields(lim: Limits, s: State, sid: string, psk: string, name: string, at: nat)
    requires SlashFree(sid)
    ensures var s' := Apply(lim, s, Op.Create(sid, psk, name, at));
            && s' == s.(sessions := s'.sessions) && s'.sessions.Keys == s.sessions.Keys + {sid}
            && s'.sessions[sid].psk == psk && s'.sessions[sid].name == name && s'.sessions[sid].id == sid
            && s'.sessions[sid].lastActive == Some(at)
            && forall t :: t in s.sessions && t != sid ==> s'.sessions[t] == s.sessions[t]
  {
  }

  /** Opening one keeps it if it is there and stores a new one without activity if it is not. */
  lemma OpenFields(lim: Limits, s: State, sid: string, psk: string, at: nat)
    requires SlashFree(sid)
    ensures var s' := Apply(lim, s, Op.Open(sid, psk, at));
            && s' == s.(sessions := s'.sessions) && s'.sessions.Keys == s.sessions.Keys + {sid}
            && (sid !in s.sessions ==> s'.sessions[sid].psk == psk && s'.sessions[sid].lastActive.None?)
            && forall t :: t in s.sessions ==> s'.sessions[t] == s.sessions[t]
  {
    hide Opened, AfterOpening;
    OpenedFields(s.sessions, sid, psk, "", at);
    assert Apply(lim, s, Op.Open(sid, psk, at)).sessions ==
           AfterOpening(s.sessions, sid, Opened(s.sessions, sid, psk, "", at));
  }

  /** Setting the horizon changes that alone, and closing a session that is not there nothing. */
  lemma RestFields(lim: Limits, s: State, sid: string, d: int, at: nat)
    requires SlashFree(sid)
    ensures var s' := Apply(lim, s, Op.SetForgetAfter(d, at));
            && s' == s.(roster := s'.roster) && s'.roster.forgetAfter == d
            && s'.roster.agents == s.roster.agents && s'.roster.ttl == s.roster.ttl
    ensures sid !in s.sessions ==> Apply(lim, s, Op.Close(sid, at)) == s
  {
    hide Closed;
  }

  // ---- Messages ------------------------------------------------------------------------------------------

  /** A message that is not refused is logged as it was sent, and is the newest in the history. */
  lemma MessageFields(lim: Limits, s: State, sid: string, from: string, to: string, kind: string, payload: Payload)
    requires lim.history >= 1
    ensures var refusal, s' := SendRefusal(s, sid, to), Sent(lim, s, sid, from, to, kind, payload);
            && (refusal == Some(ToRequired) <==> to == "")
            && (refusal == Some(NoSuchAgent) <==>
                  to != "" && forall k :: k in s.roster.agents && s.roster.agents[k].sid == sid ==>
                                s.roster.agents[k].aid != to)
            && (refusal.Some? ==> refusal.value in {ToRequired, NoSuchAgent} && s' == s)
            && (refusal.None? ==>
                  Logged(s, s', sid, Events.Send(to), kind, from, to, payload) && NewestIsLogged(s', sid))
    ensures var s' := Broadcasted(lim, s, sid, from, kind, payload);
            Logged(s, s', sid, Events.Broadcast(from), kind, from, "*", payload) && NewestIsLogged(s', sid)
  {
    hide Emit;
    EmitFields(lim, s, sid, Events.Send(to), kind, from, to, payload);
    EmitFields(lim, s, sid, Events.Broadcast(from), kind, from, EVERYONE, payload);
    RecordedLast(lim, s, sid, Events.Send(to), kind, from, to, payload);
    RecordedLast(lim, s, sid, Events.Broadcast(from), kind, from, EVERYONE, payload);
  }

  ghost predicate NewestIsLogged(s: State, sid: string) {
    var h, log := HistoryOf(s, sid), Log(s, sid);
    h != [] && log != [] && h[|h| - 1] == log[|log| - 1].env
  }

  lemma RecordedLast(lim: Limits, s: State, sid: string, job: Events.Job, kind: string, from: string, to: string,
      payload: Payload)
    requires Events.Recorded(job) && lim.history >= 1
    ensures NewestIsLogged(Emit(lim, s, sid, job, kind, from, to, payload), sid)
  {
    hide Newest, Fanned, KeysOf, Members, Emit;
    EmitEffect(lim, s, sid, job, kind, from, to, payload);
    var e := Envelope(kind, sid, from, to, payload, Counter(s, sid) + 1);
    NewestCut(HistoryOf(s, sid) + [e], lim.history);
  }

  // ---- The scratchpad --------------------------------------------------------------------------------------

  /** A set entry is there, with its author and time, and nothing else has changed in any pad. */
  lemma PadSetFields(lim: Limits, s: State, sid: string, aid: string, key: string, value: string, at: nat)
    ensures var s' := PadChanged(lim, s, sid, aid, key, value, at);
            && (key == "" ==> s' == s)
            && (key != "" ==>
                  && sid in s'.pads && key in s'.pads[sid]
                  && var e := s'.pads[sid][key];
                     && e.key == key && e.value == value && e.author == aid && e.at == at
                     && OneUpdate(s, s', sid, aid, PadSet(e)))
            && (forall t, j :: t in s.pads && j in s.pads[t] && !(t == sid && j == key) ==>
                  t in s'.pads && j in s'.pads[t] && s'.pads[t][j] == s.pads[t][j])
            && (forall t, j :: t in s'.pads && j in s'.pads[t] && !(t == sid && j == key) ==>
                  t in s.pads && j in s.pads[t])
  {
    hide Emit;
    if key != "" {
      var e := PadEntry(key, value, aid, at);
      var s1 := s.(pads := s.pads[sid := Pad(s.pads, sid)[key := e]], padCounts := Bumped(s.padCounts, sid));
      EmitFields(lim, s1, sid, Events.System(aid), "scratchpad_update", aid, EVERYONE, PadSet(e));
    }
  }

  /** A deleted entry is gone, and nothing else has changed in any pad; one that is not there cannot be deleted. */
  lemma PadDeleteFields(lim: Limits, s: State, sid: string, aid: string, key: string)
    ensures var s' := PadRemoved(lim, s, sid, aid, key);
            && (!(sid in s.pads && key in s.pads[sid]) ==> s' == s)
            && (sid in s.pads && key in s.pads[sid] ==> OneUpdate(s, s', sid, aid, PadDeleted(key)))
            && !(sid in s'.pads && key in s'.pads[sid])
            && (forall t, j :: t in s.pads && j in s.pads[t] && !(t == sid && j == key) ==>
                  t in s'.pads && j in s'.pads[t] && s'.pads[t][j] == s.pads[t][j])
            && (forall t, j :: t in s'.pads && j in s'.pads[t] ==> t in s.pads && j in s.pads[t])
  {
    hide Emit;
    if key in Pad(s.pads, sid) {
      var s1 := s.(pads := s.pads[sid := Pad(s.pads, sid) - {key}], padCounts := Bumped(s.padCounts, sid));
      EmitFields(lim, s1, sid, Events.System(aid), "scratchpad_update", aid, EVERYONE, PadDeleted(key));
    }
  }

  /** One update of the pad is logged, and counted; members, leaders and sessions are as they were. */
  ghost predicate OneUpdate(s: State, s': State, sid: string, aid: string, payload: Payload) {
    && s'.roster == s.roster && s'.leaders == s.leaders && s'.sessions == s.sessions && s'.history == s.history
    && sid in s'.padCounts && s'.padCounts[sid] == (if sid in s.padCounts then s.padCounts[sid] else 0) + 1
    && Log(s, sid) <= Log(s', sid) && |Log(s', sid)| == |Log(s, sid)| + 1
    && Log(s', sid)[|Log(s, sid)|].job == Events.System(aid)
    && var e := Log(s', sid)[|Log(s, sid)|].env;
       e.kind == "scratchpad_update" && e.from == aid && e.to == "*" && e.payload == payload && e.session == sid
  }

  // ---- Leadership ------------------------------------------------------------------------------------------

  /** A transfer is accepted exactly if it comes from the leader and goes to somebody seen within the ttl; then that one
      leads, and this is announced. Otherwise nothing changes. */
  lemma TransferFields(lim: Limits, s: State, sid: string, from: string, to: string, at: nat)
    ensures var refusal, s' := TransferRefusal(s, sid, from, to, at), Transferred(lim, s, sid, from, to, at);
            var k := sid + "/" + to;
            && (refusal.None? <==>
                  && sid in s.leaders && s.leaders[sid] == from
                  && k in s.roster.agents && at - s.roster.agents[k].seen < s.roster.ttl)
            && (refusal == Some(NotLeader) <==> from != if sid in s.leaders then s.leaders[sid] else "")
            && (refusal == Some(NotPresent) <==>
                  && from == (if sid in s.leaders then s.leaders[sid] else "")
                  && !(k in s.roster.agents && at - s.roster.agents[k].seen < s.roster.ttl))
            && (refusal.Some? ==> s' == s)
            && (refusal.None? ==>
                  && s'.leaders == s.leaders[sid := to] && s'.roster == s.roster && s'.sessions == s.sessions
                  && s'.pads == s.pads && s'.history == s.history
                  && OneMore(s, s', sid, Events.System(from), "leader_info", LeaderMoved(to, from)))
  {
    hide Emit;
    var s1 := s.(leaders := s.leaders[sid := to]);
    EmitFields(lim, s1, sid, Events.System(from), "leader_info", SERVER, EVERYONE, LeaderMoved(to, from));
  }

  /** The callback for a lapsed agent: if it led, the heir leads and this is announced, or without an heir nobody
      leads; if it did not lead, nothing happens. */
  lemma LapsedFields(lim: Limits, s: State, sid: string, aid: string, heir: string)
    ensures var s' := WentOffline(lim, s, sid, aid, heir);
            && (!(sid in s.leaders && s.leaders[sid] == aid) ==> s' == s)
            && (sid in s.leaders && s.leaders[sid] == aid && heir == "" ==>
                  s'.leaders == s.leaders - {sid} && s' == s.(leaders := s'.leaders))
            && (sid in s.leaders && s.leaders[sid] == aid && heir != "" ==>
                  && s'.leaders == s.leaders[sid := heir] && s'.roster == s.roster && s'.history == s.history
                  && OneMore(s, s', sid, Events.System(""), "leader_info", LeaderIs(heir)))
  {
    hide Emit;
    var s1 := s.(leaders := s.leaders[sid := heir]);
    EmitFields(lim, s1, sid, Events.System(""), "leader_info", SERVER, EVERYONE, LeaderIs(heir));
  }

  /** The callback for a forgotten agent: its departure is announced on the stream alone, and its mailbox is gone. */
  lemma ForgottenFields(lim: Limits, s: State, a: Agent)
    ensures var s', k := Departed(lim, s, a), a.sid + "/" + a.aid;
            && OneMore(s, s', a.sid, Events.Ambient, "agent_left", AgentIs(a.aid, a.caps, false))
            && s'.boxes == s.boxes - {k} && s'.history == s.history && s'.leaders == s.leaders && s'.roster == s.roster
            && s'.sessions == s.sessions && s'.pads == s.pads
  {
    hide Emit;
    EmitFields(lim, s, a.sid, Events.Ambient, "agent_left", SERVER, EVERYONE, AgentIs(a.aid, a.caps, false));
  }
}
