/** The hub: it owns the stores and turns every request into calls on them, in the order the code makes them.
    Each method is proved to do to the whole server what the corresponding operation of module Server says. */
module Hub {
  import opened Sequences
  import opened Envelopes
  import opened History
  import opened Server
  import opened PresenceSpec
  import MailSpec
  import Mailbox
  import Presence
  import Leader
  import Sessions
  import Scratchpad
  import Effects
  import Events = EventProtocol

  const MAX_HISTORY := 100

  /** The envelopes of a queue, without their entry ids. */
  function Contents(q: seq<MailSpec.Entry>): (r: seq<Envelope>)
    ensures |r| == |q| && forall i :: 0 <= i < |q| ==> r[i] == q[i].env
  {
    seq(|q|, i requires 0 <= i < |q| => q[i].env)
  }

  function Stripped(m: map<string, seq<MailSpec.Entry>>): Boxes {
    map k | k in m :: Contents(m[k])
  }

  lemma ContentsNewest(q: seq<MailSpec.Entry>, x: MailSpec.Entry, max: nat)
    ensures Contents(Newest(q + [x], max)) == Newest(Contents(q) + [x.env], max)
  {
    var all := q + [x];
    assert Contents(all) == Contents(q) + [x.env];
    assert |all| > max ==> Contents(all[|all| - max..]) == Contents(all)[|all| - max..];
  }

  lemma {:induction false} ContentsFilter(q: seq<MailSpec.Entry>, from: string, kind: string)
    ensures Contents(Filter(q, MailSpec.Unwanted(from, kind))) == Filter(Contents(q), Events.Unmatched(from, kind))
  {
    if q != [] {
      var n := |q| - 1;
      ContentsFilter(q[..n], from, kind);
      assert Contents(q)[..n] == Contents(q[..n]);
      assert Contents(q)[n] == q[n].env;
    } else {
      assert Contents(q) == [];
    }
  }

  /** A delivery, seen without entry ids, puts the envelope at the end of the box. */
  lemma StrippedDeliver(m: MailSpec.Mail, max: nat, k: string, e: Envelope)
    ensures Stripped(MailSpec.Apply(m, max, MailSpec.Deliver(k, e)).boxes) ==
            Stripped(m.boxes)[k := Newest(BoxAt(Stripped(m.boxes), k) + [e], max)]
  {
    hide Newest, Contents;
    var q := MailSpec.Queue(m, k);
    ContentsNewest(q, MailSpec.Entry(m.ids + 1, e), max);
    NoContents();
  }

  lemma NoContents()
    ensures Contents([]) == []
  {
  }

  lemma StrippedDrain(m: MailSpec.Mail, max: nat, k: string, from: string, kind: string)
    ensures Stripped(MailSpec.Apply(m, max, MailSpec.DrainMatching(k, from, kind)).boxes) ==
            if k in Stripped(m.boxes)
            then Stripped(m.boxes)[k := Filter(Stripped(m.boxes)[k], Events.Unmatched(from, kind))]
            else Stripped(m.boxes)
  {
    hide Filter, Contents;
    ContentsFilter(MailSpec.Queue(m, k), from, kind);
  }

  lemma StrippedRemove(m: MailSpec.Mail, max: nat, k: string, sid: string)
    ensures Stripped(MailSpec.Apply(m, max, MailSpec.DeleteBox(k)).boxes) == Stripped(m.boxes) - {k}
    ensures Stripped(MailSpec.Apply(m, max, MailSpec.DeleteSession(sid)).boxes) ==
            BoxesWithout(Stripped(m.boxes), {sid})
  {
    hide Contents;
  }

  function CounterIn(counters: map<string, nat>, sid: string): nat {
    if sid in counters then counters[sid] else 0
  }

  /** Each counter becomes the larger of the present and the saved one. */
  function Raised(counters: map<string, nat>, saved: map<string, nat>): map<string, nat> {
    map k | k in counters.Keys + saved.Keys && (k in counters || saved[k] > 0) ::
      if CounterIn(saved, k) > CounterIn(counters, k) then saved[k] else CounterIn(counters, k)
  }

  lemma RaisedFields(counters: map<string, nat>, saved: map<string, nat>, sid: string)
    ensures var a, b := if sid in counters then counters[sid] else 0, if sid in saved then saved[sid] else 0;
            && (sid in Raised(counters, saved) <==> sid in counters || b > 0)
            && (sid in Raised(counters, saved) ==> Raised(counters, saved)[sid] == if a > b then a else b)
  {
  }

  lemma RaisedNone(counters: map<string, nat>, saved: map<string, nat>)
    ensures Raised(counters, saved - saved.Keys) == counters && saved - {} == saved
  {
  }

  lemma RaisedStep(counters: map<string, nat>, saved: map<string, nat>, todo: set<string>, sid: string)
    requires sid in todo && todo <= saved.Keys
    ensures var r := Raised(counters, saved - todo);
            Raised(counters, saved - (todo - {sid})) == if saved[sid] > CounterIn(r,
                sid) then r[sid := saved[sid]] else r
  {
    var part, more := saved - todo, saved - (todo - {sid});
    assert forall k :: k != sid ==> (k in more <==> k in part) && CounterIn(more, k) == CounterIn(part, k);
  }

  /** From store m to store m' others did their rounds and one filtered drain, after `iterations` looks of which no
      earlier one found anything, took `out`. */
  ghost predicate Waited(m: MailSpec.Mail, m': MailSpec.Mail, max: nat, k: string, from: string, kind: string,
      rounds: seq<Mailbox.Round>, iterations: nat, out: seq<MailSpec.Entry>)
    requires iterations >= 1
  {
    var seen := MailSpec.RunFrom(m, max, Mailbox.OpsOf(rounds, iterations - 1));
    var op := MailSpec.DrainMatching(k, from, kind);
    && Mailbox.NothingBefore(m, max, op, rounds, iterations)
    && out == MailSpec.Result(seen, op)
    && if out != [] then MailSpec.Same(m', MailSpec.Apply(seen, max, op))
       else MailSpec.Same(m', MailSpec.RunFrom(m, max,
              Mailbox.OpsOf(rounds, iterations - 1) + Mailbox.RoundAt(rounds, iterations - 1).gap))
  }

  // ---- The fan-out, member by member -------------------------------------------------------------

  lemma FannedStep(boxes: Boxes, keys: set<string>, k: string, e: Envelope, max: nat)
    requires k !in keys
    ensures var f := Fanned(boxes, keys, e, max);
            f[k := Newest(BoxAt(f, k) + [e], max)] == Fanned(boxes, keys + {k}, e, max)
  {
    hide Newest;
  }

  lemma FannedNone(boxes: Boxes, e: Envelope, max: nat)
    ensures Fanned(boxes, {}, e, max) == boxes
  {
  }

  /** The mailboxes of the first n listed members, except the excluded one. */
  function Served(out: seq<Info>, keys: seq<string>, exclude: string, n: nat): set<string>
    requires n <= |out| == |keys|
  {
    set i | 0 <= i < n && out[i].aid != exclude :: keys[i]
  }

  lemma ServedStep(out: seq<Info>, keys: seq<string>, exclude: string, n: nat, s: set<string>)
    requires n < |out| == |keys| && Lists(keys, s)
    ensures Served(out, keys, exclude, n + 1) ==
            Served(out, keys, exclude, n) + (if out[n].aid != exclude then {keys[n]} else {})
    ensures keys[n] !in Served(out, keys, exclude, n)
  {
  }

  lemma ServedAll(r: Roster, sid: string, now: nat, out: seq<Info>, keys: seq<string>, exclude: string)
    requires KeysMatch(r) && Lists(keys, MemberKeys(r, sid)) && Describes(out, keys, r, now)
    ensures |out| == |keys| && Served(out, keys, exclude, |out|) == KeysOf(sid, Members(r, sid) - {exclude})
    ensures forall i :: 0 <= i < |out| ==> keys[i] == Key(sid, out[i].aid)
  {
    hide Key;
    forall k | k in KeysOf(sid, Members(r, sid) - {exclude})
      ensures k in Served(out, keys, exclude, |out|)
    {
      var a :| a in Members(r, sid) - {exclude} && k == Key(sid, a);
      var j :| j in r.agents && r.agents[j].sid == sid && r.agents[j].aid == a;
      assert j == k && k in MemberKeys(r, sid);
      assert k in keys;
      var i :| 0 <= i < |keys| && keys[i] == k;
    }
    forall i | 0 <= i < |out|
      ensures keys[i] == Key(sid, out[i].aid)
    {
      assert keys[i] in keys && keys[i] in MemberKeys(r, sid);
    }
    forall k | k in Served(out, keys, exclude, |out|)
      ensures k in KeysOf(sid, Members(r, sid) - {exclude})
    {
      var i :| 0 <= i < |out| && out[i].aid != exclude && keys[i] == k;
      assert keys[i] in MemberKeys(r, sid);
      assert r.agents[k].aid in Members(r, sid);
    }
  }

  class Hub {
    const sessionStore: Sessions.Store
    const leader: Leader.Tracker
    const scratchpad: Scratchpad.Store
    const presence: Presence.Tracker
    const mailboxes: Mailbox.Store
    var history: map<string, seq<Envelope>>
    var seqNums: map<string, nat>
    const maxHistory: nat
    ghost var log: map<string, seq<Events.Issue>>   // what has been handed to the notifier
    ghost var origin: Origin                        // what the process was restored with

    ghost function Footprint(): set<object>
      reads this, sessionStore, presence, mailboxes
    {
      {this, leader, scratchpad} + sessionStore.Repr + presence.Repr + mailboxes.Repr
    }

    /** The parts do not overlap. */
    ghost predicate Separate()
      reads this, sessionStore, presence, mailboxes
    {
      && {this as object, leader, scratchpad} !! sessionStore.Repr !! presence.Repr !! mailboxes.Repr
      && this as object != leader && this as object != scratchpad && leader as object != scratchpad
    }

    ghost predicate Valid()
      reads this, leader, scratchpad, sessionStore, sessionStore.Repr, presence, presence.Repr, mailboxes,
          mailboxes.Repr
    {
      && maxHistory >= 1
      && sessionStore in sessionStore.Repr && presence in presence.Repr && mailboxes in mailboxes.Repr
      && Separate() && sessionStore.Valid() && presence.Valid() && mailboxes.Valid()
    }

    /** The whole server this hub stands for. */
    ghost function Model(): State
      reads this, leader, scratchpad, sessionStore, presence, mailboxes
    {
      State(presence.M, leader.leaders, scratchpad.pads, scratchpad.counts, Stripped(mailboxes.M.boxes),
            history, seqNums, sessionStore.M, log, origin)
    }

    ghost function Lim(): Limits {
      Limits(maxHistory, mailboxes.maxPer)
    }

    constructor (sessionStore: Sessions.Store, leader: Leader.Tracker, scratchpad: Scratchpad.Store,
        presence: Presence.Tracker,
                 mailboxes: Mailbox.Store, maxHistory: nat)
      requires maxHistory >= 1 && sessionStore.Valid() && presence.Valid() && mailboxes.Valid()
      requires {leader as object, scratchpad} !! sessionStore.Repr !! presence.Repr !! mailboxes.Repr
      requires leader as object != scratchpad
      ensures Valid() && Footprint() == {this, leader, scratchpad} + sessionStore.Repr + presence.Repr + mailboxes.Repr
      ensures this.sessionStore == sessionStore && this.leader == leader && this.scratchpad == scratchpad
      ensures this.presence == presence && this.mailboxes == mailboxes && this.maxHistory == maxHistory
      ensures history == map[] && seqNums == map[] && log == map[] && origin == Origin(map[], map[], map[])
    {
      this.sessionStore, this.leader, this.scratchpad, this.presence, this.mailboxes := sessionStore, leader,
          scratchpad, presence, mailboxes;
      this.maxHistory, history, seqNums := maxHistory, map[], map[];
      log, origin := map[], Origin(map[], map[], map[]);
    }

    // ---- Events ------------------------------------------------------------------------------------

    /** Numbers the envelope and appends it to the session's window. */
    method RecordEnvelope(sid: string, env: Envelope, ghost job: Events.Job) returns (e: Envelope)
      requires Valid() && Events.Recorded(job)
      modifies this`history, this`seqNums
      ensures Valid() && e == env.(number := Counter(old(Model()), sid) + 1)
      ensures Model() == Numbered(Lim(), old(Model()), sid, job, e)
    {
      hide Newest;
      seqNums := seqNums[sid := (if sid in seqNums then seqNums[sid] else 0) + 1];
      e := env.(number := seqNums[sid]);
      AppendHistory(sid, e);
    }

    method AppendHistory(sid: string, e: Envelope)
      requires maxHistory >= 1
      modifies this`history
      ensures history ==
              old(history)[sid := Newest((if sid in old(history) then old(history)[sid] else []) + [e], maxHistory)]
    {
      history := history[sid := (if sid in history then history[sid] else []) + [e]];
      if |history[sid]| > maxHistory {
        history := history[sid := history[sid][|history[sid]| - maxHistory..]];
      }
    }

    /** Numbers an envelope that is not kept in history. */
    method SequenceEnvelope(sid: string, env: Envelope, ghost job: Events.Job) returns (e: Envelope)
      requires Valid() && !Events.Recorded(job)
      modifies this`seqNums
      ensures Valid() && e == env.(number := Counter(old(Model()), sid) + 1)
      ensures Model() == Numbered(Lim(), old(Model()), sid, job, e)
    {
      seqNums := seqNums[sid := (if sid in seqNums then seqNums[sid] else 0) + 1];
      e := env.(number := seqNums[sid]);
    }

    method NotifyWatchers(sid: string, e: Envelope, ghost job: Events.Job)
      requires Valid()
      modifies this`log
      ensures Valid()
      ensures Model() == old(Model()).(log := old(log)[sid := Log(old(Model()), sid) + [Events.Issue(e, job)]])
    {
      log := log[sid := Log(Model(), sid) + [Events.Issue(e, job)]];
    }

    method DeliverToAgentMailbox(sid: string, aid: string, e: Envelope)
      requires Valid()
      modifies mailboxes.Repr
      ensures Valid() && fresh(Footprint() - old(Footprint())) && fresh(mailboxes.Repr - old(mailboxes.Repr))
      ensures var k, boxes := Key(sid, aid), old(Model()).boxes;
              Model() == old(Model()).(boxes := boxes[k := Newest(BoxAt(boxes, k) + [e], mailboxes.maxPer)])
    {
      hide Key, Newest, MailSpec.Apply;
      StrippedDeliver(mailboxes.M, mailboxes.maxPer, Key(sid, aid), e);
      mailboxes.Receive(Key(sid, aid), e);
    }

    method ListMembers(sid: string, now: nat) returns (out: seq<Info>, ghost keys: seq<string>)
      requires Valid()
      ensures KeysMatch(Model().roster) && Lists(keys, MemberKeys(Model().roster, sid))
      ensures Describes(out, keys, Model().roster, now)
    {
      hide Key, Lists, Describes, Stripped;
      presence.KeysMatch();
      out, keys := presence.GetAgents(sid, now);
    }

    /** Fans the envelope out to every known member but one, and counts the deliveries. */
    method DeliverToSessionMailboxes(sid: string, e: Envelope, exclude: string, now: nat) returns (delivered: nat)
      requires Valid()
      modifies mailboxes.Repr
      ensures Valid() && fresh(Footprint() - old(Footprint())) && fresh(mailboxes.Repr - old(mailboxes.Repr))
      ensures var keys := KeysOf(sid, Members(old(Model()).roster, sid) - {exclude});
              && Model() == old(Model()).(boxes := Fanned(old(Model()).boxes, keys, e, mailboxes.maxPer))
              && delivered == |keys|
    {
      hide Key, Fanned, Served, Members, KeysOf, Lists, Describes, Newest, Valid, Stripped;
      ghost var s := Model();
      var agents;
      ghost var keys;
      agents, keys := ListMembers(sid, now);
      ServedAll(s.roster, sid, now, agents, keys, exclude);
      delivered := 0;
      ghost var served: set<string> := {};
      NobodyServed(s.boxes, agents, keys, exclude, e, mailboxes.maxPer);
      for i := 0 to |agents|
        invariant Valid() && fresh(Footprint() - old(Footprint())) && fresh(mailboxes.Repr - old(mailboxes.Repr))
        invariant served == Served(agents, keys, exclude, i) && delivered == |served|
        invariant Model() == s.(boxes := Fanned(s.boxes, served, e, mailboxes.maxPer))
      {
        ServedStep(agents, keys, exclude, i, MemberKeys(s.roster, sid));
        if agents[i].aid != exclude {
          FannedStep(s.boxes, served, keys[i], e, mailboxes.maxPer);
          DeliverToAgentMailbox(sid, agents[i].aid, e);
          delivered := delivered + 1;
          served := served + {keys[i]};
        }
      }
    }

    method EmitSystemEvent(sid: string, kind: string, from: string, to: string, payload: Payload, exclude: string,
        now: nat)
      requires Valid()
      modifies this`seqNums, this`log, mailboxes.Repr
      ensures Valid() && fresh(Footprint() - old(Footprint())) && fresh(mailboxes.Repr - old(mailboxes.Repr))
      ensures Model() == Emit(Lim(), old(Model()), sid, Events.System(exclude), kind, from, to, payload)
    {
      hide Key, Fanned, Members, KeysOf, Newest, Stripped, Valid, Numbered, Emit, Counter, Log;
      ghost var s, named := Model(), Envelope(kind, sid, from, to, payload, Counter(Model(), sid) + 1);
      Assembled(Lim(), s, sid, Events.System(exclude), named,
                Fanned(s.boxes, KeysOf(sid, Members(s.roster, sid) - {exclude}), named, mailboxes.maxPer));
      var e := SequenceEnvelope(sid, Envelope(kind, sid, from, to, payload, 0), Events.System(exclude));
      var _ := DeliverToSessionMailboxes(sid, e, exclude, now);
      NotifyWatchers(sid, e, Events.System(exclude));
    }

    method EmitAmbientEvent(sid: string, kind: string, from: string, to: string, payload: Payload)
      requires Valid()
      modifies this`seqNums, this`log
      ensures Valid() && Model() == Emit(Lim(), old(Model()), sid, Events.Ambient, kind, from, to, payload)
    {
      hide Key, Fanned, Members, Newest, Stripped, Valid, Numbered, Emit, Counter, Log;
      ghost var s, named := Model(), Envelope(kind, sid, from, to, payload, Counter(Model(), sid) + 1);
      FannedNone(s.boxes, named, mailboxes.maxPer);
      assert KeysOf(sid, {}) == {};
      Assembled(Lim(), s, sid, Events.Ambient, named, s.boxes);
      var e := SequenceEnvelope(sid, Envelope(kind, sid, from, to, payload, 0), Events.Ambient);
      NotifyWatchers(sid, e, Events.Ambient);
    }

    // ---- Presence ----------------------------------------------------------------------------------

    /** presence.Touch, seen from the whole server. */
    method TouchMember(sid: string, aid: string, caps: Option<seq<string>>, now: nat) returns (isNew: bool)
      requires Valid()
      modifies presence.Repr
      ensures Valid() && fresh(Footprint() - old(Footprint()))
      ensures Model() == old(Model()).(roster := Touched(old(Model()).roster, sid, aid, caps, now))
      ensures isNew == (Key(sid, aid) !in old(Model()).roster.agents)
    {
      hide Key, Touched, Stripped;
      isNew := presence.Touch(sid, aid, caps, now);
    }

    method TouchSession(sid: string, now: nat)
      requires Valid()
      modifies sessionStore.Repr
      ensures Valid() && Footprint() == old(Footprint())
      ensures Model() == old(Model()).(sessions := Sessions.TouchedActivity(old(Model()).sessions, sid, now))
    {
      hide Stripped, Sessions.TouchedActivity;
      var _ := sessionStore.TouchActivity(sid, now);
    }

    method Announce(sid: string, aid: string, caps: seq<string>, kind: string, now: nat)
      requires Valid()
      modifies sessionStore.Repr, this`seqNums, this`log
      ensures Valid() && Footprint() == old(Footprint())
      ensures Model() == Announced(Lim(), old(Model()), sid, aid, caps, kind, now)
    {
      hide Stripped, Emit, Valid, Sessions.TouchedActivity;
      TouchSession(sid, now);
      EmitAmbientEvent(sid, kind, SERVER, EVERYONE, AgentIs(aid, caps, true));
    }

    method Register(sid: string, aid: string, caps: seq<string>, now: nat) returns (isNew: bool)
      requires Valid()
      modifies Footprint()
      ensures Valid() && fresh(Footprint() - old(Footprint()))
      ensures Model() == Registered(Lim(), old(Model()), sid, aid, caps, now)
      ensures isNew == (Key(sid, aid) !in old(Model()).roster.agents)
    {
      hide Key, Touched, Stripped, Announced, Known, Present;
      // read before the touch, which makes the agent live
      var known := presence.WasPresent(sid, aid);
      var live := presence.IsPresent(sid, aid, now);
      isNew := TouchMember(sid, aid, Some(caps), now);
      if known && !live {
        Announce(sid, aid, caps, "agent_reconnected", now);
      }
      if isNew {
        Announce(sid, aid, caps, "agent_joined", now);
        ChooseFirstLeader(sid, aid);
      }
    }

    method ChooseFirstLeader(sid: string, aid: string)
      requires Valid()
      modifies leader
      ensures Valid() && Footprint() == old(Footprint()) && Model() == FirstLeader(old(Model()), sid, aid)
    {
      hide Stripped;
      var _, hasLeader := leader.GetLeader(sid);
      if !hasLeader {
        leader.SetInitialLeader(sid, aid);
      }
    }

    method RefreshPresence(sid: string, aid: string, now: nat)
      requires Valid()
      modifies presence.Repr, sessionStore.Repr
      ensures Valid() && fresh(Footprint() - old(Footprint()))
      ensures Model() == Refreshed(old(Model()), sid, aid, now)
      ensures var k := Key(sid, aid);
              && k in Model().roster.agents && Model().roster.agents[k].seen == now && !Model().roster.agents[k].expired
              && (sid in Model().sessions ==>
                    Model().sessions[sid].lastActive.Some? && Model().sessions[sid].lastActive.value >= now)
    {
      hide Touched, Stripped, Sessions.TouchedActivity;
      Effects.RefreshedFields(Model(), sid, aid, now);
      var _ := TouchMember(sid, aid, None, now);
      TouchSession(sid, now);
    }

    method TransferLead(sid: string, from: string, to: string) returns (ok: bool)
      requires Valid()
      modifies leader
      ensures Valid() && Footprint() == old(Footprint())
      ensures ok == (sid in old(Model()).leaders && old(Model()).leaders[sid] == from)
      ensures Model() == if ok then old(Model()).(leaders := old(Model()).leaders[sid := to]) else old(Model())
    {
      hide Stripped;
      ok := leader.Transfer(sid, from, to);
    }

    method ClearLead(sid: string)
      requires Valid()
      modifies leader
      ensures Valid() && Footprint() == old(Footprint())
      ensures Model() == old(Model()).(leaders := old(Model()).leaders - {sid})
    {
      hide Stripped;
      leader.ClearSession(sid);
    }

    /** The first online member found, or "". */
    method FindHeir(sid: string, now: nat) returns (heir: string)
      requires Valid()
      ensures ValidHeir(Model().roster, sid, heir, now)
    {
      hide Key, Lists, Describes, Stripped;
      var agents;
      ghost var keys;
      agents, keys := ListMembers(sid, now);
      heir := "";
      for i := 0 to |agents|
        invariant heir == ""
        invariant forall j :: 0 <= j < i ==> !agents[j].online
      {
        if agents[i].online {
          heir := agents[i].aid;
          ListedOnline(Model().roster, sid, now, agents, keys, i);
          return;
        }
      }
      NobodyOnline(Model().roster, sid, now, agents, keys);
    }

    /** The expiry hook: silent, except that leadership is handed over. */
    method OnAgentWentOffline(sid: string, aid: string, now: nat) returns (ghost heir: string)
      requires Valid()
      modifies leader, this`seqNums, this`log, mailboxes.Repr
      ensures Valid() && fresh(Footprint() - old(Footprint())) && fresh(mailboxes.Repr - old(mailboxes.Repr))
      ensures ValidHeir(old(Model()).roster, sid, heir, now)
      ensures Model() == WentOffline(Lim(), old(Model()), sid, aid, heir)
    {
      hide Stripped, Emit, ValidHeir;
      var leaderId, ok := leader.GetLeader(sid);
      if ok && leaderId == aid {
        var newLeader := FindHeir(sid, now);
        heir := newLeader;
        if newLeader != "" {
          var _ := TransferLead(sid, aid, newLeader);
          EmitSystemEvent(sid, "leader_info", SERVER, EVERYONE, LeaderIs(newLeader), "", now);
        } else {
          ClearLead(sid);
        }
      } else {
        heir := SomeHeir(Model().roster, sid, now);
      }
    }

    /** The forget hook: the departure is announced on the watch stream only, and the mailbox reclaimed. */
    method OnForget(a: Agent)
      requires Valid()
      modifies this`seqNums, this`log, this`origin, mailboxes.Repr
      ensures Valid() && Footprint() == old(Footprint()) && mailboxes.Repr == old(mailboxes.Repr)
      ensures Model() == Departed(Lim(), old(Model()), a)
    {
      hide Stripped, Emit, Key, OriginLess;
      EmitAmbientEvent(a.sid, "agent_left", SERVER, EVERYONE, AgentIs(a.aid, a.caps, false));
      RemoveBox(Key(a.sid, a.aid));
    }

    method RemoveBox(k: string)
      requires Valid()
      modifies mailboxes, this`origin
      ensures Valid() && Footprint() == old(Footprint()) && mailboxes.Repr == old(mailboxes.Repr)
      ensures Model() == old(Model()).(boxes := old(Model()).boxes - {k}, origin := OriginLess(old(origin), {k}))
    {
      hide Stripped, MailSpec.Apply, OriginLess;
      StrippedRemove(mailboxes.M, mailboxes.maxPer, k, "");
      origin := OriginLess(origin, {k});
      mailboxes.DeleteBox(k);
    }

    method SweepMembers(now: nat) returns (expired: seq<Agent>, forgotten: seq<Agent>)
      requires Valid()
      modifies presence.Repr
      ensures Valid() && Footprint() == old(Footprint())
      ensures Model() == old(Model()).(roster := Swept(old(Model()).roster, now))
      ensures exists keys: seq<string> ::
              Lists(keys, Expiring(old(Model()).roster, now)) && Reports(expired, keys, old(Model()).roster, now)
      ensures exists keys: seq<string> ::
              Lists(keys, Forgetting(old(Model()).roster, now)) && Reports(forgotten, keys, old(Model()).roster, now)
    {
      hide Stripped, Swept, Lists, Reports, Expiring, Forgetting;
      ghost var lapsed, gone;
      expired, forgotten, lapsed, gone := presence.Sweep(now);
    }

    /** One tick of the presence sweep with the hub's hooks. */
    method Sweep(now: nat) returns (ghost lapsed: seq<Agent>, ghost heirs: seq<string>, ghost gone: seq<Agent>)
      requires Valid()
      modifies Footprint()
      ensures Valid() && fresh(Footprint() - old(Footprint()))
      ensures SweepReports(old(Model()), now, lapsed, heirs, gone)
      ensures Model() == SweptServer(Lim(), old(Model()), now, lapsed, heirs, gone)
    {
      hide Stripped, Swept, Lists, Reports, Expiring, Forgetting, ValidHeir, Offline, Departures, Valid;
      var expired, forgotten := SweepMembers(now);
      heirs := CallExpiryHooks(expired, now);
      CallForgetHooks(forgotten);
      lapsed, gone := expired, forgotten;
    }

    method CallExpiryHooks(expired: seq<Agent>, now: nat) returns (ghost heirs: seq<string>)
      requires Valid()
      modifies leader, this`seqNums, this`log, mailboxes.Repr
      ensures Valid() && fresh(Footprint() - old(Footprint())) && |heirs| == |expired|
      ensures forall j :: 0 <= j < |expired| ==> ValidHeir(old(Model()).roster, expired[j].sid, heirs[j], now)
      ensures Model() == Offline(Lim(), old(Model()), expired, heirs)
    {
      hide Stripped, ValidHeir, WentOffline, Valid;
      ghost var s := Model();
      heirs := [];
      for i := 0 to |expired|
        invariant Valid() && fresh(Footprint() - old(Footprint()))
        invariant fresh(mailboxes.Repr - old(mailboxes.Repr)) && |heirs| == i
        invariant Model() == Offline(Lim(), s, expired[..i], heirs) && Model().roster == s.roster
        invariant forall j :: 0 <= j < i ==> ValidHeir(s.roster, expired[j].sid, heirs[j], now)
      {
        WentOfflineRoster(Lim(), Model(), expired[i].sid, expired[i].aid);
        ghost var heir := OnAgentWentOffline(expired[i].sid, expired[i].aid, now);
        heirs := heirs + [heir];
        assert expired[..i + 1][..i] == expired[..i] && heirs[..i] + [heir] == heirs;
      }
      assert expired[..|expired|] == expired;
    }

    method CallForgetHooks(forgotten: seq<Agent>)
      requires Valid()
      modifies this`seqNums, this`log, this`origin, mailboxes.Repr
      ensures Valid() && Footprint() == old(Footprint())
      ensures Model() == Departures(Lim(), old(Model()), forgotten)
    {
      hide Stripped, Departed, Valid;
      ghost var s := Model();
      for i := 0 to |forgotten|
        invariant Valid() && Footprint() == old(Footprint()) && mailboxes.Repr == old(mailboxes.Repr)
        invariant Model() == Departures(Lim(), s, forgotten[..i])
      {
        OnForget(forgotten[i]);
        assert forgotten[..i + 1][..i] == forgotten[..i];
      }
      assert forgotten[..|forgotten|] == forgotten;
    }

    // ---- Mailboxes ---------------------------------------------------------------------------------

    method PeekMailbox(sid: string, aid: string, now: nat) returns (n: nat)
      requires Valid()
      modifies presence.Repr
      ensures Valid() && fresh(Footprint() - old(Footprint()))
      ensures Model() == Seen(old(Model()), sid, aid, now) && n == |BoxAt(Model().boxes, Key(sid, aid))|
    {
      hide Key, Touched, Stripped, Valid;
      var _ := TouchMember(sid, aid, None, now);
      n := CountMail(Key(sid, aid));
    }

    method CountMail(k: string) returns (n: nat)
      requires Valid()
      ensures n == |BoxAt(Model().boxes, k)|
    {
      n := mailboxes.Len(k);
    }

    /** An immediate drain; without a filter everything is taken. */
    method DrainMailboxFiltered(sid: string, aid: string, from: string, kind: string,
        now: nat) returns (out: seq<MailSpec.Entry>)
      requires Valid()
      modifies presence.Repr, mailboxes.Repr
      ensures Valid() && fresh(Footprint() - old(Footprint()))
      ensures Model() == Drained(old(Model()), sid, aid, from, kind, now)
      ensures out == MailSpec.Result(old(mailboxes.M), MailSpec.DrainMatching(Key(sid, aid), from, kind))
      ensures forall e :: e in out ==> (from != "" ==> e.env.from == from) && (kind != "" ==> e.env.kind == kind)
      ensures forall x :: x in BoxAt(Model().boxes, Key(sid, aid)) ==>
                (from != "" && x.from != from) || (kind != "" && x.kind != kind)
    {
      hide Key, Touched, Filter, MailSpec.Apply, MailSpec.Result, Stripped;
      var _ := TouchMember(sid, aid, None, now);
      FilterMembers(BoxAt(Model().boxes, Key(sid, aid)), Events.Unmatched(from, kind));
      out := TakeMail(Key(sid, aid), from, kind);
    }

    /** A drain that waits: the touch, then the long poll on the mailbox store while others work on it. */
    method DrainMailboxWait(sid: string, aid: string, from: string, kind: string, wait: int, now: nat,
        rounds: seq<Mailbox.Round>)
      returns (out: seq<MailSpec.Entry>, clock: nat, drainedAt: nat, iterations: nat, ghost asleep: nat)
      requires Valid()
      modifies presence.Repr, mailboxes.Repr
      ensures Valid() && fresh(Footprint() - old(Footprint())) && iterations >= 1
      ensures Mailbox.Timed(rounds, now, wait, iterations, out == [], clock, drainedAt, asleep)
      ensures Model() == Seen(old(Model()), sid, aid, now).(boxes := Model().boxes)
      ensures Waited(old(mailboxes.M), mailboxes.M, mailboxes.maxPer, Key(sid, aid), from, kind, rounds,
                     iterations, out)
      ensures forall e :: e in out ==> (from != "" ==> e.env.from == from) && (kind != "" ==> e.env.kind == kind)
      ensures out != [] ==> forall e :: e in MailSpec.Queue(mailboxes.M, Key(sid, aid)) ==>
                (from != "" && e.env.from != from) || (kind != "" && e.env.kind != kind)
      ensures var seen := MailSpec.RunFrom(old(mailboxes.M), mailboxes.maxPer, Mailbox.OpsOf(rounds, iterations - 1));
              out == [] ==> forall e :: e in MailSpec.Queue(seen, Key(sid, aid)) ==>
                (from != "" && e.env.from != from) || (kind != "" && e.env.kind != kind)
    {
      hide Key, Touched, Stripped, Waited, Mailbox.Timed;
      TouchKeepsMail(sid, aid, now);
      out, clock, drainedAt, iterations, asleep := WaitForMail(Key(sid, aid), from, kind, wait, now, rounds);
    }

    method TouchKeepsMail(sid: string, aid: string, now: nat)
      requires Valid()
      modifies presence.Repr
      ensures Valid() && fresh(Footprint() - old(Footprint()))
      ensures Model() == Seen(old(Model()), sid, aid, now) && unchanged(mailboxes)
      ensures mailboxes.Repr == old(mailboxes.Repr)
    {
      hide Key, Touched, Stripped;
      var _ := TouchMember(sid, aid, None, now);
    }

    method WaitForMail(k: string, from: string, kind: string, wait: int, now: nat, rounds: seq<Mailbox.Round>)
      returns (out: seq<MailSpec.Entry>, clock: nat, drainedAt: nat, iterations: nat, ghost asleep: nat)
      requires Valid()
      modifies mailboxes.Repr
      ensures Valid() && fresh(Footprint() - old(Footprint())) && iterations >= 1
      ensures Mailbox.Timed(rounds, now, wait, iterations, out == [], clock, drainedAt, asleep)
      ensures Model() == old(Model()).(boxes := Model().boxes)
      ensures Waited(old(mailboxes.M), mailboxes.M, mailboxes.maxPer, k, from, kind, rounds, iterations, out)
      ensures forall e :: e in out ==> (from != "" ==> e.env.from == from) && (kind != "" ==> e.env.kind == kind)
      ensures out != [] ==> forall e :: e in MailSpec.Queue(mailboxes.M, k) ==>
                (from != "" && e.env.from != from) || (kind != "" && e.env.kind != kind)
      ensures var seen := MailSpec.RunFrom(old(mailboxes.M), mailboxes.maxPer, Mailbox.OpsOf(rounds, iterations - 1));
              out == [] ==> forall e :: e in MailSpec.Queue(seen, k) ==>
                (from != "" && e.env.from != from) || (kind != "" && e.env.kind != kind)
    {
      hide Stripped, Mailbox.Ticks, MailSpec.Deliveries, MailSpec.Apply, MailSpec.Result, MailSpec.RunFrom,
          MailSpec.Same, Mailbox.OpsOf, Mailbox.Timed, Mailbox.NothingBefore;
      ghost var takes;
      out, clock, drainedAt, iterations, takes, asleep := mailboxes.DrainMatchingWait(k, from, kind, wait, now, rounds);
    }

    method TakeMail(k: string, from: string, kind: string) returns (out: seq<MailSpec.Entry>)
      requires Valid()
      modifies mailboxes.Repr
      ensures Valid() && Footprint() == old(Footprint())
      ensures Model() == (if k in old(Model()).boxes
                          then old(Model()).(boxes := old(Model()).boxes[k :=
                                                 Filter(old(Model()).boxes[k], Events.Unmatched(from, kind))])
                          else old(Model()))
      ensures out == MailSpec.Result(old(mailboxes.M), MailSpec.DrainMatching(k, from, kind))
      ensures forall e :: e in out ==> (from != "" ==> e.env.from == from) && (kind != "" ==> e.env.kind == kind)
    {
      hide Filter, MailSpec.Apply, MailSpec.Result, Stripped;
      StrippedDrain(mailboxes.M, mailboxes.maxPer, k, from, kind);
      out := mailboxes.Take(k, from, kind);
    }

    // ---- Messages ----------------------------------------------------------------------------------

    method FindMember(sid: string, aid: string, now: nat) returns (found: bool)
      requires Valid()
      ensures found == (aid in Members(Model().roster, sid))
    {
      hide Key, Members, Lists, Describes, Stripped;
      var agents;
      ghost var keys;
      agents, keys := ListMembers(sid, now);
      found := false;
      for i := 0 to |agents|
        invariant found == exists j :: 0 <= j < i && agents[j].aid == aid
      {
        if agents[i].aid == aid {
          found := true;
        }
      }
      ListedMember(Model().roster, sid, now, agents, keys, aid);
    }

    method SendMessage(sid: string, from: string, to: string, kind: string, payload: Payload,
        now: nat) returns (error: Option<Refusal>)
      requires Valid()
      modifies this`history, this`seqNums, this`log, mailboxes.Repr
      ensures Valid() && fresh(Footprint() - old(Footprint()))
      ensures error == SendRefusal(old(Model()), sid, to)
      ensures Model() == Sent(Lim(), old(Model()), sid, from, to, kind, payload)
    {
      hide Stripped, Members, Emit, Valid;
      if to == "" {
        return Some(ToRequired);
      }
      var found := FindMember(sid, to, now);
      if !found {
        return Some(NoSuchAgent);
      }
      error := None;
      EmitDirect(sid, from, to, kind, payload);
    }

    /** Record, deliver to the recipient's mailbox, notify. */
    method EmitDirect(sid: string, from: string, to: string, kind: string, payload: Payload)
      requires Valid()
      modifies this`history, this`seqNums, this`log, mailboxes.Repr
      ensures Valid() && fresh(Footprint() - old(Footprint()))
      ensures Model() == Emit(Lim(), old(Model()), sid, Events.Send(to), kind, from, to, payload)
    {
      hide Key, Stripped, Members, Fanned, Newest, Valid, Numbered, Emit, KeysOf, Counter, Log;
      ghost var s, named := Model(), Envelope(kind, sid, from, to, payload, Counter(Model(), sid) + 1);
      FannedOne(s.boxes, sid, to, named, mailboxes.maxPer);
      Assembled(Lim(), s, sid, Events.Send(to), named, Fanned(s.boxes, KeysOf(sid, {to}), named, mailboxes.maxPer));
      var e := RecordEnvelope(sid, Envelope(kind, sid, from, to, payload, 0), Events.Send(to));
      DeliverToAgentMailbox(sid, to, e);
      NotifyWatchers(sid, e, Events.Send(to));
    }

    lemma RosterMatches()
      requires Valid()
      ensures KeysMatch(Model().roster)
    {
      hide Key, Stripped;
      presence.KeysMatch();
    }

    method Broadcast(sid: string, from: string, kind: string, payload: Payload, now: nat) returns (n: nat)
      requires Valid()
      modifies this`history, this`seqNums, this`log, mailboxes.Repr
      ensures Valid() && fresh(Footprint() - old(Footprint()))
      ensures Model() == Broadcasted(Lim(), old(Model()), sid, from, kind, payload)
      ensures n == |KeysOf(sid, Members(old(Model()).roster, sid) - {from})|
      ensures var all := old(Model()).roster.agents; n == |set k | k in all && all[k].sid == sid && all[k].aid != from|
    {
      hide Key, Stripped, Members, Fanned, KeysOf, Newest, Valid, Numbered, Emit, Counter, Log;
      ghost var s, named := Model(), Envelope(kind, sid, from, EVERYONE, payload, Counter(Model(), sid) + 1);
      RosterMatches();
      OthersCounted(s.roster, sid, from);
      Assembled(Lim(), s, sid, Events.Broadcast(from), named,
                Fanned(s.boxes, KeysOf(sid, Members(s.roster, sid) - {from}), named, mailboxes.maxPer));
      var e := RecordEnvelope(sid, Envelope(kind, sid, from, EVERYONE, payload, 0), Events.Broadcast(from));
      n := DeliverToSessionMailboxes(sid, e, from, now);
      NotifyWatchers(sid, e, Events.Broadcast(from));
    }

    // ---- Scratchpad and leadership -----------------------------------------------------------------

    method SetEntry(sid: string, key: string, value: string, aid: string, now: nat) returns (entry: PadEntry)
      requires Valid()
      modifies scratchpad
      ensures Valid() && Footprint() == old(Footprint()) && entry == PadEntry(key, value, aid, now)
      ensures Model() == old(Model()).(pads := old(Model()).pads[sid :=
                                                 Scratchpad.Pad(old(Model()).pads, sid)[key := entry]],
                                       padCounts := Scratchpad.Bumped(old(Model()).padCounts, sid))
    {
      hide Stripped, Scratchpad.Pad, Scratchpad.Bumped;
      entry := scratchpad.Set(sid, key, value, aid, now);
    }

    method DropEntry(sid: string, key: string) returns (ok: bool)
      requires Valid()
      modifies scratchpad
      ensures Valid() && Footprint() == old(Footprint()) && ok == (key in Scratchpad.Pad(old(Model()).pads, sid))
      ensures Model() == if ok then old(Model()).(pads := old(Model()).pads[sid :=
                                                            Scratchpad.Pad(old(Model()).pads, sid) - {key}],
                                                  padCounts := Scratchpad.Bumped(old(Model()).padCounts, sid))
                         else old(Model())
    {
      hide Stripped, Scratchpad.Pad, Scratchpad.Bumped;
      ok := scratchpad.Delete(sid, key);
    }

    method ScratchpadSet(sid: string, aid: string, key: string, value: string,
        now: nat) returns (error: Option<Refusal>)
      requires Valid()
      modifies scratchpad, this`seqNums, this`log, mailboxes.Repr
      ensures Valid() && fresh(Footprint() - old(Footprint()))
      ensures error == if key == "" then Some(KeyRequired) else None
      ensures Model() == PadChanged(Lim(), old(Model()), sid, aid, key, value, now)
      ensures key != "" ==>
                && sid in scratchpad.pads && key in scratchpad.pads[sid]
                && var e := scratchpad.pads[sid][key];
                   e.key == key && e.value == value && e.author == aid && e.at == now
    {
      hide Stripped, Emit, Valid, Scratchpad.Pad, Scratchpad.Bumped, Effects.OneUpdate;
      Effects.PadSetFields(Lim(), Model(), sid, aid, key, value, now);
      if key == "" {
        return Some(KeyRequired);
      }
      error := None;
      var entry := SetEntry(sid, key, value, aid, now);
      EmitSystemEvent(sid, "scratchpad_update", aid, EVERYONE, PadSet(entry), aid, now);
    }

    method ScratchpadDelete(sid: string, aid: string, key: string, now: nat) returns (error: Option<Refusal>)
      requires Valid()
      modifies scratchpad, this`seqNums, this`log, mailboxes.Repr
      ensures Valid() && fresh(Footprint() - old(Footprint()))
      ensures error == if key !in Scratchpad.Pad(old(Model()).pads, sid) then Some(KeyNotFound) else None
      ensures Model() == PadRemoved(Lim(), old(Model()), sid, aid, key)
      ensures !(sid in scratchpad.pads && key in scratchpad.pads[sid])
    {
      hide Stripped, Emit, Valid, Scratchpad.Pad, Scratchpad.Bumped, Effects.OneUpdate;
      Effects.PadDeleteFields(Lim(), Model(), sid, aid, key);
      var ok := DropEntry(sid, key);
      if !ok {
        return Some(KeyNotFound);
      }
      error := None;
      EmitSystemEvent(sid, "scratchpad_update", aid, EVERYONE, PadDeleted(key), aid, now);
    }

    method IsPresent(sid: string, aid: string, now: nat) returns (ok: bool)
      requires Valid()
      ensures ok == Present(Model().roster, sid, aid, now)
    {
      hide Stripped, Present;
      ok := presence.IsPresent(sid, aid, now);
    }

    method LeaderTransfer(sid: string, from: string, to: string, now: nat) returns (error: Option<Refusal>)
      requires Valid()
      modifies leader, this`seqNums, this`log, mailboxes.Repr
      ensures Valid() && fresh(Footprint() - old(Footprint()))
      ensures error == TransferRefusal(old(Model()), sid, from, to, now)
      ensures Model() == Transferred(Lim(), old(Model()), sid, from, to, now)
      ensures var r := presence.M;
              error.None? <==>
              && sid in old(leader.leaders) && old(leader.leaders)[sid] == from
              && Key(sid, to) in r.agents && now - r.agents[Key(sid, to)].seen < r.ttl
      ensures leader.leaders == if error.None? then old(leader.leaders)[sid := to] else old(leader.leaders)
      ensures error.None? ==>
                Effects.OneMore(old(Model()), Model(), sid, Events.System(from), "leader_info", LeaderMoved(to, from))
      ensures error.Some? ==> Model() == old(Model())
    {
      hide Stripped, Emit, Present, Valid, Effects.OneMore;
      Effects.TransferFields(Lim(), Model(), sid, from, to, now);
      var current, _ := leader.GetLeader(sid);
      if current != from {
        return Some(NotLeader);
      }
      var present := IsPresent(sid, to, now);
      if !present {
        return Some(NotPresent);
      }
      var ok := TransferLead(sid, from, to);
      if !ok {
        return Some(TransferFailed);
      }
      error := None;
      EmitSystemEvent(sid, "leader_info", SERVER, EVERYONE, LeaderMoved(to, from), from, now);
    }

    // ---- History -----------------------------------------------------------------------------------

    /** Copies the first entries above the cursor, at most a page of them. */
    method GetHistoryAfter(sid: string, after: int, limit: int) returns (out: seq<Envelope>)
      requires Valid()
      ensures out == FirstAbove(HistoryOf(Model(), sid), after, limit, maxHistory)
      ensures sid !in history ==> out == []
      ensures sid in history ==>
                var h := history[sid];
                var n, page := |PlacesAbove(h, after)|, if limit > 0 then limit else maxHistory;
                |out| == (if n < page then n else page) && forall e :: e in out ==> e in h && e.number > after
    {
      hide Stripped, Filter;
      var max := if limit <= 0 then maxHistory else limit;
      var h := if sid in history then history[sid] else [];
      out := [];
      assert Filter(h[..0], Above(after)) == [] by { FilterNone<Envelope>([], Above(after)); }
      var i := 0;
      while i < |h|
        invariant 0 <= i <= |h| && |out| < max
        invariant out == Filter(h[..i], Above(after))
      {
        FilterPrefixStep(h, i, Above(after));
        if h[i].number > after {
          out := out + [h[i]];
        }
        i := i + 1;
        if |out| >= max {
          PageFull(h, i, after, max);
          PageIsFull(h, after, limit, maxHistory);
          return;
        }
      }
      assert h[..i] == h;
      PageIsFull(h, after, limit, maxHistory);
    }

    method GetHistory(sid: string) returns (out: seq<Envelope>)
      requires Valid()
      ensures out == HistoryOf(Model(), sid)
    {
      hide Stripped;
      out := if sid in history then history[sid] else [];
    }

    // ---- Persistence -------------------------------------------------------------------------------

    method HistorySnapshot() returns (out: map<string, seq<Envelope>>)
      requires Valid()
      ensures out == history
    {
      out := map[];
      var todo := history.Keys;
      while todo != {}
        invariant todo <= history.Keys && out == history - todo
        decreases todo
      {
        var sid :| sid in todo;
        out := out[sid := history[sid]];
        todo := todo - {sid};
      }
    }

    method SeqSnapshot() returns (out: map<string, nat>)
      requires Valid()
      ensures out == seqNums
    {
      out := map[];
      var todo := seqNums.Keys;
      while todo != {}
        invariant todo <= seqNums.Keys && out == seqNums - todo
        decreases todo
      {
        var sid :| sid in todo;
        out := out[sid := seqNums[sid]];
        todo := todo - {sid};
      }
    }

    /** Histories replace those present; counters never move back. */
    method RestoreState(saved: map<string, seq<Envelope>>, counters: map<string, nat>)
      requires Valid()
      modifies this`history, this`seqNums
      ensures Valid() && history == old(history) + saved && seqNums == Raised(old(seqNums), counters)
    {
      hide Raised;
      ReplaceHistories(saved);
      RaiseCounters(counters);
    }

    method ReplaceHistories(saved: map<string, seq<Envelope>>)
      modifies this`history
      ensures history == old(history) + saved
    {
      var todo := saved.Keys;
      while todo != {}
        invariant todo <= saved.Keys && history == old(history) + (saved - todo)
        modifies this`history
        decreases todo
      {
        var sid :| sid in todo;
        history := history[sid := saved[sid]];
        todo := todo - {sid};
      }
    }

    method RaiseCounters(counters: map<string, nat>)
      modifies this`seqNums
      ensures seqNums == Raised(old(seqNums), counters)
    {
      hide Raised;
      var todo := counters.Keys;
      RaisedNone(seqNums, counters);
      while todo != {}
        invariant todo <= counters.Keys && seqNums == Raised(old(seqNums), counters - todo)
        modifies this`seqNums
        decreases todo
      {
        var sid :| sid in todo;
        RaisedStep(old(seqNums), counters, todo, sid);
        if counters[sid] > (if sid in seqNums then seqNums[sid] else 0) {
          seqNums := seqNums[sid := counters[sid]];
        }
        todo := todo - {sid};
      }
    }

    /** The process begins to serve with what has been restored. */
    ghost method Begin()
      requires Valid()
      modifies this`log, this`origin
      ensures Valid() && Footprint() == old(Footprint()) && Model() == Begun(old(Model()))
    {
      hide Stripped;
      log, origin := map[], Origin(seqNums, history, Stripped(mailboxes.M.boxes));
    }

    // ---- Sessions ----------------------------------------------------------------------------------

    method ForgetSession(sid: string)
      requires Valid()
      modifies this`history, this`seqNums, this`log, this`origin
      ensures Valid() && Footprint() == old(Footprint())
      ensures Model() == old(Model()).(history := old(history) - {sid}, counters := old(seqNums) - {sid},
                                       log := old(log) - {sid}, origin := OriginWithout(old(origin), {sid}))
    {
      hide Stripped, BoxesWithout;
      history := history - {sid};
      seqNums := seqNums - {sid};
      log := log - {sid};
      origin := OriginWithout(origin, {sid});
    }

    method ForgetMembers(sid: string)
      requires Valid()
      modifies presence
      ensures Valid() && Footprint() == old(Footprint())
      ensures Model() == old(Model()).(roster := Cleared(old(Model()).roster, sid))
    {
      hide Stripped, Cleared;
      presence.ClearSession(sid);
    }

    method ForgetPad(sid: string)
      requires Valid()
      modifies scratchpad
      ensures Valid() && Footprint() == old(Footprint())
      ensures Model() == old(Model()).(pads := old(Model()).pads - {sid}, padCounts := old(Model()).padCounts - {sid})
    {
      hide Stripped;
      scratchpad.ClearSession(sid);
    }

    method ForgetMail(sid: string)
      requires Valid()
      modifies mailboxes
      ensures Valid() && Footprint() == old(Footprint())
      ensures Model() == old(Model()).(boxes := BoxesWithout(old(Model()).boxes, {sid}))
    {
      hide Stripped, BoxesWithout, MailSpec.Apply, MailSpec.HasPrefix;
      StrippedRemove(mailboxes.M, mailboxes.maxPer, "", sid);
      mailboxes.DeleteSession(sid);
    }

    /** Drops everything of the session but its registry entry. */
    method CloseSession(sid: string)
      requires Valid()
      modifies this`history, this`seqNums, this`log, this`origin, presence, leader, scratchpad, mailboxes
      ensures Valid() && Footprint() == old(Footprint())
      ensures Model() == Closed(old(Model()), {sid}).(sessions := old(Model()).sessions)
    {
      hide Stripped, Valid, Closed, Cleared, BoxesWithout;
      ClosedInParts(Model(), sid);
      ForgetSession(sid);
      ForgetMembers(sid);
      ClearLead(sid);
      ForgetPad(sid);
      ForgetMail(sid);
    }

    method Unlist(sid: string) returns (ok: bool)
      requires Valid()
      modifies sessionStore
      ensures Valid() && Footprint() == old(Footprint()) && ok == (sid in old(Model()).sessions)
      ensures Model() == old(Model()).(sessions := old(Model()).sessions - {sid})
    {
      hide Stripped;
      ok := sessionStore.Delete(sid);
    }

    /** The DELETE request: unknown sessions are refused. */
    method DeleteSession(sid: string) returns (ok: bool)
      requires Valid()
      modifies this`history, this`seqNums, this`log, this`origin, presence, leader, scratchpad, mailboxes, sessionStore
      ensures Valid() && Footprint() == old(Footprint())
      ensures ok == (sid in old(Model()).sessions) && Model() == ClosedOne(old(Model()), sid)
    {
      hide Stripped, Valid, OfSession;
      ok := Unlist(sid);
      if ok {
        CloseSession(sid);
      }
    }

    method ListSessions() returns (list: seq<Sessions.Session>)
      requires Valid()
      ensures Sessions.Saves(list, Model().sessions) && Sessions.IdsMatch(Model().sessions)
      ensures forall i :: 0 <= i < |list| ==> list[i].id in Model().sessions && list[i] == Model().sessions[list[i].id]
    {
      hide Stripped;
      list := sessionStore.Snapshot();
    }

    /** The janitor: deletes every session whose last activity is not after the cutoff. */
    method ReapStaleSessions(retention: nat, now: nat)
      requires Valid()
      modifies this`history, this`seqNums, this`log, this`origin, presence, leader, scratchpad, mailboxes, sessionStore
      ensures Valid() && Footprint() == old(Footprint())
      ensures Model() == Closed(old(Model()), Stale(old(Model()).sessions, now - retention))
    {
      hide Stripped, Closed, ClosedOne, Sessions.ActiveAfter, Stale, Valid;
      var cutoff := now - retention;
      ghost var s := Model();
      var list := ListSessions();
      ghost var done: set<string> := {};
      NothingClosed(s);
      for i := 0 to |list|
        invariant Valid() && Footprint() == old(Footprint())
        invariant Model() == Closed(s, done)
        invariant done == set j | 0 <= j < i && !Sessions.ActiveAfter(list[j].lastActive, cutoff) :: list[j].id
      {
        if !Sessions.ActiveAfter(list[i].lastActive, cutoff) {
          ClosedAgain(s, done, list[i].id);
          var _ := DeleteSession(list[i].id);
          done := done + {list[i].id};
        }
      }
      StaleListed(s.sessions, list, cutoff);
    }
  }

  /** Number, deliver, notify, put together. */
  lemma Assembled(lim: Limits, s: State, sid: string, job: Events.Job, e: Envelope, boxes: Boxes)
    requires e.session == sid && e.number == Counter(s, sid) + 1
    requires boxes == Fanned(s.boxes, KeysOf(sid, Events.Addressees(job, Members(s.roster, sid))), e, lim.box)
    ensures var n := Numbered(lim, s, sid, job, e);
            && n == s.(counters := n.counters, history := n.history)
            && n.(boxes := boxes, log := s.log[sid := Log(s, sid) + [Events.Issue(e, job)]])
               == Emit(lim, s, sid, job, e.kind, e.from, e.to, e.payload)
            && Log(n, sid) == Log(s, sid) == Log(n.(boxes := boxes), sid)
  {
    hide Fanned, KeysOf, Members, Newest, Events.Addressees;
  }

  lemma OthersCounted(r: Roster, sid: string, from: string)
    requires KeysMatch(r)
    ensures KeysOf(sid, Members(r, sid) - {from}) ==
            set k | k in r.agents && r.agents[k].sid == sid && r.agents[k].aid != from
  {
    hide Key;
    forall k | k in r.agents && r.agents[k].sid == sid && r.agents[k].aid != from
      ensures k in KeysOf(sid, Members(r, sid) - {from})
    {
      assert r.agents[k].aid in Members(r, sid);
    }
  }

  lemma NobodyServed(boxes: Boxes, out: seq<Info>, keys: seq<string>, exclude: string, e: Envelope, max: nat)
    requires |out| == |keys|
    ensures Served(out, keys, exclude, 0) == {} && Fanned(boxes, {}, e, max) == boxes
  {
  }

  lemma ListedOnline(r: Roster, sid: string, now: nat, out: seq<Info>, keys: seq<string>, i: nat)
    requires KeysMatch(r) && Lists(keys, MemberKeys(r, sid)) && Describes(out, keys, r, now)
    requires i < |out| && out[i].online
    ensures Online(r, sid, out[i].aid, now)
  {
    hide Key;
    assert keys[i] in MemberKeys(r, sid);
  }

  lemma NobodyOnline(r: Roster, sid: string, now: nat, out: seq<Info>, keys: seq<string>)
    requires KeysMatch(r) && Lists(keys, MemberKeys(r, sid)) && Describes(out, keys, r, now)
    requires forall j :: 0 <= j < |out| ==> !out[j].online
    ensures ValidHeir(r, sid, "", now)
  {
    hide Key;
    forall a
      ensures !Online(r, sid, a, now)
    {
      if Key(sid, a) in MemberKeys(r, sid) {
        assert Key(sid, a) in keys;
        var i :| 0 <= i < |keys| && keys[i] == Key(sid, a);
        assert !out[i].online;
      }
    }
  }

  lemma SomeHeir(r: Roster, sid: string, now: nat) returns (heir: string)
    ensures ValidHeir(r, sid, heir, now)
  {
    hide Online;
    if a :| Online(r, sid, a, now) {
      heir := a;
    } else {
      heir := "";
    }
  }

  lemma WentOfflineRoster(lim: Limits, s: State, sid: string, aid: string)
    ensures forall heir :: WentOffline(lim, s, sid, aid, heir).roster == s.roster
  {
    hide Fanned, Newest, Members;
  }

  lemma ListedMember(r: Roster, sid: string, now: nat, out: seq<Info>, keys: seq<string>, aid: string)
    requires Lists(keys, MemberKeys(r, sid)) && Describes(out, keys, r, now)
    ensures aid in Members(r, sid) <==> exists i :: 0 <= i < |out| && out[i].aid == aid
  {
    if aid in Members(r, sid) {
      var k :| k in r.agents && r.agents[k].sid == sid && r.agents[k].aid == aid;
      assert k in MemberKeys(r, sid);
      assert k in keys;
      var i :| 0 <= i < |keys| && keys[i] == k;
      assert out[i].aid == aid;
    }
    if i :| 0 <= i < |out| && out[i].aid == aid {
      assert keys[i] in MemberKeys(r, sid);
    }
  }

  lemma FannedOne(boxes: Boxes, sid: string, to: string, e: Envelope, max: nat)
    ensures boxes[Key(sid, to) := Newest(BoxAt(boxes, Key(sid, to)) + [e], max)] ==
            Fanned(boxes, KeysOf(sid, {to}), e, max)
  {
    hide Newest, Key;
    assert KeysOf(sid, {to}) == {Key(sid, to)};
  }

  /** Once the page is full the rest of the window cannot change it. */
  lemma PageFull(h: seq<Envelope>, i: nat, after: int, n: nat)
    requires i <= |h| && |Filter(h[..i], Above(after))| == n
    ensures Take(Filter(h, Above(after)), n) == Filter(h[..i], Above(after))
  {
    hide Filter;
    FilterConcat(h[..i], h[i..], Above(after));
    assert h == h[..i] + h[i..];
  }

  lemma NothingClosed(s: State)
    ensures Closed(s, {}) == s
  {
  }

  lemma ClosedInParts(s: State, sid: string)
    ensures Closed(s, {sid}).(sessions := s.sessions) ==
            s.(roster := Cleared(s.roster, sid), leaders := s.leaders - {sid}, pads := s.pads - {sid},
               padCounts := s.padCounts - {sid}, boxes := BoxesWithout(s.boxes, {sid}), history := s.history - {sid},
               counters := s.counters - {sid}, log := s.log - {sid}, origin := OriginWithout(s.origin, {sid}))
  {
    hide BoxesWithout;
  }

  lemma ClosedAgain(s: State, done: set<string>, sid: string)
    ensures ClosedOne(Closed(s, done), sid) == if sid in s.sessions then Closed(s, done + {sid}) else Closed(s, done)
  {
    hide RosterWithout, BoxesWithout, OriginWithout;
    RosterAgain(s.roster, done, sid);
    BoxesAgain(s.boxes, done, sid);
    if sid in done {
      assert done + {sid} == done;
    }
    MinusTwice(s.leaders, done, sid);
    MinusTwice(s.pads, done, sid);
    MinusTwice(s.padCounts, done, sid);
    MinusTwice(s.history, done, sid);
    MinusTwice(s.counters, done, sid);
    MinusTwice(s.sessions, done, sid);
    MinusTwice(s.log, done, sid);
    OriginAgain(s.origin, done, sid);
  }

  lemma MinusTwice<T>(m: map<string, T>, done: set<string>, sid: string)
    ensures m - done - {sid} == m - (done + {sid})
  {
  }

  lemma OriginAgain(o: Origin, done: set<string>, sid: string)
    ensures OriginWithout(OriginWithout(o, done), {sid}) == OriginWithout(o, done + {sid})
  {
    hide BoxesWithout;
    BoxesAgain(o.boxes, done, sid);
    MinusTwice(o.history, done, sid);
    MinusTwice(o.counters, done, sid);
  }

  lemma RosterAgain(r: Roster, done: set<string>, sid: string)
    ensures RosterWithout(RosterWithout(r, done), {sid}) == RosterWithout(r, done + {sid})
  {
  }

  lemma BoxesAgain(boxes: Boxes, done: set<string>, sid: string)
    ensures BoxesWithout(BoxesWithout(boxes, done), {sid}) == BoxesWithout(boxes, done + {sid})
  {
    assert forall k :: OfSession(k, done + {sid}) <==> OfSession(k, done) || OfSession(k, {sid});
  }

  lemma StaleListed(m: map<string, Sessions.Session>, list: seq<Sessions.Session>, cutoff: int)
    requires Sessions.Saves(list, m) && Sessions.IdsMatch(m) &&
    forall i :: 0 <= i < |list| ==> list[i].id in m && list[i] == m[list[i].id]
    ensures Stale(m, cutoff) ==
            set j | 0 <= j < |list| && !Sessions.ActiveAfter(list[j].lastActive, cutoff) :: list[j].id
  {
    hide Sessions.ActiveAfter;
    var listed := set j | 0 <= j < |list| && !Sessions.ActiveAfter(list[j].lastActive, cutoff) :: list[j].id;
    forall k | k in Stale(m, cutoff)
      ensures k in listed
    {
      assert m[k] in list;
      var j :| 0 <= j < |list| && list[j] == m[k];
      assert list[j].id in listed;
    }
  }
}
