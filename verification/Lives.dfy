/** One process after another: which saved states a server can begin to serve with, and that those the server saves
    while it is serving are among them. */
module Lives {
  import opened Sequences
  import opened Envelopes
  import opened PresenceSpec
  import opened Server
  import opened ServerSafety
  import opened Hub
  import opened Restart
  import MailSpec
  import Sessions
  import Scratchpad
  import ServerRuns
  import Resync
  import Events = EventProtocol

  function HistoryIn(history: map<string, seq<Envelope>>, sid: string): seq<Envelope> {
    if sid in history then history[sid] else []
  }

  /** Sessions without '/' in their ids, and histories within the window. */
  ghost predicate Storable(max: nat, snap: Snapshot) {
    && (forall s :: s in snap.sessions ==> SlashFree(s.id))
    && (forall sid :: |HistoryIn(snap.history, sid)| <= max)
  }

  /** The history of the session is in order, and nothing in it or in a mailbox of the session is numbered above the
      session's saved counter. */
  ghost predicate SoundIn(snap: Snapshot, sid: string) {
    && HistoryFits(HistoryIn(snap.history, sid), CounterIn(snap.seqNums, sid))
    && (forall aid :: SlashFree(sid) && Key(sid, aid) in snap.mailboxes ==>
          Events.Below(Contents(snap.mailboxes[Key(sid, aid)]), CounterIn(snap.seqNums, sid)))
  }

  ghost predicate Sound(max: nat, snap: Snapshot) {
    Storable(max, snap) && forall sid :: SoundIn(snap, sid)
  }

  lemma RestoredIds(list: seq<Sessions.Session>)
    ensures (forall k :: k in Sessions.ById(list) ==> SlashFree(k)) <==> (forall s :: s in list ==> SlashFree(s.id))
    ensures Sessions.IdsMatch(Sessions.ById(list))
  {
    hide SlashFree, Sessions.ById;
    Sessions.ByIdHolds(list);
  }

  lemma RestoredKeys(saved: map<string, seq<PadEntry>>)
    ensures Scratchpad.PadsMatch(Scratchpad.RestoredPads(saved))
  {
    hide Scratchpad.ByKey, Scratchpad.PadMatches;
    forall sid | sid in saved
      ensures Scratchpad.PadMatches(Scratchpad.RestoredPads(saved)[sid])
    {
      Scratchpad.ByKeyHolds(saved[sid]);
    }
  }

  lemma RestoredValues(snap: Snapshot, empty: State, sid: string)
    requires empty.history == map[] && empty.counters == map[]
    ensures var s := RestoredServer(snap, empty);
            && HistoryOf(s, sid) == HistoryIn(snap.history, sid) && Counter(s, sid) == CounterIn(snap.seqNums, sid)
            && FirstCounter(s, sid) == CounterIn(snap.seqNums, sid) && FirstHistory(s, sid) == HistoryOf(s, sid)
  {
    hide Stripped, Sessions.ById, Scratchpad.RestoredPads;
  }

  /** A run begins with any state that can be stored. */
  lemma StorableStarts(lim: Limits, snap: Snapshot, ttl: nat, forgetAfter: int)
    requires lim.history >= 1 && lim.box >= 1
    ensures Starts(lim, RestoredServer(snap, NewServer(ttl, forgetAfter))) <==> Storable(lim.history, snap)
  {
    hide Sessions.ById, Scratchpad.RestoredPads, Contents, Raised, CounterIn, SlashFree, Sessions.IdsMatch,
        Scratchpad.PadsMatch, HistoryIn;
    var empty := NewServer(ttl, forgetAfter);
    var s := RestoredServer(snap, empty);
    RestoredIds(snap.sessions);
    RestoredKeys(snap.scratchpad);
    forall sid
      ensures HistoryOf(s, sid) == HistoryIn(snap.history, sid)
    {
      RestoredValues(snap, empty, sid);
    }
  }

  /** What is restored for a session fits its counter exactly if what was saved for it was sound. */
  lemma SoundFits(snap: Snapshot, ttl: nat, forgetAfter: int, sid: string)
    ensures FitsIn(RestoredServer(snap, NewServer(ttl, forgetAfter)), sid) <==> SoundIn(snap, sid)
  {
    hide Sessions.ById, Scratchpad.RestoredPads, Contents, Raised, CounterIn, HistoryFits, SlashFree, Key, HistoryIn,
        Events.Below;
    var s := RestoredServer(snap, NewServer(ttl, forgetAfter));
    RestoredValues(snap, NewServer(ttl, forgetAfter), sid);
    assert forall k :: k in snap.mailboxes ==> s.boxes[k] == Contents(snap.mailboxes[k]);
  }

  /** So a run begins with everything fitting exactly if the saved state is sound. */
  lemma SoundStarts(lim: Limits, snap: Snapshot, ttl: nat, forgetAfter: int)
    requires lim.history >= 1 && lim.box >= 1
    ensures var s := RestoredServer(snap, NewServer(ttl, forgetAfter));
            && (Starts(lim, s) <==> Storable(lim.history, snap))
            && (Starts(lim, s) && Fits(s) <==> Sound(lim.history, snap))
  {
    hide FitsIn, SoundIn, Storable, Starts;
    StorableStarts(lim, snap, ttl, forgetAfter);
    var s := RestoredServer(snap, NewServer(ttl, forgetAfter));
    forall sid
      ensures FitsIn(s, sid) <==> SoundIn(snap, sid)
    {
      SoundFits(snap, ttl, forgetAfter, sid);
    }
  }

  // ---- Saving while serving ------------------------------------------------------------------------

  /** Nothing that is stored for a session is numbered above its counter, if what was restored for it fitted. */
  lemma StoredBelow(lim: Limits, s: State, now: nat, sid: string)
    requires Inv(lim, s, now) && FitsIn(s, sid)
    ensures HistoryFits(HistoryOf(s, sid), Counter(s, sid)) && |HistoryOf(s, sid)| <= lim.history
    ensures forall aid :: SlashFree(sid) && Key(sid, aid) in s.boxes ==>
              Events.Below(s.boxes[Key(sid, aid)], Counter(s, sid))
  {
    ServerRuns.InvLogs(lim, s, now);
    var first, log := FirstCounter(s, sid), Log(s, sid);
    assert HistoryFits(FirstHistory(s, sid), first);
    hide Inv, LogOk, HistoryFits, Newest, Events.Messages, Key, SlashFree, Truthful, ServerRuns.SoundBox, Events.Below,
        FitsIn;
    assert LogOk(first, sid, log, Counter(s, sid));
    assert WindowOk(lim.history, FirstHistory(s, sid), log, HistoryOf(s, sid));
    WindowFits(lim.history, first, sid, FirstHistory(s, sid), log, HistoryOf(s, sid), Counter(s, sid));
    forall aid | SlashFree(sid) && Key(sid, aid) in s.boxes
      ensures Events.Below(s.boxes[Key(sid, aid)], Counter(s, sid))
    {
      BoxBelow(lim, s, now, sid, aid);
    }
  }

  lemma WindowFits(max: nat, first: nat, sid: string, boot: seq<Envelope>, log: seq<Events.Issue>, h: seq<Envelope>,
      counter: nat)
    requires WindowOk(max, boot, log, h) && LogOk(first, sid, log, counter) && HistoryFits(boot, first)
    ensures HistoryFits(h, counter) && |h| <= max
  {
    hide Events.Messages;
    var full := Events.FullHistory(boot, log);
    Events.FullHistoryOrdered(boot, first, log, counter);
    NewestCut(full, max);
    NewestSuffix(full, max);
  }

  lemma BoxBelow(lim: Limits, s: State, now: nat, sid: string, aid: string)
    requires Inv(lim, s, now) && FitsIn(s, sid) && SlashFree(sid) && Key(sid, aid) in s.boxes
    ensures Events.Below(s.boxes[Key(sid, aid)], Counter(s, sid))
  {
    InvParts(lim, s, now);
    ServerRuns.InvLogs(lim, s, now);
    hide Inv, Key, SlashFree, Truthful, HistoryFits;
    var k := Key(sid, aid);
    assert BoxFits(s, s.roster.agents, k);
    assert LogOk(FirstCounter(s, sid), sid, Log(s, sid), Counter(s, sid));
    if k in s.roster.agents {
      var a := s.roster.agents[k];
      KeyInjective(sid, aid, a.sid, a.aid);
      ServerRuns.InvSoundBox(lim, s, now, k);
    }
  }

  /** The five stores are read one after another, at five moments of a run. */
  ghost predicate ReadAlong(snap: Snapshot, states: seq<State>, at: seq<nat>) {
    && |at| == 5 && at[0] <= at[1] <= at[2] <= at[3] <= at[4] < |states|
    && Sessions.Saves(snap.sessions, states[at[0]].sessions)
    && Stripped(snap.mailboxes) == states[at[1]].boxes
    && snap.history == states[at[2]].history && snap.seqNums == states[at[3]].counters
    && Scratchpad.SavesPads(snap.scratchpad, states[at[4]].pads)
  }

  /** The session is not removed between these two moments. */
  ghost predicate NotRemoved(states: seq<State>, ops: seq<Op>, from: nat, to: nat, sid: string)
    requires to <= |ops| && to <= |states|
  {
    forall n :: from <= n < to ==> !Resync.Removes(states[n], ops[n], sid)
  }

  lemma CountersGrow(lim: Limits, states: seq<State>, ops: seq<Op>, i: nat, j: nat, sid: string)
    requires Run(lim, states, ops) && i <= j <= |ops|
    requires forall k :: i <= k < j ==> !Resync.Removes(states[k], ops[k], sid)
    ensures Counter(states[i], sid) <= Counter(states[j], sid)
  {
    hide Starts, Apply, Enabled, Inv, Log, LogOk, FirstCounter, Counter, Resync.Removes;
    Resync.LogGrowsOver(lim, states, ops, i, j, sid);
    Resync.RunLog(lim, states, ops, i, sid);
    Resync.RunLog(lim, states, ops, j, sid);
  }

  lemma StillFits(h: seq<Envelope>, counter: nat, later: nat)
    requires counter <= later
    ensures HistoryFits(h, counter) ==> HistoryFits(h, later)
    ensures Events.Below(h, counter) ==> Events.Below(h, later)
  {
  }

  /** What the server saves while it is serving can be stored, and what it saves of a session is sound and fits when
      it is restored: the stores may be read one after another with any operations in between, unless one of these
      removes this session after its mailboxes have been read and before its counter has. */
  lemma SessionSaved(lim: Limits, states: seq<State>, ops: seq<Op>, snap: Snapshot, at: seq<nat>, ttl: nat,
      forgetAfter: int, sid: string)
    requires Run(lim, states, ops) && FitsIn(states[0], sid) && ReadAlong(snap, states, at)
    requires NotRemoved(states, ops, at[1], at[3], sid)
    ensures SoundIn(snap, sid) && Starts(lim, RestoredServer(snap, NewServer(ttl, forgetAfter)))
    ensures FitsIn(RestoredServer(snap, NewServer(ttl, forgetAfter)), sid)
  {
    hide Starts, Apply, Enabled, FitsIn, SoundIn, NotRemoved, ReadAlong, RestoredServer;
    ReadSound(lim, states, ops, snap, at, sid);
    RunLimits(lim, states, ops);
    ReadStorable(lim, states, ops, snap, at);
    StorableStarts(lim, snap, ttl, forgetAfter);
    SoundFits(snap, ttl, forgetAfter, sid);
  }

  lemma ReadStorable(lim: Limits, states: seq<State>, ops: seq<Op>, snap: Snapshot, at: seq<nat>)
    requires Run(lim, states, ops) && ReadAlong(snap, states, at)
    ensures Storable(lim.history, snap)
  {
    hide Starts, Apply, Enabled, Inv, SlashFree, Scratchpad.SavesPads, Stripped, WindowOk;
    ServerRuns.RunInv(lim, states, ops, at[0]);
    SavedIds(lim, states[at[0]], Now(ops, at[0]), snap.sessions);
    ServerRuns.RunInv(lim, states, ops, at[2]);
    var c := states[at[2]];
    ServerRuns.InvLogs(lim, c, Now(ops, at[2]));
    forall sid
      ensures |HistoryIn(snap.history, sid)| <= lim.history
    {
      assert WindowOk(lim.history, FirstHistory(c, sid), Log(c, sid), HistoryOf(c, sid));
      WindowLength(lim.history, FirstHistory(c, sid), Log(c, sid), HistoryOf(c, sid));
    }
  }

  lemma WindowLength(max: nat, boot: seq<Envelope>, log: seq<Events.Issue>, h: seq<Envelope>)
    requires WindowOk(max, boot, log, h)
    ensures |h| <= max
  {
    hide Events.FullHistory;
    NewestCut(Events.FullHistory(boot, log), max);
  }

  /** So if no session is removed meanwhile, all that is saved is sound, and the next process begins with all of it
      fitting. */
  lemma SavedWhileServing(lim: Limits, states: seq<State>, ops: seq<Op>, snap: Snapshot, at: seq<nat>, ttl: nat,
      forgetAfter: int)
    requires Run(lim, states, ops) && Fits(states[0]) && ReadAlong(snap, states, at)
    requires forall sid :: NotRemoved(states, ops, at[1], at[3], sid)
    ensures Sound(lim.history, snap)
    ensures var s := RestoredServer(snap, NewServer(ttl, forgetAfter)); Starts(lim, s) && Fits(s)
  {
    hide Starts, Apply, Enabled, FitsIn, SoundIn, NotRemoved, ReadAlong, RestoredServer;
    forall sid
      ensures SoundIn(snap, sid)
    {
      assert FitsIn(states[0], sid);
      ReadSound(lim, states, ops, snap, at, sid);
    }
    RunLimits(lim, states, ops);
    ReadStorable(lim, states, ops, snap, at);
    SoundStarts(lim, snap, ttl, forgetAfter);
  }

  lemma RunLimits(lim: Limits, states: seq<State>, ops: seq<Op>)
    requires Run(lim, states, ops)
    ensures lim.history >= 1 && lim.box >= 1
  {
    hide Apply, Enabled;
  }

  lemma SavedIds(lim: Limits, s: State, now: nat, list: seq<Sessions.Session>)
    requires Inv(lim, s, now) && Sessions.Saves(list, s.sessions)
    ensures forall x :: x in list ==> SlashFree(x.id)
  {
    InvParts(lim, s, now);
    hide Inv, SlashFree;
  }

  lemma ReadSound(lim: Limits, states: seq<State>, ops: seq<Op>, snap: Snapshot, at: seq<nat>, sid: string)
    requires Run(lim, states, ops) && FitsIn(states[0], sid) && ReadAlong(snap, states, at)
    requires NotRemoved(states, ops, at[1], at[3], sid)
    ensures SoundIn(snap, sid)
  {
    hide Starts, Apply, Enabled, Inv, FitsIn, HistoryFits, SlashFree, Contents, Events.Below, Key, Resync.Removes,
        Scratchpad.SavesPads, Sessions.Saves;
    var b, c, d := states[at[1]], states[at[2]], states[at[3]];
    ServerRuns.RunInv(lim, states, ops, at[1]);
    ServerRuns.RunInv(lim, states, ops, at[2]);
    ServerRuns.FitsOver(lim, states, ops, at[1], sid);
    ServerRuns.FitsOver(lim, states, ops, at[2], sid);
    StoredBelow(lim, b, Now(ops, at[1]), sid);
    StoredBelow(lim, c, Now(ops, at[2]), sid);
    CountersGrow(lim, states, ops, at[1], at[3], sid);
    CountersGrow(lim, states, ops, at[2], at[3], sid);
    StillFits(HistoryOf(c, sid), Counter(c, sid), Counter(d, sid));
    forall aid | SlashFree(sid) && Key(sid, aid) in snap.mailboxes
      ensures Events.Below(Contents(snap.mailboxes[Key(sid, aid)]), CounterIn(snap.seqNums, sid))
    {
      var k := Key(sid, aid);
      assert b.boxes[k] == Contents(snap.mailboxes[k]);
      StillFits(b.boxes[k], Counter(b, sid), Counter(d, sid));
    }
  }

  // ---- A removal while saving ------------------------------------------------------------------------

  lemma RegisteredStores(lim: Limits, s: State, sid: string, aid: string, at: nat)
    requires s.roster.agents == map[]
    ensures var s' := Registered(lim, s, sid, aid, [], at);
            s'.pads == s.pads && s'.sessions.Keys == s.sessions.Keys && Known(s'.roster, sid, aid)
  {
    hide Announced, Key;
    var s1 := s.(roster := Touched(s.roster, sid, aid, Some([]), at));
    AnnouncedStores(lim, s1, sid, aid, at);
    ServerRuns.AnnouncedRoster(lim, s1, sid, aid, [], "agent_joined", at);
  }

  lemma AnnouncedStores(lim: Limits, s: State, sid: string, aid: string, at: nat)
    ensures var s' := Announced(lim, s, sid, aid, [], "agent_joined", at);
            s'.pads == s.pads && s'.sessions.Keys == s.sessions.Keys
  {
    hide Emit;
    var s1 := s.(sessions := Sessions.TouchedActivity(s.sessions, sid, at));
    EmitEffect(lim, s1, sid, Events.Ambient, "agent_joined", SERVER, EVERYONE, AgentIs(aid, [], true));
  }

  lemma SentStores(lim: Limits, s: State, sid: string, from: string, to: string, kind: string, payload: Payload)
    ensures var s' := Sent(lim, s, sid, from, to, kind, payload);
            s'.pads == s.pads && s'.sessions == s.sessions
  {
    hide Emit, SendRefusal;
    EmitEffect(lim, s, sid, Events.Send(to), kind, from, to, payload);
  }

  lemma NewestHasLast(q: seq<Envelope>, e: Envelope, max: nat)
    requires max >= 1
    ensures e in Newest(q + [e], max)
  {
    hide Newest;
    NewestCut(q + [e], max);
    var r := Newest(q + [e], max);
    assert r[|r| - 1] == e;
  }

  function Entries(q: seq<Envelope>): (r: seq<MailSpec.Entry>)
    ensures Contents(r) == q
  {
    seq(|q|, i requires 0 <= i < |q| => MailSpec.Entry(i, q[i]))
  }

  /** The mailboxes as read early, the other stores as read late; there are no sessions and no pads to save. */
  function SnapshotOf(boxes: Boxes, s: State): (snap: Snapshot)
    ensures Stripped(snap.mailboxes) == boxes
  {
    hide Entries;
    Snapshot([], map k | k in boxes :: Entries(boxes[k]), s.history, s.counters, map[])
  }

  /** And such a removal does tear what is saved: mail that was read before its session was closed outlives the
      session's counter, so what the next process begins with does not fit. */
  lemma RemovalWhileSaving(lim: Limits, ttl: nat, forgetAfter: int, sid: string, psk: string, aid: string,
      from: string, kind: string, payload: Payload, time: nat)
      returns (states: seq<State>, ops: seq<Op>, snap: Snapshot)
    requires lim.history >= 1 && lim.box >= 1 && SlashFree(sid) && aid != ""
    ensures ops == [Open(sid, psk, time), Register(sid, aid, [], time), Send(sid, from, aid, kind, payload, time),
                    Close(sid, time)]
    ensures Run(lim, states, ops) && ReadAlong(snap, states, [0, 3, 4, 4, 4]) && !SoundIn(snap, sid)
  {
    hide SlashFree, Key, Registered, Sent, Starts, Inv, Newest, Sessions.Opened, Closed, Known, SoundIn;
    var s0 := NewServer(ttl, forgetAfter);
    ServerRuns.NewStarts(lim, ttl, forgetAfter);
    ops := [Open(sid, psk, time), Register(sid, aid, [], time), Send(sid, from, aid, kind, payload, time),
            Close(sid, time)];
    var s1 := Apply(lim, s0, ops[0]);
    var s2 := Apply(lim, s1, ops[1]);
    var s3 := Apply(lim, s2, ops[2]);
    var s4 := Apply(lim, s3, ops[3]);
    states := [s0, s1, s2, s3, s4];
    OpenedStores(s0, sid, psk, time);
    RegisteredStores(lim, s1, sid, aid, time);
    ServerRuns.RunInv(lim, states, ops, 2);
    SentMail(lim, s2, time, sid, from, aid, kind, payload);
    SentStores(lim, s2, sid, from, aid, kind, payload);
    ClosedStores(s3, sid);
    snap := SnapshotOf(s3.boxes, s4);
    NotSound(snap, sid, aid);
  }

  lemma OpenedStores(s: State, sid: string, psk: string, at: nat)
    requires sid !in s.sessions
    ensures sid in Sessions.AfterOpening(s.sessions, sid, Sessions.Opened(s.sessions, sid, psk, "", at))
  {
  }

  lemma ClosedStores(s: State, sid: string)
    requires s.pads == map[]
    ensures Closed(s, {sid}).pads == map[] && sid !in Closed(s, {sid}).counters
  {
    hide RosterWithout, BoxesWithout;
  }

  lemma SentMail(lim: Limits, s: State, now: nat, sid: string, from: string, aid: string, kind: string,
      payload: Payload)
    requires Inv(lim, s, now) && lim.box >= 1 && SlashFree(sid) && Known(s.roster, sid, aid) && aid != ""
    ensures var boxes := Sent(lim, s, sid, from, aid, kind, payload).boxes;
            Key(sid, aid) in boxes && exists e :: e in boxes[Key(sid, aid)] && e.number > 0
  {
    hide Inv, Sent, Newest, Key, Known, SlashFree;
    ServerRuns.SendReaches(lim, s, now, sid, from, aid, kind, payload, Key(sid, aid));
    var e := Envelope(kind, sid, from, aid, payload, Counter(s, sid) + 1);
    NewestHasLast(BoxAt(s.boxes, Key(sid, aid)), e, lim.box);
  }

  lemma NotSound(snap: Snapshot, sid: string, aid: string)
    requires SlashFree(sid) && sid !in snap.seqNums && Key(sid, aid) in Stripped(snap.mailboxes)
    requires exists e :: e in Stripped(snap.mailboxes)[Key(sid, aid)] && e.number > 0
    ensures !SoundIn(snap, sid)
  {
    hide SlashFree, Key, HistoryFits, Contents;
  }
}
