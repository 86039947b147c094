/** The bridge's mark against the server's counter: what a successful re-sync guarantees. */
module Resync {
  import opened Sequences
  import opened Envelopes
  import opened History
  import opened Server
  import opened ServerSafety
  import opened ServerRuns
  import opened Watermark
  import PresenceSpec
  import Sessions
  import Scratchpad
  import Bridge
  import Events = EventProtocol

  /** The page the bridge asks for: the oldest entries of the window. */
  const PAGE := 50

  function EventOf(x: Envelope): Bridge.Event {
    Bridge.Event(x.kind, x.from, x.to, x.number)
  }

  function PageNumbers(h: seq<Envelope>, max: nat): (r: seq<int>)
    ensures forall n :: n in r ==> exists x :: x in h && x.number == n
  {
    hide FirstAbove;
    PageMembers(h, max);
    var page := FirstAbove(h, 0, PAGE, max);
    seq(|page|, i requires 0 <= i < |page| => page[i].number as int)
  }

  lemma PageMembers(h: seq<Envelope>, max: nat)
    ensures forall x :: x in FirstAbove(h, 0, PAGE, max) ==> x in h
  {
    hide Filter;
    FilterMembers(h, Above(0));
    assert forall x :: x in FirstAbove(h, 0, PAGE, max) ==> x in Filter(h, Above(0));
  }

  /** The mark after a successful re-sync. */
  function Resynced(lim: Limits, s: State, sid: string): int {
    Bridge.Largest(PageNumbers(HistoryOf(s, sid), lim.history))
  }

  /** It never exceeds the session's counter, provided that no entry of the history does. */
  lemma ResyncedBelowCounter(lim: Limits, s: State, sid: string)
    requires Events.Below(HistoryOf(s, sid), Counter(s, sid))
    ensures 0 <= Resynced(lim, s, sid) <= Counter(s, sid)
  {
    hide Bridge.Largest, PageNumbers, HistoryOf, Counter;
    assert forall n :: n in PageNumbers(HistoryOf(s, sid), lim.history) ==> n <= Counter(s, sid);
  }

  /** No entry does at any point of any run, even if the session was created anew with a counter that restarted, and
      after a restart too if what was restored fits its counters. */
  lemma ResyncedInRun(lim: Limits, states: seq<State>, ops: seq<Op>, i: nat, sid: string)
    requires Run(lim, states, ops) && i <= |ops| && FitsIn(states[0], sid)
    ensures 0 <= Resynced(lim, states[i], sid) <= Counter(states[i], sid)
  {
    hide Apply, Enabled, Starts, FitsIn, Newest, Events.FullHistory, Events.Below, Resynced, FirstAbove, Ordered;
    HistoryRefinesLog(lim, states, ops, i, sid, 0, 0);
    var s := states[i];
    var full := Events.FullHistory(FirstHistory(s, sid), Log(s, sid));
    NewestSuffix(full, lim.history);
    StillBelow(full, HistoryOf(s, sid), Counter(s, sid));
    ResyncedBelowCounter(lim, s, sid);
  }

  lemma StillBelow(full: seq<Envelope>, h: seq<Envelope>, counter: nat)
    requires Events.Below(full, counter) && |h| <= |full| && h == full[|full| - |h|..]
    ensures Events.Below(h, counter)
  {
  }

  lemma MarkIsNat(lim: Limits, s: State, sid: string)
    ensures Resynced(lim, s, sid) >= 0
  {
    hide Bridge.Largest, PageNumbers;
  }

  lemma LogNumbered(first: nat, sid: string, log: seq<Events.Issue>, counter: nat)
    requires LogOk(first, sid, log, counter)
    ensures Events.NumberedLog(first, log, counter) && counter == first + |log|
    ensures forall i :: 0 <= i < |log| ==> log[i].env.number == first + i + 1
  {
  }

  // ---- The log of a session only grows until the session is removed ----------------------------------

  predicate Removes(s: State, op: Op, sid: string) {
    || (op.Close? && op.sid == sid && sid in s.sessions)
    || (op.Reap? && sid in Stale(s.sessions, op.at - op.retention))
  }

  lemma EmitGrows(lim: Limits, s: State, sid: string, job: Events.Job, kind: string, from: string, to: string,
      payload: Payload, t: string)
    ensures Log(s, t) <= Log(Emit(lim, s, sid, job, kind, from, to, payload), t)
  {
    hide Fanned, Newest, PresenceSpec.Members, Log, HistoryOf, Counter;
    EmitEffect(lim, s, sid, job, kind, from, to, payload);
  }

  lemma AnnouncedGrows(lim: Limits, s: State, sid: string, aid: string, caps: seq<string>, kind: string, at: nat,
      t: string)
    ensures Log(s, t) <= Log(Announced(lim, s, sid, aid, caps, kind, at), t)
  {
    hide Emit;
    EmitGrows(lim, s.(sessions := Sessions.TouchedActivity(s.sessions, sid, at)), sid, Events.Ambient, kind, SERVER,
        EVERYONE, AgentIs(aid, caps, true), t);
  }

  lemma RegisteredGrows(lim: Limits, s: State, sid: string, aid: string, caps: seq<string>, at: nat, t: string)
    ensures Log(s, t) <= Log(Registered(lim, s, sid, aid, caps, at), t)
  {
    hide Announced, Log, FirstLeader, PresenceSpec.Touched, PresenceSpec.Known, PresenceSpec.Present;
    var s1 := s.(roster := PresenceSpec.Touched(s.roster, sid, aid, Some(caps), at));
    SameLog(s, s1, t);
    AnnouncedGrows(lim, s1, sid, aid, caps, "agent_reconnected", at, t);
    var s2 := Announced(lim, s1, sid, aid, caps, "agent_reconnected", at);
    AnnouncedGrows(lim, s1, sid, aid, caps, "agent_joined", at, t);
    AnnouncedGrows(lim, s2, sid, aid, caps, "agent_joined", at, t);
    FirstLeaderLog(Announced(lim, s1, sid, aid, caps, "agent_joined", at), sid, aid, t);
    FirstLeaderLog(Announced(lim, s2, sid, aid, caps, "agent_joined", at), sid, aid, t);
  }

  lemma SameLog(s: State, s': State, t: string)
    requires s'.log == s.log
    ensures Log(s', t) == Log(s, t)
  {
  }

  lemma FirstLeaderLog(s: State, sid: string, aid: string, t: string)
    ensures Log(FirstLeader(s, sid, aid), t) == Log(s, t)
  {
  }

  lemma {:induction false} OfflineGrows(lim: Limits, s: State, lapsed: seq<PresenceSpec.Agent>, heirs: seq<string>,
      t: string)
    requires |heirs| == |lapsed|
    ensures Log(s, t) <= Log(Offline(lim, s, lapsed, heirs), t)
  {
    hide Emit;
    if lapsed != [] {
      var n := |lapsed| - 1;
      OfflineGrows(lim, s, lapsed[..n], heirs[..n], t);
      var s1 := Offline(lim, s, lapsed[..n], heirs[..n]);
      var sid := lapsed[n].sid;
      EmitGrows(lim, s1.(leaders := s1.leaders[sid := heirs[n]]), sid, Events.System(""), "leader_info", SERVER,
          EVERYONE, LeaderIs(heirs[n]), t);
    }
  }

  lemma {:induction false} DeparturesGrow(lim: Limits, s: State, gone: seq<PresenceSpec.Agent>, t: string)
    ensures Log(s, t) <= Log(Departures(lim, s, gone), t)
  {
    hide Emit;
    if gone != [] {
      var n := |gone| - 1;
      DeparturesGrow(lim, s, gone[..n], t);
      EmitGrows(lim, Departures(lim, s, gone[..n]), gone[n].sid, Events.Ambient, "agent_left", SERVER, EVERYONE,
                AgentIs(gone[n].aid, gone[n].caps, false), t);
    }
  }

  lemma SweepGrows(lim: Limits, s: State, at: nat, lapsed: seq<PresenceSpec.Agent>, heirs: seq<string>,
      gone: seq<PresenceSpec.Agent>, t: string)
    requires |heirs| == |lapsed|
    ensures Log(s, t) <= Log(SweptServer(lim, s, at, lapsed, heirs, gone), t)
  {
    hide Offline, Departures, PresenceSpec.Swept;
    var s1 := s.(roster := PresenceSpec.Swept(s.roster, at));
    OfflineGrows(lim, s1, lapsed, heirs, t);
    DeparturesGrow(lim, Offline(lim, s1, lapsed, heirs), gone, t);
  }

  lemma PadGrows(lim: Limits, s: State, sid: string, aid: string, key: string, value: string, at: nat, t: string)
    ensures Log(s, t) <= Log(PadChanged(lim, s, sid, aid, key, value, at), t)
    ensures Log(s, t) <= Log(PadRemoved(lim, s, sid, aid, key), t)
  {
    hide Emit, Log, Scratchpad.Pad, Scratchpad.Bumped;
    var e := PadEntry(key, value, aid, at);
    var a := s.(pads := s.pads[sid := Scratchpad.Pad(s.pads, sid)[key := e]],
                padCounts := Scratchpad.Bumped(s.padCounts, sid));
    var b := s.(pads := s.pads[sid := Scratchpad.Pad(s.pads, sid) - {key}],
                padCounts := Scratchpad.Bumped(s.padCounts, sid));
    SameLog(s, a, t);
    SameLog(s, b, t);
    EmitGrows(lim, a, sid, Events.System(aid), "scratchpad_update", aid, EVERYONE, PadSet(e), t);
    EmitGrows(lim, b, sid, Events.System(aid), "scratchpad_update", aid, EVERYONE, PadDeleted(key), t);
  }

  lemma TransferGrows(lim: Limits, s: State, sid: string, from: string, to: string, at: nat, t: string)
    ensures Log(s, t) <= Log(Transferred(lim, s, sid, from, to, at), t)
  {
    hide Emit, Log, TransferRefusal;
    var a := s.(leaders := s.leaders[sid := to]);
    SameLog(s, a, t);
    EmitGrows(lim, a, sid, Events.System(from), "leader_info", SERVER, EVERYONE, LeaderMoved(to, from), t);
  }

  lemma MessageGrows(lim: Limits, s: State, sid: string, from: string, to: string, kind: string, payload: Payload,
      t: string)
    ensures Log(s, t) <= Log(Sent(lim, s, sid, from, to, kind, payload), t)
    ensures Log(s, t) <= Log(Broadcasted(lim, s, sid, from, kind, payload), t)
  {
    hide Emit, Log, SendRefusal;
    EmitGrows(lim, s, sid, Events.Send(to), kind, from, to, payload, t);
    EmitGrows(lim, s, sid, Events.Broadcast(from), kind, from, EVERYONE, payload, t);
  }

  lemma DrainGrows(s: State, sid: string, aid: string, from: string, kind: string, at: nat, t: string)
    ensures Log(Seen(s, sid, aid, at), t) == Log(s, t) == Log(Refreshed(s, sid, aid, at), t)
    ensures Log(Drained(s, sid, aid, from, kind, at), t) == Log(s, t)
  {
    hide PresenceSpec.Touched, Sessions.TouchedActivity, Filter;
  }

  lemma RemovalGrows(s: State, gone: set<string>, t: string)
    ensures t !in gone ==> Log(Closed(s, gone), t) == Log(s, t)
  {
    hide RosterWithout, BoxesWithout;
  }

  lemma LogGrows(lim: Limits, s: State, op: Op, t: string)
    requires Enabled(s, op) && !Removes(s, op, t)
    ensures Log(s, t) <= Log(Apply(lim, s, op), t)
  {
    hide Log, Registered, SweptServer, SweepReports, Sent, Broadcasted, PadChanged, PadRemoved, Transferred, Seen,
        Refreshed, Drained, Closed, SlashFree, Stale, Sessions.Opened, Sessions.AfterOpening;
    match op
    case Register(sid, aid, caps, at) => RegisteredGrows(lim, s, sid, aid, caps, at, t);
    case Refresh(sid, aid, at) => DrainGrows(s, sid, aid, "", "", at, t);
    case Peek(sid, aid, at) => DrainGrows(s, sid, aid, "", "", at, t);
    case Drain(sid, aid, from, kind, at) => DrainGrows(s, sid, aid, from, kind, at, t);
    case Send(sid, from, to, kind, payload, at) => MessageGrows(lim, s, sid, from, to, kind, payload, t);
    case Broadcast(sid, from, kind, payload, at) => MessageGrows(lim, s, sid, from, "", kind, payload, t);
    case SetPad(sid, aid, key, value, at) => PadGrows(lim, s, sid, aid, key, value, at, t);
    case DeletePad(sid, aid, key, at) => PadGrows(lim, s, sid, aid, key, "", at, t);
    case Transfer(sid, from, to, at) => TransferGrows(lim, s, sid, from, to, at, t);
    case Create(_, _, _, _) => SameLog(s, Apply(lim, s, op), t);
    case Open(_, _, _) => SameLog(s, Apply(lim, s, op), t);
    case Close(sid, at) => RemovalGrows(s, {sid}, t);
    case SetForgetAfter(_, _) => SameLog(s, Apply(lim, s, op), t);
    case Sweep(lapsed, heirs, gone, at) =>
      ReportsMatch(s, at, lapsed, heirs, gone);
      SweepGrows(lim, s, at, lapsed, heirs, gone, t);
    case Reap(retention, at) => RemovalGrows(s, Stale(s.sessions, at - retention), t);
  }

  lemma ReportsMatch(s: State, at: nat, lapsed: seq<PresenceSpec.Agent>, heirs: seq<string>,
      gone: seq<PresenceSpec.Agent>)
    requires SweepReports(s, at, lapsed, heirs, gone)
    ensures |heirs| == |lapsed|
  {
  }

  /** Until a session is removed its log only grows, and what it began with stays. */
  lemma {:induction false} LogGrowsOver(lim: Limits, states: seq<State>, ops: seq<Op>, i: nat, j: nat, sid: string)
    requires Run(lim, states, ops) && i <= j <= |ops|
    requires forall k :: i <= k < j ==> !Removes(states[k], ops[k], sid)
    ensures Log(states[i], sid) <= Log(states[j], sid) && FirstCounter(states[i], sid) == FirstCounter(states[j], sid)
    decreases j - i
  {
    hide Log, Apply, Enabled, Removes, FirstCounter;
    if i < j {
      LogGrowsOver(lim, states, ops, i, j - 1, sid);
      LogGrows(lim, states[j - 1], ops[j - 1], sid);
      FirstCounterKept(lim, states[j - 1], ops[j - 1], sid);
    }
  }

  lemma FirstCounterKept(lim: Limits, s: State, op: Op, sid: string)
    requires Enabled(s, op)
    ensures FirstCounter(Apply(lim, s, op), sid) == if Removes(s, op, sid) then 0 else FirstCounter(s, sid)
  {
    hide Apply, Stale, BoxesWithout, SweepReports, SlashFree;
    RosterStep(lim, s, op);
  }

  // ---- What a stream wakes the agent for --------------------------------------------------------------

  /** The events an operation emits in a session. With a removal the log begins anew, and nothing is emitted. */
  function EventsOf(s: State, s': State, op: Op, sid: string): seq<Events.Issue> {
    if !Removes(s, op, sid) && Log(s, sid) <= Log(s', sid) then Log(s', sid)[|Log(s, sid)|..] else []
  }

  /** The events emitted in a session from state k to state j, one life of the session after another. They are what a
      stream opened at k is offered: the handler and the watcher take no notice of a removal. */
  ghost function Emitted(states: seq<State>, ops: seq<Op>, k: nat, j: nat, sid: string): seq<Events.Issue>
    requires |states| == |ops| + 1 && k <= j <= |ops|
    decreases j - k
  {
    if k == j then []
    else Emitted(states, ops, k, j - 1, sid) + EventsOf(states[j - 1], states[j], ops[j - 1], sid)
  }

  lemma {:induction false} EmittedInTwo(states: seq<State>, ops: seq<Op>, k: nat, r: nat, j: nat, sid: string)
    requires |states| == |ops| + 1 && k <= r <= j <= |ops|
    ensures Emitted(states, ops, k, j, sid) == Emitted(states, ops, k, r, sid) + Emitted(states, ops, r, j, sid)
    decreases j - r
  {
    hide EventsOf;
    if r < j {
      EmittedInTwo(states, ops, k, r, j - 1, sid);
    }
  }

  /** As long as the session is not removed, what is emitted is numbered on from its counter. */
  lemma {:induction false} EmittedInOneLife(lim: Limits, states: seq<State>, ops: seq<Op>, r: nat, t: nat, sid: string)
    requires Run(lim, states, ops) && r <= t <= |ops|
    requires forall n :: r <= n < t ==> !Removes(states[n], ops[n], sid)
    ensures var es := Emitted(states, ops, r, t, sid);
            && Counter(states[t], sid) == Counter(states[r], sid) + |es|
            && forall p :: 0 <= p < |es| ==> es[p].env.number == Counter(states[r], sid) + p + 1
  {
    hide Apply, Enabled, Starts, Removes, Log, LogOk, FirstCounter, Counter, Emitted;
    LogGrowsOver(lim, states, ops, r, t, sid);
    EmittedIsLog(lim, states, ops, r, t, sid);
    RunLog(lim, states, ops, r, sid);
    RunLog(lim, states, ops, t, sid);
    LogNumbered(FirstCounter(states[t], sid), sid, Log(states[t], sid), Counter(states[t], sid));
    var a, es := Log(states[r], sid), Emitted(states, ops, r, t, sid);
    assert forall p :: 0 <= p < |es| ==> es[p] == (a + es)[|a| + p];
  }

  lemma {:induction false} EmittedIsLog(lim: Limits, states: seq<State>, ops: seq<Op>, r: nat, t: nat, sid: string)
    requires Run(lim, states, ops) && r <= t <= |ops|
    requires forall n :: r <= n < t ==> !Removes(states[n], ops[n], sid)
    ensures Log(states[t], sid) == Log(states[r], sid) + Emitted(states, ops, r, t, sid)
    decreases t - r
  {
    hide Apply, Enabled, Starts, Removes, Log, EventsOf;
    if r < t {
      EmittedIsLog(lim, states, ops, r, t - 1, sid);
      LogGrows(lim, states[t - 1], ops[t - 1], sid);
      EventsGrow(states[t - 1], states[t], ops[t - 1], sid);
      Associative(Log(states[r], sid), Emitted(states, ops, r, t - 1, sid),
                  EventsOf(states[t - 1], states[t], ops[t - 1], sid));
    }
  }

  lemma EventsGrow(s: State, s': State, op: Op, sid: string)
    requires !Removes(s, op, sid) && Log(s, sid) <= Log(s', sid)
    ensures Log(s', sid) == Log(s, sid) + EventsOf(s, s', op, sid)
  {
    hide Removes, Log;
  }

  lemma Associative<T>(a: seq<T>, b: seq<T>, c: seq<T>)
    ensures a + b + c == a + (b + c)
  {
  }

  /** The places of the events that reached a stream: in order, some perhaps dropped by a full channel. */
  ghost predicate Picks(ns: seq<nat>, n: nat) {
    (forall m :: 0 <= m < |ns| ==> ns[m] < n) && (forall m, l :: 0 <= m < l < |ns| ==> ns[m] < ns[l])
  }

  /** How many of them lie before place n. */
  ghost function PicksBefore(ns: seq<nat>, n: nat): (c: nat)
    requires forall m, l :: 0 <= m < l < |ns| ==> ns[m] < ns[l]
    ensures c <= |ns| && (forall m :: 0 <= m < c ==> ns[m] < n) && (forall m :: c <= m < |ns| ==> ns[m] >= n)
  {
    if ns == [] || ns[|ns| - 1] < n then |ns| else PicksBefore(ns[..|ns| - 1], n)
  }

  ghost function StreamOf(agent: string, es: seq<Events.Issue>, ns: seq<nat>): (r: seq<Item>)
    requires Picks(ns, |es|)
    ensures |r| == |ns| && forall m :: 0 <= m < |ns| ==> r[m] == Bridge.ItemOf(agent, EventOf(es[ns[m]].env))
  {
    seq(|ns|, m requires 0 <= m < |ns| => Bridge.ItemOf(agent, EventOf(es[ns[m]].env)))
  }

  /** For every run and every stream, opened at state k with whatever mark and followed to state j, across any number of
      removals: let r be the subscribe, or any later moment, such as a removal, and take an event that was emitted
      since r but before the session is removed again. If it concerns the agent, it wakes it exactly if its number is
      above the mark as it stood at r. */
  lemma WakesExactly(lim: Limits, states: seq<State>, ops: seq<Op>, k: nat, r: nat, t: nat, j: nat, sid: string,
      mark: int, agent: string, ns: seq<nat>, m: nat)
    requires Run(lim, states, ops) && k <= r <= t <= j <= |ops| && mark >= 0
    requires forall n :: r <= n < t ==> !Removes(states[n], ops[n], sid)
    requires Picks(ns, |Emitted(states, ops, k, j, sid)|) && m < |ns|
    requires |Emitted(states, ops, k, r, sid)| <= ns[m] < |Emitted(states, ops, k, t, sid)|
    requires Bridge.Concerns(agent, EventOf(Emitted(states, ops, k, j, sid)[ns[m]].env))
    ensures var es := Emitted(states, ops, k, j, sid);
            var xs, c := StreamOf(agent, es, ns), PicksBefore(ns, |Emitted(states, ops, k, r, sid)|);
            && c <= m && (ActsAt(mark, xs, m) <==> es[ns[m]].env.number > MarkAfter(mark, xs[..c]))
            && es[ns[m]].env.number == Counter(states[r], sid) + ns[m] - |Emitted(states, ops, k, r, sid)| + 1
  {
    hide Apply, Enabled, Starts, Removes, Counter, Emitted, Bridge.Concerns, ActsAt, MarkAfter;
    EmittedInTwo(states, ops, k, r, t, sid);
    EmittedInTwo(states, ops, k, t, j, sid);
    EmittedInOneLife(lim, states, ops, r, t, sid);
    var es, n := Emitted(states, ops, k, j, sid), |Emitted(states, ops, k, r, sid)|;
    var xs, c := StreamOf(agent, es, ns), PicksBefore(ns, n);
    assert forall p :: n <= p < |Emitted(states, ops, k, t, sid)| ==> es[p] == Emitted(states, ops, r, t, sid)[p - n];
    assert forall l :: c <= l < m ==> n <= ns[l] < ns[m] && xs[l].number == es[ns[l]].env.number;
    RisingSince(mark, xs, c, m);
  }

  /** Every event of a stream is of that kind: r can be the subscribe, or the last removal before the event. */
  lemma {:induction false} LifeOf(states: seq<State>, ops: seq<Op>, k: nat, j: nat, sid: string, p: nat)
      returns (r: nat, t: nat)
    requires |states| == |ops| + 1 && k <= j <= |ops| && p < |Emitted(states, ops, k, j, sid)|
    ensures k <= r <= t <= j && (r == k || Removes(states[r - 1], ops[r - 1], sid))
    ensures forall n :: r <= n < t ==> !Removes(states[n], ops[n], sid)
    ensures |Emitted(states, ops, k, r, sid)| <= p < |Emitted(states, ops, k, t, sid)|
    decreases j - k
  {
    hide Removes, Emitted;
    EmittedStep(states, ops, k, j, sid);
    if p < |Emitted(states, ops, k, j - 1, sid)| {
      r, t := LifeOf(states, ops, k, j - 1, sid, p);
    } else {
      t := j;
      r := LifeStart(states, ops, k, j - 1, sid);
      EmittedInTwo(states, ops, k, r, j - 1, sid);
    }
  }

  lemma EmittedStep(states: seq<State>, ops: seq<Op>, k: nat, j: nat, sid: string)
    requires |states| == |ops| + 1 && k <= j <= |ops|
    ensures k == j ==> Emitted(states, ops, k, j, sid) == []
    ensures k < j ==> |Emitted(states, ops, k, j - 1, sid)| <= |Emitted(states, ops, k, j, sid)|
    ensures k < j && Removes(states[j - 1], ops[j - 1], sid) ==>
              Emitted(states, ops, k, j, sid) == Emitted(states, ops, k, j - 1, sid)
  {
    hide Removes, Log;
  }

  lemma {:induction false} LifeStart(states: seq<State>, ops: seq<Op>, k: nat, j: nat, sid: string) returns (r: nat)
    requires |states| == |ops| + 1 && k <= j <= |ops|
    ensures k <= r <= j && (r == k || Removes(states[r - 1], ops[r - 1], sid))
    ensures forall n :: r <= n < j ==> !Removes(states[n], ops[n], sid)
    decreases j - k
  {
    hide Removes;
    if j == k || Removes(states[j - 1], ops[j - 1], sid) {
      r := j;
    } else {
      r := LifeStart(states, ops, k, j - 1, sid);
    }
  }

  /** So after a re-sync at state i and a subscribe at k, and until the session is removed: an event that concerns the
      agent wakes it exactly if its number is above the mark. If the mark is at most the counter at the subscribe, none
      is skipped as stale; and if it is not, every one up to the mark is. */
  lemma NothingSkippedAfterResync(lim: Limits, states: seq<State>, ops: seq<Op>, i: nat, k: nat, t: nat, j: nat,
      sid: string, agent: string, ns: seq<nat>, m: nat)
    requires Run(lim, states, ops) && i <= k <= t <= j <= |ops|
    requires forall n :: k <= n < t ==> !Removes(states[n], ops[n], sid)
    requires Picks(ns, |Emitted(states, ops, k, j, sid)|) && m < |ns| && ns[m] < |Emitted(states, ops, k, t, sid)|
    requires Bridge.Concerns(agent, EventOf(Emitted(states, ops, k, j, sid)[ns[m]].env))
    ensures var es, mark := Emitted(states, ops, k, j, sid), Resynced(lim, states[i], sid);
            && (ActsAt(mark, StreamOf(agent, es, ns), m) <==> es[ns[m]].env.number > mark)
            && (mark <= Counter(states[k], sid) ==> ActsAt(mark, StreamOf(agent, es, ns), m))
  {
    hide Apply, Enabled, Starts, Removes, Counter, Bridge.Concerns, ActsAt, Resynced;
    MarkIsNat(lim, states[i], sid);
    var mark := Resynced(lim, states[i], sid);
    assert Emitted(states, ops, k, k, sid) == [];
    WakesExactly(lim, states, ops, k, k, t, j, sid, mark, agent, ns, m);
    var xs := StreamOf(agent, Emitted(states, ops, k, j, sid), ns);
    assert PicksBefore(ns, 0) == 0;
    assert xs[..0] == [];
    NothingSeen(mark);
  }

  /** And after a removal at which the stream stayed open the events are numbered from 1 again, and those that concern
      the agent are skipped exactly up to the mark as it stood at the removal. */
  lemma SkippedAfterRemoval(lim: Limits, states: seq<State>, ops: seq<Op>, k: nat, r: nat, t: nat, j: nat, sid: string,
      mark: int, agent: string, ns: seq<nat>, m: nat)
    requires Run(lim, states, ops) && k < r <= t <= j <= |ops| && mark >= 0
    requires Removes(states[r - 1], ops[r - 1], sid) && forall n :: r <= n < t ==> !Removes(states[n], ops[n], sid)
    requires Picks(ns, |Emitted(states, ops, k, j, sid)|) && m < |ns|
    requires |Emitted(states, ops, k, r, sid)| <= ns[m] < |Emitted(states, ops, k, t, sid)|
    requires Bridge.Concerns(agent, EventOf(Emitted(states, ops, k, j, sid)[ns[m]].env))
    ensures var es, n := Emitted(states, ops, k, j, sid), |Emitted(states, ops, k, r, sid)|;
            var xs, number := StreamOf(agent, es, ns), es[ns[m]].env.number;
            && number == ns[m] - n + 1
            && (ActsAt(mark, xs, m) <==> number > MarkAfter(mark, xs[..PicksBefore(ns, n)]))
  {
    hide Apply, Enabled, Starts, Removes, Counter, Emitted, Bridge.Concerns, ActsAt, MarkAfter;
    WakesExactly(lim, states, ops, k, r, t, j, sid, mark, agent, ns, m);
    RemovedCounter(lim, states[r - 1], ops[r - 1], sid);
  }

  lemma RemovedCounter(lim: Limits, s: State, op: Op, sid: string)
    requires Enabled(s, op) && Removes(s, op, sid)
    ensures Counter(Apply(lim, s, op), sid) == 0
  {
    hide RosterWithout, BoxesWithout, Stale, SlashFree;
  }

  lemma RunLog(lim: Limits, states: seq<State>, ops: seq<Op>, i: nat, sid: string)
    requires Run(lim, states, ops) && i <= |ops|
    ensures var s := states[i];
            && LogOk(FirstCounter(s, sid), sid, Log(s, sid), Counter(s, sid))
            && Counter(s, sid) == FirstCounter(s, sid) + |Log(s, sid)|
  {
    hide Apply, Enabled, Starts, Inv, LogOk, Log, Counter, FirstCounter;
    RunInv(lim, states, ops, i);
    InvLogs(lim, states[i], Now(ops, i));
    LogNumbered(FirstCounter(states[i], sid), sid, Log(states[i], sid), Counter(states[i], sid));
  }

  /** The mark is at most the counter at the subscribe unless the session was removed after the re-sync, or what was
      restored did not fit its counters. */
  lemma MarkBelowSubscribe(lim: Limits, states: seq<State>, ops: seq<Op>, i: nat, k: nat, sid: string)
    requires Run(lim, states, ops) && i <= k <= |ops| && FitsIn(states[0], sid)
    requires forall n :: i <= n < k ==> !Removes(states[n], ops[n], sid)
    ensures Resynced(lim, states[i], sid) <= Counter(states[k], sid)
  {
    hide Apply, Enabled, Starts, Inv, Removes, Log, Resynced, LogOk, FirstCounter, Counter;
    LogGrowsOver(lim, states, ops, i, k, sid);
    ResyncedInRun(lim, states, ops, i, sid);
    RunLog(lim, states, ops, i, sid);
    RunLog(lim, states, ops, k, sid);
  }

  // ---- Whom an event wakes ----------------------------------------------------------------------------

  /** Told by the server's own notion of a recipient. A direct message of a waking kind concerns its recipient and
      nobody else; a broadcast, everybody but its sender; a change of the pad or of the leadership, everybody but the
      one it is from, and so all it is addressed to unless one of these is called as the server is; anything else,
      nobody. */
  lemma ConcernsWhom(job: Events.Job, x: Envelope, a: string)
    requires Labels(job, x.from, x.to)
    ensures var wakes := Bridge.Concerns(a, EventOf(x));
            && (job.Send? && x.kind == "message" && job.to != "*" ==> (wakes <==> a == job.to))
            && (job.Send? && x.kind in {"task_assign", "task_status", "task_result", "file_share"} ==>
                  (wakes <==> a == job.to))
            && (job.Broadcast? && x.kind in {"message", "broadcast"} ==> (wakes <==> a != job.from))
            && (job.System? && x.kind in {"scratchpad_update", "leader_info"} ==>
                  (wakes <==> a != x.from) && (Events.Addressed(job, a) && a != "server" ==> wakes))
            && (wakes ==> x.kind in {"message", "broadcast", "task_assign", "task_status", "task_result", "file_share",
                                     "scratchpad_update", "leader_info"})
  {
  }

  /** The event is of the session, numbered, and bears truthful labels. */
  predicate Labelled(sid: string, x: Events.Issue) {
    x.env.session == sid && Labels(x.job, x.env.from, x.env.to) && x.env.number > 0
  }

  /** The events of a stream do, whatever removals it went across. */
  lemma {:induction false} EmittedLabels(lim: Limits, states: seq<State>, ops: seq<Op>, k: nat, j: nat, sid: string)
    requires Run(lim, states, ops) && k <= j <= |ops|
    ensures forall x :: x in Emitted(states, ops, k, j, sid) ==> Labelled(sid, x)
    decreases j - k
  {
    hide Apply, Enabled, Starts, Removes, Log, LogOk, FirstCounter, Counter, Labelled, EventsOf;
    if k < j {
      EmittedLabels(lim, states, ops, k, j - 1, sid);
      RunLog(lim, states, ops, j, sid);
      EventsLabels(states[j - 1], states[j], ops[j - 1], sid);
    }
  }

  lemma EventsLabels(s: State, s': State, op: Op, sid: string)
    requires LogOk(FirstCounter(s', sid), sid, Log(s', sid), Counter(s', sid))
    ensures forall x :: x in EventsOf(s, s', op, sid) ==> Labelled(sid, x)
  {
    hide Labels, Log, Removes, FirstCounter, Counter;
  }

  /** So for every run and every stream: a direct message wakes the bridge of its recipient, and a broadcast every
      bridge but its sender's, exactly if its number is above the mark as it stood at r; and no other bridge. */
  lemma MessageWakes(lim: Limits, states: seq<State>, ops: seq<Op>, k: nat, r: nat, t: nat, j: nat, sid: string,
      mark: int, agent: string, ns: seq<nat>, m: nat)
    requires Run(lim, states, ops) && k <= r <= t <= j <= |ops| && mark >= 0
    requires forall n :: r <= n < t ==> !Removes(states[n], ops[n], sid)
    requires Picks(ns, |Emitted(states, ops, k, j, sid)|) && m < |ns|
    requires |Emitted(states, ops, k, r, sid)| <= ns[m] < |Emitted(states, ops, k, t, sid)|
    requires var x := Emitted(states, ops, k, j, sid)[ns[m]];
             || (x.job.Send? && x.env.kind == "message" && x.job.to != "*")
             || (x.job.Broadcast? && x.env.kind in {"message", "broadcast"})
    ensures var es := Emitted(states, ops, k, j, sid);
            var xs, c := StreamOf(agent, es, ns), PicksBefore(ns, |Emitted(states, ops, k, r, sid)|);
            var job, number := es[ns[m]].job, es[ns[m]].env.number;
            && c <= m
            && (ActsAt(mark, xs, m) <==>
                (if job.Send? then agent == job.to else agent != job.from) && number > MarkAfter(mark, xs[..c]))
  {
    hide Apply, Enabled, Starts, Removes, Emitted, Bridge.Concerns, MarkAfter, Labels;
    var es, n := Emitted(states, ops, k, j, sid), |Emitted(states, ops, k, r, sid)|;
    EmittedLabels(lim, states, ops, k, j, sid);
    assert Labelled(sid, es[ns[m]]);
    ConcernsWhom(es[ns[m]].job, es[ns[m]].env, agent);
    if Bridge.Concerns(agent, EventOf(es[ns[m]].env)) {
      WakesExactly(lim, states, ops, k, r, t, j, sid, mark, agent, ns, m);
    } else {
      var c := PicksBefore(ns, n);
      assert StreamOf(agent, es, ns)[m] == Bridge.ItemOf(agent, EventOf(es[ns[m]].env));
    }
  }

  // ---- The page that a re-sync reads --------------------------------------------------------------------

  /** Told by the fields: on a history in order, the mark is the number of its last entry, or of its fiftieth if there
      are more; so of a long history it falls short of the newest. */
  lemma ResyncedIs(lim: Limits, s: State, sid: string)
    requires Ordered(HistoryOf(s, sid)) && forall x :: x in HistoryOf(s, sid) ==> x.number > 0
    ensures var h := HistoryOf(s, sid);
            Resynced(lim, s, sid) == if h == [] then 0 else h[(if |h| < 50 then |h| else 50) - 1].number
  {
    hide Filter, HistoryOf;
    var h := HistoryOf(s, sid);
    FilterAll(h, Above(0));
    var page, ns := FirstAbove(h, 0, PAGE, lim.history), PageNumbers(h, lim.history);
    assert page == h[..if |h| < 50 then |h| else 50];
    if h != [] {
      LargestIsLast(ns);
    }
  }

  lemma LargestIsLast(ns: seq<int>)
    requires ns != [] && ns[0] > 0 && forall i, j :: 0 <= i < j < |ns| ==> ns[i] < ns[j]
    ensures Bridge.Largest(ns) == ns[|ns| - 1]
  {
    hide Bridge.Largest;
    var m := Bridge.Largest(ns);
    assert m >= ns[|ns| - 1] && m >= ns[0];
    var i :| 0 <= i < |ns| && ns[i] == m;
  }

  // ---- A session that was recreated in between --------------------------------------------------------

  /** The first broadcast of a session. */
  function Hello(sid: string, from: string, payload: Payload): Envelope {
    Envelope("broadcast", sid, from, EVERYONE, payload, 1)
  }

  /** Nothing has happened in the session since it began with nothing. */
  predicate Blank(s: State, sid: string) {
    Counter(s, sid) == 0 && HistoryOf(s, sid) == [] && Log(s, sid) == [] && FirstCounter(s, sid) == 0
  }

  lemma FirstBroadcast(lim: Limits, s: State, sid: string, from: string, payload: Payload)
    requires lim.history >= 1 && Blank(s, sid)
    ensures var s', e := Broadcasted(lim, s, sid, from, "broadcast", payload), Hello(sid, from, payload);
            && Counter(s', sid) == 1 && HistoryOf(s', sid) == [e]
            && s'.sessions == s.sessions && FirstCounter(s', sid) == 0
            && Log(s', sid) == [Events.Issue(e, Events.Broadcast(from))] && Resynced(lim, s', sid) == 1
  {
    hide Newest, Fanned, PresenceSpec.Members, KeysOf, PageNumbers, Bridge.Largest;
    var e := Hello(sid, from, payload);
    EmitEffect(lim, s, sid, Events.Broadcast(from), "broadcast", from, EVERYONE, payload);
    assert [] + [e] == [e];
    NewestCut([e], lim.history);
    OnePage(e, lim.history);
  }

  lemma OnePage(e: Envelope, max: nat)
    requires e.number == 1
    ensures Bridge.Largest(PageNumbers([e], max)) == 1
  {
    hide FirstAbove, Bridge.Largest;
    OnlyEntry(e, max);
    assert PageNumbers([e], max) == [1];
    assert 1 <= Bridge.Largest([1]) by {
      assert [1][0] <= Bridge.Largest([1]);
    }
  }

  lemma OnlyEntry(e: Envelope, max: nat)
    requires e.number == 1
    ensures FirstAbove([e], 0, PAGE, max) == [e]
  {
    hide Filter;
    FilterOne(e, Above(0));
  }

  lemma FilterOne(e: Envelope, p: Envelope -> bool)
    requires p(e)
    ensures Filter([e], p) == [e]
  {
    assert [e][..0] == [];
  }

  /** The smallest run in which an event is skipped: the session is closed after the re-sync and opened again under its
      id, and the broadcast that comes next does not wake the agent. It makes no difference whether the stream was
      opened before the removal, with the mark at the counter, or after it, with the mark above the counter. */
  lemma RecreatedSessionSkips(lim: Limits, ttl: nat, forgetAfter: int, sid: string, psk: string, from: string,
      payload: Payload, agent: string, at: nat)
      returns (states: seq<State>, ops: seq<Op>)
    requires lim.history >= 1 && lim.box >= 1 && SlashFree(sid) && agent != from
    ensures var say := Broadcast(sid, from, "broadcast", payload, at);
            ops == [Open(sid, psk, at), say, Close(sid, at), Open(sid, psk, at), say]
    ensures Run(lim, states, ops)
    ensures Resynced(lim, states[2], sid) == 1 == Counter(states[2], sid) && Counter(states[4], sid) == 0
    ensures var e := Hello(sid, from, payload);
            var es := [Events.Issue(e, Events.Broadcast(from))];
            && Emitted(states, ops, 2, 5, sid) == es == Emitted(states, ops, 4, 5, sid)
            && Bridge.Concerns(agent, EventOf(e)) && Picks([0], 1) && !ActsAt(1, StreamOf(agent, es, [0]), 0)
  {
    hide Broadcasted, Closed, Resynced, SlashFree, Starts, Blank, HistoryOf, Log, Counter, FirstCounter, ActsAt,
        Emitted, EventsOf, StreamOf, Sessions.Opened, Sessions.AfterOpening;
    var say := Broadcast(sid, from, "broadcast", payload, at);
    ops := [Open(sid, psk, at), say, Close(sid, at), Open(sid, psk, at), say];
    var s0 := NewServer(ttl, forgetAfter);
    NewStarts(lim, ttl, forgetAfter);
    BlankAtFirst(ttl, forgetAfter, sid);
    var s1 := Apply(lim, s0, ops[0]);
    OpenedNew(s0, sid, psk, at);
    var s2 := Apply(lim, s1, say);
    FirstBroadcast(lim, s1, sid, from, payload);
    var s3 := Apply(lim, s2, ops[2]);
    BlankOnceClosed(s2, sid);
    var s4 := Apply(lim, s3, ops[3]);
    OpenedNew(s3, sid, psk, at);
    var s5 := Apply(lim, s4, say);
    FirstBroadcast(lim, s4, sid, from, payload);
    states := [s0, s1, s2, s3, s4, s5];
    BlankValues(s3, sid);
    BlankValues(s4, sid);
    EmittedByThree(states, ops, sid);
    SeenOnce(agent, Hello(sid, from, payload), Events.Broadcast(from));
  }

  lemma BlankValues(s: State, sid: string)
    requires Blank(s, sid)
    ensures Counter(s, sid) == 0 && Log(s, sid) == []
  {
  }

  lemma EmittedByThree(states: seq<State>, ops: seq<Op>, sid: string)
    requires |states| == 6 && |ops| == 5 && Log(states[3], sid) == [] && Log(states[4], sid) == []
    requires Removes(states[2], ops[2], sid) && !Removes(states[3], ops[3], sid) && !Removes(states[4], ops[4], sid)
    ensures Emitted(states, ops, 2, 5, sid) == Log(states[5], sid) == Emitted(states, ops, 4, 5, sid)
  {
    hide Removes, Log;
    assert Emitted(states, ops, 2, 3, sid) == [];
    assert Emitted(states, ops, 2, 4, sid) == [];
  }

  lemma SeenOnce(agent: string, e: Envelope, job: Events.Job)
    requires e.number == 1
    ensures Picks([0], 1) && !ActsAt(1, StreamOf(agent, [Events.Issue(e, job)], [0]), 0)
  {
    var xs := StreamOf(agent, [Events.Issue(e, job)], [0]);
    assert xs[..0] == [];
    NothingSeen(1);
  }

  lemma BlankAtFirst(ttl: nat, forgetAfter: int, sid: string)
    ensures Blank(NewServer(ttl, forgetAfter), sid) && sid !in NewServer(ttl, forgetAfter).sessions
  {
  }

  lemma BlankOnceClosed(s: State, sid: string)
    ensures Blank(Closed(s, {sid}), sid) && sid !in Closed(s, {sid}).sessions
  {
    hide RosterWithout, BoxesWithout;
  }

  lemma OpenedNew(s: State, sid: string, psk: string, at: nat)
    requires Blank(s, sid)
    ensures var s' := s.(sessions := Sessions.AfterOpening(s.sessions, sid,
                                         Sessions.Opened(s.sessions, sid, psk, "", at)));
            Blank(s', sid) && sid in s'.sessions
  {
  }
}
