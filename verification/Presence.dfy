/** Who is known to a session, who is online, and who has been forgotten. */
module PresenceSpec {
  import opened Sequences
  import opened Envelopes

  datatype Agent = Agent(sid: string, aid: string, caps: seq<string>, seen: nat, expired: bool)

  datatype Roster = Roster(agents: map<string, Agent>, ttl: nat, forgetAfter: int)

  /** What the server tells about an agent. */
  datatype Info = Info(aid: string, caps: seq<string>, online: bool)

  predicate Live(a: Agent, ttl: nat, now: nat) {
    now - a.seen < ttl
  }

  function Fresh(sid: string, aid: string, now: nat): Agent {
    Agent(sid, aid, [], now, false)
  }

  /** Records activity: an unknown agent is added, a known one is revived and keeps its capabilities unless new
      ones are given. */
  function Touched(r: Roster, sid: string, aid: string, caps: Option<seq<string>>, now: nat): Roster {
    var k := Key(sid, aid);
    var a := if k in r.agents then r.agents[k] else Fresh(sid, aid, now);
    r.(agents := r.agents[k := a.(caps := if caps.Some? then caps.value else a.caps, expired := false, seen := now)])
  }

  predicate Present(r: Roster, sid: string, aid: string, now: nat) {
    Key(sid, aid) in r.agents && Live(r.agents[Key(sid, aid)], r.ttl, now)
  }

  predicate Known(r: Roster, sid: string, aid: string) {
    Key(sid, aid) in r.agents && r.agents[Key(sid, aid)].sid == sid
  }

  /** The keys of a session's records. */
  function MemberKeys(r: Roster, sid: string): set<string> {
    set k | k in r.agents && r.agents[k].sid == sid
  }

  function Members(r: Roster, sid: string): set<string> {
    set k | k in r.agents && r.agents[k].sid == sid :: r.agents[k].aid
  }

  function InfoOf(r: Roster, k: string, now: nat): Info
    requires k in r.agents
  {
    Info(r.agents[k].aid, r.agents[k].caps, Live(r.agents[k], r.ttl, now))
  }

  predicate ExpiresNow(r: Roster, k: string, now: nat) {
    k in r.agents && !r.agents[k].expired && !Live(r.agents[k], r.ttl, now)
  }

  predicate ForgetsNow(r: Roster, k: string, now: nat) {
    && k in r.agents
    && (r.agents[k].expired || ExpiresNow(r, k, now))
    && now - r.agents[k].seen >= r.forgetAfter
  }

  function Marked(r: Roster, k: string, now: nat): Agent
    requires k in r.agents
  {
    r.agents[k].(expired := r.agents[k].expired || ExpiresNow(r, k, now))
  }

  /** One sweep: lapsed records are marked, and those past the forget horizon are removed. */
  function Swept(r: Roster, now: nat): Roster {
    r.(agents := map k | k in r.agents && !ForgetsNow(r, k, now) :: Marked(r, k, now))
  }

  /** A sweep that has not come to the records in `todo` yet. */
  function SweptBut(r: Roster, now: nat, todo: set<string>): Roster {
    r.(agents := map k | k in r.agents && (k in todo || !ForgetsNow(r, k, now)) ::
                   if k in todo then r.agents[k] else Marked(r, k, now))
  }

  lemma SweptSteps(r: Roster, now: nat, todo: set<string>, k: string)
    requires todo <= r.agents.Keys && k in todo
    ensures SweptBut(r, now, r.agents.Keys) == r && SweptBut(r, now, {}) == Swept(r, now)
    ensures var m := SweptBut(r, now, todo).agents;
            && k in m && m[k] == r.agents[k]
            && SweptBut(r, now, todo - {k}) ==
               r.(agents := if ForgetsNow(r, k, now) then m - {k} else m[k := Marked(r, k, now)])
  {
    hide ForgetsNow, Marked;
  }

  lemma SweptEnds(r: Roster, now: nat)
    ensures SweptBut(r, now, r.agents.Keys) == r && SweptBut(r, now, {}) == Swept(r, now)
  {
    hide ForgetsNow, Marked;
  }

  function Expiring(r: Roster, now: nat): set<string> {
    set k | k in r.agents && ExpiresNow(r, k, now)
  }

  function Forgetting(r: Roster, now: nat): set<string> {
    set k | k in r.agents && ForgetsNow(r, k, now)
  }

  /** Told by the fields: a sweep marks what has been idle for the ttl, removes what is marked and has been idle for the
      horizon, and changes nothing else. */
  lemma SweptFields(r: Roster, now: nat, k: string)
    requires k in r.agents
    ensures var a, m := r.agents[k], Swept(r, now).agents;
            var idle := now - a.seen;
            && (k !in m <==> (a.expired || idle >= r.ttl) && idle >= r.forgetAfter)
            && (k in m ==> m[k] == Agent(a.sid, a.aid, a.caps, a.seen, a.expired || idle >= r.ttl))
            && (k in Expiring(r, now) <==> !a.expired && idle >= r.ttl)
            && (k in Forgetting(r, now) <==> k !in m)
            && Marked(r, k, now) == Agent(a.sid, a.aid, a.caps, a.seen, a.expired || idle >= r.ttl)
  {
  }

  /** A touch makes the record one that was just seen; capabilities are kept unless new ones are given. */
  lemma TouchedFields(r: Roster, sid: string, aid: string, caps: Option<seq<string>>, now: nat)
    ensures var k, m := sid + "/" + aid, Touched(r, sid, aid, caps, now).agents;
            && m.Keys == r.agents.Keys + {k} && (forall j :: j in r.agents && j != k ==> m[j] == r.agents[j])
            && m[k].seen == now && !m[k].expired
            && (caps.Some? ==> m[k].caps == caps.value)
            && (k in r.agents ==> m[k].sid == r.agents[k].sid && m[k].aid == r.agents[k].aid)
            && (k in r.agents && caps.None? ==> m[k].caps == r.agents[k].caps)
            && (k !in r.agents ==> m[k].sid == sid && m[k].aid == aid && (caps.None? ==> m[k].caps == []))
    ensures Touched(r, sid, aid, caps, now).ttl == r.ttl && Touched(r, sid, aid, caps, now).forgetAfter == r.forgetAfter
  {
  }

  function Cleared(r: Roster, sid: string): Roster {
    r.(agents := map k | k in r.agents && r.agents[k].sid != sid :: r.agents[k])
  }

  /** Every record is stored under its own key. */
  ghost predicate KeysMatch(r: Roster) {
    forall k :: k in r.agents ==> k == Key(r.agents[k].sid, r.agents[k].aid)
  }

  /** `keys` lists the elements of a set, each once, in some order. */
  ghost predicate Lists<T(!new)>(keys: seq<T>, s: set<T>) {
    && (forall k :: k in keys <==> k in s)
    && (forall i, j :: 0 <= i < j < |keys| ==> keys[i] != keys[j])
  }

  /** `out` reports the records under `keys` as a sweep leaves them. */
  ghost predicate Reports(out: seq<Agent>, keys: seq<string>, r: Roster, now: nat) {
    |out| == |keys| && forall i :: 0 <= i < |out| ==> keys[i] in r.agents && out[i] == Marked(r, keys[i], now)
  }

  /** `out` describes the records under `keys`. */
  ghost predicate Describes(out: seq<Info>, keys: seq<string>, r: Roster, now: nat) {
    |out| == |keys| && forall i :: 0 <= i < |out| ==> keys[i] in r.agents && out[i] == InfoOf(r, keys[i], now)
  }

  lemma ListStep(keys: seq<string>, s: set<string>, k: string)
    requires Lists(keys, s) && k !in s
    ensures Lists(keys + [k], s + {k})
  {
  }

  lemma ReportStep(out: seq<Agent>, keys: seq<string>, r: Roster, now: nat, k: string)
    requires Reports(out, keys, r, now) && k in r.agents
    ensures Reports(out + [Marked(r, k, now)], keys + [k], r, now)
  {
    hide Marked;
  }

  lemma DescribeStep(out: seq<Info>, keys: seq<string>, r: Roster, now: nat, k: string)
    requires Describes(out, keys, r, now) && k in r.agents
    ensures Describes(out + [InfoOf(r, k, now)], keys + [k], r, now)
  {
    hide InfoOf;
  }

  /** A record seen in the past whose mark, if set, is still justified. */
  ghost predicate Truthful(a: Agent, ttl: nat, now: nat) {
    a.seen <= now && (a.expired ==> !Live(a, ttl, now))
  }
}

/** The life of a record, over every run of touches, sweeps and session closings. */
module PresenceLife {
  import opened Sequences
  import opened Envelopes
  import opened PresenceSpec

  datatype Op = Touch(sid: string, aid: string, caps: Option<seq<string>>,
      at: nat) | Sweep(at: nat) | Clear(sid: string) | SetForgetAfter(d: int)

  function Apply(r: Roster, op: Op): Roster {
    match op
    case Touch(sid, aid, caps, at) => Touched(r, sid, aid, caps, at)
    case Sweep(at) => Swept(r, at)
    case Clear(sid) => Cleared(r, sid)
    case SetForgetAfter(d) => r.(forgetAfter := d)
  }

  predicate Touches(op: Op, k: string) {
    op.Touch? && Key(op.sid, op.aid) == k
  }

  /** The expiry callback fires for record k. */
  predicate Expires(r: Roster, op: Op, k: string) {
    op.Sweep? && ExpiresNow(r, k, op.at)
  }

  predicate Forgets(r: Roster, op: Op, k: string) {
    op.Sweep? && ForgetsNow(r, k, op.at)
  }

  /** A run from an empty tracker; `clock[i]` is the time of operation i and only grows. */
  ghost predicate Run(rosters: seq<Roster>, ops: seq<Op>, clock: seq<nat>) {
    && |rosters| == |ops| + 1 && |clock| == |ops| && rosters[0].agents == map[]
    && (forall i :: 0 <= i < |ops| ==> rosters[i + 1] == Apply(rosters[i], ops[i]))
    && (forall i, j :: 0 <= i <= j < |clock| ==> clock[i] <= clock[j])
    && (forall i :: 0 <= i < |ops| ==> (ops[i].Touch? || ops[i].Sweep? ==> ops[i].at == clock[i]))
  }

  ghost predicate Untouched(ops: seq<Op>, k: string, from: nat, to: nat) {
    forall m :: 0 <= from <= m < to && m < |ops| ==> !Touches(ops[m], k)
  }

  /** Without a touch a record that is marked stays marked, and one that is gone stays gone. */
  lemma {:induction false} MarkedStays(rosters: seq<Roster>, ops: seq<Op>, clock: seq<nat>, k: string, i: nat, j: nat)
    requires Run(rosters, ops, clock) && i <= j <= |ops| && Untouched(ops, k, i, j)
    requires k in rosters[i].agents ==> rosters[i].agents[k].expired
    ensures k in rosters[j].agents ==> rosters[j].agents[k].expired
    ensures k !in rosters[i].agents ==> k !in rosters[j].agents
  {
    if i < j {
      MarkedStays(rosters, ops, clock, k, i, j - 1);
      assert !Touches(ops[j - 1], k);
      assert rosters[j] == Apply(rosters[j - 1], ops[j - 1]);
    }
  }

  lemma {:induction false} TouchBetween(ops: seq<Op>, k: string, i: nat, j: nat) returns (m: nat)
    requires i <= j <= |ops| && !Untouched(ops, k, i, j)
    ensures i <= m < j && Touches(ops[m], k)
  {
    m :| i <= m < j && m < |ops| && Touches(ops[m], k);
  }

  /** Two expiry callbacks for one record are separated by a touch. */
  lemma ExpiresOncePerLapse(rosters: seq<Roster>, ops: seq<Op>, clock: seq<nat>, k: string, i: nat,
      j: nat) returns (m: nat)
    requires Run(rosters, ops, clock) && i < j < |ops| && Expires(rosters[i], ops[i], k)
    requires Expires(rosters[j], ops[j], k)
    ensures i < m < j && Touches(ops[m], k)
  {
    assert rosters[i + 1] == Apply(rosters[i], ops[i]);
    if Untouched(ops, k, i + 1, j) {
      MarkedStays(rosters, ops, clock, k, i + 1, j);
      assert false;
    }
    m := TouchBetween(ops, k, i + 1, j);
  }

  /** A marked record was reported as expired since it was last touched. */
  lemma {:induction false} MarkedWasReported(rosters: seq<Roster>, ops: seq<Op>, clock: seq<nat>, k: string,
      j: nat) returns (e: nat)
    requires Run(rosters, ops, clock) && j <= |ops| && k in rosters[j].agents && rosters[j].agents[k].expired
    ensures e < j && Expires(rosters[e], ops[e], k) && Untouched(ops, k, e, j)
  {
    assert j > 0;
    assert rosters[j] == Apply(rosters[j - 1], ops[j - 1]);
    assert !Touches(ops[j - 1], k);
    if Expires(rosters[j - 1], ops[j - 1], k) {
      e := j - 1;
    } else {
      assert k in rosters[j - 1].agents && rosters[j - 1].agents[k].expired;
      e := MarkedWasReported(rosters, ops, clock, k, j - 1);
    }
  }

  /** Every forget callback is preceded by an expiry callback of the same lapse, possibly of the same sweep. */
  lemma ForgetFollowsExpire(rosters: seq<Roster>, ops: seq<Op>, clock: seq<nat>, k: string, j: nat) returns (e: nat)
    requires Run(rosters, ops, clock) && j < |ops| && Forgets(rosters[j], ops[j], k)
    ensures e <= j && Expires(rosters[e], ops[e], k) && Untouched(ops, k, e, j)
  {
    if Expires(rosters[j], ops[j], k) {
      e := j;
    } else {
      e := MarkedWasReported(rosters, ops, clock, k, j);
    }
  }

  /** A record is forgotten once: before the next time a touch has created it anew. */
  lemma ForgottenOnce(rosters: seq<Roster>, ops: seq<Op>, clock: seq<nat>, k: string, i: nat, j: nat) returns (m: nat)
    requires Run(rosters, ops, clock) && i < j < |ops| && Forgets(rosters[i], ops[i], k)
    requires Forgets(rosters[j], ops[j], k)
    ensures i < m < j && Touches(ops[m], k) && k !in rosters[m].agents
  {
    assert rosters[i + 1] == Apply(rosters[i], ops[i]);
    m := i + 1;
    while !Touches(ops[m], k)
      invariant i < m < j && k !in rosters[m].agents
      decreases j - m
    {
      assert rosters[m + 1] == Apply(rosters[m], ops[m]);
      if m + 1 == j { assert false; }
      m := m + 1;
    }
  }

  /** The latest time a record can have been touched or marked at. */
  function Clock(clock: seq<nat>, i: nat): nat
    requires i <= |clock|
  {
    if i == 0 then 0 else clock[i - 1]
  }

  /** A marked record is not live, now or at any later time before its next touch. */
  lemma {:induction false} ExpiredIsNotLive(rosters: seq<Roster>, ops: seq<Op>, clock: seq<nat>, k: string, i: nat)
    requires Run(rosters, ops, clock) && i <= |ops| && k in rosters[i].agents
    ensures forall now :: now >= Clock(clock, i) ==> Truthful(rosters[i].agents[k], rosters[i].ttl, now)
    ensures rosters[i].ttl == rosters[0].ttl
  {
    if i > 0 {
      assert rosters[i] == Apply(rosters[i - 1], ops[i - 1]);
      TtlStays(rosters, ops, clock, i);
      if k in rosters[i - 1].agents {
        ExpiredIsNotLive(rosters, ops, clock, k, i - 1);
        assert Clock(clock, i - 1) <= Clock(clock, i);
      }
    }
  }

  lemma {:induction false} TtlStays(rosters: seq<Roster>, ops: seq<Op>, clock: seq<nat>, i: nat)
    requires Run(rosters, ops, clock) && i <= |ops|
    ensures rosters[i].ttl == rosters[0].ttl
  {
    if i > 0 {
      TtlStays(rosters, ops, clock, i - 1);
      assert rosters[i] == Apply(rosters[i - 1], ops[i - 1]);
    }
  }

  /** A record is forgotten only when it has been idle for both the ttl and the forget horizon. */
  lemma ForgetOnlyWhenIdle(rosters: seq<Roster>, ops: seq<Op>, clock: seq<nat>, k: string, j: nat)
    requires Run(rosters, ops, clock) && j < |ops| && Forgets(rosters[j], ops[j], k)
    ensures var idle := ops[j].at - rosters[j].agents[k].seen;
            idle >= rosters[0].ttl && idle >= rosters[j].forgetAfter
  {
    var now := ForgetTime(rosters, ops, clock, j);
    ExpiredIsNotLive(rosters, ops, clock, k, j);
    assert Truthful(rosters[j].agents[k], rosters[j].ttl, now);
  }

  lemma ForgetTime(rosters: seq<Roster>, ops: seq<Op>, clock: seq<nat>, j: nat) returns (now: nat)
    requires Run(rosters, ops, clock) && j < |ops| && ops[j].Sweep?
    ensures now == ops[j].at && j <= |clock| && now >= Clock(clock, j)
  {
    now := ops[j].at;
  }

  /** Every operation keeps records under their own keys. */
  lemma KeysKept(r: Roster, op: Op)
    requires KeysMatch(r)
    ensures KeysMatch(Apply(r, op))
  {
  }
}

/** The presence tracker: records updated in place, and the sweep loop. */
module Presence {
  import opened Sequences
  import opened Envelopes
  import opened PresenceSpec

  const DEFAULT_TTL := 60000
  const DEFAULT_FORGET_AFTER := 86400000

  class AgentState {
    const aid: string
    const sid: string
    var caps: seq<string>
    var seen: nat
    var expired: bool
    ghost const key := Key(sid, aid)   // the key it is stored under

    constructor (sid: string, aid: string)
      ensures this.sid == sid && this.aid == aid && caps == [] && seen == 0 && !expired
    {
      this.sid, this.aid, caps, seen, expired := sid, aid, [], 0, false;
    }

    predicate Is(a: Agent)
      reads this
    {
      a.sid == sid && a.aid == aid && a.caps == caps && a.seen == seen && a.expired == expired
    }
  }

  class Tracker {
    ghost var Repr: set<object>
    ghost var M: Roster
    var agents: map<string, AgentState>
    const ttl: nat
    var forgetAfter: int

    ghost predicate Valid()
      reads this, Repr
      ensures Valid() ==> this in Repr
    {
      && this in Repr && ttl > 0
      && M.ttl == ttl && M.forgetAfter == forgetAfter && M.agents.Keys == agents.Keys
      && (forall k :: k in agents ==> agents[k] in Repr && agents[k].key == k && agents[k].Is(M.agents[k]))
    }

    constructor (ttl: int)
      ensures Valid() && fresh(Repr)
      ensures M == Roster(map[], if ttl <= 0 then 60000 else ttl, 24 * 60 * 60 * 1000)
    {
      agents, forgetAfter := map[], DEFAULT_FORGET_AFTER;
      this.ttl := if ttl <= 0 then DEFAULT_TTL else ttl;
      M := Roster(map[], if ttl <= 0 then DEFAULT_TTL else ttl, DEFAULT_FORGET_AFTER);
      Repr := {this};
    }

    lemma KeysMatch()
      requires Valid()
      ensures PresenceSpec.KeysMatch(M)
    {
      hide Key;
    }

    method Touch(sid: string, aid: string, caps: Option<seq<string>>, now: nat) returns (isNew: bool)
      requires Valid()
      modifies Repr
      ensures Valid() && fresh(Repr - old(Repr)) && old(Repr) <= Repr
      ensures M == Touched(old(M), sid, aid, caps, now)
      ensures isNew == (Key(sid, aid) !in old(M).agents)
      ensures var k := Key(sid, aid); k in M.agents && M.agents[k].seen == now && !M.agents[k].expired
    {
      hide Key, Valid, Touched;
      var key := Key(sid, aid);
      ghost var r := M;
      TouchedInTwo(r, sid, aid, caps, now);
      isNew := IsUnknown(key);
      if isNew {
        Add(sid, aid);
      }
      Refresh(key, caps, now);
    }

    method IsUnknown(key: string) returns (unknown: bool)
      requires Valid()
      ensures unknown == (key !in M.agents) == (key !in agents) && (!unknown ==> agents[key] in Repr)
    {
      unknown := key !in agents;
    }

    method Add(sid: string, aid: string)
      requires Valid() && Key(sid, aid) !in agents
      modifies this`agents, this`M, this`Repr
      ensures Valid() && fresh(Repr - old(Repr)) && old(Repr) <= Repr
      ensures M == old(M).(agents := old(M).agents[Key(sid, aid) := Fresh(sid, aid, 0)])
      ensures agents.Keys == old(agents).Keys + {Key(sid, aid)} && fresh(agents[Key(sid, aid)])
    {
      hide Key;
      var key := Key(sid, aid);
      var state := new AgentState(sid, aid);
      agents := agents[key := state];
      Repr := Repr + {state};
      M := M.(agents := M.agents[key := Fresh(sid, aid, 0)]);
      forall k | k in agents
        ensures agents[k] in Repr && agents[k].key == k && agents[k].Is(M.agents[k])
      {
        assert k != key ==> agents[k] != state;
      }
    }

    method Refresh(key: string, caps: Option<seq<string>>, now: nat)
      requires Valid() && key in agents
      modifies this`M, agents[key]
      ensures Valid()
      ensures var a := old(M).agents[key];
              M == old(M).(agents := old(M).agents[key := a.(caps := if caps.Some? then caps.value else a.caps,
                  expired := false, seen := now)])
    {
      hide Key, Valid;
      RecordKnown(key);
      ghost var agentsBefore := M.agents;
      if caps.Some? {
        SetCaps(key, caps.value);
      }
      Stamp(key, now);
      assert M.agents == agentsBefore[key := M.agents[key]];
    }

    lemma RecordKnown(key: string)
      requires Valid() && key in agents
      ensures key in M.agents
    {
    }

    method SetCaps(key: string, caps: seq<string>)
      requires Valid() && key in agents
      modifies this`M, agents[key]
      ensures Valid() && key in old(M).agents
      ensures M == old(M).(agents := old(M).agents[key := old(M).agents[key].(caps := caps)])
    {
      hide Key;
      var record := agents[key];
      record.caps := caps;
      M := M.(agents := M.agents[key := M.agents[key].(caps := caps)]);
      forall k | k in agents
        ensures agents[k] in Repr && agents[k].key == k && agents[k].Is(M.agents[k])
      {
        assert k != key ==> agents[k] != record;
      }
    }

    method Stamp(key: string, now: nat)
      requires Valid() && key in agents
      modifies this`M, agents[key]
      ensures Valid()
      ensures M == old(M).(agents := old(M).agents[key := old(M).agents[key].(expired := false, seen := now)])
    {
      hide Key;
      var record := agents[key];
      record.expired := false;
      record.seen := now;
      M := M.(agents := M.agents[key := M.agents[key].(expired := false, seen := now)]);
      forall k | k in agents
        ensures agents[k] in Repr && agents[k].key == k && agents[k].Is(M.agents[k])
      {
        assert k != key ==> agents[k] != record;
      }
    }

    method IsPresent(sid: string, aid: string, now: nat) returns (ok: bool)
      requires Valid()
      ensures ok == Present(M, sid, aid, now)
      ensures ok == (Key(sid, aid) in agents && now - agents[Key(sid, aid)].seen < ttl)
    {
      hide Key;
      var key := Key(sid, aid);
      if key !in agents {
        return false;
      }
      ok := now - agents[key].seen < ttl;
    }

    method WasPresent(sid: string, aid: string) returns (ok: bool)
      requires Valid()
      ensures ok == Known(M, sid, aid)
      ensures ok == (Key(sid, aid) in agents && agents[Key(sid, aid)].sid == sid)
    {
      hide Key;
      var key := Key(sid, aid);
      if key !in agents {
        return false;
      }
      ok := agents[key].sid == sid;
    }

    /** Every known member of the session, in some order. */
    method GetAgents(sid: string, now: nat) returns (out: seq<Info>, ghost keys: seq<string>)
      requires Valid()
      ensures Lists(keys, MemberKeys(M, sid)) && Describes(out, keys, M, now)
      ensures |out| == |keys| && forall k :: k in keys <==> k in agents && agents[k].sid == sid
      ensures forall i :: 0 <= i < |out| ==>
                && out[i].aid == M.agents[keys[i]].aid && out[i].caps == M.agents[keys[i]].caps
                && out[i].online == (now - M.agents[keys[i]].seen < ttl)
    {
      hide Key, Lists, Describes;
      out, keys := [], [];
      NoKeys(M, now);
      var todo := agents.Keys;
      assert MemberKeys(M, sid) - todo == {};
      while todo != {}
        invariant todo <= agents.Keys
        invariant Lists(keys, MemberKeys(M, sid) - todo) && Describes(out, keys, M, now)
        decreases todo
      {
        var key :| key in todo;
        var state := agents[key];
        if state.sid == sid {
          ListStep(keys, MemberKeys(M, sid) - todo, key);
          DescribeStep(out, keys, M, now, key);
          assert MemberKeys(M, sid) - todo + {key} == MemberKeys(M, sid) - (todo - {key});
          out := out + [Info(state.aid, state.caps, now - state.seen < ttl)];
          keys := keys + [key];
        } else {
          assert MemberKeys(M, sid) - todo == MemberKeys(M, sid) - (todo - {key});
        }
        todo := todo - {key};
      }
      assert MemberKeys(M, sid) - {} == MemberKeys(M, sid);
      ListedFields(M, sid, keys, out, now);
    }

    method SetForgetAfter(d: int)
      requires Valid()
      modifies this`forgetAfter, this`M
      ensures Valid() && M == old(M).(forgetAfter := d)
    {
      hide Key;
      forgetAfter := d;
      M := M.(forgetAfter := d);
    }

    /** Marks records past the ttl and removes those past the forget horizon. The callbacks, which the caller
        makes after this, get the marked records and then the removed ones. */
    method Sweep(now: nat) returns (expired: seq<Agent>, forgotten: seq<Agent>, ghost lapsed: seq<string>,
        ghost gone: seq<string>)
      requires Valid()
      modifies Repr
      ensures Valid() && Repr == old(Repr) && M == Swept(old(M), now)
      ensures Lists(lapsed, Expiring(old(M), now)) && Reports(expired, lapsed, old(M), now)
      ensures Lists(gone, Forgetting(old(M), now)) && Reports(forgotten, gone, old(M), now)
      ensures forall k :: k in old(M).agents ==>
                var a := old(M).agents[k];
                var idle := now - a.seen;
                && (k !in M.agents <==> (a.expired || idle >= ttl) && idle >= old(M).forgetAfter)
                && (k in M.agents ==> M.agents[k].expired == (a.expired || idle >= ttl))
    {
      hide Key, Lists, Reports, ForgetsNow, ExpiresNow, Marked, Swept, SweptBut;
      expired, forgotten, lapsed, gone := [], [], [], [];
      ghost var r := M;
      NoKeys(r, now);
      SweptEnds(r, now);
      var todo := agents.Keys;
      assert Expiring(r, now) - todo == {} && Forgetting(r, now) - todo == {};
      while todo != {}
        invariant todo <= agents.Keys <= old(agents).Keys && todo <= r.agents.Keys
        invariant forall k :: k in agents ==> agents[k] == old(agents)[k]
        invariant Valid() && Repr == old(Repr) && M == SweptBut(r, now, todo)
        invariant Lists(lapsed, Expiring(r, now) - todo) && Reports(expired, lapsed, r, now)
        invariant Lists(gone, Forgetting(r, now) - todo) && Reports(forgotten, gone, r, now)
        modifies this`agents, this`M, old(agents).Values
        decreases todo
      {
        var key :| key in todo;
        SweptSteps(r, now, todo, key);
        SameVerdict(r, M, key, now);
        var marked, removed, state := SweepOne(key, now);
        ListBut(lapsed, Expiring(r, now), todo, key);
        ListBut(gone, Forgetting(r, now), todo, key);
        ReportStep(expired, lapsed, r, now, key);
        ReportStep(forgotten, gone, r, now, key);
        todo := todo - {key};
        if marked {
          expired, lapsed := expired + [state], lapsed + [key];
        }
        if removed {
          forgotten, gone := forgotten + [state], gone + [key];
        }
      }
      assert Expiring(r, now) - {} == Expiring(r, now) && Forgetting(r, now) - {} == Forgetting(r, now);
      forall k | k in r.agents
        ensures var a := r.agents[k];
                var idle := now - a.seen;
                && (k !in M.agents <==> (a.expired || idle >= r.ttl) && idle >= r.forgetAfter)
                && (k in M.agents ==> M.agents[k].expired == (a.expired || idle >= r.ttl))
      {
        SweptFields(r, now, k);
      }
    }

    /** One round of the sweep loop. */
    method SweepOne(key: string, now: nat) returns (marked: bool, removed: bool, state: Agent)
      requires Valid() && key in agents
      modifies this`agents, this`M, agents[key]
      ensures Valid() && Repr == old(Repr)
      ensures marked == ExpiresNow(old(M), key, now) && removed == ForgetsNow(old(M), key, now)
      ensures state == Marked(old(M), key, now)
      ensures M == old(M).(agents := if removed then old(M).agents - {key} else old(M).agents[key := state])
      ensures agents == if removed then old(agents) - {key} else old(agents)
    {
      hide Key;
      var record := agents[key];
      marked, removed := false, false;
      if !record.expired && !(now - record.seen < ttl) {
        Mark(key);
        marked := true;
      }
      state := Agent(record.sid, record.aid, record.caps, record.seen, record.expired);
      if record.expired && now - record.seen >= forgetAfter {
        Drop(key);
        removed := true;
      }
    }

    method Drop(key: string)
      requires Valid() && key in agents
      modifies this`agents, this`M
      ensures Valid() && agents == old(agents) - {key} && M == old(M).(agents := old(M).agents - {key})
    {
      hide Key;
      agents := agents - {key};
      M := M.(agents := M.agents - {key});
    }

    method Mark(key: string)
      requires Valid() && key in agents
      modifies this`M, agents[key]
      ensures Valid() && agents[key].expired
      ensures M == old(M).(agents := old(M).agents[key := old(M).agents[key].(expired := true)])
    {
      hide Key;
      var record := agents[key];
      record.expired := true;
      M := M.(agents := M.agents[key := M.agents[key].(expired := true)]);
      forall k | k in agents
        ensures agents[k] in Repr && agents[k].key == k && agents[k].Is(M.agents[k])
      {
        assert k != key ==> agents[k] != record;
      }
    }

    method ClearSession(sid: string)
      requires Valid()
      modifies this`agents, this`M
      ensures Valid() && M == Cleared(old(M), sid)
      ensures forall k :: k in M.agents <==> k in old(M).agents && old(M).agents[k].sid != sid
    {
      hide Key;
      var todo := agents.Keys;
      while todo != {}
        invariant todo <= agents.Keys
        invariant agents == map k | k in old(agents) && (k in todo || old(agents)[k].sid != sid) :: old(agents)[k]
        modifies this`agents
        decreases todo
      {
        var key :| key in todo;
        if agents[key].sid == sid {
          agents := agents - {key};
        }
        todo := todo - {key};
      }
      M := Cleared(M, sid);
    }
  }

  /** A touch adds the record if it is missing and then refreshes it. */
  lemma TouchedInTwo(r: Roster, sid: string, aid: string, caps: Option<seq<string>>, now: nat)
    ensures var k := Key(sid, aid);
            var added := if k in r.agents then r else r.(agents := r.agents[k := Fresh(sid, aid, 0)]);
            var a := added.agents[k];
            Touched(r, sid, aid, caps, now) ==
            added.(agents := added.agents[k :=
                    a.(caps := if caps.Some? then caps.value else a.caps, expired := false, seen := now)])
  {
    hide Key;
    var k := Key(sid, aid);
    var a := if caps.Some? then Agent(sid, aid, caps.value, now, false) else Agent(sid, aid, [], now, false);
    assert r.agents[k := Fresh(sid, aid, 0)][k := a] == r.agents[k := a];
  }

  lemma ListedFields(r: Roster, sid: string, keys: seq<string>, out: seq<Info>, now: nat)
    requires Lists(keys, MemberKeys(r, sid)) && Describes(out, keys, r, now)
    ensures |out| == |keys| && forall k :: k in keys <==> k in r.agents && r.agents[k].sid == sid
    ensures forall i :: 0 <= i < |out| ==>
              && keys[i] in r.agents && out[i].aid == r.agents[keys[i]].aid && out[i].caps == r.agents[keys[i]].caps
              && out[i].online == (now - r.agents[keys[i]].seen < r.ttl)
  {
  }

  lemma NoKeys(r: Roster, now: nat)
    ensures Lists<string>([], {}) && Reports([], [], r, now) && Describes([], [], r, now)
  {
  }

  lemma ListBut(keys: seq<string>, s: set<string>, todo: set<string>, k: string)
    requires Lists(keys, s - todo) && k in todo
    ensures Lists(if k in s then keys + [k] else keys, s - (todo - {k}))
  {
    hide Lists;
    if k in s {
      ListStep(keys, s - todo, k);
      assert s - todo + {k} == s - (todo - {k});
    } else {
      assert s - todo == s - (todo - {k});
    }
  }

  /** The verdict on a record does not depend on the others. */
  lemma SameVerdict(r: Roster, m: Roster, k: string, now: nat)
    requires k in r.agents && k in m.agents && m.agents[k] == r.agents[k] && m.ttl == r.ttl
    requires m.forgetAfter == r.forgetAfter
    ensures ExpiresNow(m, k, now) == ExpiresNow(r, k, now) == (k in Expiring(r, now))
    ensures ForgetsNow(m, k, now) == ForgetsNow(r, k, now) == (k in Forgetting(r, now))
    ensures Marked(m, k, now) == Marked(r, k, now)
  {
  }
}
