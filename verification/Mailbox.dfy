/** The in-memory mailbox store: boxes mutated in place, and the long-poll loop. */
module Mailbox {
  import opened Sequences
  import opened Envelopes
  import opened MailSpec

  const DEFAULT_MAX_PER_BOX := 1000
  /** Milliseconds between the re-checks of a long poll. */
  const POLL_TICK := 500

  /** One agent's queue. `changed` is the capacity-1 channel: it holds at most one wake-up token. */
  class Box {
    var entries: seq<Entry>
    const max: nat
    var changed: bool
    ghost const key: string   // the key it was created under, so that boxes of different keys are different

    constructor (max: nat, ghost key: string)
      ensures entries == [] && !changed && this.max == max && this.key == key
    {
      entries, changed, this.max, this.key := [], false, max, key;
    }

    /** Appends an entry, dropping the oldest ones past the cap, and wakes a waiter. */
    method Put(e: Entry)
      modifies this`entries, this`changed
      ensures entries == Newest(old(entries) + [e], max) && changed
    {
      entries := entries + [e];
      if |entries| > max {
        entries := entries[|entries| - max..];
      }
      Signal();
    }

    /** A non-blocking send on a capacity-1 channel: signals coalesce. */
    method Signal()
      modifies this`changed
      ensures changed
    {
      changed := true;
    }
  }

  /** Splits a queue into the entries that pass the filter and the rest, keeping the order of both. */
  method Partition(q: seq<Entry>, from: string, kind: string) returns (matched: seq<Entry>, kept: seq<Entry>)
    ensures matched == Filter(q, Wanted(from, kind))
    ensures kept == Filter(q, Unwanted(from, kind))
    ensures forall e :: e in q <==> e in matched || e in kept
    ensures forall e :: e in matched ==> (from != "" ==> e.env.from == from) && (kind != "" ==> e.env.kind == kind)
    ensures forall e :: e in kept ==> (from != "" && e.env.from != from) || (kind != "" && e.env.kind != kind)
  {
    matched, kept := [], [];
    for i := 0 to |q|
      invariant matched == Filter(q[..i], Wanted(from, kind))
      invariant kept == Filter(q[..i], Unwanted(from, kind))
    {
      FilterPrefixStep(q, i, Wanted(from, kind));
      FilterPrefixStep(q, i, Unwanted(from, kind));
      if Matches(q[i].env, from, kind) {
        matched := matched + [q[i]];
      } else {
        kept := kept + [q[i]];
      }
    }
    assert q[..|q|] == q;
    FilterMembers(q, Wanted(from, kind));
    FilterMembers(q, Unwanted(from, kind));
  }

  lemma OpenThenDeliver(m: Mail, max: nat, key: string, env: Envelope)
    ensures var q := Queue(m, key);
            Apply(m, max, Op.Deliver(key, env)) ==
            Mail(m.boxes[key := q][key := Newest(q + [Entry(m.ids + 1, env)], max)], m.ids + 1)
  {
    hide Newest;
  }

  /** What the rest of the system does during one iteration of a long poll: `gap` happens between the drain
      and the clock reading, `during` while the waiter sleeps. `token` says that the waiter is woken by the
      channel if a token is there; otherwise it is woken by its timer, at clock `wake` or later. */
  datatype Round = Round(gap: seq<Op>, read: nat, during: seq<Op>, wake: nat, token: bool)

  function RoundAt(rounds: seq<Round>, i: nat): Round {
    if i < |rounds| then rounds[i] else Round([], 0, [], 0, false)
  }

  /** Everything others do in the first n iterations. */
  function OpsOf(rounds: seq<Round>, n: nat): seq<Op> {
    if n == 0 then [] else OpsOf(rounds, n - 1) + RoundAt(rounds, n - 1).gap + RoundAt(rounds, n - 1).during
  }

  function Max(a: int, b: int): int {
    if a > b then a else b
  }

  /** The timer wakes the waiter no later than a tick after the clock reading it was set at, and by the deadline. */
  predicate Punctual(r: Round, deadline: int) {
    r.wake <= r.read + POLL_TICK && r.wake <= deadline
  }

  /** How a poll from `start` went in time: `drainedAt` is the clock when its last drain ran, `now` the last clock
      reading, `asleep` the clock at which its last sleep began, if it slept. */
  predicate Timed(rounds: seq<Round>, start: nat, wait: int, iterations: nat, nothing: bool, now: nat, drainedAt: nat,
      asleep: nat)
    requires iterations >= 1
  {
    && (iterations == 1 ==> drainedAt == start)
    // it gives up only on a clock reading at or past the deadline, taken after a drain that found nothing
    && (nothing ==> now >= start + wait && now == Max(drainedAt, RoundAt(rounds, iterations - 1).read))
    // a call that need not wait ends with a drain at or past its deadline; EarlyGiveUp shows that no other call must
    && (nothing && wait <= 0 ==> drainedAt >= start + wait)
    && (forall i :: 0 <= i < iterations - 1 ==> RoundAt(rounds, i).read < start + wait)
    // what arrives during a sleep is seen within a tick of the beginning of the sleep, and by the deadline
    && (iterations >= 2 ==>
          && RoundAt(rounds, iterations - 2).read <= asleep <= drainedAt
          && (Punctual(RoundAt(rounds, iterations - 2), start + wait) ==>
                drainedAt <= asleep + 500 && drainedAt <= start + wait))
  }

  /** Every look of a poll but the last found nothing. */
  ghost predicate NothingBefore(m: Mail, max: nat, op: Op, rounds: seq<Round>, iterations: nat) {
    forall i :: 0 <= i < iterations - 1 ==> Result(RunFrom(m, max, OpsOf(rounds, i)), op) == []
  }

  /** The number of timer wake-ups a wait can contain. */
  function Ticks(wait: int): nat {
    if wait <= 0 then 0 else (wait + POLL_TICK - 1) / POLL_TICK
  }

  class Store {
    ghost var Repr: set<object>
    ghost var M: Mail
    var boxes: map<string, Box>
    const maxPer: nat
    var lastId: nat

    ghost predicate Valid()
      reads this, Repr
      ensures Valid() ==> this in Repr
    {
      && this in Repr && maxPer >= 1
      && M.ids == lastId && M.boxes.Keys == boxes.Keys
      && (forall k :: k in boxes ==>
            boxes[k] in Repr && boxes[k].max == maxPer && boxes[k].key == k && boxes[k].entries == M.boxes[k])
    }

    constructor (maxPerBox: int)
      ensures Valid() && fresh(Repr) && M == EmptyMail
      ensures maxPer == if maxPerBox <= 0 then 1000 else maxPerBox
    {
      boxes, lastId := map[], 0;
      maxPer := if maxPerBox <= 0 then DEFAULT_MAX_PER_BOX else maxPerBox;
      M, Repr := EmptyMail, {this};
    }

    method GetOrCreateBox(key: string) returns (b: Box)
      requires Valid()
      modifies this`boxes, this`M, this`Repr
      ensures Valid() && fresh(Repr - old(Repr)) && old(Repr) <= Repr
      ensures boxes == old(boxes)[key := b]
      ensures if key in old(boxes) then b == old(boxes[key]) else fresh(b) && !b.changed
      ensures M == Mail(old(M.boxes)[key := Queue(old(M), key)], old(M.ids))
    {
      if key in boxes {
        return boxes[key];
      }
      b := new Box(maxPer, key);
      boxes := boxes[key := b];
      M := M.(boxes := M.boxes[key := []]);
      Repr := Repr + {b};
    }

    method Deliver(key: string, env: Envelope) returns (ghost b: Box)
      requires Valid()
      modifies this, set k | k in boxes && k == key :: boxes[k]
      ensures Valid() && fresh(Repr - old(Repr)) && old(Repr) <= Repr
      ensures M == Apply(old(M), maxPer, Op.Deliver(key, env))
      ensures b.changed && boxes == old(boxes)[key := b]
      ensures if key in old(boxes) then b == old(boxes[key]) else fresh(b)
    {
      hide Newest, Apply, Valid;
      ghost var m := M;
      OpenThenDeliver(m, maxPer, key, env);
      var box := GetOrCreateBox(key);
      assert M.boxes[key] == Queue(m, key);
      b := box;
      Push(key, box, env);
    }

    method Push(key: string, b: Box, env: Envelope)
      requires Valid() && key in boxes && boxes[key] == b
      modifies this`lastId, this`M, b`entries, b`changed
      ensures Valid() && b.changed
      ensures var q := old(M.boxes)[key] + [Entry(old(M.ids) + 1, env)];
              M == Mail(old(M.boxes)[key := Newest(q, maxPer)], old(M.ids) + 1)
    {
      hide Newest;
      lastId := lastId + 1;
      b.Put(Entry(lastId, env));
      M := Mail(M.boxes[key := b.entries], lastId);
    }

    /** Removes and returns every queued entry. */
    method Drain(key: string) returns (out: seq<Entry>)
      requires Valid()
      modifies this`M, (set k | k in boxes && k == key :: boxes[k])`entries
      ensures Valid() && M == Apply(old(M), maxPer, Op.Drain(key))
      ensures out == Result(old(M), Op.Drain(key)) && out == Queue(old(M), key) && Queue(M, key) == []
    {
      if key !in boxes {
        return [];
      }
      var b := boxes[key];
      out := b.entries;
      b.entries := [];
      M := M.(boxes := M.boxes[key := []]);
    }

    /** Removes and returns the entries that pass the filter; the others stay queued, in order. */
    method DrainMatching(key: string, from: string, kind: string) returns (matched: seq<Entry>)
      requires Valid()
      modifies this`M, (set k | k in boxes && k == key :: boxes[k])`entries
      ensures Valid() && M == Apply(old(M), maxPer, Op.DrainMatching(key, from, kind))
      ensures matched == Result(old(M), Op.DrainMatching(key, from, kind))
      ensures forall e :: e in Queue(old(M), key) <==> e in matched || e in Queue(M, key)
      ensures forall e :: e in matched ==> (from != "" ==> e.env.from == from) && (kind != "" ==> e.env.kind == kind)
      ensures forall e :: e in Queue(M, key) ==>
                (from != "" && e.env.from != from) || (kind != "" && e.env.kind != kind)
    {
      matched := [];
      if key !in boxes {
        return;
      }
      var b := boxes[key];
      var kept;
      matched, kept := Partition(b.entries, from, kind);
      b.entries := kept;
      M := M.(boxes := M.boxes[key := kept]);
    }

    /** A delivery, for callers that do not follow single boxes. */
    method Receive(key: string, env: Envelope)
      requires Valid()
      modifies Repr
      ensures Valid() && fresh(Repr - old(Repr)) && old(Repr) <= Repr
      ensures M == Apply(old(M), maxPer, Op.Deliver(key, env))
    {
      hide Apply;
      var _ := Deliver(key, env);
    }

    /** The two drains that do not wait; without a filter everything is taken. */
    method Take(key: string, from: string, kind: string) returns (out: seq<Entry>)
      requires Valid()
      modifies Repr
      ensures Valid() && Repr == old(Repr) && M == Apply(old(M), maxPer, Op.DrainMatching(key, from, kind))
      ensures out == Result(old(M), Op.DrainMatching(key, from, kind))
      ensures forall e :: e in Queue(old(M), key) <==> e in out || e in Queue(M, key)
      ensures forall e :: e in out ==> (from != "" ==> e.env.from == from) && (kind != "" ==> e.env.kind == kind)
      ensures forall e :: e in Queue(M, key) ==>
                (from != "" && e.env.from != from) || (kind != "" && e.env.kind != kind)
    {
      hide Apply, Result;
      DrainAll(M, maxPer, key);
      DrainFields(M, maxPer, key, from, kind);
      if from == "" && kind == "" {
        out := Drain(key);
      } else {
        out := DrainMatching(key, from, kind);
      }
    }

    method DeleteBox(key: string)
      requires Valid()
      modifies this`boxes, this`M
      ensures Valid() && M == Apply(old(M), maxPer, Op.DeleteBox(key))
      ensures boxes == map k | k in old(boxes) && k != key :: old(boxes)[k]
    {
      boxes := map k | k in boxes && k != key :: boxes[k];
      M := Without(M, key);
    }

    method DeleteSession(sid: string)
      requires Valid()
      modifies this`boxes, this`M
      ensures Valid() && M == Apply(old(M), maxPer, Op.DeleteSession(sid))
      ensures boxes == map k | k in old(boxes) && !HasPrefix(k, sid + "/") :: old(boxes)[k]
    {
      hide HasPrefix;
      var prefix := sid + "/";
      var todo := boxes.Keys;
      while todo != {}
        invariant todo <= old(boxes).Keys
        invariant boxes == map k | k in old(boxes) && (k in todo || !HasPrefix(k, prefix)) :: old(boxes)[k]
        modifies this`boxes
        decreases todo
      {
        var key :| key in todo;
        if HasPrefix(key, prefix) {
          boxes := boxes - {key};
        }
        todo := todo - {key};
      }
      M := WithoutPrefix(M, prefix);
    }

    method Len(key: string) returns (n: nat)
      requires Valid()
      ensures n == |Queue(M, key)|
    {
      if key !in boxes {
        return 0;
      }
      n := |boxes[key].entries|;
    }

    /** Copies every box's entries for persistence. */
    method Snapshot() returns (out: map<string, seq<Entry>>)
      requires Valid()
      ensures out == M.boxes
    {
      out := map[];
      var todo := boxes.Keys;
      while todo != {}
        invariant todo <= boxes.Keys
        invariant out == map k | k in M.boxes && k !in todo :: M.boxes[k]
        decreases todo
      {
        var key :| key in todo;
        out := out[key := boxes[key].entries];
        todo := todo - {key};
      }
    }

    /** Replaces all boxes. */
    method Restore(saved: map<string, seq<Entry>>)
      requires Valid()
      modifies this
      ensures Valid() && fresh(Repr - old(Repr))
      ensures M == Mail(saved, old(M.ids))
    {
      hide Valid;
      Forget();
      var todo := saved.Keys;
      while todo != {}
        invariant todo <= saved.Keys
        invariant Valid() && fresh(Repr - old(Repr))
        invariant M == Mail(map k | k in saved && k !in todo :: saved[k], old(M.ids))
        decreases todo
      {
        var key :| key in todo;
        AddBox(key, saved[key]);
        todo := todo - {key};
      }
    }

    method Forget()
      requires Valid()
      modifies this`boxes, this`M
      ensures Valid() && M == Mail(map[], old(M.ids))
    {
      boxes, M := map[], Mail(map[], lastId);
    }

    lemma SameKeys()
      requires Valid()
      ensures boxes.Keys == M.boxes.Keys
    {
    }

    method AddBox(key: string, entries: seq<Entry>)
      requires Valid() && key !in M.boxes
      modifies this`boxes, this`M, this`Repr
      ensures Valid() && fresh(Repr - old(Repr)) && old(Repr) <= Repr
      ensures M == Mail(old(M.boxes)[key := entries], old(M.ids))
    {
      hide Valid;
      SameKeys();
      var b := GetOrCreateBox(key);
      assert M == Mail(old(M.boxes)[key := []], old(M.ids));
      Fill(key, b, entries);
    }

    method Fill(key: string, b: Box, entries: seq<Entry>)
      requires Valid() && key in boxes && boxes[key] == b && key in M.boxes && M.boxes[key] == []
      modifies this`M, b`entries
      ensures Valid() && M == Mail(old(M.boxes)[key := entries], old(M.ids))
    {
      b.entries := b.entries + entries;
      assert b.entries == entries;
      M := M.(boxes := M.boxes[key := entries]);
    }

    /** The wake-up tokens a waiter on `key` that holds box `b` could still consume. */
    ghost function Tokens(key: string, b: Box?): nat
      reads this, boxes.Values, b
    {
      (if b != null && b.changed then 1 else 0) +
      (if key in boxes && boxes[key] != b && boxes[key].changed then 1 else 0)
    }

    /** For a poll that has not slept yet that is the one its box may hold. */
    lemma TokensAtFirst(key: string)
      ensures Tokens(key, null) == if key in boxes && boxes[key].changed then 1 else 0
    {
    }

    /** One operation of another client of the store. */
    method Perform(op: Op, ghost key: string, ghost b: Box?)
      requires Valid() && (b != null ==> b in Repr && b.key == key)
      modifies Repr
      ensures Valid() && fresh(Repr - old(Repr)) && old(Repr) <= Repr
      ensures M == Apply(old(M), maxPer, op)
      ensures Tokens(key, b) <= old(Tokens(key, b)) + if op.Deliver? && op.key == key then 1 else 0
    {
      hide Apply, Tokens;
      match op {
        case Deliver(k, env) => DeliverOther(k, env, key, b);
        case Drain(_) => DrainOther(op, key, b);
        case DrainMatching(_, _, _) => DrainOther(op, key, b);
        case DeleteBox(_) => DeleteOther(op, key, b);
        case DeleteSession(_) => DeleteOther(op, key, b);
        case Open(_) => WaitOther(op, key, b);
        case TakeToken(_) => WaitOther(op, key, b);
      }
    }

    method DrainOther(op: Op, ghost key: string, ghost b: Box?)
      requires Valid() && (b != null ==> b in Repr && b.key == key) && (op.Drain? || op.DrainMatching?)
      modifies this`M, (set k | k in boxes && k == op.key :: boxes[k])`entries
      ensures Valid() && M == Apply(old(M), maxPer, op)
      ensures Tokens(key, b) == old(Tokens(key, b))
    {
      hide Apply;
      if op.Drain? {
        var _ := Drain(op.key);
      } else {
        var _ := DrainMatching(op.key, op.from, op.kind);
      }
    }

    method WaitOther(op: Op, ghost key: string, ghost b: Box?)
      requires Valid() && (b != null ==> b in Repr && b.key == key) && (op.Open? || op.TakeToken?)
      modifies Repr
      ensures Valid() && fresh(Repr - old(Repr)) && old(Repr) <= Repr
      ensures M == Apply(old(M), maxPer, op)
      ensures Tokens(key, b) <= old(Tokens(key, b))
    {
      hide Apply;
      if op.Open? {
        var _ := OpenBox(op.key);
      } else {
        TakeToken(op.key);
      }
    }

    method DeliverOther(k: string, env: Envelope, ghost key: string, ghost b: Box?)
      requires Valid() && (b != null ==> b in Repr && b.key == key)
      modifies Repr
      ensures Valid() && fresh(Repr - old(Repr)) && old(Repr) <= Repr
      ensures M == Apply(old(M), maxPer, Op.Deliver(k, env))
      ensures Tokens(key, b) <= old(Tokens(key, b)) + if k == key then 1 else 0
    {
      hide Apply;
      var _ := Deliver(k, env);
    }

    method DeleteOther(op: Op, ghost key: string, ghost b: Box?)
      requires Valid() && (b != null ==> b in Repr && b.key == key) && (op.DeleteBox? || op.DeleteSession?)
      modifies this`boxes, this`M
      ensures Valid() && M == Apply(old(M), maxPer, op)
      ensures Tokens(key, b) <= old(Tokens(key, b))
    {
      hide Apply, HasPrefix;
      if op.DeleteBox? {
        DeleteBox(op.key);
      } else {
        DeleteSession(op.sid);
      }
    }

    method OpenBox(key: string) returns (b: Box)
      requires Valid()
      modifies this`boxes, this`M, this`Repr
      ensures Valid() && fresh(Repr - old(Repr)) && old(Repr) <= Repr
      ensures boxes == old(boxes)[key := b]
      ensures if key in old(boxes) then b == old(boxes[key]) else fresh(b) && !b.changed
      ensures M == Apply(old(M), maxPer, Open(key))
      ensures b in Repr && b.key == key && Tokens(key, b) == old(Tokens(key, null))
    {
      b := GetOrCreateBox(key);
      assert key in boxes && boxes[key] == b;
    }

    method TakeToken(key: string)
      requires Valid()
      modifies (set k | k in boxes && k == key :: boxes[k])`changed
      ensures Valid() && M == Apply(old(M), maxPer, Op.TakeToken(key))
      ensures key in boxes ==> !boxes[key].changed
    {
      if key in boxes {
        boxes[key].changed := false;
      }
    }

    method PerformAll(ops: seq<Op>, ghost key: string, ghost b: Box?, ghost start: Mail, ghost before: seq<Op>)
      requires Valid() && (b != null ==> b in Repr && b.key == key)
      requires Same(M, RunFrom(start, maxPer, before))
      modifies Repr
      ensures Valid() && fresh(Repr - old(Repr)) && old(Repr) <= Repr
      ensures Same(M, RunFrom(start, maxPer, before + ops))
      ensures Tokens(key, b) + Deliveries(before, key) <= old(Tokens(key, b)) + Deliveries(before + ops, key)
    {
      hide Filter, Newest, HasPrefix, Apply, Same, RunFrom, Deliveries;
      assert before + ops[..0] == before;
      for i := 0 to |ops|
        invariant Valid() && fresh(Repr - old(Repr)) && old(Repr) <= Repr
        invariant Same(M, RunFrom(start, maxPer, before + ops[..i]))
        invariant Tokens(key, b) + Deliveries(before, key) <= old(Tokens(key, b)) + Deliveries(before + ops[..i], key)
      {
        SameApply(M, RunFrom(start, maxPer, before + ops[..i]), maxPer, ops[i]);
        RunFromStep(start, maxPer, before + ops[..i], ops[i]);
        assert before + ops[..i + 1] == before + ops[..i] + [ops[i]];
        Perform(ops[i], key, b);
      }
      assert ops[..|ops|] == ops;
    }

    /** The waiter's side of the select: take the token if it was the channel that woke it. */
    method Wake(ghost key: string, b: Box, token: bool) returns (took: bool)
      requires Valid() && b in Repr && b.key == key
      modifies b`changed
      ensures Valid() && (took ==> token)
      ensures Tokens(key, null) + (if took then 1 else 0) <= old(Tokens(key, b))
    {
      took := token && b.changed;
      if took {
        b.changed := false;
      }
    }

    /** One sleep of a long poll: wait on the box's channel or for the timer, while others work. */
    method Sleep(key: string, remaining: nat, now: nat, round: Round, ghost start: Mail, ghost before: seq<Op>)
      returns (woken: nat, took: bool)
      requires Valid() && remaining > 0 && Same(M, RunFrom(start, maxPer, before))
      modifies Repr
      ensures Valid() && fresh(Repr - old(Repr)) && old(Repr) <= Repr
      ensures Same(M, RunFrom(start, maxPer, before + round.during))
      ensures Tokens(key, null) + (if took then 1 else 0) + Deliveries(before, key)
              <= old(Tokens(key, null)) + Deliveries(before + round.during, key)
      ensures woken >= now && (!took ==> Slept(now, now + remaining, woken))
      ensures woken <= Max(now + if remaining < POLL_TICK then remaining else POLL_TICK, round.wake)
      ensures took ==> round.token
    {
      hide Filter, Newest, HasPrefix, Apply, Same, RunFrom, Deliveries, Tokens;
      OpenSameAs(M, RunFrom(start, maxPer, before), maxPer, key);
      var b := OpenBox(key);
      var sleep := if remaining < POLL_TICK then remaining else POLL_TICK;
      PerformAll(round.during, key, b, start, before);
      took := Wake(key, b, round.token);
      woken := Max(if took then now else now + sleep, round.wake);
    }

    /** The rest of an iteration after a drain that found nothing: read the clock, and give up or sleep. */
    method Pause(key: string, now: nat, deadline: int, round: Round, ghost start: Mail, ghost before: seq<Op>)
      returns (expired: bool, clock: nat, took: bool)
      requires Valid() && Same(M, RunFrom(start, maxPer, before))
      modifies Repr
      ensures Valid() && fresh(Repr - old(Repr)) && old(Repr) <= Repr
      ensures expired == (Max(now, round.read) >= deadline)
      ensures expired ==> !took && clock == Max(now, round.read) && Same(M, RunFrom(start, maxPer, before + round.gap))
      ensures !expired ==> Same(M, RunFrom(start, maxPer, before + round.gap + round.during))
      ensures !expired ==> Tokens(key, null) + (if took then 1 else 0) + Deliveries(before, key)
                           <= old(Tokens(key, null)) + Deliveries(before + round.gap + round.during, key)
      ensures took ==> round.token && clock >= now
      ensures !expired ==> var read := Max(now, round.read);
                           read <= clock <= Max(read + POLL_TICK, round.wake)
                           && clock <= Max(deadline, round.wake)
      ensures !expired && !took ==> clock > now && Slept(Max(now, round.read), deadline, clock)
    {
      hide Filter, Newest, HasPrefix, Apply, Same, RunFrom, Deliveries;
      PerformAll(round.gap, key, null, start, before);
      var read := Max(now, round.read);
      var remaining := deadline - read;
      expired := remaining <= 0;
      if expired {
        return expired, read, false;
      }
      clock, took := Sleep(key, remaining, read, round, start, before + round.gap);
    }

    /** One drain of a long poll, seen from what the others have done so far. */
    method Attempt(key: string, from: string, kind: string, ghost start: Mail, ghost ops: seq<Op>)
      returns (out: seq<Entry>)
      requires Valid() && Same(M, RunFrom(start, maxPer, ops))
      modifies this`M, (set k | k in boxes && k == key :: boxes[k])`entries
      ensures Valid() && Tokens(key, null) == old(Tokens(key, null))
      ensures var seen, op := RunFrom(start, maxPer, ops), Op.DrainMatching(key, from, kind);
              && out == Result(seen, op)
              && Same(M, if out == [] then seen else Apply(seen, maxPer, op))
    {
      hide Apply, Same, RunFrom, Result;
      DrainSame(M, RunFrom(start, maxPer, ops), maxPer, key, from, kind);
      out := DrainMatching(key, from, kind);
    }

    /** DrainMatching with long-polling: holds up to `wait` for a matching entry. `start` is the clock when the
        call is made. */
    method DrainMatchingWait(key: string, from: string, kind: string, wait: int, start: nat, rounds: seq<Round>)
      returns (out: seq<Entry>, now: nat, drainedAt: nat, iterations: nat, ghost takes: nat, ghost asleep: nat)
      requires Valid()
      modifies Repr
      ensures Valid() && fresh(Repr - old(Repr)) && old(Repr) <= Repr
      // the whole call is equivalent to what the others did, followed by one drain; no earlier look found anything
      ensures iterations >= 1
      ensures var seen := RunFrom(old(M), maxPer, OpsOf(rounds, iterations - 1));
              && out == Result(seen, Op.DrainMatching(key, from, kind))
              && (out != [] ==> Same(M, Apply(seen, maxPer, Op.DrainMatching(key, from, kind))))
              && (out == [] ==> Same(M, RunFrom(old(M), maxPer,
                                 OpsOf(rounds, iterations - 1) + RoundAt(rounds, iterations - 1).gap)))
      ensures NothingBefore(old(M), maxPer, Op.DrainMatching(key, from, kind), rounds, iterations)
      // told by the fields: what is returned was asked for, and what the last look saw and left was not
      ensures forall e :: e in out ==> (from != "" ==> e.env.from == from) && (kind != "" ==> e.env.kind == kind)
      ensures out != [] ==> forall e :: e in Queue(M, key) ==>
                (from != "" && e.env.from != from) || (kind != "" && e.env.kind != kind)
      ensures var seen := RunFrom(old(M), maxPer, OpsOf(rounds, iterations - 1));
              out == [] ==> forall e :: e in Queue(seen, key) ==>
                (from != "" && e.env.from != from) || (kind != "" && e.env.kind != kind)
      ensures Timed(rounds, start, wait, iterations, out == [], now, drainedAt, asleep)
      // it ends after at most one iteration per timer tick and per token, plus one
      ensures iterations <= Ticks(wait) + takes + 1
      ensures takes <= old(Tokens(key, null)) + Deliveries(OpsOf(rounds, iterations - 1), key)
    {
      hide Filter, Newest, HasPrefix, Apply, Same, RunFrom, Deliveries, Result, Ticks, TimerBound, Slept, Tokens, Timed,
          Polled, NothingBefore;
      ghost var initial, tokens := M, Tokens(key, null);
      var deadline := start + wait;
      now, iterations, takes, asleep := start, 0, 0, 0;
      TimerStart(start, wait);
      ghost var timeouts := 0;
      ghost var ops := [];
      NothingRun(M, maxPer);
      PollStarts(rounds, start, wait, M, maxPer, Op.DrainMatching(key, from, kind));
      while true
        invariant Valid() && fresh(Repr - old(Repr)) && old(Repr) <= Repr
        invariant ops == OpsOf(rounds, iterations)
        invariant Same(M, RunFrom(initial, maxPer, ops))
        invariant NothingBefore(initial, maxPer, Op.DrainMatching(key, from, kind), rounds, iterations + 1)
        invariant iterations == timeouts + takes && Polled(rounds, start, wait, iterations, asleep, now)
        invariant TimerBound(timeouts, now, start, wait)
        invariant takes + Tokens(key, null) <= tokens + Deliveries(ops, key)
        decreases if iterations < |rounds| then |rounds| - iterations else 0,
                  if deadline > now then deadline - now else 0
      {
        TimerLimit(timeouts, now, start, wait);
        out := Attempt(key, from, kind, initial, ops);
        LookedAt(RunFrom(initial, maxPer, ops), M, maxPer, key, from, kind);
        drainedAt := now;
        iterations := iterations + 1;
        if out != [] {
          PollEnds(rounds, start, wait, iterations, asleep, now, false, now);
          return;
        }
        NothingAgain(initial, maxPer, Op.DrainMatching(key, from, kind), rounds, iterations);
        var round := RoundAt(rounds, iterations - 1);
        var expired, clock, took := Pause(key, now, deadline, round, initial, ops);
        if expired {
          PollEnds(rounds, start, wait, iterations, asleep, now, true, clock);
          now := clock;
          return;
        }
        ops := ops + round.gap + round.during;
        PollSleeps(rounds, start, wait, iterations, asleep, now, Max(now, round.read), clock);
        asleep := Max(now, round.read);
        if took {
          TimerLater(timeouts, now, start, wait, clock);
          takes := takes + 1;
        } else {
          TimerStep(timeouts, now, start, wait, asleep, clock);
          timeouts := timeouts + 1;
        }
        now := clock;
      }
    }
  }

  lemma LookedAt(seen: Mail, m: Mail, max: nat, key: string, from: string, kind: string)
    ensures var op := Op.DrainMatching(key, from, kind);
            && (forall e :: e in Result(seen, op) ==>
                  (from != "" ==> e.env.from == from) && (kind != "" ==> e.env.kind == kind))
            && (Result(seen, op) == [] ==> forall e :: e in Queue(seen, key) ==>
                  (from != "" && e.env.from != from) || (kind != "" && e.env.kind != kind))
            && (Same(m, Apply(seen, max, op)) ==> forall e :: e in Queue(m, key) ==>
                  (from != "" && e.env.from != from) || (kind != "" && e.env.kind != kind))
  {
    hide Apply, Result, Matches;
    DrainFields(seen, max, key, from, kind);
  }

  /** The waiter that fell asleep at `asleep` runs again. */
  predicate Woken(r: Round, deadline: int, asleep: nat, now: nat) {
    r.read <= asleep <= now && now <= Max(asleep + POLL_TICK, r.wake) && now <= Max(deadline, r.wake)
  }

  /** A poll has slept `iterations` times, and looks again at `now`. */
  ghost predicate Polled(rounds: seq<Round>, start: nat, wait: int, iterations: nat, asleep: nat, now: nat) {
    && (iterations == 0 ==> now == start) && now >= start
    && (forall i :: 0 <= i < iterations ==> RoundAt(rounds, i).read < start + wait)
    && (iterations > 0 ==> Woken(RoundAt(rounds, iterations - 1), start + wait, asleep, now))
  }

  lemma PollStarts(rounds: seq<Round>, start: nat, wait: int, m: Mail, max: nat, op: Op)
    ensures Polled(rounds, start, wait, 0, 0, start) && NothingBefore(m, max, op, rounds, 1)
  {
  }

  lemma PollSleeps(rounds: seq<Round>, start: nat, wait: int, iterations: nat, before: nat, drainedAt: nat,
      asleep: nat, now: nat)
    requires iterations >= 1 && Polled(rounds, start, wait, iterations - 1, before, drainedAt) && drainedAt <= now
    requires RoundAt(rounds, iterations - 1).read < start + wait
    requires Woken(RoundAt(rounds, iterations - 1), start + wait, asleep, now)
    ensures Polled(rounds, start, wait, iterations, asleep, now)
  {
  }

  lemma PollEnds(rounds: seq<Round>, start: nat, wait: int, iterations: nat, asleep: nat, drainedAt: nat,
      nothing: bool, now: nat)
    requires iterations >= 1 && Polled(rounds, start, wait, iterations - 1, asleep, drainedAt)
    requires nothing ==> now >= start + wait && now == Max(drainedAt, RoundAt(rounds, iterations - 1).read)
    ensures Timed(rounds, start, wait, iterations, nothing, now, drainedAt, asleep)
  {
  }

  lemma NothingAgain(m: Mail, max: nat, op: Op, rounds: seq<Round>, iterations: nat)
    requires iterations >= 1 && NothingBefore(m, max, op, rounds, iterations)
    requires Result(RunFrom(m, max, OpsOf(rounds, iterations - 1)), op) == []
    ensures NothingBefore(m, max, op, rounds, iterations + 1)
  {
    hide Result, RunFrom;
  }

  /** A timer sleep from `read` lasts at least a tick, or until the deadline. */
  predicate Slept(read: int, deadline: int, woken: int) {
    woken >= read + if deadline - read < POLL_TICK then deadline - read else POLL_TICK
  }

  /** Every timer wake-up but the last used up a full tick before the deadline. */
  ghost predicate TimerBound(timeouts: nat, now: nat, start: nat, wait: int) {
    && now >= start
    && (timeouts > 0 ==> POLL_TICK * (timeouts - 1) < wait)
    && (POLL_TICK * timeouts <= now - start || now >= start + wait)
  }

  lemma TimerStart(start: nat, wait: int)
    ensures TimerBound(0, start, start, wait)
  {
  }

  lemma TimerLater(timeouts: nat, now: nat, start: nat, wait: int, later: nat)
    requires TimerBound(timeouts, now, start, wait) && now <= later
    ensures TimerBound(timeouts, later, start, wait)
  {
  }

  lemma TimerStep(timeouts: nat, now: nat, start: nat, wait: int, read: nat, woken: nat)
    requires TimerBound(timeouts, now, start, wait) && now <= read < start + wait && Slept(read, start + wait, woken)
    ensures TimerBound(timeouts + 1, woken, start, wait)
  {
  }

  /** The smallest number of ticks that covers the wait. */
  lemma TicksCover(wait: int)
    ensures wait <= 0 ==> Ticks(wait) == 0
    ensures wait > 0 ==> 500 * (Ticks(wait) - 1) < wait <= 500 * Ticks(wait)
  {
  }

  lemma TimerLimit(timeouts: nat, now: nat, start: nat, wait: int)
    requires TimerBound(timeouts, now, start, wait)
    ensures timeouts <= Ticks(wait)
  {
  }

  /** Whenever nothing queued matches and the call has to wait, there is a schedule on which the poll returns nothing
      although its last drain ran before the deadline, and a matching entry that arrived just after that drain is left
      queued. */
  method EarlyGiveUp(store: Store, key: string, from: string, kind: string, wait: int, start: nat, env: Envelope)
    returns (out: seq<Entry>, drainedAt: nat)
    requires store.Valid() && wait > 0 && Matches(env, from, kind)
    requires Result(store.M, Op.DrainMatching(key, from, kind)) == []
    modifies store.Repr
    ensures store.Valid() && out == [] && drainedAt < start + wait
    ensures Queue(store.M, key) == Newest(Queue(old(store.M), key) + [Entry(old(store.M).ids + 1, env)], store.maxPer)
  {
    hide RunFrom, Apply, Result, Newest, Ticks, Deliveries, Filter, Matches;
    ghost var m := store.M;
    var rounds := [Round([Op.Deliver(key, env)], start + wait, [], 0, false)];
    var now, iterations;
    ghost var takes, asleep;
    out, now, drainedAt, iterations, takes, asleep := store.DrainMatchingWait(key, from, kind, wait, start, rounds);
    assert iterations == 1 by {
      assert RoundAt(rounds, 0).read == start + wait;
    }
    NothingRun(m, store.maxPer);
    LateDelivery(m, store.maxPer, key, env);
    assert OpsOf(rounds, 0) + RoundAt(rounds, 0).gap == [Op.Deliver(key, env)];
  }

  lemma LateDelivery(m: Mail, max: nat, key: string, env: Envelope)
    ensures Queue(RunFrom(m, max, [Op.Deliver(key, env)]), key) == Newest(Queue(m, key) + [Entry(m.ids + 1, env)], max)
  {
    hide Newest;
    NothingRun(m, max);
    RunFromStep(m, max, [], Op.Deliver(key, env));
    assert [] + [Op.Deliver(key, env)] == [Op.Deliver(key, env)];
  }

  /** The smallest such schedule: a poll of an empty store that waits 10 and leaves one arrival behind. */
  method ExpiredPollLeavesArrival(key: string, env: Envelope) returns (out: seq<Entry>, drainedAt: nat, left: nat)
    ensures out == [] && left == 1 && drainedAt < 10
  {
    var store := new Store(1);
    assert Queue(store.M, key) == [];
    out, drainedAt := EarlyGiveUp(store, key, "", "", 10, 0, env);
    left := store.Len(key);
  }
}
