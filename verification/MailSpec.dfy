/** What the mailbox store means: named drop-oldest queues, and where every delivered entry ends up. */
module MailSpec {
  import opened Sequences
  import opened Envelopes

  datatype Entry = Entry(id: nat, env: Envelope)

  /** `ids` is the last entry id handed out. */
  datatype Mail = Mail(boxes: map<string, seq<Entry>>, ids: nat)

  datatype Op =
    | Deliver(key: string, env: Envelope)
    | Drain(key: string)
    | DrainMatching(key: string, from: string, kind: string)
    | DeleteBox(key: string)
    | DeleteSession(sid: string)
    | Open(key: string)            // a long-poll waiter creates the box it waits on
    | TakeToken(key: string)       // another waiter consumes the box's wake-up token

  const EmptyMail := Mail(map[], 0)

  /** An empty filter field matches everything. */
  predicate Matches(env: Envelope, from: string, kind: string) {
    (from == "" || env.from == from) && (kind == "" || env.kind == kind)
  }

  function Wanted(from: string, kind: string): Entry -> bool {
    (e: Entry) => Matches(e.env, from, kind)
  }

  function Unwanted(from: string, kind: string): Entry -> bool {
    (e: Entry) => !Matches(e.env, from, kind)
  }

  function Queue(m: Mail, key: string): seq<Entry> {
    if key in m.boxes then m.boxes[key] else []
  }

  function Without(m: Mail, key: string): Mail {
    m.(boxes := map k | k in m.boxes && k != key :: m.boxes[k])
  }

  /** strings.HasPrefix */
  predicate HasPrefix(s: string, prefix: string) {
    prefix <= s
  }

  function WithoutPrefix(m: Mail, prefix: string): Mail {
    m.(boxes := map k | k in m.boxes && !HasPrefix(k, prefix) :: m.boxes[k])
  }

  function Apply(m: Mail, max: nat, op: Op): Mail {
    match op
    case Deliver(key, env) =>
      Mail(m.boxes[key := Newest(Queue(m, key) + [Entry(m.ids + 1, env)], max)], m.ids + 1)
    case Drain(key) =>
      if key in m.boxes then m.(boxes := m.boxes[key := []]) else m
    case DrainMatching(key, from, kind) =>
      if key in m.boxes then m.(boxes := m.boxes[key := Filter(m.boxes[key], Unwanted(from, kind))]) else m
    case DeleteBox(key) => Without(m, key)
    case DeleteSession(sid) => WithoutPrefix(m, sid + "/")
    case Open(key) => if key in m.boxes then m else m.(boxes := m.boxes[key := []])
    case TakeToken(key) => m
  }

  /** What the caller of a drain receives. */
  function Result(m: Mail, op: Op): seq<Entry> {
    match op
    case Drain(key) => Queue(m, key)
    case DrainMatching(key, from, kind) => Filter(Queue(m, key), Wanted(from, kind))
    case _ => []
  }

  /** The entries pushed out by the cap. */
  function Dropped(m: Mail, max: nat, op: Op): seq<Entry> {
    match op
    case Deliver(key, env) =>
      Overflow(Queue(m, key) + [Entry(m.ids + 1, env)], max)
    case _ => []
  }

  predicate Deletes(op: Op, key: string) {
    match op
    case DeleteBox(k) => k == key
    case DeleteSession(sid) => HasPrefix(key, sid + "/")
    case _ => false
  }

  predicate HasId(q: seq<Entry>, id: nat) {
    exists i :: 0 <= i < |q| && q[i].id == id
  }

  function RunFrom(m: Mail, max: nat, ops: seq<Op>): Mail {
    if ops == [] then m
    else Apply(RunFrom(m, max, ops[..|ops| - 1]), max, ops[|ops| - 1])
  }

  function Run(max: nat, ops: seq<Op>): Mail {
    RunFrom(EmptyMail, max, ops)
  }

  // ---- Conservation ----------------------------------------------------------------------------

  /** Where an entry is; `at` is the index of the operation that took it out of its queue. */
  datatype Place = Unborn | Queued(key: string) | Drained(at: nat) | Evicted(at: nat) | Removed(at: nat)

  function Moved(m: Mail, max: nat, op: Op, at: nat, id: nat, p: Place): Place {
    if p.Unborn? then
      if op.Deliver? && id == m.ids + 1 then Queued(op.key) else p
    else if p.Queued? then
      if op.Deliver? && op.key == p.key && HasId(Dropped(m, max, op), id) then Evicted(at)
      else if op.Drain? && op.key == p.key then Drained(at)
      else if op.DrainMatching? && op.key == p.key && HasId(Result(m, op), id) then Drained(at)
      else if Deletes(op, p.key) then Removed(at)
      else p
    else p
  }

  /** The entry's place after a run, following it through the operations. */
  function PlaceOf(max: nat, ops: seq<Op>, id: nat): Place {
    if ops == [] then Unborn
    else
      var n := |ops| - 1;
      Moved(Run(max, ops[..n]), max, ops[n], n, id, PlaceOf(max, ops[..n], id))
  }

  /** Every queue holds increasing ids that have been handed out. */
  ghost predicate WellNumbered(m: Mail, max: nat) {
    forall k :: k in m.boxes ==> |m.boxes[k]| <= max && Numbered(m.boxes[k], m.ids)
  }

  ghost predicate Numbered(q: seq<Entry>, ids: nat) {
    && (forall i, j :: 0 <= i < j < |q| ==> q[i].id < q[j].id)
    && (forall i :: 0 <= i < |q| ==> 1 <= q[i].id <= ids)
  }

  lemma NumberedAppend(f: seq<Entry>, r: seq<Entry>, x: Entry, ids: nat)
    requires Numbered(f, ids) && Numbered(r + [x], ids) && forall e :: e in f ==> e in r
    ensures Numbered(f + [x], ids)
  {
    forall i | 0 <= i < |f|
      ensures f[i].id < x.id
    {
      assert f[i] in r;
      var j :| 0 <= j < |r| && r[j] == f[i];
      assert (r + [x])[j].id < (r + [x])[|r|].id;
    }
    assert (r + [x])[|r|] == x;
  }

  lemma NumberedPrefix(q: seq<Entry>, n: nat, ids: nat)
    requires Numbered(q, ids) && n <= |q|
    ensures Numbered(q[..n], ids) && Numbered(q[n..], ids)
  {
  }

  lemma {:induction false} FilterNumbered(q: seq<Entry>, ids: nat, p: Entry -> bool)
    requires Numbered(q, ids)
    ensures Numbered(Filter(q, p), ids)
  {
    hide Numbered;
    if q != [] {
      var r := q[..|q| - 1];
      NumberedPrefix(q, |q| - 1, ids);
      FilterNumbered(r, ids, p);
      FilterMembers(r, p);
      assert r + [q[|q| - 1]] == q;
      NumberedAppend(Filter(r, p), r, q[|q| - 1], ids);
      assert Filter(r, p) + [] == Filter(r, p);
    }
  }

  lemma DeliverNumbered(q: seq<Entry>, ids: nat, max: nat, env: Envelope)
    requires Numbered(q, ids)
    ensures Numbered(q + [Entry(ids + 1, env)], ids + 1)
    ensures Numbered(Newest(q + [Entry(ids + 1, env)], max), ids + 1)
  {
  }

  lemma SetNumbered(m: Mail, max: nat, key: string, q: seq<Entry>, ids: nat)
    requires WellNumbered(m, max) && |q| <= max && Numbered(q, ids) && m.ids <= ids <= m.ids + 1
    ensures WellNumbered(Mail(m.boxes[key := q], ids), max)
  {
    if ids > m.ids {
      MoreIds(m, max);
    }
    hide Numbered;
  }

  lemma QueueNumbered(m: Mail, max: nat, key: string)
    requires WellNumbered(m, max)
    ensures Numbered(Queue(m, key), m.ids) && |Queue(m, key)| <= max
  {
  }

  lemma RemoveNumbered(m: Mail, max: nat, key: string, prefix: string)
    requires WellNumbered(m, max)
    ensures WellNumbered(Without(m, key), max) && WellNumbered(WithoutPrefix(m, prefix), max)
  {
    hide Numbered, HasPrefix;
  }

  lemma ApplyNumbered(m: Mail, max: nat, op: Op)
    requires WellNumbered(m, max)
    ensures WellNumbered(Apply(m, max, op), max)
  {
    hide Numbered, Filter, Newest, WellNumbered, Without, WithoutPrefix;
    NumberedNothing(m.ids);
    match op {
      case Deliver(key, env) =>
        QueueNumbered(m, max, key);
        DeliverNumbered(Queue(m, key), m.ids, max, env);
        SetNumbered(m, max, key, Newest(Queue(m, key) + [Entry(m.ids + 1, env)], max), m.ids + 1);
      case Drain(key) =>
        SetNumbered(m, max, key, [], m.ids);
      case DrainMatching(key, from, kind) =>
        QueueNumbered(m, max, key);
        FilterNumbered(Queue(m, key), m.ids, Unwanted(from, kind));
        SetNumbered(m, max, key, Filter(Queue(m, key), Unwanted(from, kind)), m.ids);
      case DeleteBox(key) =>
        RemoveNumbered(m, max, key, "");
      case DeleteSession(sid) =>
        RemoveNumbered(m, max, "", sid + "/");
      case Open(key) =>
        SetNumbered(m, max, key, [], m.ids);
      case TakeToken(key) =>
    }
  }

  lemma NumberedNothing(ids: nat)
    ensures Numbered([], ids)
  {
  }

  lemma MoreIds(m: Mail, max: nat)
    requires WellNumbered(m, max)
    ensures forall k :: k in m.boxes ==> Numbered(m.boxes[k], m.ids + 1)
  {
  }

  lemma {:induction false} RunNumbered(max: nat, ops: seq<Op>)
    ensures WellNumbered(Run(max, ops), max)
  {
    if ops != [] {
      RunNumbered(max, ops[..|ops| - 1]);
      ApplyNumbered(Run(max, ops[..|ops| - 1]), max, ops[|ops| - 1]);
    }
  }

  // ---- Every entry is in exactly one place -------------------------------------------------------

  lemma SplitIds(q: seq<Entry>, d: nat, id: nat, ids: nat)
    requires Numbered(q, ids) && d <= |q|
    ensures HasId(q, id) <==> (HasId(q[..d], id) || HasId(q[d..], id))
    ensures !(HasId(q[..d], id) && HasId(q[d..], id))
  {
    if i :| 0 <= i < |q| && q[i].id == id {
      if i < d {
        assert q[..d][i].id == id;
      } else {
        assert q[d..][i - d].id == id;
      }
    }
  }

  lemma SameId(q: seq<Entry>, ids: nat, a: Entry, b: Entry)
    requires Numbered(q, ids) && a in q && b in q && a.id == b.id
    ensures a == b
  {
  }

  lemma FilterIds(q: seq<Entry>, from: string, kind: string, id: nat, ids: nat)
    requires Numbered(q, ids)
    ensures var w, u := Filter(q, Wanted(from, kind)), Filter(q, Unwanted(from, kind));
            && (HasId(q, id) <==> HasId(w, id) || HasId(u, id))
            && !(HasId(w, id) && HasId(u, id))
  {
    var w, u := Filter(q, Wanted(from, kind)), Filter(q, Unwanted(from, kind));
    FilterMembers(q, Wanted(from, kind));
    FilterMembers(q, Unwanted(from, kind));
    hide Numbered, Filter;
    if i :| 0 <= i < |q| && q[i].id == id {
      assert q[i] in q;
      if Wanted(from, kind)(q[i]) { MemberHasId(w, q[i]); } else { MemberHasId(u, q[i]); }
    }
    if HasId(w, id) {
      var a := FindId(w, id);
      MemberHasId(q, a);
      if HasId(u, id) {
        var b := FindId(u, id);
        SameId(q, ids, a, b);
      }
    } else if HasId(u, id) {
      var b := FindId(u, id);
      MemberHasId(q, b);
    }
  }

  lemma MemberHasId(q: seq<Entry>, e: Entry)
    requires e in q
    ensures HasId(q, e.id)
  {
  }

  lemma FindId(q: seq<Entry>, id: nat) returns (e: Entry)
    requires HasId(q, id)
    ensures e in q && e.id == id
  {
    var i :| 0 <= i < |q| && q[i].id == id;
    e := q[i];
  }

  /** `p` says truthfully where the entry is in the present store. */
  ghost predicate Located(m: Mail, id: nat, p: Place) {
    && (p.Unborn? <==> id == 0 || id > m.ids)
    && forall k :: HasId(Queue(m, k), id) <==> p == Queued(k)
  }

  lemma LastId(q: seq<Entry>, d: nat, id: nat)
    requires d < |q| && q[|q| - 1].id == id
    ensures HasId(q[d..], id)
  {
    assert q[d..][|q| - 1 - d].id == id;
  }

  lemma AppendedIds(q: seq<Entry>, x: Entry, id: nat)
    ensures HasId(q + [x], id) <==> HasId(q, id) || id == x.id
  {
    var all := q + [x];
    assert all[|q|] == x;
    if i :| 0 <= i < |q| && q[i].id == id {
      assert all[i].id == id;
    }
  }

  lemma PushIds(q: seq<Entry>, x: Entry, max: nat, id: nat)
    requires max >= 1 && Numbered(q + [x], x.id)
    ensures HasId(Newest(q + [x], max), id) <==> (HasId(q, id) || id == x.id) && !HasId(Overflow(q + [x], max), id)
    ensures HasId(Overflow(q + [x], max), id) ==> HasId(q, id)
  {
    hide Numbered, HasId;
    var all := q + [x];
    var d := |Overflow(all, max)|;
    SplitIds(all, d, id, x.id);
    AppendedIds(q, x, id);
    LastId(all, d, x.id);
    SplitIds(all, d, x.id, x.id);
  }

  /** One delivery: the queue gains the new id and loses exactly the ids that were dropped. */
  lemma DeliverIds(m: Mail, max: nat, op: Op, id: nat)
    requires max >= 1 && WellNumbered(m, max) && op.Deliver?
    ensures HasId(Queue(Apply(m, max, op), op.key), id) <==>
            (HasId(Queue(m, op.key), id) || id == m.ids + 1) && !HasId(Dropped(m, max, op), id)
    ensures HasId(Dropped(m, max, op), id) ==> HasId(Queue(m, op.key), id)
  {
    hide Numbered, Newest, Overflow, WellNumbered, HasId, Without, WithoutPrefix, Filter, HasPrefix;
    var q := Queue(m, op.key);
    var x := Entry(m.ids + 1, op.env);
    QueueNumbered(m, max, op.key);
    DeliverNumbered(q, m.ids, max, op.env);
    PushIds(q, x, max, id);
  }

  lemma DeliverLocated(m: Mail, max: nat, op: Op, at: nat, id: nat, p: Place)
    requires max >= 1 && WellNumbered(m, max) && op.Deliver? && Located(m, id, p)
    ensures Located(Apply(m, max, op), id, Moved(m, max, op, at, id, p))
    ensures HasId(Dropped(m, max, op), id) ==> p == Queued(op.key)
  {
    hide HasId, Dropped, Newest, WellNumbered, Without, WithoutPrefix, Filter, HasPrefix;
    DeliverIds(m, max, op, id);
    assert forall k :: k != op.key ==> Queue(Apply(m, max, op), k) == Queue(m, k);
  }

  lemma DrainLocated(m: Mail, max: nat, op: Op, at: nat, id: nat, p: Place)
    requires WellNumbered(m, max) && (op.Drain? || op.DrainMatching?) && Located(m, id, p)
    ensures Located(Apply(m, max, op), id, Moved(m, max, op, at, id, p))
    ensures HasId(Result(m, op), id) ==> p == Queued(op.key)
  {
    hide WellNumbered, Numbered, Filter, Without, WithoutPrefix, Newest;
    QueueNumbered(m, max, op.key);
    if op.DrainMatching? {
      FilterIds(Queue(m, op.key), op.from, op.kind, id, m.ids);
    }
    assert forall k :: k != op.key ==> Queue(Apply(m, max, op), k) == Queue(m, k);
  }

  lemma OtherLocated(m: Mail, max: nat, op: Op, at: nat, id: nat, p: Place)
    requires !op.Deliver? && !op.Drain? && !op.DrainMatching? && Located(m, id, p)
    ensures Located(Apply(m, max, op), id, Moved(m, max, op, at, id, p))
    ensures HasId(Result(m, op), id) ==> false
  {
    hide HasPrefix;
  }

  /** Entry `id` left its queue for a reader, by the cap, or with its box, at operation n. */
  predicate ReturnedAt(max: nat, ops: seq<Op>, n: nat, id: nat)
    requires n < |ops|
  {
    HasId(Result(Run(max, ops[..n]), ops[n]), id)
  }

  predicate DroppedAt(max: nat, ops: seq<Op>, n: nat, id: nat)
    requires n < |ops|
  {
    HasId(Dropped(Run(max, ops[..n]), max, ops[n]), id)
  }

  ghost predicate DeletedAt(max: nat, ops: seq<Op>, n: nat, id: nat)
    requires n < |ops|
  {
    exists k :: Deletes(ops[n], k) && HasId(Queue(Run(max, ops[..n]), k), id)
  }

  /** Operation n took the entry out of its queue exactly if the place says so. */
  ghost predicate Decided(max: nat, ops: seq<Op>, n: nat, id: nat, p: Place)
    requires n < |ops|
  {
    && (ReturnedAt(max, ops, n, id) <==> p == Drained(n))
    && (DroppedAt(max, ops, n, id) <==> p == Evicted(n))
    && (DeletedAt(max, ops, n, id) <==> p == Removed(n))
  }

  predicate Earlier(p: Place, n: nat) {
    p.Drained? || p.Evicted? || p.Removed? ==> p.at < n
  }

  /** How a place may change at operation n. */
  predicate Follows(p: Place, p': Place, n: nat) {
    p' == p || (p.Unborn? && p'.Queued?) || (p.Queued? && !Earlier(p', n) && Earlier(p', n + 1))
  }

  /** The place of an entry is the only place where it can be found. */
  ghost predicate OnlyPlace(max: nat, ops: seq<Op>, id: nat) {
    var p := PlaceOf(max, ops, id);
    && Located(Run(max, ops), id, p)
    && Earlier(p, |ops|)
    && forall n :: 0 <= n < |ops| ==> Decided(max, ops, n, id, p)
  }

  /** What one operation does to one entry. */
  lemma MoveDecides(m: Mail, max: nat, op: Op, at: nat, id: nat, p: Place)
    requires max >= 1 && WellNumbered(m, max) && Located(m, id, p)
    requires Earlier(p, at)
    ensures var p' := Moved(m, max, op, at, id, p);
            && Located(Apply(m, max, op), id, p')
            && (HasId(Result(m, op), id) <==> p' == Drained(at))
            && (HasId(Dropped(m, max, op), id) <==> p' == Evicted(at))
            && ((exists k :: Deletes(op, k) && HasId(Queue(m, k), id)) <==> p' == Removed(at))
            && Follows(p, p', at)
            && Earlier(p', at + 1)
  {
    hide WellNumbered, Filter, Newest, HasPrefix, Apply, Queue;
    if op.Deliver? {
      DeliverLocated(m, max, op, at, id, p);
    } else if op.Drain? || op.DrainMatching? {
      DrainLocated(m, max, op, at, id, p);
    } else {
      OtherLocated(m, max, op, at, id, p);
    }
    DrainResult(m, op);
  }

  lemma DrainResult(m: Mail, op: Op)
    ensures op.Drain? ==> Result(m, op) == Queue(m, op.key)
  {
  }

  lemma LastApplied(max: nat, ops: seq<Op>)
    requires ops != []
    ensures Run(max, ops) == Apply(Run(max, ops[..|ops| - 1]), max, ops[|ops| - 1])
  {
  }

  lemma EarlierDecided(max: nat, ops: seq<Op>, n: nat, id: nat, p: Place, p': Place)
    requires n < |ops| - 1 && Decided(max, ops[..|ops| - 1], n, id, p)
    requires Follows(p, p', |ops| - 1)
    ensures Decided(max, ops, n, id, p')
  {
    hide Run, HasId, Result, Dropped, Deletes;
    assert ops[..|ops| - 1][..n] == ops[..n];
  }

  lemma LastDecided(max: nat, ops: seq<Op>, id: nat, p: Place)
    requires ops != [] && max >= 1
    requires var m := Run(max, ops[..|ops| - 1]);
             WellNumbered(m, max) && Located(m, id, p) && Earlier(p, |ops| - 1)
    ensures var p' := Moved(Run(max, ops[..|ops| - 1]), max, ops[|ops| - 1], |ops| - 1, id, p);
            && Located(Run(max, ops), id, p')
            && Decided(max, ops, |ops| - 1, id, p')
            && Earlier(p', |ops|)
            && Follows(p, p', |ops| - 1)
  {
    hide Run, Apply, HasId, Result, Dropped, Located, WellNumbered, Deletes, Queue, Moved, Follows, Earlier;
    LastApplied(max, ops);
    MoveDecides(Run(max, ops[..|ops| - 1]), max, ops[|ops| - 1], |ops| - 1, id, p);
  }

  lemma NothingPlaced(max: nat, id: nat)
    ensures OnlyPlace(max, [], id)
  {
  }

  /** Conservation: over any run with competing consumers every delivered entry is in exactly one place:
      still queued, in exactly one drain's result, evicted by the cap, or removed with its box. */
  lemma {:induction false} EveryEntryInOnePlace(max: nat, ops: seq<Op>, id: nat)
    requires max >= 1
    ensures OnlyPlace(max, ops, id)
  {
    hide Run, Apply, Moved, HasId, Located, WellNumbered, Decided, Earlier, Follows;
    NothingPlaced(max, id);
    if ops != [] {
      var n := |ops| - 1;
      EveryEntryInOnePlace(max, ops[..n], id);
      RunNumbered(max, ops[..n]);
      var p := PlaceOf(max, ops[..n], id);
      LastDecided(max, ops, id, p);
      forall i: nat | i < n
        ensures Decided(max, ops, i, id, PlaceOf(max, ops, id))
      {
        EarlierDecided(max, ops, i, id, p, PlaceOf(max, ops, id));
      }
    }
  }

  // ---- Each box is the newest part of its undrained deliveries -----------------------------------

  function NotIn(r: seq<Entry>): Entry -> bool {
    (e: Entry) => e !in r
  }

  predicate Drains(op: Op, key: string) {
    (op.Drain? || op.DrainMatching?) && op.key == key
  }

  /** The deliveries to `key` since its box was last deleted that no drain has returned, in delivery order.
      This ignores the cap altogether. */
  function Undrained(max: nat, ops: seq<Op>, key: string): seq<Entry> {
    if ops == [] then []
    else
      var n := |ops| - 1;
      var op, m, u := ops[n], Run(max, ops[..n]), Undrained(max, ops[..n], key);
      if op.Deliver? && op.key == key then u + [Entry(m.ids + 1, op.env)]
      else if Deletes(op, key) then []
      else if Drains(op, key) then Filter(u, NotIn(Result(m, op)))
      else u
  }

  /** `u` is what was lost to the cap followed by what is still queued. */
  ghost predicate Tail(u: seq<Entry>, q: seq<Entry>, lost: seq<Entry>, ids: nat) {
    u == lost + q && Numbered(u, ids)
  }

  lemma TailDeliver(u: seq<Entry>, q: seq<Entry>, lost: seq<Entry>, ids: nat, env: Envelope, max: nat)
    requires Tail(u, q, lost, ids)
    ensures var x := Entry(ids + 1, env);
            Tail(u + [x], Newest(q + [x], max), lost + Overflow(q + [x], max), ids + 1)
  {
    hide Numbered, Newest, Overflow;
    var x := Entry(ids + 1, env);
    DeliverNumbered(u, ids, max, env);
    assert lost + q + [x] == lost + (q + [x]);
    assert lost + (Overflow(q + [x], max) + Newest(q + [x], max)) == lost + Overflow(q + [x], max) + Newest(q + [x],
        max);
  }

  lemma DisjointParts(a: seq<Entry>, b: seq<Entry>, ids: nat, e: Entry)
    requires Numbered(a + b, ids) && e in a
    ensures e !in b
  {
    var i :| 0 <= i < |a| && a[i] == e;
    assert (a + b)[i] == e;
    assert forall j :: 0 <= j < |b| ==> (a + b)[|a| + j] == b[j];
  }

  lemma TailDrain(u: seq<Entry>, q: seq<Entry>, lost: seq<Entry>, ids: nat, p: Entry -> bool, n: Entry -> bool)
    requires Tail(u, q, lost, ids) && forall e :: n(e) == !p(e)
    ensures Tail(Filter(u, NotIn(Filter(q, p))), Filter(q, n), lost, ids)
  {
    hide Numbered, Filter;
    var r := Filter(q, p);
    FilterMembers(q, p);
    FilterConcat(lost, q, NotIn(r));
    forall e | e in lost
      ensures NotIn(r)(e)
    {
      DisjointParts(lost, q, ids, e);
    }
    FilterAll(lost, NotIn(r));
    FilterAgree(q, NotIn(r), n);
    FilterNumbered(u, ids, NotIn(r));
  }

  lemma FilterEverything(q: seq<Entry>)
    ensures Filter(q, (e: Entry) => true) == q && Filter(q, (e: Entry) => false) == []
  {
    hide Filter;
    FilterAll(q, (e: Entry) => true);
    FilterNone(q, (e: Entry) => false);
  }

  lemma MoreIdsTail(u: seq<Entry>, q: seq<Entry>, lost: seq<Entry>, ids: nat)
    requires Tail(u, q, lost, ids)
    ensures Tail(u, q, lost, ids + 1)
  {
  }

  function Lost(max: nat, ops: seq<Op>, key: string): seq<Entry> {
    if ops == [] then []
    else
      var n := |ops| - 1;
      var lost := Lost(max, ops[..n], key);
      if Deletes(ops[n], key) then []
      else if ops[n].Deliver? && ops[n].key == key then lost + Dropped(Run(max, ops[..n]), max, ops[n])
      else lost
  }

  lemma TailStepDeliver(m: Mail, max: nat, op: Op, u: seq<Entry>, lost: seq<Entry>)
    requires op.Deliver? && Tail(u, Queue(m, op.key), lost, m.ids)
    ensures Tail(u + [Entry(m.ids + 1, op.env)], Queue(Apply(m, max, op), op.key),
                 lost + Dropped(m, max, op), m.ids + 1)
  {
    hide Tail, Newest, Overflow;
    TailDeliver(u, Queue(m, op.key), lost, m.ids, op.env, max);
  }

  lemma TailStepDrain(m: Mail, max: nat, op: Op, key: string, u: seq<Entry>, lost: seq<Entry>)
    requires Drains(op, key) && Tail(u, Queue(m, key), lost, m.ids)
    ensures Tail(Filter(u, NotIn(Result(m, op))), Queue(Apply(m, max, op), key), lost, m.ids)
  {
    hide Tail, Filter;
    var q := Queue(m, key);
    if op.Drain? {
      FilterEverything(q);
      TailDrain(u, q, lost, m.ids, (e: Entry) => true, (e: Entry) => false);
    } else {
      TailDrain(u, q, lost, m.ids, Wanted(op.from, op.kind), Unwanted(op.from, op.kind));
    }
  }

  lemma TailStepOther(m: Mail, max: nat, op: Op, key: string, u: seq<Entry>, lost: seq<Entry>)
    requires Tail(u, Queue(m, key), lost, m.ids)
    requires !(op.Deliver? && op.key == key) && !Deletes(op, key) && !Drains(op, key)
    ensures Tail(u, Queue(Apply(m, max, op), key), lost, Apply(m, max, op).ids)
  {
    hide Tail, Filter, Newest, HasPrefix;
    MoreIdsTail(u, Queue(m, key), lost, m.ids);
    assert Queue(Apply(m, max, op), key) == Queue(m, key);
  }

  lemma NoTail(m: Mail, max: nat, op: Op, key: string)
    requires Deletes(op, key)
    ensures Tail([], Queue(Apply(m, max, op), key), [], Apply(m, max, op).ids)
  {
  }

  /** Whatever the interleaving of deliveries and competing drains, a box is the newest part of its undrained
      deliveries, in order: nothing is missing from it but the oldest ones, which the cap dropped. */
  lemma {:induction false} BoxIsNewestUndrained(max: nat, ops: seq<Op>, key: string)
    ensures Tail(Undrained(max, ops, key), Queue(Run(max, ops), key), Lost(max, ops, key), Run(max, ops).ids)
    ensures |Queue(Run(max, ops), key)| <= max
  {
    hide Tail, Run, Apply, Filter, Dropped, Numbered, WellNumbered, Deletes, Queue, Result;
    RunNumbered(max, ops);
    QueueNumbered(Run(max, ops), max, key);
    if ops == [] {
      NothingUndrained(max, key);
    } else {
      var n := |ops| - 1;
      var m, u, lost := Run(max, ops[..n]), Undrained(max, ops[..n], key), Lost(max, ops[..n], key);
      BoxIsNewestUndrained(max, ops[..n], key);
      LastApplied(max, ops);
      if ops[n].Deliver? && ops[n].key == key {
        TailStepDeliver(m, max, ops[n], u, lost);
        DeliverCounts(m, max, ops[n]);
      } else if Deletes(ops[n], key) {
        NoTail(m, max, ops[n], key);
      } else if Drains(ops[n], key) {
        TailStepDrain(m, max, ops[n], key, u, lost);
        DrainCounts(m, max, ops[n]);
      } else {
        TailStepOther(m, max, ops[n], key, u, lost);
      }
    }
  }

  lemma DeliverCounts(m: Mail, max: nat, op: Op)
    requires op.Deliver?
    ensures Apply(m, max, op).ids == m.ids + 1 && !Deletes(op, op.key)
  {
  }

  lemma DrainCounts(m: Mail, max: nat, op: Op)
    requires op.Drain? || op.DrainMatching?
    ensures Apply(m, max, op).ids == m.ids && !Deletes(op, op.key)
  {
  }

  lemma NothingUndrained(max: nat, key: string)
    ensures Tail(Undrained(max, [], key), Queue(Run(max, []), key), Lost(max, [], key), Run(max, []).ids)
  {
  }

  /** What a box lacks of its undrained deliveries has been evicted. */
  lemma {:induction false} LostIsEvicted(max: nat, ops: seq<Op>, key: string, e: Entry)
    requires max >= 1 && e in Lost(max, ops, key)
    ensures PlaceOf(max, ops, e.id).Evicted?
  {
    hide Run, Dropped, Located, Decided;
    EveryEntryInOnePlace(max, ops, e.id);
    var n := |ops| - 1;
    if e in Lost(max, ops[..n], key) {
      LostIsEvicted(max, ops[..n], key, e);
    } else {
      MemberHasId(Dropped(Run(max, ops[..n]), max, ops[n]), e);
      assert DroppedAt(max, ops, n, e.id);
      DroppedMeansEvicted(max, ops, n, e.id);
    }
  }

  lemma DroppedMeansEvicted(max: nat, ops: seq<Op>, n: nat, id: nat)
    requires n < |ops| && OnlyPlace(max, ops, id) && DroppedAt(max, ops, n, id)
    ensures PlaceOf(max, ops, id) == Evicted(n)
  {
    hide Run, PlaceOf;
    assert Decided(max, ops, n, id, PlaceOf(max, ops, id));
  }

  // ---- Equivalence up to boxes that exist but are empty -------------------------------------------

  /** Two stores no reader or writer of messages can tell apart. */
  ghost predicate Same(a: Mail, b: Mail) {
    a.ids == b.ids && forall k :: Queue(a, k) == Queue(b, k)
  }

  lemma SameApply(a: Mail, b: Mail, max: nat, op: Op)
    requires Same(a, b)
    ensures Same(Apply(a, max, op), Apply(b, max, op)) && Result(a, op) == Result(b, op)
  {
    hide Filter, Newest, HasPrefix;
    forall k
      ensures Queue(Apply(a, max, op), k) == Queue(Apply(b, max, op), k)
    {
      assert Queue(a, k) == Queue(b, k);
    }
  }

  lemma SameTrans(a: Mail, b: Mail, c: Mail)
    requires Same(a, b) && Same(b, c)
    ensures Same(a, c)
  {
  }

  lemma OpenSame(m: Mail, max: nat, key: string)
    ensures Same(Apply(m, max, Open(key)), m)
  {
  }

  /** A filtered drain that finds nothing leaves every queue as it was. */
  lemma EmptyDrainSame(m: Mail, max: nat, key: string, from: string, kind: string)
    requires Result(m, DrainMatching(key, from, kind)) == []
    ensures Same(Apply(m, max, DrainMatching(key, from, kind)), m)
  {
    hide Filter;
    FilterMembers(Queue(m, key), Wanted(from, kind));
    FilterAll(Queue(m, key), Unwanted(from, kind));
  }

  /** A drain sees no difference between equivalent stores, and leaves them equivalent. */
  /** Told by the fields: a filtered drain takes what bears the sender and the kind asked for, as far as they are given,
      and leaves what differs in one of them. */
  lemma DrainFields(m: Mail, max: nat, key: string, from: string, kind: string)
    ensures var op := DrainMatching(key, from, kind);
            var out, left := Result(m, op), Queue(Apply(m, max, op), key);
            && (forall e :: e in Queue(m, key) <==> e in out || e in left)
            && (forall e :: e in out ==> (from != "" ==> e.env.from == from) && (kind != "" ==> e.env.kind == kind))
            && (forall e :: e in left ==> (from != "" && e.env.from != from) || (kind != "" && e.env.kind != kind))
  {
    hide Filter;
    FilterMembers(Queue(m, key), Wanted(from, kind));
    FilterMembers(Queue(m, key), Unwanted(from, kind));
  }

  lemma DrainSame(a: Mail, b: Mail, max: nat, key: string, from: string, kind: string)
    requires Same(a, b)
    ensures var op := DrainMatching(key, from, kind);
            && Result(a, op) == Result(b, op)
            && Same(Apply(a, max, op), Apply(b, max, op))
            && (Result(a, op) == [] ==> Same(Apply(a, max, op), b))
  {
    hide Same, Apply, Result;
    var op := DrainMatching(key, from, kind);
    SameApply(a, b, max, op);
    if Result(a, op) == [] {
      EmptyDrainSame(a, max, key, from, kind);
      SameTrans(Apply(a, max, op), a, b);
    }
  }

  lemma OpenSameAs(a: Mail, b: Mail, max: nat, key: string)
    requires Same(a, b)
    ensures Same(Apply(a, max, Open(key)), b)
  {
    hide Same, Apply;
    OpenSame(a, max, key);
    SameTrans(Apply(a, max, Open(key)), a, b);
  }

  lemma NothingRun(m: Mail, max: nat)
    ensures RunFrom(m, max, []) == m && Same(m, m) && forall key :: Deliveries([], key) == 0
  {
  }

  function Deliveries(ops: seq<Op>, key: string): nat {
    if ops == [] then 0
    else Deliveries(ops[..|ops| - 1], key) + (if ops[|ops| - 1].Deliver? && ops[|ops| - 1].key == key then 1 else 0)
  }

  predicate DeliversTo(op: Op, key: string) {
    op.Deliver? && op.key == key
  }

  lemma {:induction false} DeliveriesCount(ops: seq<Op>, key: string)
    ensures Deliveries(ops, key) == |set i | 0 <= i < |ops| && DeliversTo(ops[i], key)|
  {
    if ops != [] {
      var n := |ops| - 1;
      DeliveriesCount(ops[..n], key);
      DeliveriesStep(ops, key);
      hide DeliversTo, Deliveries;
      assert (set i | 0 <= i < |ops| && DeliversTo(ops[i], key)) ==
             (set i | 0 <= i < n && DeliversTo(ops[..n][i], key)) + (if DeliversTo(ops[n], key) then {n} else {});
    }
  }

  lemma DeliveriesStep(ops: seq<Op>, key: string)
    requires ops != []
    ensures Deliveries(ops, key) ==
            Deliveries(ops[..|ops| - 1], key) + if DeliversTo(ops[|ops| - 1], key) then 1 else 0
  {
  }

  lemma RunFromStep(m: Mail, max: nat, ops: seq<Op>, op: Op)
    ensures RunFrom(m, max, ops + [op]) == Apply(RunFrom(m, max, ops), max, op)
    ensures forall key ::
              Deliveries(ops + [op], key) == Deliveries(ops, key) + (if op.Deliver? && op.key == key then 1 else 0)
  {
    hide Apply;
    assert (ops + [op])[..|ops|] == ops;
  }

  /** An unfiltered drain takes everything, as the filter that matches everything would. */
  lemma DrainAll(m: Mail, max: nat, k: string)
    ensures Apply(m, max, Drain(k)) == Apply(m, max, DrainMatching(k, "", ""))
    ensures Result(m, Drain(k)) == Result(m, DrainMatching(k, "", ""))
  {
    hide Filter;
    var q := Queue(m, k);
    FilterNone(q, Unwanted("", ""));
    FilterAll(q, Wanted("", ""));
  }
}
