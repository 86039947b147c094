/** The session registry: who may use which channel, and when it was last used. */
module Sessions {
  import opened Sequences

  /** `lastActive` is None for Go's zero time, which lies before every instant. */
  datatype Session = Session(id: string, name: string, psk: string, created: nat, lastActive: Option<nat>)

  datatype Found = Rejected | Existing(session: Session) | Created(session: Session)

  /** lastActive.After(cutoff) */
  predicate ActiveAfter(last: Option<nat>, cutoff: int) {
    last.Some? && last.value > cutoff
  }

  /** TouchActivity: the clock of a known session moves forward, never back. */
  function TouchedActivity(m: map<string, Session>, sid: string, at: nat): (r: map<string, Session>)
    ensures r.Keys == m.Keys
    ensures forall k :: k in m ==> r[k] == m[k].(lastActive := r[k].lastActive)
    ensures forall k :: k in m && k != sid ==> r[k] == m[k]
    ensures sid in m ==> r[sid].lastActive.Some? && r[sid].lastActive.value >= at
    ensures sid in m && m[sid].lastActive.Some? ==>
              r[sid].lastActive.value == if at > m[sid].lastActive.value then at else m[sid].lastActive.value
  {
    if sid in m && (m[sid].lastActive.None? || at > m[sid].lastActive.value)
    then m[sid := m[sid].(lastActive := Some(at))] else m
  }

  /** GetOrCreate does not stamp the session it creates: until a member registers it counts as never active. */
  function Opened(m: map<string, Session>, sid: string, psk: string, name: string, now: nat): Found {
    if sid in m then (if m[sid].psk != psk then Rejected else Existing(m[sid]))
    else Created(Session(sid, if name == "" then sid else name, psk, now, None))
  }

  function AfterOpening(m: map<string, Session>, sid: string, f: Found): map<string, Session> {
    if f.Created? then m[sid := f.session] else m
  }

  /** Told by the fields: a session that is there opens for its own key alone and is not changed; a new one has the
      given key, and no other session changes. */
  lemma OpenedFields(m: map<string, Session>, sid: string, psk: string, name: string, now: nat)
    ensures var f := Opened(m, sid, psk, name, now);
            var n := AfterOpening(m, sid, f);
            && (f.Rejected? <==> sid in m && m[sid].psk != psk)
            && (f.Rejected? ==> n == m)
            && (!f.Rejected? ==> n.Keys == m.Keys + {sid} && n[sid].psk == psk)
            && (forall k :: k in m ==> k in n && n[k] == m[k])
            && (sid !in m ==> n[sid].id == sid && n[sid].created == now && n[sid].lastActive.None?
                              && n[sid].name == if name == "" then sid else name)
  {
  }

  class Record {
    const id: string
    const name: string
    const psk: string
    const created: nat
    var lastActive: Option<nat>
    ghost const key: string   // the id it is stored under

    constructor (s: Session)
      ensures id == s.id && name == s.name && psk == s.psk && created == s.created
      ensures lastActive == s.lastActive && key == s.id
    {
      id, name, psk, created, lastActive, key := s.id, s.name, s.psk, s.created, s.lastActive, s.id;
    }

    predicate Is(s: Session)
      reads this
    {
      s == Session(id, name, psk, created, lastActive)
    }
  }

  class Store {
    ghost var Repr: set<object>
    ghost var M: map<string, Session>
    var sessions: map<string, Record>

    ghost predicate Valid()
      reads this, Repr
      ensures Valid() ==> this in Repr
    {
      && this in Repr && M.Keys == sessions.Keys
      && forall k :: k in sessions ==>
           sessions[k] in Repr && sessions[k].key == sessions[k].id == k && sessions[k].Is(M[k])
    }

    constructor ()
      ensures Valid() && fresh(Repr) && M == map[]
    {
      sessions, M, Repr := map[], map[], {this};
    }

    /** The value of a stored session. */
    method Value(k: string) returns (s: Session)
      requires Valid() && k in sessions
      ensures s == M[k] && s.id == k
    {
      var r := sessions[k];
      s := Session(r.id, r.name, r.psk, r.created, r.lastActive);
    }

    method Put(s: Session)
      requires Valid()
      modifies this`sessions, this`M, this`Repr
      ensures Valid() && fresh(Repr - old(Repr)) && old(Repr) <= Repr
      ensures M == old(M)[s.id := s]
    {
      var r := new Record(s);
      sessions := sessions[s.id := r];
      M := M[s.id := s];
      Repr := Repr + {r};
    }

    /** `id` and `psk` are the random values drawn by the call. */
    method Create(id: string, psk: string, name: string, now: nat) returns (s: Session)
      requires Valid()
      modifies this`sessions, this`M, this`Repr
      ensures Valid() && fresh(Repr - old(Repr)) && old(Repr) <= Repr
      ensures s == Session(id, name, psk, now, Some(now)) && M == old(M)[id := s]
    {
      s := Session(id, name, psk, now, Some(now));
      Put(s);
    }

    method GetOrCreate(sid: string, psk: string, name: string, now: nat) returns (f: Found)
      requires Valid()
      modifies this`sessions, this`M, this`Repr
      ensures Valid() && fresh(Repr - old(Repr)) && old(Repr) <= Repr
      ensures f == Opened(old(M), sid, psk, name, now) && M == AfterOpening(old(M), sid, f)
      ensures f.Rejected? <==> sid in old(M) && old(M)[sid].psk != psk
      ensures !f.Rejected? ==> sid in M && M[sid].psk == psk
    {
      if sid in sessions {
        var s := Value(sid);
        if s.psk != psk {
          return Rejected;
        }
        return Existing(s);
      }
      var s := Session(sid, if name == "" then sid else name, psk, now, None);
      Put(s);
      f := Created(s);
    }

    method ValidatePsk(sid: string, psk: string) returns (s: Option<Session>)
      requires Valid()
      ensures s == if sid in M && M[sid].psk == psk then Some(M[sid]) else None
    {
      if sid !in sessions {
        return None;
      }
      var r := Value(sid);
      s := if r.psk != psk then None else Some(r);
    }

    method TouchActivity(sid: string, at: nat) returns (ok: bool)
      requires Valid()
      modifies Repr
      ensures Valid() && Repr == old(Repr) && M == TouchedActivity(old(M), sid, at) && ok == (sid in old(M))
    {
      if sid !in sessions {
        return false;
      }
      var r := sessions[sid];
      if r.lastActive.None? || at > r.lastActive.value {
        r.lastActive := Some(at);
      }
      M := M[sid := M[sid].(lastActive := r.lastActive)];
      forall k | k in sessions
        ensures sessions[k] in Repr && sessions[k].key == sessions[k].id == k && sessions[k].Is(M[k])
      {
        assert k != sid ==> sessions[k] != r;
      }
      ok := true;
    }

    method Delete(id: string) returns (ok: bool)
      requires Valid()
      modifies this`sessions, this`M
      ensures Valid() && M == old(M) - {id} && ok == (id in old(M))
    {
      if id !in sessions {
        return false;
      }
      sessions := sessions - {id};
      M := M - {id};
      ok := true;
    }

    /** Every session, in some order. */
    method Snapshot() returns (out: seq<Session>)
      requires Valid()
      ensures |out| == |M| && Saves(out, M)
      ensures forall i :: 0 <= i < |out| ==> out[i].id in M && out[i] == M[out[i].id]
    {
      out := [];
      var todo := sessions.Keys;
      while todo != {}
        invariant todo <= M.Keys && |out| + |todo| == |M|
        invariant forall k :: k in M && k !in todo ==> M[k] in out
        invariant forall i :: 0 <= i < |out| ==> out[i].id in M && out[i] == M[out[i].id]
        decreases todo
      {
        var k :| k in todo;
        var s := Value(k);
        out := out + [s];
        todo := todo - {k};
      }
    }

    /** Replaces every session; of two with the same id the later one stays. */
    method Restore(list: seq<Session>)
      requires Valid()
      modifies this
      ensures Valid() && fresh(Repr - old(Repr)) && M == ById(list)
    {
      sessions, M := map[], map[];
      for i := 0 to |list|
        invariant Valid() && fresh(Repr - old(Repr)) && M == ById(list[..i])
      {
        Put(list[i]);
        assert list[..i + 1][..i] == list[..i];
      }
      assert list[..|list|] == list;
    }
  }

  /** The registry that a list of sessions restores to. */
  function ById(list: seq<Session>): map<string, Session> {
    if list == [] then map[] else ById(list[..|list| - 1])[list[|list| - 1].id := list[|list| - 1]]
  }

  /** Every session is stored under its own id. */
  ghost predicate IdsMatch(m: map<string, Session>) {
    forall k :: k in m ==> m[k].id == k
  }

  /** `list` holds the sessions of m, in some order. */
  ghost predicate Saves(list: seq<Session>, m: map<string, Session>) {
    && (forall k :: k in m ==> m[k] in list)
    && (forall s :: s in list ==> exists k :: k in m && m[k] == s)
  }

  lemma {:induction false} ByIdHolds(list: seq<Session>)
    ensures IdsMatch(ById(list))
    ensures forall k :: k in ById(list) ==> ById(list)[k] in list
    ensures forall s :: s in list ==> s.id in ById(list)
  {
    if list != [] {
      var n := |list| - 1;
      assert list == list[..n] + [list[n]];
      ByIdHolds(list[..n]);
    }
  }

  /** Of several sessions with one id the last is kept. */
  lemma {:induction false} LastIsKept(list: seq<Session>, i: nat)
    requires i < |list| && forall j :: i < j < |list| ==> list[j].id != list[i].id
    ensures list[i].id in ById(list) && ById(list)[list[i].id] == list[i]
  {
    var n := |list| - 1;
    if i < n {
      LastIsKept(list[..n], i);
    }
  }

  /** Saving and restoring the registry gives it back, whatever the order of the list, exactly if every session
      is stored under its own id. */
  lemma SessionsRoundTrip(list: seq<Session>, m: map<string, Session>)
    requires Saves(list, m)
    ensures ById(list) == m <==> IdsMatch(m)
  {
    ByIdHolds(list);
    if IdsMatch(m) {
      assert forall k :: k in m ==> m[k] in list && m[k].id == k;
      assert forall k :: k in ById(list) ==> ById(list)[k] in list;
    }
  }

  /** Every operation keeps sessions under their own ids. */
  lemma IdsKept(m: map<string, Session>, s: Session, sid: string, at: nat)
    requires IdsMatch(m)
    ensures IdsMatch(m[s.id := s]) && IdsMatch(m - {sid}) && IdsMatch(TouchedActivity(m, sid, at))
  {
  }
}

/** Who leads each session. */
module Leader {

  class Tracker {
    var leaders: map<string, string>

    constructor ()
      ensures leaders == map[]
    {
      leaders := map[];
    }

    method SetInitialLeader(sid: string, aid: string)
      modifies this
      ensures leaders == old(leaders)[sid := aid]
    {
      leaders := leaders[sid := aid];
    }

    method GetLeader(sid: string) returns (id: string, ok: bool)
      ensures ok == (sid in leaders) && id == if sid in leaders then leaders[sid] else ""
    {
      ok := sid in leaders;
      id := if ok then leaders[sid] else "";
    }

    /** Compare and replace: it succeeds exactly for the present leader. */
    method Transfer(sid: string, from: string, to: string) returns (ok: bool)
      modifies this
      ensures ok == (sid in old(leaders) && old(leaders)[sid] == from)
      ensures leaders == if ok then old(leaders)[sid := to] else old(leaders)
    {
      if sid !in leaders || leaders[sid] != from {
        return false;
      }
      leaders := leaders[sid := to];
      ok := true;
    }

    method ClearSession(sid: string)
      modifies this
      ensures leaders == old(leaders) - {sid}
    {
      leaders := leaders - {sid};
    }
  }
}

/** The shared key-value pads, one per session. */
module Scratchpad {
  import opened Sequences
  import opened Envelopes

  type Pads = map<string, map<string, PadEntry>>

  function Pad(pads: Pads, sid: string): map<string, PadEntry> {
    if sid in pads then pads[sid] else map[]
  }

  function Bumped(counts: map<string, nat>, sid: string): map<string, nat> {
    counts[sid := (if sid in counts then counts[sid] else 0) + 1]
  }

  class Store {
    var pads: Pads
    var counts: map<string, nat>

    constructor ()
      ensures pads == map[] && counts == map[]
    {
      pads, counts := map[], map[];
    }

    method Set(sid: string, key: string, value: string, author: string, now: nat) returns (entry: PadEntry)
      modifies this
      ensures entry.key == key && entry.value == value && entry.author == author && entry.at == now
      ensures pads == old(pads)[sid := Pad(old(pads), sid)[key := entry]]
      ensures counts == Bumped(old(counts), sid)
    {
      if sid !in pads {
        pads := pads[sid := map[]];
      }
      entry := PadEntry(key, value, author, now);
      pads := pads[sid := pads[sid][key := entry]];
      counts := Bumped(counts, sid);
    }

    method Get(sid: string, key: string) returns (entry: Option<PadEntry>)
      ensures entry == if key in Pad(pads, sid) then Some(Pad(pads, sid)[key]) else None
    {
      if sid !in pads || key !in pads[sid] {
        return None;
      }
      entry := Some(pads[sid][key]);
    }

    /** An emptied pad stays, as an empty map. */
    method Delete(sid: string, key: string) returns (ok: bool)
      modifies this
      ensures ok == (key in Pad(old(pads), sid))
      ensures pads == if ok then old(pads)[sid := Pad(old(pads), sid) - {key}] else old(pads)
      ensures counts == if ok then Bumped(old(counts), sid) else old(counts)
    {
      if sid !in pads || key !in pads[sid] {
        return false;
      }
      pads := pads[sid := pads[sid] - {key}];
      counts := Bumped(counts, sid);
      ok := true;
    }

    method List(sid: string) returns (out: seq<PadEntry>)
      ensures SavesPad(out, Pad(pads, sid)) && |out| == |Pad(pads, sid)|
    {
      if sid !in pads {
        return [];
      }
      out := ListPad(pads[sid]);
    }

    method ClearSession(sid: string)
      modifies this
      ensures pads == old(pads) - {sid} && counts == old(counts) - {sid}
    {
      pads := pads - {sid};
      counts := counts - {sid};
    }

    method Snapshot() returns (out: map<string, seq<PadEntry>>)
      ensures SavesPads(out, pads) && forall sid :: sid in pads ==> |out[sid]| == |pads[sid]|
    {
      out := map[];
      var todo := pads.Keys;
      while todo != {}
        invariant todo <= pads.Keys && out.Keys == pads.Keys - todo
        invariant forall sid :: sid in out ==> SavesPad(out[sid], pads[sid]) && |out[sid]| == |pads[sid]|
        decreases todo
      {
        var sid :| sid in todo;
        var list := ListPad(pads[sid]);
        out := out[sid := list];
        todo := todo - {sid};
      }
    }

    /** Replaces every pad. */
    method Restore(saved: map<string, seq<PadEntry>>)
      modifies this`pads
      ensures pads == RestoredPads(saved)
    {
      pads := map[];
      var todo := saved.Keys;
      while todo != {}
        invariant todo <= saved.Keys
        invariant pads == map sid | sid in saved && sid !in todo :: ByKey(saved[sid])
        decreases todo
      {
        var sid :| sid in todo;
        var pad := FillPad(saved[sid]);
        pads := pads[sid := pad];
        todo := todo - {sid};
      }
    }
  }

  method ListPad(pad: map<string, PadEntry>) returns (out: seq<PadEntry>)
    ensures SavesPad(out, pad) && |out| == |pad|
  {
    out := [];
    var todo := pad.Keys;
    while todo != {}
      invariant todo <= pad.Keys && |out| + |todo| == |pad|
      invariant forall k :: k in pad && k !in todo ==> pad[k] in out
      invariant forall e :: e in out ==> exists k :: k in pad && pad[k] == e
      decreases todo
    {
      var k :| k in todo;
      out := out + [pad[k]];
      todo := todo - {k};
    }
  }

  method FillPad(list: seq<PadEntry>) returns (pad: map<string, PadEntry>)
    ensures pad == ByKey(list)
  {
    pad := map[];
    for i := 0 to |list|
      invariant pad == ByKey(list[..i])
    {
      pad := pad[list[i].key := list[i]];
      assert list[..i + 1][..i] == list[..i];
    }
    assert list[..|list|] == list;
  }

  /** `list` holds the entries of a pad, in some order. */
  ghost predicate SavesPad(list: seq<PadEntry>, pad: map<string, PadEntry>) {
    && (forall k :: k in pad ==> pad[k] in list)
    && (forall e :: e in list ==> exists k :: k in pad && pad[k] == e)
  }

  ghost predicate SavesPads(saved: map<string, seq<PadEntry>>, pads: Pads) {
    saved.Keys == pads.Keys && forall sid :: sid in pads ==> SavesPad(saved[sid], pads[sid])
  }

  function ByKey(list: seq<PadEntry>): map<string, PadEntry> {
    if list == [] then map[] else ByKey(list[..|list| - 1])[list[|list| - 1].key := list[|list| - 1]]
  }

  function RestoredPads(saved: map<string, seq<PadEntry>>): Pads {
    map sid | sid in saved :: ByKey(saved[sid])
  }

  /** Every entry is stored under its own key. */
  ghost predicate PadsMatch(pads: Pads) {
    forall sid :: sid in pads ==> PadMatches(pads[sid])
  }

  ghost predicate PadMatches(pad: map<string, PadEntry>) {
    forall k :: k in pad ==> pad[k].key == k
  }

  lemma {:induction false} ByKeyHolds(list: seq<PadEntry>)
    ensures PadMatches(ByKey(list))
    ensures forall k :: k in ByKey(list) ==> ByKey(list)[k] in list
    ensures forall e :: e in list ==> e.key in ByKey(list)
  {
    if list != [] {
      var n := |list| - 1;
      assert list == list[..n] + [list[n]];
      ByKeyHolds(list[..n]);
    }
  }

  lemma {:induction false} LastEntryIsKept(list: seq<PadEntry>, i: nat)
    requires i < |list| && forall j :: i < j < |list| ==> list[j].key != list[i].key
    ensures list[i].key in ByKey(list) && ByKey(list)[list[i].key] == list[i]
  {
    var n := |list| - 1;
    if i < n {
      LastEntryIsKept(list[..n], i);
    }
  }

  lemma PadRoundTrip(list: seq<PadEntry>, pad: map<string, PadEntry>)
    requires SavesPad(list, pad)
    ensures ByKey(list) == pad <==> PadMatches(pad)
  {
    ByKeyHolds(list);
    if PadMatches(pad) {
      assert forall k :: k in pad ==> pad[k] in list && pad[k].key == k;
      assert forall k :: k in ByKey(list) ==> ByKey(list)[k] in list;
    }
  }

  /** Saving and restoring the pads gives them back, whatever the order of the lists, exactly if every entry is
      stored under its own key. */
  lemma PadsRoundTrip(saved: map<string, seq<PadEntry>>, pads: Pads)
    requires SavesPads(saved, pads)
    ensures RestoredPads(saved) == pads <==> PadsMatch(pads)
  {
    hide SavesPad, PadMatches, ByKey;
    forall sid | sid in pads
      ensures ByKey(saved[sid]) == pads[sid] <==> PadMatches(pads[sid])
    {
      PadRoundTrip(saved[sid], pads[sid]);
    }
    if RestoredPads(saved) == pads {
      assert forall sid :: sid in pads ==> RestoredPads(saved)[sid] == ByKey(saved[sid]);
    }
  }

  /** Set and Delete keep every entry under its own key. */
  lemma PadsKept(pads: Pads, sid: string, key: string, entry: PadEntry)
    requires PadsMatch(pads) && entry.key == key
    ensures PadsMatch(pads[sid := Pad(pads, sid)[key := entry]])
    ensures PadsMatch(pads[sid := Pad(pads, sid) - {key}])
  {
  }
}
