/** The per-session message history: a sliding window over everything recorded, and catch-up paging. */
module History {
  import opened Sequences
  import opened Envelopes

  predicate Ordered(log: seq<Envelope>) {
    forall i, j :: 0 <= i < j < |log| ==> log[i].number < log[j].number
  }

  function Above(after: int): Envelope -> bool {
    (e: Envelope) => e.number > after
  }

  /** GetHistoryAfter's limit: non-positive means the whole window. */
  function PageSize(limit: int, max: nat): nat {
    if limit <= 0 then max else limit
  }

  function Take<T>(s: seq<T>, n: nat): seq<T> {
    if |s| > n then s[..n] else s
  }

  /** The first entries of `h` above the cursor, at most a page of them. */
  function FirstAbove(h: seq<Envelope>, after: int, limit: int, max: nat): seq<Envelope> {
    Take(Filter(h, Above(after)), PageSize(limit, max))
  }

  /** The places of the entries above the cursor. */
  function PlacesAbove(h: seq<Envelope>, after: int): set<int> {
    set i | 0 <= i < |h| && h[i].number > after
  }

  lemma {:induction false} AboveCount(h: seq<Envelope>, after: int)
    ensures |Filter(h, Above(after))| == |PlacesAbove(h, after)|
  {
    if h == [] {
      assert PlacesAbove(h, after) == {};
    } else {
      var n := |h| - 1;
      AboveCount(h[..n], after);
      assert PlacesAbove(h, after) == PlacesAbove(h[..n], after) + (if h[n].number > after then {n} else {});
    }
  }

  /** Told by the fields: with a limit, a page has as many entries as the limit allows of those above the cursor. */
  lemma PageIsFull(h: seq<Envelope>, after: int, limit: int, max: nat)
    ensures var page, n := FirstAbove(h, after, limit, max), |PlacesAbove(h, after)|;
            && (limit > 0 ==> |page| == if n < limit then n else limit)
            && (limit <= 0 ==> |page| == if n < max then n else max)
            && forall e :: e in page ==> e in h && e.number > after
  {
    hide Filter;
    AboveCount(h, after);
    FilterMembers(h, Above(after));
    var all := Filter(h, Above(after));
    assert forall e :: e in FirstAbove(h, after, limit, max) ==> e in all;
  }

  /** The number of leading entries at or below the cursor. */
  function Cut(h: seq<Envelope>, after: int): (n: nat)
    ensures n <= |h|
    ensures forall i :: 0 <= i < n ==> h[i].number <= after
    ensures n < |h| ==> h[n].number > after
  {
    if h == [] || h[0].number > after then 0 else 1 + Cut(h[1..], after)
  }

  /** In an ordered log, the entries above a cursor form a suffix. */
  lemma AboveIsSuffix(h: seq<Envelope>, after: int)
    requires Ordered(h)
    ensures Filter(h, Above(after)) == h[Cut(h, after)..]
  {
    var n := Cut(h, after);
    assert h == h[..n] + h[n..];
    FilterConcat(h[..n], h[n..], Above(after));
    FilterNone(h[..n], Above(after));
    FilterAll(h[n..], Above(after));
  }

  lemma SliceSlice<T>(s: seq<T>, a: nat, b: nat, c: nat)
    requires a <= |s| && b <= c <= |s| - a
    ensures s[a..][b..c] == s[a + b..a + c]
  {
  }

  /** A page of an ordered list is a contiguous run that starts right above the cursor. */
  lemma PageIsRun(w: seq<Envelope>, cursor: int, limit: int, max: nat) returns (n: nat, m: nat)
    requires Ordered(w)
    ensures n == Cut(w, cursor)
    ensures m == if |w| - n > PageSize(limit, max) then n + PageSize(limit, max) else |w|
    ensures FirstAbove(w, cursor, limit, max) == w[n..m]
  {
    hide Filter, Ordered;
    n := Cut(w, cursor);
    m := if |w| - n > PageSize(limit, max) then n + PageSize(limit, max) else |w|;
    AboveIsSuffix(w, cursor);
    SliceSlice(w, n, 0, m - n);
  }

  lemma CutOfSuffix(log: seq<Envelope>, off: nat, after: int)
    requires Ordered(log) && off <= |log|
    ensures Cut(log, after) >= off ==> Cut(log, after) == off + Cut(log[off..], after)
    ensures Cut(log, after) < off ==> Cut(log[off..], after) == 0
  {
    var n, i := Cut(log, after), Cut(log[off..], after);
    assert off + i < |log| ==> log[off..][i] == log[off + i];
    assert i > 0 ==> log[off..][i - 1] == log[off + i - 1];
  }

  lemma OrderedSuffix(log: seq<Envelope>, off: nat)
    requires Ordered(log) && off <= |log|
    ensures Ordered(log[off..])
  {
  }

  /** Two non-empty runs of an ordered log that start at different places differ. */
  lemma RunsDiffer(log: seq<Envelope>, n: nat, m: nat, i: nat, j: nat)
    requires Ordered(log) && n < m <= |log| && n < i <= j <= |log|
    ensures log[n..m] != log[i..j]
  {
    assert log[n..m][0] == log[n];
    assert i < j ==> log[i..j][0] == log[i];
  }

  lemma SuffixPage(log: seq<Envelope>, off: nat, after: int, limit: int, max: nat)
    requires max >= 1 && Ordered(log) && off <= |log|
    ensures FirstAbove(log[off..], after, limit, max) == FirstAbove(log, after, limit, max)
            <==> Cut(log, after) >= off
  {
    hide FirstAbove, Cut, Ordered;
    OrderedSuffix(log, off);
    var n, m := PageIsRun(log, after, limit, max);
    var i, j := PageIsRun(log[off..], after, limit, max);
    CutOfSuffix(log, off, after);
    SliceSlice(log, off, i, j);
    if n < off {
      RunsDiffer(log, n, m, off + i, off + j);
    }
  }

  /** Reading a page from the window gives the same answer as reading it from the whole log exactly when
      no entry above the cursor has been evicted. */
  lemma WindowPageIsLogPage(log: seq<Envelope>, max: nat, after: int, limit: int)
    requires max >= 1 && Ordered(log)
    ensures FirstAbove(Newest(log, max), after, limit, max) == FirstAbove(log, after, limit, max)
            <==> forall e :: e in Overflow(log, max) ==> e.number <= after
  {
    hide FirstAbove;
    var off := |log| - |Newest(log, max)|;
    var n := Cut(log, after);
    SuffixPage(log, off, after, limit, max);
    if n < off {
      assert Overflow(log, max)[n] == log[n];
    }
  }

  // ---- Catch-up paging -------------------------------------------------------------------------

  /** One call of GetHistoryAfter, made when the session's full log was `log`. */
  datatype Request = Request(log: seq<Envelope>, limit: int)

  datatype Progress = Progress(cursor: int, got: seq<Envelope>)

  function Page(r: Request, max: nat, cursor: int): seq<Envelope> {
    FirstAbove(Newest(r.log, max), cursor, r.limit, max)
  }

  /** A client that asks for one page after another, using the last number it saw as the cursor. */
  function Crawl(reqs: seq<Request>, max: nat, start: int): Progress {
    if reqs == [] then Progress(start, [])
    else
      var p := Crawl(reqs[..|reqs| - 1], max, start);
      var page := Page(reqs[|reqs| - 1], max, p.cursor);
      if page == [] then p else Progress(page[|page| - 1].number, p.got + page)
  }

  /** The log only grows from one request to the next. */
  ghost predicate Growing(reqs: seq<Request>) {
    && (forall i :: 0 <= i < |reqs| ==> Ordered(reqs[i].log))
    && (forall i, j :: 0 <= i <= j < |reqs| ==> reqs[i].log <= reqs[j].log)
  }

  /** A page read from the window is a contiguous run of the log, starting right above the cursor. */
  lemma PageShape(r: Request, max: nat, cursor: int) returns (lo: nat, hi: nat)
    requires max >= 1 && Ordered(r.log)
    ensures lo <= hi <= |r.log| && Page(r, max, cursor) == r.log[lo..hi]
    ensures lo >= |r.log| - |Newest(r.log, max)|
    ensures lo > |r.log| - |Newest(r.log, max)| ==> r.log[lo - 1].number <= cursor
    ensures lo < |r.log| ==> lo < hi && r.log[lo].number > cursor
    ensures hi - lo == PageSize(r.limit, max) || hi == |r.log|
  {
    hide Filter, Cut, FirstAbove, Newest, Ordered;
    var w := Newest(r.log, max);
    var off := |r.log| - |w|;
    NewestSuffix(r.log, max);
    OrderedSuffix(r.log, off);
    var n, m := PageIsRun(w, cursor, r.limit, max);
    lo, hi := off + n, off + m;
    assert n < |w| ==> r.log[lo] == w[n];
    assert n > 0 ==> r.log[lo - 1] == w[n - 1];
    SliceSlice(r.log, off, n, m);
  }

  lemma OrderedJoin(a: seq<Envelope>, log: seq<Envelope>, lo: nat, hi: nat)
    requires Ordered(a) && Ordered(log) && lo < hi <= |log|
    requires a == [] || a[|a| - 1].number < log[lo].number
    ensures Ordered(a + log[lo..hi])
    ensures (a + log[lo..hi])[|a| + hi - lo - 1] == log[hi - 1]
    ensures forall e :: e in a + log[lo..hi] ==>
            e in a || (e in log && log[lo].number <= e.number <= log[hi - 1].number)
  {
    RunMembers(log, lo, hi);
    hide Ordered;
    OrderedBelow(a, if a == [] then 0 else a[|a| - 1].number);
    OrderedRun(log, lo, hi);
    OrderedConcat(a, log[lo..hi], log[lo].number);
  }

  lemma RunMembers(log: seq<Envelope>, lo: nat, hi: nat)
    requires Ordered(log) && lo < hi <= |log|
    ensures forall e :: e in log[lo..hi] ==> e in log && log[lo].number <= e.number <= log[hi - 1].number
  {
    assert forall i :: 0 <= i < hi - lo ==> log[lo..hi][i] == log[lo + i];
  }

  lemma OrderedRun(log: seq<Envelope>, lo: nat, hi: nat)
    requires Ordered(log) && lo <= hi <= |log|
    ensures Ordered(log[lo..hi])
  {
    assert forall i :: 0 <= i < hi - lo ==> log[lo..hi][i] == log[lo + i];
  }

  lemma OrderedBelow(a: seq<Envelope>, top: int)
    requires Ordered(a) && (a != [] ==> a[|a| - 1].number <= top)
    ensures forall i :: 0 <= i < |a| ==> a[i].number <= top
  {
  }

  lemma OrderedConcat(a: seq<Envelope>, b: seq<Envelope>, bound: int)
    requires Ordered(a) && Ordered(b)
    requires forall i :: 0 <= i < |a| ==> a[i].number < bound
    requires forall e :: e in b ==> bound <= e.number
    ensures Ordered(a + b)
  {
    assert forall i :: 0 <= i < |b| ==> b[i] in b;
  }

  lemma CrawlStep(reqs: seq<Request>, max: nat, start: int, p: Progress, lo: nat, hi: nat)
    requires max >= 1 && reqs != []
    requires p == Crawl(reqs[..|reqs| - 1], max, start)
    requires lo <= hi <= |reqs[|reqs| - 1].log|
    requires Page(reqs[|reqs| - 1], max, p.cursor) == reqs[|reqs| - 1].log[lo..hi]
    ensures Crawl(reqs, max, start) ==
            if lo == hi then p else Progress(reqs[|reqs| - 1].log[hi - 1].number, p.got + reqs[|reqs| - 1].log[lo..hi])
  {
    hide Page;
    var page := reqs[|reqs| - 1].log[lo..hi];
    if lo < hi { assert page[|page| - 1] == reqs[|reqs| - 1].log[hi - 1]; }
  }

  lemma CrawlNothing(max: nat, start: int)
    ensures Crawl([], max, start) == Progress(start, [])
  {
  }

  lemma GrowingPrefix(reqs: seq<Request>, m: nat)
    requires Growing(reqs) && m <= |reqs|
    ensures Growing(reqs[..m])
    ensures 0 < m < |reqs| ==> reqs[m - 1].log <= reqs[m].log
  {
  }

  lemma PrefixMembers(a: seq<Envelope>, b: seq<Envelope>)
    requires a <= b
    ensures forall e :: e in a ==> e in b
  {
  }

  /** What has been returned: ordered entries of the log above the start, ending at the cursor. */
  ghost predicate Sound(p: Progress, log: seq<Envelope>, start: int) {
    && Ordered(p.got)
    && start <= p.cursor
    && p.cursor == (if p.got == [] then start else p.got[|p.got| - 1].number)
    && forall e :: e in p.got ==> start < e.number <= p.cursor && e in log
  }

  lemma SoundStep(p: Progress, earlier: seq<Envelope>, log: seq<Envelope>, lo: nat, hi: nat, start: int)
    requires Sound(p, earlier, start) && earlier <= log && Ordered(log)
    requires lo < hi <= |log| && log[lo].number > p.cursor
    ensures Sound(Progress(log[hi - 1].number, p.got + log[lo..hi]), log, start)
  {
    hide Ordered;
    OrderedJoin(p.got, log, lo, hi);
    PrefixMembers(earlier, log);
  }

  lemma SoundLater(p: Progress, earlier: seq<Envelope>, log: seq<Envelope>, start: int)
    requires Sound(p, earlier, start) && earlier <= log
    ensures Sound(p, log, start)
  {
    hide Ordered;
    PrefixMembers(earlier, log);
  }

  function LastLog(reqs: seq<Request>): seq<Envelope> {
    if reqs == [] then [] else reqs[|reqs| - 1].log
  }

  /** Paging never repeats or reorders an entry, and only returns entries of the log above the start. */
  lemma {:induction false} CrawlIsOrdered(reqs: seq<Request>, max: nat, start: int)
    requires max >= 1 && Growing(reqs)
    ensures Sound(Crawl(reqs, max, start), LastLog(reqs), start)
  {
    if reqs == [] {
      CrawlNothing(max, start);
    } else {
      hide Page, Crawl, Newest, PageSize, Sound;
      var m := |reqs| - 1;
      GrowingPrefix(reqs, m);
      assert Ordered(reqs[m].log);
      hide Growing, Ordered;
      CrawlIsOrdered(reqs[..m], max, start);
      var p := Crawl(reqs[..m], max, start);
      var lo, hi := PageShape(reqs[m], max, p.cursor);
      CrawlStep(reqs, max, start, p, lo, hi);
      if lo < hi {
        SoundStep(p, LastLog(reqs[..m]), reqs[m].log, lo, hi, start);
      } else {
        SoundLater(p, LastLog(reqs[..m]), reqs[m].log, start);
      }
    }
  }

  /** Entry `e` had already left the window when request `i` moved the cursor past it. */
  ghost predicate MissedAt(reqs: seq<Request>, max: nat, start: int, i: nat, e: Envelope)
    requires i < |reqs|
  {
    && e in Overflow(reqs[i].log, max)
    && Crawl(reqs[..i], max, start).cursor < e.number <= Crawl(reqs[..i + 1], max, start).cursor
  }

  /** The page that moves the cursor past an entry of its log returns it, unless it has been evicted. */
  lemma PassedOver(r: Request, max: nat, cursor: int, e: Envelope, lo: nat, hi: nat)
    requires max >= 1 && Ordered(r.log) && e in r.log
    requires lo < hi <= |r.log|
    requires lo >= |r.log| - |Newest(r.log, max)|
    requires lo > |r.log| - |Newest(r.log, max)| ==> r.log[lo - 1].number <= cursor
    requires cursor < e.number <= r.log[hi - 1].number
    ensures e in r.log[lo..hi] || e in Overflow(r.log, max)
  {
    hide Newest;
    var k :| 0 <= k < |r.log| && r.log[k] == e;
    if lo <= k {
      assert r.log[lo..hi][k - lo] == e;
    } else {
      assert Overflow(r.log, max)[k] == e;
    }
  }

  /** An entry at or below the number of an old entry was already there with it. */
  lemma OldEntry(earlier: seq<Envelope>, log: seq<Envelope>, last: Envelope, e: Envelope)
    requires Ordered(log) && earlier <= log && last in earlier && e in log && e.number <= last.number
    ensures e in earlier
  {
    var j :| 0 <= j < |earlier| && earlier[j] == last;
    var k :| 0 <= k < |log| && log[k] == e;
    assert log[j] == last;
    assert earlier[k] == e;
  }

  lemma MissedEarlier(reqs: seq<Request>, max: nat, start: int, m: nat, i: nat, e: Envelope)
    requires i < m <= |reqs| && MissedAt(reqs[..m], max, start, i, e)
    ensures MissedAt(reqs, max, start, i, e)
  {
    hide Crawl, Overflow;
    assert reqs[..m][..i] == reqs[..i] && reqs[..m][..i + 1] == reqs[..i + 1];
  }

  /** The last request of a crawl either returns an entry it moves the cursor past, or finds it evicted. */
  lemma LastPageDecides(reqs: seq<Request>, max: nat, start: int, m: nat, e: Envelope)
    requires max >= 1 && reqs != [] && m == |reqs| - 1 && Ordered(reqs[m].log) && e in reqs[m].log
    requires Crawl(reqs[..m], max, start).cursor < e.number <= Crawl(reqs, max, start).cursor
    ensures e in Crawl(reqs, max, start).got || MissedAt(reqs, max, start, m, e)
  {
    hide Page, Crawl, Newest, Overflow, PageSize, Ordered;
    var p := Crawl(reqs[..m], max, start);
    var lo, hi := PageShape(reqs[m], max, p.cursor);
    CrawlStep(reqs, max, start, p, lo, hi);
    PassedOver(reqs[m], max, p.cursor, e, lo, hi);
    assert reqs[..m + 1] == reqs;
  }

  lemma CrawlKeeps(reqs: seq<Request>, max: nat, start: int, m: nat, e: Envelope)
    requires reqs != [] && m == |reqs| - 1 && e in Crawl(reqs[..m], max, start).got
    ensures e in Crawl(reqs, max, start).got
  {
    hide Page;
  }

  /** Paging skips an entry only if it was evicted before the cursor reached it. */
  lemma {:induction false} CrawlIsComplete(reqs: seq<Request>, max: nat, start: int, e: Envelope)
    requires max >= 1 && Growing(reqs) && reqs != []
    requires e in reqs[|reqs| - 1].log && start < e.number <= Crawl(reqs, max, start).cursor
    ensures e in Crawl(reqs, max, start).got || exists i: nat :: i < |reqs| && MissedAt(reqs, max, start, i, e)
  {
    hide Page, Crawl, Newest, MissedAt;
    var m := |reqs| - 1;
    var before := reqs[..m];
    GrowingPrefix(reqs, m);
    assert Ordered(reqs[m].log);
    hide Growing, Ordered;
    var p := Crawl(before, max, start);
    CrawlIsOrdered(before, max, start);
    if e.number > p.cursor {
      LastPageDecides(reqs, max, start, m, e);
    } else {
      OldEntry(reqs[m - 1].log, reqs[m].log, p.got[|p.got| - 1], e);
      CrawlIsComplete(before, max, start, e);
      if e in p.got {
        CrawlKeeps(reqs, max, start, m, e);
      } else {
        var i: nat :| i < m && MissedAt(before, max, start, i, e);
        MissedEarlier(reqs, max, start, m, i, e);
      }
    }
  }

  lemma SliceJoin<T>(s: seq<T>, a: nat, b: nat, c: nat)
    requires a <= b <= c <= |s|
    ensures s[a..b] + s[b..c] == s[a..c]
  {
  }

  /** The place where the numbers of an ordered window pass a cursor is unique. */
  lemma SamePlace(log: seq<Envelope>, off: nat, cursor: int, a: nat, b: nat)
    requires Ordered(log) && off <= a <= |log| && off <= b <= |log|
    requires (a > off ==> log[a - 1].number <= cursor) && (a < |log| ==> log[a].number > cursor)
    requires (b > off ==> log[b - 1].number <= cursor) && (b < |log| ==> log[b].number > cursor)
    ensures a == b
  {
  }

  lemma CursorPlace(log: seq<Envelope>, off: nat, start: int, first: nat, end: nat)
    requires Ordered(log) && off <= first <= end <= |log|
    requires (first > off ==> log[first - 1].number <= start) && (first < |log| ==> log[first].number > start)
    ensures var cursor := if end == first then start else log[end - 1].number;
            (end > off ==> log[end - 1].number <= cursor) && (end < |log| ==> log[end].number > cursor)
  {
  }

  /** Where a crawl of an unchanging log stands: everything in log[first..end] has been returned. */
  lemma {:induction false} FixedCrawlRun(log: seq<Envelope>, reqs: seq<Request>, max: nat, start: int, first: nat)
    returns (end: nat)
    requires max >= 1 && Ordered(log) && forall i :: 0 <= i < |reqs| ==> reqs[i].log == log
    requires |log| - |Newest(log, max)| <= first <= |log|
    requires first > |log| - |Newest(log, max)| ==> log[first - 1].number <= start
    requires first < |log| ==> log[first].number > start
    ensures first <= end <= |log|
    ensures Crawl(reqs, max, start) == Progress(if end == first then start else log[end - 1].number, log[first..end])
    ensures end - first >= |reqs| || end == |log|
  {
    hide Page, Newest, Crawl, Ordered, PageSize;
    if reqs == [] {
      CrawlNothing(max, start);
      assert log[first..first] == [];
      return first;
    }
    var m := |reqs| - 1;
    var k := FixedCrawlRun(log, reqs[..m], max, start, first);
    var p := Crawl(reqs[..m], max, start);
    var lo;
    lo, end := PageShape(reqs[m], max, p.cursor);
    CursorPlace(log, |log| - |Newest(log, max)|, start, first, k);
    SamePlace(log, |log| - |Newest(log, max)|, p.cursor, lo, k);
    CrawlStep(reqs, max, start, p, lo, end);
    SliceJoin(log, first, k, end);
  }

  /** On a history that does not change, every page makes progress until nothing is left: after at most as
      many pages as there are entries above the start, whatever their sizes, all of them have been returned. */
  lemma FixedCrawl(log: seq<Envelope>, reqs: seq<Request>, max: nat, start: int)
    requires max >= 1 && Ordered(log) && forall i :: 0 <= i < |reqs| ==> reqs[i].log == log
    ensures var all := Filter(Newest(log, max), Above(start));
            var got := Crawl(reqs, max, start).got;
            got <= all && (|got| >= |reqs| || got == all)
  {
    hide Filter, Cut, Newest, Crawl, Ordered;
    var w := Newest(log, max);
    var off := |log| - |w|;
    NewestSuffix(log, max);
    var first := off + Cut(w, start);
    OrderedSuffix(log, off);
    AboveIsSuffix(w, start);
    SliceSlice(log, off, first - off, |w|);
    assert first < |log| ==> log[first] == w[first - off];
    assert first > off ==> log[first - 1] == w[first - off - 1];
    var end := FixedCrawlRun(log, reqs, max, start, first);
    SliceSlice(log, first, 0, end - first);
  }
}
