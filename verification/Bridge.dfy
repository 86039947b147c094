/** A reader that keeps one high-water mark and acts on an event only if its number is above it. */
module Watermark {

  /** `wanted` is false for events that are ignored without moving the mark. */
  datatype Item = Item(wanted: bool, number: int)

  predicate Acts(mark: int, x: Item) {
    x.wanted && (x.number <= 0 || x.number > mark)
  }

  function Moved(mark: int, x: Item): int {
    if Acts(mark, x) && x.number > 0 then x.number else mark
  }

  /** The mark after a stream of events. */
  function MarkAfter(mark: int, xs: seq<Item>): int {
    if xs == [] then mark else Moved(MarkAfter(mark, xs[..|xs| - 1]), xs[|xs| - 1])
  }

  /** How many events of a stream are acted on. */
  function Actions(mark: int, xs: seq<Item>): nat {
    if xs == [] then 0
    else Actions(mark, xs[..|xs| - 1]) + (if Acts(MarkAfter(mark, xs[..|xs| - 1]), xs[|xs| - 1]) then 1 else 0)
  }

  lemma NothingSeen(mark: int)
    ensures MarkAfter(mark, []) == mark && Actions(mark, []) == 0
  {
  }

  lemma NextItem(mark: int, xs: seq<Item>, i: nat)
    requires i < |xs|
    ensures MarkAfter(mark, xs[..i + 1]) == Moved(MarkAfter(mark, xs[..i]), xs[i])
    ensures Actions(mark, xs[..i + 1]) == Actions(mark, xs[..i]) + (if ActsAt(mark, xs, i) then 1 else 0)
  {
    assert xs[..i + 1][..i] == xs[..i];
  }

  predicate ActsAt(mark: int, xs: seq<Item>, i: nat)
    requires i < |xs|
  {
    Acts(MarkAfter(mark, xs[..i]), xs[i])
  }

  /** Every wanted number before position i is smaller than n. */
  ghost predicate TopsAll(xs: seq<Item>, i: nat, n: int)
    requires i <= |xs|
  {
    forall j :: 0 <= j < i && xs[j].wanted ==> xs[j].number < n
  }

  lemma {:induction false} MarkIsMax(mark: int, xs: seq<Item>, n: int)
    requires mark >= 0 && n > 0
    ensures MarkAfter(mark, xs) < n <==> mark < n && TopsAll(xs, |xs|, n)
    ensures MarkAfter(mark, xs) >= mark
  {
    if xs != [] {
      MarkIsMax(mark, xs[..|xs| - 1], n);
    }
  }

  /** The mark never goes back. */
  lemma MarkGrows(mark: int, xs: seq<Item>, i: nat, j: nat)
    requires mark >= 0 && i <= j <= |xs|
    ensures MarkAfter(mark, xs[..i]) <= MarkAfter(mark, xs[..j])
    decreases j - i
  {
    if i < j {
      assert xs[..j][..j - 1] == xs[..j - 1];
      MarkGrows(mark, xs, i, j - 1);
    } else {
      assert xs[..i] == xs[..j];
    }
  }

  /** Exactly which events are acted on: those that are wanted and unnumbered, or whose number is above the
      initial mark and above every wanted number before them. */
  lemma ActsExactly(mark: int, xs: seq<Item>, i: nat)
    requires mark >= 0 && i < |xs|
    ensures ActsAt(mark, xs, i) <==>
            xs[i].wanted && (xs[i].number <= 0 || (mark < xs[i].number && TopsAll(xs, i, xs[i].number)))
  {
    if xs[i].number > 0 {
      MarkIsMax(mark, xs[..i], xs[i].number);
      assert TopsAll(xs[..i], i, xs[i].number) <==> TopsAll(xs, i, xs[i].number) by {
        assert forall j :: 0 <= j < i ==> xs[..i][j] == xs[j];
      }
    }
  }

  /** If the numbers since position c are below this one, only the mark as it stood at c decides. */
  lemma RisingSince(mark: int, xs: seq<Item>, c: nat, i: nat)
    requires mark >= 0 && c <= i < |xs| && xs[i].wanted && xs[i].number > 0
    requires forall j :: c <= j < i ==> xs[j].number < xs[i].number
    ensures ActsAt(mark, xs, i) <==> xs[i].number > MarkAfter(mark, xs[..c])
  {
    hide Acts, MarkAfter;
    ActsExactly(mark, xs, i);
    MarkIsMax(mark, xs[..c], xs[i].number);
    assert forall j :: 0 <= j < c ==> xs[..c][j] == xs[j];
    if TopsAll(xs[..c], c, xs[i].number) {
      assert forall j :: 0 <= j < c && xs[..c][j].wanted ==> xs[..c][j].number < xs[i].number;
    }
  }

  /** No positive number is acted on twice. */
  lemma ActsOnce(mark: int, xs: seq<Item>, i: nat, j: nat)
    requires mark >= 0 && i < j < |xs| && ActsAt(mark, xs, i) && ActsAt(mark, xs, j)
    requires xs[i].number > 0 && xs[j].number > 0
    ensures xs[i].number < xs[j].number
  {
    ActsExactly(mark, xs, i);
    ActsExactly(mark, xs, j);
  }

  /** When numbers arrive in increasing order above the mark, no wanted event is skipped. */
  lemma SerialSkipsNothing(mark: int, xs: seq<Item>, i: nat)
    requires mark >= 0 && i < |xs| && xs[i].wanted
    requires forall j :: 0 <= j < |xs| ==> xs[j].number > mark
    requires forall j, k :: 0 <= j < k < |xs| ==> xs[j].number < xs[k].number
    ensures ActsAt(mark, xs, i)
  {
    ActsExactly(mark, xs, i);
  }

  /** When they do not, a wanted event can be skipped: 6 overtakes 5. */
  lemma OvertakenIsSkipped()
    ensures !ActsAt(0, [Item(true, 6), Item(true, 5)], 1)
  {
    var xs := [Item(true, 6), Item(true, 5)];
    assert xs[0].wanted && !(xs[0].number < xs[1].number);
    assert !TopsAll(xs, 1, 5);
    ActsExactly(0, xs, 1);
  }
}

/** The bridge: it watches the stream on behalf of one agent and requests a wake-up for what concerns it. */
module Bridge {
  import opened Sequences
  import opened Watermark

  /** The fields of an envelope the bridge reads. */
  datatype Event = Event(kind: string, from: string, to: string, number: int)

  datatype Pending = Pending(trigger: string, from: string, number: int)

  /** Directed to the agent, or a broadcast or session-wide change made by somebody else. */
  predicate Concerns(agent: string, e: Event) {
    if e.kind == "message" then (if e.to == "*" then e.from != agent else e.to == agent)
    else if e.kind == "broadcast" then e.from != agent
    else if e.kind in {"task_assign", "task_status", "task_result", "file_share"} then e.to == agent
    else if e.kind in {"scratchpad_update", "leader_info"} then e.from != agent
    else false
  }

  function ItemOf(agent: string, e: Event): Item {
    Item(Concerns(agent, e), e.number)
  }

  /** One frame of a stream; `data` is None when its JSON does not parse. */
  datatype Arrival = Arrival(frame: string, data: Option<Event>)

  /** Greetings, replayed history and frames that do not parse are ignored. */
  function ItemOfArrival(agent: string, x: Arrival): Item {
    if x.frame == "message" && x.data.Some? then ItemOf(agent, x.data.value) else Item(false, 0)
  }

  function Items(agent: string, xs: seq<Arrival>): (r: seq<Item>)
    ensures |r| == |xs| && forall i :: 0 <= i < |xs| ==> r[i] == ItemOfArrival(agent, xs[i])
  {
    seq(|xs|, i requires 0 <= i < |xs| => ItemOfArrival(agent, xs[i]))
  }

  /** The largest number in a history page, or 0. */
  function Largest(numbers: seq<int>): (m: int)
    ensures m >= 0 && forall i :: 0 <= i < |numbers| ==> numbers[i] <= m
    ensures m == 0 || m in numbers
  {
    if numbers == [] then 0
    else
      var m := Largest(numbers[..|numbers| - 1]);
      if numbers[|numbers| - 1] > m then numbers[|numbers| - 1] else m
  }

  const SIGNAL_BASE_BACKOFF := 500
  const SIGNAL_MAX_BACKOFF := 30000

  /** One attempt of the signal loop to reach the host: `ok` is its outcome, `request` says that a wake-up was
      requested while it was under way or during the pause after it. */
  datatype Attempt = Attempt(ok: bool, request: bool)

  /** The pause grows twofold with every failure, up to the cap. */
  function Backoff(start: nat, failures: nat): nat {
    if failures == 0 then start
    else
      var b := Backoff(start, failures - 1) * 2;
      if b < SIGNAL_MAX_BACKOFF then b else SIGNAL_MAX_BACKOFF
  }

  lemma {:induction false} BackoffDoubles(start: nat, failures: nat)
    ensures failures == 0 ==> Backoff(start, failures) == start
    ensures failures > 0 ==>
              var b := Backoff(start, failures - 1) * 2;
              Backoff(start, failures) == if b < 30000 then b else 30000
    ensures start <= 30000 ==> start <= Backoff(start, failures) <= 30000
  {
    if failures > 0 {
      BackoffDoubles(start, failures - 1);
    }
  }

  class Client {
    const agent: string
    var lastSeq: int
    var pending: Option<Pending>
    var signal: bool               // the capacity-1 channel of wake-up requests
    ghost var requests: nat        // how often a wake-up was requested

    constructor (agent: string)
      ensures this.agent == agent && lastSeq == 0 && pending == None && !signal && requests == 0
    {
      this.agent, lastSeq, pending, signal, requests := agent, 0, None, false, 0;
    }

    /** A non-blocking send: any number of requests become at most one token. */
    method RequestSignal()
      modifies this`signal, this`requests
      ensures signal && requests == old(requests) + 1
    {
      if !signal {
        signal := true;
      }
      requests := requests + 1;
    }

    /** Re-syncs the mark to the history page just fetched; a failed fetch leaves it alone. */
    method InitLastSeq(page: Option<seq<int>>)
      modifies this`lastSeq
      ensures lastSeq == if page.Some? then Largest(page.value) else old(lastSeq)
    {
      if page.None? {
        return;
      }
      var hist := page.value;
      var maxSeq := 0;
      for i := 0 to |hist|
        invariant maxSeq == Largest(hist[..i])
      {
        assert hist[..i + 1][..i] == hist[..i];
        if hist[i] > maxSeq {
          maxSeq := hist[i];
        }
      }
      assert hist[..|hist|] == hist;
      lastSeq := maxSeq;
    }

    /** One frame of the stream; `data` is None when its JSON does not parse. */
    method HandleSseEvent(frame: string, data: Option<Event>)
      modifies this
      ensures var wakes := frame == "message" && data.Some? && Acts(old(lastSeq), ItemOf(agent, data.value));
              && lastSeq == (if frame == "message" && data.Some? then Moved(old(lastSeq), ItemOf(agent, data.value))
                             else old(lastSeq))
              && requests == old(requests) + (if wakes then 1 else 0)
              && signal == (old(signal) || wakes)
              && pending == (if wakes
                             then Some(Pending(if data.value.kind == "message" && data.value.to == "*" then "broadcast"
                                                    else data.value.kind,
                                                        data.value.from, data.value.number))
                             else old(pending))
    {
      if frame != "message" {
        return;
      }
      if data.None? {
        return;
      }
      var env := data.value;
      if env.number > 0 && env.number <= lastSeq {
        return;
      }
      if env.kind == "message" {
        if env.to == "*" {
          if env.from == agent {
            return;
          }
        } else if env.to != agent {
          return;
        }
      } else if env.kind == "broadcast" {
        if env.from == agent {
          return;
        }
      } else if env.kind in {"task_assign", "task_status", "task_result", "file_share"} {
        if env.to != agent {
          return;
        }
      } else if env.kind in {"scratchpad_update", "leader_info"} {
        if env.from == agent {
          return;
        }
      } else {
        return;
      }
      if env.number > 0 {
        lastSeq := env.number;
      }
      var trigger := env.kind;
      if env.kind == "message" && env.to == "*" {
        trigger := "broadcast";
      }
      pending := Some(Pending(trigger, env.from, env.number));
      RequestSignal();
    }

    /** All frames of one stream: the wake-ups requested are exactly those of the mark. */
    method HandleStream(es: seq<Arrival>)
      requires lastSeq >= 0
      modifies this
      ensures lastSeq == MarkAfter(old(lastSeq), Items(agent, es)) >= old(lastSeq)
      ensures requests == old(requests) + Actions(old(lastSeq), Items(agent, es))
    {
      hide Concerns, MarkAfter, Actions;
      ghost var mark, xs := lastSeq, Items(agent, es);
      assert MarkAfter(mark, xs[..0]) == mark && Actions(mark, xs[..0]) == 0 by { NothingSeen(mark); }
      for i := 0 to |es|
        invariant lastSeq == MarkAfter(mark, xs[..i]) >= mark
        invariant requests == old(requests) + Actions(mark, xs[..i])
      {
        NextItem(mark, xs, i);
        HandleSseEvent(es[i].frame, es[i].data);
      }
      assert xs[..|es|] == xs;
    }

    /** The signal loop's work for one token: it tries until an attempt succeeds, and gives up only when the
        bridge shuts down, here when the attempts run out. A request made meanwhile leaves a new token. */
    method DeliverSignal(attempts: seq<Attempt>, backoff: nat) returns (sent: bool, tried: nat, next: nat)
      requires signal
      modifies this`signal, this`requests
      ensures tried <= |attempts| && sent == (tried > 0 && attempts[tried - 1].ok)
      ensures forall i :: 0 <= i < tried && attempts[i].ok ==> i == tried - 1
      ensures !sent ==> tried == |attempts|
      ensures signal == exists i :: 0 <= i < tried && attempts[i].request
      ensures next == if sent then 500 else Backoff(backoff, tried)
    {
      signal := false;
      sent, tried, next := false, 0, backoff;
      while tried < |attempts|
        invariant tried <= |attempts| && !sent && next == Backoff(backoff, tried)
        invariant forall i :: 0 <= i < tried ==> !attempts[i].ok
        invariant signal == exists i :: 0 <= i < tried && attempts[i].request
      {
        if attempts[tried].request {
          RequestSignal();
        }
        tried := tried + 1;
        if attempts[tried - 1].ok {
          next := SIGNAL_BASE_BACKOFF;
          return true, tried, next;
        }
        next := if next * 2 < SIGNAL_MAX_BACKOFF then next * 2 else SIGNAL_MAX_BACKOFF;
      }
    }

    /** After a (re)connect the agent is woken if mail is queued, or if that cannot be found out. */
    method MaybeWakeOnConnect(queued: Option<nat>) returns (fired: bool)
      modifies this`signal, this`requests
      ensures fired == (queued.None? || queued.value > 0)
      ensures requests == old(requests) + (if fired then 1 else 0) && signal == (old(signal) || fired)
    {
      if queued.None? {
        RequestSignal();
        return true;
      }
      if queued.value > 0 {
        RequestSignal();
        return true;
      }
      fired := false;
    }
  }
}

/** The signal loop and the goroutines that request wake-ups, interleaving freely. */
module SignalLoop {

  /** Waiting on the channel; holding a token and about to try; in the middle of a send that began at step `since`. */
  datatype Pc = Waiting | Holding | Sending(since: nat)

  datatype State = State(token: bool, pc: Pc)

  datatype Step = Request | Take | Begin | Succeed | Fail

  const START := State(false, Waiting)

  predicate Enabled(s: State, step: Step) {
    match step
    case Request => true
    case Take => s.token && s.pc.Waiting?
    case Begin => s.pc.Holding?
    case Succeed => s.pc.Sending?
    case Fail => s.pc.Sending?
  }

  /** Step number `now`. A failed send is retried with the same token. */
  function Do(s: State, step: Step, now: nat): State {
    match step
    case Request => s.(token := true)
    case Take => State(false, Holding)
    case Begin => s.(pc := Sending(now))
    case Succeed => s.(pc := Waiting)
    case Fail => s.(pc := Holding)
  }

  ghost predicate Run(states: seq<State>, steps: seq<Step>) {
    && |states| == |steps| + 1 && states[0] == START
    && forall i :: 0 <= i < |steps| ==> Enabled(states[i], steps[i]) && states[i + 1] == Do(states[i], steps[i], i)
  }

  /** A send that began at step m succeeded at step n. */
  predicate Delivered(states: seq<State>, steps: seq<Step>, m: nat, n: nat) {
    n < |steps| && n < |states| && steps[n].Succeed? && states[n].pc == Sending(m)
  }

  /** Some send that began after step j has succeeded before step i. */
  ghost predicate Served(states: seq<State>, steps: seq<Step>, j: nat, i: nat) {
    exists m, n :: j < m < n < i && Delivered(states, steps, m, n)
  }

  /** The request of step j has been served, or what will serve it is still under way. */
  ghost predicate Covered(states: seq<State>, steps: seq<Step>, j: nat, i: nat)
    requires i < |states|
  {
    var s := states[i];
    s.token || s.pc.Holding? || (s.pc.Sending? && s.pc.since > j) || Served(states, steps, j, i)
  }

  lemma {:induction false} BeganBefore(states: seq<State>, steps: seq<Step>, i: nat)
    requires Run(states, steps) && i <= |steps| && states[i].pc.Sending?
    ensures states[i].pc.since < i && steps[states[i].pc.since].Begin?
  {
    if !steps[i - 1].Begin? {
      BeganBefore(states, steps, i - 1);
    }
  }

  lemma {:induction false} EveryRequestCovered(states: seq<State>, steps: seq<Step>, j: nat, i: nat)
    requires Run(states, steps) && j < i <= |steps| && steps[j].Request?
    ensures Covered(states, steps, j, i)
    decreases i
  {
    assert states[i] == Do(states[i - 1], steps[i - 1], i - 1);
    if i - 1 > j {
      EveryRequestCovered(states, steps, j, i - 1);
      if Served(states, steps, j, i - 1) {
        ServedStays(states, steps, j, i - 1);
      }
      if steps[i - 1].Succeed? && states[i - 1].pc.since > j {
        BeganBefore(states, steps, i - 1);
        assert Delivered(states, steps, states[i - 1].pc.since, i - 1);
      }
    }
  }

  lemma ServedStays(states: seq<State>, steps: seq<Step>, j: nat, i: nat)
    requires Served(states, steps, j, i)
    ensures Served(states, steps, j, i + 1)
  {
    var m, n :| j < m < n < i && Delivered(states, steps, m, n);
    assert j < m < n < i + 1 && Delivered(states, steps, m, n);
  }

  /** Coalescing loses nothing: whenever the loop is blocked on an empty channel, every request so far has been
      followed by a send that started after it and succeeded, however many attempts failed. */
  lemma NoRequestLost(states: seq<State>, steps: seq<Step>, j: nat, i: nat)
    requires Run(states, steps) && j < i <= |steps| && steps[j].Request?
    requires states[i].pc.Waiting? && !states[i].token
    ensures Served(states, steps, j, i)
  {
    EveryRequestCovered(states, steps, j, i);
  }

  function Count(steps: seq<Step>, i: nat, step: Step): nat
    requires i <= |steps|
  {
    if i == 0 then 0 else Count(steps, i - 1, step) + if steps[i - 1] == step then 1 else 0
  }

  /** Wake-ups delivered never exceed wake-ups requested. */
  lemma {:induction false} NoSpuriousSignals(states: seq<State>, steps: seq<Step>, i: nat)
    requires Run(states, steps) && i <= |steps|
    ensures Count(steps, i, Succeed) + (if states[i].token then 1 else 0) + (if states[i].pc.Waiting? then 0 else 1)
            <= Count(steps, i, Request)
  {
    if i > 0 {
      NoSpuriousSignals(states, steps, i - 1);
    }
  }
}
