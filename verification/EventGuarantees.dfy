/** What the event protocol guarantees at the end of any run: for every interleaving of emitters, watch
    connections, mailbox readers and the snapshotter, and across restarts. */
module EventGuarantees {
  import opened Sequences
  import opened Envelopes
  import opened History
  import opened EventProtocol

  function Final(states: seq<State>): State
    requires states != []
  {
    states[|states| - 1]
  }

  lemma FinalInv(cfg: Config, states: seq<State>, steps: seq<Step>)
    requires Run(cfg, states, steps)
    ensures states != [] && Inv(cfg, Final(states))
  {
    hide Inv;
    RunInv(cfg, states, steps, |steps|);
  }

  // ---- No gap at connect -------------------------------------------------------------------------

  /** The window from which connection k copied its replay. */
  function Copied(s: State, k: Conn): seq<Envelope>
    requires k.copyAt <= |s.log|
  {
    FullHistory(s.boot, s.log[..k.copyAt])
  }

  lemma ConnKnown(cfg: Config, s: State, c: nat)
    requires Inv(cfg, s) && c in s.conns
    ensures ConnOk(cfg, s, c) && s.counter == s.base + |s.log|
    ensures s.conns[c].live ==> s.conns[c].copyAt <= |s.log|
  {
    hide EmittersOk, DeliveriesOk, FanoutOk, BoxesOk, SnapOk, HistoryOk, StreamOk, Newest, FullHistory;
    HistoryNumbered(cfg, s);
  }

  /** The stream of a connection holds exactly the events it was told of. */
  lemma StreamExact(cfg: Config, s: State, c: nat, n: nat)
    requires Inv(cfg, s) && c in s.conns && s.base < n <= s.counter && s.counter == s.base + |s.log|
    ensures EnvAt(s.base, s.log, n) in Offered(s.conns[c]) <==> Told(s.inflight, s.notified, c, s.conns[c].before, n)
  {
    hide Inv, CopyOk, Told, Offered;
    ConnKnown(cfg, s, c);
    IssueNumber(cfg, s, n);
  }

  lemma IssueNumber(cfg: Config, s: State, n: nat)
    requires Inv(cfg, s) && s.base < n <= s.counter && s.counter == s.base + |s.log|
    ensures EnvAt(s.base, s.log, n).number == n
  {
    hide EmittersOk, DeliveriesOk, FanoutOk, BoxesOk, SnapOk, ConnsOk, NumberedLog;
    HistoryNumbered(cfg, s);
    NumberAt(s.base, s.log, s.counter, n);
  }

  lemma NumberAt(base: nat, log: seq<Issue>, counter: nat, n: nat)
    requires NumberedLog(base, log, counter) && base < n <= counter
    ensures EnvAt(base, log, n).number == n
  {
  }

  /** The replay holds a recorded event exactly if it was recorded before the copy and not yet evicted. */
  lemma ReplayExact(cfg: Config, s: State, c: nat, n: nat)
    requires Inv(cfg, s) && c in s.conns && s.conns[c].live && s.base < n <= s.counter && s.counter == s.base + |s.log|
    requires s.conns[c].copyAt <= |s.log| && Recorded(s.log[n - s.base - 1].job)
    ensures var k, x := s.conns[c], EnvAt(s.base, s.log, n);
            x in k.copied <==> n <= s.base + k.copyAt && x !in Overflow(Copied(s, k), cfg.maxHistory)
  {
    hide Inv, StreamOk, FullHistory, Newest, Overflow, NumberedLog, Messages;
    ConnKnown(cfg, s, c);
    var k, x := s.conns[c], EnvAt(s.base, s.log, n);
    var part := s.log[..k.copyAt];
    PartNumbered(cfg, s, k.copyAt);
    FullHistoryOrdered(s.boot, s.base, part, s.base + k.copyAt);
    IssueNumber(cfg, s, n);
    if n <= s.base + k.copyAt {
      MessageAt(part, n - s.base - 1);
      FullHistoryHas(s.boot, part, x);
      SplitOnce(Copied(s, k), cfg.maxHistory, x);
    } else if x in k.copied {
      NewestMember(Copied(s, k), cfg.maxHistory, x);
    }
  }

  lemma PartNumbered(cfg: Config, s: State, at: nat)
    requires Inv(cfg, s) && at <= |s.log|
    ensures NumberedLog(s.base, s.log[..at], s.base + at) && Ordered(s.boot) && Below(s.boot, s.base)
  {
    hide EmittersOk, DeliveriesOk, FanoutOk, BoxesOk, SnapOk, ConnsOk, FullHistory, Newest;
  }

  lemma FullHistoryHas(boot: seq<Envelope>, log: seq<Issue>, x: Envelope)
    requires x in Messages(log)
    ensures x in FullHistory(boot, log)
  {
    hide Messages;
  }

  lemma NewestMember(h: seq<Envelope>, max: nat, x: Envelope)
    requires x in Newest(h, max)
    ensures x in h
  {
  }

  /** An entry of an ordered list is in its newest part or in the rest, not in both. */
  lemma SplitOnce(h: seq<Envelope>, max: nat, x: Envelope)
    requires Ordered(h) && x in h
    ensures x in Newest(h, max) <==> x !in Overflow(h, max)
  {
    var i :| 0 <= i < |h| && h[i] == x;
    if |h| > max {
      var d := |h| - max;
      if i < d { assert Overflow(h, max)[i] == x; } else { assert Newest(h, max)[i - d] == x; }
    }
  }

  /** No gap at connect: a recorded event that has been notified is in the replay or in the stream of every
      connection that has copied the history, unless the window had lost it before the copy or the channel
      was full when it was offered. */
  lemma NoGapAtConnect(cfg: Config, states: seq<State>, steps: seq<Step>, c: nat, n: nat)
    requires Run(cfg, states, steps)
    requires var s := Final(states);
             && c in s.conns && s.conns[c].live && s.base < n <= s.counter && n in s.notified
             && n <= s.base + |s.log| && s.conns[c].copyAt <= |s.log|
    requires var s := Final(states); Recorded(s.log[n - s.base - 1].job)
    ensures var s := Final(states);
            var k, x := s.conns[c], EnvAt(s.base, s.log, n);
            x in k.copied || x in k.sent || x in k.buffer || x in k.dropped || x in Overflow(Copied(s, k),
                cfg.maxHistory)
  {
    hide Inv, FullHistory, Newest, Overflow, Run, Offered;
    FinalInv(cfg, states, steps);
    var s := Final(states);
    ConnKnown(cfg, s, c);
    StreamExact(cfg, s, c, n);
    ReplayExact(cfg, s, c, n);
    OfferedMember(s.conns[c], EnvAt(s.base, s.log, n));
  }

  lemma OfferedMember(k: Conn, x: Envelope)
    ensures x in Offered(k) <==> x in k.sent || x in k.buffer || x in k.dropped
  {
  }

  /** Every event of any kind that was notified after the subscribe is in the stream; and whatever is in both the
      replay and the stream was recorded before the copy and notified, or being notified, after the subscribe. */
  lemma ReplayMeetsStream(cfg: Config, states: seq<State>, steps: seq<Step>, c: nat)
    requires Run(cfg, states, steps) && c in Final(states).conns && Final(states).conns[c].live
    ensures var s := Final(states);
            var k := s.conns[c];
            && s.counter == s.base + |s.log|
            && (forall n :: s.base < n <= s.counter && n in s.notified && n !in k.before ==>
                 EnvAt(s.base, s.log, n) in Offered(k))
            && (forall x :: x in k.copied && x in Offered(k) ==>
                 s.base < x.number <= s.base + k.copyAt && x.number !in k.before)
            && Ordered(k.copied) && (forall x :: Offered(k)[x] <= 1)
  {
    hide Inv, Run, Newest, FullHistory, Offered, NumberedLog;
    FinalInv(cfg, states, steps);
    var s := Final(states);
    var k := s.conns[c];
    ConnKnown(cfg, s, c);
    PartNumbered(cfg, s, k.copyAt);
    FullHistoryOrdered(s.boot, s.base, s.log[..k.copyAt], s.base + k.copyAt);
    NewestSuffix(Copied(s, k), cfg.maxHistory);
    forall x | x in k.copied && x in Offered(k)
      ensures s.base < x.number <= s.base + k.copyAt && x.number !in k.before
    {
      NewestMember(Copied(s, k), cfg.maxHistory, x);
      NotBefore(cfg, s, c, x);
    }
  }

  /** An event that a connection was told of had not been notified when it subscribed. */
  lemma NotBefore(cfg: Config, s: State, c: nat, x: Envelope)
    requires Inv(cfg, s) && c in s.conns && x in Offered(s.conns[c])
    ensures s.base < x.number && x.number !in s.conns[c].before
  {
    hide HistoryOk, DeliveriesOk, FanoutOk, BoxesOk, SnapOk, CopyOk, Offered, IsIssue, Newest, FullHistory;
    assert ConnOk(cfg, s, c);
  }

  // ---- Sequencing --------------------------------------------------------------------------------

  /** Each number above the starting counter is issued exactly once, across all kinds of event. */
  lemma EachNumberOnce(cfg: Config, states: seq<State>, steps: seq<Step>)
    requires Run(cfg, states, steps)
    ensures var s := Final(states);
            && (forall i, j :: 0 <= i < |s.log| && 0 <= j < |s.log| && s.log[i].env.number == s.log[j].env.number ==>
                 i == j)
            && (forall n :: Issued(s, n) <==> exists i :: 0 <= i < |s.log| && s.log[i].env.number == n)
  {
    hide Inv, Run;
    FinalInv(cfg, states, steps);
    var s := Final(states);
    PartNumbered(cfg, s, |s.log|);
    assert s.log[..|s.log|] == s.log;
    CounterIs(cfg, s);
    forall n: nat | Issued(s, n)
      ensures exists i :: 0 <= i < |s.log| && s.log[i].env.number == n
    {
      assert s.log[n - s.base - 1].env.number == n;
    }
  }

  lemma CounterIs(cfg: Config, s: State)
    requires Inv(cfg, s)
    ensures s.counter == s.base + |s.log|
  {
    hide HistoryOk, EmittersOk, DeliveriesOk, FanoutOk, BoxesOk, SnapOk, ConnsOk;
    HistoryNumbered(cfg, s);
  }

  /** The history is the newest part of everything ever recorded, and strictly increasing. */
  lemma HistoryIncreases(cfg: Config, states: seq<State>, steps: seq<Step>)
    requires Run(cfg, states, steps)
    ensures var s := Final(states);
            && s.history == Newest(FullHistory(s.boot, s.log), cfg.maxHistory)
            && Ordered(FullHistory(s.boot, s.log)) && Ordered(s.history)
  {
    hide EmittersOk, DeliveriesOk, FanoutOk, BoxesOk, SnapOk, ConnsOk, Run, Newest, FullHistory, Ordered, Below,
        NumberedLog;
    FinalInv(cfg, states, steps);
    var s := Final(states);
    FullHistoryOrdered(s.boot, s.base, s.log, s.counter);
    NewestSuffix(FullHistory(s.boot, s.log), cfg.maxHistory);
    OrderedSuffix(FullHistory(s.boot, s.log), |FullHistory(s.boot, s.log)| - |s.history|);
  }

  /** No mailbox and no subscriber receives a number twice. */
  lemma NothingTwice(cfg: Config, states: seq<State>, steps: seq<Step>)
    requires Run(cfg, states, steps)
    ensures var s := Final(states);
            && (forall a :: AtMostOnce(Served(s.served, a)) && Distinct(Box(s.boxes, a)))
            && (forall c :: c in s.conns ==> Distinct(s.conns[c].sent + s.conns[c].buffer + s.conns[c].dropped))
  {
    hide Run, HistoryOk, EmittersOk, FanoutOk, SnapOk, ConnsOk, DeliveryOk, Within, AtMostOnce, Distinct;
    FinalInv(cfg, states, steps);
    var s := Final(states);
    assert forall a :: BoxOk(s.base, s.log, Served(s.served, a), Box(s.boxes, a));
    forall c | c in s.conns
      ensures Distinct(s.conns[c].sent + s.conns[c].buffer + s.conns[c].dropped)
    {
      ConnKnown(cfg, s, c);
      OfferedOnce(s, c);
    }
  }

  lemma OfferedOnce(s: State, c: nat)
    requires c in s.conns && StreamOk(s.base, s.log, s.inflight, s.notified, c, s.conns[c])
    ensures Distinct(s.conns[c].sent + s.conns[c].buffer + s.conns[c].dropped)
  {
    hide Told, Offered, Genuine, EnvAt;
    var k := s.conns[c];
    var all := k.sent + k.buffer + k.dropped;
    AllOffered(k);
    forall i, j | 0 <= i < j < |all|
      ensures all[i].number != all[j].number
    {
      assert all[i] in multiset(all) && all[j] in multiset(all);
      OneCopy(all, i, j);
      OnlyEnv(s.base, s.log, all[i]);
      OnlyEnv(s.base, s.log, all[j]);
    }
  }

  lemma AllOffered(k: Conn)
    ensures multiset(k.sent + k.buffer + k.dropped) == Offered(k)
  {
  }

  lemma OneCopy(q: seq<Envelope>, i: nat, j: nat)
    requires i < j < |q| && multiset(q)[q[i]] <= 1
    ensures q[i] != q[j]
  {
    assert q == q[..j] + [q[j]] + q[j + 1..];
    assert q[i] in q[..j];
    assert multiset(q)[q[i]] >= multiset(q[..j])[q[i]] + multiset([q[j]])[q[i]];
  }

  /** When no emitter is at work, the notified numbers are exactly those issued since the start. */
  lemma QuiescentNotified(cfg: Config, states: seq<State>, steps: seq<Step>)
    requires Run(cfg, states, steps) && Final(states).inflight == map[]
    ensures forall n :: n in Final(states).notified <==> Issued(Final(states), n)
  {
    hide Run, HistoryOk, DeliveriesOk, FanoutOk, BoxesOk, SnapOk, ConnsOk, IsIssue;
    FinalInv(cfg, states, steps);
  }

  /** A watcher receives events in the order its channel took them, and loses one only after the channel has
      taken as many as it can hold. */
  lemma StreamIsFifo(cfg: Config, states: seq<State>, steps: seq<Step>, c: nat)
    requires Run(cfg, states, steps) && c in Final(states).conns
    ensures var k := Final(states).conns[c];
            && k.sent <= k.accepted && k.sent + k.buffer == k.accepted
            && (|k.accepted| < cfg.capacity ==> k.dropped == [])
  {
    hide Run, Inv, StreamOk, CopyOk;
    FinalInv(cfg, states, steps);
    ConnKnown(cfg, Final(states), c);
  }

  /** A step drops an event of a watcher exactly if it offers one while the channel is full at that moment. */
  lemma DropsOnlyWhenFull(cfg: Config, states: seq<State>, steps: seq<Step>, i: nat, c: nat)
    requires Run(cfg, states, steps) && i < |steps| && c in states[i].conns && c in states[i + 1].conns
    ensures states[i + 1].conns[c].dropped != states[i].conns[c].dropped <==>
            steps[i].Notify? && steps[i].c == c && |states[i].conns[c].buffer| == cfg.capacity
  {
    hide Init, Inv, Do, Enabled;
    RunInv(cfg, states, steps, i);
    hide StreamOk, CopyOk;
    ConnKnown(cfg, states[i], c);
    StepDrops(cfg, states[i], steps[i], c);
  }

  lemma StepDrops(cfg: Config, s: State, step: Step, c: nat)
    requires Enabled(s, step) && c in s.conns && c in Do(cfg, s, step).conns && |s.conns[c].buffer| <= cfg.capacity
    ensures Do(cfg, s, step).conns[c].dropped != s.conns[c].dropped <==>
            step.Notify? && step.c == c && |s.conns[c].buffer| == cfg.capacity
  {
    hide Newest, Filter, Addressees, Box, Served;
  }

  // ---- Deliveries ----------------------------------------------------------------------------------

  /** Once an event is past delivery it has been put in exactly the mailboxes it was addressed to: the
      recipient's for a direct message; for the others those of the roster it read, without the sender or the
      excluded agent; nobody's for an ambient event. */
  lemma DeliveryIsExact(cfg: Config, states: seq<State>, steps: seq<Step>, n: nat)
    requires Run(cfg, states, steps)
    requires var s := Final(states);
             s.base < n <= s.counter && (n in s.inflight ==> s.inflight[n].Delivered? || s.inflight[n].Notifying?)
    ensures var s := Final(states);
            && s.counter == s.base + |s.log| && n in s.rosters
            && forall a :: n in Served(s.served, a) <==> a in Addressees(s.log[n - s.base - 1].job, s.rosters[n])
  {
    hide Run, HistoryOk, EmittersOk, DeliveriesOk, BoxesOk, SnapOk, ConnsOk, Served, Addressees;
    FinalInv(cfg, states, steps);
    var s := Final(states);
    HistoryNumbered(cfg, s);
    assert Reaches(s.served, s.inflight, n, Addressees(JobOf(s.base, s.log, n), s.rosters[n]));
    assert forall a :: Due(s.served, s.inflight, n, a) == (n in Served(s.served, a));
  }

  // ---- Snapshots and restarts ------------------------------------------------------------------------

  /** A snapshot captured piece by piece, whatever happened in between, restores to a proper start: everything
      in it is numbered up to its counter. */
  lemma FuzzySnapshotIsSafe(cfg: Config, states: seq<State>, steps: seq<Step>, i: nat)
    requires Run(cfg, states, steps) && i <= |steps| && states[i].snap.Saved?
    ensures Init(cfg, Restored(states[i].snap))
    ensures states[i].snap.counter <= states[i].counter
  {
    hide Inv, Do, Enabled, Init;
    RunInv(cfg, states, steps, i);
    RunConfig(cfg, states, steps);
    SavedInit(cfg, states[i]);
    SavedBelow(cfg, states, steps, i);
  }

  lemma RunConfig(cfg: Config, states: seq<State>, steps: seq<Step>)
    requires Run(cfg, states, steps)
    ensures cfg.maxHistory >= 1 && cfg.maxBox >= 1
  {
    hide Do, Enabled;
  }

  lemma SavedInit(cfg: Config, s: State)
    requires Inv(cfg, s) && s.snap.Saved? && cfg.maxHistory >= 1 && cfg.maxBox >= 1
    ensures Init(cfg, Restored(s.snap))
  {
    hide HistoryOk, EmittersOk, DeliveriesOk, FanoutOk, BoxesOk, ConnsOk, Ordered, Below, Distinct;
  }

  /** The counter only grows, so a snapshot never claims a number that was not issued. */
  lemma {:induction false} SavedBelow(cfg: Config, states: seq<State>, steps: seq<Step>, i: nat)
    requires Run(cfg, states, steps) && i <= |steps| && states[i].snap.Saved?
    ensures states[i].snap.counter <= states[i].counter
  {
    hide Newest, Filter, Addressees, Offer, Box, Served, Below, Ordered;
    if i > 0 && !steps[i - 1].SnapCounter? {
      SavedBelow(cfg, states, steps, i - 1);
    }
  }

  /** One process after another: the first starts empty, each later one from a snapshot its predecessor had
      completed by the time it stopped, cleanly or not. */
  datatype Life = Life(states: seq<State>, steps: seq<Step>, flushed: nat)

  ghost predicate Lived(cfg: Config, l: Life) {
    && |l.states| == |l.steps| + 1
    && (forall i :: 0 <= i < |l.steps| ==>
         Enabled(l.states[i], l.steps[i]) && l.states[i + 1] == Do(cfg, l.states[i], l.steps[i]))
    && l.flushed <= |l.steps|
  }

  ghost predicate Resumes(cfg: Config, lives: seq<Life>, i: nat)
    requires 0 < i < |lives|
  {
    var l := lives[i - 1];
    && Lived(cfg, l) && l.states[l.flushed].snap.Saved?
    && lives[i].states != [] && lives[i].states[0] == Restored(l.states[l.flushed].snap)
  }

  ghost predicate Lives(cfg: Config, lives: seq<Life>) {
    && (forall i :: 0 <= i < |lives| ==> Lived(cfg, lives[i]))
    && (lives != [] ==> lives[0].states[0] == EmptyServer)
    && (forall i :: 0 < i < |lives| ==> Resumes(cfg, lives, i))
  }

  /** Every process of a chain of restarts, at any length, starts properly. */
  lemma {:induction false} EveryLifeIsRun(cfg: Config, lives: seq<Life>, i: nat)
    requires cfg.maxHistory >= 1 && cfg.maxBox >= 1 && Lives(cfg, lives) && i < |lives|
    ensures Run(cfg, lives[i].states, lives[i].steps)
  {
    hide Do, Enabled;
    if i == 0 {
      EmptyInit(cfg);
    } else {
      EveryLifeIsRun(cfg, lives, i - 1);
      hide Init;
      assert Resumes(cfg, lives, i);
      FuzzySnapshotIsSafe(cfg, lives[i - 1].states, lives[i - 1].steps, lives[i - 1].flushed);
    }
  }

  lemma EmptyInit(cfg: Config)
    requires cfg.maxHistory >= 1 && cfg.maxBox >= 1
    ensures Init(cfg, EmptyServer)
  {
  }

  /** After a restart every number issued exceeds all persisted ones, and the history stays strictly increasing. */
  lemma RestartContinues(cfg: Config, lives: seq<Life>, i: nat, x: Envelope, n: nat)
    requires cfg.maxHistory >= 1 && cfg.maxBox >= 1 && Lives(cfg, lives) && 0 < i < |lives|
    requires Resumes(cfg, lives, i)
    requires var snap := lives[i - 1].states[lives[i - 1].flushed].snap;
             x in snap.history || exists a :: a in snap.boxes && x in snap.boxes[a]
    requires n < |Final(lives[i].states).log|
    ensures x.number < Final(lives[i].states).log[n].env.number
    ensures Ordered(FullHistory(Final(lives[i].states).boot, Final(lives[i].states).log))
  {
    hide Do, Enabled, Inv, NumberedLog, FullHistory;
    EveryLifeIsRun(cfg, lives, i);
    var s := Final(lives[i].states);
    FinalInv(cfg, lives[i].states, lives[i].steps);
    HistoryIncreases(cfg, lives[i].states, lives[i].steps);
    CounterIs(cfg, s);
    IssueNumber(cfg, s, s.base + n + 1);
    BootStays(cfg, lives[i].states, lives[i].steps, |lives[i].steps|);
    BootBelow(cfg, lives[i].states[0], x);
  }

  lemma {:induction false} BootStays(cfg: Config, states: seq<State>, steps: seq<Step>, i: nat)
    requires Run(cfg, states, steps) && i <= |steps|
    ensures states[i].base == states[0].base && states[i].boot == states[0].boot
  {
    hide Do, Enabled, Init;
    if i > 0 {
      BootStays(cfg, states, steps, i - 1);
      StepBoot(cfg, states[i - 1], steps[i - 1]);
    }
  }

  lemma StepBoot(cfg: Config, s: State, step: Step)
    requires Enabled(s, step)
    ensures Do(cfg, s, step).base == s.base && Do(cfg, s, step).boot == s.boot
  {
    hide Newest, Filter, Addressees, Offer, Box, Served;
  }

  lemma BootBelow(cfg: Config, s: State, x: Envelope)
    requires Init(cfg, s)
    requires x in s.boot || exists a :: a in s.boxes && x in s.boxes[a]
    ensures x.number <= s.base
  {
    hide Ordered, Distinct;
  }
}
