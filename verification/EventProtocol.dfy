/** How events of one session flow through the server while any number of emitters, watch connections,
    mailbox readers and the snapshotter interleave. Every step below is one critical section of the code. */
module EventProtocol {
  import opened Sequences
  import opened Envelopes
  import opened History
  import MailSpec

  /** What the emitter wants: only messages are recorded in history, only ambient events skip the mailboxes. */
  datatype Job = Send(to: string) | Broadcast(from: string) | System(except: string) | Ambient

  predicate Recorded(job: Job) {
    job.Send? || job.Broadcast?
  }

  /** Who may receive the event in a mailbox. */
  predicate Addressed(job: Job, agent: string) {
    match job
    case Send(to) => agent == to
    case Broadcast(from) => agent != from
    case System(except) => agent != except
    case Ambient => false
  }

  datatype Issue = Issue(env: Envelope, job: Job)

  /** Where an emitter stands; it carries its own copy of the envelope. */
  datatype Pc =
    | Sequenced(env: Envelope, job: Job)                        // numbered (and recorded), nothing delivered
    | Delivering(env: Envelope, job: Job, boxes: set<string>)   // mailboxes still to be served
    | Delivered(env: Envelope, job: Job)
    | Notifying(env: Envelope, job: Job, todo: set<nat>)        // channels still to be served, under the read lock

  /** A watch connection: `sent` was written live, `buffer` is the channel, `dropped` did not fit and `accepted`
      is everything that did, in order. `before` is what had been notified when it subscribed and `copyAt` the
      log length when it copied the history. */
  datatype Conn = Conn(live: bool, copied: seq<Envelope>, copyAt: nat, before: set<nat>,
                       accepted: seq<Envelope>, sent: seq<Envelope>, buffer: seq<Envelope>, dropped: seq<Envelope>)

  datatype Snap =
    | Idle
    | SavingBoxes(left: set<string>, boxes: map<string, seq<Envelope>>)
    | SavedBoxes(boxes: map<string, seq<Envelope>>)
    | SavedHistory(boxes: map<string, seq<Envelope>>, history: seq<Envelope>)
    | Saved(boxes: map<string, seq<Envelope>>, history: seq<Envelope>, counter: nat)

  datatype Config = Config(maxHistory: nat, maxBox: nat, capacity: nat)

  /** `base` and `boot` are the counter and history the server started with; `log` is everything issued since,
      `served` the numbers each mailbox has received, `rosters` the members each fan-out read, and `notified` the
      numbers whose fan-out has ended. */
  datatype State = State(
    base: nat, boot: seq<Envelope>, log: seq<Issue>,
    counter: nat, history: seq<Envelope>,
    boxes: map<string, seq<Envelope>>, served: map<string, seq<nat>>, rosters: map<nat, set<string>>,
    inflight: map<nat, Pc>, notified: set<nat>,
    conns: map<nat, Conn>, snap: Snap)

  datatype Step =
    | Sequence(env: Envelope, job: Job)
    | ReadRoster(n: nat, roster: set<string>)
    | DeliverTo(n: nat, agent: string)
    | EndDelivery(n: nat)
    | BeginNotify(n: nat)
    | Notify(n: nat, c: nat)
    | EndNotify(n: nat)
    | Subscribe(c: nat)
    | CopyHistory(c: nat)
    | Receive(c: nat)
    | Unsubscribe(c: nat)
    | DrainBox(agent: string, from: string, kind: string)
    | DeleteBox(agent: string)
    | SnapBegin
    | SnapBox(agent: string)
    | SnapBoxes
    | SnapHistory
    | SnapCounter

  function Box(boxes: map<string, seq<Envelope>>, agent: string): seq<Envelope> {
    if agent in boxes then boxes[agent] else []
  }

  function Served(served: map<string, seq<nat>>, agent: string): seq<nat> {
    if agent in served then served[agent] else []
  }

  /** Some emitter holds the watcher's read lock, so nobody can subscribe or unsubscribe. */
  predicate WatcherLocked(inflight: map<nat, Pc>) {
    exists n :: n in inflight && inflight[n].Notifying?
  }

  function Addressees(job: Job, roster: set<string>): set<string> {
    match job
    case Send(to) => {to}
    case Broadcast(from) => roster - {from}
    case System(except) => roster - {except}
    case Ambient => {}
  }

  function Unmatched(from: string, kind: string): Envelope -> bool {
    (e: Envelope) => !MailSpec.Matches(e, from, kind)
  }

  /** A non-blocking send: the channel takes the envelope or it is dropped. */
  function Offer(c: Conn, env: Envelope, capacity: nat): Conn {
    if |c.buffer| < capacity then c.(buffer := c.buffer + [env], accepted := c.accepted + [env])
    else c.(dropped := c.dropped + [env])
  }

  predicate Enabled(s: State, step: Step) {
    match step
    case Sequence(env, job) => true
    case ReadRoster(n, roster) => n in s.inflight && s.inflight[n].Sequenced?
    case DeliverTo(n, agent) =>
      && n in s.inflight && s.inflight[n].Delivering? && agent in s.inflight[n].boxes
      && (agent in s.boxes || !s.snap.SavingBoxes?)
    case EndDelivery(n) => n in s.inflight && s.inflight[n].Delivering? && s.inflight[n].boxes == {}
    case BeginNotify(n) => n in s.inflight && s.inflight[n].Delivered?
    case Notify(n, c) => n in s.inflight && s.inflight[n].Notifying? && c in s.inflight[n].todo && c in s.conns
    case EndNotify(n) => n in s.inflight && s.inflight[n].Notifying? && s.inflight[n].todo == {}
    case Subscribe(c) => c !in s.conns && !WatcherLocked(s.inflight)
    case CopyHistory(c) => c in s.conns && !s.conns[c].live
    case Receive(c) => c in s.conns && s.conns[c].live && s.conns[c].buffer != []
    case Unsubscribe(c) => c in s.conns && !WatcherLocked(s.inflight)
    case DrainBox(agent, from, kind) => agent in s.boxes
    case DeleteBox(agent) => agent in s.boxes && !s.snap.SavingBoxes?
    case SnapBegin => s.snap.Idle? || s.snap.Saved?
    case SnapBox(agent) => s.snap.SavingBoxes? && agent in s.snap.left && agent in s.boxes
    case SnapBoxes => s.snap.SavingBoxes? && s.snap.left == {}
    case SnapHistory => s.snap.SavedBoxes?
    case SnapCounter => s.snap.SavedHistory?
  }

  function Do(cfg: Config, s: State, step: Step): State
    requires Enabled(s, step)
  {
    match step
    case Sequence(env, job) =>
      // recordEnvelope or sequenceEnvelope: number and history change under one lock
      var e := env.(number := s.counter + 1);
      s.(counter := s.counter + 1,
         log := s.log + [Issue(e, job)],
         history := if Recorded(job) then Newest(s.history + [e], cfg.maxHistory) else s.history,
         inflight := s.inflight[s.counter + 1 := Sequenced(e, job)])
    case ReadRoster(n, roster) =>
      var pc := s.inflight[n];
      s.(inflight := s.inflight[n := Delivering(pc.env, pc.job, Addressees(pc.job, roster))],
         rosters := s.rosters[n := roster])
    case DeliverTo(n, agent) =>
      var pc := s.inflight[n];
      s.(boxes := s.boxes[agent := Newest(Box(s.boxes, agent) + [pc.env], cfg.maxBox)],
         served := s.served[agent := Served(s.served, agent) + [n]],
         inflight := s.inflight[n := Delivering(pc.env, pc.job, pc.boxes - {agent})])
    case EndDelivery(n) =>
      s.(inflight := s.inflight[n := Delivered(s.inflight[n].env, s.inflight[n].job)])
    case BeginNotify(n) =>
      s.(inflight := s.inflight[n := Notifying(s.inflight[n].env, s.inflight[n].job, s.conns.Keys)])
    case Notify(n, c) =>
      var pc := s.inflight[n];
      s.(conns := s.conns[c := Offer(s.conns[c], pc.env, cfg.capacity)],
         inflight := s.inflight[n := Notifying(pc.env, pc.job, pc.todo - {c})])
    case EndNotify(n) =>
      s.(inflight := s.inflight - {n}, notified := s.notified + {n})
    case Subscribe(c) =>
      s.(conns := s.conns[c := Conn(false, [], 0, s.notified, [], [], [], [])])
    case CopyHistory(c) =>
      s.(conns := s.conns[c := s.conns[c].(live := true, copied := s.history, copyAt := |s.log|)])
    case Receive(c) =>
      var k := s.conns[c];
      s.(conns := s.conns[c := k.(sent := k.sent + [k.buffer[0]], buffer := k.buffer[1..])])
    case Unsubscribe(c) =>
      s.(conns := s.conns - {c})
    case DrainBox(agent, from, kind) =>
      s.(boxes := s.boxes[agent := Filter(s.boxes[agent], Unmatched(from, kind))])
    case DeleteBox(agent) =>
      s.(boxes := s.boxes - {agent})
    case SnapBegin => s.(snap := SavingBoxes(s.boxes.Keys, map[]))
    case SnapBox(agent) =>
      s.(snap := SavingBoxes(s.snap.left - {agent}, s.snap.boxes[agent := s.boxes[agent]]))
    case SnapBoxes => s.(snap := SavedBoxes(s.snap.boxes))
    case SnapHistory => s.(snap := SavedHistory(s.snap.boxes, s.history))
    case SnapCounter => s.(snap := Saved(s.snap.boxes, s.snap.history, s.counter))
  }

  // ---- Runs --------------------------------------------------------------------------------------

  /** No two entries of a list carry the same number. */
  ghost predicate Distinct(q: seq<Envelope>) {
    forall i, j :: 0 <= i < j < |q| ==> q[i].number != q[j].number
  }

  ghost predicate BoxesDistinct(boxes: map<string, seq<Envelope>>) {
    forall a :: a in boxes ==> Distinct(boxes[a])
  }

  ghost predicate BoxesBelow(boxes: map<string, seq<Envelope>>, top: nat) {
    forall a :: a in boxes ==> Below(boxes[a], top)
  }

  ghost predicate Below(h: seq<Envelope>, top: nat) {
    forall x :: x in h ==> x.number <= top
  }

  /** A server that has just started, empty or from a snapshot: everything restored is numbered up to the
      restored counter, and the restored history is in order. */
  ghost predicate Init(cfg: Config, s: State) {
    && cfg.maxHistory >= 1 && cfg.maxBox >= 1
    && Ordered(s.boot) && Below(s.boot, s.base) && |s.boot| <= cfg.maxHistory
    && BoxesBelow(s.boxes, s.base) && BoxesDistinct(s.boxes)
    && s == State(s.base, s.boot, [], s.base, s.boot, s.boxes, map[], map[], map[], {}, map[], Idle)
  }

  const EmptyServer := State(0, [], [], 0, [], map[], map[], map[], map[], {}, map[], Idle)

  /** The server that restoreState builds from a completed snapshot. */
  function Restored(snap: Snap): State
    requires snap.Saved?
  {
    State(snap.counter, snap.history, [], snap.counter, snap.history, snap.boxes, map[], map[], map[], {}, map[], Idle)
  }

  ghost predicate Run(cfg: Config, states: seq<State>, steps: seq<Step>) {
    && |states| == |steps| + 1 && Init(cfg, states[0])
    && forall i :: 0 <= i < |steps| ==> Enabled(states[i], steps[i]) && states[i + 1] == Do(cfg, states[i], steps[i])
  }

  // ---- Numbering and history ---------------------------------------------------------------------

  /** The i-th event issued since the start carries number base+i+1. */
  ghost predicate NumberedLog(base: nat, log: seq<Issue>, counter: nat) {
    counter == base + |log| && forall i :: 0 <= i < |log| ==> log[i].env.number == base + i + 1
  }

  /** The messages among the issued events, oldest first. */
  function Messages(log: seq<Issue>): (r: seq<Envelope>)
    ensures |r| <= |log|
  {
    if log == [] then []
    else
      var r := Messages(log[..|log| - 1]);
      if Recorded(log[|log| - 1].job) then r + [log[|log| - 1].env] else r
  }

  /** Everything that was ever recorded, including what the server started with. */
  function FullHistory(boot: seq<Envelope>, log: seq<Issue>): seq<Envelope> {
    boot + Messages(log)
  }

  ghost predicate HistoryOk(cfg: Config, s: State) {
    && cfg.maxHistory >= 1
    && NumberedLog(s.base, s.log, s.counter)
    && Ordered(s.boot) && Below(s.boot, s.base)
    && s.history == Newest(FullHistory(s.boot, s.log), cfg.maxHistory)
  }

  lemma MessagesStep(log: seq<Issue>, x: Issue)
    ensures Messages(log + [x]) == Messages(log) + (if Recorded(x.job) then [x.env] else [])
  {
    assert (log + [x])[..|log|] == log;
  }

  lemma {:induction false} MessageAt(log: seq<Issue>, i: nat)
    requires i < |log| && Recorded(log[i].job)
    ensures log[i].env in Messages(log)
  {
    if i < |log| - 1 {
      MessageAt(log[..|log| - 1], i);
    }
  }

  lemma {:induction false} MessagesBelow(base: nat, log: seq<Issue>, counter: nat)
    requires NumberedLog(base, log, counter)
    ensures Ordered(Messages(log))
    ensures forall x :: x in Messages(log) ==> base < x.number <= counter
  {
    if log != [] {
      MessagesBelow(base, log[..|log| - 1], counter - 1);
    }
  }

  /** The full history is strictly increasing, whatever the interleaving. */
  lemma FullHistoryOrdered(boot: seq<Envelope>, base: nat, log: seq<Issue>, counter: nat)
    requires Ordered(boot) && Below(boot, base) && NumberedLog(base, log, counter)
    ensures Ordered(FullHistory(boot, log)) && Below(FullHistory(boot, log), counter)
  {
    hide Messages, NumberedLog;
    MessagesBelow(base, log, counter);
    CounterAbove(base, log, counter);
    assert forall i :: 0 <= i < |boot| ==> boot[i] in boot;
    assert forall i :: 0 <= i < |Messages(log)| ==> Messages(log)[i] in Messages(log);
  }

  lemma CounterAbove(base: nat, log: seq<Issue>, counter: nat)
    requires NumberedLog(base, log, counter)
    ensures counter == base + |log|
  {
  }

  lemma HistoryKept(cfg: Config, s: State, step: Step)
    requires HistoryOk(cfg, s) && Enabled(s, step)
    ensures HistoryOk(cfg, Do(cfg, s, step))
  {
    hide Messages, Newest, Filter, Ordered, Below;
    if step.Sequence? {
      var x := Issue(step.env.(number := s.counter + 1), step.job);
      MessagesStep(s.log, x);
      if Recorded(step.job) {
        NewestAppend(FullHistory(s.boot, s.log), x.env, cfg.maxHistory);
        assert FullHistory(s.boot, s.log) + [x.env] == FullHistory(s.boot, s.log + [x]);
      } else {
        assert Messages(s.log + [x]) == Messages(s.log);
      }
    }
  }

  // ---- Every number is issued once and handed to one emitter --------------------------------------

  /** The event numbered n is this one. */
  predicate IsIssue(base: nat, log: seq<Issue>, n: nat, env: Envelope, job: Job) {
    base < n <= base + |log| && log[n - base - 1] == Issue(env, job)
  }

  predicate Issued(s: State, n: nat) {
    s.base < n <= s.counter
  }

  /** The numbers issued so far are exactly those still with their emitter and those already notified. */
  ghost predicate EmittersOk(s: State) {
    && (forall n :: n in s.inflight ==>
          Issued(s, n) && n !in s.notified && IsIssue(s.base, s.log, n, s.inflight[n].env, s.inflight[n].job))
    && (forall n :: n in s.notified ==> Issued(s, n))
    && (forall n :: Issued(s, n) ==> n in s.inflight || n in s.notified)
  }

  /** Steps by which an emitter moves on, keeping its envelope. */
  predicate EmitterMoves(step: Step) {
    step.ReadRoster? || step.DeliverTo? || step.EndDelivery? || step.BeginNotify? || step.Notify?
  }

  /** Steps that leave the emitters, the counter and the log alone. */
  predicate Elsewhere(step: Step) {
    !EmitterMoves(step) && !step.Sequence? && !step.EndNotify?
  }

  predicate SameIssues(s: State, s': State) {
    s'.base == s.base && s'.boot == s.boot && s'.log == s.log && s'.counter == s.counter && s'.history == s.history
  }

  lemma MoveEffect(cfg: Config, s: State, step: Step)
    requires EmitterMoves(step) && Enabled(s, step)
    ensures var s' := Do(cfg, s, step);
            && SameIssues(s, s') && s'.notified == s.notified
            && step.n in s.inflight && step.n in s'.inflight
            && s'.inflight == s.inflight[step.n := s'.inflight[step.n]]
            && s'.inflight[step.n].env == s.inflight[step.n].env && s'.inflight[step.n].job == s.inflight[step.n].job
  {
    hide Newest, Filter, Addressees, Offer, Box, Served;
  }

  lemma ElsewhereEffect(cfg: Config, s: State, step: Step)
    requires Elsewhere(step) && Enabled(s, step)
    ensures var s' := Do(cfg, s, step);
            SameIssues(s, s') && s'.notified == s.notified && s'.inflight == s.inflight && s'.served == s.served
  {
    hide Newest, Filter, Addressees, Offer, Box, Served;
  }

  lemma SequenceEmitters(s: State, s': State, env: Envelope, job: Job)
    requires NumberedLog(s.base, s.log, s.counter) && EmittersOk(s)
    requires s'.base == s.base && s'.log == s.log + [Issue(env, job)] && s'.counter == s.counter + 1
    requires s'.notified == s.notified && s'.inflight == s.inflight[s.counter + 1 := Sequenced(env, job)]
    ensures EmittersOk(s')
  {
    forall n | n in s'.inflight
      ensures Issued(s', n) && n !in s'.notified && IsIssue(s'.base, s'.log, n, s'.inflight[n].env, s'.inflight[n].job)
    {
      if n != s.counter + 1 {
        assert IsIssue(s.base, s.log, n, s.inflight[n].env, s.inflight[n].job);
      }
    }
  }

  lemma MoveEmitters(s: State, s': State, n: nat)
    requires EmittersOk(s) && SameIssues(s, s') && s'.notified == s.notified
    requires n in s.inflight && n in s'.inflight && s'.inflight == s.inflight[n := s'.inflight[n]]
    requires s'.inflight[n].env == s.inflight[n].env && s'.inflight[n].job == s.inflight[n].job
    ensures EmittersOk(s')
  {
    hide IsIssue;
  }

  lemma EndEmitters(s: State, s': State, n: nat)
    requires EmittersOk(s) && SameIssues(s, s') && n in s.inflight
    requires s'.notified == s.notified + {n} && s'.inflight == s.inflight - {n}
    ensures EmittersOk(s')
  {
    hide IsIssue;
  }

  lemma EmittersKept(cfg: Config, s: State, step: Step)
    requires NumberedLog(s.base, s.log, s.counter) && EmittersOk(s) && Enabled(s, step)
    ensures EmittersOk(Do(cfg, s, step))
  {
    hide EmittersOk, NumberedLog, Newest, Filter, Addressees, Offer, Box, Served;
    var s' := Do(cfg, s, step);
    if step.Sequence? {
      SequenceEmitters(s, s', step.env.(number := s.counter + 1), step.job);
    } else if step.EndNotify? {
      EndEmitters(s, s', step.n);
    } else if EmitterMoves(step) {
      MoveEffect(cfg, s, step);
      MoveEmitters(s, s', step.n);
    } else {
      ElsewhereEffect(cfg, s, step);
      SameEmitters(s, s');
    }
  }

  lemma SameEmitters(s: State, s': State)
    requires EmittersOk(s) && SameIssues(s, s') && s'.notified == s.notified && s'.inflight == s.inflight
    ensures EmittersOk(s')
  {
    hide IsIssue;
  }

  // ---- Deliveries ----------------------------------------------------------------------------------

  function JobOf(base: nat, log: seq<Issue>, n: nat): Job {
    if base < n <= base + |log| then log[n - base - 1].job else Ambient
  }

  /** Which mailboxes event n has been delivered to, compared with where its emitter stands. */
  ghost predicate DeliveryOk(served: map<string, seq<nat>>, inflight: map<nat, Pc>, n: nat, job: Job) {
    && (forall a :: n in Served(served, a) ==> Addressed(job, a))
    && (n in inflight && inflight[n].Sequenced? ==> forall a :: n !in Served(served, a))
    && (n in inflight && inflight[n].Delivering? ==>
          forall a :: a in inflight[n].boxes ==> n !in Served(served, a) && Addressed(job, a))
    && (job.Send? ==>
          || n in Served(served, job.to)
          || (n in inflight && inflight[n].Sequenced?)
          || (n in inflight && inflight[n].Delivering? && job.to in inflight[n].boxes))
  }

  ghost predicate AtMostOnce(q: seq<nat>) {
    forall n :: multiset(q)[n] <= 1
  }

  /** No mailbox receives a number twice or one that was not issued, every mailbox receives only what is
      addressed to it, and a direct message has reached its recipient once its emitter is past delivery. */
  ghost predicate DeliveriesOk(s: State) {
    && (forall n :: Issued(s, n) ==> DeliveryOk(s.served, s.inflight, n, JobOf(s.base, s.log, n)))
    && (forall a :: AtMostOnce(Served(s.served, a)) && Within(Served(s.served, a), s.base, s.counter))
  }

  ghost predicate Within(q: seq<nat>, base: nat, counter: nat) {
    forall n :: n in q ==> base < n <= counter
  }

  lemma SequenceDeliveries(s: State, s': State, env: Envelope, job: Job)
    requires DeliveriesOk(s) && s.counter == s.base + |s.log|
    requires s'.base == s.base && s'.log == s.log + [Issue(env, job)] && s'.counter == s.counter + 1
    requires s'.served == s.served && s'.inflight == s.inflight[s.counter + 1 := Sequenced(env, job)]
    ensures DeliveriesOk(s')
  {
    hide AtMostOnce, Served, Addressed;
    forall n | Issued(s', n)
      ensures DeliveryOk(s'.served, s'.inflight, n, JobOf(s'.base, s'.log, n))
    {
      if n == s.counter + 1 {
        assert forall a :: n in Served(s.served, a) ==> Within(Served(s.served, a), s.base, s.counter);
      } else {
        assert JobOf(s'.base, s'.log, n) == JobOf(s.base, s.log, n);
      }
    }
  }

  /** The emitter of one event moves on without delivering; nothing changes for the others. */
  lemma MoveDeliveries(s: State, s': State, n: nat, job: Job)
    requires DeliveriesOk(s) && SameIssues(s, s') && s'.served == s.served
    requires job == JobOf(s.base, s.log, n)
    requires forall k :: k != n ==>
        (k in s'.inflight <==> k in s.inflight) && (k in s.inflight ==> s'.inflight[k] == s.inflight[k])
    requires Issued(s, n) ==> DeliveryOk(s'.served, s'.inflight, n, job)
    ensures DeliveriesOk(s')
  {
    hide AtMostOnce, Served, Addressed, JobOf;
    forall k | Issued(s', k)
      ensures DeliveryOk(s'.served, s'.inflight, k, JobOf(s'.base, s'.log, k))
    {
      if k != n {
        assert DeliveryOk(s.served, s.inflight, k, JobOf(s.base, s.log, k));
      }
    }
  }

  lemma AddressedAll(job: Job, roster: set<string>)
    ensures forall a :: a in Addressees(job, roster) ==> Addressed(job, a)
    ensures job.Send? ==> job.to in Addressees(job, roster)
  {
  }

  lemma ServeOnce(q: seq<nat>, n: nat, base: nat, counter: nat)
    requires AtMostOnce(q) && n !in q && Within(q, base, counter) && base < n <= counter
    ensures AtMostOnce(q + [n]) && Within(q + [n], base, counter)
  {
    assert multiset(q)[n] == 0;
  }

  /** One delivery: one more number in one mailbox, one mailbox less to serve. */
  lemma DeliverDeliveries(s: State, s': State, n: nat, agent: string)
    requires DeliveriesOk(s) && SameIssues(s, s') && Issued(s, n)
    requires n in s.inflight && s.inflight[n].Delivering? && agent in s.inflight[n].boxes
    requires s'.served == s.served[agent := Served(s.served, agent) + [n]]
    requires s'.inflight ==
             s.inflight[n := Delivering(s.inflight[n].env, s.inflight[n].job, s.inflight[n].boxes - {agent})]
    ensures DeliveriesOk(s')
  {
    hide AtMostOnce, Within, Addressed, JobOf, DeliveryOk;
    assert DeliveryOk(s.served, s.inflight, n, JobOf(s.base, s.log, n));
    NotServedYet(s, n, agent);
    ServeOnce(Served(s.served, agent), n, s.base, s.counter);
    assert forall a :: a != agent ==> Served(s'.served, a) == Served(s.served, a);
    forall k | Issued(s', k)
      ensures DeliveryOk(s'.served, s'.inflight, k, JobOf(s'.base, s'.log, k))
    {
      assert DeliveryOk(s.served, s.inflight, k, JobOf(s.base, s.log, k));
      DeliverOne(s, s', n, agent, k, JobOf(s.base, s.log, k));
    }
  }

  lemma NotServedYet(s: State, n: nat, agent: string)
    requires n in s.inflight && s.inflight[n].Delivering? && agent in s.inflight[n].boxes
    requires DeliveryOk(s.served, s.inflight, n, JobOf(s.base, s.log, n))
    ensures n !in Served(s.served, agent) && Addressed(JobOf(s.base, s.log, n), agent)
  {
  }

  lemma DeliverOne(s: State, s': State, n: nat, agent: string, k: nat, job: Job)
    requires n in s.inflight && s.inflight[n].Delivering? && agent in s.inflight[n].boxes
    requires s'.served == s.served[agent := Served(s.served, agent) + [n]]
    requires s'.inflight ==
             s.inflight[n := Delivering(s.inflight[n].env, s.inflight[n].job, s.inflight[n].boxes - {agent})]
    requires DeliveryOk(s.served, s.inflight, k, job)
    ensures DeliveryOk(s'.served, s'.inflight, k, job)
  {
    hide Addressed, Served;
    ServedAfter(s.served, agent, n);
  }

  lemma ServedAfter(served: map<string, seq<nat>>, agent: string, n: nat)
    ensures var served' := served[agent := Served(served, agent) + [n]];
            forall k, a :: k in Served(served', a) <==> k in Served(served, a) || (a == agent && k == n)
  {
  }

  lemma DeliveriesKept(cfg: Config, s: State, step: Step)
    requires NumberedLog(s.base, s.log, s.counter) && EmittersOk(s) && DeliveriesOk(s) && Enabled(s, step)
    ensures DeliveriesOk(Do(cfg, s, step))
  {
    hide EmittersOk, DeliveriesOk, Newest, Filter, Addressees, Addressed, Offer, Box, Served, JobOf;
    var s' := Do(cfg, s, step);
    if step.Sequence? {
      SequenceDeliveries(s, s', step.env.(number := s.counter + 1), step.job);
    } else if Elsewhere(step) {
      ElsewhereEffect(cfg, s, step);
      QuietDeliveries(s, s');
    } else {
      EmitterKnown(s, step.n);
      if step.DeliverTo? {
        DeliverDeliveries(s, s', step.n, step.agent);
      } else {
        MoveOneDelivery(cfg, s, step);
        MoveDeliveries(s, s', step.n, s.inflight[step.n].job);
      }
    }
  }

  lemma QuietDeliveries(s: State, s': State)
    requires DeliveriesOk(s) && SameIssues(s, s') && s'.served == s.served && s'.inflight == s.inflight
    ensures DeliveriesOk(s')
  {
    hide DeliveryOk, AtMostOnce, Served, JobOf;
  }

  lemma EmitterKnown(s: State, n: nat)
    requires EmittersOk(s) && n in s.inflight && s.counter == s.base + |s.log|
    ensures Issued(s, n) && JobOf(s.base, s.log, n) == s.inflight[n].job
    ensures IsIssue(s.base, s.log, n, s.inflight[n].env, s.inflight[n].job)
  {
  }

  lemma MoveOneDelivery(cfg: Config, s: State, step: Step)
    requires DeliveriesOk(s) && Enabled(s, step) && (EmitterMoves(step) || step.EndNotify?) && !step.DeliverTo?
    requires Issued(s, step.n) && JobOf(s.base, s.log, step.n) == s.inflight[step.n].job
    ensures var s' := Do(cfg, s, step);
            && SameIssues(s, s') && s'.served == s.served
            && DeliveryOk(s'.served, s'.inflight, step.n, s.inflight[step.n].job)
            && (forall k :: k != step.n ==>
                 (k in s'.inflight <==> k in s.inflight) && (k in s.inflight ==> s'.inflight[k] == s.inflight[k]))
  {
    hide Newest, Filter, Addressees, Addressed, Offer, Box, Served, AtMostOnce;
    var job := s.inflight[step.n].job;
    assert DeliveryOk(s.served, s.inflight, step.n, job);
    if step.ReadRoster? {
      AddressedAll(job, step.roster);
    }
  }

  // ---- Mailbox contents ----------------------------------------------------------------------------

  /** x is the event that was issued under its number. */
  predicate Genuine(base: nat, log: seq<Issue>, x: Envelope) {
    base < x.number <= base + |log| && log[x.number - base - 1].env == x
  }

  /** A mailbox holds restored entries and issued events it has been served, each number once. */
  ghost predicate BoxOk(base: nat, log: seq<Issue>, served: seq<nat>, q: seq<Envelope>) {
    && (forall x :: x in q ==> x.number <= base || (x.number in served && Genuine(base, log, x)))
    && Distinct(q)
  }

  ghost predicate BoxesOk(s: State) {
    forall a :: BoxOk(s.base, s.log, Served(s.served, a), Box(s.boxes, a))
  }

  lemma BoxLater(base: nat, log: seq<Issue>, served: seq<nat>, q: seq<Envelope>, x: Issue)
    requires BoxOk(base, log, served, q)
    ensures BoxOk(base, log + [x], served, q)
  {
    hide Distinct;
  }

  lemma BoxPush(base: nat, log: seq<Issue>, served: seq<nat>, q: seq<Envelope>, x: Envelope, max: nat)
    requires BoxOk(base, log, served, q) && Genuine(base, log, x) && x.number !in served
    ensures BoxOk(base, log, served + [x.number], Newest(q + [x], max))
  {
    hide Newest;
    NewestSuffix(q + [x], max);
    assert forall i :: 0 <= i < |q| ==> q[i] in q && q[i].number != x.number;
  }

  lemma {:induction false} BoxFilter(base: nat, log: seq<Issue>, served: seq<nat>, q: seq<Envelope>,
      p: Envelope -> bool)
    requires BoxOk(base, log, served, q)
    ensures BoxOk(base, log, served, Filter(q, p))
  {
    hide Genuine;
    FilterMembers(q, p);
    FilterDistinct(q, p);
  }

  lemma {:induction false} FilterDistinct(q: seq<Envelope>, p: Envelope -> bool)
    requires Distinct(q)
    ensures Distinct(Filter(q, p))
  {
    if q != [] {
      var r := q[..|q| - 1];
      FilterDistinct(r, p);
      FilterMembers(r, p);
      assert forall i :: 0 <= i < |Filter(r, p)| ==> Filter(r, p)[i] in r;
    }
  }

  lemma EmptyBox(base: nat, log: seq<Issue>, served: seq<nat>)
    ensures BoxOk(base, log, served, [])
  {
  }

  lemma BoxesKept(cfg: Config, s: State, step: Step)
    requires NumberedLog(s.base, s.log, s.counter) && EmittersOk(s) && DeliveriesOk(s) && BoxesOk(s) && Enabled(s, step)
    ensures BoxesOk(Do(cfg, s, step))
  {
    hide EmittersOk, DeliveriesOk, NumberedLog, BoxOk, Newest, Filter, Addressees, Offer;
    var s' := Do(cfg, s, step);
    if step.DeliverTo? {
      DeliverBoxes(cfg, s, step);
    } else {
      forall a
        ensures BoxOk(s'.base, s'.log, Served(s'.served, a), Box(s'.boxes, a))
      {
        assert BoxOk(s.base, s.log, Served(s.served, a), Box(s.boxes, a));
        if step.Sequence? {
          BoxLater(s.base, s.log, Served(s.served, a), Box(s.boxes, a), Issue(step.env.(number := s.counter + 1),
              step.job));
        } else if step.DrainBox? && a == step.agent {
          BoxFilter(s.base, s.log, Served(s.served, a), Box(s.boxes, a), Unmatched(step.from, step.kind));
        } else if step.DeleteBox? && a == step.agent {
          EmptyBox(s.base, s.log, Served(s.served, a));
        }
      }
    }
  }

  lemma DeliverBoxes(cfg: Config, s: State, step: Step)
    requires step.DeliverTo? && Enabled(s, step)
    requires NumberedLog(s.base, s.log, s.counter) && EmittersOk(s) && DeliveriesOk(s) && BoxesOk(s)
    ensures BoxesOk(Do(cfg, s, step))
  {
    hide EmittersOk, DeliveriesOk, NumberedLog, BoxOk, Newest, Filter, Addressees, Offer, JobOf;
    var s' := Do(cfg, s, step);
    var pc := s.inflight[step.n];
    AboutToDeliver(s, step.n, step.agent);
    assert BoxOk(s.base, s.log, Served(s.served, step.agent), Box(s.boxes, step.agent));
    BoxPush(s.base, s.log, Served(s.served, step.agent), Box(s.boxes, step.agent), pc.env, cfg.maxBox);
    forall a
      ensures BoxOk(s'.base, s'.log, Served(s'.served, a), Box(s'.boxes, a))
    {
      assert BoxOk(s.base, s.log, Served(s.served, a), Box(s.boxes, a));
    }
  }

  lemma AboutToDeliver(s: State, n: nat, agent: string)
    requires NumberedLog(s.base, s.log, s.counter) && EmittersOk(s) && DeliveriesOk(s)
    requires n in s.inflight && s.inflight[n].Delivering? && agent in s.inflight[n].boxes
    ensures Genuine(s.base, s.log, s.inflight[n].env) && s.inflight[n].env.number == n
    ensures n !in Served(s.served, agent)
  {
    hide Served, Addressed;
    assert IsIssue(s.base, s.log, n, s.inflight[n].env, s.inflight[n].job);
    assert DeliveryOk(s.served, s.inflight, n, JobOf(s.base, s.log, n));
  }

  // ---- Watch connections ---------------------------------------------------------------------------

  /** Everything the watcher has offered to a connection. */
  function Offered(k: Conn): multiset<Envelope> {
    multiset(k.sent) + multiset(k.buffer) + multiset(k.dropped)
  }

  /** Event n has been offered to connection c: its fan-out ended after the subscribe, or has passed c. */
  predicate Told(inflight: map<nat, Pc>, notified: set<nat>, c: nat, before: set<nat>, n: nat) {
    || (n in notified && n !in before)
    || (n in inflight && inflight[n].Notifying? && c !in inflight[n].todo)
  }

  function EnvAt(base: nat, log: seq<Issue>, n: nat): Envelope
    requires base < n <= base + |log|
  {
    log[n - base - 1].env
  }

  /** A connection has been offered exactly the events it was told of, each once, as they were issued. */
  ghost predicate StreamOk(base: nat, log: seq<Issue>, inflight: map<nat, Pc>, notified: set<nat>, c: nat, k: Conn) {
    && (forall x :: Offered(k)[x] <= 1)
    && (forall x :: x in Offered(k) ==> Genuine(base, log, x) && Told(inflight, notified, c, k.before, x.number))
    && (forall n :: base < n <= base + |log| && Told(inflight, notified, c, k.before, n) ==>
         EnvAt(base, log, n) in Offered(k))
    && k.before <= notified
  }

  /** The replayed history is the window at the moment of the copy, taken after the subscribe. */
  ghost predicate CopyOk(max: nat, base: nat, boot: seq<Envelope>, log: seq<Issue>, k: Conn) {
    if k.live then
      && k.copyAt <= |log|
      && k.copied == Newest(FullHistory(boot, log[..k.copyAt]), max)
      && forall n :: n in k.before ==> n <= base + k.copyAt
    else
      k.sent == [] && k.copied == []
  }

  ghost predicate ConnOk(cfg: Config, s: State, c: nat)
    requires c in s.conns
  {
    && StreamOk(s.base, s.log, s.inflight, s.notified, c, s.conns[c])
    && CopyOk(cfg.maxHistory, s.base, s.boot, s.log, s.conns[c])
    && BufferOk(s.conns[c], cfg.capacity)
  }

  /** The channel hands events over in the order it took them, and drops one only when it is full. */
  ghost predicate BufferOk(k: Conn, capacity: nat) {
    && |k.buffer| <= capacity
    && k.sent + k.buffer == k.accepted
    && (k.dropped != [] ==> |k.accepted| >= capacity)
  }

  ghost predicate ConnsOk(cfg: Config, s: State) {
    && (forall c :: c in s.conns ==> ConnOk(cfg, s, c))
    && (forall n :: n in s.inflight && s.inflight[n].Notifying? ==> s.inflight[n].todo <= s.conns.Keys)
  }

  lemma LogGrows(base: nat, log: seq<Issue>, x: Issue)
    ensures forall e :: Genuine(base, log, e) ==> Genuine(base, log + [x], e)
    ensures forall n :: base < n <= base + |log| ==> EnvAt(base, log + [x], n) == EnvAt(base, log, n)
  {
  }

  /** A new event has not been offered to anybody. */
  lemma StreamGrows(base: nat, log: seq<Issue>, x: Issue, inflight: map<nat, Pc>, notified: set<nat>, c: nat, k: Conn)
    requires StreamOk(base, log, inflight, notified, c, k)
    requires !Told(inflight, notified, c, k.before, base + |log| + 1)
    ensures StreamOk(base, log + [x], inflight, notified, c, k)
  {
    hide Offered, Told, Genuine, EnvAt;
    LogGrows(base, log, x);
    forall m | base < m <= base + |log + [x]| && Told(inflight, notified, c, k.before, m)
      ensures EnvAt(base, log + [x], m) in Offered(k)
    {
      assert EnvAt(base, log, m) in Offered(k);
    }
  }

  lemma CopyGrows(max: nat, base: nat, boot: seq<Envelope>, log: seq<Issue>, x: Issue, k: Conn)
    requires CopyOk(max, base, boot, log, k)
    ensures CopyOk(max, base, boot, log + [x], k)
  {
    hide Newest, FullHistory;
    assert k.copyAt <= |log| ==> (log + [x])[..k.copyAt] == log[..k.copyAt];
  }

  /** Nothing the connection can see has changed. */
  lemma StreamSame(base: nat, log: seq<Issue>, i: map<nat, Pc>, d: set<nat>, i': map<nat, Pc>, d': set<nat>, c: nat,
      k: Conn)
    requires StreamOk(base, log, i, d, c, k) && k.before <= d'
    requires forall n :: Told(i', d', c, k.before, n) == Told(i, d, c, k.before, n)
    ensures StreamOk(base, log, i', d', c, k)
  {
    hide Offered, Told, Genuine;
  }

  /** The fan-out of event n reaches connection c. */
  lemma StreamOffer(base: nat, log: seq<Issue>, i: map<nat, Pc>, d: set<nat>, n: nat, c: nat, k: Conn, capacity: nat)
    requires StreamOk(base, log, i, d, c, k)
    requires n in i && i[n].Notifying? && c in i[n].todo && n !in d
    requires Genuine(base, log, i[n].env) && i[n].env.number == n
    ensures StreamOk(base, log, i[n := Notifying(i[n].env, i[n].job, i[n].todo - {c})], d, c,
                    Offer(k, i[n].env, capacity))
  {
    hide Offered, Offer, Genuine, Told;
    var x := i[n].env;
    var i' := i[n := Notifying(x, i[n].job, i[n].todo - {c})];
    var k' := Offer(k, x, capacity);
    OfferOne(k, x, capacity);
    ToldOne(i, d, n, c, k.before);
    OnlyEnv(base, log, x);
    assert x !in Offered(k);
  }

  lemma ToldOne(i: map<nat, Pc>, d: set<nat>, n: nat, c: nat, before: set<nat>)
    requires n in i && i[n].Notifying? && c in i[n].todo && n !in d
    ensures !Told(i, d, c, before, n)
    ensures var i' := i[n := Notifying(i[n].env, i[n].job, i[n].todo - {c})];
            forall m :: Told(i', d, c, before, m) == (Told(i, d, c, before, m) || m == n)
  {
  }

  lemma OnlyEnv(base: nat, log: seq<Issue>, x: Envelope)
    requires Genuine(base, log, x)
    ensures base < x.number <= base + |log| && EnvAt(base, log, x.number) == x
  {
  }

  lemma OfferOne(k: Conn, x: Envelope, capacity: nat)
    ensures Offered(Offer(k, x, capacity)) == Offered(k) + multiset{x}
    ensures var k' := Offer(k, x, capacity);
            k'.before == k.before && k'.live == k.live && k'.copied == k.copied &&
            k'.copyAt == k.copyAt && k'.sent == k.sent
  {
  }

  lemma OfferBuffer(k: Conn, x: Envelope, capacity: nat)
    requires BufferOk(k, capacity)
    ensures BufferOk(Offer(k, x, capacity), capacity)
  {
    assert k.sent + (k.buffer + [x]) == k.sent + k.buffer + [x];
  }

  lemma TakeOne(k: Conn, capacity: nat)
    requires k.buffer != [] && BufferOk(k, capacity)
    ensures var k' := k.(sent := k.sent + [k.buffer[0]], buffer := k.buffer[1..]);
            Offered(k') == Offered(k) && BufferOk(k', capacity)
  {
    hide Offered, BufferOk;
    TakeKeeps(k);
    TakeBuffer(k, capacity);
  }

  lemma TakeKeeps(k: Conn)
    requires k.buffer != []
    ensures Offered(k.(sent := k.sent + [k.buffer[0]], buffer := k.buffer[1..])) == Offered(k)
  {
    assert k.buffer == [k.buffer[0]] + k.buffer[1..];
    assert multiset(k.buffer) == multiset{k.buffer[0]} + multiset(k.buffer[1..]);
  }

  lemma TakeBuffer(k: Conn, capacity: nat)
    requires k.buffer != [] && BufferOk(k, capacity)
    ensures BufferOk(k.(sent := k.sent + [k.buffer[0]], buffer := k.buffer[1..]), capacity)
  {
    assert k.sent + [k.buffer[0]] + k.buffer[1..] == k.sent + k.buffer;
  }

  /** A step that changes no connection and tells nobody anything. */
  lemma ConnsUntold(cfg: Config, s: State, s': State)
    requires ConnsOk(cfg, s) && SameIssues(s, s') && s'.conns == s.conns && s.notified <= s'.notified
    requires forall c, n :: c in s.conns ==>
               Told(s'.inflight, s'.notified, c, s.conns[c].before, n) == Told(s.inflight, s.notified, c,
                   s.conns[c].before, n)
    requires forall n :: n in s'.inflight && s'.inflight[n].Notifying? ==> s'.inflight[n].todo <= s.conns.Keys
    ensures ConnsOk(cfg, s')
  {
    hide Told, StreamOk, CopyOk;
    forall c | c in s'.conns
      ensures ConnOk(cfg, s', c)
    {
      assert ConnOk(cfg, s, c);
      BeforeNotified(s, c);
      StreamSame(s.base, s.log, s.inflight, s.notified, s'.inflight, s'.notified, c, s.conns[c]);
    }
  }

  lemma BeforeNotified(s: State, c: nat)
    requires c in s.conns && StreamOk(s.base, s.log, s.inflight, s.notified, c, s.conns[c])
    ensures s.conns[c].before <= s.notified
  {
  }

  lemma MoveConns(cfg: Config, s: State, step: Step)
    requires ConnsOk(cfg, s) && Enabled(s, step) && EmitterMoves(step) && !step.Notify?
    requires forall n :: n in s.inflight ==> n !in s.notified
    ensures ConnsOk(cfg, Do(cfg, s, step))
  {
    hide ConnOk, Newest, Filter, Addressees, Box, Served, Genuine;
    var s' := Do(cfg, s, step);
    MoveEffect(cfg, s, step);
    MoveTold(cfg, s, step);
    ConnsUntold(cfg, s, s');
  }

  lemma MoveTold(cfg: Config, s: State, step: Step)
    requires Enabled(s, step) && EmitterMoves(step) && !step.Notify?
    ensures var s' := Do(cfg, s, step);
            && s'.conns == s.conns
            && (forall n :: n in s'.inflight && s'.inflight[n].Notifying? ==>
                  (n in s.inflight && s'.inflight[n] == s.inflight[n]) || s'.inflight[n].todo == s.conns.Keys)
            && (forall c, before, n :: c in s.conns ==>
                  Told(s'.inflight, s'.notified, c, before, n) == Told(s.inflight, s.notified, c, before, n))
  {
    hide Newest, Filter, Addressees, Box, Served;
  }

  lemma SequenceConns(cfg: Config, s: State, s': State, x: Issue)
    requires ConnsOk(cfg, s) && EmittersOk(s) && s.counter == s.base + |s.log|
    requires s'.base == s.base && s'.boot == s.boot && s'.log == s.log + [x] && s'.conns == s.conns
    requires s'.notified == s.notified && s'.inflight == s.inflight[s.counter + 1 := Sequenced(x.env, x.job)]
    ensures ConnsOk(cfg, s')
  {
    hide StreamOk, CopyOk, IsIssue;
    NewIsUntold(s);
    forall c | c in s'.conns
      ensures ConnOk(cfg, s', c)
    {
      assert ConnOk(cfg, s, c);
      BeforeNotified(s, c);
      StreamGrows(s.base, s.log, x, s.inflight, s.notified, c, s.conns[c]);
      StreamSame(s.base, s'.log, s.inflight, s.notified, s'.inflight, s'.notified, c, s.conns[c]);
      CopyGrows(cfg.maxHistory, s.base, s.boot, s.log, x, s.conns[c]);
    }
  }

  lemma NewIsUntold(s: State)
    requires EmittersOk(s)
    ensures s.counter + 1 !in s.inflight && s.counter + 1 !in s.notified
  {
  }

  /** Offering to one connection changes what that connection has been told, and nothing else. */
  lemma NotifyConns(cfg: Config, s: State, s': State, n: nat, c: nat)
    requires ConnsOk(cfg, s) && SameIssues(s, s') && s'.notified == s.notified
    requires n in s.inflight && s.inflight[n].Notifying? && c in s.inflight[n].todo && c in s.conns && n !in s.notified
    requires Genuine(s.base, s.log, s.inflight[n].env) && s.inflight[n].env.number == n
    requires s'.conns == s.conns[c := Offer(s.conns[c], s.inflight[n].env, cfg.capacity)]
    requires s'.inflight == s.inflight[n := Notifying(s.inflight[n].env, s.inflight[n].job, s.inflight[n].todo - {c})]
    ensures ConnsOk(cfg, s')
  {
    hide StreamOk, CopyOk, Genuine, Offer, Told;
    forall k | k in s'.conns
      ensures ConnOk(cfg, s', k)
    {
      assert ConnOk(cfg, s, k);
      if k == c {
        StreamOffer(s.base, s.log, s.inflight, s.notified, n, c, s.conns[c], cfg.capacity);
        OfferOne(s.conns[c], s.inflight[n].env, cfg.capacity);
        OfferBuffer(s.conns[c], s.inflight[n].env, cfg.capacity);
        CopyOther(cfg.maxHistory, s.base, s.boot, s.log, s.conns[c], s'.conns[c]);
      } else {
        ToldOther(s.inflight, s.notified, n, c, k, s.conns[k].before);
        BeforeNotified(s, k);
        StreamSame(s.base, s.log, s.inflight, s.notified, s'.inflight, s'.notified, k, s.conns[k]);
      }
    }
  }

  lemma ToldOther(i: map<nat, Pc>, d: set<nat>, n: nat, c: nat, k: nat, before: set<nat>)
    requires n in i && i[n].Notifying? && k != c
    ensures var i' := i[n := Notifying(i[n].env, i[n].job, i[n].todo - {c})];
            forall m :: Told(i', d, k, before, m) == Told(i, d, k, before, m)
  {
  }

  lemma CopyOther(max: nat, base: nat, boot: seq<Envelope>, log: seq<Issue>, k: Conn, k': Conn)
    requires CopyOk(max, base, boot, log, k)
    requires k'.live == k.live && k'.copied == k.copied && k'.copyAt == k.copyAt
    requires k'.before == k.before && k'.sent == k.sent
    ensures CopyOk(max, base, boot, log, k')
  {
    hide Newest, FullHistory;
  }

  /** The end of a fan-out: every connection has been served. */
  lemma EndConns(cfg: Config, s: State, s': State, n: nat)
    requires ConnsOk(cfg, s) && SameIssues(s, s') && s'.conns == s.conns
    requires n in s.inflight && s.inflight[n].Notifying? && s.inflight[n].todo == {} && n !in s.notified
    requires s'.notified == s.notified + {n} && s'.inflight == s.inflight - {n}
    ensures ConnsOk(cfg, s')
  {
    hide CopyOk, StreamOk, Told;
    forall c | c in s.conns
      ensures forall m ::
                Told(s'.inflight, s'.notified, c, s.conns[c].before, m) ==
                Told(s.inflight, s.notified, c, s.conns[c].before, m)
    {
      assert ConnOk(cfg, s, c);
      BeforeNotified(s, c);
      ToldEnd(s.inflight, s.notified, n, c, s.conns[c].before);
    }
    ConnsUntold(cfg, s, s');
  }

  lemma ToldEnd(i: map<nat, Pc>, d: set<nat>, n: nat, c: nat, before: set<nat>)
    requires n in i && i[n].Notifying? && i[n].todo == {} && n !in d && before <= d
    ensures forall m :: Told(i - {n}, d + {n}, c, before, m) == Told(i, d, c, before, m)
  {
  }

  /** A new connection has been told nothing: everything notified so far was notified before it. */
  lemma SubscribeConns(cfg: Config, s: State, s': State, c: nat)
    requires ConnsOk(cfg, s) && SameIssues(s, s') && s'.notified == s.notified && s'.inflight == s.inflight
    requires c !in s.conns && !WatcherLocked(s.inflight)
    requires s'.conns == s.conns[c := Conn(false, [], 0, s.notified, [], [], [], [])]
    ensures ConnsOk(cfg, s')
  {
    hide StreamOk, CopyOk;
    NewStream(s, c);
    forall k | k in s'.conns
      ensures ConnOk(cfg, s', k)
    {
      if k != c {
        assert ConnOk(cfg, s, k);
      }
    }
  }

  lemma NewStream(s: State, c: nat)
    requires !WatcherLocked(s.inflight)
    ensures var k := Conn(false, [], 0, s.notified, [], [], [], []);
            StreamOk(s.base, s.log, s.inflight, s.notified, c, k)
            && forall max :: CopyOk(max, s.base, s.boot, s.log, k)
  {
    var k := Conn(false, [], 0, s.notified, [], [], [], []);
    assert Offered(k) == multiset{};
  }

  /** One connection changes in a way that keeps what it was offered; the others do not change. */
  lemma OneConn(cfg: Config, s: State, s': State, c: nat)
    requires ConnsOk(cfg, s) && SameIssues(s, s') && s'.notified == s.notified && s'.inflight == s.inflight
    requires c in s.conns && c in s'.conns && s'.conns == s.conns[c := s'.conns[c]]
    requires Offered(s'.conns[c]) == Offered(s.conns[c]) && s'.conns[c].before == s.conns[c].before
    requires CopyOk(cfg.maxHistory, s.base, s.boot, s.log, s'.conns[c]) && BufferOk(s'.conns[c], cfg.capacity)
    ensures ConnsOk(cfg, s')
  {
    hide Offered, CopyOk, Told, Genuine, EnvAt;
    forall k | k in s'.conns
      ensures ConnOk(cfg, s', k)
    {
      assert ConnOk(cfg, s, k);
    }
  }

  /** Everything notified has been issued, so the copy is taken after it. */
  lemma CopyConns(cfg: Config, s: State, step: Step)
    requires ConnsOk(cfg, s) && HistoryOk(cfg, s) && EmittersOk(s) && step.CopyHistory? && Enabled(s, step)
    ensures ConnsOk(cfg, Do(cfg, s, step))
  {
    hide Offered, StreamOk, Newest, FullHistory, Ordered, Below;
    var s' := Do(cfg, s, step);
    var k := s.conns[step.c];
    assert ConnOk(cfg, s, step.c);
    BeforeNotified(s, step.c);
    assert s.log[..|s.log|] == s.log;
    CopiedKeeps(k, |s.log|, s.history);
    OneConn(cfg, s, s', step.c);
  }

  lemma CopiedKeeps(k: Conn, at: nat, h: seq<Envelope>)
    ensures Offered(k.(live := true, copied := h, copyAt := at)) == Offered(k)
  {
  }

  lemma ReceiveConns(cfg: Config, s: State, step: Step)
    requires ConnsOk(cfg, s) && step.Receive? && Enabled(s, step)
    ensures ConnsOk(cfg, Do(cfg, s, step))
  {
    hide Offered, StreamOk, Newest, FullHistory;
    var s' := Do(cfg, s, step);
    assert ConnOk(cfg, s, step.c);
    TakeOne(s.conns[step.c], cfg.capacity);
    OneConn(cfg, s, s', step.c);
  }

  lemma UnsubscribeConns(cfg: Config, s: State, s': State, c: nat)
    requires ConnsOk(cfg, s) && SameIssues(s, s') && s'.notified == s.notified && s'.inflight == s.inflight
    requires !WatcherLocked(s.inflight) && s'.conns == s.conns - {c}
    ensures ConnsOk(cfg, s')
  {
    hide StreamOk, CopyOk;
    forall k | k in s'.conns
      ensures ConnOk(cfg, s', k)
    {
      assert ConnOk(cfg, s, k);
    }
  }

  lemma QuietConns(cfg: Config, s: State, s': State)
    requires ConnsOk(cfg, s) && SameIssues(s, s') && s'.notified == s.notified && s'.inflight == s.inflight
    requires s'.conns == s.conns
    ensures ConnsOk(cfg, s')
  {
    hide StreamOk, CopyOk;
    forall k | k in s'.conns
      ensures ConnOk(cfg, s', k)
    {
      assert ConnOk(cfg, s, k);
    }
  }

  predicate ChangesConns(step: Step) {
    step.Subscribe? || step.CopyHistory? || step.Receive? || step.Unsubscribe?
  }

  lemma QuietEffect(cfg: Config, s: State, step: Step)
    requires Elsewhere(step) && !ChangesConns(step) && Enabled(s, step)
    ensures Do(cfg, s, step).conns == s.conns
  {
    hide Newest, Filter, Addressees, Offer, Box, Served;
  }

  lemma ElsewhereConns(cfg: Config, s: State, step: Step)
    requires ConnsOk(cfg, s) && HistoryOk(cfg, s) && EmittersOk(s) && Elsewhere(step) && Enabled(s, step)
    ensures ConnsOk(cfg, Do(cfg, s, step))
  {
    hide ConnsOk, HistoryOk, EmittersOk, Newest, Filter, Addressees, Offer, Box, Served;
    var s' := Do(cfg, s, step);
    ElsewhereEffect(cfg, s, step);
    if step.Subscribe? {
      SubscribeConns(cfg, s, s', step.c);
    } else if step.CopyHistory? {
      CopyConns(cfg, s, step);
    } else if step.Receive? {
      ReceiveConns(cfg, s, step);
    } else if step.Unsubscribe? {
      UnsubscribeConns(cfg, s, s', step.c);
    } else {
      QuietEffect(cfg, s, step);
      QuietConns(cfg, s, s');
    }
  }

  lemma InflightKnown(s: State, n: nat)
    requires EmittersOk(s) && n in s.inflight
    ensures n !in s.notified && Genuine(s.base, s.log, s.inflight[n].env) && s.inflight[n].env.number == n
    requires NumberedLog(s.base, s.log, s.counter)
  {
    assert IsIssue(s.base, s.log, n, s.inflight[n].env, s.inflight[n].job);
  }

  lemma NoneNotifiedTwice(s: State)
    requires EmittersOk(s)
    ensures forall n :: n in s.inflight ==> n !in s.notified
  {
    hide IsIssue;
  }

  lemma HistoryNumbered(cfg: Config, s: State)
    requires HistoryOk(cfg, s)
    ensures NumberedLog(s.base, s.log, s.counter) && s.counter == s.base + |s.log|
  {
    hide Newest, FullHistory, Ordered, Below;
  }

  lemma ConnsKept(cfg: Config, s: State, step: Step)
    requires ConnsOk(cfg, s) && HistoryOk(cfg, s) && EmittersOk(s) && Enabled(s, step)
    ensures ConnsOk(cfg, Do(cfg, s, step))
  {
    hide ConnsOk, HistoryOk, EmittersOk, NumberedLog, Newest, Filter, Addressees, Offer, Box, Served, Genuine;
    var s' := Do(cfg, s, step);
    HistoryNumbered(cfg, s);
    NoneNotifiedTwice(s);
    if step.Sequence? {
      SequenceConns(cfg, s, s', Issue(step.env.(number := s.counter + 1), step.job));
    } else if step.Notify? {
      MoveEffect(cfg, s, step);
      InflightKnown(s, step.n);
      NotifyConns(cfg, s, s', step.n, step.c);
    } else if step.EndNotify? {
      EndConns(cfg, s, s', step.n);
    } else if EmitterMoves(step) {
      MoveConns(cfg, s, step);
    } else {
      ElsewhereConns(cfg, s, step);
    }
  }

  // ---- Fan-out completeness --------------------------------------------------------------------------

  /** Agent has been served event n, or n's emitter is about to serve it. */
  predicate Due(served: map<string, seq<nat>>, inflight: map<nat, Pc>, n: nat, agent: string) {
    n in Served(served, agent) || (n in inflight && inflight[n].Delivering? && agent in inflight[n].boxes)
  }

  /** Exactly the mailboxes in `to` have been served or are about to be. */
  ghost predicate Reaches(served: map<string, seq<nat>>, inflight: map<nat, Pc>, n: nat, to: set<string>) {
    forall a :: a in to <==> Due(served, inflight, n, a)
  }

  ghost predicate FanoutOk(s: State) {
    && (forall n :: n in s.rosters ==>
         Issued(s, n) && Reaches(s.served, s.inflight, n, Addressees(JobOf(s.base, s.log, n), s.rosters[n])))
    && (forall n :: Issued(s, n) && n !in s.rosters ==> n in s.inflight && s.inflight[n].Sequenced?)
  }

  lemma SequenceFanout(s: State, s': State, x: Issue)
    requires FanoutOk(s) && s.counter == s.base + |s.log|
    requires s'.base == s.base && s'.log == s.log + [x] && s'.counter == s.counter + 1
    requires s'.served == s.served && s'.rosters == s.rosters
    requires s'.inflight == s.inflight[s.counter + 1 := Sequenced(x.env, x.job)]
    ensures FanoutOk(s')
  {
    hide Served, Addressees;
    forall n | n in s'.rosters
      ensures Issued(s', n) && Reaches(s'.served, s'.inflight, n, Addressees(JobOf(s'.base, s'.log, n), s'.rosters[n]))
    {
      assert JobOf(s'.base, s'.log, n) == JobOf(s.base, s.log, n);
    }
  }

  /** The roster decides whom the event is for; nobody has been served it before. */
  lemma RosterFanout(s: State, s': State, n: nat, roster: set<string>)
    requires FanoutOk(s) && SameIssues(s, s') && s'.served == s.served
    requires Issued(s, n) && n in s.inflight && s.inflight[n].job == JobOf(s.base, s.log, n)
    requires forall a :: n !in Served(s.served, a)
    requires s'.rosters == s.rosters[n := roster]
    requires s'.inflight ==
             s.inflight[n := Delivering(s.inflight[n].env, s.inflight[n].job, Addressees(s.inflight[n].job, roster))]
    ensures FanoutOk(s')
  {
    hide Served, Addressees, JobOf;
    forall k | k in s'.rosters
      ensures Issued(s', k) && Reaches(s'.served, s'.inflight, k, Addressees(JobOf(s'.base, s'.log, k), s'.rosters[k]))
    {
      if k != n {
        assert Reaches(s.served, s.inflight, k, Addressees(JobOf(s.base, s.log, k), s.rosters[k]));
      }
    }
  }

  lemma LaterFanout(s: State, s': State)
    requires FanoutOk(s) && SameIssues(s, s') && s'.rosters == s.rosters
    requires forall n, a :: Due(s'.served, s'.inflight, n, a) == Due(s.served, s.inflight, n, a)
    requires forall n :: n in s.inflight && s.inflight[n].Sequenced? ==> n in s'.inflight && s'.inflight[n].Sequenced?
    ensures FanoutOk(s')
  {
    hide Due, Addressees, JobOf;
    forall n | n in s'.rosters
      ensures Issued(s', n) && Reaches(s'.served, s'.inflight, n, Addressees(JobOf(s'.base, s'.log, n), s'.rosters[n]))
    {
      assert Reaches(s.served, s.inflight, n, Addressees(JobOf(s.base, s.log, n), s.rosters[n]));
    }
  }

  lemma MoveFanout(cfg: Config, s: State, step: Step)
    requires Enabled(s, step) && (EmitterMoves(step) || step.EndNotify?) && !step.ReadRoster?
    ensures var s' := Do(cfg, s, step);
            && SameIssues(s, s') && s'.rosters == s.rosters
            && (forall n, a :: Due(s'.served, s'.inflight, n, a) == Due(s.served, s.inflight, n, a))
            && (forall n :: n in s.inflight && s.inflight[n].Sequenced? ==>
                 n in s'.inflight && s'.inflight[n].Sequenced?)
  {
    hide Newest, Filter, Addressees, Box, Offer, Served;
    if step.DeliverTo? {
      ServedAfter(s.served, step.agent, step.n);
    }
  }

  lemma NobodyServed(s: State, n: nat)
    requires DeliveriesOk(s) && Issued(s, n) && n in s.inflight && s.inflight[n].Sequenced?
    ensures forall a :: n !in Served(s.served, a)
  {
    hide Served, AtMostOnce, Within, JobOf;
    assert DeliveryOk(s.served, s.inflight, n, JobOf(s.base, s.log, n));
  }

  lemma ElsewhereRosters(cfg: Config, s: State, step: Step)
    requires Elsewhere(step) && Enabled(s, step)
    ensures Do(cfg, s, step).rosters == s.rosters
  {
    hide Newest, Filter, Addressees, Box, Offer, Served;
  }

  lemma FanoutKept(cfg: Config, s: State, step: Step)
    requires NumberedLog(s.base, s.log, s.counter) && EmittersOk(s) && DeliveriesOk(s)
    requires FanoutOk(s) && Enabled(s, step)
    ensures FanoutOk(Do(cfg, s, step))
  {
    hide EmittersOk, DeliveriesOk, FanoutOk, Newest, Filter, Addressees, Box, Offer, Served, JobOf, Due;
    var s' := Do(cfg, s, step);
    if step.Sequence? {
      SequenceFanout(s, s', Issue(step.env.(number := s.counter + 1), step.job));
    } else if step.ReadRoster? {
      EmitterKnown(s, step.n);
      NobodyServed(s, step.n);
      RosterFanout(s, s', step.n, step.roster);
    } else if Elsewhere(step) {
      ElsewhereEffect(cfg, s, step);
      ElsewhereRosters(cfg, s, step);
      LaterFanout(s, s');
    } else {
      MoveFanout(cfg, s, step);
      LaterFanout(s, s');
    }
  }

  // ---- Fuzzy snapshots -------------------------------------------------------------------------------

  ghost predicate SavedHistoryOk(max: nat, h: seq<Envelope>, top: nat) {
    Ordered(h) && Below(h, top) && |h| <= max
  }

  ghost predicate SavedBoxesOk(boxes: map<string, seq<Envelope>>, top: nat) {
    BoxesBelow(boxes, top) && BoxesDistinct(boxes)
  }

  /** Whatever has been captured so far is numbered up to the counter, which is captured last. */
  ghost predicate SnapOk(cfg: Config, s: State) {
    match s.snap
    case Idle => true
    case SavingBoxes(_, boxes) => SavedBoxesOk(boxes, s.counter)
    case SavedBoxes(boxes) => SavedBoxesOk(boxes, s.counter)
    case SavedHistory(boxes, h) => SavedBoxesOk(boxes, s.counter) && SavedHistoryOk(cfg.maxHistory, h, s.counter)
    case Saved(boxes, h, n) => SavedBoxesOk(boxes, n) && SavedHistoryOk(cfg.maxHistory, h, n)
  }

  lemma SavedLater(max: nat, boxes: map<string, seq<Envelope>>, h: seq<Envelope>, top: nat)
    ensures SavedBoxesOk(boxes, top) ==> SavedBoxesOk(boxes, top + 1)
    ensures SavedHistoryOk(max, h, top) ==> SavedHistoryOk(max, h, top + 1)
  {
    hide Ordered, Distinct;
    assert Below(h, top) ==> Below(h, top + 1);
    assert forall a :: a in boxes && Below(boxes[a], top) ==> Below(boxes[a], top + 1);
  }

  lemma HistorySaved(cfg: Config, s: State)
    requires HistoryOk(cfg, s)
    ensures SavedHistoryOk(cfg.maxHistory, s.history, s.counter)
  {
    hide FullHistory, Newest, NumberedLog;
    FullHistoryOrdered(s.boot, s.base, s.log, s.counter);
    NewestSuffix(FullHistory(s.boot, s.log), cfg.maxHistory);
  }

  lemma BoxSaved(s: State, agent: string, boxes: map<string, seq<Envelope>>)
    requires BoxesOk(s) && s.counter == s.base + |s.log| && agent in s.boxes && SavedBoxesOk(boxes, s.counter)
    ensures SavedBoxesOk(boxes[agent := s.boxes[agent]], s.counter)
  {
    hide Distinct;
    assert BoxOk(s.base, s.log, Served(s.served, agent), Box(s.boxes, agent));
  }

  predicate SnapMoves(step: Step) {
    step.SnapBegin? || step.SnapBox? || step.SnapBoxes? || step.SnapHistory? || step.SnapCounter?
  }

  lemma SnapSequence(cfg: Config, s: State, s': State)
    requires SnapOk(cfg, s) && s'.snap == s.snap && s'.counter == s.counter + 1
    ensures SnapOk(cfg, s')
  {
    hide SavedBoxesOk, SavedHistoryOk;
    if !s.snap.Idle? {
      SavedLater(cfg.maxHistory, s.snap.boxes, if s.snap.SavedHistory? then s.snap.history else [], s.counter);
    }
  }

  lemma SnapSame(cfg: Config, s: State, s': State)
    requires SnapOk(cfg, s) && s'.snap == s.snap && s'.counter == s.counter
    ensures SnapOk(cfg, s')
  {
    hide SavedBoxesOk, SavedHistoryOk;
  }

  lemma SnapStep(cfg: Config, s: State, step: Step)
    requires HistoryOk(cfg, s) && BoxesOk(s) && SnapOk(cfg, s) && s.counter == s.base + |s.log|
    requires Enabled(s, step) && SnapMoves(step)
    ensures SnapOk(cfg, Do(cfg, s, step))
  {
    hide HistoryOk, BoxesOk, SavedBoxesOk, SavedHistoryOk, Newest, Filter, Addressees, Box, Offer, Served;
    if step.SnapBegin? {
      NothingSaved(s.counter);
    } else if step.SnapBox? {
      BoxSaved(s, step.agent, s.snap.boxes);
    } else if step.SnapHistory? {
      HistorySaved(cfg, s);
    }
  }

  lemma SnapEffect(cfg: Config, s: State, step: Step)
    requires Enabled(s, step) && !SnapMoves(step)
    ensures Do(cfg, s, step).snap == s.snap
    ensures Do(cfg, s, step).counter == s.counter + if step.Sequence? then 1 else 0
  {
    hide Newest, Filter, Addressees, Box, Offer, Served;
  }

  lemma SnapKept(cfg: Config, s: State, step: Step)
    requires HistoryOk(cfg, s) && BoxesOk(s) && SnapOk(cfg, s) && Enabled(s, step)
    ensures SnapOk(cfg, Do(cfg, s, step))
  {
    hide HistoryOk, BoxesOk, SnapOk, Do;
    HistoryNumbered(cfg, s);
    if SnapMoves(step) {
      SnapStep(cfg, s, step);
    } else {
      SnapEffect(cfg, s, step);
      if step.Sequence? {
        SnapSequence(cfg, s, Do(cfg, s, step));
      } else {
        SnapSame(cfg, s, Do(cfg, s, step));
      }
    }
  }

  lemma NothingSaved(top: nat)
    ensures SavedBoxesOk(map[], top)
  {
  }

  // ---- All invariants over every run -----------------------------------------------------------------

  ghost predicate Inv(cfg: Config, s: State) {
    && HistoryOk(cfg, s) && EmittersOk(s) && DeliveriesOk(s) && FanoutOk(s)
    && BoxesOk(s) && ConnsOk(cfg, s) && SnapOk(cfg, s)
  }

  lemma InitInv(cfg: Config, s: State)
    requires Init(cfg, s)
    ensures Inv(cfg, s)
  {
    hide Newest, Distinct, Ordered, Below, AtMostOnce;
    NewestCut(s.boot, cfg.maxHistory);
    assert FullHistory(s.boot, []) == s.boot;
    EmptyOnce();
    InitBoxes(s);
  }

  lemma EmptyOnce()
    ensures AtMostOnce([])
  {
  }

  lemma InitBoxes(s: State)
    requires BoxesBelow(s.boxes, s.base) && BoxesDistinct(s.boxes)
    ensures BoxesOk(s)
  {
    forall a
      ensures BoxOk(s.base, s.log, Served(s.served, a), Box(s.boxes, a))
    {
    }
  }

  lemma StepInv(cfg: Config, s: State, step: Step)
    requires Inv(cfg, s) && Enabled(s, step)
    ensures Inv(cfg, Do(cfg, s, step))
  {
    hide HistoryOk, EmittersOk, DeliveriesOk, FanoutOk, BoxesOk, ConnsOk, SnapOk, Do, Enabled, NumberedLog;
    HistoryNumbered(cfg, s);
    HistoryKept(cfg, s, step);
    EmittersKept(cfg, s, step);
    DeliveriesKept(cfg, s, step);
    FanoutKept(cfg, s, step);
    BoxesKept(cfg, s, step);
    ConnsKept(cfg, s, step);
    SnapKept(cfg, s, step);
  }

  lemma {:induction false} RunInv(cfg: Config, states: seq<State>, steps: seq<Step>, i: nat)
    requires Run(cfg, states, steps) && i <= |steps|
    ensures Inv(cfg, states[i])
  {
    hide Inv, Init, Do, Enabled;
    if i == 0 {
      InitInv(cfg, states[0]);
    } else {
      RunInv(cfg, states, steps, i - 1);
      StepInv(cfg, states[i - 1], steps[i - 1]);
    }
  }
}
