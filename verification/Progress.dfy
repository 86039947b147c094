/** Nobody is stuck: from every state that can be reached, whatever the interleaving so far, every emitter can be
    brought to its end, and the session to rest. */
module Progress {
  import opened Sequences
  import opened Envelopes
  import opened EventProtocol
  import opened Serial
  import PresenceSpec
  import Server

  // ---- What keeps the snapshotter from blocking -----------------------------------------------------

  /** The mailboxes saved and those still to be saved are all there are: the store is locked against new ones and
      against removals. */
  predicate LeftStands(s: State) {
    s.snap.SavingBoxes? ==> s.snap.left + s.snap.boxes.Keys == s.boxes.Keys
  }

  lemma LeftKept(cfg: Config, s: State, step: Step)
    requires LeftStands(s) && Enabled(s, step)
    ensures LeftStands(Do(cfg, s, step))
  {
    hide Newest, Filter, Addressees, Offer, Box, Served;
  }

  lemma {:induction false} RunLeft(cfg: Config, states: seq<State>, steps: seq<Step>, i: nat)
    requires Run(cfg, states, steps) && i <= |steps|
    ensures LeftStands(states[i])
  {
    hide Do, Enabled, LeftStands;
    if i == 0 {
      StartLeft(cfg, states[0]);
    } else {
      RunLeft(cfg, states, steps, i - 1);
      LeftKept(cfg, states[i - 1], steps[i - 1]);
    }
  }

  lemma StartLeft(cfg: Config, s: State)
    requires Init(cfg, s)
    ensures LeftStands(s)
  {
    hide Below, BoxesBelow, BoxesDistinct;
  }

  /** What a snapshot saves, step by step, in any interleaving: every mailbox that there is when it is through with
      them, each as it is at its turn, then the history, then the counter, as they are. */
  lemma SnapshotSaves(cfg: Config, states: seq<State>, steps: seq<Step>, i: nat)
    requires Run(cfg, states, steps) && i < |steps|
    ensures var s, s' := states[i].snap, states[i + 1].snap;
            match steps[i]
            case SnapBox(a) =>
              a in states[i].boxes && s'.SavingBoxes? && s'.boxes == s.boxes[a := states[i].boxes[a]]
            case SnapBoxes => s'.SavedBoxes? && s'.boxes == s.boxes && s'.boxes.Keys == states[i].boxes.Keys
            case SnapHistory => s'.SavedHistory? && s'.boxes == s.boxes && s'.history == states[i].history
            case SnapCounter =>
              s'.Saved? && s'.boxes == s.boxes && s'.history == s.history && s'.counter == states[i].counter
            case _ => true
  {
    hide Do, Enabled, Init, LeftStands;
    RunLeft(cfg, states, steps, i);
    SnapFields(cfg, states[i], steps[i]);
  }

  lemma SnapFields(cfg: Config, s: State, step: Step)
    requires Enabled(s, step) && LeftStands(s)
    ensures var t := Do(cfg, s, step).snap;
            && (step.SnapBox? ==> step.agent in s.boxes && t == SavingBoxes(s.snap.left - {step.agent},
                                                               s.snap.boxes[step.agent := s.boxes[step.agent]]))
            && (step.SnapBoxes? ==> t == SavedBoxes(s.snap.boxes) && s.snap.boxes.Keys == s.boxes.Keys)
            && (step.SnapHistory? ==> t == SavedHistory(s.snap.boxes, s.history))
            && (step.SnapCounter? ==> t == Saved(s.snap.boxes, s.snap.history, s.counter))
  {
    hide Newest, Filter, Addressees, Offer, Box, Served;
  }

  /** What a delivery and a drain do to their mailbox: the event is added at the end, and a drain leaves exactly what
      was not asked for. */
  lemma BoxFields(cfg: Config, s: State, step: Step)
    requires Enabled(s, step) && (step.DeliverTo? || step.DrainBox?) && cfg.maxBox >= 1
    ensures var q, t := Box(s.boxes, step.agent), Do(cfg, s, step).boxes;
            && step.agent in t && (forall a :: a != step.agent ==> (a in t <==> a in s.boxes))
            && (forall a :: a != step.agent && a in t ==> t[a] == s.boxes[a])
            && (step.DeliverTo? ==> t[step.agent] == Newest(q + [s.inflight[step.n].env], cfg.maxBox))
            && (step.DrainBox? ==> forall x :: x in t[step.agent] <==>
                  x in q && ((step.from != "" && x.from != step.from) || (step.kind != "" && x.kind != step.kind)))
  {
    hide Newest, Filter, Addressees, Offer;
    if step.DrainBox? {
      FilterMembers(s.boxes[step.agent], Unmatched(step.from, step.kind));
    }
  }

  /** What the removal of a mailbox and the steps of a watch connection do, and that they touch no other. */
  lemma ConnFields(cfg: Config, s: State, step: Step)
    requires Enabled(s, step)
    ensures var t := Do(cfg, s, step);
            && (step.DeleteBox? ==> t == s.(boxes := t.boxes) && t.boxes.Keys == s.boxes.Keys - {step.agent}
                                    && forall a :: a in t.boxes ==> t.boxes[a] == s.boxes[a])
            && (step.Subscribe? ==> t.conns.Keys == s.conns.Keys + {step.c} && !t.conns[step.c].live
                                    && t.conns[step.c].buffer == [] && t.conns[step.c].sent == [])
            && (step.Unsubscribe? ==> t.conns.Keys == s.conns.Keys - {step.c})
            && (step.CopyHistory? ==> t.conns.Keys == s.conns.Keys && t.conns[step.c].live
                                      && t.conns[step.c].copied == s.history
                                      && t.conns[step.c].buffer == s.conns[step.c].buffer)
            && (step.Receive? ==>
                  && t.conns.Keys == s.conns.Keys && s.conns[step.c].buffer != []
                  && t.conns[step.c].sent == s.conns[step.c].sent + [s.conns[step.c].buffer[0]]
                  && t.conns[step.c].buffer == s.conns[step.c].buffer[1..])
            && (step.Notify? ==>
                  && t.conns.Keys == s.conns.Keys && t.conns[step.c].sent == s.conns[step.c].sent
                  && var q, e := s.conns[step.c].buffer, s.inflight[step.n].env;
                     t.conns[step.c].buffer == if |q| < cfg.capacity then q + [e] else q)
            && (step.Subscribe? || step.Unsubscribe? || step.CopyHistory? || step.Receive? || step.Notify? ==>
                  && t == s.(conns := t.conns, inflight := t.inflight)
                  && forall c :: c != step.c && c in s.conns ==> c in t.conns && t.conns[c] == s.conns[c])
  {
    hide Newest, Filter, Addressees, Served, Box;
  }

  // ---- Whose step it is -----------------------------------------------------------------------------

  predicate OfEmitter(step: Step, n: nat) {
    (EmitterMoves(step) || step.EndNotify?) && step.n == n
  }

  /** Steps of the emitter of n, and of the snapshotter. */
  ghost predicate Theirs(steps: seq<Step>, n: nat) {
    forall i :: 0 <= i < |steps| ==> OfEmitter(steps[i], n) || SnapMoves(steps[i])
  }

  /** The emitter of n has come to its end, and nobody else has moved. */
  ghost predicate Ended(s: State, t: State, n: nat) {
    && SameIssues(s, t) && t.inflight == s.inflight - {n} && t.notified == s.notified + {n}
    && t.conns.Keys == s.conns.Keys && t.snap == s.snap
  }

  lemma {:induction false} ListOf<T(!new)>(s: set<T>) returns (order: seq<T>)
    ensures PresenceSpec.Lists(order, s)
  {
    if s == {} {
      order := [];
    } else {
      var x :| x in s;
      var rest := ListOf(s - {x});
      order := rest + [x];
    }
  }

  // ---- The snapshotter -------------------------------------------------------------------------------

  /** The snapshotter can finish with the mailboxes. */
  lemma {:induction false} FinishSaving(cfg: Config, s: State, n: nat) returns (steps: seq<Step>, t: State)
    requires LeftStands(s)
    ensures Drives(cfg, s, steps, t) && Theirs(steps, n)
    ensures !t.snap.SavingBoxes? && t == s.(snap := t.snap)
    decreases if s.snap.SavingBoxes? then |s.snap.left| else 0
  {
    hide Drives, LeftStands, Newest, Filter, Addressees, Offer, Box, Served;
    if !s.snap.SavingBoxes? {
      NoSteps(cfg, s);
      return [], s;
    }
    if s.snap.left == {} {
      DrivesOne(cfg, s, SnapBoxes);
      return [SnapBoxes], Do(cfg, s, SnapBoxes);
    }
    var a :| a in s.snap.left;
    var step := SnapBox(a);
    LeftIsThere(s, a);
    DrivesOne(cfg, s, step);
    var s1 := Do(cfg, s, step);
    LeftKept(cfg, s, step);
    var rest;
    rest, t := FinishSaving(cfg, s1, n);
    DrivesThen(cfg, s, [step], s1, rest, t);
    steps := [step] + rest;
  }

  lemma LeftIsThere(s: State, a: string)
    requires LeftStands(s) && s.snap.SavingBoxes? && a in s.snap.left
    ensures a in s.boxes
  {
  }

  // ---- One emitter -----------------------------------------------------------------------------------

  lemma FromNotifying(cfg: Config, s: State, n: nat) returns (steps: seq<Step>, t: State)
    requires n in s.inflight && s.inflight[n].Notifying? && s.inflight[n].todo <= s.conns.Keys
    ensures Drives(cfg, s, steps, t) && Theirs(steps, n) && Ended(s, t, n)
  {
    hide Drives, Newest, Filter, Addressees, Offer, OfferedAll, PresenceSpec.Lists;
    var order := ListOf(s.inflight[n].todo);
    var a, t1 := NotifyAll(cfg, s, n, order);
    OfferedKeys(s.conns, s.inflight[n].todo, s.inflight[n].env, cfg.capacity);
    DrivesOne(cfg, t1, EndNotify(n));
    t := Do(cfg, t1, EndNotify(n));
    DrivesThen(cfg, s, a, t1, [EndNotify(n)], t);
    steps := a + [EndNotify(n)];
  }

  lemma OfferedKeys(conns: map<nat, Conn>, to: set<nat>, e: Envelope, capacity: nat)
    ensures OfferedAll(conns, to, e, capacity).Keys == conns.Keys
  {
  }

  lemma FromDelivering(cfg: Config, s: State, n: nat) returns (steps: seq<Step>, t: State)
    requires !s.snap.SavingBoxes? && n in s.inflight && s.inflight[n].Delivering?
    ensures Drives(cfg, s, steps, t) && Theirs(steps, n) && Ended(s, t, n)
  {
    hide Drives, Newest, Filter, Addressees, Offer, Server.Fanned, PresenceSpec.Lists;
    var order := ListOf(s.inflight[n].boxes);
    var a, t1 := DeliverAll(cfg, s, n, order);
    DrivesOne(cfg, t1, EndDelivery(n));
    var t2 := Do(cfg, t1, EndDelivery(n));
    DrivesThen(cfg, s, a, t1, [EndDelivery(n)], t2);
    var b;
    b, t := FromDelivered(cfg, t2, n);
    DrivesThen(cfg, s, a + [EndDelivery(n)], t2, b, t);
    steps := a + [EndDelivery(n)] + b;
    EndedSince(s, t2, t, n);
  }

  lemma EndedSince(s: State, s1: State, t: State, n: nat)
    requires Ended(s1, t, n) && SameIssues(s, s1) && s1.notified == s.notified
    requires n in s1.inflight && s1.inflight == s.inflight[n := s1.inflight[n]]
    requires s1.conns == s.conns && s1.snap == s.snap
    ensures Ended(s, t, n)
  {
  }

  lemma FromDelivered(cfg: Config, s: State, n: nat) returns (steps: seq<Step>, t: State)
    requires n in s.inflight && s.inflight[n].Delivered?
    ensures Drives(cfg, s, steps, t) && Theirs(steps, n) && Ended(s, t, n)
  {
    hide Drives, Newest, Filter, Addressees, Offer;
    DrivesOne(cfg, s, BeginNotify(n));
    var s1 := Do(cfg, s, BeginNotify(n));
    var rest;
    rest, t := FromNotifying(cfg, s1, n);
    DrivesThen(cfg, s, [BeginNotify(n)], s1, rest, t);
    steps := [BeginNotify(n)] + rest;
    EndedSince(s, s1, t, n);
  }

  /** An emitter that holds no more than its number can go all the way. */
  lemma FromSequenced(cfg: Config, s: State, n: nat, roster: set<string>)
      returns (steps: seq<Step>, t: State)
    requires !s.snap.SavingBoxes? && n in s.inflight && s.inflight[n].Sequenced?
    ensures Drives(cfg, s, steps, t) && Theirs(steps, n) && Ended(s, t, n)
  {
    hide Drives, Newest, Filter, Addressees, Offer;
    var read := ReadRoster(n, roster);
    DrivesOne(cfg, s, read);
    var s1 := Do(cfg, s, read);
    var rest;
    rest, t := FromDelivering(cfg, s1, n);
    DrivesThen(cfg, s, [read], s1, rest, t);
    steps := [read] + rest;
    EndedSince(s, s1, t, n);
  }

  lemma Finish(cfg: Config, s: State, n: nat, roster: set<string>)
      returns (steps: seq<Step>, t: State)
    requires !s.snap.SavingBoxes? && n in s.inflight
    requires s.inflight[n].Notifying? ==> s.inflight[n].todo <= s.conns.Keys
    ensures Drives(cfg, s, steps, t) && Theirs(steps, n) && Ended(s, t, n)
  {
    hide Drives, Theirs, Ended;
    match s.inflight[n] {
      case Sequenced(_, _) => steps, t := FromSequenced(cfg, s, n, roster);
      case Delivering(_, _, _) => steps, t := FromDelivering(cfg, s, n);
      case Delivered(_, _) => steps, t := FromDelivered(cfg, s, n);
      case Notifying(_, _, _) => steps, t := FromNotifying(cfg, s, n);
    }
  }

  // ---- From every reachable state --------------------------------------------------------------------

  lemma ReachedConns(cfg: Config, s: State)
    requires Inv(cfg, s)
    ensures forall n :: n in s.inflight && s.inflight[n].Notifying? ==> s.inflight[n].todo <= s.conns.Keys
    ensures EmittersOk(s)
  {
    hide HistoryOk, EmittersOk, DeliveriesOk, FanoutOk, BoxesOk, SnapOk, ConnOk;
  }

  /** However many emitters, readers, subscribers and snapshots are under way, every emitter can finish by its own steps
      and those of the snapshotter, which may hold a lock it needs: nobody else has to move. If the emitter has not read
      the roster yet, it can do so whatever it finds there. */
  lemma EveryEmitterCanFinish(cfg: Config, states: seq<State>, steps: seq<Step>, i: nat, n: nat,
      roster: set<string>)
      returns (more: seq<Step>, t: State)
    requires Run(cfg, states, steps) && i <= |steps| && n in states[i].inflight
    ensures Drives(cfg, states[i], more, t) && Theirs(more, n)
    ensures SameIssues(states[i], t) && t.inflight == states[i].inflight - {n} && n in t.notified
  {
    hide Drives, Do, Enabled, Init, Inv, Newest, EmittersOk;
    RunInv(cfg, states, steps, i);
    RunLeft(cfg, states, steps, i);
    ReachedConns(cfg, states[i]);
    var a, t1 := FinishSaving(cfg, states[i], n);
    var b;
    b, t := Finish(cfg, t1, n, roster);
    DrivesThen(cfg, states[i], a, t1, b, t);
    more := a + b;
  }

  lemma {:induction false} FinishAll(cfg: Config, s: State, roster: set<string>)
      returns (steps: seq<Step>, t: State)
    requires !s.snap.SavingBoxes?
    requires forall n :: n in s.inflight && s.inflight[n].Notifying? ==> s.inflight[n].todo <= s.conns.Keys
    ensures Drives(cfg, s, steps, t) && t.inflight == map[] && SameIssues(s, t)
    ensures t.notified == s.notified + s.inflight.Keys
    decreases |s.inflight|
  {
    hide Drives, Theirs;
    if s.inflight == map[] {
      NoSteps(cfg, s);
      return [], s;
    }
    var n :| n in s.inflight;
    var a, s1 := Finish(cfg, s, n, roster);
    assert s1.inflight.Keys == s.inflight.Keys - {n};
    assert |s1.inflight.Keys| < |s.inflight.Keys|;
    var b;
    b, t := FinishAll(cfg, s1, roster);
    DrivesThen(cfg, s, a, s1, b, t);
    steps := a + b;
  }

  /** So from every state that can be reached the session can come to rest, without a new event; and there every
      number ever issued has been notified. */
  lemma RestIsReachable(cfg: Config, states: seq<State>, steps: seq<Step>, i: nat, roster: set<string>)
      returns (more: seq<Step>, t: State)
    requires Run(cfg, states, steps) && i <= |steps|
    ensures Drives(cfg, states[i], more, t) && t.inflight == map[] && SameIssues(states[i], t)
    ensures forall n :: n in t.notified <==> Issued(t, n)
  {
    hide Drives, Do, Enabled, Init, Inv, Newest, LeftStands, ConnsOk, IsIssue;
    RunInv(cfg, states, steps, i);
    RunLeft(cfg, states, steps, i);
    ReachedConns(cfg, states[i]);
    var a, t1 := FinishSaving(cfg, states[i], 0);
    var b;
    b, t := FinishAll(cfg, t1, roster);
    DrivesThen(cfg, states[i], a, t1, b, t);
    more := a + b;
  }
}
