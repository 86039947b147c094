/** One emitter that nobody interrupts: the steps of the event protocol, taken one after another, do to a session what
    the atomic emit of the whole server does. */
module Serial {
  import opened Sequences
  import opened Envelopes
  import opened EventProtocol
  import PresenceSpec
  import Server
  import Watcher

  /** The steps lead from s to t. */
  ghost predicate Drives(cfg: Config, s: State, steps: seq<Step>, t: State)
    decreases |steps|
  {
    if steps == [] then t == s
    else Enabled(s, steps[0]) && Drives(cfg, Do(cfg, s, steps[0]), steps[1..], t)
  }

  lemma {:induction false} DrivesThen(cfg: Config, s: State, a: seq<Step>, t: State, b: seq<Step>, u: State)
    requires Drives(cfg, s, a, t) && Drives(cfg, t, b, u)
    ensures Drives(cfg, s, a + b, u)
    decreases |a|
  {
    hide Do, Enabled;
    if a == [] {
      assert a + b == b;
    } else {
      DrivesThen(cfg, Do(cfg, s, a[0]), a[1..], t, b, u);
      assert (a + b)[1..] == a[1..] + b;
    }
  }

  lemma DrivesOne(cfg: Config, s: State, step: Step)
    requires Enabled(s, step)
    ensures Drives(cfg, s, [step], Do(cfg, s, step))
  {
    hide Do, Enabled;
    assert [step][1..] == [];
  }

  /** Serving the mailboxes of an event in any order is one fan-out. */
  lemma {:induction false} DeliverAll(cfg: Config, s: State, n: nat, order: seq<string>)
      returns (steps: seq<Step>, t: State)
    requires !s.snap.SavingBoxes? && n in s.inflight && s.inflight[n].Delivering?
    requires PresenceSpec.Lists(order, s.inflight[n].boxes)
    ensures Drives(cfg, s, steps, t) && forall i :: 0 <= i < |steps| ==> steps[i].DeliverTo? && steps[i].n == n
    ensures t == s.(boxes := Server.Fanned(s.boxes, s.inflight[n].boxes, s.inflight[n].env, cfg.maxBox),
                     served := t.served,
                    inflight := s.inflight[n := Delivering(s.inflight[n].env, s.inflight[n].job, {})])
    decreases |order|
  {
    hide Newest, Filter, Addressees, Offer, Drives;
    var pc := s.inflight[n];
    if order == [] {
      assert pc.boxes == {};
      NoSteps(cfg, s);
      NothingFanned(s.boxes, pc.env, cfg.maxBox);
      assert s.inflight[n := Delivering(pc.env, pc.job, {})] == s.inflight;
      return [], s;
    }
    var a := order[0];
    ListRest(order, pc.boxes);
    var step := DeliverTo(n, a);
    DrivesOne(cfg, s, step);
    var s1 := Do(cfg, s, step);
    var rest;
    rest, t := DeliverAll(cfg, s1, n, order[1..]);
    DrivesThen(cfg, s, [step], s1, rest, t);
    steps := [step] + rest;
    FannedFirst(s.boxes, pc.boxes, a, pc.env, cfg.maxBox);
  }

  lemma NoSteps(cfg: Config, s: State)
    ensures Drives(cfg, s, [], s)
  {
  }

  lemma NothingFanned(boxes: Server.Boxes, e: Envelope, max: nat)
    ensures Server.Fanned(boxes, {}, e, max) == boxes
  {
  }

  lemma ListRest<T(!new)>(order: seq<T>, s: set<T>)
    requires PresenceSpec.Lists(order, s) && order != []
    ensures order[0] in s && PresenceSpec.Lists(order[1..], s - {order[0]})
  {
    assert forall x :: x in order <==> x == order[0] || x in order[1..];
  }

  lemma FannedFirst(boxes: Server.Boxes, to: set<string>, a: string, e: Envelope, max: nat)
    requires a in to
    ensures Server.Fanned(boxes[a := Newest(Box(boxes, a) + [e], max)], to - {a}, e, max) ==
            Server.Fanned(boxes, to, e, max)
  {
    hide Newest;
  }

  function OfferedAll(conns: map<nat, Conn>, to: set<nat>, e: Envelope, capacity: nat): map<nat, Conn> {
    map c | c in conns :: if c in to then Offer(conns[c], e, capacity) else conns[c]
  }

  /** Notifying the channels of an event in any order is what the watcher's loop does. */
  lemma {:induction false} NotifyAll(cfg: Config, s: State, n: nat, order: seq<nat>)
      returns (steps: seq<Step>, t: State)
    requires n in s.inflight && s.inflight[n].Notifying? && s.inflight[n].todo <= s.conns.Keys
    requires PresenceSpec.Lists(order, s.inflight[n].todo)
    ensures Drives(cfg, s, steps, t) && forall i :: 0 <= i < |steps| ==> steps[i].Notify? && steps[i].n == n
    ensures t == s.(conns := OfferedAll(s.conns, s.inflight[n].todo, s.inflight[n].env, cfg.capacity),
                    inflight := s.inflight[n := Notifying(s.inflight[n].env, s.inflight[n].job, {})])
    decreases |order|
  {
    hide Newest, Filter, Addressees, Offer, Drives;
    var pc := s.inflight[n];
    if order == [] {
      assert pc.todo == {};
      NoSteps(cfg, s);
      assert OfferedAll(s.conns, {}, pc.env, cfg.capacity) == s.conns;
      assert s.inflight[n := Notifying(pc.env, pc.job, {})] == s.inflight;
      return [], s;
    }
    var c := order[0];
    ListRest(order, pc.todo);
    var step := Notify(n, c);
    DrivesOne(cfg, s, step);
    var s1 := Do(cfg, s, step);
    var rest;
    rest, t := NotifyAll(cfg, s1, n, order[1..]);
    DrivesThen(cfg, s, [step], s1, rest, t);
    steps := [step] + rest;
    assert OfferedAll(s1.conns, pc.todo - {c}, pc.env, cfg.capacity) ==
           OfferedAll(s.conns, pc.todo, pc.env, cfg.capacity);
  }

  /** The parts of a state that an uninterrupted emitter leaves changed. */
  ghost predicate Emitted(cfg: Config, s: State, t: State, e: Envelope, job: Job, roster: set<string>) {
    && t.counter == s.counter + 1 && t.log == s.log + [Issue(e, job)]
    && t.history == (if Recorded(job) then Newest(s.history + [e], cfg.maxHistory) else s.history)
    && t.boxes == Server.Fanned(s.boxes, Addressees(job, roster), e, cfg.maxBox)
    && t.conns == OfferedAll(s.conns, s.conns.Keys, e, cfg.capacity)
    && t.inflight == s.inflight && t.notified == s.notified + {e.number}
    && t.base == s.base && t.boot == s.boot && t.snap == s.snap
  }

  /** Number and record, read the roster, serve every mailbox, notify every channel. */
  lemma EmitSerially(cfg: Config, s: State, env: Envelope, job: Job, roster: set<string>, order: seq<string>,
      channels: seq<nat>)
    returns (steps: seq<Step>, t: State)
    requires !s.snap.SavingBoxes? && s.counter + 1 !in s.inflight
    requires PresenceSpec.Lists(order, Addressees(job, roster)) && PresenceSpec.Lists(channels, s.conns.Keys)
    ensures Drives(cfg, s, steps, t) && Emitted(cfg, s, t, env.(number := s.counter + 1), job, roster)
  {
    hide Drives, Newest, Filter, Addressees, Offer, Server.Fanned, OfferedAll, PresenceSpec.Lists;
    var n := s.counter + 1;
    var a, t1 := Numbering(cfg, s, env, job, roster);
    var b, t2 := DeliverAll(cfg, t1, n, order);
    DrivesThen(cfg, s, a, t1, b, t2);
    var c, t3 := Turning(cfg, t2, n);
    DrivesThen(cfg, s, a + b, t2, c, t3);
    var d, t4 := NotifyAll(cfg, t3, n, channels);
    DrivesThen(cfg, s, a + b + c, t3, d, t4);
    DrivesOne(cfg, t4, EndNotify(n));
    t := Do(cfg, t4, EndNotify(n));
    DrivesThen(cfg, s, a + b + c + d, t4, [EndNotify(n)], t);
    steps := a + b + c + d + [EndNotify(n)];
    assert t4.inflight - {n} == s.inflight;
  }

  lemma Numbering(cfg: Config, s: State, env: Envelope, job: Job, roster: set<string>)
      returns (steps: seq<Step>, t: State)
    requires s.counter + 1 !in s.inflight
    ensures Drives(cfg, s, steps, t)
    ensures var n, e := s.counter + 1, env.(number := s.counter + 1);
            t == s.(counter := n, log := s.log + [Issue(e, job)],
                    history := if Recorded(job) then Newest(s.history + [e], cfg.maxHistory) else s.history,
                    rosters := s.rosters[n := roster],
                    inflight := s.inflight[n := Delivering(e, job, Addressees(job, roster))])
  {
    hide Drives, Newest, Filter, Addressees, Offer;
    var first, second := Sequence(env, job), ReadRoster(s.counter + 1, roster);
    DrivesOne(cfg, s, first);
    var t1 := Do(cfg, s, first);
    DrivesOne(cfg, t1, second);
    t := Do(cfg, t1, second);
    steps := [first] + [second];
    DrivesThen(cfg, s, [first], t1, [second], t);
  }

  lemma Turning(cfg: Config, s: State, n: nat) returns (steps: seq<Step>, t: State)
    requires n in s.inflight && s.inflight[n].Delivering? && s.inflight[n].boxes == {}
    ensures Drives(cfg, s, steps, t)
    ensures t == s.(inflight := s.inflight[n := Notifying(s.inflight[n].env, s.inflight[n].job, s.conns.Keys)])
  {
    hide Drives, Newest, Filter, Addressees, Offer;
    var first, second := EndDelivery(n), BeginNotify(n);
    DrivesOne(cfg, s, first);
    var t1 := Do(cfg, s, first);
    DrivesOne(cfg, t1, second);
    t := Do(cfg, t1, second);
    steps := [first] + [second];
    DrivesThen(cfg, s, [first], t1, [second], t);
  }

  // ---- Against the whole server ----------------------------------------------------------------------

  /** p is session sid of server s, seen by the protocol. */
  ghost predicate Mirrors(p: State, s: Server.State, sid: string) {
    && p.counter == Server.Counter(s, sid) && p.history == Server.HistoryOf(s, sid) && p.log == Server.Log(s, sid)
    && p.base == Server.FirstCounter(s, sid) && p.boot == Server.FirstHistory(s, sid)
    && forall a :: Box(p.boxes, a) == Server.BoxAt(s.boxes, Key(sid, a))
  }

  lemma SameSessionKeys(sid: string, a: string, b: string)
    requires Key(sid, a) == Key(sid, b)
    ensures a == b
  {
    assert Key(sid, a)[|sid| + 1..] == a && Key(sid, b)[|sid| + 1..] == b;
  }

  lemma FannedBoxes(p: Server.Boxes, q: Server.Boxes, sid: string, to: set<string>, e: Envelope, max: nat, a: string)
    requires Box(p, a) == Server.BoxAt(q, Key(sid, a))
    ensures Box(Server.Fanned(p, to, e, max), a) ==
            Server.BoxAt(Server.Fanned(q, Server.KeysOf(sid, to), e, max), Key(sid, a))
  {
    hide Newest, Key;
    if Key(sid, a) in Server.KeysOf(sid, to) {
      var b :| b in to && Key(sid, a) == Key(sid, b);
      SameSessionKeys(sid, a, b);
    }
  }

  /** The atomic emit of the whole server is what an uninterrupted emitter does to its session, and every watch
      channel is offered the event as by one call of the watcher's Notify. */
  lemma EmitIsSerial(cfg: Config, p: State, s: Server.State, lim: Server.Limits, sid: string, job: Job, kind: string,
      from: string, to: string, payload: Payload, order: seq<string>, channels: seq<nat>)
    returns (steps: seq<Step>, q: State)
    requires Mirrors(p, s, sid) && lim == Server.Limits(cfg.maxHistory, cfg.maxBox)
    requires !p.snap.SavingBoxes? && p.counter + 1 !in p.inflight
    requires PresenceSpec.Lists(order, Addressees(job, PresenceSpec.Members(s.roster, sid)))
    requires PresenceSpec.Lists(channels, p.conns.Keys)
    ensures Drives(cfg, p, steps, q) && q.inflight == p.inflight && q.conns.Keys == p.conns.Keys
    ensures Mirrors(q, Server.Emit(lim, s, sid, job, kind, from, to, payload), sid)
    ensures var e := Envelope(kind, sid, from, to, payload, p.counter + 1);
            forall c :: c in p.conns ==> q.conns[c].buffer == Watcher.Pushed(p.conns[c].buffer, e, cfg.capacity)
  {
    hide Drives, Newest, Filter, Addressees, Server.Fanned, Server.Emit, PresenceSpec.Members, PresenceSpec.Lists,
        OfferedAll, Offer, Mirrors, Emitted;
    var roster := PresenceSpec.Members(s.roster, sid);
    MirroredCounter(p, s, sid);
    steps, q := EmitSerially(cfg, p, Envelope(kind, sid, from, to, payload, 0), job, roster, order, channels);
    EmitMirrors(cfg, p, q, s, lim, sid, job, kind, from, to, payload);
    EmitOffers(cfg, p, q, Envelope(kind, sid, from, to, payload, p.counter + 1), job, roster);
  }

  lemma MirroredCounter(p: State, s: Server.State, sid: string)
    requires Mirrors(p, s, sid)
    ensures p.counter == Server.Counter(s, sid)
  {
  }

  lemma EmitMirrors(cfg: Config, p: State, q: State, s: Server.State, lim: Server.Limits, sid: string, job: Job,
      kind: string, from: string, to: string, payload: Payload)
    requires Mirrors(p, s, sid) && lim == Server.Limits(cfg.maxHistory, cfg.maxBox)
    requires Emitted(cfg, p, q, Envelope(kind, sid, from, to, payload, p.counter + 1), job,
                     PresenceSpec.Members(s.roster, sid))
    ensures Mirrors(q, Server.Emit(lim, s, sid, job, kind, from, to, payload), sid)
  {
    hide Newest, Addressees, Server.Fanned, Server.KeysOf, PresenceSpec.Members, Key, OfferedAll;
    var e := Envelope(kind, sid, from, to, payload, p.counter + 1);
    forall a
      ensures Box(q.boxes, a) == Server.BoxAt(Server.Emit(lim, s, sid, job, kind, from, to, payload).boxes, Key(sid, a))
    {
      FannedBoxes(p.boxes, s.boxes, sid, Addressees(job, PresenceSpec.Members(s.roster, sid)), e, cfg.maxBox, a);
    }
  }

  lemma EmitOffers(cfg: Config, p: State, q: State, e: Envelope, job: Job, roster: set<string>)
    requires Emitted(cfg, p, q, e, job, roster)
    ensures q.inflight == p.inflight && q.conns.Keys == p.conns.Keys
    ensures forall c :: c in p.conns ==> q.conns[c].buffer == Watcher.Pushed(p.conns[c].buffer, e, cfg.capacity)
  {
    hide Newest, Addressees, Server.Fanned, Offer;
    forall c | c in p.conns
      ensures q.conns[c].buffer == Watcher.Pushed(p.conns[c].buffer, e, cfg.capacity)
    {
      Watcher.OfferIsPush(p.conns[c], e, cfg.capacity);
    }
  }
}
