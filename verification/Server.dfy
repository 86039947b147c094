/** The whole server as one value, and what each operation does to it when nothing interleaves. */
module Server {
  import opened Sequences
  import opened Envelopes
  import opened History
  import opened Sessions
  import opened Scratchpad
  import opened PresenceSpec
  import Events = EventProtocol

  type Boxes = map<string, seq<Envelope>>

  /** What the process found in its data directory when it started, without the sessions and mailboxes removed since. */
  datatype Origin = Origin(counters: map<string, nat>, history: map<string, seq<Envelope>>, boxes: Boxes)

  /** `log` and `origin` are not stored by the code: the log is everything the hub has handed to its notifier for each
      session since the process or the session started, with the reason it was emitted. */
  datatype State = State(
    roster: Roster,
    leaders: map<string, string>,
    pads: Pads, padCounts: map<string, nat>,
    boxes: Boxes,
    history: map<string, seq<Envelope>>, counters: map<string, nat>,
    sessions: map<string, Session>,
    log: map<string, seq<Events.Issue>>, origin: Origin)

  datatype Limits = Limits(history: nat, box: nat)

  function NewServer(ttl: nat, forgetAfter: int): State {
    State(Roster(map[], ttl, forgetAfter), map[], map[], map[], map[], map[], map[], map[], map[],
          Origin(map[], map[], map[]))
  }

  const SERVER := "server"
  const EVERYONE := "*"

  function Counter(s: State, sid: string): nat {
    if sid in s.counters then s.counters[sid] else 0
  }

  function HistoryOf(s: State, sid: string): seq<Envelope> {
    if sid in s.history then s.history[sid] else []
  }

  function Log(s: State, sid: string): seq<Events.Issue> {
    if sid in s.log then s.log[sid] else []
  }

  /** The counter and the history with which a session began: those restored, or nothing. */
  function FirstCounter(s: State, sid: string): nat {
    if sid in s.origin.counters then s.origin.counters[sid] else 0
  }

  function FirstHistory(s: State, sid: string): seq<Envelope> {
    if sid in s.origin.history then s.origin.history[sid] else []
  }

  function BoxAt(boxes: Boxes, k: string): seq<Envelope> {
    if k in boxes then boxes[k] else []
  }

  function KeysOf(sid: string, aids: set<string>): set<string> {
    set a | a in aids :: Key(sid, a)
  }

  /** One more envelope in each of the named mailboxes, creating those that do not exist. */
  function Fanned(boxes: Boxes, keys: set<string>, e: Envelope, max: nat): Boxes {
    map k | k in boxes.Keys + keys :: if k in keys then Newest(BoxAt(boxes, k) + [e], max) else boxes[k]
  }

  /** The event gets the session's next number; messages are also recorded in the history window. */
  function Numbered(lim: Limits, s: State, sid: string, job: Events.Job, e: Envelope): State {
    s.(counters := s.counters[sid := e.number],
       history := if Events.Recorded(job) then s.history[sid := Newest(HistoryOf(s, sid) + [e],
           lim.history)] else s.history)
  }

  /** Number, deliver, notify: the single path of every event. */
  function Emit(lim: Limits, s: State, sid: string, job: Events.Job, kind: string, from: string, to: string,
      payload: Payload): State {
    var e := Envelope(kind, sid, from, to, payload, Counter(s, sid) + 1);
    Numbered(lim, s, sid, job, e).(
      boxes := Fanned(s.boxes, KeysOf(sid, Events.Addressees(job, Members(s.roster, sid))), e, lim.box),
      log := s.log[sid := Log(s, sid) + [Events.Issue(e, job)]])
  }

  // ---- Presence ----------------------------------------------------------------------------------

  function Announced(lim: Limits, s: State, sid: string, aid: string, caps: seq<string>, kind: string, at: nat): State {
    Emit(lim, s.(sessions := TouchedActivity(s.sessions, sid, at)), sid, Events.Ambient, kind, SERVER, EVERYONE,
        AgentIs(aid, caps, true))
  }

  function Registered(lim: Limits, s: State, sid: string, aid: string, caps: seq<string>, at: nat): State {
    var known, live, isNew := Known(s.roster, sid, aid), Present(s.roster, sid, aid, at), Key(sid,
        aid) !in s.roster.agents;
    var s1 := s.(roster := Touched(s.roster, sid, aid, Some(caps), at));
    var s2 := if known && !live then Announced(lim, s1, sid, aid, caps, "agent_reconnected", at) else s1;
    if isNew then FirstLeader(Announced(lim, s2, sid, aid, caps, "agent_joined", at), sid, aid) else s2
  }

  function FirstLeader(s: State, sid: string, aid: string): State {
    if sid in s.leaders then s else s.(leaders := s.leaders[sid := aid])
  }

  function Seen(s: State, sid: string, aid: string, at: nat): State {
    s.(roster := Touched(s.roster, sid, aid, None, at))
  }

  function Refreshed(s: State, sid: string, aid: string, at: nat): State {
    Seen(s, sid, aid, at).(sessions := TouchedActivity(s.sessions, sid, at))
  }

  // ---- Mailboxes ---------------------------------------------------------------------------------

  function Drained(s: State, sid: string, aid: string, from: string, kind: string, at: nat): State {
    var k := Key(sid, aid);
    var s1 := Seen(s, sid, aid, at);
    if k in s.boxes then s1.(boxes := s.boxes[k := Filter(s.boxes[k], Events.Unmatched(from, kind))]) else s1
  }

  // ---- Messages ----------------------------------------------------------------------------------

  datatype Refusal = ToRequired | NoSuchAgent | KeyRequired | KeyNotFound | NotLeader | NotPresent | TransferFailed

  /** Any known member can be sent to, online or not. */
  function SendRefusal(s: State, sid: string, to: string): Option<Refusal> {
    if to == "" then Some(ToRequired) else if to !in Members(s.roster, sid) then Some(NoSuchAgent) else None
  }

  function Sent(lim: Limits, s: State, sid: string, from: string, to: string, kind: string, payload: Payload): State {
    if SendRefusal(s, sid, to).Some? then s else Emit(lim, s, sid, Events.Send(to), kind, from, to, payload)
  }

  function Broadcasted(lim: Limits, s: State, sid: string, from: string, kind: string, payload: Payload): State {
    Emit(lim, s, sid, Events.Broadcast(from), kind, from, EVERYONE, payload)
  }

  // ---- Scratchpad --------------------------------------------------------------------------------

  function PadChanged(lim: Limits, s: State, sid: string, aid: string, key: string, value: string, at: nat): State {
    if key == "" then s
    else
      var entry := PadEntry(key, value, aid, at);
      Emit(lim, s.(pads := s.pads[sid := Pad(s.pads, sid)[key := entry]], padCounts := Bumped(s.padCounts, sid)),
           sid, Events.System(aid), "scratchpad_update", aid, EVERYONE, PadSet(entry))
  }

  function PadRemoved(lim: Limits, s: State, sid: string, aid: string, key: string): State {
    if key !in Pad(s.pads, sid) then s
    else
      Emit(lim, s.(pads := s.pads[sid := Pad(s.pads, sid) - {key}], padCounts := Bumped(s.padCounts, sid)),
           sid, Events.System(aid), "scratchpad_update", aid, EVERYONE, PadDeleted(key))
  }

  // ---- Leadership --------------------------------------------------------------------------------

  function LeaderOf(s: State, sid: string): string {
    if sid in s.leaders then s.leaders[sid] else ""
  }

  function TransferRefusal(s: State, sid: string, from: string, to: string, at: nat): Option<Refusal> {
    if LeaderOf(s, sid) != from then Some(NotLeader)
    else if !Present(s.roster, sid, to, at) then Some(NotPresent)
    else if sid !in s.leaders then Some(TransferFailed)
    else None
  }

  function Transferred(lim: Limits, s: State, sid: string, from: string, to: string, at: nat): State {
    if TransferRefusal(s, sid, from, to, at).Some? then s
    else Emit(lim, s.(leaders := s.leaders[sid := to]), sid, Events.System(from), "leader_info", SERVER, EVERYONE,
                  LeaderMoved(to, from))
  }

  // ---- The presence sweep and its callbacks ------------------------------------------------------

  predicate Online(r: Roster, sid: string, aid: string, at: nat) {
    Key(sid, aid) in r.agents && r.agents[Key(sid, aid)].sid == sid && Live(r.agents[Key(sid, aid)], r.ttl, at)
  }

  /** The roster is searched in no particular order, so the heir is some member who is online. */
  ghost predicate ValidHeir(r: Roster, sid: string, heir: string, at: nat) {
    if heir != "" then Online(r, sid, heir, at)
    else Online(r, sid, "", at) || forall a :: !Online(r, sid, a, at)
  }

  /** An agent has lapsed: if it led, the heir takes over, or nobody does. */
  function WentOffline(lim: Limits, s: State, sid: string, aid: string, heir: string): State {
    if sid !in s.leaders || s.leaders[sid] != aid then s
    else if heir != "" then
      Emit(lim, s.(leaders := s.leaders[sid := heir]), sid, Events.System(""), "leader_info", SERVER, EVERYONE,
          LeaderIs(heir))
    else s.(leaders := s.leaders - {sid})
  }

  function OriginLess(o: Origin, keys: set<string>): Origin {
    o.(boxes := o.boxes - keys)
  }

  /** An agent is forgotten: its departure is announced and its mailbox reclaimed. */
  function Departed(lim: Limits, s: State, a: Agent): State {
    var s1 := Emit(lim, s, a.sid, Events.Ambient, "agent_left", SERVER, EVERYONE, AgentIs(a.aid, a.caps, false));
    var k := Key(a.sid, a.aid);
    s1.(boxes := s1.boxes - {k}, origin := OriginLess(s1.origin, {k}))
  }

  /** The expiry callbacks, one for each lapsed record. */
  function Offline(lim: Limits, s: State, lapsed: seq<Agent>, heirs: seq<string>): State
    requires |heirs| == |lapsed|
  {
    if lapsed == [] then s
    else
      var n := |lapsed| - 1;
      WentOffline(lim, Offline(lim, s, lapsed[..n], heirs[..n]), lapsed[n].sid, lapsed[n].aid, heirs[n])
  }

  function Departures(lim: Limits, s: State, gone: seq<Agent>): State {
    if gone == [] then s else Departed(lim, Departures(lim, s, gone[..|gone| - 1]), gone[|gone| - 1])
  }

  function SweptServer(lim: Limits, s: State, at: nat, lapsed: seq<Agent>, heirs: seq<string>, gone: seq<Agent>): State
    requires |heirs| == |lapsed|
  {
    Departures(lim, Offline(lim, s.(roster := Swept(s.roster, at)), lapsed, heirs), gone)
  }

  /** The callbacks report exactly the lapsed and the forgotten records, in some order, and every heir is one
      that the search could have found. */
  ghost predicate SweepReports(s: State, at: nat, lapsed: seq<Agent>, heirs: seq<string>, gone: seq<Agent>) {
    && |heirs| == |lapsed|
    && (exists keys: seq<string> :: Lists(keys, Expiring(s.roster, at)) && Reports(lapsed, keys, s.roster, at))
    && (exists keys: seq<string> :: Lists(keys, Forgetting(s.roster, at)) && Reports(gone, keys, s.roster, at))
    && (forall i :: 0 <= i < |lapsed| ==> ValidHeir(Swept(s.roster, at), lapsed[i].sid, heirs[i], at))
  }

  // ---- Sessions ----------------------------------------------------------------------------------

  predicate OfSession(k: string, gone: set<string>) {
    exists sid :: sid in gone && sid + "/" <= k
  }

  function RosterWithout(r: Roster, gone: set<string>): Roster {
    r.(agents := map k | k in r.agents && r.agents[k].sid !in gone :: r.agents[k])
  }

  function BoxesWithout(boxes: Boxes, gone: set<string>): Boxes {
    map k | k in boxes && !OfSession(k, gone) :: boxes[k]
  }

  function OriginWithout(o: Origin, gone: set<string>): Origin {
    Origin(o.counters - gone, o.history - gone, BoxesWithout(o.boxes, gone))
  }

  /** Everything that belongs to the closed sessions is removed; mailboxes are found by key prefix. */
  function Closed(s: State, gone: set<string>): State {
    s.(roster := RosterWithout(s.roster, gone),
       leaders := s.leaders - gone,
       pads := s.pads - gone, padCounts := s.padCounts - gone,
       boxes := BoxesWithout(s.boxes, gone),
       history := s.history - gone, counters := s.counters - gone,
       sessions := s.sessions - gone,
       log := s.log - gone, origin := OriginWithout(s.origin, gone))
  }

  function ClosedOne(s: State, sid: string): State {
    if sid in s.sessions then Closed(s, {sid}) else s
  }

  /** The sessions whose last activity is not after the cutoff, including those never active. */
  function Stale(m: map<string, Session>, cutoff: int): set<string> {
    set sid | sid in m && !ActiveAfter(m[sid].lastActive, cutoff)
  }

  // ---- Operations --------------------------------------------------------------------------------

  datatype Op =
    | Register(sid: string, aid: string, caps: seq<string>, at: nat)
    | Refresh(sid: string, aid: string, at: nat)
    | Peek(sid: string, aid: string, at: nat)
    | Drain(sid: string, aid: string, from: string, kind: string, at: nat)
    | Send(sid: string, from: string, to: string, kind: string, payload: Payload, at: nat)
    | Broadcast(sid: string, from: string, kind: string, payload: Payload, at: nat)
    | SetPad(sid: string, aid: string, key: string, value: string, at: nat)
    | DeletePad(sid: string, aid: string, key: string, at: nat)
    | Transfer(sid: string, from: string, to: string, at: nat)
    | Create(sid: string, psk: string, name: string, at: nat)
    | Open(sid: string, psk: string, at: nat)
    | Close(sid: string, at: nat)
    | SetForgetAfter(d: int, at: nat)
    | Sweep(lapsed: seq<Agent>, heirs: seq<string>, gone: seq<Agent>, at: nat)
    | Reap(retention: nat, at: nat)

  /** Operations on one session. */
  predicate Single(op: Op) {
    !op.SetForgetAfter? && !op.Sweep? && !op.Reap?
  }

  /** Session ids contain no '/', and a sweep makes the callbacks the tracker asks for. */
  ghost predicate Enabled(s: State, op: Op) {
    && (Single(op) ==> SlashFree(op.sid))
    && (op.Sweep? ==> SweepReports(s, op.at, op.lapsed, op.heirs, op.gone))
  }

  ghost function Apply(lim: Limits, s: State, op: Op): State
    requires Enabled(s, op)
  {
    match op
    case Register(sid, aid, caps, at) => Registered(lim, s, sid, aid, caps, at)
    case Refresh(sid, aid, at) => Refreshed(s, sid, aid, at)
    case Peek(sid, aid, at) => Seen(s, sid, aid, at)
    case Drain(sid, aid, from, kind, at) => Drained(s, sid, aid, from, kind, at)
    case Send(sid, from, to, kind, payload, at) => Sent(lim, s, sid, from, to, kind, payload)
    case Broadcast(sid, from, kind, payload, at) => Broadcasted(lim, s, sid, from, kind, payload)
    case SetPad(sid, aid, key, value, at) => PadChanged(lim, s, sid, aid, key, value, at)
    case DeletePad(sid, aid, key, at) => PadRemoved(lim, s, sid, aid, key)
    case Transfer(sid, from, to, at) => Transferred(lim, s, sid, from, to, at)
    case Create(sid, psk, name, at) => s.(sessions := s.sessions[sid := Session(sid, name, psk, at, Some(at))])
    case Open(sid, psk, at) => s.(sessions := AfterOpening(s.sessions, sid, Opened(s.sessions, sid, psk, "", at)))
    case Close(sid, at) => ClosedOne(s, sid)
    case SetForgetAfter(d, at) => s.(roster := s.roster.(forgetAfter := d))
    case Sweep(lapsed, heirs, gone, at) => SweptServer(lim, s, at, lapsed, heirs, gone)
    case Reap(retention, at) => Closed(s, Stale(s.sessions, at - retention))
  }

  // ---- Runs --------------------------------------------------------------------------------------

  /** Every record is stored under its own id or key, in sessions without '/'. */
  ghost predicate RecordsOk(s: State) {
    IdsMatch(s.sessions) && PadsMatch(s.pads) && forall k :: k in s.sessions ==> SlashFree(k)
  }

  /** A history in order, with nothing in it numbered above the counter. */
  ghost predicate HistoryFits(h: seq<Envelope>, counter: nat) {
    Ordered(h) && Events.Below(h, counter)
  }

  /** What the session began with fits its counter: its history, and the mail in its mailboxes. */
  ghost predicate FitsIn(s: State, sid: string) {
    && HistoryFits(FirstHistory(s, sid), FirstCounter(s, sid))
    && (forall aid :: SlashFree(sid) && Key(sid, aid) in s.origin.boxes ==>
          Events.Below(s.origin.boxes[Key(sid, aid)], FirstCounter(s, sid)))
  }

  ghost predicate Fits(s: State) {
    forall sid :: FitsIn(s, sid)
  }

  /** A server that begins to serve: nobody has been seen, nothing emitted, and what it holds is what it was restored
      with, if anything. It need not fit: what was saved may have been read while a session was being removed. */
  ghost predicate Starts(lim: Limits, s: State) {
    && lim.history >= 1 && lim.box >= 1
    && s.roster.agents == map[] && s.leaders == map[] && s.log == map[]
    && s.origin == Origin(s.counters, s.history, s.boxes)
    && RecordsOk(s) && forall sid :: |HistoryOf(s, sid)| <= lim.history
  }

  /** The server begins to serve with what it holds. */
  function Begun(s: State): State {
    s.(log := map[], origin := Origin(s.counters, s.history, s.boxes))
  }

  /** A run of one process, new or restarted from saved state, whose clock never goes back. */
  ghost predicate Run(lim: Limits, states: seq<State>, ops: seq<Op>) {
    && |states| == |ops| + 1 && Starts(lim, states[0])
    && (forall i :: 0 <= i < |ops| ==> Enabled(states[i], ops[i]) && states[i + 1] == Apply(lim, states[i], ops[i]))
    && (forall i, j :: 0 <= i < j < |ops| ==> ops[i].at <= ops[j].at)
  }

  /** The time of the last operation before state i. */
  function Now(ops: seq<Op>, i: nat): nat
    requires i <= |ops|
  {
    if i == 0 then 0 else ops[i - 1].at
  }
}
