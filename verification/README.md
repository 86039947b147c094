# agentchat: a verified model

agentchat is a message server for agents that share a session. This project models the server's hub with its stores
(mailboxes, presence, leadership, sessions, scratchpad, watch channels) and the two clients that depend on its sequence
numbers, and proves what they promise each other. Check everything with `dafny verify dfyconfig.toml` (Dafny 4.11).

## How it is organised

- `Sequences`, `Envelopes`, `History`: bounded windows, composite keys, envelopes, and catch-up paging over a window.
- `MailSpec` and `Mailbox`: mailboxes as a value with their operations, and the store that mutates its boxes in place,
  with the long-poll loop. `PresenceSpec`, `PresenceLife` and `Presence` do the same for the presence tracker;
  `Stores.dfy` holds sessions, leadership and the scratchpad; `Watcher` the watch channels.
- `EventProtocol` and `EventGuarantees`: one session at the grain of the code's critical sections. Any number of emitters
  (number and record; read the roster; deliver box by box; notify channel by channel), watch connections (subscribe, copy
  the history, read the channel), mailbox readers and the snapshotter interleave freely.
- `Server`, `ServerSafety`, `ServerSweep`, `ServerRuns`, `ServerLeaders`: the whole server with every session, each
  operation atomic, under one invariant; `Effects` says of each request which fields it changes and what it logs. `Hub`
  is the imperative hub over the imperative stores; each of its methods is proved to do to the whole server what the
  operation of `Server` says. `Api` holds the handlers that combine several calls, `Restart` saving and restoring, and
  `Lives` says which saved states a process can begin with. `Refinement` shows that every sequence of calls on the hub is
  a run of operations, and `Serial` that the atomic emit is what an uninterrupted emitter of the event protocol does;
  `Progress` that no emitter is ever stuck.
- `Watermark`, `Bridge`, `SignalLoop`, `Resync`: the bridge's stale filter, its wake-up coalescing, and its mark against
  the server's counter. `Sse` and `Cli`: the event stream as written and as read back by both clients, and the
  display. `LiveStream` joins the server's writes with the bridge's reading and its wake-ups.

## Conventions

- Time is a natural number given to each operation; runs only require that it does not go back. A session that was
  created but never touched has no activity time, as Go's zero time lies before every instant.
- Iteration over a Go map picks an arbitrary remaining key at every step, so results hold for every order.
- A payload is the value before marshalling. JSON text is a string without a newline; a character of a stream stands
  for one byte.
- The whole-server results assume session ids without '/': keys are `session + "/" + agent`, and
  `Envelopes.KeyCollision` and `Envelopes.PrefixMatch` show what happens otherwise. Agent ids are unrestricted.
- Stores are proved against a specification value (`M`) that their `Valid` predicate ties to the real fields; `Hub.log`
  records what was handed to the notifier and `Hub.origin` what the process was restored with, for proofs only.
  Restored state `Fits` if nothing in it is numbered above its session's counter and histories are in order.
- Agents have names where a result says so: the handlers refuse requests without one.

Where documentation and code disagree the model follows the code: the repository's README.md:35 and README.md:279 say that sends to offline
agents fail, internal/hub/hub.go:288-306 accepts any known member (`ServerRuns.SendReaches`); the comments at
internal/hub/hub.go:171-177 and internal/api/api.go:270 say that joins and re-announcements enter mailboxes,
internal/hub/hub.go:182-202 sends them to watchers only; the comment at internal/mailbox/mailbox.go:147-149 reads as if a
poll gave up only after looking at the deadline, while its last look may come earlier
(`Mailbox.EarlyGiveUp`); the comment at internal/hub/hub.go:253 says that the next agent to join a deserted session leads
it, but a member that comes back before it was forgotten does not join (`ServerLeaders.LedExactly`).

## Model

| member | source | states |
|---|---|---|
| `Envelopes.PrefixMatch` | internal/mailbox/mailbox.go:182-191 | exactly which mailbox keys the `sid + "/"` prefix test of session removal hits, for any ids at all |
| `Envelopes.PrefixExact` | internal/mailbox/mailbox.go:182-191 | for session ids without '/', the prefix test hits exactly the boxes of that session, whatever the agent ids are |
| `Envelopes.KeyInjective` | internal/presence/presence.go:52-54 | two members of sessions without '/' share a composite key only if they are the same member of the same session |
| `Envelopes.KeyCollision` | internal/presence/presence.go:52-54 | with a '/' in a session id two different members do share a key |
| `Sequences.NewestAppend` | internal/hub/hub.go:126-129 | trimming after every append keeps exactly the newest elements of everything ever appended |
| `History.WindowPageIsLogPage` | internal/hub/hub.go:480-499 | a page read from the window equals the page of the full log if and only if no entry above the cursor has been evicted |
| `History.CrawlIsOrdered` | internal/hub/hub.go:480-499 | paging with the last number as cursor, any limits, appends and evictions in between: strictly increasing, no duplicate, nothing invented |
| `History.CrawlIsComplete` | internal/hub/hub.go:480-499 | paging omits an entry the cursor has passed only if it was evicted before it was reached |
| `History.FixedCrawl` | internal/hub/hub.go:480-499 | on an unchanging history every page makes progress until everything above the start has been returned |
| `History.PageIsFull` | internal/hub/hub.go:480-499 | a page with a limit has as many entries as the limit allows of those above the cursor, and only such |
| `MailSpec.EveryEntryInOnePlace` | internal/mailbox/mailbox.go:75-191 | conservation: over every run with competing consumers each delivered entry is queued, in exactly one drain's result, evicted by the cap, or removed with its box, and never two of these |
| `MailSpec.BoxIsNewestUndrained` | internal/mailbox/mailbox.go:75-141 | whatever the interleaving, a box is the newest part, in order, of the deliveries that no drain has returned |
| `MailSpec.LostIsEvicted` | internal/mailbox/mailbox.go:83-86 | what a box lacks of its undrained deliveries was evicted by the cap, not lost otherwise |
| `MailSpec.EmptyDrainSame` | internal/mailbox/mailbox.go:119-141 | a filtered drain that finds nothing leaves every queue as it was |
| `MailSpec.SameApply` | internal/mailbox/mailbox.go:48-65 | creating an empty box, as a waiter does, is invisible to every later operation |
| `MailSpec.DrainFields` | internal/mailbox/mailbox.go:91-141 | told by the fields: a filtered drain takes exactly the entries that bear the sender and the type asked for, as far as these are given, and leaves exactly those that differ in one of them |
| `MailSpec.DeliveriesCount` | internal/mailbox/mailbox.go:75-89 | what bounds a poll's iterations is the number of deliveries to its box |
| `Mailbox.Store.constructor` | internal/mailbox/mailbox.go:38-46 | a new store is empty; a non-positive cap becomes the default |
| `Mailbox.Box.Put` | internal/mailbox/mailbox.go:82-88 | append, drop the oldest past the cap, leave a wake-up token |
| `Mailbox.Box.Signal` | internal/mailbox/mailbox.go:67-73 | signals coalesce into one token |
| `Mailbox.Store.GetOrCreateBox` | internal/mailbox/mailbox.go:48-65 | an existing box is returned as it is, a missing one is created empty, all others are untouched |
| `Mailbox.Store.Deliver` | internal/mailbox/mailbox.go:75-89 | the store changes exactly as one delivery with the next entry id |
| `Mailbox.Store.Drain` | internal/mailbox/mailbox.go:103-117 | returns the whole queue and empties it |
| `Mailbox.Store.Take` | internal/hub/hub.go:278-281 | the drains that do not wait: without a filter everything is taken; with one, what bears the sender and the type asked for |
| `Mailbox.Partition` | internal/mailbox/mailbox.go:129-138 | the partition loop is stable: every entry is in exactly one of the two parts, each in order; the matched ones bear the sender and the type asked for, the kept ones differ in one that was given |
| `Mailbox.Store.DrainMatching` | internal/mailbox/mailbox.go:119-141 | returns the entries that bear the sender and the type asked for and keeps the others, both in order |
| `Mailbox.Store.DrainMatchingWait` | internal/mailbox/mailbox.go:143-172 | across any rounds with any operations of others in between, the whole long poll equals those operations followed by one filtered drain, and no earlier look found anything; what it returns bears the sender and the type asked for, and what its last look saw and left differs in one that was given; it returns nothing only after a clock reading at or past the deadline, and if it need not wait its last drain ran at or past the deadline too; with a punctual timer the look that ends it comes at most 500 ms after the sleep began in which the match arrived, and by the deadline; its iterations are at most the timer ticks plus the wake-up tokens taken plus one, and tokens are at most the deliveries plus one pending |
| `Mailbox.TicksCover` | internal/mailbox/mailbox.go:143-160 | the timer ticks of a wait are as many as cover it at 500 ms each |
| `Mailbox.EarlyGiveUp` | internal/mailbox/mailbox.go:152-160 | for every store, filter and positive wait with nothing queued that matches there is a schedule on which the poll returns nothing although its last drain ran before the deadline, and a matching entry that arrived in between stays queued |
| `Mailbox.ExpiredPollLeavesArrival` | internal/mailbox/mailbox.go:152-160 | the smallest such schedule |
| `Mailbox.Store.Perform` | internal/mailbox/mailbox.go:75-191 | any operation of another client changes the store as specified and adds at most the token of its own delivery |
| `Mailbox.Store.Sleep` | internal/mailbox/mailbox.go:162-170 | one select of a long poll: it is woken by a token or not before the tick or the deadline, while others work |
| `Mailbox.Store.DeleteBox` | internal/mailbox/mailbox.go:174-178 | removes one box and nothing else |
| `Mailbox.Store.DeleteSession` | internal/mailbox/mailbox.go:180-191 | the loop removes exactly the boxes whose key has the session's prefix, in any iteration order |
| `Mailbox.Store.Len` | internal/mailbox/mailbox.go:193-203 | the number of queued entries, 0 for a missing box |
| `Mailbox.Store.Snapshot` | internal/mailbox/mailbox.go:206-217 | copies every queue |
| `Mailbox.Store.Restore` | internal/mailbox/mailbox.go:219-229 | replaces all boxes by the saved queues; the id counter does not move |
| `PresenceLife.ExpiresOncePerLapse` | internal/presence/presence.go:56-83 | two expiry callbacks for one record are separated by a touch |
| `PresenceLife.ForgetFollowsExpire` | internal/presence/presence.go:167-188 | every forget callback is preceded by an expiry callback of the same lapse, possibly of the same sweep |
| `PresenceLife.ForgottenOnce` | internal/presence/presence.go:167-188 | a record is forgotten once: a second forget needs a touch that created it anew |
| `PresenceLife.ExpiredIsNotLive` | internal/presence/presence.go:56-83 | a marked record is not live, now or at any later time before its next touch |
| `PresenceLife.ForgetOnlyWhenIdle` | internal/presence/presence.go:170-179 | a record is forgotten only after being idle for the ttl and for the forget horizon |
| `PresenceLife.KeysKept` | internal/presence/presence.go:64-83 | every operation keeps records under their own composite key |
| `PresenceSpec.TouchedFields` | internal/presence/presence.go:60-83 | told by the fields: the record was just seen and is not expired, keeps its capabilities unless new ones are given, and no other record changes |
| `PresenceSpec.SweptFields` | internal/presence/presence.go:167-188 | told by the fields: a sweep marks exactly what has been idle for the ttl, removes exactly what is marked and has been idle for the horizon, and changes nothing else |
| `Presence.Tracker.constructor` | internal/presence/presence.go:40-50 | a new tracker knows nobody; a non-positive ttl becomes the default |
| `Presence.Tracker.SetForgetAfter` | internal/presence/presence.go:159-165 | changes the forget horizon and nothing else |
| `Presence.Tracker.Touch` | internal/presence/presence.go:60-83 | creates or revives the record, keeps capabilities unless new ones are given, reports first sight |
| `Presence.Tracker.IsPresent` | internal/presence/presence.go:85-94 | seen less than the ttl ago |
| `Presence.Tracker.WasPresent` | internal/presence/presence.go:96-109 | known to this session, online or not |
| `Presence.Tracker.GetAgents` | internal/presence/presence.go:111-130 | lists every known member of the session exactly once, in any order, with its name, its capabilities, and whether it was seen less than the ttl ago |
| `Presence.Tracker.Sweep` | internal/presence/presence.go:167-188 | the loop over the mutating map, in any order: exactly the lapsed records are marked and reported, exactly those past the horizon are removed and reported, each once |
| `Presence.Tracker.ClearSession` | internal/presence/presence.go:190-198 | removes exactly the records of the session |
| `Sessions.TouchedActivity` | internal/session/session.go:111-126 | the activity clock of a session never moves back, and nothing else changes |
| `Sessions.Store.Create` | internal/session/session.go:34-49 | a new session under its drawn id, active from its creation |
| `Sessions.Store.ValidatePsk` | internal/session/session.go:68-79 | the session, only for its own key |
| `Sessions.Store.GetOrCreate` | internal/session/session.go:81-103 | a wrong key is refused, an existing session returned, a new one created with no activity recorded |
| `Sessions.OpenedFields` | internal/session/session.go:81-103 | told by the fields: a session that is there opens for its own key alone and is not changed; a new one has the given key; no other session changes |
| `Sessions.Store.TouchActivity` | internal/session/session.go:111-126 | the record mutated in place follows the specification |
| `Sessions.Store.Delete` | internal/session/session.go:58-66 | removes one session and reports whether it was there |
| `Sessions.Store.Snapshot` | internal/session/session.go:128-137 | every session once, in any order |
| `Sessions.Store.Restore` | internal/session/session.go:139-148 | rebuilds the registry from a list |
| `Sessions.SessionsRoundTrip` | internal/session/session.go:128-148 | saving and restoring gives the registry back, for any list order, if and only if every session is stored under its own id |
| `Sessions.LastIsKept` | internal/session/session.go:140-148 | of several saved sessions with one id the last is restored |
| `Scratchpad.Store.Get` | internal/scratchpad/scratchpad.go:43-55 | the entry under the key, if any |
| `Scratchpad.Store.List` | internal/scratchpad/scratchpad.go:72-84 | every entry of the pad, in any order |
| `Scratchpad.Store.ClearSession` | internal/scratchpad/scratchpad.go:86-91 | removes the session's pad and its change count |
| `Scratchpad.Store.Set` | internal/scratchpad/scratchpad.go:24-41 | the entry replaces the one under its key; the session's change count grows |
| `Scratchpad.Store.Delete` | internal/scratchpad/scratchpad.go:57-70 | removes a present key and counts the change; an absent one changes nothing |
| `Scratchpad.Store.Snapshot` | internal/scratchpad/scratchpad.go:93-106 | every pad's entries, in any order |
| `Scratchpad.Store.Restore` | internal/scratchpad/scratchpad.go:108-121 | rebuilds every pad from its list |
| `Scratchpad.PadsRoundTrip` | internal/scratchpad/scratchpad.go:93-121 | saving and restoring gives the pads back, for any order, if and only if every entry is stored under its own key |
| `Scratchpad.LastEntryIsKept` | internal/scratchpad/scratchpad.go:109-121 | of several saved entries with one key the last is restored |
| `Leader.Tracker.Transfer` | internal/leader/leader.go:31-41 | compare and replace: it succeeds exactly for the present leader |
| `Leader.Tracker.SetInitialLeader` | internal/leader/leader.go:18-22 | the given agent leads |
| `Leader.Tracker.GetLeader` | internal/leader/leader.go:24-29 | the leader, or none |
| `Leader.Tracker.ClearSession` | internal/leader/leader.go:43-47 | nobody leads the session |
| `EventProtocol.HistoryKept` | internal/hub/hub.go:116-141 | every step keeps: numbers are consecutive and the history is the window of everything recorded |
| `EventProtocol.EmittersKept` | internal/hub/hub.go:116-161 | every step keeps: the numbers issued are exactly those still with their emitter and those already notified |
| `EventProtocol.DeliveriesKept` | internal/hub/hub.go:356-376 | every step keeps: no mailbox is served a number twice or one not addressed to it |
| `EventProtocol.FanoutKept` | internal/hub/hub.go:366-376 | every step keeps: exactly the members of the roster an emitter read, without the excluded one, have been or are about to be served |
| `EventProtocol.BoxesKept` | internal/mailbox/mailbox.go:75-141 | every step keeps: boxes hold restored or genuinely issued events they were served, each number once |
| `EventProtocol.ConnsKept` | internal/api/api.go:619-660 | every step keeps: each connection was offered exactly the events notified past it since it subscribed, and replays the window at its copy |
| `EventProtocol.SnapKept` | cmd/server/main.go:77-85 | every step keeps: what has been captured so far is numbered up to the counter, which is captured last |
| `EventProtocol.RunInv` | internal/hub/hub.go:116-161 | all of these hold in every state of every interleaving |
| `EventGuarantees.NoGapAtConnect` | internal/api/api.go:619-660 | no gap at connect: a recorded event that has been notified is in the replay or in the stream, unless the window had lost it before the copy or the channel was full |
| `EventGuarantees.ReplayExact` | internal/api/api.go:625-632 | the replay holds a recorded event exactly if it was recorded before the copy and not yet evicted |
| `EventGuarantees.StreamExact` | internal/api/watcher.go:55-71 | the stream holds an event of any kind exactly if its fan-out passed the connection after the subscribe |
| `EventGuarantees.ReplayMeetsStream` | internal/api/api.go:619-632 | an event in both replay and stream was recorded before the copy and not yet notified at the subscribe; neither part repeats an event |
| `EventGuarantees.StreamIsFifo` | internal/api/watcher.go:55-71 | a watcher gets events in the order its channel took them, and none is lost before the channel has taken as many as it can hold; when exactly one is lost is DropsOnlyWhenFull |
| `EventGuarantees.DropsOnlyWhenFull` | internal/api/watcher.go:64-70 | a step drops an event of a watcher exactly if it offers one while the channel is full at that moment |
| `EventGuarantees.EachNumberOnce` | internal/hub/hub.go:120-141 | each number from the starting counter to the present one is issued exactly once, across all kinds of event |
| `EventGuarantees.HistoryIncreases` | internal/hub/hub.go:116-130 | history is strictly increasing and is the newest part of everything recorded, under any interleaving |
| `EventGuarantees.NothingTwice` | internal/hub/hub.go:366-376 | no mailbox and no subscriber receives a number twice |
| `EventGuarantees.QuiescentNotified` | internal/hub/hub.go:143-161 | when no emitter is at work the notified numbers are exactly those issued since the start |
| `EventGuarantees.DeliveryIsExact` | internal/hub/hub.go:356-376 | past its delivery step an event has been put in exactly the mailboxes it is for: the recipient's, or those of the roster read without the sender or excluded agent, or none |
| `EventGuarantees.FuzzySnapshotIsSafe` | cmd/server/main.go:77-85 | a snapshot captured piece by piece between any other steps restores to a proper start: all queued and recorded numbers are up to its counter, and the history is in order |
| `EventGuarantees.EveryLifeIsRun` | cmd/server/main.go:145-155 | over any number of restarts, clean or not, every process starts properly |
| `EventGuarantees.RestartContinues` | internal/hub/hub.go:527-541 | after a restart every number issued exceeds all persisted ones and history stays strictly increasing |
| `ServerSafety.EmitInv` | internal/hub/hub.go:143-161 | emitting one event keeps the whole-server invariant |
| `ServerSafety.RegisteredInv` | internal/hub/hub.go:163-211 | registering keeps the whole-server invariant, including for the first leader |
| `ServerSafety.TransferredInv` | internal/hub/hub.go:423-449 | a leadership transfer keeps the whole-server invariant |
| `ServerSafety.ClosedInv` | internal/hub/hub.go:548-594 | removing any set of sessions keeps the whole-server invariant |
| `ServerSweep.SweptServerInv` | internal/presence/presence.go:167-188 | a sweep with all its callbacks, in any order and with any heirs, keeps the whole-server invariant |
| `ServerSweep.LeadersLiveAfterSweep` | internal/hub/hub.go:226-257 | right after a sweep every leader is online, even if several members lapsed or were forgotten in it |
| `ServerRuns.ApplyInv` | internal/hub/hub.go:163-594 | every operation keeps the whole-server invariant |
| `ServerRuns.RunInv` | internal/hub/hub.go:163-594 | the invariant holds after every run of operations, of a new server and of one restarted from saved state |
| `ServerRuns.LeaderSafety` | internal/hub/hub.go:204-257 | in every run, after a restart too, a session's leader is a known member with a clear Expired flag, and is online right after a sweep |
| `ServerRuns.MailboxesAreSound` | internal/hub/hub.go:284-376 | a mailbox whose agent has not been seen since the start is as it was restored; every other belongs to a known agent and holds restored entries, none once the agent has been forgotten, and events of that session meant for that agent, as their own from and to say: never its own broadcast, never a change it made itself, never another's direct message, never an ambient event; if what was restored for the session fitted its counter, the new events come after the restored ones in strictly increasing order up to the counter, and all is in order if the restored mailbox was |
| `ServerLeaders.SweptLeadership` | internal/hub/hub.go:226-257 | a sweep leaves a session with a leader if and only if it had one and somebody is online, whoever lapses and in whatever order; agents have names, as the handlers demand |
| `ServerLeaders.LedExactly` | internal/hub/hub.go:192-257 | over every run of requests by named agents, a session has a leader if and only if an agent unknown to the roster has registered with it since it was last closed or deserted: being online is not enough, and a returning member never claims a cleared leadership |
| `ServerLeaders.OnlineWithoutLeader` | internal/hub/hub.go:184-220 | a session is created and an agent makes one request before it registers: the session has an online, registered member and no leader, for any ids; the first request used up the joining |
| `ServerRuns.ExpiredIsOffline` | internal/presence/presence.go:56-83 | in every run a marked agent is not online, now or later, until seen again |
| `ServerRuns.HistoryRefinesLog` | internal/hub/hub.go:116-130 | history is the last maxHistory envelopes restored or recorded; if what was restored fitted its counter they are in order, and a catch-up page is the full log's page if and only if nothing above the cursor was evicted |
| `ServerRuns.FitsOver` | internal/hub/hub.go:527-541 | if what was restored for a session fits its counter at the start it does so at any point of any run |
| `ServerRuns.SendReaches` | internal/hub/hub.go:284-318 | a direct message is accepted exactly if the recipient is a known member, online or not, and then arrives last in that mailbox and in no other, and once if what was restored there fits the counter |
| `ServerRuns.BroadcastReaches` | internal/hub/hub.go:335-376 | a broadcast arrives last in the mailbox of every known member but its sender, and nowhere else, and once if what was restored there fits the counter |
| `ServerRuns.RemovalIsExact` | internal/hub/hub.go:548-594 | on any server whatever, closing or reaping leaves nothing of the chosen sessions, restored mailboxes without a known owner included, and everything of the others; a reap chooses exactly the sessions with no activity after the cutoff |
| `ServerRuns.SessionsAreSeparate` | internal/hub/hub.go:163-449 | no operation on one session changes anything of another; only the roster need be consistent |
| `Effects.EmitFields` | internal/hub/hub.go:132-161 | every event puts exactly one entry in its session's log, with its labels, its payload and the next number; one for watchers only enters no mailbox and no history |
| `Effects.SystemReaches` | internal/hub/hub.go:143-161 | a system event arrives last in the mailbox of every known member but the one that caused it, and nowhere else |
| `Effects.RegisteredRecord` | internal/hub/hub.go:179-185 | told by the fields: a registration makes the record fresh with the given capabilities, and changes no other |
| `Effects.RegisteredEvents` | internal/hub/hub.go:176-224 | told by the log: a newcomer is announced as joined and leads if nobody does, a member past the ttl as reconnected, a live one not at all |
| `Effects.RegisteredRest` | internal/hub/hub.go:176-224 | a registration changes no mailbox, history or pad, and no session's key |
| `Effects.RefreshedFields` | internal/hub/hub.go:212-218 | an authorised request makes the agent just seen and its session active at that time, and changes nothing else |
| `Effects.ReapFields` | internal/hub/hub.go:577-594 | the janitor keeps exactly the sessions with activity after its cutoff, unchanged |
| `Effects.ActiveIsKept` | internal/hub/hub.go:212-218 | so a session survives the janitor as long as the cutoff lies before its latest request |
| `Effects.CreateFields` | internal/session/session.go:34-49 | creating a session stores it with its key, active from then on, and changes nothing else |
| `Effects.OpenFields` | internal/session/session.go:81-103 | opening one keeps it if it is there and stores a new one with the given key, without activity, if it is not; nothing else changes |
| `Effects.RestFields` | internal/presence/presence.go:159-165 | setting the horizon changes that alone; closing a session that is not there does nothing |
| `Effects.MessageFields` | internal/hub/hub.go:284-351 | exactly when a direct message is refused, and with which error; otherwise it, like a broadcast, is logged as it was sent and is the newest of the history |
| `Effects.PadSetFields` | internal/hub/hub.go:378-394 | a set entry is in the pad with its value, author and time, nothing else in any pad changes, and one update is logged; an empty key changes nothing |
| `Effects.PadDeleteFields` | internal/hub/hub.go:404-417 | a deleted entry is gone, nothing else in any pad changes, and one update is logged; a key that is not there changes nothing |
| `Effects.TransferFields` | internal/hub/hub.go:423-451 | a transfer is accepted if and only if it comes from the leader and goes to somebody seen less than the ttl ago, with the exact error otherwise; then that one leads and one event announces it; a refusal changes nothing |
| `Effects.LapsedFields` | internal/hub/hub.go:226-257 | a lapse moves the leadership of the lapsed leader to the heir, announced by one event, or clears it; that of anybody else changes nothing |
| `Effects.ForgottenFields` | internal/hub/hub.go:96-111 | forgetting an agent logs one departure and removes its mailbox, and changes nothing else |
| `Hub.Hub.constructor` | internal/hub/hub.go:79-94 | a hub over its stores has no history, no counters and has notified nothing |
| `Hub.Hub.NotifyWatchers` | internal/hub/hub.go:45-49 | hands the event over once, after everything else |
| `Hub.Hub.DeliverToAgentMailbox` | internal/hub/hub.go:356-362 | one more envelope at the end of one mailbox |
| `Hub.Hub.RecordEnvelope` | internal/hub/hub.go:116-130 | number and history window change together as specified |
| `Hub.Hub.SequenceEnvelope` | internal/hub/hub.go:132-141 | takes the next number and leaves history alone |
| `Hub.Hub.DeliverToSessionMailboxes` | internal/hub/hub.go:364-376 | the loop over the roster puts the envelope in the mailbox of every known member but one, each once, and counts them |
| `Hub.Hub.EmitSystemEvent` | internal/hub/hub.go:143-150 | number, deliver, notify equals one emit |
| `Hub.Hub.EmitAmbientEvent` | internal/hub/hub.go:152-161 | number, notify equals one emit that reaches no mailbox |
| `Hub.Hub.Register` | internal/hub/hub.go:163-211 | the whole server changes as one registration: re-announcement, first sight and first leader |
| `Hub.Hub.RefreshPresence` | internal/hub/hub.go:212-218 | refreshes presence and activity as specified: the agent has just been seen, and its session has been active since |
| `Hub.Hub.FindHeir` | internal/hub/hub.go:234-240 | the search for a successor finds some online member, or none if there is none |
| `Hub.Hub.OnAgentWentOffline` | internal/hub/hub.go:220-257 | the expiry hook hands leadership over or clears it, and only for the agent that led |
| `Hub.Hub.OnForget` | internal/hub/hub.go:98-111 | the forget hook announces the departure to watchers only and reclaims the mailbox |
| `Hub.Hub.Sweep` | internal/hub/hub.go:96-111 | a tick of the sweep with both hooks equals one sweep operation |
| `Hub.Hub.PeekMailbox` | internal/hub/hub.go:259-264 | counts without consuming |
| `Hub.Hub.DrainMailboxFiltered` | internal/hub/hub.go:271-280 | an immediate drain refreshes presence and takes from that mailbox what bears the sender and the type asked for; what stays differs in one that was given |
| `Hub.Hub.DrainMailboxWait` | internal/hub/hub.go:271-282 | a drain that waits: the caller's presence is refreshed, then the long poll runs on its mailbox while others work, with the timing and the result of the store's poll, told by the fields too, and nothing but the mailboxes changes |
| `Hub.Hub.SendMessage` | internal/hub/hub.go:284-333 | refuses an empty or unknown recipient without any change, else equals one send |
| `Hub.Hub.EmitDirect` | internal/hub/hub.go:308-318 | record, deliver to the recipient, notify equals one emit |
| `Hub.Hub.Broadcast` | internal/hub/hub.go:335-354 | does what the specified broadcast does, and returns the number of known members other than the sender |
| `Hub.Hub.ScratchpadSet` | internal/hub/hub.go:378-394 | an empty key is refused; otherwise the entry is in the pad, with its value, author and time, and the change is announced |
| `Hub.Hub.ScratchpadDelete` | internal/hub/hub.go:404-417 | an absent key is refused; otherwise the entry is gone and the change is announced |
| `Hub.Hub.LeaderTransfer` | internal/hub/hub.go:423-451 | accepted exactly from the leader to somebody seen less than the ttl ago; then the leader is the new one and one event announces it, otherwise nothing changes |
| `Hub.Hub.GetHistoryAfter` | internal/hub/hub.go:480-499 | the loop with its early exit returns the first entries above the cursor, as many as the limit allows |
| `Hub.Hub.GetHistory` | internal/hub/hub.go:471-478 | a copy of the window |
| `Hub.Hub.HistorySnapshot` | internal/hub/hub.go:505-514 | copies every history |
| `Hub.Hub.SeqSnapshot` | internal/hub/hub.go:516-525 | copies every counter |
| `Hub.Hub.RestoreState` | internal/hub/hub.go:527-541 | saved histories replace those present and counters never move back |
| `Hub.RaisedFields` | internal/hub/hub.go:527-541 | a restored counter is the larger of the saved and the present one |
| `Hub.Hub.CloseSession` | internal/hub/hub.go:548-559 | drops everything of the session but its registry entry |
| `Hub.Hub.DeleteSession` | internal/api/api.go:216-225 | unknown sessions are refused, known ones removed entirely |
| `Hub.Hub.ReapStaleSessions` | internal/hub/hub.go:578-594 | the loop over a snapshot of the registry removes exactly the stale sessions |
| `Restart.GetSnapshot` | cmd/server/main.go:77-85 | what a snapshot of a server at rest holds |
| `Restart.RestoreState` | cmd/server/main.go:145-155 | what a snapshot restores to |
| `Restart.RestartRoundTrip` | cmd/server/main.go:145-155 | a restart at rest gives back mailboxes, histories and counters always, and sessions and pads if and only if every record is stored under its own id or key |
| `Restart.ReachableRestart` | cmd/server/main.go:145-155 | every server that a run can reach survives a restart at rest |
| `Lives.SoundFits` | cmd/server/main.go:145-155 | session by session: what is restored fits the counter if and only if the saved history is in order and nothing in it or in a saved mailbox of the session is numbered above the saved counter |
| `Lives.SoundStarts` | cmd/server/main.go:145-155 | a run begins with any saved state whose session ids have no slash and whose histories are within the window, and all that is restored fits if and only if moreover every session was saved soundly |
| `Lives.SessionSaved` | cmd/server/main.go:77-85 | a snapshot whose five stores are read one after another while any operations go on: a run begins with it, and a session fits unless this very session is removed between the reading of the mailboxes and that of the counters |
| `Lives.SavedWhileServing` | cmd/server/main.go:77-85 | so if no session is removed in between, everything fits in the next process |
| `Lives.RemovalWhileSaving` | cmd/server/main.go:77-85 | such a removal does tear the session's part of the snapshot: the run of four operations, for any ids, after which mail outlives the counter of its session |
| `Lives.StoredBelow` | internal/hub/hub.go:120-141 | nothing a server stores for a session is numbered above the session's counter, if what was restored for it fitted |
| `Refinement.Start` | cmd/server/main.go:42-103 | a server over empty stores, restored if there is saved state, stands for the state in which it begins; a run begins there exactly if the saved state can be stored, and it fits if it is sound |
| `Refinement.LastHundred` | internal/hub/hub.go:116-130 | with the window the server is built with, the last hundred messages of a session are all in its history, at any point of any run |
| `Refinement.Serve` | internal/hub/hub.go:163-594 | whatever the call, a client's or a timer's, the imperative hub does exactly what one enabled operation of the specification does |
| `Refinement.ServeAll` | internal/hub/hub.go:163-594 | every sequence of calls on the imperative hub, with a clock that does not go back, extends its run of operations by exactly those calls, so that what holds of every run holds of the hub |
| `Refinement.LeadersOfHub` | internal/hub/hub.go:204-257 | after any calls on a hub that has just started, with saved state or without, every leader is a known member with a clear Expired flag, and online if the last call was a sweep |
| `Serial.DeliverAll` | internal/hub/hub.go:366-376 | serving the mailboxes of an event one by one, in any order, is one fan-out |
| `Serial.NotifyAll` | internal/api/watcher.go:60-71 | notifying the channels of an event one by one, in any order, offers it to each of them once |
| `Serial.EmitSerially` | internal/hub/hub.go:143-161 | the steps of one emitter that nobody interrupts: number and record, read the roster, serve every mailbox, notify every channel |
| `Serial.EmitIsSerial` | internal/hub/hub.go:143-161 | the atomic emit of the whole server is what such an emitter does to its session, and every watch channel is offered the event as by one call of Notify |
| `Progress.EveryEmitterCanFinish` | internal/hub/hub.go:143-161 | from every state that can be reached, whatever the interleaving, an emitter at work can finish by its own steps and those of the snapshotter whose lock it may need: nobody else has to move |
| `Progress.RestIsReachable` | internal/hub/hub.go:143-161 | from every reachable state the session can come to rest without a new event, and then every number ever issued has been notified |
| `Progress.SnapshotSaves` | cmd/server/main.go:77-85 | in any interleaving a snapshot saves every mailbox there is when it is through with them, each as it is at its turn, then the history and the counter as they are |
| `Progress.BoxFields` | internal/mailbox/mailbox.go:75-141 | in any interleaving a delivery goes to the end of its mailbox and a drain leaves exactly what was not asked for; other mailboxes are untouched |
| `Progress.ConnFields` | internal/api/watcher.go:23-71 | in any interleaving each step of a watch connection, and the removal of a mailbox, does what it should to that one and touches no other |
| `Api.RegisterAgent` | internal/api/api.go:227-283 | which requests are refused, and that these change nothing; one that is not stores the session under the given key, makes the agent's record fresh with the given capabilities, and announces a newcomer with one event and gives the session a leader |
| `Api.JoinedFields` | internal/api/api.go:227-283 | told by the fields: session key, record, leader, and the one event, joined or reconnected, or none for a live member |
| `Api.RegisterThenAuthorize` | internal/api/api.go:129-167 | after a registration that succeeds the same credentials authorise the next request |
| `Api.Authorize` | internal/api/api.go:127-165 | a request never creates a session, is refused without the right key, and otherwise refreshes the caller's presence |
| `Api.SetThenGet` | internal/hub/hub.go:378-402 | what was set is read back with its value, author and time |
| `Api.DeleteThenGet` | internal/hub/hub.go:396-417 | what was deleted is not found |
| `Api.GetHistory` | internal/api/api.go:417-431 | without a cursor or a limit the whole window is returned |
| `Watcher.Watcher.Subscribe` | internal/api/watcher.go:22-32 | a new empty channel joins the session's subscribers |
| `Watcher.Watcher.Unsubscribe` | internal/api/watcher.go:34-46 | exactly that channel leaves, and no session keeps an empty set |
| `Watcher.Watcher.Count` | internal/api/watcher.go:48-53 | the number of subscribers |
| `Watcher.Watcher.Notify` | internal/api/watcher.go:55-71 | the loop offers the event to every channel of the session once, without waiting, and to no other |
| `Watcher.OfferIsPush` | internal/api/watcher.go:63-70 | the event protocol's offer to a connection is the watcher's non-blocking send, with the same drop |
| `Watermark.ActsExactly` | cmd/agentchat-mcp-bridge/watcher.go:389-432 | exactly which events wake the agent: relevant ones that are unnumbered, or numbered above the initial mark and above every relevant one before them |
| `Watermark.ActsOnce` | cmd/agentchat-mcp-bridge/watcher.go:389-432 | no positive number requests two wake-ups |
| `Watermark.MarkGrows` | cmd/agentchat-mcp-bridge/watcher.go:429-432 | within a stream lastSeq never decreases |
| `Watermark.SerialSkipsNothing` | cmd/agentchat-mcp-bridge/watcher.go:389-394 | with numbers arriving in increasing order above the mark no relevant event is skipped |
| `Watermark.OvertakenIsSkipped` | cmd/agentchat-mcp-bridge/watcher.go:389-394 | when 6 overtakes 5, event 5 is skipped |
| `Bridge.Largest` | cmd/agentchat-mcp-bridge/watcher.go:194-199 | the largest number of a page, at least 0 |
| `Bridge.Client.InitLastSeq` | cmd/agentchat-mcp-bridge/watcher.go:157-203 | a successful fetch sets the mark to the page's largest number, a failed one leaves it |
| `Bridge.Client.HandleSseEvent` | cmd/agentchat-mcp-bridge/watcher.go:377-460 | the handler's branches decide relevance, move the mark, and request at most one wake-up with its cause; whom an event concerns is Resync.ConcernsWhom |
| `Bridge.Client.HandleStream` | cmd/agentchat-mcp-bridge/watcher.go:304-325 | over all frames of a stream, greeting and replay and unparsable ones included, the mark and the number of wake-ups requested are those of the filter |
| `Bridge.Client.RequestSignal` | cmd/agentchat-mcp-bridge/watcher.go:483-492 | any number of requests leave one token |
| `Bridge.Client.DeliverSignal` | cmd/agentchat-mcp-bridge/watcher.go:497-524 | one token is tried until an attempt succeeds or the bridge stops, with doubling capped pauses; a request made meanwhile leaves a new token |
| `Bridge.BackoffDoubles` | cmd/agentchat-mcp-bridge/watcher.go:495-524 | pauses double from the first to 30 s |
| `Bridge.Client.MaybeWakeOnConnect` | cmd/agentchat-mcp-bridge/watcher.go:462-481 | mail queued, or an unknown amount, wakes the agent on connect |
| `SignalLoop.NoRequestLost` | cmd/agentchat-mcp-bridge/watcher.go:483-524 | whenever the loop is blocked on an empty channel, every request so far has been followed by a send that started after it and succeeded, for any number of failures |
| `SignalLoop.NoSpuriousSignals` | cmd/agentchat-mcp-bridge/watcher.go:483-524 | successful sends never exceed requests |
| `Resync.ResyncedBelowCounter` | cmd/agentchat-mcp-bridge/watcher.go:157-203 | after a successful re-sync the mark is at most the server's counter, whatever the server holds, as long as no entry of the history is numbered above the counter |
| `Resync.ResyncedInRun` | cmd/agentchat-mcp-bridge/watcher.go:157-203 | no entry is, at any point of any run, with the session created anew, and after a restart if what was restored fitted |
| `Resync.ResyncedIs` | cmd/agentchat-mcp-bridge/watcher.go:157-203 | the mark after a re-sync is the number of the last entry of a history in order, or of its fiftieth if there are more |
| `Resync.LogGrowsOver` | internal/hub/hub.go:120-141 | the events of a session only grow until the session is removed |
| `Resync.WakesExactly` | cmd/agentchat-mcp-bridge/watcher.go:377-460 | under serial emission, for every run, and a stream opened at any moment with any mark and kept open across any removals of the session, dropped events included: take the subscribe or any later moment, such as a removal, and an event emitted since then but before a next removal; if it concerns the agent, it wakes it if and only if its number is above the mark as it stood at that moment |
| `Resync.LifeOf` | cmd/agentchat-mcp-bridge/watcher.go:250-325 | every event of such a stream is of that kind: the moment is the subscribe or the last removal before the event |
| `Resync.NothingSkippedAfterResync` | cmd/agentchat-mcp-bridge/watcher.go:250-325 | under serial emission, after a re-sync and a subscribe and until the session is removed, whatever happened between the two and whatever a full channel dropped: an event that concerns the agent wakes it if and only if its number is above the mark; so none is skipped if the mark is at most the counter at the subscribe, and otherwise those up to the mark are |
| `Resync.SkippedAfterRemoval` | internal/hub/hub.go:548-559 | after a removal at which the stream stayed open the events are numbered from 1 again, and those that concern the agent are skipped if and only if their number is at most the mark as it stood at the removal |
| `Resync.ConcernsWhom` | cmd/agentchat-mcp-bridge/watcher.go:396-427 | against the server's own notion of a recipient: a direct message, task or file event concerns its recipient alone, a broadcast everybody but its sender, a pad or leadership change everybody but the one it is from, any other event nobody |
| `Resync.MessageWakes` | cmd/agentchat-mcp-bridge/watcher.go:377-460 | so for every run and every stream a direct message wakes its recipient's bridge, and a broadcast every bridge but its sender's, if and only if its number is above the mark as it stood at the subscribe or the last removal; and no other bridge |
| `Resync.MarkBelowSubscribe` | cmd/agentchat-mcp-bridge/watcher.go:157-203 | the mark is at most the counter at the subscribe unless the session was removed after the re-sync, or what was restored did not fit |
| `Resync.RecreatedSessionSkips` | cmd/agentchat-mcp-bridge/watcher.go:157-203 | the smallest run in which an event is skipped: re-sync, close, open again under the same id, and the next broadcast does not wake the agent, whether the stream was opened before the close or after the reopening |
| `Sse.ServeStream` | internal/api/api.go:610-660 | the handler's writes are the greeting, the replay, then live events and pings, framed in that order |
| `Sse.WireText` | internal/api/api.go:610-658 | what is written, letter by letter |
| `Sse.GreetingLine` | internal/api/api.go:615-616 | the greeting, which takes the session id unescaped, is one line exactly if the id and the time are |
| `LiveStream.SessionFrames` | internal/api/api.go:610-660 | the frames of a connection: one greeting, the replay as history, the live events as messages, each in order |
| `LiveStream.WatchServed` | internal/api/api.go:610-660 | server and bridge together: of the text that the handler serves the bridge's line loop handles exactly the live events as messages, the replay as history, and the greeting, for any values that fit a line |
| `LiveStream.OnlyMessages` | cmd/agentchat-mcp-bridge/watcher.go:377-387 | whatever the frames, the mark and the wake-ups are those of the messages among them |
| `LiveStream.WakeFromServed` | cmd/agentchat-mcp-bridge/watcher.go:304-460 | so over a whole connection the wake-ups requested are those of the live events alone |
| `Sse.LineParser.Feed` | cmd/agentchat-cli/main.go:411-438 | one line changes the parser and completes a frame as specified |
| `Sse.ReadFrames` | cmd/agentchat-cli/main.go:470-499 | the client's loop over the text of a stream collects exactly the completed frames, and ends with an error exactly if a line fills the scanner's buffer of 64 KiB |
| `Sse.WatchStream` | cmd/agentchat-mcp-bridge/watcher.go:301-332 | the bridge's line loop over the text of a stream handles exactly the specified events, and ends with an error exactly if a line fills the scanner's buffer of 1 MiB |
| `Sse.CliRoundTrip` | cmd/agentchat-cli/main.go:405-499 | for any interleaving with pings and retry lines the client recovers exactly the frames written if and only if every line with its newline fits the scanner and no field ends in a carriage return, and ends clean if they fit; otherwise it recovers what came before the first line that does not fit and stops with an error |
| `Sse.BridgeRoundTrip` | cmd/agentchat-mcp-bridge/watcher.go:301-332 | the bridge handles exactly the frames written if and only if every line with its newline fits its scanner, no field ends in a carriage return and every frame carries data, and then ends clean; otherwise it handles what came before the first line that does not fit |
| `Sse.OverlongLosesTheRest` | cmd/agentchat-cli/main.go:470-499 | one line too long ends the stream for the client: nothing from that event on is recovered, whatever follows |
| `Sse.LargeBroadcastIsLost` | cmd/agentchat-cli/main.go:470-499 | a broadcast of 70000 characters is handled by the bridge but never recovered by the command-line client |
| `Sse.LongestData` | cmd/agentchat-cli/main.go:470-471 | the longest event data each client takes, in characters |
| `Cli.Screen.ShowEnvelope` | cmd/agentchat-cli/main.go:502-512 | shows an envelope and moves the mark unless its number has been passed |
| `Sse.CutStream` | cmd/agentchat-cli/main.go:470-499 | a connection that breaks off inside an event never shows a torn one: the client has read exactly the events before it |
| `Cli.Screen.ShowAll` | cmd/agentchat-cli/main.go:502-512 | whatever the sources, the display is the fold of the dedup rule over the numbers received |
| `Cli.ShownOnce` | cmd/agentchat-cli/main.go:502-512 | no number is shown twice, none below the mark or made up, and unnumbered envelopes are always shown |
| `Cli.HighsAreShown` | cmd/agentchat-cli/main.go:502-512 | a number above the mark and above all before it is shown |

## Left out

- The file store, tokens, keys and hashes, HTTP parsing, JSON encoding, logging, Unix-socket sends, MCP dispatch, terminal display and the persistence files: I/O and foreign calls, or easy.
- 64-bit wrap-around of sequence numbers and entry ids: numbers are unbounded.
- Timestamps and request ids of envelopes: carried by the code, never read by it.
- Several clock readings within one operation are one reading in the whole-server model; the long poll keeps them apart.
- Mailbox entry ids as the code draws them: here an id marks a delivery and grows along a queue, in the code it is drawn before the box is locked, so two deliveries at once may be queued in reverse order of their ids; no result is about the order of ids.
- Uniqueness of mailbox entry ids across a restart: the code restarts the counter and Restore does not advance it.
- An append to a box that was deleted after it was looked up is placed just before the deletion; the code loses the entry in the same way.
- Overlap of different sessions in the fine-grained protocol: `EventProtocol` follows one session, without closing it.
- Presence and leadership under interleaving: a touch between a sweep's marking and its callbacks can defeat leader safety, so whole-server operations are atomic.
- Order of deliveries and notifications under interleaving: only history is in order there; boxes and streams are in order when operations are atomic.
- A session created by GetOrCreate has no activity until its first registration and can be reaped before it; the model keeps this.
- Presence and leadership across a restart: they are not persisted, so every process begins with nobody known, and the mailbox of an agent not seen again stays as it was restored.
- A restored history longer than the window: the code saves none.
- Hub.Hub.DrainMailboxFiltered: drains that do not wait; those that do are Hub.Hub.DrainMailboxWait, where the others work on the mailbox store alone.
- Hub.Hub.NotifyWatchers: records the call of the notifier; the channels it serves are those of Watcher, joined with the hub in `Serial` rather than by a call, and a hub without a notifier is not modelled.
- Hub.Hub.CloseSession: does not model the file store, which is left out altogether.
- Bridge.Client.DeliverSignal: models one token of the signal loop, ended by success or when the attempts run out; the endless outer loop is the state machine of `SignalLoop`.
- The reconnect loops, watchdog and random jitter of the clients: timing only.
- Field names other than the server's, and multi-line data: the parsers are compared on streams the server writes.
- That every mail wakes the agent end to end: the parts are proved, the gaps between connect steps are the code's own.
