/** Saving the server at rest and restoring it in a new process. */
module Restart {
  import opened Envelopes
  import opened Server
  import opened Hub
  import MailSpec
  import Sessions
  import Scratchpad
  import ServerSafety
  import ServerRuns

  datatype Snapshot = Snapshot(
    sessions: seq<Sessions.Session>, mailboxes: map<string, seq<MailSpec.Entry>>,
    history: map<string, seq<Envelope>>, seqNums: map<string, nat>, scratchpad: map<string, seq<PadEntry>>)

  /** The stores are read one after another, the counters after everything they number. */
  method GetSnapshot(h: Hub) returns (snap: Snapshot)
    requires h.Valid()
    ensures Sessions.Saves(snap.sessions, h.Model().sessions)
    ensures snap.mailboxes == h.mailboxes.M.boxes
    ensures snap.history == h.Model().history && snap.seqNums == h.Model().counters
    ensures Scratchpad.SavesPads(snap.scratchpad, h.Model().pads)
  {
    hide Stripped;
    var sessions := h.sessionStore.Snapshot();
    var boxes := h.mailboxes.Snapshot();
    var history := h.HistorySnapshot();
    var seqNums := h.SeqSnapshot();
    var pads := h.scratchpad.Snapshot();
    snap := Snapshot(sessions, boxes, history, seqNums, pads);
  }

  method RestoreSessions(h: Hub, list: seq<Sessions.Session>)
    requires h.Valid()
    modifies h.sessionStore
    ensures h.Valid() && fresh(h.Footprint() - old(h.Footprint()))
    ensures h.Model() == old(h.Model()).(sessions := Sessions.ById(list))
  {
    hide Stripped, Sessions.ById;
    h.sessionStore.Restore(list);
  }

  method RestoreMail(h: Hub, saved: map<string, seq<MailSpec.Entry>>)
    requires h.Valid()
    modifies h.mailboxes
    ensures h.Valid() && fresh(h.Footprint() - old(h.Footprint()))
    ensures h.Model() == old(h.Model()).(boxes := Stripped(saved)) && h.mailboxes.M.boxes == saved
  {
    hide Stripped;
    h.mailboxes.Restore(saved);
  }

  method RestorePads(h: Hub, saved: map<string, seq<PadEntry>>)
    requires h.Valid()
    modifies h.scratchpad
    ensures h.Valid() && h.Footprint() == old(h.Footprint())
    ensures h.Model() == old(h.Model()).(pads := Scratchpad.RestoredPads(saved)) && h.mailboxes.M == old(h.mailboxes.M)
  {
    hide Stripped, Scratchpad.RestoredPads;
    h.scratchpad.Restore(saved);
  }

  method RestoreHistory(h: Hub, saved: map<string, seq<Envelope>>, counters: map<string, nat>)
    requires h.Valid()
    modifies h
    ensures h.Valid() && h.Footprint() == old(h.Footprint()) && h.mailboxes.M == old(h.mailboxes.M)
    ensures h.Model() == old(h.Model()).(history := old(h.Model()).history + saved,
                                      counters := Raised(old(h.Model()).counters, counters))
  {
    hide Stripped, Raised;
    h.RestoreState(saved, counters);
  }

  method RestoreState(h: Hub, snap: Snapshot)
    requires h.Valid()
    modifies h.Footprint()
    ensures h.Valid() && fresh(h.Footprint() - old(h.Footprint()))
    ensures h.mailboxes.M.boxes == snap.mailboxes
    ensures var s := old(h.Model());
            h.Model() == Begun(s.(sessions := Sessions.ById(snap.sessions), boxes := Stripped(snap.mailboxes),
                                  history := s.history + snap.history, counters := Raised(s.counters, snap.seqNums),
                                  pads := Scratchpad.RestoredPads(snap.scratchpad)))
  {
    hide Stripped, Raised, Sessions.ById, Scratchpad.RestoredPads;
    RestoreSessions(h, snap.sessions);
    RestoreMail(h, snap.mailboxes);
    RestoreHistory(h, snap.history, snap.seqNums);
    RestorePads(h, snap.scratchpad);
    h.Begin();
  }

  /** What a snapshot, written in whatever order, restores to in an empty server. */
  function RestoredServer(snap: Snapshot, empty: State): State {
    Begun(empty.(sessions := Sessions.ById(snap.sessions), boxes := Stripped(snap.mailboxes),
                 history := empty.history + snap.history, counters := Raised(empty.counters, snap.seqNums),
                 pads := Scratchpad.RestoredPads(snap.scratchpad)))
  }

  /** `snap` holds server s, its lists in some order. */
  ghost predicate Holds(snap: Snapshot, s: State) {
    && Sessions.Saves(snap.sessions, s.sessions) && Stripped(snap.mailboxes) == s.boxes
    && snap.history == s.history && snap.seqNums == s.counters && Scratchpad.SavesPads(snap.scratchpad, s.pads)
  }

  ghost predicate Positive(counters: map<string, nat>) {
    forall k :: k in counters ==> counters[k] > 0
  }

  lemma RaisedFromNothing(counters: map<string, nat>)
    ensures Raised(map[], counters) == counters <==> Positive(counters)
    ensures forall sid :: CounterIn(Raised(map[], counters), sid) == CounterIn(counters, sid)
  {
    if Raised(map[], counters) == counters {
      assert forall k :: k in counters ==> k in Raised(map[], counters);
    }
  }

  /** A restart at rest gives back sessions, mailboxes, histories, counters and pads exactly, for any order of the
      saved lists, if and only if every record is stored under its own id or key; members, leaders and the
      notifier's record start empty. */
  lemma RestartRoundTrip(snap: Snapshot, s: State, ttl: nat, forgetAfter: int)
    requires Holds(snap, s)
    ensures var r := RestoredServer(snap, NewServer(ttl, forgetAfter));
            && r.boxes == s.boxes && r.history == s.history
            && (forall sid :: Counter(r, sid) == Counter(s, sid))
            && (r.sessions == s.sessions <==> Sessions.IdsMatch(s.sessions))
            && (r.pads == s.pads <==> Scratchpad.PadsMatch(s.pads))
            && (r.counters == s.counters <==> Positive(s.counters))
  {
    hide Stripped, Raised, Sessions.ById, Scratchpad.RestoredPads, Sessions.Saves, Scratchpad.SavesPads, Positive,
        Sessions.IdsMatch,
         Scratchpad.PadsMatch;
    Sessions.SessionsRoundTrip(snap.sessions, s.sessions);
    Scratchpad.PadsRoundTrip(snap.scratchpad, s.pads);
    RaisedFromNothing(s.counters);
    assert map[] + s.history == s.history;
    var r := RestoredServer(snap, NewServer(ttl, forgetAfter));
    assert forall sid :: Counter(r, sid) == CounterIn(r.counters, sid) && Counter(s, sid) == CounterIn(s.counters, sid);
  }

  /** Every server that a run of operations can reach survives a restart at rest. */
  lemma ReachableRestart(lim: Limits, states: seq<State>, ops: seq<Op>, i: nat, snap: Snapshot, ttl: nat,
      forgetAfter: int)
    requires Server.Run(lim, states, ops) && i <= |ops| && Holds(snap, states[i])
    ensures var r, s := RestoredServer(snap, NewServer(ttl, forgetAfter)), states[i];
            && r.sessions == s.sessions && r.boxes == s.boxes && r.history == s.history && r.pads == s.pads
            && forall sid :: Counter(r, sid) == Counter(s, sid)
  {
    hide ServerSafety.Inv, Apply, Enabled, Stripped, RestoredServer, Holds, ServerSafety.RosterOk,
        ServerSafety.LeadersOk, ServerSafety.BoxesOk;
    ServerRuns.RunInv(lim, states, ops, i);
    ServerSafety.InvParts(lim, states[i], Now(ops, i));
    RestartRoundTrip(snap, states[i], ttl, forgetAfter);
  }
}
