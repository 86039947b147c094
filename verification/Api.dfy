/** The request handlers that combine several calls on the stores. */
module Api {
  import opened Sequences
  import opened Envelopes
  import opened Server
  import opened Hub
  import Sessions
  import History
  import Effects
  import PresenceSpec
  import Events = EventProtocol

  datatype Status = Ok | BadRequest | Unauthorized

  /** What POST /sessions/{id}/register does when nothing interleaves: the session is created on first use with
      the key it is given, and a wrong key changes nothing. */
  function Joined(lim: Limits, s: State, sid: string, psk: string, aid: string, caps: seq<string>, now: nat): State {
    var found := Sessions.Opened(s.sessions, sid, psk, "", now);
    if found.Rejected? then s
    else Registered(lim, s.(sessions := Sessions.AfterOpening(s.sessions, sid, found)), sid, aid, caps, now)
  }

  /** A registration that is not refused, told by the fields: the session is stored with the given key; the agent's
      record is fresh, with the given capabilities; somebody leads if the agent was unknown; and the log has one event
      more, "agent_joined" if the agent was unknown and "agent_reconnected" if it was past the ttl, or none. */
  lemma JoinedFields(lim: Limits, s: State, sid: string, psk: string, aid: string, caps: seq<string>, now: nat)
    requires sid in s.sessions ==> s.sessions[sid].psk == psk
    ensures var s', k := Joined(lim, s, sid, psk, aid, caps, now), sid + "/" + aid;
            var was := k in s.roster.agents;
            && sid in s'.sessions && s'.sessions[sid].psk == psk && s'.sessions.Keys == s.sessions.Keys + {sid}
            && k in s'.roster.agents
            && var a := s'.roster.agents[k];
               && a.caps == caps && a.seen == now && !a.expired
               && (!was ==> a.sid == sid && a.aid == aid)
               && (was ==> a.sid == s.roster.agents[k].sid && a.aid == s.roster.agents[k].aid)
               && (!was ==> sid in s'.leaders)
    ensures var s', k := Joined(lim, s, sid, psk, aid, caps, now), sid + "/" + aid;
            var was := k in s.roster.agents;
            && (!was ==> Effects.OneMore(s, s', sid, Events.Ambient, "agent_joined", AgentIs(aid, caps, true)))
            && (was && s.roster.agents[k].sid == sid && now - s.roster.agents[k].seen >= s.roster.ttl ==>
                  Effects.OneMore(s, s', sid, Events.Ambient, "agent_reconnected", AgentIs(aid, caps, true)))
            && (was && now - s.roster.agents[k].seen < s.roster.ttl ==> s'.log == s.log && s'.counters == s.counters)
  {
    hide Registered, Effects.OneMore;
    var found := Sessions.Opened(s.sessions, sid, psk, "", now);
    var s1 := s.(sessions := Sessions.AfterOpening(s.sessions, sid, found));
    var s' := Registered(lim, s1, sid, aid, caps, now);
    Effects.RegisteredRecord(lim, s1, sid, aid, caps, now);
    Effects.RegisteredEvents(lim, s1, sid, aid, caps, now);
    Effects.RegisteredRest(lim, s1, sid, aid, caps, now);
    var k := sid + "/" + aid;
    if k !in s.roster.agents {
      Effects.SameEvents(s1, s', s, s', sid, Events.Ambient, "agent_joined", AgentIs(aid, caps, true));
    } else if s.roster.agents[k].sid == sid && now - s.roster.agents[k].seen >= s.roster.ttl {
      Effects.SameEvents(s1, s', s, s', sid, Events.Ambient, "agent_reconnected", AgentIs(aid, caps, true));
    }
  }

  lemma RejectedChangesNothing(m: map<string, Sessions.Session>, sid: string, psk: string, now: nat)
    ensures var found := Sessions.Opened(m, sid, psk, "", now);
            && (found.Rejected? <==> sid in m && m[sid].psk != psk)
            && (found.Rejected? ==> Sessions.AfterOpening(m, sid, found) == m)
  {
  }

  method OpenSession(h: Hub, sid: string, psk: string, now: nat) returns (found: Sessions.Found)
    requires h.Valid()
    modifies h.sessionStore.Repr
    ensures h.Valid() && fresh(h.Footprint() - old(h.Footprint()))
    ensures found == Sessions.Opened(old(h.Model()).sessions, sid, psk, "", now)
    ensures h.Model() == old(h.Model()).(sessions := Sessions.AfterOpening(old(h.Model()).sessions, sid, found))
  {
    hide Stripped, Sessions.Opened, Sessions.AfterOpening;
    found := h.sessionStore.GetOrCreate(sid, psk, "", now);
  }

  method RegisterAgent(h: Hub, sid: string, psk: string, aid: string, caps: seq<string>,
      now: nat) returns (status: Status)
    requires h.Valid()
    modifies h.Footprint()
    ensures h.Valid() && fresh(h.Footprint() - old(h.Footprint()))
    ensures status == if sid == "" then BadRequest
                      else if psk == "" || aid == "" ||
                              (sid in old(h.Model()).sessions && old(h.Model()).sessions[sid].psk != psk)
                      then Unauthorized
                      else Ok
    ensures h.Model() == if status.Ok? then Joined(h.Lim(), old(h.Model()), sid, psk, aid, caps, now)
                         else old(h.Model())
    ensures status.Ok? ==>
              var s, s', k := old(h.Model()), h.Model(), Key(sid, aid);
              && sid in s'.sessions && s'.sessions[sid].psk == psk
              && k in s'.roster.agents && s'.roster.agents[k].caps == caps
              && s'.roster.agents[k].seen == now && !s'.roster.agents[k].expired
              && (k !in s.roster.agents ==>
                    && s'.roster.agents[k].sid == sid && sid in s'.leaders
                    && Effects.OneMore(s, s', sid, Events.Ambient, "agent_joined", AgentIs(aid, caps, true)))
              && (k in s.roster.agents && now - s.roster.agents[k].seen < s.roster.ttl ==> s'.log == s.log)
  {
    hide Stripped, Joined, Effects.OneMore;
    if !(sid in h.Model().sessions && h.Model().sessions[sid].psk != psk) {
      JoinedFields(h.Lim(), h.Model(), sid, psk, aid, caps, now);
    }
    if sid == "" {
      return BadRequest;
    }
    if psk == "" || aid == "" {
      return Unauthorized;
    }
    var ok := Join(h, sid, psk, aid, caps, now);
    status := if ok then Ok else Unauthorized;
  }

  method Join(h: Hub, sid: string, psk: string, aid: string, caps: seq<string>, now: nat) returns (ok: bool)
    requires h.Valid()
    modifies h.Footprint()
    ensures h.Valid() && fresh(h.Footprint() - old(h.Footprint()))
    ensures ok == !(sid in old(h.Model()).sessions && old(h.Model()).sessions[sid].psk != psk)
    ensures h.Model() == Joined(h.Lim(), old(h.Model()), sid, psk, aid, caps, now)
    ensures !ok ==> h.Model() == old(h.Model())
  {
    hide Stripped, Registered, Sessions.Opened, Sessions.AfterOpening, Hub.Valid;
    RejectedChangesNothing(h.Model().sessions, sid, psk, now);
    var found := OpenSession(h, sid, psk, now);
    ok := !found.Rejected?;
    if ok {
      var _ := h.Register(sid, aid, caps, now);
    }
  }

  method KnowsKey(h: Hub, sid: string, psk: string) returns (known: bool)
    requires h.Valid()
    ensures known == (sid in h.Model().sessions && h.Model().sessions[sid].psk == psk)
  {
    hide Stripped;
    var found := h.sessionStore.ValidatePsk(sid, psk);
    known := found.Some?;
  }

  /** Every other request: it never creates a session, and refreshes the caller's presence before it goes on. */
  method Authorize(h: Hub, sid: string, psk: string, aid: string, now: nat) returns (status: Status)
    requires h.Valid()
    modifies h.presence.Repr, h.sessionStore.Repr
    ensures h.Valid() && fresh(h.Footprint() - old(h.Footprint()))
    ensures status == if sid == "" then BadRequest
                      else if psk == "" || aid == "" ||
                              sid !in old(h.Model()).sessions || old(h.Model()).sessions[sid].psk != psk
                      then Unauthorized
                      else Ok
    ensures h.Model() == if status.Ok? then Refreshed(old(h.Model()), sid, aid, now) else old(h.Model())
    ensures h.Model().sessions.Keys == old(h.Model()).sessions.Keys
  {
    hide Stripped, PresenceSpec.Touched, Hub.Valid;
    if sid == "" {
      return BadRequest;
    }
    if psk == "" || aid == "" {
      return Unauthorized;
    }
    var known := KnowsKey(h, sid, psk);
    if !known {
      return Unauthorized;
    }
    h.RefreshPresence(sid, aid, now);
    status := Ok;
  }

  /** What was created with a key is open to that key: a registration that succeeds makes the agent's next request
      succeed. */
  method RegisterThenAuthorize(h: Hub, sid: string, psk: string, aid: string, caps: seq<string>, now: nat, later: nat)
    returns (first: Status, second: Status)
    requires h.Valid()
    modifies h.Footprint()
    ensures h.Valid() && fresh(h.Footprint() - old(h.Footprint()))
    ensures first.Ok? ==> second.Ok?
  {
    hide Stripped, Joined, Hub.Valid, Effects.OneMore, Refreshed;
    first := RegisterAgent(h, sid, psk, aid, caps, now);
    second := Authorize(h, sid, psk, aid, later);
  }

  /** What was set is read back, by whoever asks, with its author and time. */
  method SetThenGet(h: Hub, sid: string, aid: string, key: string, value: string, now: nat)
    returns (error: Option<Refusal>, entry: Option<PadEntry>)
    requires h.Valid()
    modifies h.Footprint()
    ensures error.None? <==> key != ""
    ensures error.None? ==>
              && entry.Some? && entry.value.key == key && entry.value.value == value
              && entry.value.author == aid && entry.value.at == now
  {
    hide Stripped, PadChanged;
    error := h.ScratchpadSet(sid, aid, key, value, now);
    entry := h.scratchpad.Get(sid, key);
  }

  /** What was deleted is not found. */
  method DeleteThenGet(h: Hub, sid: string, aid: string, key: string, now: nat)
    returns (error: Option<Refusal>, entry: Option<PadEntry>)
    requires h.Valid()
    modifies h.Footprint()
    ensures entry.None?
  {
    hide Stripped, PadRemoved;
    error := h.ScratchpadDelete(sid, aid, key, now);
    entry := h.scratchpad.Get(sid, key);
  }

  /** The history request: without a cursor or a limit it returns the whole window. */
  method GetHistory(h: Hub, sid: string, after: int, limit: int) returns (out: seq<Envelope>)
    requires h.Valid()
    ensures out == if after > 0 || limit > 0
                   then History.FirstAbove(HistoryOf(h.Model(), sid), after, limit, h.maxHistory)
                   else HistoryOf(h.Model(), sid)
    ensures limit > 0 && sid in h.history ==>
              var n := |History.PlacesAbove(h.history[sid], after)|;
              |out| == if n < limit then n else limit
  {
    hide Stripped, History.FirstAbove;
    if after > 0 || limit > 0 {
      out := h.GetHistoryAfter(sid, after, limit);
      return;
    }
    out := h.GetHistory(sid);
  }
}
