/** The watcher: bounded channels that receive every event of a session. */
module Watcher {
  import opened Envelopes
  import Events = EventProtocol

  const CAPACITY := 128

  /** A non-blocking send on a bounded channel. */
  function Pushed(q: seq<Envelope>, e: Envelope, capacity: nat): seq<Envelope> {
    if |q| < capacity then q + [e] else q
  }

  /** The event protocol offers to a connection exactly as the watcher does. */
  lemma OfferIsPush(k: Events.Conn, e: Envelope, capacity: nat)
    ensures Events.Offer(k, e, capacity).buffer == Pushed(k.buffer, e, capacity)
    ensures Events.Offer(k, e, capacity).dropped == if |k.buffer| < capacity then k.dropped else k.dropped + [e]
  {
  }

  class Channel {
    var queue: seq<Envelope>

    constructor ()
      ensures queue == []
    {
      queue := [];
    }
  }

  class Watcher {
    var subs: map<string, set<Channel>>

    /** No session keeps an empty set, and no channel serves two sessions. */
    ghost predicate Valid()
      reads this
    {
      && (forall sid :: sid in subs ==> subs[sid] != {})
      && (forall s, t :: s in subs && t in subs && s != t ==> subs[s] !! subs[t])
    }

    function Subscribers(sid: string): set<Channel>
      reads this
    {
      if sid in subs then subs[sid] else {}
    }

    constructor ()
      ensures Valid() && subs == map[]
    {
      subs := map[];
    }

    method Subscribe(sid: string) returns (ch: Channel)
      requires Valid()
      modifies this
      ensures Valid() && fresh(ch) && ch.queue == []
      ensures subs == old(subs)[sid := old(Subscribers(sid)) + {ch}]
    {
      ch := new Channel();
      if sid !in subs {
        subs := subs[sid := {}];
      }
      subs := subs[sid := subs[sid] + {ch}];
    }

    /** Removes a channel; with the last one the session's entry goes too. */
    method Unsubscribe(sid: string, ch: Channel)
      requires Valid()
      modifies this
      ensures Valid() && Subscribers(sid) == old(Subscribers(sid)) - {ch}
      ensures forall t :: t != sid ==> Subscribers(t) == old(Subscribers(t))
    {
      if sid in subs {
        var left := subs[sid] - {ch};
        subs := subs[sid := left];
        if left == {} {
          subs := subs - {sid};
        }
      }
    }

    method Count(sid: string) returns (n: nat)
      ensures n == |Subscribers(sid)|
    {
      n := if sid in subs then |subs[sid]| else 0;
    }

    /** Offers the event to every channel of the session, never waiting: a full channel misses it. */
    method Notify(sid: string, e: Envelope)
      requires Valid()
      modifies Subscribers(sid)
      ensures Valid() && forall ch :: ch in Subscribers(sid) ==> ch.queue == Pushed(old(ch.queue), e, CAPACITY)
      ensures forall ch :: ch in Subscribers(sid) ==>
                ch.queue == if |old(ch.queue)| < 128 then old(ch.queue) + [e] else old(ch.queue)
    {
      if sid !in subs {
        return;
      }
      var todo := subs[sid];
      while todo != {}
        invariant todo <= subs[sid]
        invariant forall ch :: ch in subs[sid] ==>
            ch.queue == if ch in todo then old(ch.queue) else Pushed(old(ch.queue), e, CAPACITY)
        decreases todo
      {
        var ch :| ch in todo;
        if |ch.queue| < CAPACITY {
          ch.queue := ch.queue + [e];
        }
        todo := todo - {ch};
      }
    }
  }
}
