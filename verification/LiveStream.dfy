/** From the handler's writes to the agent's wake-ups: what the bridge makes of the text that the server serves. */
module LiveStream {
  import opened Sequences
  import opened Sse
  import opened Watermark
  import Bridge

  /** The JSON of the events that came live, in order. */
  function LiveJson(ticks: seq<Tick>): seq<string> {
    if ticks == [] then []
    else LiveJson(ticks[..|ticks| - 1]) + if ticks[|ticks| - 1].Live? then [ticks[|ticks| - 1].json] else []
  }

  /** The data of the frames with this event name, in order. */
  function DataOf(frames: seq<Frame>, name: string): seq<string> {
    if frames == [] then []
    else
      var f := frames[|frames| - 1];
      DataOf(frames[..|frames| - 1], name) + if f.event == name then [f.data] else []
  }

  lemma {:induction false} DataOfMore(a: seq<Frame>, b: seq<Frame>, name: string)
    ensures DataOf(a + b, name) == DataOf(a, name) + DataOf(b, name)
  {
    if b == [] {
      assert a + b == a;
    } else {
      var n := |b| - 1;
      DataOfMore(a, b[..n], name);
      var all, last := a + b, if b[n].event == name then [b[n].data] else [];
      assert all[..|all| - 1] == a + b[..n] && all[|all| - 1] == b[n];
      assert DataOf(all, name) == DataOf(a + b[..n], name) + last;
      assert DataOf(a, name) + DataOf(b[..n], name) + last == DataOf(a, name) + (DataOf(b[..n], name) + last);
    }
  }

  /** The values can be written on one line that the bridge reads back: JSON text always can, if it is not too long. */
  ghost predicate Writable(jsons: seq<string>) {
    forall i :: 0 <= i < |jsons| ==>
      |jsons[i]| > 0 && |jsons[i]| + 6 < 1048576 && '\n' !in jsons[i] && jsons[i][|jsons[i]| - 1] != '\r'
  }

  lemma EventFits(name: string, json: string)
    requires name in {"connected", "history", "message"} && Writable([json])
    ensures var f := Frame(name, json);
            OneLine(f) && Clean(f) && NonEmpty(f) && Fits(Event(f), BRIDGE_LIMIT)
  {
    assert [json][0] == json;
    assert '\n' !in "connected" && '\n' !in "history" && '\n' !in "message";
    assert "connected"[8] == 'd' && "history"[6] == 'y' && "message"[6] == 'e';
  }

  /** A chunk that the server writes for one of these values. */
  ghost predicate Readable(c: Chunk) {
    && Fits(c, BRIDGE_LIMIT)
    && (c.Event? ==> OneLine(c.frame) && Clean(c.frame) && NonEmpty(c.frame))
  }

  lemma PlainChunks()
    ensures Readable(Retry) && Readable(Ping)
  {
    hide OneLine, Clean, NonEmpty;
  }

  lemma FramesStep(cs: seq<Chunk>, i: nat)
    requires i < |cs|
    ensures FramesOf(cs[..i + 1]) == FramesOf(cs[..i]) + if cs[i].Event? then [cs[i].frame] else []
  {
    assert cs[..i + 1][..i] == cs[..i];
  }

  lemma OneFrame(name: string, json: string, other: string)
    ensures DataOf([Frame(name, json)], other) == if name == other then [json] else []
  {
    assert [Frame(name, json)][..0] == [];
  }

  lemma GreetingFrames(cs: seq<Chunk>, hello: string)
    requires |cs| >= 2 && cs[0] == Retry && cs[1] == Event(Frame("connected", hello))
    ensures var fs := FramesOf(cs[..2]);
            DataOf(fs, "message") == [] && DataOf(fs, "history") == [] && DataOf(fs, "connected") == [hello]
  {
    hide DataOf, FramesOf;
    FramesStep(cs, 0);
    FramesStep(cs, 1);
    assert cs[..0] == [];
    NoFrames();
    assert FramesOf(cs[..2]) == [Frame("connected", hello)];
    OneFrame("connected", hello, "message");
    OneFrame("connected", hello, "history");
    OneFrame("connected", hello, "connected");
  }

  lemma NoFrames()
    ensures FramesOf([]) == []
  {
  }

  /** The frames of a session: one greeting, the replay under its own name, and the live events as messages. */
  lemma {:induction false} ReplayFrames(hello: string, history: seq<string>, n: nat)
    requires n <= |history|
    ensures var fs := FramesOf(Opening(hello, history)[..2 + n]);
            DataOf(fs, "message") == [] && DataOf(fs, "history") == history[..n] && DataOf(fs, "connected") == [hello]
  {
    hide DataOf, Opening, FramesOf;
    var cs := Opening(hello, history);
    if n == 0 {
      GreetingFrames(cs, hello);
    } else {
      ReplayFrames(hello, history, n - 1);
      var i := n - 1;
      assert cs[2 + i] == Event(Frame("history", history[i]));
      FramesStep(cs, 2 + i);
      var before, f := FramesOf(cs[..2 + i]), Frame("history", history[i]);
      DataOfMore(before, [f], "message");
      DataOfMore(before, [f], "history");
      DataOfMore(before, [f], "connected");
      OneFrame("history", history[i], "message");
      OneFrame("history", history[i], "history");
      OneFrame("history", history[i], "connected");
      assert history[..n] == history[..i] + [history[i]];
    }
  }

  lemma {:induction false} SessionFrames(hello: string, history: seq<string>, ticks: seq<Tick>, n: nat)
    requires n <= |ticks|
    ensures var fs := FramesOf(Session(hello, history, ticks)[..2 + |history| + n]);
            && DataOf(fs, "message") == LiveJson(ticks[..n]) && DataOf(fs, "history") == history
            && DataOf(fs, "connected") == [hello]
  {
    hide DataOf, Opening, Session, FramesOf;
    var cs, h := Session(hello, history, ticks), 2 + |history|;
    if n == 0 {
      ReplayFrames(hello, history, |history|);
      assert cs[..h] == Opening(hello, history) == Opening(hello, history)[..h];
      assert history[..|history|] == history && ticks[..0] == [];
    } else {
      var i := n - 1;
      SessionFrames(hello, history, ticks, i);
      FramesStep(cs, h + i);
      assert cs[h + i] == ChunkOf(ticks[i]);
      assert ticks[..n] == ticks[..i] + [ticks[i]] && ticks[..n][..i] == ticks[..i];
      var before := FramesOf(cs[..h + i]);
      if ticks[i].Live? {
        var f := Frame("message", ticks[i].json);
        DataOfMore(before, [f], "message");
        DataOfMore(before, [f], "history");
        DataOfMore(before, [f], "connected");
        OneFrame("message", ticks[i].json, "message");
        OneFrame("message", ticks[i].json, "history");
        OneFrame("message", ticks[i].json, "connected");
      } else {
        assert before + [] == before;
      }
    }
  }

  lemma {:induction false} LiveMember(ticks: seq<Tick>, i: nat)
    requires i < |ticks| && ticks[i].Live?
    ensures ticks[i].json in LiveJson(ticks)
  {
    if i < |ticks| - 1 {
      LiveMember(ticks[..|ticks| - 1], i);
    }
  }

  lemma SessionReadable(hello: string, history: seq<string>, ticks: seq<Tick>)
    requires Writable([hello]) && Writable(history) && Writable(LiveJson(ticks))
    ensures forall i :: 0 <= i < |Session(hello, history, ticks)| ==> Readable(Session(hello, history, ticks)[i])
  {
    hide Readable, Opening, Session, LiveJson;
    var cs, h := Session(hello, history, ticks), 2 + |history|;
    forall i | 0 <= i < |cs|
      ensures Readable(cs[i])
    {
      PlainChunks();
      if i < h {
        assert cs[i] == cs[..h][i] == Opening(hello, history)[i];
        if i == 1 {
          EventReadable("connected", hello);
        } else if i > 1 {
          assert Opening(hello, history)[2 + (i - 2)] == Event(Frame("history", history[i - 2]));
          OneWritable(history, i - 2);
          EventReadable("history", history[i - 2]);
        }
      } else {
        assert cs[h + (i - h)] == ChunkOf(ticks[i - h]);
        if ticks[i - h].Live? {
          LiveMember(ticks, i - h);
          var j :| 0 <= j < |LiveJson(ticks)| && LiveJson(ticks)[j] == ticks[i - h].json;
          OneWritable(LiveJson(ticks), j);
          EventReadable("message", ticks[i - h].json);
        }
      }
    }
  }

  lemma OneWritable(jsons: seq<string>, i: nat)
    requires Writable(jsons) && i < |jsons|
    ensures Writable([jsons[i]])
  {
  }

  lemma EventReadable(name: string, json: string)
    requires name in {"connected", "history", "message"} && Writable([json])
    ensures Readable(Event(Frame(name, json)))
  {
    hide OneLine, Clean, NonEmpty, Fits;
    EventFits(name, json);
  }

  lemma {:induction false} FramesNonEmpty(cs: seq<Chunk>)
    requires forall i :: 0 <= i < |cs| ==> Readable(cs[i])
    ensures forall f :: f in FramesOf(cs) ==> NonEmpty(f)
    ensures AllOneLine(cs) && AllFit(cs, BRIDGE_LIMIT) && AllClean(cs)
  {
    hide OneLine, Clean, NonEmpty, Fits;
    if cs != [] {
      FramesNonEmpty(cs[..|cs| - 1]);
      var f := cs[|cs| - 1];
      assert AllClean(cs);
    }
  }

  /** What the bridge handles of the text that the server serves: the live events, in order and no others, as
      messages, the replay as history, and the greeting. */
  method WatchServed(sid: string, time: string, history: seq<string>, ticks: seq<Tick>)
    returns (handled: seq<Frame>, error: bool)
    requires Writable([Greeting(sid, time)]) && Writable(history) && Writable(LiveJson(ticks))
    ensures DataOf(handled, "message") == LiveJson(ticks) && DataOf(handled, "history") == history
    ensures DataOf(handled, "connected") == [Greeting(sid, time)] && !error
  {
    hide Writable, Readable, DataOf, LiveJson, Session, Opening, Greeting, FramesOf, Stream, Tokens, ScanFails,
        BridgeAll, AllOneLine, AllFit, AllClean, NonEmpty, FramesRead, WithData;
    var hello := Greeting(sid, time);
    ghost var cs := Session(hello, history, ticks);
    SessionReadable(hello, history, ticks);
    FramesNonEmpty(cs);
    BridgeRoundTrip(cs);
    SessionFrames(hello, history, ticks, |ticks|);
    assert cs[..2 + |history| + |ticks|] == cs && ticks[..|ticks|] == ticks;
    var text := ServeStream(sid, time, history, ticks);
    var eventType, eventData;
    handled, eventType, eventData, error := WatchStream(text);
  }

  // ---- What the agent is woken for -------------------------------------------------------------------

  /** Frames as the handler gets them, with their JSON parsed or not. */
  function Arrivals(frames: seq<Frame>, parse: string -> Option<Bridge.Event>): (r: seq<Bridge.Arrival>)
    ensures |r| == |frames|
    ensures forall i :: 0 <= i < |r| ==> r[i] == Bridge.Arrival(frames[i].event, parse(frames[i].data))
  {
    seq(|frames|, i requires 0 <= i < |frames| => Bridge.Arrival(frames[i].event, parse(frames[i].data)))
  }

  /** The live events as the mark's filter sees them; one that does not parse is passed over. */
  function LiveItems(agent: string, jsons: seq<string>, parse: string -> Option<Bridge.Event>): (r: seq<Item>)
    ensures |r| == |jsons|
    ensures forall i :: 0 <= i < |r| ==>
              r[i] == if parse(jsons[i]).Some? then Bridge.ItemOf(agent, parse(jsons[i]).value) else Item(false, 0)
  {
    seq(|jsons|, i requires 0 <= i < |jsons| =>
      if parse(jsons[i]).Some? then Bridge.ItemOf(agent, parse(jsons[i]).value) else Item(false, 0))
  }

  lemma MarkStep(mark: int, xs: seq<Item>, x: Item)
    ensures MarkAfter(mark, xs + [x]) == Moved(MarkAfter(mark, xs), x)
    ensures Actions(mark, xs + [x]) == Actions(mark, xs) + if Acts(MarkAfter(mark, xs), x) then 1 else 0
  {
    hide Acts, Moved;
    assert (xs + [x])[..|xs|] == xs;
  }

  /** Only the messages among the frames count. */
  lemma {:induction false} OnlyMessages(agent: string, frames: seq<Frame>, parse: string -> Option<Bridge.Event>,
      mark: int)
    ensures var all := Bridge.Items(agent, Arrivals(frames, parse));
            var live := LiveItems(agent, DataOf(frames, "message"), parse);
            MarkAfter(mark, all) == MarkAfter(mark, live) && Actions(mark, all) == Actions(mark, live)
  {
    hide MarkAfter, Actions, Bridge.Concerns;
    if frames == [] {
      assert Bridge.Items(agent, Arrivals(frames, parse)) == [] == LiveItems(agent, DataOf(frames, "message"), parse);
    } else {
      var n := |frames| - 1;
      var f, before := frames[n], frames[..n];
      OnlyMessages(agent, before, parse, mark);
      var xs := Bridge.Items(agent, Arrivals(before, parse));
      var x := Bridge.ItemOfArrival(agent, Bridge.Arrival(f.event, parse(f.data)));
      assert Bridge.Items(agent, Arrivals(frames, parse)) == xs + [x];
      MarkStep(mark, xs, x);
      var ys := LiveItems(agent, DataOf(before, "message"), parse);
      if f.event == "message" {
        var y := if parse(f.data).Some? then Bridge.ItemOf(agent, parse(f.data).value) else Item(false, 0);
        assert LiveItems(agent, DataOf(frames, "message"), parse) == ys + [y];
        MarkStep(mark, ys, y);
      } else {
        assert DataOf(before, "message") + [] == DataOf(before, "message");
      }
    }
  }

  /** So over a whole connection the wake-ups requested, and the mark, are those of the live events alone: nothing is
      requested for the greeting, the replay, or a keepalive, and no live event is passed over for them. */
  method WakeFromServed(client: Bridge.Client, parse: string -> Option<Bridge.Event>, sid: string, time: string,
      history: seq<string>, ticks: seq<Tick>)
    requires Writable([Greeting(sid, time)]) && Writable(history) && Writable(LiveJson(ticks))
    requires client.lastSeq >= 0
    modifies client
    ensures var live := LiveItems(client.agent, LiveJson(ticks), parse);
            && client.requests == old(client.requests) + Actions(old(client.lastSeq), live)
            && client.lastSeq == MarkAfter(old(client.lastSeq), live)
  {
    hide Writable, LiveJson, Greeting, LiveItems, Arrivals, Bridge.Items, MarkAfter, Actions, DataOf;
    var handled, error := WatchServed(sid, time, history, ticks);
    OnlyMessages(client.agent, handled, parse, client.lastSeq);
    client.HandleStream(Arrivals(handled, parse));
  }
}
