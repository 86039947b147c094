/** Server-sent events as the server writes them and as the two clients read them back. */
module Sse {
  import opened Sequences

  datatype Frame = Frame(event: string, data: string)

  /** What the server writes: the reconnect advice, a keepalive comment, or an event. */
  datatype Chunk = Retry | Ping | Event(frame: Frame)

  /** The lines a chunk is written as. */
  function WireLines(c: Chunk): seq<string> {
    match c
    case Retry => ["retry: 3000", ""]
    case Ping => [": ping", ""]
    case Event(f) => ["event: " + f.event, "data: " + f.data, ""]
  }

  function Wire(c: Chunk): string {
    match c
    case Retry => "retry: 3000" + "\n" + "" + "\n"
    case Ping => ": ping" + "\n" + "" + "\n"
    case Event(f) => ("event: " + f.event) + "\n" + ("data: " + f.data) + "\n" + "" + "\n"
  }

  function Stream(cs: seq<Chunk>): string {
    if cs == [] then "" else Stream(cs[..|cs| - 1]) + Wire(cs[|cs| - 1])
  }

  function Written(cs: seq<Chunk>): seq<string> {
    if cs == [] then [] else Written(cs[..|cs| - 1]) + WireLines(cs[|cs| - 1])
  }

  function FramesOf(cs: seq<Chunk>): seq<Frame> {
    if cs == [] then []
    else FramesOf(cs[..|cs| - 1]) + (if cs[|cs| - 1].Event? then [cs[|cs| - 1].frame] else [])
  }

  /** The fields take one line each. JSON text and the event names do; the greeting does if the session id does. */
  predicate OneLine(f: Frame) {
    '\n' !in f.event && '\n' !in f.data
  }

  ghost predicate AllOneLine(cs: seq<Chunk>) {
    forall i :: 0 <= i < |cs| && cs[i].Event? ==> OneLine(cs[i].frame)
  }

  // ---- Lines -------------------------------------------------------------------------------------

  function TrimCr(line: string): string {
    if line != "" && line[|line| - 1] == '\r' then line[..|line| - 1] else line
  }

  /** The complete lines of a text and what follows the last newline. */
  datatype Text = Text(lines: seq<string>, rest: string)

  function Split(s: string): Text {
    if s == "" then Text([], "")
    else
      var t, c := Split(s[..|s| - 1]), s[|s| - 1];
      if c == '\n' then Text(t.lines + [t.rest], "") else Text(t.lines, t.rest + [c])
  }

  lemma SplitStep(a: string, c: char)
    requires c != '\n'
    ensures Split(a + [c]) == Text(Split(a).lines, Split(a).rest + [c])
  {
    assert (a + [c])[..|a|] == a;
  }

  lemma {:induction false} SplitPlain(a: string, l: string)
    requires '\n' !in l
    ensures Split(a + l) == Text(Split(a).lines, Split(a).rest + l)
  {
    hide Split;
    if l == "" {
      assert a + l == a && Split(a).rest + l == Split(a).rest;
    } else {
      var n := |l| - 1;
      assert l[..n] + [l[n]] == l;
      SplitPlain(a, l[..n]);
      SplitStep(a + l[..n], l[n]);
      assert a + l == a + l[..n] + [l[n]];
      assert Split(a).rest + l[..n] + [l[n]] == Split(a).rest + l;
    }
  }

  /** A line written after complete lines is one more line. */
  lemma SplitLine(a: string, l: string)
    requires '\n' !in l && Split(a).rest == ""
    ensures Split(a + l + "\n") == Text(Split(a).lines + [l], "")
  {
    SplitPlain(a, l);
    assert (a + l + "\n")[..|a + l|] == a + l;
    assert "" + l == l;
  }

  lemma SplitChunk(a: string, c: Chunk)
    requires Split(a).rest == "" && (c.Event? ==> OneLine(c.frame))
    ensures Split(a + Wire(c)) == Text(Split(a).lines + WireLines(c), "")
  {
    hide Split;
    match c {
      case Retry => SplitTwo(a, "retry: 3000");
      case Ping => SplitTwo(a, ": ping");
      case Event(f) => SplitEvent(a, f);
    }
  }

  lemma SplitEvent(a: string, f: Frame)
    requires Split(a).rest == "" && OneLine(f)
    ensures Split(a + Wire(Event(f))) == Text(Split(a).lines + WireLines(Event(f)), "")
  {
    hide Split;
    var l1, l2 := "event: " + f.event, "data: " + f.data;
    assert '\n' !in l1 && '\n' !in l2;
    SplitLine(a, l1);
    SplitTwo(a + l1 + "\n", l2);
    assert a + (l1 + "\n" + l2 + "\n" + "" + "\n") == a + l1 + "\n" + (l2 + "\n" + "" + "\n");
    assert Split(a).lines + [l1] + [l2, ""] == Split(a).lines + [l1, l2, ""];
  }

  lemma SplitTwo(a: string, l: string)
    requires Split(a).rest == "" && '\n' !in l
    ensures Split(a + (l + "\n" + "" + "\n")) == Text(Split(a).lines + [l, ""], "")
  {
    hide Split;
    SplitLine(a, l);
    SplitLine(a + l + "\n", "");
    assert a + (l + "\n" + "" + "\n") == a + l + "\n" + "" + "\n";
    assert Split(a).lines + [l] + [""] == Split(a).lines + [l, ""];
  }

  lemma {:induction false} SplitStream(cs: seq<Chunk>)
    requires AllOneLine(cs)
    ensures Split(Stream(cs)) == Text(Written(cs), "")
  {
    hide Split, Wire, WireLines, OneLine;
    if cs == [] {
      NothingRead();
    } else {
      SplitStream(cs[..|cs| - 1]);
      SplitChunk(Stream(cs[..|cs| - 1]), cs[|cs| - 1]);
    }
  }

  // ---- The line scanner ----------------------------------------------------------------------------

  /** The longest line the scanner of each client takes, counting its newline. */
  const CLI_LIMIT := 65536
  const BRIDGE_LIMIT := 1048576

  /** Told by the length: how long the data of an event can be for each client. */
  lemma LongestData(name: string, json: string)
    requires |name| < 100
    ensures var c := Event(Frame(name, json));
            (Fits(c, CLI_LIMIT) <==> |json| + 7 <= 64 * 1024) && (Fits(c, BRIDGE_LIMIT) <==> |json| + 7 <= 1024 * 1024)
  {
    var ls := WireLines(Event(Frame(name, json)));
    assert |ls[0]| == 7 + |name| && |ls[1]| == 6 + |json| && |ls[2]| == 0;
  }

  /** What is written, letter by letter. */
  lemma WireText(f: Frame)
    ensures Wire(Retry) == "retry: 3000\n\n" && Wire(Ping) == ": ping\n\n"
    ensures Wire(Event(f)) == "event: " + f.event + "\ndata: " + f.data + "\n\n"
  {
    assert Wire(Event(f)) == "event: " + f.event + ("\n" + "data: ") + f.data + ("\n" + "" + "\n");
  }

  /** The lines up to the first one that does not fit the scanner's buffer together with its newline. */
  function Fitting(lines: seq<string>, limit: nat): (r: seq<string>)
    ensures |r| <= |lines| && r == lines[..|r|]
    ensures forall i :: 0 <= i < |r| ==> |lines[i]| < limit
    ensures |r| < |lines| ==> |lines[|r|]| >= limit
  {
    if lines == [] then []
    else
      var r := Fitting(lines[..|lines| - 1], limit);
      if |r| == |lines| - 1 && |lines[|r|]| < limit then lines else r
  }

  /** The scanner stops with an error at the first line that fills its buffer. */
  predicate ScanFails(s: string, limit: nat) {
    |Fitting(Split(s).lines, limit)| < |Split(s).lines| || |Split(s).rest| >= limit
  }

  function Trims(lines: seq<string>): (r: seq<string>)
    ensures |r| == |lines| && forall i :: 0 <= i < |lines| ==> r[i] == TrimCr(lines[i])
  {
    seq(|lines|, i requires 0 <= i < |lines| => TrimCr(lines[i]))
  }

  /** What the scanner hands out: lines without their ends, and at the end of the stream an unfinished one. */
  function Tokens(s: string, limit: nat): seq<string> {
    var t := Split(s);
    Trims(Fitting(t.lines, limit)) + if ScanFails(s, limit) || t.rest == "" then [] else [TrimCr(t.rest)]
  }

  lemma FittingConcat(a: seq<string>, b: seq<string>, limit: nat)
    requires forall i :: 0 <= i < |a| ==> |a[i]| < limit
    ensures Fitting(a + b, limit) == a + Fitting(b, limit)
  {
    hide Fitting;
    var q := Fitting(b, limit);
    assert forall i :: 0 <= i < |b| ==> (a + b)[|a| + i] == b[i];
    FittingOnly(a + b, limit, |a| + |q|);
    assert (a + b)[..|a| + |q|] == a + b[..|q|];
  }

  lemma FittingOnly(lines: seq<string>, limit: nat, k: nat)
    requires k <= |lines| && forall i :: 0 <= i < k ==> |lines[i]| < limit
    requires k < |lines| ==> |lines[k]| >= limit
    ensures Fitting(lines, limit) == lines[..k]
  {
    hide Fitting;
  }

  lemma TrimsConcat(a: seq<string>, b: seq<string>)
    ensures Trims(a + b) == Trims(a) + Trims(b)
  {
    hide TrimCr;
  }

  /** Every line of the chunk fits the buffer together with its newline. */
  ghost predicate Fits(c: Chunk, limit: nat) {
    forall i :: 0 <= i < |WireLines(c)| ==> |WireLines(c)[i]| < limit
  }

  ghost predicate AllFit(cs: seq<Chunk>, limit: nat) {
    forall i :: 0 <= i < |cs| ==> Fits(cs[i], limit)
  }

  /** How many chunks are written before the first one that does not fit. */
  ghost function Reach(cs: seq<Chunk>, limit: nat): (k: nat)
    ensures k <= |cs| && AllFit(cs[..k], limit)
    ensures k < |cs| ==> !Fits(cs[k], limit)
  {
    if cs == [] then 0
    else
      var n := |cs| - 1;
      var k := Reach(cs[..n], limit);
      assert forall i :: 0 <= i < k ==> cs[..n][..k][i] == cs[i];
      assert k < n ==> cs[..n][k] == cs[k];
      if k == n && Fits(cs[n], limit) then n + 1 else k
  }

  lemma ReachOnly(cs: seq<Chunk>, limit: nat, k: nat)
    requires k <= |cs| && AllFit(cs[..k], limit)
    requires k < |cs| ==> !Fits(cs[k], limit)
    ensures Reach(cs, limit) == k
  {
    hide Reach, Fits;
    var r := Reach(cs, limit);
    assert forall i :: 0 <= i < k ==> cs[..k][i] == cs[i];
    assert forall i :: 0 <= i < r ==> cs[..r][i] == cs[i];
  }

  lemma {:induction false} WrittenFits(cs: seq<Chunk>, limit: nat)
    requires AllFit(cs, limit)
    ensures forall i :: 0 <= i < |Written(cs)| ==> |Written(cs)[i]| < limit
  {
    hide WireLines;
    if cs != [] {
      var n := |cs| - 1;
      assert AllFit(cs[..n], limit);
      WrittenFits(cs[..n], limit);
      assert Fits(cs[n], limit);
    }
  }

  lemma {:induction false} WrittenConcat(a: seq<Chunk>, b: seq<Chunk>)
    ensures Written(a + b) == Written(a) + Written(b)
  {
    hide WireLines;
    if b == [] {
      assert a + b == a;
    } else {
      var n := |b| - 1;
      WrittenConcat(a, b[..n]);
      assert (a + b)[..|a + b| - 1] == a + b[..n];
      assert Written(a) + Written(b[..n]) + WireLines(b[n]) == Written(a) + (Written(b[..n]) + WireLines(b[n]));
    }
  }

  /** What is left of a chunk that does not fit: at most its event line. */
  lemma OverlongChunk(c: Chunk, more: seq<string>, limit: nat)
    requires !Fits(c, limit) && limit >= 12
    ensures c.Event?
    ensures Fitting(WireLines(c) + more, limit) == if |WireLines(c)[0]| < limit then [WireLines(c)[0]] else []
  {
    var lines := WireLines(c) + more;
    assert lines[0] == WireLines(c)[0] && lines[1] == WireLines(c)[1];
    if |lines[0]| < limit {
      assert |lines[1]| >= limit;
      assert lines[..1] == [lines[0]];
    }
  }

  lemma OverlongTail(cs: seq<Chunk>, limit: nat)
    requires cs != [] && !Fits(cs[0], limit) && limit >= 12
    ensures cs[0].Event? && |WireLines(cs[0])| == 3
    ensures Fitting(Written(cs), limit) == if |WireLines(cs[0])[0]| < limit then [WireLines(cs[0])[0]] else []
    ensures |Fitting(Written(cs), limit)| < |Written(cs)|
  {
    hide Written, WireLines, Fitting, Fits;
    assert cs == [cs[0]] + cs[1..];
    WrittenConcat([cs[0]], cs[1..]);
    WrittenOne(cs[0]);
    OverlongChunk(cs[0], Written(cs[1..]), limit);
    ThreeLines(cs[0]);
  }

  /** The scanner hands out the lines of the chunks that fit, and perhaps the event line of the first that does not. */
  lemma StreamTokens(cs: seq<Chunk>, limit: nat)
    requires AllOneLine(cs) && limit >= 12
    ensures var k := Reach(cs, limit);
            && (ScanFails(Stream(cs), limit) <==> k < |cs|)
            && (k < |cs| ==> cs[k].Event? && |WireLines(cs[k])| == 3)
            && Tokens(Stream(cs), limit) ==
               Trims(Written(cs[..k])) +
                   if k < |cs| && |WireLines(cs[k])[0]| < limit then Trims([WireLines(cs[k])[0]]) else []
  {
    hide Split, Written, WireLines, Fitting, Trims, OneLine, Fits, Tokens, ScanFails, Stream;
    var k := Reach(cs, limit);
    SplitStream(cs);
    WrittenFits(cs[..k], limit);
    assert cs == cs[..k] + cs[k..];
    WrittenConcat(cs[..k], cs[k..]);
    TokensInTwo(Stream(cs), Written(cs[..k]), Written(cs[k..]), limit);
    NoTrims();
    if k < |cs| {
      OverlongTail(cs[k..], limit);
    } else {
      NothingFits(limit);
    }
  }

  lemma TokensInTwo(s: string, a: seq<string>, b: seq<string>, limit: nat)
    requires Split(s) == Text(a + b, "") && limit > 0
    requires forall i :: 0 <= i < |a| ==> |a[i]| < limit
    ensures ScanFails(s, limit) <==> |Fitting(b, limit)| < |b|
    ensures Tokens(s, limit) == Trims(a) + Trims(Fitting(b, limit))
  {
    hide Split, Fitting, Trims;
    FittingConcat(a, b, limit);
    TrimsConcat(a, Fitting(b, limit));
  }

  lemma WrittenOne(c: Chunk)
    ensures Written([c]) == WireLines(c)
  {
    hide WireLines;
    assert [c][..0] == [];
    assert [] + WireLines(c) == WireLines(c);
  }

  lemma ThreeLines(c: Chunk)
    ensures c.Event? ==> |WireLines(c)| == 3
  {
  }

  lemma NoTrims()
    ensures Trims([]) == []
  {
  }

  lemma NothingFits(limit: nat)
    ensures Fitting([], limit) == [] && Written([]) == []
  {
  }

  lemma TrimField(name: string, value: string)
    requires name != "" && name[|name| - 1] == ' '
    ensures TrimCr(name + value) == name + TrimCr(value)
  {
    if value != "" {
      assert (name + value)[..|name + value| - 1] == name + value[..|value| - 1];
    }
  }

  /** The tokens one chunk is read as. */
  function LinesOf(c: Chunk): seq<string> {
    match c
    case Retry => ["retry: 3000", ""]
    case Ping => [": ping", ""]
    case Event(f) => ["event: " + TrimCr(f.event), "data: " + TrimCr(f.data), ""]
  }

  lemma TrimsOf(c: Chunk)
    ensures Trims(WireLines(c)) == LinesOf(c)
  {
    if c.Event? {
      TrimField("event: ", c.frame.event);
      TrimField("data: ", c.frame.data);
    }
  }

  // ---- The parser of the command-line client -------------------------------------------------------

  datatype Parser = Parser(event: string, data: seq<string>, hasData: bool)

  const IDLE := Parser("", [], false)

  predicate HasPrefix(s: string, prefix: string) {
    prefix <= s
  }

  function TrimPrefix(s: string, prefix: string): string {
    if prefix <= s then s[|prefix|..] else s
  }

  function Join(parts: seq<string>): string {
    if parts == [] then "" else if |parts| == 1 then parts[0]
    else Join(parts[..|parts| - 1]) + "\n" + parts[|parts| - 1]
  }

  function Fed(p: Parser, raw: string): Parser {
    var line := TrimCr(raw);
    if line == "" then (if p.hasData then IDLE else p)
    else if HasPrefix(line, ":") then p
    else if HasPrefix(line, "event:") then p.(event := TrimPrefix(TrimPrefix(line, "event:"), " "))
    else if HasPrefix(line, "data:")
    then p.(hasData := true, data := p.data + [TrimPrefix(TrimPrefix(line, "data:"), " ")])
    else p
  }

  function Completed(p: Parser, raw: string): seq<Frame> {
    if TrimCr(raw) == "" && p.hasData then [Frame(p.event, Join(p.data))] else []
  }

  /** A parser after some lines, and the frames it has completed. */
  datatype Parsed = Parsed(p: Parser, frames: seq<Frame>)

  function FedAll(lines: seq<string>): Parsed {
    if lines == [] then Parsed(IDLE, [])
    else
      var r, l := FedAll(lines[..|lines| - 1]), lines[|lines| - 1];
      Parsed(Fed(r.p, l), r.frames + Completed(r.p, l))
  }

  class LineParser {
    var event: string
    var data: seq<string>
    var hasData: bool

    function State(): Parser
      reads this
    {
      Parser(event, data, hasData)
    }

    constructor ()
      ensures State() == IDLE
    {
      event, data, hasData := "", [], false;
    }

    /** Consumes one raw line; a blank one completes a frame. */
    method Feed(raw: string) returns (frame: Option<Frame>)
      modifies this
      ensures State() == Fed(old(State()), raw)
      ensures Completed(old(State()), raw) == if frame.Some? then [frame.value] else []
    {
      hide Join;
      var line := TrimCr(raw);
      frame := None;
      if line == "" {
        if !hasData {
          return;
        }
        frame := Some(Frame(event, Join(data)));
        event, data, hasData := "", [], false;
      } else if HasPrefix(line, ":") {
        return;
      } else if HasPrefix(line, "event:") {
        event := TrimPrefix(TrimPrefix(line, "event:"), " ");
      } else if HasPrefix(line, "data:") {
        hasData := true;
        data := data + [TrimPrefix(TrimPrefix(line, "data:"), " ")];
      }
    }
  }

  /** The client's loop over the text of a stream: it ends with the stream, or with an error of the scanner. */
  method ReadFrames(text: string) returns (frames: seq<Frame>, p: LineParser, error: bool)
    ensures fresh(p) && Parsed(p.State(), frames) == FedAll(Tokens(text, CLI_LIMIT))
    ensures error == ScanFails(text, CLI_LIMIT)
  {
    hide Fed, Completed, Tokens, ScanFails;
    var lines := Tokens(text, CLI_LIMIT);
    p := new LineParser();
    frames := [];
    for i := 0 to |lines|
      invariant Parsed(p.State(), frames) == FedAll(lines[..i]) && fresh(p)
    {
      assert lines[..i + 1][..i] == lines[..i];
      var frame := p.Feed(lines[i]);
      if frame.Some? {
        frames := frames + [frame.value];
      }
    }
    assert lines[..|lines|] == lines;
    error := ScanFails(text, CLI_LIMIT);
  }

  lemma FedStep(lines: seq<string>, l: string)
    ensures FedAll(lines + [l]) == Parsed(Fed(FedAll(lines).p, l), FedAll(lines).frames + Completed(FedAll(lines).p, l))
  {
    hide Fed, Completed;
    assert (lines + [l])[..|lines|] == lines;
  }

  /** A carriage return at the end of a field is lost, once to the scanner and once to the parser. */
  function Trimmed(f: Frame): Frame {
    Frame(TrimCr(TrimCr(f.event)), TrimCr(TrimCr(f.data)))
  }

  function FramesRead(cs: seq<Chunk>): seq<Frame> {
    if cs == [] then []
    else FramesRead(cs[..|cs| - 1]) + (if cs[|cs| - 1].Event? then [Trimmed(cs[|cs| - 1].frame)] else [])
  }

  /** No field ends in a carriage return. */
  predicate Clean(f: Frame) {
    && (f.event != "" ==> f.event[|f.event| - 1] != '\r')
    && (f.data != "" ==> f.data[|f.data| - 1] != '\r')
  }

  ghost predicate AllClean(cs: seq<Chunk>) {
    forall i :: 0 <= i < |cs| && cs[i].Event? ==> Clean(cs[i].frame)
  }

  lemma TrimmedClean(f: Frame)
    ensures Trimmed(f) == f <==> Clean(f)
  {
  }

  lemma {:induction false} ReadAsWritten(cs: seq<Chunk>)
    ensures |FramesRead(cs)| == |FramesOf(cs)|
    ensures FramesRead(cs) == FramesOf(cs) <==> AllClean(cs)
  {
    hide Clean, Trimmed, AllClean;
    if cs == [] {
      LastClean(cs);
    } else {
      var n := |cs| - 1;
      ReadAsWritten(cs[..n]);
      LastClean(cs);
      if cs[n].Event? {
        TrimmedClean(cs[n].frame);
        LastDiffers(FramesRead(cs[..n]), FramesOf(cs[..n]), Trimmed(cs[n].frame), cs[n].frame);
      }
    }
  }

  lemma LastClean(cs: seq<Chunk>)
    ensures cs == [] ==> AllClean(cs)
    ensures cs != [] ==>
              var n := |cs| - 1; AllClean(cs) <==> AllClean(cs[..n]) && (cs[n].Event? ==> Clean(cs[n].frame))
  {
    hide Clean;
  }

  lemma LastDiffers(a: seq<Frame>, b: seq<Frame>, x: Frame, y: Frame)
    requires |a| == |b|
    ensures a + [x] == b + [y] <==> a == b && x == y
  {
    if a + [x] == b + [y] {
      assert (a + [x])[..|a|] == a && (b + [y])[..|b|] == b;
      assert (a + [x])[|a|] == x && (b + [y])[|b|] == y;
    }
  }

  lemma FedEvent(p: Parser, value: string)
    ensures Fed(p, "event: " + value) == p.(event := TrimCr(value)) && Completed(p, "event: " + value) == []
  {
    TrimField("event: ", value);
    var v := TrimCr(value);
    var l := "event: " + v;
    assert l[..6] == "event:" && l[6..] == " " + v;
    assert (" " + v)[..1] == " " && (" " + v)[1..] == v;
    assert l[0] == 'e';
  }

  lemma FedData(p: Parser, value: string)
    ensures Fed(p, "data: " + value) == p.(hasData := true, data := p.data + [TrimCr(value)])
    ensures Completed(p, "data: " + value) == []
  {
    TrimField("data: ", value);
    var v := TrimCr(value);
    var l := "data: " + v;
    assert l[..5] == "data:" && l[5..] == " " + v;
    assert (" " + v)[..1] == " " && (" " + v)[1..] == v;
    assert l[0] == 'd';
  }

  lemma FedOther(p: Parser)
    requires p == IDLE
    ensures Fed(p, "retry: 3000") == p && Completed(p, "retry: 3000") == []
    ensures Fed(p, ": ping") == p && Completed(p, ": ping") == []
    ensures Fed(p, "") == p && Completed(p, "") == []
  {
    assert "retry: 3000"[0] == 'r' && ": ping"[..1] == ":";
  }

  /** One chunk takes an idle parser back to idle, completing its frame if it is an event. */
  lemma FedChunk(lines: seq<string>, c: Chunk)
    requires FedAll(lines).p == IDLE
    ensures FedAll(lines + LinesOf(c)) ==
            Parsed(IDLE, FedAll(lines).frames + (if c.Event? then [Trimmed(c.frame)] else []))
  {
    hide FedAll, Fed, Completed, Join, TrimCr;
    match c {
      case Retry => FedTwo(lines, "retry: 3000");
      case Ping => FedTwo(lines, ": ping");
      case Event(f) =>
        var l1, l2 := "event: " + TrimCr(f.event), "data: " + TrimCr(f.data);
        FedStep(lines, l1);
        FedStep(lines + [l1], l2);
        FedStep(lines + [l1] + [l2], "");
        FedEvent(IDLE, TrimCr(f.event));
        FedData(Parser(Trimmed(f).event, [], false), TrimCr(f.data));
        FedEnd(Trimmed(f));
        assert lines + LinesOf(c) == lines + [l1] + [l2] + [""];
        assert [] + [Trimmed(f).data] == [Trimmed(f).data];
        assert FedAll(lines).frames + [] + [] + [Trimmed(f)] == FedAll(lines).frames + [Trimmed(f)];
    }
  }

  lemma FedTwo(lines: seq<string>, l: string)
    requires FedAll(lines).p == IDLE && (l == "retry: 3000" || l == ": ping")
    ensures FedAll(lines + [l, ""]) == Parsed(IDLE, FedAll(lines).frames + [])
  {
    hide FedAll, Fed, Completed;
    FedOther(IDLE);
    FedStep(lines, l);
    FedStep(lines + [l], "");
    assert lines + [l, ""] == lines + [l] + [""];
    assert FedAll(lines).frames + [] + [] == FedAll(lines).frames + [];
  }

  lemma FedEnd(f: Frame)
    ensures Fed(Parser(f.event, [f.data], true), "") == IDLE && Completed(Parser(f.event, [f.data], true), "") == [f]
  {
  }

  lemma {:induction false} CliReadsAll(cs: seq<Chunk>)
    ensures FedAll(Trims(Written(cs))) == Parsed(IDLE, FramesRead(cs))
  {
    hide FedAll, WireLines, LinesOf, Trimmed, Trims;
    if cs == [] {
      NothingRead();
      NoTrims();
    } else {
      var n := |cs| - 1;
      CliReadsAll(cs[..n]);
      TrimsConcat(Written(cs[..n]), WireLines(cs[n]));
      TrimsOf(cs[n]);
      FedChunk(Trims(Written(cs[..n])), cs[n]);
    }
  }

  /** The client reads exactly the events written before the first line that its scanner does not take. */
  lemma CliReads(cs: seq<Chunk>, limit: nat)
    requires AllOneLine(cs) && limit >= 12
    ensures var r, k := FedAll(Tokens(Stream(cs), limit)), Reach(cs, limit);
            && r.frames == FramesRead(cs[..k])
            && (k == |cs| ==> r.p == IDLE)
            && r.p.data == [] && !r.p.hasData
  {
    hide FedAll, FramesRead, Tokens, Trims, WireLines, Written, Stream, ScanFails, Fed, Completed, Fits;
    var k := Reach(cs, limit);
    StreamTokens(cs, limit);
    CliReadsAll(cs[..k]);
    if k < |cs| { ThreeLines(cs[k]); }
    var start := Trims(Written(cs[..k]));
    if k < |cs| && |WireLines(cs[k])[0]| < limit {
      EventToken(cs[k]);
      FedStep(start, "event: " + TrimCr(cs[k].frame.event));
      FedEvent(IDLE, TrimCr(cs[k].frame.event));
    } else {
      assert start + [] == start;
    }
  }

  lemma EventToken(c: Chunk)
    requires c.Event?
    ensures Trims([WireLines(c)[0]]) == ["event: " + TrimCr(c.frame.event)]
  {
    TrimField("event: ", c.frame.event);
  }

  /** Fewer chunks, fewer frames; strictly fewer if an event is missing. */
  lemma {:induction false} FewerFrames(cs: seq<Chunk>, k: nat)
    requires k <= |cs|
    ensures |FramesOf(cs[..k])| <= |FramesOf(cs)|
    ensures k < |cs| && cs[k].Event? ==> |FramesOf(cs[..k])| < |FramesOf(cs)|
  {
    if k == |cs| {
      assert cs[..k] == cs;
    } else {
      var n := |cs| - 1;
      FewerFrames(cs[..n], k);
      assert cs[..n][..k] == cs[..k];
      assert k < n ==> cs[..n][k] == cs[k];
    }
  }

  lemma ReachAll(cs: seq<Chunk>, limit: nat)
    ensures AllFit(cs, limit) <==> Reach(cs, limit) == |cs|
  {
    hide Fits;
    assert cs[..|cs|] == cs;
  }

  /** However events are interleaved with keepalives and reconnect advice, the command-line client recovers exactly
      the events the server wrote if and only if every line fits its scanner and no field ends in a carriage return,
      which JSON text never does; it is then left in a clean state. Otherwise it recovers what came before the first
      line that does not fit, and stops with an error. */
  lemma CliRoundTrip(cs: seq<Chunk>)
    requires AllOneLine(cs)
    ensures var text := Stream(cs);
            var r := FedAll(Tokens(text, CLI_LIMIT));
            && (r.frames == FramesOf(cs) <==> AllFit(cs, CLI_LIMIT) && AllClean(cs))
            && (ScanFails(text, CLI_LIMIT) <==> !AllFit(cs, CLI_LIMIT))
            && (AllFit(cs, CLI_LIMIT) ==> r.p == IDLE)
            && r.frames == FramesRead(cs[..Reach(cs, CLI_LIMIT)])
  {
    hide FedAll, AllClean, AllFit, Tokens, ScanFails, FramesRead, FramesOf, Stream, WireLines;
    var k := Reach(cs, CLI_LIMIT);
    CliReads(cs, CLI_LIMIT);
    StreamTokens(cs, CLI_LIMIT);
    ReachAll(cs, CLI_LIMIT);
    ReadAsWritten(cs);
    ReadAsWritten(cs[..k]);
    FewerFrames(cs, k);
    assert k == |cs| ==> cs[..k] == cs;
  }

  lemma NothingRead()
    ensures Split("") == Text([], "") && FedAll([]) == Parsed(IDLE, []) && BridgeAll([]) == Watched("", "", [])
  {
  }

  // ---- The line loop of the bridge -----------------------------------------------------------------

  /** The pending event type and data, and the events handled so far. */
  datatype Watched = Watched(event: string, data: string, handled: seq<Frame>)

  function BridgeLine(w: Watched, raw: string): Watched {
    var line := TrimCr(raw);
    if HasPrefix(line, "event: ") then w.(event := TrimPrefix(line, "event: "))
    else if HasPrefix(line, "data: ") then w.(data := TrimPrefix(line, "data: "))
    else if line == "" && w.data != "" then Watched("", "", w.handled + [Frame(w.event, w.data)])
    else w
  }

  function BridgeAll(lines: seq<string>): Watched {
    if lines == [] then Watched("", "", []) else BridgeLine(BridgeAll(lines[..|lines| - 1]), lines[|lines| - 1])
  }

  /** The loop of watchStream; `handled` are the calls to the event handler. */
  method WatchStream(text: string) returns (handled: seq<Frame>, eventType: string, eventData: string, error: bool)
    ensures Watched(eventType, eventData, handled) == BridgeAll(Tokens(text, BRIDGE_LIMIT))
    ensures error == ScanFails(text, BRIDGE_LIMIT)
  {
    hide Tokens, ScanFails;
    var lines := Tokens(text, BRIDGE_LIMIT);
    handled, eventType, eventData := [], "", "";
    for i := 0 to |lines|
      invariant Watched(eventType, eventData, handled) == BridgeAll(lines[..i])
    {
      assert lines[..i + 1][..i] == lines[..i];
      var line := TrimCr(lines[i]);
      if HasPrefix(line, "event: ") {
        eventType := TrimPrefix(line, "event: ");
        continue;
      }
      if HasPrefix(line, "data: ") {
        eventData := TrimPrefix(line, "data: ");
        continue;
      }
      if line == "" && eventData != "" {
        handled := handled + [Frame(eventType, eventData)];
        eventType, eventData := "", "";
      }
    }
    assert lines[..|lines|] == lines;
    error := ScanFails(text, BRIDGE_LIMIT);
  }

  lemma BridgeStep(lines: seq<string>, l: string)
    ensures BridgeAll(lines + [l]) == BridgeLine(BridgeAll(lines), l)
  {
    hide BridgeLine;
    assert (lines + [l])[..|lines|] == lines;
  }

  lemma BridgeEvent(w: Watched, value: string)
    ensures BridgeLine(w, "event: " + value) == w.(event := TrimCr(value))
  {
    TrimField("event: ", value);
    var l := "event: " + TrimCr(value);
    assert l[..7] == "event: " && l[7..] == TrimCr(value);
  }

  lemma BridgeData(w: Watched, value: string)
    ensures BridgeLine(w, "data: " + value) == w.(data := TrimCr(value))
  {
    TrimField("data: ", value);
    var l := "data: " + TrimCr(value);
    assert l[..6] == "data: " && l[6..] == TrimCr(value);
    assert l[0] == 'd';
  }

  lemma BridgeOther(w: Watched)
    requires w.data == ""
    ensures BridgeLine(w, "retry: 3000") == w && BridgeLine(w, ": ping") == w && BridgeLine(w, "") == w
  {
    assert "retry: 3000"[0] == 'r' && ": ping"[0] == ':';
  }

  lemma BridgeEnd(w: Watched)
    requires w.data != ""
    ensures BridgeLine(w, "") == Watched("", "", w.handled + [Frame(w.event, w.data)])
  {
  }

  predicate NonEmpty(f: Frame) {
    f.data != ""
  }

  lemma BridgeChunk(lines: seq<string>, c: Chunk)
    requires BridgeAll(lines).data == ""
    ensures var w, w' := BridgeAll(lines), BridgeAll(lines + LinesOf(c));
            if c.Event? && NonEmpty(Trimmed(c.frame)) then w' == Watched("", "", w.handled + [Trimmed(c.frame)])
            else w' == w.(event := if c.Event? then Trimmed(c.frame).event else w.event)
  {
    hide BridgeAll, BridgeLine, TrimCr;
    var w := BridgeAll(lines);
    match c {
      case Retry => BridgeTwo(lines, "retry: 3000");
      case Ping => BridgeTwo(lines, ": ping");
      case Event(f) =>
        var l1, l2 := "event: " + TrimCr(f.event), "data: " + TrimCr(f.data);
        BridgeStep(lines, l1);
        BridgeStep(lines + [l1], l2);
        BridgeStep(lines + [l1] + [l2], "");
        BridgeEvent(w, TrimCr(f.event));
        BridgeData(w.(event := Trimmed(f).event), TrimCr(f.data));
        assert lines + LinesOf(c) == lines + [l1] + [l2] + [""];
        if Trimmed(f).data == "" {
          BridgeOther(w.(event := Trimmed(f).event));
        } else {
          BridgeEnd(w.(event := Trimmed(f).event, data := Trimmed(f).data));
        }
    }
  }

  lemma BridgeTwo(lines: seq<string>, l: string)
    requires BridgeAll(lines).data == "" && (l == "retry: 3000" || l == ": ping")
    ensures BridgeAll(lines + [l, ""]) == BridgeAll(lines)
  {
    hide BridgeAll, BridgeLine;
    BridgeOther(BridgeAll(lines));
    BridgeStep(lines, l);
    BridgeStep(lines + [l], "");
    assert lines + [l, ""] == lines + [l] + [""];
  }

  function WithData(q: seq<Frame>): seq<Frame> {
    Filter(q, (f: Frame) => NonEmpty(f))
  }

  lemma {:induction false} BridgeReadsAll(cs: seq<Chunk>)
    ensures var w := BridgeAll(Trims(Written(cs)));
            && w.handled == WithData(FramesRead(cs)) && w.data == ""
            && ((forall f :: f in FramesRead(cs) ==> NonEmpty(f)) ==> w.event == "")
  {
    hide BridgeAll, WireLines, LinesOf, Filter, NonEmpty, Trimmed, Trims;
    FilterNone<Frame>([], (f: Frame) => NonEmpty(f));
    if cs == [] {
      NothingRead();
      NoTrims();
    } else {
      var n := |cs| - 1;
      BridgeReadsAll(cs[..n]);
      TrimsConcat(Written(cs[..n]), WireLines(cs[n]));
      TrimsOf(cs[n]);
      BridgeChunk(Trims(Written(cs[..n])), cs[n]);
      var more := if cs[n].Event? then [Trimmed(cs[n].frame)] else [];
      FilterConcat(FramesRead(cs[..n]), more, (f: Frame) => NonEmpty(f));
      FilterOne(more);
      assert forall f :: f in FramesRead(cs[..n]) ==> f in FramesRead(cs);
    }
  }

  /** The bridge handles exactly the events with data written before the first line that its scanner does not take. */
  lemma BridgeReads(cs: seq<Chunk>, limit: nat)
    requires AllOneLine(cs) && limit >= 12
    ensures var w, k := BridgeAll(Tokens(Stream(cs), limit)), Reach(cs, limit);
            && w.handled == WithData(FramesRead(cs[..k])) && w.data == ""
            && (k == |cs| && (forall f :: f in FramesRead(cs) ==> NonEmpty(f)) ==> w.event == "")
  {
    hide BridgeAll, FramesRead, Tokens, Trims, WireLines, Written, Stream, ScanFails, BridgeLine, Fits, WithData,
        NonEmpty;
    var k := Reach(cs, limit);
    StreamTokens(cs, limit);
    BridgeReadsAll(cs[..k]);
    if k < |cs| { ThreeLines(cs[k]); }
    var start := Trims(Written(cs[..k]));
    assert k == |cs| ==> cs[..k] == cs;
    if k < |cs| && |WireLines(cs[k])[0]| < limit {
      EventToken(cs[k]);
      BridgeStep(start, "event: " + TrimCr(cs[k].frame.event));
      BridgeEvent(BridgeAll(start), TrimCr(cs[k].frame.event));
    } else {
      assert start + [] == start;
    }
  }

  /** Filtering keeps the length only if it drops nothing. */
  lemma {:induction false} ShorterFilter(q: seq<Frame>)
    ensures |WithData(q)| <= |q|
    ensures |WithData(q)| == |q| <==> forall f :: f in q ==> NonEmpty(f)
    ensures (forall f :: f in q ==> NonEmpty(f)) ==> WithData(q) == q
  {
    hide NonEmpty;
    if q != [] {
      ShorterFilter(q[..|q| - 1]);
      assert q == q[..|q| - 1] + [q[|q| - 1]];
    }
  }

  /** The bridge never keeps data over, and handles exactly the events the server wrote if and only if every line
      fits its scanner, no field ends in a carriage return, and every event carries data; it is then left in a clean
      state. */
  lemma BridgeRoundTrip(cs: seq<Chunk>)
    requires AllOneLine(cs)
    ensures var text := Stream(cs);
            var w := BridgeAll(Tokens(text, BRIDGE_LIMIT));
            && w.data == ""
            && (ScanFails(text, BRIDGE_LIMIT) <==> !AllFit(cs, BRIDGE_LIMIT))
            && (w.handled == FramesOf(cs) <==>
                AllFit(cs, BRIDGE_LIMIT) && AllClean(cs) && forall f :: f in FramesOf(cs) ==> NonEmpty(f))
            && (w.handled == FramesOf(cs) ==> w.event == "")
            && w.handled == WithData(FramesRead(cs[..Reach(cs, BRIDGE_LIMIT)]))
  {
    hide BridgeAll, AllClean, AllFit, Tokens, ScanFails, FramesRead, FramesOf, Stream, WireLines, WithData, NonEmpty;
    var k := Reach(cs, BRIDGE_LIMIT);
    BridgeReads(cs, BRIDGE_LIMIT);
    StreamTokens(cs, BRIDGE_LIMIT);
    ReachAll(cs, BRIDGE_LIMIT);
    ReadAsWritten(cs);
    ReadAsWritten(cs[..k]);
    FewerFrames(cs, k);
    ShorterFilter(FramesRead(cs[..k]));
    assert k == |cs| ==> cs[..k] == cs;
  }

  // ---- Lines that do not fit -----------------------------------------------------------------------

  /** One line too long ends the stream for a client: nothing from that event on is recovered, whatever follows. */
  lemma OverlongLosesTheRest(before: seq<Chunk>, f: Frame, after: seq<Chunk>)
    requires AllOneLine(before + [Event(f)] + after) && AllFit(before, CLI_LIMIT) && !Fits(Event(f), CLI_LIMIT)
    ensures FedAll(Tokens(Stream(before + [Event(f)] + after), CLI_LIMIT)).frames == FramesRead(before)
    ensures ScanFails(Stream(before + [Event(f)] + after), CLI_LIMIT)
  {
    hide FedAll, Tokens, ScanFails, Stream, FramesRead, Fits;
    var cs := before + [Event(f)] + after;
    CliReads(cs, CLI_LIMIT);
    StreamTokens(cs, CLI_LIMIT);
    assert cs[|before|] == Event(f) && cs[..|before|] == before;
    ReachOnly(cs, CLI_LIMIT, |before|);
  }

  /** A broadcast of 70000 characters reaches the bridge, but never the command-line client. */
  lemma LargeBroadcastIsLost()
    ensures var f := Frame("message", seq(70000, i => 'x'));
            && FedAll(Tokens(Stream([Event(f)]), CLI_LIMIT)).frames == []
            && BridgeAll(Tokens(Stream([Event(f)]), BRIDGE_LIMIT)).handled == [f]
  {
    hide FedAll, Tokens, ScanFails, Stream, BridgeAll, FramesOf, FramesRead, Reach;
    var f := Frame("message", seq(70000, i => 'x'));
    var cs := [Event(f)];
    assert [] + cs + [] == cs && |WireLines(Event(f))[1]| == 70006;
    NothingSent(f);
    OverlongLosesTheRest([], f, []);
    BridgeRoundTrip(cs);
    LargeFits(f);
  }

  lemma NothingSent(f: Frame)
    ensures FramesRead([]) == [] && FramesOf([Event(f)]) == [f]
  {
    assert [Event(f)][..0] == [];
  }

  lemma LargeFits(f: Frame)
    requires f == Frame("message", seq(70000, i => 'x'))
    ensures OneLine(f) && Clean(f) && NonEmpty(f) && Fits(Event(f), BRIDGE_LIMIT)
  {
  }

  lemma FilterOne(q: seq<Frame>)
    requires |q| <= 1
    ensures Filter(q, (f: Frame) => NonEmpty(f)) == if |q| == 1 && NonEmpty(q[0]) then q else []
  {
  }

  // ---- Streams that break off ------------------------------------------------------------------------

  /** Lines that neither complete a frame nor look blank. */
  predicate Solid(l: string) {
    l != "" && l[0] != '\r'
  }

  lemma SolidToken(l: string)
    requires Solid(l)
    ensures TrimCr(TrimCr(l)) != "" && Solid(TrimCr(l))
  {
  }

  /** A piece of one line and what follows it is a piece of the line, or goes on behind its newline. */
  lemma CutLine(l: string, more: string, w: string)
    requires w <= l + "\n" + more
    ensures |w| <= |l| ==> w <= l
    ensures |w| > |l| ==> w == l + "\n" + w[|l| + 1..] && w[|l| + 1..] <= more
  {
    assert w == (l + "\n" + more)[..|w|];
  }

  lemma CutTwo(l1: string, w: string) returns (n: nat, r: string)
    requires w <= l1 + "\n" + "" + "\n" && |w| < |l1| + 2
    ensures (n == 0 && r <= l1) || (n == 1 && r == "")
    ensures w == Glue([l1, ""][..n]) + r
  {
    hide Glue;
    assert l1 + "\n" + "" + "\n" == l1 + "\n" + "\n";
    CutLine(l1, "\n", w);
    GlueFew([l1, ""]);
    n := if |w| <= |l1| then 0 else 1;
    r := if |w| <= |l1| then w else "";
  }

  lemma CutThree(l1: string, l2: string, w: string) returns (n: nat, r: string)
    requires w <= l1 + "\n" + l2 + "\n" + "" + "\n" && |w| < |l1| + |l2| + 3
    ensures (n == 0 && r <= l1) || (n == 1 && r <= l2) || (n == 2 && r == "")
    ensures w == Glue([l1, l2, ""][..n]) + r
  {
    hide Glue;
    var more := l2 + "\n" + "\n";
    assert l1 + "\n" + l2 + "\n" + "" + "\n" == l1 + "\n" + more;
    CutLine(l1, more, w);
    GlueFew([l1, l2, ""]);
    if |w| <= |l1| {
      n, r := 0, w;
    } else {
      var v := w[|l1| + 1..];
      CutLine(l2, "\n", v);
      n := if |v| <= |l2| then 1 else 2;
      r := if |v| <= |l2| then v else "";
    }
  }

  /** A piece of a chunk, cut anywhere before its end, is some of its lines and the start of the next one. */
  lemma CutChunk(c: Chunk, w: string) returns (n: nat, r: string)
    requires w <= Wire(c) && w != Wire(c)
    ensures n < |WireLines(c)| && r <= WireLines(c)[n]
    ensures w == Glue(WireLines(c)[..n]) + r
    ensures n + 1 < |WireLines(c)| || r == ""
  {
    hide Glue;
    match c {
      case Retry => n, r := CutTwo("retry: 3000", w);
      case Ping => n, r := CutTwo(": ping", w);
      case Event(f) => n, r := CutThree("event: " + f.event, "data: " + f.data, w);
    }
  }

  /** Only the last line of a chunk looks blank, and pieces of the others do not. */
  lemma SolidLines(c: Chunk, n: nat, r: string)
    requires (c.Event? ==> OneLine(c.frame)) && n < |WireLines(c)| && r <= WireLines(c)[n]
    ensures forall i :: 0 <= i < n ==> '\n' !in WireLines(c)[i] && Solid(WireLines(c)[i])
    ensures '\n' !in r && (r != "" ==> Solid(r))
  {
    var ls := WireLines(c);
    assert forall i :: 0 <= i < |ls| - 1 ==> '\n' !in ls[i] && Solid(ls[i]);
    assert '\n' !in ls[n] && r == ls[n][..|r|];
    assert r != "" ==> r[0] == ls[n][0];
  }

  function Glue(lines: seq<string>): string {
    if lines == [] then "" else Glue(lines[..|lines| - 1]) + lines[|lines| - 1] + "\n"
  }

  lemma GlueFew(ls: seq<string>)
    requires |ls| >= 2
    ensures Glue(ls[..0]) == "" && Glue(ls[..1]) == ls[0] + "\n" && Glue(ls[..2]) == ls[0] + "\n" + ls[1] + "\n"
  {
    assert ls[..1][..0] == [] && ls[..2][..1] == ls[..1];
  }

  lemma {:induction false} SplitGlue(a: string, ls: seq<string>)
    requires Split(a).rest == "" && forall i :: 0 <= i < |ls| ==> '\n' !in ls[i]
    ensures Split(a + Glue(ls)) == Text(Split(a).lines + ls, "")
  {
    hide Split;
    if ls == [] {
      assert a + Glue(ls) == a && Split(a).lines + ls == Split(a).lines;
    } else {
      var n := |ls| - 1;
      SplitGlue(a, ls[..n]);
      SplitLine(a + Glue(ls[..n]), ls[n]);
      assert a + Glue(ls) == a + Glue(ls[..n]) + ls[n] + "\n";
      assert Split(a).lines + ls[..n] + [ls[n]] == Split(a).lines + ls;
    }
  }

  lemma {:induction false} FedQuiet(lines: seq<string>, extra: seq<string>)
    requires forall i :: 0 <= i < |extra| ==> TrimCr(extra[i]) != ""
    ensures FedAll(lines + extra).frames == FedAll(lines).frames
  {
    hide FedAll, Fed;
    if extra == [] {
      assert lines + extra == lines;
    } else {
      var n := |extra| - 1;
      FedQuiet(lines, extra[..n]);
      FedStep(lines + extra[..n], extra[n]);
      assert lines + extra == lines + extra[..n] + [extra[n]];
    }
  }

  /** A connection that breaks off inside a chunk never shows the client a torn frame: it has read exactly the events
      of the chunks before, which all fit its scanner. */
  lemma CutStream(cs: seq<Chunk>, c: Chunk, w: string)
    requires AllOneLine(cs + [c]) && AllFit(cs + [c], CLI_LIMIT) && w <= Wire(c) && w != Wire(c)
    ensures FedAll(Tokens(Stream(cs) + w, CLI_LIMIT)).frames == FramesRead(cs)
    ensures !ScanFails(Stream(cs) + w, CLI_LIMIT)
  {
    hide Split, Wire, WireLines, Written, Stream, FedAll, FramesRead, Fitting, Trims, TrimCr, Solid, OneLine, Fits,
        Glue;
    PartsOfCut(cs, c);
    var n, r := CutChunk(c, w);
    SolidLines(c, n, r);
    var ls := WireLines(c)[..n];
    SplitStream(cs);
    SplitGlue(Stream(cs), ls);
    SplitPlain(Stream(cs) + Glue(ls), r);
    assert Stream(cs) + w == Stream(cs) + Glue(ls) + r;
    assert "" + r == r;
    WrittenFits(cs, CLI_LIMIT);
    ChunkFits(c, CLI_LIMIT);
    FittingOnly(Written(cs) + ls, CLI_LIMIT, |Written(cs) + ls|);
    assert (Written(cs) + ls)[..|Written(cs) + ls|] == Written(cs) + ls;
    TrimsConcat(Written(cs), ls);
    var extra := Trims(ls) + if r == "" then [] else [TrimCr(r)];
    forall i | 0 <= i < |extra|
      ensures TrimCr(extra[i]) != ""
    {
      if i < n { SolidToken(ls[i]); } else { SolidToken(r); }
    }
    assert Tokens(Stream(cs) + w, CLI_LIMIT) == Trims(Written(cs)) + extra;
    FedQuiet(Trims(Written(cs)), extra);
    CliReadsAll(cs);
  }

  lemma PartsOfCut(cs: seq<Chunk>, c: Chunk)
    requires AllOneLine(cs + [c]) && AllFit(cs + [c], CLI_LIMIT)
    ensures AllOneLine(cs) && AllFit(cs, CLI_LIMIT) && Fits(c, CLI_LIMIT) && (c.Event? ==> OneLine(c.frame))
  {
    hide OneLine, Fits;
    var all := cs + [c];
    assert all[|cs|] == c;
    assert forall i :: 0 <= i < |cs| ==> all[i] == cs[i];
  }

  lemma ChunkFits(c: Chunk, limit: nat)
    requires Fits(c, limit)
    ensures forall i :: 0 <= i < |WireLines(c)| ==> |WireLines(c)[i]| < limit
  {
  }

  // ---- The stream of one watcher -------------------------------------------------------------------

  /** What ends a wait of the handler's select: its ping timer, or an event from the channel. */
  datatype Tick = PingTick | Live(json: string)

  function ChunkOf(t: Tick): Chunk {
    if t.PingTick? then Ping else Event(Frame("message", t.json))
  }

  /** The session id goes into the greeting as it is, without escaping. */
  function Greeting(sid: string, time: string): string {
    "{\"session\":\"" + sid + "\",\"time\":\"" + time + "\"}"
  }

  /** So the greeting takes one line exactly if the session id and the time do. */
  lemma GreetingLine(sid: string, time: string)
    ensures var f := Frame("connected", Greeting(sid, time));
            (OneLine(f) <==> '\n' !in sid && '\n' !in time) && Clean(f) && NonEmpty(f)
  {
    var g := Greeting(sid, time);
    var a, b, c := "{\"session\":\"", "\",\"time\":\"", "\"}";
    assert g == a + sid + b + time + c;
    assert '\n' !in a && '\n' !in b && '\n' !in c;
  }

  function Opening(hello: string, history: seq<string>): (r: seq<Chunk>)
    ensures |r| == 2 + |history|
    ensures r[0] == Retry && r[1] == Event(Frame("connected", hello))
    ensures forall i :: 0 <= i < |history| ==> r[2 + i] == Event(Frame("history", history[i]))
  {
    [Retry, Event(Frame("connected", hello))] + seq(|history|,
        i requires 0 <= i < |history| => Event(Frame("history", history[i])))
  }

  function Session(hello: string, history: seq<string>, ticks: seq<Tick>): (r: seq<Chunk>)
    ensures |r| == 2 + |history| + |ticks|
    ensures r[..2 + |history|] == Opening(hello, history)
    ensures forall i :: 0 <= i < |ticks| ==> r[2 + |history| + i] == ChunkOf(ticks[i])
  {
    Opening(hello, history) + seq(|ticks|, i requires 0 <= i < |ticks| => ChunkOf(ticks[i]))
  }

  /** The handler's writes, one after another: the greeting, the replayed history, then live events and pings. */
  method ServeStream(sid: string, time: string, history: seq<string>, ticks: seq<Tick>) returns (out: string)
    ensures out == Stream(Session(Greeting(sid, time), history, ticks))
  {
    hide Wire, Opening, Session, Greeting;
    var hello := Greeting(sid, time);
    ghost var all := Session(hello, history, ticks);
    assert all[0] == Opening(hello, history)[0] && all[1] == Opening(hello, history)[1];
    StreamStep(all, 0);
    StreamStep(all, 1);
    out := "" + Wire(Retry);
    out := out + Wire(Event(Frame("connected", hello)));
    for i := 0 to |history|
      invariant out == Stream(all[..2 + i])
    {
      assert all[2 + i] == Opening(hello, history)[2 + i];
      StreamStep(all, 2 + i);
      out := out + Wire(Event(Frame("history", history[i])));
    }
    for i := 0 to |ticks|
      invariant out == Stream(all[..2 + |history| + i])
    {
      StreamStep(all, 2 + |history| + i);
      if ticks[i].PingTick? {
        out := out + Wire(Ping);
      } else {
        out := out + Wire(Event(Frame("message", ticks[i].json)));
      }
    }
    assert all[..|all|] == all;
  }

  lemma StreamStep(cs: seq<Chunk>, i: nat)
    requires i < |cs|
    ensures Stream(cs[..i + 1]) == Stream(cs[..i]) + Wire(cs[i])
    ensures i == 0 ==> Stream(cs[..i]) == ""
  {
    hide Wire;
    assert cs[..i + 1][..i] == cs[..i];
  }
}

/** The display side of the command-line client. */
module Cli {
  import opened Watermark

  class Screen {
    var lastSeq: int
    var shown: seq<int>   // the numbers of the envelopes displayed, in order

    constructor ()
      ensures lastSeq == 0 && shown == []
    {
      lastSeq, shown := 0, [];
    }

    /** Shows an envelope unless its number has been passed; unnumbered ones are always shown. */
    method ShowEnvelope(number: int)
      modifies this
      ensures lastSeq == Moved(old(lastSeq), Item(true, number))
      ensures shown == old(shown) + if Acts(old(lastSeq), Item(true, number)) then [number] else []
    {
      if number > 0 {
        if number <= lastSeq {
          return;
        }
        lastSeq := number;
      }
      shown := shown + [number];
    }

    /** The same event may come from the replay, the live stream and the mailbox, in any order. */
    method ShowAll(numbers: seq<int>)
      modifies this
      ensures lastSeq == MarkOf(old(lastSeq), numbers) && shown == old(shown) + Shown(old(lastSeq), numbers)
    {
      hide MarkOf, Shown;
      ghost var mark := lastSeq;
      NothingShown(mark);
      for k := 0 to |numbers|
        invariant lastSeq == MarkOf(mark, numbers[..k]) && shown == old(shown) + Shown(mark, numbers[..k])
      {
        ShownStep(mark, numbers, k);
        ShowEnvelope(numbers[k]);
      }
      assert numbers[..|numbers|] == numbers;
    }
  }

  function MarkOf(mark: int, numbers: seq<int>): int {
    if numbers == [] then mark else Moved(MarkOf(mark, numbers[..|numbers| - 1]), Item(true, numbers[|numbers| - 1]))
  }

  /** What is displayed of a list of envelope numbers. */
  function Shown(mark: int, numbers: seq<int>): seq<int> {
    if numbers == [] then []
    else
      var n := |numbers| - 1;
      Shown(mark, numbers[..n]) + if Acts(MarkOf(mark, numbers[..n]), Item(true, numbers[n])) then [numbers[n]] else []
  }

  lemma NothingShown(mark: int)
    ensures MarkOf(mark, []) == mark && Shown(mark, []) == []
  {
  }

  lemma ShownStep(mark: int, numbers: seq<int>, k: nat)
    requires k < |numbers|
    ensures MarkOf(mark, numbers[..k + 1]) == Moved(MarkOf(mark, numbers[..k]), Item(true, numbers[k]))
    ensures Shown(mark, numbers[..k + 1]) ==
            Shown(mark, numbers[..k]) +
              if Acts(MarkOf(mark, numbers[..k]), Item(true, numbers[k])) then [numbers[k]] else []
  {
    assert numbers[..k + 1][..k] == numbers[..k];
  }

  /** No number is shown twice, none is made up, and unnumbered envelopes are always shown. */
  lemma {:induction false} ShownOnce(mark: int, numbers: seq<int>)
    requires mark >= 0
    ensures MarkOf(mark, numbers) >= mark
    ensures var s := Shown(mark, numbers);
            && (forall i, j :: 0 <= i < j < |s| && s[i] > 0 && s[j] > 0 ==> s[i] < s[j])
            && (forall i :: 0 <= i < |s| ==> s[i] <= MarkOf(mark, numbers) && (s[i] > 0 ==> s[i] > mark))
            && (forall n :: n in s ==> n in numbers)
            && (forall n :: n in numbers && n <= 0 ==> n in s)
  {
    hide MarkOf, Shown;
    if numbers == [] {
      NothingShown(mark);
    } else {
      var n := |numbers| - 1;
      var before, x := numbers[..n], numbers[n];
      assert numbers == before + [x] && numbers[..n + 1] == numbers;
      ShownOnce(mark, before);
      ShownStep(mark, numbers, n);
      OneMore(mark, MarkOf(mark, before), Shown(mark, before), x);
    }
  }

  /** And a number above the mark and above all before it is always shown. */
  lemma {:induction false} HighsAreShown(mark: int, numbers: seq<int>, k: nat)
    requires mark >= 0 && k < |numbers| && numbers[k] > mark
    requires forall j :: 0 <= j < k ==> numbers[j] < numbers[k]
    ensures numbers[k] in Shown(mark, numbers)
  {
    hide MarkOf;
    var n := |numbers| - 1;
    if k < n {
      HighsAreShown(mark, numbers[..n], k);
    } else {
      MarkStaysBelow(mark, numbers[..n], numbers[n]);
    }
  }

  lemma {:induction false} MarkStaysBelow(mark: int, numbers: seq<int>, x: int)
    requires mark < x && forall j :: 0 <= j < |numbers| ==> numbers[j] < x
    ensures MarkOf(mark, numbers) < x
  {
    if numbers != [] {
      MarkStaysBelow(mark, numbers[..|numbers| - 1], x);
    }
  }

  lemma OneMore(mark: int, m: int, s: seq<int>, x: int)
    requires 0 <= mark <= m
    requires forall i, j :: 0 <= i < j < |s| && s[i] > 0 && s[j] > 0 ==> s[i] < s[j]
    requires forall i :: 0 <= i < |s| ==> s[i] <= m && (s[i] > 0 ==> s[i] > mark)
    ensures var s', m' := s + (if Acts(m, Item(true, x)) then [x] else []), Moved(m, Item(true, x));
            && (forall i, j :: 0 <= i < j < |s'| && s'[i] > 0 && s'[j] > 0 ==> s'[i] < s'[j])
            && (forall i :: 0 <= i < |s'| ==> s'[i] <= m' && (s'[i] > 0 ==> s'[i] > mark)) && m <= m'
            && (forall n :: n in s' <==> n in s || (n == x && Acts(m, Item(true, x)))) && (x <= 0 ==> x in s')
  {
  }
}
