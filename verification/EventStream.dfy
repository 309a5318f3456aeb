/** The byte stream of internal/events/handler.go, frame by frame, and the parser that the HTML
  * Living Standard (sections 9.2.5 and 9.2.6) prescribes for it. Characters stand for decoded
  * bytes. */
module EventStream {
  import opened Options
  import opened Traces

  /** An event with the text json.Marshal makes of it, or None when it refuses. */
  datatype Event = Event(kind: string, json: Option<string>)

  /** What a client's listener is given. */
  datatype Message = Message(kind: string, data: string)

  const CONNECTED := ": connected\n\n"

  // ---------- The stream as it is written ----------

  function Frame(kind: string, data: string): string {
    "event: " + kind + "\ndata: " + data + "\n\n"
  }

  function FormatSSEData(e: Event): Option<string> {
    match e.json
    case None => None
    case Some(data) => Some(Frame(e.kind, data))
  }

  function Frames(ms: seq<Message>): string {
    if ms == [] then "" else Frames(ms[..|ms| - 1]) + Frame(ms[|ms| - 1].kind, ms[|ms| - 1].data)
  }

  function Stream(ms: seq<Message>): string {
    CONNECTED + Frames(ms)
  }

  /** The events that can be marshalled. */
  function Marshalled(es: seq<Event>): seq<Message> {
    if es == [] then []
    else
      var before := Marshalled(es[..|es| - 1]);
      match es[|es| - 1].json
      case None => before
      case Some(data) => before + [Message(es[|es| - 1].kind, data)]
  }

  /** Each event with a text makes one message, of its type and text, and the order is kept. */
  lemma {:induction false} MarshalledConcat(xs: seq<Event>, ys: seq<Event>)
    ensures Marshalled(xs + ys) == Marshalled(xs) + Marshalled(ys)
  {
    if ys == [] {
      assert xs + ys == xs;
    } else {
      var n := |ys| - 1;
      MarshalledConcat(xs, ys[..n]);
      assert (xs + ys)[..|xs| + n] == xs + ys[..n];
    }
  }

  lemma MarshalledOne(e: Event)
    ensures Marshalled([e]) == if e.json.Some? then [Message(e.kind, e.json.value)] else []
  {
    assert [e][..0] == [];
  }

  /** What arrives of a text when the connection takes `room` characters and then fails; None when it
    * does not fail. */
  function Arrived(text: string, room: Option<nat>): string {
    if room.Some? && room.value < |text| then text[..room.value] else text
  }

  /** Writing one frame after `text`; `ok` when it was taken whole. */
  method Write(written: string, frame: string, room: Option<nat>, ghost text: string) returns (after: string, ok: bool)
    requires written == Arrived(text, room)
    ensures after == Arrived(text + frame, room)
    ensures ok <==> !(room.Some? && room.value < |text + frame| && frame != "")
  {
    ok := !(room.Some? && |written| + |frame| > room.value);
    after := written + if ok then frame else frame[..room.value - |written|];
  }

  /** The loop of ServeHTTP over the events taken from the client's channel until it is closed or
    * the request ends: an event that cannot be marshalled is skipped, the result of writing the comment
    * is ignored, and the first frame that cannot be written whole ends the loop. */
  method ServeHTTP(es: seq<Event>, room: Option<nat>) returns (written: string)
    ensures written == Arrived(Stream(Marshalled(es)), room)
  {
    written := Arrived(CONNECTED, room);
    for i := 0 to |es|
      invariant written == Arrived(Stream(Marshalled(es[..i])), room)
    {
      assert es[..i + 1][..i] == es[..i];
      var msg := FormatSSEData(es[i]);
      if msg == None {
        continue;
      }
      FramesSnoc(Marshalled(es[..i]), Message(es[i].kind, es[i].json.value));
      var ok;
      written, ok := Write(written, msg.value, room, Stream(Marshalled(es[..i])));
      if !ok {
        MarshalledGrows(es, i + 1);
        CutArrives(Stream(Marshalled(es[..i + 1])), Stream(Marshalled(es)), room);
        return;
      }
    }
    assert es[..|es|] == es;
  }

  /** What comes after the failure does not matter. */
  lemma CutArrives(text: string, longer: string, room: Option<nat>)
    requires text <= longer && room.Some? && room.value < |text|
    ensures Arrived(longer, room) == Arrived(text, room)
  {}

  lemma Shorter(text: string, frame: string, longer: string)
    requires text + frame <= longer
    ensures text <= longer
  {
    assert longer[..|text|] == (text + frame)[..|text|];
  }

  lemma {:induction false} MarshalledGrows(es: seq<Event>, n: nat)
    requires n <= |es|
    ensures Stream(Marshalled(es[..n])) <= Stream(Marshalled(es))
    decreases |es| - n
  {
    if n == |es| {
      assert es[..n] == es;
    } else {
      MarshalledGrows(es, n + 1);
      assert es[..n + 1][..n] == es[..n];
      if es[n].json.Some? {
        var m := Message(es[n].kind, es[n].json.value);
        FramesSnoc(Marshalled(es[..n]), m);
        Shorter(Stream(Marshalled(es[..n])), Frame(m.kind, m.data), Stream(Marshalled(es)));
      }
    }
  }

  lemma FramesSnoc(ms: seq<Message>, m: Message)
    ensures Stream(ms + [m]) == Stream(ms) + Frame(m.kind, m.data)
  {
    assert (ms + [m])[..|ms|] == ms;
    assert CONNECTED + (Frames(ms) + Frame(m.kind, m.data)) == (CONNECTED + Frames(ms)) + Frame(m.kind, m.data);
  }

  // ---------- The standard's parser ----------

  predicate IsBreak(c: char) {
    c == '\n' || c == '\r'
  }

  /** The line being read, whether the last character was a CR, the two buffers of section 9.2.6 and
    * the messages dispatched so far. */
  datatype Parser = Parser(line: string, afterCR: bool, kind: string, data: string, out: seq<Message>)

  const FRESH := Parser("", false, "", "", [])

  function FirstColon(s: string): (i: nat)
    ensures i <= |s| && (i < |s| ==> s[i] == ':') && forall k :: 0 <= k < i ==> s[k] != ':'
  {
    if s == "" || s[0] == ':' then 0 else 1 + FirstColon(s[1..])
  }

  function Dispatch(p: Parser): Parser {
    if p.data == "" then p.(kind := "")
    else
      var data := if p.data[|p.data| - 1] == '\n' then p.data[..|p.data| - 1] else p.data;
      p.(kind := "", data := "", out := p.out + [Message(if p.kind == "" then "message" else p.kind, data)])
  }

  function ProcessField(p: Parser, name: string, value: string): Parser {
    if name == "event" then p.(kind := value)
    else if name == "data" then p.(data := p.data + value + "\n")
    else p
  }

  function ProcessLine(p: Parser, line: string): Parser {
    if line == "" then Dispatch(p)
    else
      var i := FirstColon(line);
      if i == 0 then p
      else if i == |line| then ProcessField(p, line, "")
      else
        var rest := line[i + 1..];
        ProcessField(p, line[..i], if rest != "" && rest[0] == ' ' then rest[1..] else rest)
  }

  /** CRLF, LF and CR end a line. */
  function Feed(p: Parser, c: char): Parser {
    if c == '\n' && p.afterCR then p.(afterCR := false)
    else if IsBreak(c) then ProcessLine(p.(line := "", afterCR := c == '\r'), p.line)
    else p.(line := p.line + [c], afterCR := false)
  }

  function Feeder(): (Parser, char) -> Parser {
    (p: Parser, c: char) => Feed(p, c)
  }

  function FeedAll(p: Parser, s: string): Parser {
    Fold(Feeder(), p, s)
  }

  /** One leading byte order mark is dropped; what is not dispatched at the end is lost. */
  function Parse(s: string): seq<Message> {
    FeedAll(FRESH, if s != "" && s[0] == '\U{FEFF}' then s[1..] else s).out
  }

  lemma FeedConcat(p: Parser, s: string, t: string)
    ensures FeedAll(p, s + t) == FeedAll(FeedAll(p, s), t)
  {
    FoldConcat(Feeder(), p, s, t);
  }

  lemma FeedSnoc(p: Parser, s: string, c: char)
    ensures FeedAll(p, s + [c]) == Feed(FeedAll(p, s), c)
  {
    FoldSnoc(Feeder(), p, s, c);
  }

  // ---------- Round trip ----------

  predicate Unbroken(s: string) {
    forall i :: 0 <= i < |s| ==> !IsBreak(s[i])
  }

  predicate Clean(m: Message) {
    m.kind != "" && Unbroken(m.kind) && Unbroken(m.data)
  }

  ghost predicate AllClean(ms: seq<Message>) {
    forall i :: 0 <= i < |ms| ==> Clean(ms[i])
  }

  lemma {:induction false} FeedText(p: Parser, s: string)
    requires Unbroken(s) && !p.afterCR
    ensures FeedAll(p, s) == p.(line := p.line + s)
  {
    if s == "" {
      assert p.line + s == p.line;
    } else {
      var n := |s| - 1;
      assert s == s[..n] + [s[n]];
      FeedText(p, s[..n]);
      FeedSnoc(p, s[..n], s[n]);
      assert p.line + s == (p.line + s[..n]) + [s[n]];
    }
  }

  /** A whole line fed to a parser at the start of one. */
  lemma FeedLine(p: Parser, s: string)
    requires Unbroken(s) && !p.afterCR && p.line == ""
    ensures FeedAll(p, s + "\n") == ProcessLine(p, s)
  {
    FeedText(p, s);
    FeedSnoc(p, s, '\n');
    assert "" + s == s;
    assert p.(line := "", afterCR := false) == p;
  }

  lemma FieldLine(p: Parser, name: string, value: string)
    requires ':' !in name && name != ""
    ensures ProcessLine(p, name + ": " + value) == ProcessField(p, name, value)
  {
    var line := name + ": " + value;
    assert line[|name|] == ':';
    assert forall k :: 0 <= k < |name| ==> line[k] == name[k];
    assert FirstColon(line) == |name|;
    assert line[..|name|] == name;
    var rest := line[|name| + 1..];
    assert rest == " " + value && rest[1..] == value;
  }

  lemma FeedField(p: Parser, name: string, value: string)
    requires ':' !in name && name != "" && Unbroken(name) && Unbroken(value) && p.line == "" && !p.afterCR
    ensures FeedAll(p, name + ": " + value + "\n") == ProcessField(p, name, value)
  {
    var line := name + ": " + value;
    assert Unbroken(line);
    FeedLine(p, line);
    FieldLine(p, name, value);
  }

  lemma FrameParts(kind: string, data: string)
    ensures Frame(kind, data) == ("event" + ": " + kind + "\n") + ("data: " + data + "\n\n")
    ensures "data: " + data + "\n\n" == ("data" + ": " + data + "\n") + ("" + "\n")
  {}

  /** A clean frame dispatches exactly its message and leaves the parser at the start of a line. */
  lemma FeedFrame(p: Parser, m: Message)
    requires Clean(m) && p.line == "" && !p.afterCR && p.kind == "" && p.data == ""
    ensures FeedAll(p, Frame(m.kind, m.data)) == p.(out := p.out + [m])
  {
    FrameParts(m.kind, m.data);
    FeedConcat(p, "event" + ": " + m.kind + "\n", "data: " + m.data + "\n\n");
    FeedField(p, "event", m.kind);
    var q := p.(kind := m.kind);
    FeedConcat(q, "data" + ": " + m.data + "\n", "" + "\n");
    FeedField(q, "data", m.data);
    var r := q.(data := "" + m.data + "\n");
    FeedLine(r, "");
    assert r.data[..|r.data| - 1] == m.data;
  }

  lemma FeedConnected()
    ensures FeedAll(FRESH, CONNECTED) == FRESH
  {
    assert CONNECTED == (": connected" + "\n") + ("" + "\n");
    FeedConcat(FRESH, ": connected" + "\n", "" + "\n");
    FeedLine(FRESH, ": connected");
    FeedLine(FRESH, "");
  }

  lemma {:induction false} FeedFrames(ms: seq<Message>)
    requires AllClean(ms)
    ensures FeedAll(FRESH, Stream(ms)) == FRESH.(out := ms)
  {
    if ms == [] {
      assert Stream(ms) == CONNECTED;
      FeedConnected();
    } else {
      var init, m := ms[..|ms| - 1], ms[|ms| - 1];
      assert ms == init + [m];
      FeedFrames(init);
      FramesSnoc(init, m);
      FeedConcat(FRESH, Stream(init), Frame(m.kind, m.data));
      FeedFrame(FRESH.(out := init), m);
    }
  }

  /** Parsing what is written gives back exactly the messages, for every sequence of clean ones. */
  lemma StreamRoundTrip(ms: seq<Message>)
    requires AllClean(ms)
    ensures Parse(Stream(ms)) == ms
  {
    FeedFrames(ms);
    assert Stream(ms)[0] == ':';
  }

  lemma {:induction false} OutOnlyGrows(p: Parser, s: string)
    ensures p.out <= FeedAll(p, s).out
  {
    if s == "" {
    } else {
      var n := |s| - 1;
      OutOnlyGrows(p, s[..n]);
      assert s == s[..n] + [s[n]];
      FeedSnoc(p, s[..n], s[n]);
    }
  }

  /** A connection cut anywhere, in the middle of a frame too, has delivered the first messages
    * whole and nothing else. */
  lemma CutStreamDeliversPrefix(ms: seq<Message>, n: nat)
    requires AllClean(ms) && n <= |Stream(ms)|
    ensures Parse(Stream(ms)[..n]) <= ms
  {
    var s := Stream(ms);
    FeedFrames(ms);
    assert s[0] == ':' && s == s[..n] + s[n..];
    assert n > 0 ==> s[..n][0] == s[0];
    FeedConcat(FRESH, s[..n], s[n..]);
    OutOnlyGrows(FeedAll(FRESH, s[..n]), s[n..]);
  }

  // ---------- Exactly which messages survive ----------

  /** The parser never holds a line break where a kind comes from. */
  ghost predicate KindsUnbroken(p: Parser) {
    && Unbroken(p.line) && Unbroken(p.kind)
    && forall i :: 0 <= i < |p.out| ==> p.out[i].kind != "" && Unbroken(p.out[i].kind)
  }

  lemma LineKeepsKinds(p: Parser, line: string)
    requires KindsUnbroken(p) && Unbroken(line)
    ensures KindsUnbroken(ProcessLine(p, line))
  {}

  lemma FeedKeepsKinds(p: Parser, c: char)
    requires KindsUnbroken(p)
    ensures KindsUnbroken(Feed(p, c))
  {
    LineKeepsKinds(p.(line := "", afterCR := c == '\r'), p.line);
  }

  lemma {:induction false} FeedAllKeepsKinds(p: Parser, s: string)
    requires KindsUnbroken(p)
    ensures KindsUnbroken(FeedAll(p, s))
  {
    if s == "" {
    } else {
      var n := |s| - 1;
      FeedAllKeepsKinds(p, s[..n]);
      assert s == s[..n] + [s[n]];
      FeedSnoc(p, s[..n], s[n]);
      FeedKeepsKinds(FeedAll(p, s[..n]), s[n]);
    }
  }

  function Size(ms: seq<Message>): nat {
    if ms == [] then 0 else Size(ms[..|ms| - 1]) + |ms[|ms| - 1].data| + 1
  }

  /** Characters of data held or dispatched, and of the line that may become data. */
  function Weight(p: Parser): nat {
    Size(p.out) + |p.data| + |p.line|
  }

  function Texts(s: string): nat {
    if s == "" then 0 else Texts(s[..|s| - 1]) + if IsBreak(s[|s| - 1]) then 0 else 1
  }

  /** The data buffer holds whole lines. */
  predicate Terminated(p: Parser) {
    p.data == "" || p.data[|p.data| - 1] == '\n'
  }

  lemma LineWeight(p: Parser, line: string)
    requires Terminated(p)
    ensures Size(ProcessLine(p, line).out) + |ProcessLine(p, line).data| <= Size(p.out) + |p.data| + |line|
    ensures Terminated(ProcessLine(p, line))
  {
    if line == "" && p.data != "" {
      var q := Dispatch(p);
      assert q.out[..|q.out| - 1] == p.out;
    }
  }

  lemma FeedWeight(p: Parser, c: char)
    requires Terminated(p)
    ensures Weight(Feed(p, c)) <= Weight(p) + if IsBreak(c) then 0 else 1
    ensures Terminated(Feed(p, c))
  {
    LineWeight(p.(line := "", afterCR := c == '\r'), p.line);
  }

  lemma {:induction false} FeedAllWeight(p: Parser, s: string)
    requires Terminated(p)
    ensures Weight(FeedAll(p, s)) <= Weight(p) + Texts(s)
    ensures Terminated(FeedAll(p, s))
  {
    if s == "" {
    } else {
      var n := |s| - 1;
      FeedAllWeight(p, s[..n]);
      assert s == s[..n] + [s[n]];
      FeedSnoc(p, s[..n], s[n]);
      FeedWeight(FeedAll(p, s[..n]), s[n]);
    }
  }

  lemma {:induction false} TextsConcat(s: string, t: string)
    ensures Texts(s + t) == Texts(s) + Texts(t)
  {
    if t == "" {
      assert s + t == s;
    } else {
      var n := |t| - 1;
      TextsConcat(s, t[..n]);
      assert (s + t)[..|s| + n] == s + t[..n];
    }
  }

  lemma {:induction false} TextsBound(s: string)
    ensures Texts(s) <= |s|
    ensures Texts(s) == |s| <==> Unbroken(s)
  {
    if s == "" {
    } else {
      TextsBound(s[..|s| - 1]);
      assert s == s[..|s| - 1] + [s[|s| - 1]];
    }
  }

  function FirstBreak(s: string): (i: nat)
    requires !Unbroken(s)
    ensures i < |s| && IsBreak(s[i]) && Unbroken(s[..i])
  {
    if IsBreak(s[0]) then 0
    else
      var j := FirstBreak(s[1..]);
      assert s[..j + 1] == [s[0]] + s[1..][..j];
      j + 1
  }

  /** The line "data: x" adds only x and its terminator, five characters less than it took. */
  lemma DataLineWeight(p: Parser, value: string, c: char)
    requires p.line == "data: " + value && IsBreak(c) && !p.afterCR
    ensures Weight(Feed(p, c)) + 5 == Weight(p)
  {
    assert p.line == "data" + ": " + value;
    FieldLine(p.(line := "", afterCR := c == '\r'), "data", value);
  }

  lemma TailTexts(s: string)
    ensures Texts(s + "\n\n") <= |s|
  {
    TextsConcat(s, "\n\n");
    TextsBound(s);
    assert "\n\n"[..1] == "\n" && Texts("\n") == 0 && Texts("\n\n") == 0;
  }

  /** Reading up to the first break of the data already loses five characters of weight. */
  lemma FirstPieceWeight(p: Parser, value: string, c: char)
    requires Unbroken(value) && IsBreak(c) && p.line == "" && !p.afterCR && p.data == "" && p.out == []
    ensures Weight(FeedAll(p, ("data: " + value) + [c])) == |value| + 1
    ensures Terminated(FeedAll(p, ("data: " + value) + [c]))
  {
    var head := "data: " + value;
    FeedText(p, head);
    assert "" + head == head;
    FeedSnoc(p, head, c);
    var q := FeedAll(p, head);
    DataLineWeight(q, value, c);
    FeedWeight(q, c);
  }

  /** Fed the data part of a frame with a line break in the data, the parser ends with less data
    * than the message has. */
  lemma BrokenDataShrinks(p: Parser, data: string)
    requires !Unbroken(data) && p.line == "" && !p.afterCR && p.data == "" && p.out == []
    ensures Size(FeedAll(p, "data: " + data + "\n\n").out) <= |data|
  {
    var i := FirstBreak(data);
    var first, tail := ("data: " + data[..i]) + [data[i]], data[i + 1..] + "\n\n";
    assert data == data[..i] + [data[i]] + data[i + 1..];
    assert "data: " + data + "\n\n" == first + tail;
    FeedConcat(p, first, tail);
    FirstPieceWeight(p, data[..i], data[i]);
    FeedAllWeight(FeedAll(p, first), tail);
    TailTexts(data[i + 1..]);
  }

  lemma BrokenDataLost(m: Message)
    requires m.kind != "" && Unbroken(m.kind) && !Unbroken(m.data)
    ensures Size(FeedAll(FRESH, Frame(m.kind, m.data)).out) <= |m.data|
  {
    FrameParts(m.kind, m.data);
    FeedConcat(FRESH, "event" + ": " + m.kind + "\n", "data: " + m.data + "\n\n");
    FeedField(FRESH, "event", m.kind);
    BrokenDataShrinks(FRESH.(kind := m.kind), m.data);
  }

  /** What one frame makes a listener hear. */
  function Heard(m: Message): seq<Message> {
    FeedAll(FRESH, Frame(m.kind, m.data)).out
  }

  function HeardAll(ms: seq<Message>): seq<Message> {
    if ms == [] then [] else HeardAll(ms[..|ms| - 1]) + Heard(ms[|ms| - 1])
  }

  /** The parser with `earlier` dispatched before. */
  function Onto(earlier: seq<Message>, p: Parser): Parser {
    p.(out := earlier + p.out)
  }

  lemma LineOnto(earlier: seq<Message>, p: Parser, line: string)
    ensures ProcessLine(Onto(earlier, p), line) == Onto(earlier, ProcessLine(p, line))
  {
    if line == "" && p.data != "" {
      var q := Dispatch(p);
      assert earlier + q.out == (earlier + p.out) + [q.out[|p.out|]];
    }
  }

  lemma FeedOnto(earlier: seq<Message>, p: Parser, c: char)
    ensures Feed(Onto(earlier, p), c) == Onto(earlier, Feed(p, c))
  {
    LineOnto(earlier, p.(line := "", afterCR := c == '\r'), p.line);
  }

  lemma {:induction false} FeedAllOnto(earlier: seq<Message>, p: Parser, s: string)
    ensures FeedAll(Onto(earlier, p), s) == Onto(earlier, FeedAll(p, s))
  {
    if s == "" {
    } else {
      var n := |s| - 1;
      FeedAllOnto(earlier, p, s[..n]);
      assert s == s[..n] + [s[n]];
      FeedSnoc(p, s[..n], s[n]);
      FeedSnoc(Onto(earlier, p), s[..n], s[n]);
      FeedOnto(earlier, FeedAll(p, s[..n]), s[n]);
    }
  }

  /** Between CR and LF no line has begun. */
  lemma {:induction false} NoLineAfterCR(p: Parser, s: string)
    requires p.afterCR ==> p.line == ""
    ensures FeedAll(p, s).afterCR ==> FeedAll(p, s).line == ""
  {
    if s == "" {
    } else {
      var n := |s| - 1;
      NoLineAfterCR(p, s[..n]);
      assert s == s[..n] + [s[n]];
      FeedSnoc(p, s[..n], s[n]);
    }
  }

  lemma TwoBreaks(p: Parser)
    requires p.afterCR ==> p.line == ""
    ensures var q := FeedAll(p, "\n\n"); q.line == "" && !q.afterCR && q.kind == "" && q.data == ""
  {
    FeedSnoc(p, "", '\n');
    FeedSnoc(p, "\n", '\n');
    assert "" + "\n" == "\n" && "\n" + "\n" == "\n\n";
  }

  /** Whatever a frame holds, it leaves the parser as fresh as it found it. */
  lemma FrameEndsFresh(m: Message)
    ensures FeedAll(FRESH, Frame(m.kind, m.data)) == FRESH.(out := Heard(m))
  {
    var text := "event: " + m.kind + "\ndata: " + m.data;
    assert Frame(m.kind, m.data) == text + "\n\n";
    FeedConcat(FRESH, text, "\n\n");
    NoLineAfterCR(FRESH, text);
    TwoBreaks(FeedAll(FRESH, text));
  }

  /** So a stream is heard frame by frame. */
  lemma {:induction false} StreamHeard(ms: seq<Message>)
    ensures FeedAll(FRESH, Stream(ms)) == FRESH.(out := HeardAll(ms))
  {
    if ms == [] {
      assert Stream(ms) == CONNECTED;
      FeedConnected();
    } else {
      var init, m := ms[..|ms| - 1], ms[|ms| - 1];
      assert ms == init + [m];
      StreamHeard(init);
      FramesSnoc(init, m);
      FeedConcat(FRESH, Stream(init), Frame(m.kind, m.data));
      assert Onto(HeardAll(init), FRESH) == FRESH.(out := HeardAll(init));
      FeedAllOnto(HeardAll(init), FRESH, Frame(m.kind, m.data));
      FrameEndsFresh(m);
    }
  }

  ghost predicate KindsClean(ms: seq<Message>) {
    forall i :: 0 <= i < |ms| ==> ms[i].kind != "" && Unbroken(ms[i].kind)
  }

  lemma {:induction false} SizeConcat(a: seq<Message>, b: seq<Message>)
    ensures Size(a + b) == Size(a) + Size(b)
  {
    if b == [] {
      assert a + b == a;
    } else {
      var n := |b| - 1;
      SizeConcat(a, b[..n]);
      assert (a + b)[..|a| + n] == a + b[..n];
    }
  }

  /** A frame whose data holds a line break is heard with less data than it carries. */
  lemma HeardSize(m: Message)
    requires m.kind != "" && Unbroken(m.kind)
    ensures Size(Heard(m)) <= |m.data| + 1
    ensures Size(Heard(m)) == |m.data| + 1 ==> Clean(m)
  {
    if Unbroken(m.data) {
      FeedFrame(FRESH, m);
      assert Heard(m) == [m] && [m][..0] == [];
    } else {
      BrokenDataLost(m);
    }
  }

  lemma {:induction false} HeardAllSize(ms: seq<Message>)
    requires KindsClean(ms)
    ensures Size(HeardAll(ms)) <= Size(ms)
    ensures Size(HeardAll(ms)) == Size(ms) ==> AllClean(ms)
  {
    if ms == [] {
    } else {
      var n := |ms| - 1;
      HeardAllSize(ms[..n]);
      HeardSize(ms[n]);
      SizeConcat(HeardAll(ms[..n]), Heard(ms[n]));
      assert AllClean(ms[..n]) && Clean(ms[n]) ==> AllClean(ms);
    }
  }

  /** Messages come back as they were sent exactly when every one of them is clean. */
  lemma RoundTripIff(ms: seq<Message>)
    ensures Parse(Stream(ms)) == ms <==> AllClean(ms)
  {
    if AllClean(ms) {
      StreamRoundTrip(ms);
    } else {
      StreamHeard(ms);
      assert Stream(ms)[0] == ':';
      if Parse(Stream(ms)) == ms {
        FeedAllKeepsKinds(FRESH, Stream(ms));
        HeardAllSize(ms);
      }
    }
  }
}
