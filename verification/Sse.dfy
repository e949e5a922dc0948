/**
 Server-sent events: the frames the proxy writes for a streamed completion
 (internal/server/sse.go, internal/server/server.go) and the loop that reads such a stream
 from a provider (internal/provider/client.go, chatOpenAICompatibleStream). Text is modelled
 byte by byte.
 */
module Sse {
  import opened Common

  /** A scanned line has to stay below this many bytes. */
  const MAX_LINE: int := 1024 * 1024

  datatype Usage = Usage(prompt: int, completion: int, total: int)

  const NO_USAGE := Usage(0, 0, 0)

  /** What a stream handler is given. */
  datatype StreamChunk = StreamChunk(content: string, done: bool, usage: Option<Usage>)

  /** What the proxy puts into one event. */
  datatype Payload =
    | TextPayload(id: string, created: int, model: string, content: string)
    | UsagePayload(id: string, created: int, model: string, usage: Usage)

  datatype Delta = Delta(content: string, reasoning: string)

  /** What the reader makes of one event. */
  datatype Event = Event(choices: seq<Delta>, usage: Option<Usage>)

  /** JSON, as far as the framing depends on it. */
  datatype Codec = Codec(encode: Payload -> string, decode: string -> Option<Event>)

  function View(p: Payload): Event {
    match p
    case TextPayload(_, _, _, content) => Event([Delta(content, "")], None)
    case UsagePayload(_, _, _, usage) => Event([Delta("", "")], Some(usage))
  }

  /** Objects are written on one line between braces and read back as what they say. */
  ghost predicate Sound(codec: Codec) {
    forall p: Payload :: SoundFor(codec, p)
  }

  ghost predicate SoundFor(codec: Codec, p: Payload) {
    var data := codec.encode(p);
    && |data| >= 2 && data[0] == '{' && data[|data| - 1] == '}'
    && '\n' !in data && '\r' !in data
    && codec.decode(data) == Some(View(p))
  }

  // ---- Writing ------------------------------------------------------------

  function Frame(data: string): string {
    "data: " + data + "\n\n"
  }

  const DONE := "[DONE]"

  /** One streamed completion of the server. */
  class EventStream {
    const codec: Codec
    const responseId: string
    const created: int
    var streamModel: string
    var body: string

    constructor (codec: Codec, responseId: string, created: int)
      ensures this.codec == codec && this.responseId == responseId && this.created == created
      ensures body == "" && streamModel == ""
    {
      this.codec, this.responseId, this.created := codec, responseId, created;
      streamModel, body := "", "";
    }

    /** A write that fails may have sent a part of the frame. */
    method Write(frame: string, fault: Option<nat>) returns (ok: bool)
      modifies this`body
      ensures body == old(body) + Sent(frame, fault) && ok == fault.None?
    {
      if fault.None? {
        body := body + frame;
        return true;
      }
      body := body + (if fault.value < |frame| then frame[..fault.value] else frame);
      ok := false;
    }

    method WriteChunk(content: string, fault: Option<nat>) returns (ok: bool)
      modifies this`body
      ensures body == old(body) + Sent(Frame(codec.encode(TextPayload(responseId, created, streamModel, content))), fault)
      ensures ok == fault.None?
    {
      ok := Write("data: " + codec.encode(TextPayload(responseId, created, streamModel, content)) + "\n\n", fault);
    }

    method WriteUsage(usage: Usage, fault: Option<nat>) returns (ok: bool)
      modifies this`body
      ensures body == old(body) + Sent(Frame(codec.encode(UsagePayload(responseId, created, streamModel, usage))), fault)
      ensures ok == fault.None?
    {
      ok := Write("data: " + codec.encode(UsagePayload(responseId, created, streamModel, usage)) + "\n\n", fault);
    }

    method WriteDone(fault: Option<nat>) returns (ok: bool)
      modifies this`body
      ensures body == old(body) + Sent(Frame(DONE), fault) && ok == fault.None?
    {
      ok := Write("data: [DONE]\n\n", fault);
    }

    /** The server's handler: text and the final usage become events, anything else nothing. It
        refuses to go on exactly when there was something to write and the writing failed. */
    method Handle(modelId: string, chunk: StreamChunk, fault: Option<nat>) returns (ok: bool)
      modifies this`body, this`streamModel
      ensures streamModel == if modelId != "" then modelId else old(streamModel)
      ensures var payloads := PayloadsOf(responseId, created, streamModel, [chunk]);
        && body == old(body) + Sent(Frames(payloads, codec), fault)
        && (ok <==> payloads == [] || fault.None?)
    {
      if modelId != "" {
        streamModel := modelId;
      }
      ok := true;
      if chunk.content != "" {
        ok := WriteChunk(chunk.content, fault);
      } else if chunk.done && chunk.usage.Some? {
        ok := WriteUsage(chunk.usage.value, fault);
      }
    }
  }

  /** What of a frame gets through when the write fails after some bytes. */
  function Sent(frame: string, fault: Option<nat>): (s: string)
    ensures s <= frame && (fault.None? ==> s == frame)
  {
    if fault.Some? && fault.value < |frame| then frame[..fault.value] else frame
  }

  /** The events written for a list of chunks, all from one model. */
  function PayloadsOf(id: string, created: int, model: string, chunks: seq<StreamChunk>): seq<Payload> {
    if chunks == [] then []
    else
      var rest := PayloadsOf(id, created, model, chunks[1..]);
      if chunks[0].content != "" then [TextPayload(id, created, model, chunks[0].content)] + rest
      else if chunks[0].done && chunks[0].usage.Some?
      then [UsagePayload(id, created, model, chunks[0].usage.value)] + rest
      else rest
  }

  function Frames(payloads: seq<Payload>, codec: Codec): string {
    if payloads == [] then "" else Frame(codec.encode(payloads[0])) + Frames(payloads[1..], codec)
  }

  // ---- Reading ------------------------------------------------------------

  predicate IsSpace(c: char) {
    c == ' ' || ('\t' <= c <= '\r')
  }

  function TrimLeft(s: string): string {
    if s != "" && IsSpace(s[0]) then TrimLeft(s[1..]) else s
  }

  function TrimRight(s: string): string {
    if s != "" && IsSpace(s[|s| - 1]) then TrimRight(s[..|s| - 1]) else s
  }

  function Trim(s: string): string {
    TrimRight(TrimLeft(s))
  }

  /** Where the first line ends. */
  function LineEnd(s: string): (k: nat)
    ensures k <= |s| && '\n' !in s[..k] && (k < |s| ==> s[k] == '\n')
  {
    if s == "" || s[0] == '\n' then 0
    else
      var k := 1 + LineEnd(s[1..]);
      assert s[..k] == [s[0]] + s[1..][..k - 1];
      k
  }

  function AfterLine(s: string): (r: string)
    requires s != ""
    ensures |r| < |s|
  {
    var k := LineEnd(s);
    if k < |s| then s[k + 1..] else ""
  }

  function Lines(s: string): seq<string>
    decreases |s|
  {
    if s == "" then [] else [s[..LineEnd(s)]] + Lines(AfterLine(s))
  }

  datatype Reading = Skip | Stop | Got(event: Event)

  function Understand(line: string, codec: Codec): Reading {
    var text := Trim(line);
    if !("data:" <= text) then Skip
    else
      var data := Trim(text[5..]);
      if data == DONE then Stop
      else match codec.decode(data)
        case None => Skip
        case Some(event) => Got(event)
  }

  function ContentOf(e: Event): string {
    if e.choices == [] then ""
    else if e.choices[0].content != "" then e.choices[0].content else e.choices[0].reasoning
  }

  /** The chunks handed over so far, their text, and the latest usage seen. */
  datatype Progress = Progress(chunks: seq<string>, content: string, usage: Usage)

  const NOTHING := Progress([], "", NO_USAGE)

  function Absorb(p: Progress, e: Event): Progress {
    var q := if e.usage.Some? then p.(usage := e.usage.value) else p;
    var content := ContentOf(e);
    if content == "" then q else Progress(q.chunks + [content], q.content + content, q.usage)
  }

  datatype Reader = Reader(codec: Codec, accepts: nat -> bool)

  datatype Ending = Ended | LineTooLong | HandlerRefused

  /** One line: what has been handed over then, and whether the reading stops there. */
  function Step(line: string, r: Reader, p: Progress): (Progress, Option<Ending>) {
    if |line| >= MAX_LINE then (p, Some(LineTooLong))
    else match Understand(line, r.codec)
      case Skip => (p, None)
      case Stop => (p, Some(Ended))
      case Got(event) =>
        var q := Absorb(p, event);
        (q, if |q.chunks| > |p.chunks| && !r.accepts(|p.chunks|) then Some(HandlerRefused) else None)
  }

  /** The loop as a function of the lines. */
  function Consume(lines: seq<string>, r: Reader, p: Progress): (Progress, Ending) {
    if lines == [] then (p, Ended)
    else
      var (q, stop) := Step(lines[0], r, p);
      if stop.Some? then (q, stop.value) else Consume(lines[1..], r, q)
  }

  function Filled(u: Usage): Usage {
    if u.total == 0 then u.(total := u.prompt + u.completion) else u
  }

  /** What the reader hands over and returns. */
  datatype Reception =
    | Complete(chunks: seq<string>, content: string, usage: Usage)
    | Broken(chunks: seq<string>, why: Ending)

  /** After the loop: an error, or the final chunk with the usage. */
  function Finish(p: Progress, ending: Ending, r: Reader): Reception {
    if ending != Ended then Broken(p.chunks, ending)
    else if !r.accepts(|p.chunks|) then Broken(p.chunks, HandlerRefused)
    else Complete(p.chunks, p.content, Filled(p.usage))
  }

  function Received(body: string, r: Reader): Reception {
    var (p, ending) := Consume(Lines(body), r, NOTHING);
    Finish(p, ending, r)
  }

  /** The body of the reading loop. */
  method ReadLine(raw: string, r: Reader, p: Progress) returns (q: Progress, stop: Option<Ending>)
    ensures (q, stop) == Step(raw, r, p)
  {
    q, stop := p, None;
    if |raw| >= MAX_LINE {
      return q, Some(LineTooLong);
    }
    var line := Trim(raw);
    if line == "" || !("data:" <= line) {
      return;
    }
    var data := Trim(line[5..]);
    if data == "[DONE]" {
      return q, Some(Ended);
    }
    var decoded := r.codec.decode(data);
    if decoded.None? {
      return;
    }
    var event := decoded.value;
    if event.usage.Some? {
      q := q.(usage := event.usage.value);
    }
    var content := "";
    if |event.choices| > 0 {
      content := event.choices[0].content;
      if content == "" {
        content := event.choices[0].reasoning;
      }
    }
    if content == "" {
      return;
    }
    q := q.(chunks := q.chunks + [content], content := q.content + content);
    if !r.accepts(|p.chunks|) {
      stop := Some(HandlerRefused);
    }
  }

  method ReadStream(body: string, r: Reader) returns (out: Reception)
    ensures out == Received(body, r)
  {
    var rest, p, stop := body, NOTHING, None;
    while rest != "" && stop.None?
      invariant Consume(Lines(body), r, NOTHING) == if stop.Some? then (p, stop.value) else Consume(Lines(rest), r, p)
      decreases |rest|
    {
      var raw := rest[..LineEnd(rest)];
      ghost var lines := Lines(rest);
      assert lines[0] == raw && lines[1..] == Lines(AfterLine(rest));
      p, stop := ReadLine(raw, r, p);
      rest := AfterLine(rest);
    }
    if stop.Some? && stop.value != Ended {
      return Broken(p.chunks, stop.value);
    }
    var usage := p.usage;
    if usage.total == 0 {
      usage := usage.(total := usage.prompt + usage.completion);
    }
    if !r.accepts(|p.chunks|) {
      return Broken(p.chunks, HandlerRefused);
    }
    out := Complete(p.chunks, p.content, usage);
  }

  // ---- One frame ----------------------------------------------------------

  lemma LinesCons(line: string, rest: string)
    requires '\n' !in line
    ensures Lines(line + "\n" + rest) == [line] + Lines(rest)
  {
    var s := line + "\n" + rest;
    var k := LineEnd(s);
    assert s[|line|] == '\n';
    assert k == |line|;
    assert s[..k] == line && s[k + 1..] == rest;
  }

  lemma BlankLine(rest: string)
    ensures Lines("\n" + rest) == [""] + Lines(rest)
  {
    assert "" + "\n" + rest == "\n" + rest;
    LinesCons("", rest);
  }

  lemma FrameText(data: string, rest: string)
    ensures Frame(data) + rest == ("data: " + data) + "\n" + ("\n" + rest)
  {
  }

  lemma TwoLines(a: string, b: string, rest: seq<string>)
    ensures [a] + ([b] + rest) == [a, b] + rest
  {
  }

  lemma FrameLines(data: string, rest: string)
    requires '\n' !in data
    ensures Lines(Frame(data) + rest) == ["data: " + data, ""] + Lines(rest)
  {
    var line, more := "data: " + data, "\n" + rest;
    assert '\n' !in line;
    FrameText(data, rest);
    LinesCons(line, more);
    BlankLine(rest);
    TwoLines(line, "", Lines(rest));
  }

  lemma TrimBare(s: string)
    requires s != "" && !IsSpace(s[0]) && !IsSpace(s[|s| - 1])
    ensures Trim(s) == s && Trim(" " + s) == s
  {
    assert (" " + s)[1..] == s;
  }

  lemma FrameUnderstood(data: string, codec: Codec)
    requires data != "" && !IsSpace(data[0]) && !IsSpace(data[|data| - 1])
    ensures var line := "data: " + data;
      Understand(line, codec) == if data == DONE then Stop
                                 else if codec.decode(data).None? then Skip else Got(codec.decode(data).value)
    ensures Understand("", codec) == Skip
  {
    var line := "data: " + data;
    assert line[0] == 'd' && line[|line| - 1] == data[|data| - 1];
    TrimBare(line);
    TrimBare(data);
    assert line[..5] == "data:" && line[5..] == " " + data;
  }

  predicate Fits(p: Payload, codec: Codec) {
    |"data: "| + |codec.encode(p)| < MAX_LINE
  }

  ghost predicate AllFit(payloads: seq<Payload>, codec: Codec) {
    forall k :: 0 <= k < |payloads| ==> Fits(payloads[k], codec)
  }

  lemma EventConsumed(line: string, event: Event, rest: seq<string>, r: Reader, p: Progress)
    requires |line| < MAX_LINE && Understand(line, r.codec) == Got(event) && r.accepts(|p.chunks|)
    ensures Consume([line, ""] + rest, r, p) == Consume(rest, r, Absorb(p, event))
  {
    var lines := [line, ""] + rest;
    var q := Absorb(p, event);
    assert lines[0] == line && lines[1..] == [""] + rest;
    assert Consume(lines, r, p) == Consume([""] + rest, r, q);
    assert ([""] + rest)[0] == "" && ([""] + rest)[1..] == rest;
    assert Understand("", r.codec) == Skip;
  }

  /** The reader takes from a frame exactly what was put into it. */
  lemma FrameConsumed(payload: Payload, rest: string, r: Reader, p: Progress)
    requires Sound(r.codec) && Fits(payload, r.codec) && r.accepts(|p.chunks|)
    ensures Consume(Lines(Frame(r.codec.encode(payload)) + rest), r, p)
            == Consume(Lines(rest), r, Absorb(p, View(payload)))
  {
    var data := r.codec.encode(payload);
    assert SoundFor(r.codec, payload);
    FrameLines(data, rest);
    FrameUnderstood(data, r.codec);
    assert data[0] != DONE[0];
    EventConsumed("data: " + data, View(payload), Lines(rest), r, p);
  }

  lemma LongFrameStops(payload: Payload, rest: string, r: Reader, p: Progress)
    requires Sound(r.codec) && !Fits(payload, r.codec)
    ensures Consume(Lines(Frame(r.codec.encode(payload)) + rest), r, p) == (p, LineTooLong)
  {
    assert SoundFor(r.codec, payload);
    FrameLines(r.codec.encode(payload), rest);
  }

  lemma DoneStops(rest: string, r: Reader, p: Progress)
    ensures Consume(Lines(Frame(DONE) + rest), r, p) == (p, Ended)
  {
    FrameLines(DONE, rest);
    FrameUnderstood(DONE, r.codec);
  }

  // ---- Whole streams ------------------------------------------------------

  ghost predicate AcceptsAll(r: Reader) {
    forall n :: r.accepts(n)
  }

  function AbsorbAll(p: Progress, payloads: seq<Payload>): Progress
    decreases |payloads|
  {
    if payloads == [] then p else AbsorbAll(Absorb(p, View(payloads[0])), payloads[1..])
  }

  lemma {:induction false} FramesConsumed(payloads: seq<Payload>, rest: string, r: Reader, p: Progress)
    requires Sound(r.codec) && AllFit(payloads, r.codec) && AcceptsAll(r)
    ensures Consume(Lines(Frames(payloads, r.codec) + rest), r, p) == Consume(Lines(rest), r, AbsorbAll(p, payloads))
    decreases |payloads|
  {
    if payloads == [] {
      assert Frames(payloads, r.codec) + rest == rest;
    } else {
      var tail := Frames(payloads[1..], r.codec) + rest;
      assert Frames(payloads, r.codec) + rest == Frame(r.codec.encode(payloads[0])) + tail;
      FrameConsumed(payloads[0], tail, r, p);
      FramesConsumed(payloads[1..], rest, r, Absorb(p, View(payloads[0])));
    }
  }

  lemma FramesSplit(a: seq<Payload>, b: seq<Payload>, codec: Codec)
    ensures Frames(a + b, codec) == Frames(a, codec) + Frames(b, codec)
  {
    if a == [] {
      assert a + b == b;
    } else {
      FramesSplit(a[1..], b, codec);
      assert (a + b)[1..] == a[1..] + b && (a + b)[0] == a[0];
    }
  }

  function Concat(chunks: seq<string>): string {
    if chunks == [] then "" else Concat(chunks[..|chunks| - 1]) + chunks[|chunks| - 1]
  }

  /** A completion as it comes out of a provider: non-empty texts, then the usage. */
  function Completion(texts: seq<string>, usage: Usage): seq<StreamChunk> {
    seq(|texts|, i requires 0 <= i < |texts| => StreamChunk(texts[i], false, None)) + [StreamChunk("", true, Some(usage))]
  }

  ghost predicate NonEmpty(texts: seq<string>) {
    forall i :: 0 <= i < |texts| ==> texts[i] != ""
  }

  function TextPayloads(id: string, created: int, model: string, texts: seq<string>): (r: seq<Payload>)
    ensures |r| == |texts|
  {
    seq(|texts|, i requires 0 <= i < |texts| => TextPayload(id, created, model, texts[i]))
  }

  lemma {:induction false} CompletionPayloads(id: string, created: int, model: string, texts: seq<string>, usage: Usage)
    requires NonEmpty(texts)
    ensures PayloadsOf(id, created, model, Completion(texts, usage))
            == TextPayloads(id, created, model, texts) + [UsagePayload(id, created, model, usage)]
    decreases |texts|
  {
    var chunks := Completion(texts, usage);
    if texts == [] {
      assert chunks == [StreamChunk("", true, Some(usage))];
      assert PayloadsOf(id, created, model, chunks[1..]) == [];
    } else {
      assert chunks[1..] == Completion(texts[1..], usage);
      CompletionPayloads(id, created, model, texts[1..], usage);
      assert TextPayloads(id, created, model, texts)
          == [TextPayload(id, created, model, texts[0])] + TextPayloads(id, created, model, texts[1..]);
    }
  }

  /** The bytes of a completion. */
  function BodyOf(id: string, created: int, model: string, texts: seq<string>, usage: Usage, codec: Codec): string {
    Frames(PayloadsOf(id, created, model, Completion(texts, usage)), codec) + Frame(DONE)
  }

  lemma {:induction false} AbsorbAllLast(p: Progress, payloads: seq<Payload>, last: Payload)
    ensures AbsorbAll(p, payloads + [last]) == Absorb(AbsorbAll(p, payloads), View(last))
    decreases |payloads|
  {
    if payloads == [] {
      assert payloads + [last] == [last];
      assert [last][1..] == [];
    } else {
      assert (payloads + [last])[0] == payloads[0] && (payloads + [last])[1..] == payloads[1..] + [last];
      AbsorbAllLast(Absorb(p, View(payloads[0])), payloads[1..], last);
    }
  }

  lemma {:induction false} TextsAbsorbed(id: string, created: int, model: string, texts: seq<string>)
    requires NonEmpty(texts)
    ensures AbsorbAll(NOTHING, TextPayloads(id, created, model, texts)) == Progress(texts, Concat(texts), NO_USAGE)
  {
    if texts == [] {
    } else {
      var init, last := texts[..|texts| - 1], texts[|texts| - 1];
      var payload := TextPayload(id, created, model, last);
      TextsAbsorbed(id, created, model, init);
      AbsorbAllLast(NOTHING, TextPayloads(id, created, model, init), payload);
      assert TextPayloads(id, created, model, texts) == TextPayloads(id, created, model, init) + [payload];
      assert texts == init + [last];
    }
  }

  /** Reading what was written gives back every chunk, their concatenation and the usage. */
  lemma RoundTrip(id: string, created: int, model: string, texts: seq<string>, usage: Usage, r: Reader)
    requires Sound(r.codec) && AcceptsAll(r) && NonEmpty(texts)
    requires AllFit(PayloadsOf(id, created, model, Completion(texts, usage)), r.codec)
    ensures Received(BodyOf(id, created, model, texts, usage, r.codec), r)
            == Complete(texts, Concat(texts), Filled(usage))
  {
    var payloads := PayloadsOf(id, created, model, Completion(texts, usage));
    FramesConsumed(payloads, Frame(DONE), r, NOTHING);
    var p := AbsorbAll(NOTHING, payloads);
    assert Frame(DONE) + "" == Frame(DONE);
    DoneStops("", r, p);
    CompletionPayloads(id, created, model, texts, usage);
    AbsorbAllLast(NOTHING, TextPayloads(id, created, model, texts), UsagePayload(id, created, model, usage));
    TextsAbsorbed(id, created, model, texts);
  }

  lemma LongEventBreaks(head: seq<Payload>, long: Payload, after: seq<Payload>, r: Reader)
    requires Sound(r.codec) && AcceptsAll(r) && AllFit(head, r.codec) && !Fits(long, r.codec)
    ensures Consume(Lines(Frames(head + ([long] + after), r.codec) + Frame(DONE)), r, NOTHING)
            == (AbsorbAll(NOTHING, head), LineTooLong)
  {
    var tail := Frames(after, r.codec) + Frame(DONE);
    var rest := Frame(r.codec.encode(long)) + tail;
    assert ([long] + after)[1..] == after;
    FramesSplit(head, [long] + after, r.codec);
    assert Frames(head + ([long] + after), r.codec) + Frame(DONE) == Frames(head, r.codec) + rest;
    FramesConsumed(head, rest, r, NOTHING);
    LongFrameStops(long, tail, r, AbsorbAll(NOTHING, head));
  }

  /** The first event over the line limit ends the reading with an error, after exactly the
      chunks before it. */
  lemma LongLineBreaks(id: string, created: int, model: string, texts: seq<string>, usage: Usage, r: Reader, k: nat)
    requires Sound(r.codec) && AcceptsAll(r) && NonEmpty(texts) && k <= |texts|
    requires var payloads := PayloadsOf(id, created, model, Completion(texts, usage));
      k < |payloads| && AllFit(payloads[..k], r.codec) && !Fits(payloads[k], r.codec)
    ensures Received(BodyOf(id, created, model, texts, usage, r.codec), r) == Broken(texts[..k], LineTooLong)
  {
    var payloads := PayloadsOf(id, created, model, Completion(texts, usage));
    assert payloads == payloads[..k] + ([payloads[k]] + payloads[k + 1..]);
    LongEventBreaks(payloads[..k], payloads[k], payloads[k + 1..], r);
    CompletionPayloads(id, created, model, texts, usage);
    assert payloads[..k] == TextPayloads(id, created, model, texts[..k]);
    TextsAbsorbed(id, created, model, texts[..k]);
  }

  // ---- Streams that stop early --------------------------------------------

  /** No proper part of an object, nor of the closing mark, is an event of its own. */
  ghost predicate PartsFail(codec: Codec) {
    forall part: string :: PartFails(codec, part)
  }

  ghost predicate PartFails(codec: Codec, part: string) {
    && (forall p: Payload :: part <= codec.encode(p) && part != codec.encode(p) ==> codec.decode(part).None?)
    && (part <= DONE && part != DONE ==> codec.decode(part).None?)
  }

  lemma OneLine(s: string)
    requires s != "" && '\n' !in s
    ensures Lines(s) == [s] && Lines(s + "\n") == [s]
  {
    assert s + "\n" + "" == s + "\n";
    LinesCons(s, "");
    assert LineEnd(s) == |s|;
    assert s[..|s|] == s;
  }

  lemma {:induction false} TrimRightPart(s: string)
    ensures TrimRight(s) <= s
    decreases |s|
  {
    if s == "" || !IsSpace(s[|s| - 1]) {
    } else {
      TrimRightPart(s[..|s| - 1]);
    }
  }

  /** A line cut short: what the reader makes of it. */
  lemma CutLine(data: string, n: nat, codec: Codec)
    requires data != "" && !IsSpace(data[0]) && !IsSpace(data[|data| - 1]) && n < |"data: " + data|
    requires forall part :: part <= data && part != data ==> codec.decode(part).None? && part != DONE
    ensures Understand(("data: " + data)[..n], codec) == Skip
  {
    var line := ("data: " + data)[..n];
    if n > 0 {
      assert line[0] == 'd';
      assert TrimLeft(line) == line;
      TrimRightPart(line);
      var text := TrimRight(line);
      if "data:" <= text {
        CutData(data, n, text);
      }
    }
  }

  /** The data of a cut line is a proper part of the whole. */
  lemma CutData(data: string, n: nat, text: string)
    requires data != "" && !IsSpace(data[0]) && n < |"data: " + data|
    requires text <= ("data: " + data)[..n] && "data:" <= text
    ensures Trim(text[5..]) <= data && Trim(text[5..]) != data
  {
    var rest := text[5..];
    if rest == "" {
    } else {
      assert rest[0] == ' ';
      var part := rest[1..];
      assert part == data[..|part|];
      assert |part| < |data|;
      assert TrimLeft(rest) == TrimLeft(part) == part;
      TrimRightPart(part);
    }
  }

  lemma CutFrameLines(data: string, n: nat)
    requires '\n' !in data && n < |Frame(data)|
    ensures var line := "data: " + data;
      Lines(Frame(data)[..n]) == if n == 0 then [] else if n < |line| then [line[..n]] else [line]
  {
    var line := "data: " + data;
    assert Frame(data) == line + "\n" + "\n";
    if n == 0 {
    } else if n <= |line| {
      assert Frame(data)[..n] == line[..n];
      OneLine(line[..n]);
      assert line[..|line|] == line;
    } else {
      assert Frame(data)[..n] == line + "\n";
      OneLine(line);
    }
  }

  /** A frame cut short is an event exactly when its line got through. */
  lemma CutFrame(payload: Payload, n: nat, r: Reader, p: Progress)
    requires Sound(r.codec) && PartsFail(r.codec) && Fits(payload, r.codec) && r.accepts(|p.chunks|)
    requires n < |Frame(r.codec.encode(payload))|
    ensures Consume(Lines(Frame(r.codec.encode(payload))[..n]), r, p)
         == (if n < |"data: " + r.codec.encode(payload)| then p else Absorb(p, View(payload)), Ended)
  {
    var data := r.codec.encode(payload);
    var line := "data: " + data;
    assert SoundFor(r.codec, payload);
    CutFrameLines(data, n);
    if 0 < n < |line| {
      forall part | part <= data && part != data ensures r.codec.decode(part).None? && part != DONE {
        assert PartFails(r.codec, part);
      }
      CutLine(data, n, r.codec);
      assert [line[..n]][1..] == [];
    } else if n >= |line| {
      FrameUnderstood(data, r.codec);
      assert data[0] != DONE[0];
      assert [line][1..] == [];
    }
  }

  lemma CutDone(n: nat, r: Reader, p: Progress)
    requires PartsFail(r.codec) && n <= |Frame(DONE)|
    ensures Consume(Lines(Frame(DONE)[..n]), r, p) == (p, Ended)
  {
    var line := "data: " + DONE;
    if n == |Frame(DONE)| {
      assert Frame(DONE)[..n] == Frame(DONE) + "";
      DoneStops("", r, p);
    } else {
      CutFrameLines(DONE, n);
      if 0 < n < |line| {
        forall part | part <= DONE && part != DONE ensures r.codec.decode(part).None? && part != DONE {
          assert PartFails(r.codec, part);
        }
        CutLine(DONE, n, r.codec);
        assert [line[..n]][1..] == [];
      } else if n >= |line| {
        FrameUnderstood(DONE, r.codec);
      }
    }
  }

  /** How many events have their whole line within the first n bytes. */
  function Arrived(payloads: seq<Payload>, codec: Codec, n: nat): (k: nat)
    ensures k <= |payloads|
  {
    if payloads == [] || n < |"data: " + codec.encode(payloads[0])| then 0
    else
      var size := |Frame(codec.encode(payloads[0]))|;
      1 + Arrived(payloads[1..], codec, if n < size then 0 else n - size)
  }

  lemma CutText(first: string, second: string, whole: string, n: nat)
    requires whole == first + second && n <= |whole|
    ensures whole[..n] == if n < |first| then first[..n] else first + second[..n - |first|]
  {
  }

  /** The bytes of the events and of the closing mark. */
  function Stream(payloads: seq<Payload>, codec: Codec): string {
    Frames(payloads, codec) + Frame(DONE)
  }

  lemma StreamParts(payloads: seq<Payload>, codec: Codec)
    requires payloads != []
    ensures Stream(payloads, codec) == Frame(codec.encode(payloads[0])) + Stream(payloads[1..], codec)
  {
  }

  /** The stream stops within its first event. */
  lemma CutInFirst(payloads: seq<Payload>, n: nat, r: Reader, p: Progress)
    requires Sound(r.codec) && PartsFail(r.codec) && AllFit(payloads, r.codec) && AcceptsAll(r)
    requires payloads != [] && n < |Frame(r.codec.encode(payloads[0]))| && n <= |Stream(payloads, r.codec)|
    ensures Consume(Lines(Stream(payloads, r.codec)[..n]), r, p)
         == (AbsorbAll(p, payloads[..Arrived(payloads, r.codec, n)]), Ended)
  {
    var frame, tail := Frame(r.codec.encode(payloads[0])), Stream(payloads[1..], r.codec);
    StreamParts(payloads, r.codec);
    CutText(frame, tail, Stream(payloads, r.codec), n);
    CutFrame(payloads[0], n, r, p);
    NothingArrives(payloads[1..], r.codec);
    FirstOnly(p, payloads, Arrived(payloads, r.codec, n));
  }

  /** The stream gets past its first event. */
  lemma CutLater(payloads: seq<Payload>, n: nat, r: Reader, p: Progress)
    requires Sound(r.codec) && AllFit(payloads, r.codec) && AcceptsAll(r) && payloads != []
    requires |Frame(r.codec.encode(payloads[0]))| <= n <= |Stream(payloads, r.codec)|
    ensures var m := n - |Frame(r.codec.encode(payloads[0]))|;
      && m <= |Stream(payloads[1..], r.codec)|
      && Consume(Lines(Stream(payloads, r.codec)[..n]), r, p)
         == Consume(Lines(Stream(payloads[1..], r.codec)[..m]), r, Absorb(p, View(payloads[0])))
  {
    var frame, tail := Frame(r.codec.encode(payloads[0])), Stream(payloads[1..], r.codec);
    StreamParts(payloads, r.codec);
    CutText(frame, tail, Stream(payloads, r.codec), n);
    FrameConsumed(payloads[0], tail[..n - |frame|], r, p);
  }

  /** What is read of the first n bytes. */
  ghost predicate CutRight(payloads: seq<Payload>, n: nat, r: Reader, p: Progress) {
    && n <= |Stream(payloads, r.codec)|
    && Consume(Lines(Stream(payloads, r.codec)[..n]), r, p)
       == (AbsorbAll(p, payloads[..Arrived(payloads, r.codec, n)]), Ended)
  }

  lemma ArrivedLater(payloads: seq<Payload>, codec: Codec, n: nat, m: nat, p: Progress)
    requires payloads != [] && n == |Frame(codec.encode(payloads[0]))| + m
    ensures var k := Arrived(payloads[1..], codec, m);
      && Arrived(payloads, codec, n) == k + 1
      && AbsorbAll(p, payloads[..k + 1]) == AbsorbAll(Absorb(p, View(payloads[0])), payloads[1..][..k])
  {
    var k := Arrived(payloads[1..], codec, m);
    assert payloads[..k + 1][1..] == payloads[1..][..k];
  }

  lemma CutNext(payloads: seq<Payload>, n: nat, m: nat, r: Reader, p: Progress)
    requires Sound(r.codec) && AllFit(payloads, r.codec) && AcceptsAll(r) && payloads != []
    requires n == |Frame(r.codec.encode(payloads[0]))| + m && n <= |Stream(payloads, r.codec)|
    requires CutRight(payloads[1..], m, r, Absorb(p, View(payloads[0])))
    ensures CutRight(payloads, n, r, p)
  {
    CutLater(payloads, n, r, p);
    ArrivedLater(payloads, r.codec, n, m, p);
  }

  lemma {:induction false} CutFrames(payloads: seq<Payload>, n: nat, r: Reader, p: Progress)
    requires Sound(r.codec) && PartsFail(r.codec) && AllFit(payloads, r.codec) && AcceptsAll(r)
    requires n <= |Stream(payloads, r.codec)|
    ensures CutRight(payloads, n, r, p)
    decreases |payloads|
  {
    if payloads == [] {
      assert Stream(payloads, r.codec) == Frame(DONE);
      CutDone(n, r, p);
    } else if n < |Frame(r.codec.encode(payloads[0]))| {
      CutInFirst(payloads, n, r, p);
    } else {
      var m := n - |Frame(r.codec.encode(payloads[0]))|;
      StreamParts(payloads, r.codec);
      CutFrames(payloads[1..], m, r, Absorb(p, View(payloads[0])));
      CutNext(payloads, n, m, r, p);
    }
  }

  lemma NothingArrives(payloads: seq<Payload>, codec: Codec)
    ensures Arrived(payloads, codec, 0) == 0
  {
  }

  lemma FirstOnly(p: Progress, payloads: seq<Payload>, k: nat)
    requires payloads != [] && k <= 1
    ensures AbsorbAll(p, payloads[..k]) == if k == 0 then p else Absorb(p, View(payloads[0]))
  {
    if k == 1 {
      assert payloads[..1][1..] == [];
    }
  }

  /** A stream that stops anywhere, after a failed write say, is read without an error: as the
      complete stream of the events whose line got through, without usage if that is missing. */
  lemma CutStream(id: string, created: int, model: string, texts: seq<string>, usage: Usage, r: Reader, n: nat)
    requires Sound(r.codec) && PartsFail(r.codec) && AcceptsAll(r) && NonEmpty(texts)
    requires AllFit(PayloadsOf(id, created, model, Completion(texts, usage)), r.codec)
    requires n <= |BodyOf(id, created, model, texts, usage, r.codec)|
    ensures var k := Arrived(PayloadsOf(id, created, model, Completion(texts, usage)), r.codec, n);
      Received(BodyOf(id, created, model, texts, usage, r.codec)[..n], r)
        == if k <= |texts| then Complete(texts[..k], Concat(texts[..k]), NO_USAGE)
           else Complete(texts, Concat(texts), Filled(usage))
  {
    var payloads := PayloadsOf(id, created, model, Completion(texts, usage));
    var k := Arrived(payloads, r.codec, n);
    CutFrames(payloads, n, r, NOTHING);
    CompletionPayloads(id, created, model, texts, usage);
    if k <= |texts| {
      assert payloads[..k] == TextPayloads(id, created, model, texts[..k]);
      TextsAbsorbed(id, created, model, texts[..k]);
    } else {
      assert payloads[..k] == payloads;
      AbsorbAllLast(NOTHING, TextPayloads(id, created, model, texts), UsagePayload(id, created, model, usage));
      TextsAbsorbed(id, created, model, texts);
    }
  }

  lemma {:induction false} PayloadsSplit(
    id: string, created: int, model: string, a: seq<StreamChunk>, b: seq<StreamChunk>)
    ensures PayloadsOf(id, created, model, a + b) == PayloadsOf(id, created, model, a) + PayloadsOf(id, created, model, b)
    decreases |a|
  {
    if a == [] {
      assert a + b == b;
    } else {
      assert (a + b)[0] == a[0] && (a + b)[1..] == a[1..] + b;
      PayloadsSplit(id, created, model, a[1..], b);
    }
  }

  /** What is on the wire when the handler refuses the j-th chunk because its write failed: the
      beginning of the stream, so CutStream says what a client reads. */
  lemma FailedWriteCuts(id: string, created: int, model: string, texts: seq<string>, usage: Usage, codec: Codec,
                        j: nat, fault: Option<nat>)
    requires j < |Completion(texts, usage)|
    ensures var chunks := Completion(texts, usage);
      Frames(PayloadsOf(id, created, model, chunks[..j]), codec)
      + Sent(Frames(PayloadsOf(id, created, model, [chunks[j]]), codec), fault)
        <= BodyOf(id, created, model, texts, usage, codec)
  {
    var chunks := Completion(texts, usage);
    var before, now, after := chunks[..j], [chunks[j]], chunks[j + 1..];
    assert chunks == before + (now + after);
    PayloadsSplit(id, created, model, before, now + after);
    PayloadsSplit(id, created, model, now, after);
    CutWrite(PayloadsOf(id, created, model, before), PayloadsOf(id, created, model, now),
             PayloadsOf(id, created, model, after), codec, fault);
  }

  lemma CutWrite(x: seq<Payload>, y: seq<Payload>, z: seq<Payload>, codec: Codec, fault: Option<nat>)
    ensures Frames(x, codec) + Sent(Frames(y, codec), fault) <= Frames(x + (y + z), codec) + Frame(DONE)
  {
    FramesSplit(x, y + z, codec);
    FramesSplit(y, z, codec);
    PrefixOf(Frames(x, codec), Sent(Frames(y, codec), fault), Frames(y, codec), Frames(z, codec), Frame(DONE),
             Frames(x + (y + z), codec));
  }

  lemma PrefixOf(a: string, part: string, b: string, c: string, d: string, whole: string)
    requires part <= b && whole == a + (b + c)
    ensures a + part <= whole + d
  {
  }

  // ---- Any stream at all --------------------------------------------------

  ghost predicate Faithful(p: Progress) {
    NonEmpty(p.chunks) && p.content == Concat(p.chunks)
  }

  lemma AbsorbKeeps(p: Progress, e: Event)
    requires Faithful(p)
    ensures Faithful(Absorb(p, e))
  {
    var q := Absorb(p, e);
    if ContentOf(e) != "" {
      assert q.chunks[..|q.chunks| - 1] == p.chunks;
    }
  }

  lemma StepKeeps(line: string, r: Reader, p: Progress)
    requires Faithful(p)
    ensures Faithful(Step(line, r, p).0)
  {
    var reading := Understand(line, r.codec);
    if reading.Got? {
      AbsorbKeeps(p, reading.event);
    }
  }

  /** Whatever comes in, the chunks handed over are non-empty and the content is their text. */
  lemma {:induction false} ConsumeKeeps(lines: seq<string>, r: Reader, p: Progress)
    requires Faithful(p)
    ensures Faithful(Consume(lines, r, p).0)
    decreases |lines|
  {
    if lines == [] {
    } else {
      StepKeeps(lines[0], r, p);
      ConsumeKeeps(lines[1..], r, Step(lines[0], r, p).0);
    }
  }

  /** A second proxy changes nothing: whatever stream was read to its end, relaying it as
      server-sent events and reading those gives the same chunks, content and usage. */
  lemma RelayIsTransparent(body: string, upstream: Reader, id: string, created: int, model: string, r: Reader)
    requires Sound(r.codec) && AcceptsAll(r)
    requires Received(body, upstream).Complete?
    requires var first := Received(body, upstream);
      AllFit(PayloadsOf(id, created, model, Completion(first.chunks, first.usage)), r.codec)
    ensures var first := Received(body, upstream);
      Received(BodyOf(id, created, model, first.chunks, first.usage, r.codec), r) == first
  {
    var first := Received(body, upstream);
    ConsumeKeeps(Lines(body), upstream, NOTHING);
    RoundTrip(id, created, model, first.chunks, first.usage, r);
  }
}
