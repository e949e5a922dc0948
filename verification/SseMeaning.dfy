/**
 How the stream reader takes a single line (internal/provider/client.go,
 chatOpenAICompatibleStream), whatever comes in.
 */
module SseMeaning {
  import opened Common
  import opened Sse

  ghost predicate Blank(s: string) {
    forall i :: 0 <= i < |s| ==> s[i] == ' ' || 9 <= s[i] as int <= 13
  }

  ghost predicate Bare(s: string) {
    s != "" ==> !Blank(s[..1]) && !Blank(s[|s| - 1..])
  }

  /** The text without the blanks around it. */
  ghost predicate Between(whole: string, before: string, text: string, after: string) {
    whole == before + text + after && Blank(before) && Blank(after) && Bare(text)
  }

  lemma {:induction false} LeftMeans(s: string) returns (before: string)
    ensures s == before + TrimLeft(s) && Blank(before) && (TrimLeft(s) != "" ==> !Blank(TrimLeft(s)[..1]))
    decreases |s|
  {
    if s == "" || !IsSpace(s[0]) {
      before := "";
      assert s == "" + s;
    } else {
      var rest := LeftMeans(s[1..]);
      before := [s[0]] + rest;
      assert s == [s[0]] + (rest + TrimLeft(s[1..])) == before + TrimLeft(s);
    }
  }

  lemma {:induction false} RightMeans(s: string) returns (after: string)
    ensures s == TrimRight(s) + after && Blank(after) && (TrimRight(s) != "" ==> !Blank(TrimRight(s)[|TrimRight(s)| - 1..]))
    decreases |s|
  {
    if s == "" || !IsSpace(s[|s| - 1]) {
      after := "";
      assert s == s + "";
    } else {
      var n := |s| - 1;
      var rest := RightMeans(s[..n]);
      after := rest + [s[n]];
      assert s == s[..n] + [s[n]] && s[..n] + [s[n]] == TrimRight(s) + after;
    }
  }

  lemma Sandwich(s: string, before: string, rest: string, text: string, after: string)
    requires s == before + rest && rest == text + after
    ensures s == before + text + after && (text != "" ==> text[..1] == rest[..1])
  {
  }

  /** Trimming takes away exactly the blanks around a text. */
  lemma TrimMeans(s: string) returns (before: string, after: string)
    ensures Between(s, before, Trim(s), after)
  {
    before := LeftMeans(s);
    after := RightMeans(TrimLeft(s));
    Sandwich(s, before, TrimLeft(s), Trim(s), after);
  }

  /** A line of 1048576 bytes or more is too long, and no other. */
  lemma LongMeans(line: string, r: Reader, p: Progress)
    ensures Step(line, r, p).1 == Some(LineTooLong) <==> |line| >= 1_048_576
    ensures |line| >= 1_048_576 ==> Step(line, r, p).0 == p
  {
  }

  /** What stands after "data:" is the event, "[DONE]" is the end, and everything else is passed over:
      other lines, and data that cannot be read. The reading stops when the handler refuses a chunk. */
  lemma LineMeans(line: string, r: Reader, p: Progress)
    requires |line| < 1_048_576
    ensures var text := Trim(line);
      var (q, stop) := Step(line, r, p);
      if |text| < 5 || text[..5] != "data:" then q == p && stop.None?
      else
        var data := Trim(text[5..]);
        && (data == "[DONE]" ==> q == p && stop == Some(Ended))
        && (data != "[DONE]" && r.codec.decode(data).None? ==> q == p && stop.None?)
        && (data != "[DONE]" && r.codec.decode(data).Some? ==>
              && q == Absorb(p, r.codec.decode(data).value)
              && stop == if q.chunks != p.chunks && !r.accepts(|p.chunks|) then Some(HandlerRefused) else None)
  {
    var text := Trim(line);
    if |text| >= 5 {
      assert "data:" <= text <==> text[..5] == "data:";
    }
  }

  /** An event hands over the text of its first choice, or its reasoning when it has no text, and
      replaces the usage when it reports one. */
  lemma EventMeans(p: Progress, e: Event)
    ensures var q := Absorb(p, e);
      && q.usage == (if e.usage.Some? then e.usage.value else p.usage)
      && (e.choices == [] ==> q.chunks == p.chunks && q.content == p.content)
      && (e.choices != [] ==>
            var first := e.choices[0];
            && (first.content != "" ==> q.chunks == p.chunks + [first.content] && q.content == p.content + first.content)
            && (first.content == "" && first.reasoning != "" ==>
                  q.chunks == p.chunks + [first.reasoning] && q.content == p.content + first.reasoning)
            && (first.content == "" && first.reasoning == "" ==> q.chunks == p.chunks && q.content == p.content))
  {
  }

  /** A reading is complete exactly when it came to its end and the handler took every chunk and the
      usage; otherwise what was handed over is told with the reason. */
  lemma CompleteMeans(body: string, r: Reader)
    ensures var (p, ending) := Consume(Lines(body), r, NOTHING);
      && (Received(body, r).Complete? <==> ending == Ended && r.accepts(|p.chunks|))
      && Received(body, r).chunks == p.chunks
      && (Received(body, r).Broken? ==> Received(body, r).why == if ending == Ended then HandlerRefused else ending)
  {
  }

  /** A write that fails after so many bytes sends exactly those. */
  lemma SentMeans(frame: string, n: nat)
    ensures Sent(frame, None) == frame
    ensures |Sent(frame, Some(n))| == (if n < |frame| then n else |frame|) && Sent(frame, Some(n)) <= frame
  {
  }

  /** The usage returned is the last one reported, with the sum of its parts for a missing total. */
  lemma UsageMeans(body: string, r: Reader)
    ensures var (p, ending) := Consume(Lines(body), r, NOTHING);
      Received(body, r).Complete? ==>
        var u := Received(body, r).usage;
        && u.prompt == p.usage.prompt && u.completion == p.usage.completion
        && u.total == (if p.usage.total != 0 then p.usage.total else u.prompt + u.completion)
        && Received(body, r).content == p.content && ending == Ended
  {
  }
}
