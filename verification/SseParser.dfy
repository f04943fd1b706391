/**
 The streaming parser of server-sent events: chunks are appended to a rest, complete lines are
 consumed, and what remains is consumed on Flush. JSON decoding and white-space trimming are
 parameters.
 */
module SseParser {
  import opened Prelude
  import opened TokenUsage

  newtype Byte = b: int | 0 <= b < 256
  type Bytes = seq<Byte>

  const NEWLINE: Byte := 10
  const CARRIAGE_RETURN: Byte := 13
  /** "data:" */
  const DATA: Bytes := [100, 97, 116, 97, 58]
  /** "[DONE]" */
  const DONE: Bytes := [91, 68, 79, 78, 69, 93]

  /** bytes.TrimSpace and parseJSONUsage. */
  datatype Codec = Codec(trim: Bytes -> Bytes, json: Bytes -> TokenUsage)

  /** The text before each newline. */
  function Lines(body: Bytes): seq<Bytes> {
    if NEWLINE !in body then []
    else
      var i := FirstNewline(body);
      [body[..i]] + Lines(body[i + 1..])
  }

  /** What follows the last newline. */
  function Rest(body: Bytes): Bytes {
    if NEWLINE !in body then body else Rest(body[FirstNewline(body) + 1..])
  }

  function FirstNewline(body: Bytes): (i: nat)
    requires NEWLINE in body
    ensures i < |body| && body[i] == NEWLINE && NEWLINE !in body[..i]
  {
    if body[0] == NEWLINE then 0
    else
      var i := 1 + FirstNewline(body[1..]);
      assert body[..i] == [body[0]] + body[1..][..i - 1];
      i
  }

  /** The lines of a whole body; a last line without a newline counts unless it is empty. */
  function BodyLines(body: Bytes): seq<Bytes> {
    Lines(body) + if Rest(body) == [] then [] else [Rest(body)]
  }

  function TrimRightCR(line: Bytes): Bytes {
    if line != [] && line[|line| - 1] == CARRIAGE_RETURN then TrimRightCR(line[..|line| - 1]) else line
  }

  /** The usage part a line carries, if it is a data line that is neither empty nor the end marker. */
  function PartOf(c: Codec, line: Bytes): Option<TokenUsage> {
    var l := TrimRightCR(line);
    if !(DATA <= l) then None
    else
      var data := c.trim(l[|DATA|..]);
      if data == [] || data == DONE then None else Some(c.json(data))
  }

  function PartsOf(c: Codec, lines: seq<Bytes>): seq<TokenUsage> {
    if lines == [] then []
    else
      PartsOf(c, lines[..|lines| - 1])
      + match PartOf(c, lines[|lines| - 1]) case None => [] case Some(part) => [part]
  }

  /** The usage of a whole body: its data lines' parts folded in order. */
  function UsageOf(c: Codec, body: Bytes): TokenUsage {
    Fold(PartsOf(c, BodyLines(body)))
  }

  // ---- What a line says ----

  lemma {:induction false} TrimIsPrefix(line: Bytes)
    ensures TrimRightCR(line) <= line
  {
    if line != [] && line[|line| - 1] == CARRIAGE_RETURN {
      TrimIsPrefix(line[..|line| - 1]);
    }
  }

  lemma {:induction false} TrimsEnds(x: Bytes, ends: Bytes)
    requires forall i :: 0 <= i < |ends| ==> ends[i] == 13
    requires x != [] ==> x[|x| - 1] != 13
    ensures TrimRightCR(x + ends) == x
    decreases |ends|
  {
    if ends == [] {
      assert x + ends == x;
    } else {
      assert (x + ends)[..|x + ends| - 1] == x + ends[..|ends| - 1];
      TrimsEnds(x, ends[..|ends| - 1]);
    }
  }

  /** "data:" and a payload, with any carriage returns after it, says what the trimmed payload decodes to; not if that is empty or [DONE]. */
  lemma DataLineReads(c: Codec, payload: Bytes, ends: Bytes)
    requires forall i :: 0 <= i < |ends| ==> ends[i] == 13
    requires payload != [] ==> payload[|payload| - 1] != 13
    ensures var data := c.trim(payload);
            PartOf(c, [100, 97, 116, 97, 58] + payload + ends) ==
              if data == [] || data == [91, 68, 79, 78, 69, 93] then None else Some(c.json(data))
  {
    var x := [100, 97, 116, 97, 58] + payload;
    TrimsEnds(x, ends);
    assert DATA <= x && x[|DATA|..] == payload;
  }

  /** No other line says anything. */
  lemma OtherLineSaysNothing(c: Codec, line: Bytes)
    requires !([100, 97, 116, 97, 58] <= line)
    ensures PartOf(c, line) == None
  {
    TrimIsPrefix(line);
  }

  // ---- How lines and parts behave under concatenation ----

  lemma LinesFrom(body: Bytes, i: nat)
    requires i < |body| && body[i] == NEWLINE && NEWLINE !in body[..i]
    ensures Lines(body) == [body[..i]] + Lines(body[i + 1..]) && Rest(body) == Rest(body[i + 1..])
  {
    FirstNewlineIs(body, i);
  }

  lemma {:induction false} RestAppend(a: Bytes, b: Bytes)
    ensures Rest(a + b) == Rest(Rest(a) + b)
    decreases |a|
  {
    if NEWLINE in a {
      var i := FirstNewline(a);
      var tail := a[i + 1..];
      assert (a + b)[i] == NEWLINE && (a + b)[..i] == a[..i] && (a + b)[i + 1..] == tail + b;
      LinesFrom(a, i);
      LinesFrom(a + b, i);
      RestAppend(tail, b);
    }
  }

  /** Cutting a body anywhere leaves the lines of the first part, then those of what remains of it joined with the second. */
  lemma {:induction false} LinesAppend(a: Bytes, b: Bytes)
    ensures Lines(a + b) == Lines(a) + Lines(Rest(a) + b)
    decreases |a|
  {
    if NEWLINE in a {
      var i := FirstNewline(a);
      var line, tail := a[..i], a[i + 1..];
      assert (a + b)[i] == NEWLINE && (a + b)[..i] == line && (a + b)[i + 1..] == tail + b;
      LinesFrom(a, i);
      LinesFrom(a + b, i);
      LinesAppend(tail, b);
      Regroup([line], Lines(tail), Lines(Rest(tail) + b));
    } else {
      assert [] + Lines(a + b) == Lines(a + b);
    }
  }

  lemma FirstNewlineIs(body: Bytes, i: nat)
    requires i < |body| && body[i] == NEWLINE && NEWLINE !in body[..i]
    ensures FirstNewline(body) == i
  {
    var j := FirstNewline(body);
    assert forall m :: 0 <= m < i ==> body[m] in body[..i];
    assert forall m :: 0 <= m < j ==> body[m] in body[..j];
  }

  /** Moving the first line of what is left over to what is consumed. */
  lemma LineStep(consumed: seq<Bytes>, left: Bytes, i: nat) returns (next: seq<Bytes>)
    requires i < |left| && left[i] == NEWLINE && NEWLINE !in left[..i]
    ensures next == consumed + [left[..i]]
    ensures consumed + Lines(left) == next + Lines(left[i + 1..]) && Rest(left) == Rest(left[i + 1..])
  {
    FirstNewlineIs(left, i);
    next := consumed + [left[..i]];
    assert Lines(left) == [left[..i]] + Lines(left[i + 1..]);
    assert consumed + ([left[..i]] + Lines(left[i + 1..])) == next + Lines(left[i + 1..]);
  }

  lemma {:induction false} RestHasNoNewline(body: Bytes)
    ensures NEWLINE !in Rest(body) && Rest(Rest(body)) == Rest(body)
    decreases |body|
  {
    if NEWLINE in body { RestHasNoNewline(body[FirstNewline(body) + 1..]); }
  }

  lemma {:induction false} PartsAppend(c: Codec, a: seq<Bytes>, b: seq<Bytes>)
    ensures PartsOf(c, a + b) == PartsOf(c, a) + PartsOf(c, b)
    decreases |b|
  {
    if b == [] {
      assert a + b == a;
    } else {
      assert (a + b)[..|a + b| - 1] == a + b[..|b| - 1];
      PartsAppend(c, a, b[..|b| - 1]);
    }
  }

  /** Consuming one more line merges its part, if it has one, into the usage so far. */
  lemma FoldLine(c: Codec, lines: seq<Bytes>, line: Bytes)
    ensures Fold(PartsOf(c, lines + [line])) ==
            match PartOf(c, line)
            case None => Fold(PartsOf(c, lines))
            case Some(part) => Merge([Fold(PartsOf(c, lines)), part])
  {
    assert (lines + [line])[..|lines|] == lines;
    var parts := PartsOf(c, lines);
    if PartOf(c, line).Some? {
      assert (parts + [PartOf(c, line).value])[..|parts|] == parts;
    } else {
      assert parts + [] == parts;
    }
  }

  lemma NewlineEndsRest(body: Bytes)
    ensures Rest(body + [NEWLINE]) == []
    ensures Lines(body + [NEWLINE]) == Lines(body) + [Rest(body)]
  {
    var r := Rest(body);
    RestHasNoNewline(body);
    LinesAppend(body, [NEWLINE]);
    RestAppend(body, [NEWLINE]);
    assert (r + [NEWLINE])[..|r|] == r && (r + [NEWLINE])[|r| + 1..] == [];
    LinesFrom(r + [NEWLINE], |r|);
    assert [r] + Lines([]) == [r];
  }

  lemma EmptyLineAddsNothing(c: Codec, lines: seq<Bytes>)
    ensures Fold(PartsOf(c, lines + [[]])) == Fold(PartsOf(c, lines))
  {
    assert !(DATA <= TrimRightCR([]));
    FoldLine(c, lines, []);
  }

  /** Ending a body with a newline changes nothing. */
  lemma NewlineAtEnd(c: Codec, body: Bytes)
    ensures UsageOf(c, body + [NEWLINE]) == UsageOf(c, body)
    ensures Rest(body + [NEWLINE]) == []
    ensures Lines(body + [NEWLINE]) == Lines(body) + [Rest(body)]
  {
    NewlineEndsRest(body);
    assert BodyLines(body + [NEWLINE]) == Lines(body) + [Rest(body)];
    if Rest(body) == [] {
      EmptyLineAddsNothing(c, Lines(body));
      assert BodyLines(body) == Lines(body);
    }
  }

  // ---- The parser ----

  class SseUsageParser {
    const codec: Codec
    var rest: Bytes
    var usage: TokenUsage
    ghost var fed: Bytes   // everything written, with a newline for each Flush that consumed a rest

    ghost predicate Valid()
      reads this
    {
      && rest == Rest(fed)
      && usage == Fold(PartsOf(codec, Lines(fed)))
    }

    constructor (codec: Codec)
      ensures Valid() && this.codec == codec && fed == []
    {
      this.codec := codec;
      rest, usage, fed := [], EMPTY, [];
    }

    method ConsumeLine(line: Bytes)
      modifies this`usage
      ensures usage == match PartOf(codec, line)
                       case None => old(usage)
                       case Some(part) => Merge([old(usage), part])
    {
      var l := TrimRightCR(line);
      if |l| < |DATA| || l[..|DATA|] != DATA { return; }
      var data := codec.trim(l[|DATA|..]);
      if |data| == 0 || data == DONE { return; }
      usage := MergeTokenUsage([usage, codec.json(data)]);
    }

    /** Any chunk, empty or not, cut anywhere. */
    method Write(chunk: Bytes)
      requires Valid()
      modifies this
      ensures Valid() && fed == old(fed) + chunk
    {
      if |chunk| == 0 {
        assert fed + chunk == fed;
        return;
      }
      LinesAppend(fed, chunk);
      RestAppend(fed, chunk);
      ghost var lines := Lines(fed);
      rest := rest + chunk;
      fed := fed + chunk;
      Drain(lines);
    }

    /** The loop of Write: consumes every complete line of the rest. */
    method Drain(ghost lines: seq<Bytes>)
      requires usage == Fold(PartsOf(codec, lines))
      modifies this`rest, this`usage
      ensures rest == Rest(old(rest)) && usage == Fold(PartsOf(codec, lines + Lines(old(rest))))
    {
      ghost var consumed, all, last := lines, lines + Lines(rest), Rest(rest);
      while true
        invariant all == consumed + Lines(rest) && last == Rest(rest)
        invariant usage == Fold(PartsOf(codec, consumed))
        decreases |rest|
      {
        var i := IndexByte(rest, NEWLINE);
        if i < 0 {
          assert Lines(rest) == [] && consumed + [] == consumed;
          return;
        }
        ghost var next := LineStep(consumed, rest, i);
        FoldLine(codec, consumed, rest[..i]);
        var line := rest[..i];
        rest := rest[i + 1..];
        ConsumeLine(line);
        consumed := next;
      }
    }

    /** Afterwards the usage is that of all bytes fed, as one body. */
    method Flush()
      requires Valid()
      modifies this
      ensures Valid() && usage == UsageOf(codec, old(fed)) == UsageOf(codec, fed)
      ensures fed == old(fed) || fed == old(fed) + [NEWLINE]
    {
      if |rest| == 0 {
        assert Lines(fed) + [] == Lines(fed);
        return;
      }
      NewlineAtEnd(codec, fed);
      FoldLine(codec, Lines(fed), rest);
      ConsumeLine(rest);
      rest := [];
      fed := fed + [NEWLINE];
    }
  }

  /** bytes.IndexByte */
  method IndexByte(s: Bytes, b: Byte) returns (i: int)
    ensures i < 0 ==> b !in s
    ensures i >= 0 ==> i < |s| && s[i] == b && b !in s[..i]
  {
    for j := 0 to |s|
      invariant b !in s[..j]
    {
      if s[j] == b { return j; }
    }
    return -1;
  }

  function Concat(chunks: seq<Bytes>): Bytes {
    if chunks == [] then [] else Concat(chunks[..|chunks| - 1]) + chunks[|chunks| - 1]
  }

  /** Writing a body in any chunks and flushing is parsing the body in one go. */
  method ParseChunks(codec: Codec, chunks: seq<Bytes>) returns (usage: TokenUsage)
    ensures usage == UsageOf(codec, Concat(chunks))
  {
    var parser := new SseUsageParser(codec);
    for i := 0 to |chunks|
      invariant parser.Valid() && parser.codec == codec && parser.fed == Concat(chunks[..i])
    {
      assert chunks[..i + 1][..i] == chunks[..i];
      parser.Write(chunks[i]);
    }
    assert chunks[..|chunks|] == chunks;
    parser.Flush();
    usage := parser.usage;
  }

  /** parseSSEUsage */
  method ParseSSEUsage(codec: Codec, body: Bytes) returns (usage: TokenUsage)
    ensures usage == UsageOf(codec, body)
  {
    var parser := new SseUsageParser(codec);
    parser.Write(body);
    assert parser.fed == body;
    parser.Flush();
    usage := parser.usage;
  }
}
