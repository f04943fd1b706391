/**
 The response capture: a buffer that keeps the beginning of the body, one that keeps its end, and
 the streaming usage parser, all fed the same chunks.
 */
module Capture {
  import opened Prelude
  import opened TokenUsage
  import opened SseParser

  function Min(a: int, b: int): int { if a < b then a else b }

  /** The first `max` bytes of a body, or all of it. */
  function First(body: Bytes, max: int): Bytes {
    if max <= 0 then [] else body[..Min(max, |body|)]
  }

  /** The last `max` bytes of a body, or all of it. */
  function LastBytes(body: Bytes, max: int): Bytes {
    if max <= 0 then [] else body[|body| - Min(max, |body|)..]
  }

  /** limitedBuffer: keeps the beginning. */
  class LimitedBuffer {
    var buf: Bytes
    var max: int
    var truncated: bool
    ghost var chunks: seq<Bytes>

    ghost predicate Valid()
      reads this
    {
      && buf == First(Concat(chunks), max)
      && (truncated <==> Cut(chunks, max))
    }

    constructor (max: int)
      ensures Valid() && this.max == max && chunks == []
    {
      this.max := max;
      buf, truncated, chunks := [], false, [];
    }

    method Write(p: Bytes)
      requires Valid()
      modifies this
      ensures Valid() && max == old(max) && chunks == old(chunks) + [p]
    {
      OneMoreChunk(chunks, p, max);
      chunks := chunks + [p];
      Append(p);
    }

    /** The buffer's own part of it. */
    method Append(p: Bytes)
      modifies this`buf, this`truncated
      ensures buf == Longer(old(buf), p, max)
      ensures truncated <==> old(truncated) || max <= |old(buf)| || |old(buf)| + |p| > max
    {
      if max <= 0 {
        truncated := true;
        return;
      }
      var remaining := max - |buf|;
      if remaining <= 0 {
        truncated := true;
        return;
      }
      if |p| > remaining {
        buf := buf + p[..remaining];
        truncated := true;
        return;
      }
      buf := buf + p;
    }
  }

  /** What is kept after one more chunk. */
  function Longer(kept: Bytes, p: Bytes, max: int): Bytes {
    if max <= |kept| then kept else kept + p[..Min(|p|, max - |kept|)]
  }

  lemma OneMoreChunk(chunks: seq<Bytes>, p: Bytes, max: int)
    ensures var kept := First(Concat(chunks), max);
            && First(Concat(chunks + [p]), max) == Longer(kept, p, max)
            && (Cut(chunks + [p], max) <==> Cut(chunks, max) || max <= |kept| || |kept| + |p| > max)
  {
    assert (chunks + [p])[..|chunks|] == chunks;
    CutAppend(chunks, p, max);
    FirstAppend(Concat(chunks), p, max);
  }

  /** The beginning of a longer body. */
  lemma FirstAppend(body: Bytes, p: Bytes, max: int)
    ensures First(body + p, max) == Longer(First(body, max), p, max)
  {
    if 0 < max {
      if max <= |body| {
        assert (body + p)[..max] == body[..max];
      } else {
        assert First(body, max) == body;
      }
    }
  }

  /**
   Something was left out: the body is longer than the limit, the limit is not positive, or a write
   (even an empty one) came when the buffer was already full.
   */
  ghost predicate Cut(chunks: seq<Bytes>, max: int) {
    || (max <= 0 && chunks != [])
    || (max > 0 && |Concat(chunks)| > max)
    || (max > 0 && exists i :: 0 <= i < |chunks| && chunks[i] == [] && |Concat(chunks[..i])| >= max)
  }

  lemma CutAppend(chunks: seq<Bytes>, p: Bytes, max: int)
    ensures Cut(chunks + [p], max) <==>
            max <= 0 || Cut(chunks, max) || |Concat(chunks)| >= max || |Concat(chunks)| + |p| > max
  {
    var more := chunks + [p];
    assert more[..|chunks|] == chunks;
    assert forall i :: 0 <= i < |chunks| ==> more[i] == chunks[i] && more[..i] == chunks[..i];
    if max > 0 && |Concat(chunks)| >= max && p == [] {
      assert more[|chunks|] == [];
    }
  }

  /** With a positive limit and no empty chunks, truncation is exactly a body longer than the limit. */
  lemma CutIffLonger(chunks: seq<Bytes>, max: int)
    requires max > 0 && forall i :: 0 <= i < |chunks| ==> chunks[i] != []
    ensures Cut(chunks, max) <==> |Concat(chunks)| > max
  {
  }

  lemma DropLess(body: Bytes, p: Bytes, from: nat)
    requires from <= |body|
    ensures (body + p)[from..] == body[from..] + p
  {
  }

  lemma DropTwice(body: Bytes, i: nat, j: nat)
    requires i + j <= |body|
    ensures body[i..][j..] == body[i + j..]
  {
  }

  lemma LastFrom(body: Bytes, max: int, from: nat)
    requires 0 < max && from == (if |body| <= max then 0 else |body| - max)
    ensures LastBytes(body, max) == body[from..]
  {
  }

  /** The end of a longer body. */
  lemma TailOfLonger(body: Bytes, p: Bytes, max: int, kept: Bytes)
    requires 0 < max && |p| < max && kept == LastBytes(body, max)
    ensures LastBytes(body + p, max) == (if |kept| + |p| > max then kept[|kept| + |p| - max..] else kept) + p
  {
    var length := |body| + |p|;
    var start, from := if |body| <= max then 0 else |body| - max, if length <= max then 0 else length - max;
    LastFrom(body, max, start);
    LastFrom(body + p, max, from);
    DropLess(body, p, from);
    DropTwice(body, start, from - start);
  }

  /** Of a chunk that fills the buffer alone. */
  lemma LastOfChunk(body: Bytes, p: Bytes, max: int)
    requires 0 < max <= |p|
    ensures LastBytes(body + p, max) == p[|p| - max..]
  {
    var whole := body + p;
    assert whole[|whole| - max..] == p[|p| - max..];
  }

  /** tailBuffer: keeps the end. */
  class TailBuffer {
    var buf: Bytes
    var max: int
    ghost var written: Bytes

    ghost predicate Valid()
      reads this
    {
      buf == LastBytes(written, max)
    }

    constructor (max: int)
      ensures Valid() && this.max == max && written == []
    {
      this.max := max;
      buf, written := [], [];
    }

    method Write(p: Bytes)
      requires Valid()
      modifies this
      ensures Valid() && max == old(max) && written == old(written) + p
    {
      ghost var was, kept := written, buf;
      written := written + p;
      if max <= 0 { return; }
      if |p| >= max {
        LastOfChunk(was, p, max);
        buf := p[|p| - max..];
        return;
      }
      TailOfLonger(was, p, max, kept);
      var need := |buf| + |p| - max;
      if need > 0 {
        buf := buf[need..];
      }
      buf := buf + p;
    }
  }

  /** What TokenUsage reports for a body, given the two limits. */
  function BodyUsage(c: Codec, body: Bytes, storedMax: int, tailMax: int): TokenUsage {
    Merge([UsageOf(c, body), c.json(First(body, storedMax)), c.json(LastBytes(body, tailMax)),
           UsageOf(c, LastBytes(body, tailMax))])
  }

  /** capturingResponseWriter */
  class CapturingWriter {
    const stored: LimitedBuffer
    const usage: SseUsageParser
    const tail: TailBuffer
    ghost var body: Bytes
    ghost var flushed: bool

    ghost predicate Valid()
      reads this, stored, usage, tail
    {
      && stored.Valid() && usage.Valid() && tail.Valid()
      && Concat(stored.chunks) == body && tail.written == body
      && UsageOf(usage.codec, usage.fed) == UsageOf(usage.codec, body)
      && (!flushed ==> usage.fed == body)
    }

    constructor (codec: Codec, max: int)
      ensures Valid() && !flushed && body == [] && usage.codec == codec
      ensures stored.max == (if max <= 0 then 0x10_0000 else max) && tail.max == 0x4_0000
      ensures stored.chunks == [] && fresh(stored) && fresh(usage) && fresh(tail)
    {
      stored := new LimitedBuffer(if max <= 0 then 0x10_0000 else max);
      usage := new SseUsageParser(codec);
      tail := new TailBuffer(0x4_0000);
      body, flushed := [], false;
    }

    /** capture: every sink sees every chunk. */
    method Capture(p: Bytes)
      requires Valid() && !flushed
      modifies this, stored, usage, tail
      ensures Valid() && !flushed && body == old(body) + p
      ensures stored.max == old(stored.max) && tail.max == old(tail.max)
      ensures stored.chunks == old(stored.chunks) + [p]
    {
      assert (stored.chunks + [p])[..|stored.chunks|] == stored.chunks;
      stored.Write(p);
      tail.Write(p);
      usage.Write(p);
      body := body + p;
    }

    /** TokenUsage: a function of the body alone, however it was cut, and the same when asked again. */
    method TokenUsage() returns (u: TokenUsage)
      requires Valid()
      modifies this`flushed, usage
      ensures Valid() && body == old(body)
      ensures u == BodyUsage(usage.codec, body, stored.max, tail.max)
      ensures ReportsLast(u, [UsageOf(usage.codec, body), usage.codec.json(First(body, stored.max)),
                              usage.codec.json(LastBytes(body, tail.max)), UsageOf(usage.codec, LastBytes(body, tail.max))])
    {
      flushed := true;
      FlushUsage();
      var fromTail := ParseSSEUsage(usage.codec, tail.buf);
      u := MergeFour(usage.usage, usage.codec.json(stored.buf), usage.codec.json(tail.buf), fromTail);
    }

    /** Flushing leaves the usage of the body, and does so again if repeated. */
    method FlushUsage()
      requires Valid() && flushed
      modifies usage
      ensures Valid() && usage.usage == UsageOf(usage.codec, body)
    {
      NewlineAtEnd(usage.codec, usage.fed);
      usage.Flush();
    }
  }

  /** The merge of the four sources, in TokenUsage's order. */
  method MergeFour(streamed: TokenUsage, stored: TokenUsage, tail: TokenUsage, tailStream: TokenUsage)
    returns (u: TokenUsage)
    ensures u == Merge([streamed, stored, tail, tailStream]) && ReportsLast(u, [streamed, stored, tail, tailStream])
  {
    MergeReportsLast([streamed, stored, tail, tailStream]);
    u := MergeTokenUsage([streamed, stored, tail, tailStream]);
  }

  /** A writer that has seen just these chunks. */
  ghost predicate Seen(w: CapturingWriter, codec: Codec, max: int, chunks: seq<Bytes>)
    reads w, w.stored, w.usage, w.tail
  {
    && w.Valid() && !w.flushed && w.body == Concat(chunks) && w.stored.chunks == chunks && w.usage.codec == codec
    && w.stored.max == (if max <= 0 then 0x10_0000 else max) && w.tail.max == 0x4_0000
  }

  method CaptureNext(w: CapturingWriter, codec: Codec, max: int, ghost done: seq<Bytes>, chunk: Bytes)
    requires Seen(w, codec, max, done)
    modifies w, w.stored, w.usage, w.tail
    ensures Seen(w, codec, max, done + [chunk])
  {
    assert (done + [chunk])[..|done|] == done;
    w.Capture(chunk);
  }

  /** The chunks from the i-th on. */
  method CaptureFrom(w: CapturingWriter, codec: Codec, max: int, chunks: seq<Bytes>, i: nat)
    requires i <= |chunks| && Seen(w, codec, max, chunks[..i])
    modifies w, w.stored, w.usage, w.tail
    ensures Seen(w, codec, max, chunks)
    decreases |chunks| - i
  {
    if i == |chunks| {
      assert chunks[..i] == chunks;
    } else {
      assert chunks[..i + 1] == chunks[..i] + [chunks[i]];
      CaptureNext(w, codec, max, chunks[..i], chunks[i]);
      CaptureFrom(w, codec, max, chunks, i + 1);
    }
  }

  /** A new writer that has seen the chunks in turn. */
  method CaptureAll(codec: Codec, max: int, chunks: seq<Bytes>) returns (w: CapturingWriter)
    ensures fresh(w) && fresh(w.stored) && fresh(w.usage) && fresh(w.tail) && Seen(w, codec, max, chunks)
  {
    w := new CapturingWriter(codec, max);
    CaptureFrom(w, codec, max, chunks, 0);
  }

  /** No line of the body is a data line. */
  ghost predicate NoDataLines(body: Bytes) {
    forall i :: 0 <= i < |BodyLines(body)| ==> !(DATA <= BodyLines(body)[i])
  }

  lemma {:induction false} NoParts(c: Codec, lines: seq<Bytes>)
    requires forall i :: 0 <= i < |lines| ==> !(DATA <= lines[i])
    ensures PartsOf(c, lines) == []
  {
    if lines != [] {
      NoParts(c, lines[..|lines| - 1]);
      TrimIsPrefix(lines[|lines| - 1]);
    }
  }

  /** Of four values of which the outer ones are missing and the inner ones agree. */
  lemma LastOfInner<T>(x: Option<T>)
    ensures var none: Option<T> := None; Last([none, x, x, none]) == x
  {
    var none: Option<T> := None;
    var one, two, three, four := [none], [none, x], [none, x, x], [none, x, x, none];
    assert one[..0] == [] && two[..1] == one && three[..2] == two && four[..3] == three;
    assert Last(one) == none;
    assert Last(two) == x;
    assert Last(three) == x;
  }

  lemma LastModelOfInner(x: string)
    ensures LastNonEmpty(["", x, x, ""]) == x
  {
    var xs := ["", x, x, ""];
    assert xs[..3] == ["", x, x] && xs[..3][..2] == ["", x] && xs[..3][..2][..1] == [""] && [""][..0] == [];
    assert LastNonEmpty([""]) == "" && LastNonEmpty(["", x]) == x;
  }

  /**
   A response that is no event stream and fits both buffers is reported as its JSON document says, with the total
   derived if it is missing.
   */
  lemma JsonReport(c: Codec, body: Bytes, storedMax: int, tailMax: int, u: TokenUsage)
    requires NoDataLines(body) && |body| <= storedMax && |body| <= tailMax
    requires ReportsLast(u, [UsageOf(c, body), c.json(First(body, storedMax)), c.json(LastBytes(body, tailMax)),
                             UsageOf(c, LastBytes(body, tailMax))])
    ensures u == WithTotal(c.json(body))
  {
    NothingStreamed(c, body);
    ShortBodyKept(body, storedMax);
    ShortBodyKept(body, tailMax);
    InnerReport(c.json(body), u, UsageOf(c, body), c.json(First(body, storedMax)), c.json(LastBytes(body, tailMax)), UsageOf(c, LastBytes(body, tailMax)));
  }

  lemma NothingStreamed(c: Codec, body: Bytes)
    requires NoDataLines(body)
    ensures UsageOf(c, body) == EMPTY
  {
    NoParts(c, BodyLines(body));
  }

  lemma ShortBodyKept(body: Bytes, max: int)
    requires |body| <= max
    ensures First(body, max) == body && LastBytes(body, max) == body
  {
  }

  lemma InnerReport(j: TokenUsage, u: TokenUsage, streamed: TokenUsage, first: TokenUsage, last: TokenUsage, tail: TokenUsage)
    requires ReportsLast(u, [streamed, first, last, tail]) && streamed == tail == EMPTY && first == last == j
    ensures u == WithTotal(j)
  {
    var parts := [streamed, first, last, tail];
    assert Models(parts) == ["", j.model, j.model, ""];
    assert Inputs(parts) == [None, j.input, j.input, None] && Outputs(parts) == [None, j.output, j.output, None];
    assert CacheReads(parts) == [None, j.cacheRead, j.cacheRead, None];
    assert CacheCreations(parts) == [None, j.cacheCreation, j.cacheCreation, None];
    assert Totals(parts) == [None, j.total, j.total, None];
    LastModelOfInner(j.model);
    LastOfInner(j.input);
    LastOfInner(j.output);
    LastOfInner(j.cacheRead);
    LastOfInner(j.cacheCreation);
    LastOfInner(j.total);
  }

  /** A whole response: any chunks, one report. */
  method Report(codec: Codec, max: int, chunks: seq<Bytes>) returns (u: TokenUsage, kept: Bytes, truncated: bool)
    ensures var limit := if max <= 0 then 0x10_0000 else max;
            && u == BodyUsage(codec, Concat(chunks), limit, 0x4_0000)
            && ReportsLast(u, [UsageOf(codec, Concat(chunks)), codec.json(First(Concat(chunks), limit)),
                               codec.json(LastBytes(Concat(chunks), 0x4_0000)), UsageOf(codec, LastBytes(Concat(chunks), 0x4_0000))])
            && (NoDataLines(Concat(chunks)) && |Concat(chunks)| <= limit && |Concat(chunks)| <= 0x4_0000 ==>
                  u == WithTotal(codec.json(Concat(chunks))))
            && kept == First(Concat(chunks), limit)
            && kept <= Concat(chunks) && |kept| == (if |Concat(chunks)| <= limit then |Concat(chunks)| else limit)
            && (truncated <==> Cut(chunks, limit))
  {
    var w := CaptureAll(codec, max, chunks);
    u := w.TokenUsage();
    if NoDataLines(Concat(chunks)) && |Concat(chunks)| <= w.stored.max && |Concat(chunks)| <= 0x4_0000 {
      JsonReport(codec, Concat(chunks), w.stored.max, 0x4_0000, u);
    }
    kept, truncated := w.stored.buf, w.stored.truncated;
  }

  /** For a body within the tail limit the tail's parse is the streamed parse. */
  lemma ShortBodyTailParse(c: Codec, body: Bytes, tailMax: int)
    requires 0 < tailMax && |body| <= tailMax
    ensures LastBytes(body, tailMax) == body
    ensures UsageOf(c, LastBytes(body, tailMax)) == UsageOf(c, body)
  {
    assert LastBytes(body, tailMax) == body;
  }

  /**
   For an event stream within the tail limit that is no JSON document itself, the report is exactly
   the streamed usage: the later sources neither add to it nor derive another total.
   */
  lemma StreamReport(c: Codec, body: Bytes, storedMax: int, tailMax: int)
    requires 0 < tailMax && |body| <= tailMax
    requires c.json(First(body, storedMax)) == EMPTY && c.json(body) == EMPTY
    ensures BodyUsage(c, body, storedMax, tailMax) == UsageOf(c, body)
  {
    ShortBodyTailParse(c, body, tailMax);
    FoldIsComplete(PartsOf(c, BodyLines(body)));
    MergeWithTail(UsageOf(c, body), UsageOf(c, body));
  }

  /** The kept end of a line that began before the tail; empty if the tail begins with a line. */
  function CutLine(head: Bytes, tail: Bytes): Bytes {
    if Rest(head) == [] then [] else if NEWLINE in tail then tail[..FirstNewline(tail)] else tail
  }

  /** What follows it: the lines the tail holds whole. */
  function WholeLines(head: Bytes, tail: Bytes): Bytes {
    if Rest(head) == [] then tail else if NEWLINE in tail then tail[FirstNewline(tail) + 1..] else []
  }

  function AsParts(part: Option<TokenUsage>): seq<TokenUsage> {
    match part
    case None => []
    case Some(p) => [p]
  }

  predicate AddsNothing(part: Option<TokenUsage>) { part == None || part == Some(EMPTY) }

  /** The parts of the lines the tail holds whole. */
  function TailParts(c: Codec, body: Bytes, tailMax: int): seq<TokenUsage>
    requires 0 <= tailMax <= |body|
  {
    PartsOf(c, BodyLines(WholeLines(body[..|body| - tailMax], body[|body| - tailMax..])))
  }

  /** What the kept end of a cut line reads as. */
  function CutPart(c: Codec, body: Bytes, tailMax: int): Option<TokenUsage>
    requires 0 <= tailMax <= |body|
  {
    PartOf(c, CutLine(body[..|body| - tailMax], body[|body| - tailMax..]))
  }

  /**
   For an event stream at least as long as the tail, where the kept end of a cut line adds no usage: model and counts
   of the report are the streamed ones. The total is the one the tail derives if the tail reports both counts and
   carries no total, else the streamed one.
   */
  lemma LongStreamReport(c: Codec, body: Bytes, storedMax: int, tailMax: int)
    requires 0 < tailMax <= |body| && AddsNothing(CutPart(c, body, tailMax))
    requires c.json(First(body, storedMax)) == EMPTY && c.json(LastBytes(body, tailMax)) == EMPTY
    ensures var report, streamed, q := BodyUsage(c, body, storedMax, tailMax), UsageOf(c, body), TailParts(c, body, tailMax);
            && report == streamed.(total := report.total)
            && report.total == (if Last(Totals(q)).None? && DerivedTotal(q).Some? then DerivedTotal(q) else streamed.total)
            && (report == streamed <==>
                  Last(Totals(q)).Some? || DerivedTotal(q).None? || DerivedTotal(q) == StreamTotal(PartsOf(c, BodyLines(body))))
  {
    CutAtTail(body, tailMax);
    ReportOfParts(c, body[..|body| - tailMax], body[|body| - tailMax..], body, storedMax, tailMax);
  }

  lemma CutAtTail(body: Bytes, tailMax: int)
    requires 0 < tailMax <= |body|
    ensures body == body[..|body| - tailMax] + body[|body| - tailMax..] && LastBytes(body, tailMax) == body[|body| - tailMax..]
  {
  }

  lemma ReportOfParts(c: Codec, head: Bytes, tail: Bytes, body: Bytes, storedMax: int, tailMax: int)
    requires body == head + tail && LastBytes(body, tailMax) == tail && AddsNothing(PartOf(c, CutLine(head, tail)))
    requires c.json(First(body, storedMax)) == EMPTY && c.json(tail) == EMPTY
    ensures var report, streamed, q := BodyUsage(c, body, storedMax, tailMax), UsageOf(c, body), PartsOf(c, BodyLines(WholeLines(head, tail)));
            && report == streamed.(total := report.total)
            && report.total == (if Last(Totals(q)).None? && DerivedTotal(q).Some? then DerivedTotal(q) else streamed.total)
            && (report == streamed <==>
                  Last(Totals(q)).Some? || DerivedTotal(q).None? || DerivedTotal(q) == StreamTotal(PartsOf(c, BodyLines(body))))
  {
    var before := SplitAtTail(c, head, tail);
    TailUsage(c, head, tail);
    ReportWithTail(c, body, storedMax, tailMax, before, PartsOf(c, BodyLines(WholeLines(head, tail))));
  }

  lemma ReportWithTail(c: Codec, body: Bytes, storedMax: int, tailMax: int, before: seq<TokenUsage>, q: seq<TokenUsage>)
    requires c.json(First(body, storedMax)) == EMPTY && c.json(LastBytes(body, tailMax)) == EMPTY
    requires PartsOf(c, BodyLines(body)) == before + q && UsageOf(c, LastBytes(body, tailMax)) == Fold(q)
    ensures var report, streamed := BodyUsage(c, body, storedMax, tailMax), UsageOf(c, body);
            && report == streamed.(total := report.total)
            && report.total == (if Last(Totals(q)).None? && DerivedTotal(q).Some? then DerivedTotal(q) else streamed.total)
            && (report == streamed <==>
                  Last(Totals(q)).Some? || DerivedTotal(q).None? || DerivedTotal(q) == StreamTotal(before + q))
  {
    FoldTotal(before + q);
    FoldIsComplete(before + q);
    RefoldedCounts(before, q);
    RefoldedTotal(before, q);
    MergeWithTail(Fold(before + q), Fold(q));
  }

  /** The parts of a body cut anywhere: those of the lines the tail holds whole come last. */
  lemma SplitAtTail(c: Codec, head: Bytes, tail: Bytes) returns (before: seq<TokenUsage>)
    ensures PartsOf(c, BodyLines(head + tail)) == before + PartsOf(c, BodyLines(WholeLines(head, tail)))
  {
    if Rest(head) == [] {
      TailAtLine(c, head, tail);
      before := PartsOf(c, Lines(head));
    } else if NEWLINE in tail {
      var i := FirstNewline(tail);
      assert tail == tail[..i] + [NEWLINE] + tail[i + 1..];
      TailInLine(c, head, tail[..i], tail[i + 1..]);
      before := PartsOf(c, Lines(head + tail[..i] + [NEWLINE]));
    } else {
      before := PartsOf(c, BodyLines(head + tail));
      assert before + [] == before;
    }
  }

  /** The tail's own usage is that of the lines it holds whole. */
  lemma TailUsage(c: Codec, head: Bytes, tail: Bytes)
    requires AddsNothing(PartOf(c, CutLine(head, tail)))
    ensures UsageOf(c, tail) == UsageOf(c, WholeLines(head, tail))
  {
    if Rest(head) != [] {
      CutLineFirst(c, CutLine(head, tail), tail);
      var q := PartsOf(c, BodyLines(WholeLines(head, tail)));
      if PartOf(c, CutLine(head, tail)).Some? { FoldEmptyFirst(q); } else { assert [] + q == q; }
    }
  }

  /** The tail's parts, when it begins inside a line. */
  lemma CutLineFirst(c: Codec, cut: Bytes, tail: Bytes)
    requires cut == if NEWLINE in tail then tail[..FirstNewline(tail)] else tail
    ensures PartsOf(c, BodyLines(tail)) ==
            AsParts(PartOf(c, cut)) + PartsOf(c, BodyLines(if NEWLINE in tail then tail[FirstNewline(tail) + 1..] else []))
  {
    if NEWLINE in tail {
      assert tail == cut + [NEWLINE] + tail[|cut| + 1..];
      FirstLine(c, cut, tail[|cut| + 1..]);
    } else {
      NoNewline(tail);
      OneLine(c, tail);
      EmptyLineHasNoPart(c);
      assert tail != [] ==> BodyLines(tail) == [tail];
    }
  }

  lemma {:induction false} FoldEmptyFirst(q: seq<TokenUsage>)
    ensures Fold([EMPTY] + q) == Fold(q)
    decreases |q|
  {
    FoldStep([EMPTY] + q);
    if q == [] {
      assert [EMPTY] + q == [EMPTY];
    } else {
      assert ([EMPTY] + q)[..|q|] == [EMPTY] + q[..|q| - 1];
      FoldEmptyFirst(q[..|q| - 1]);
      FoldStep(q);
    }
  }

  /** The tail begins with a line: its parts are the last parts of the body. */
  lemma TailAtLine(c: Codec, head: Bytes, tail: Bytes)
    requires Rest(head) == []
    ensures PartsOf(c, BodyLines(head + tail)) == PartsOf(c, Lines(head)) + PartsOf(c, BodyLines(tail))
  {
    BodyLinesAppend(head, tail);
    PartsAppend(c, Lines(head), BodyLines(tail));
  }

  /** The tail begins inside a line, of which it keeps `cut`: the parts of what follows are the last parts of the body. */
  lemma TailInLine(c: Codec, head: Bytes, cut: Bytes, tail: Bytes)
    requires NEWLINE !in cut
    ensures PartsOf(c, BodyLines(head + (cut + [NEWLINE] + tail))) ==
            PartsOf(c, Lines(head + cut + [NEWLINE])) + PartsOf(c, BodyLines(tail))
  {
    CompleteLines(c, head + cut, tail);
    Regroup(head, cut, [NEWLINE]);
    Regroup(head, cut + [NEWLINE], tail);
  }

  lemma CompleteLines(c: Codec, lines: Bytes, rest: Bytes)
    ensures PartsOf(c, BodyLines(lines + [NEWLINE] + rest)) == PartsOf(c, Lines(lines + [NEWLINE])) + PartsOf(c, BodyLines(rest))
  {
    NewlineEndsRest(lines);
    TailAtLine(c, lines + [NEWLINE], rest);
  }

  /** A first line on its own. */
  lemma FirstLine(c: Codec, line: Bytes, rest: Bytes)
    requires NEWLINE !in line
    ensures PartsOf(c, BodyLines(line + [NEWLINE] + rest)) ==
            AsParts(PartOf(c, line)) + PartsOf(c, BodyLines(rest))
  {
    NoNewline(line);
    NewlineEndsRest(line);
    CompleteLines(c, line, rest);
    assert Lines(line) + [Rest(line)] == [line];
    OneLine(c, line);
  }

  lemma OneLine(c: Codec, line: Bytes)
    ensures PartsOf(c, [line]) == AsParts(PartOf(c, line))
  {
    assert [line][..0] == [];
  }

  lemma BodyLinesAppend(a: Bytes, b: Bytes)
    requires Rest(a) == []
    ensures BodyLines(a + b) == Lines(a) + BodyLines(b)
  {
    LinesAppend(a, b);
    RestAppend(a, b);
    assert Rest(a) + b == b;
  }

  /** A stream of two usage events, of which the tail holds the second: the total reported is not the streamed one. */
  lemma TailDerivesAnotherTotal(c: Codec, one: Bytes, two: Bytes, storedMax: int)
    requires NEWLINE !in one && NEWLINE !in two
    requires PartOf(c, one) == Some(EMPTY.(input := Some(10), output := Some(1)))
    requires PartOf(c, two) == Some(EMPTY.(input := Some(10), output := Some(50)))
    requires var body := one + [NEWLINE] + two; c.json(First(body, storedMax)) == EMPTY && c.json(two) == EMPTY
    ensures var body := one + [NEWLINE] + two;
            UsageOf(c, body).total == Some(11) && BodyUsage(c, body, storedMax, |two|).total == Some(60)
  {
    var body := one + [NEWLINE] + two;
    var a, b := PartOf(c, one).value, PartOf(c, two).value;
    FirstLine(c, one, two);
    LastLine(c, two);
    NewlineEndsRest(one);
    assert body[..|body| - |two|] == one + [NEWLINE] && body[|body| - |two|..] == two && LastBytes(body, |two|) == two;
    EmptyLineHasNoPart(c);
    LongStreamReport(c, body, storedMax, |two|);
    TwoEventTotals(a, b);
    FoldTotal([a] + [b]);
  }

  lemma EmptyLineHasNoPart(c: Codec)
    ensures PartOf(c, []) == None
  {
    assert !(DATA <= TrimRightCR([]));
  }

  lemma LastLine(c: Codec, line: Bytes)
    requires NEWLINE !in line && PartOf(c, line).Some?
    ensures line != [] && PartsOf(c, BodyLines(line)) == [PartOf(c, line).value]
  {
    NoNewline(line);
    OneLine(c, line);
    EmptyLineHasNoPart(c);
    assert BodyLines(line) == [line];
  }

  lemma NoNewline(line: Bytes)
    requires NEWLINE !in line
    ensures Lines(line) == [] && Rest(line) == line
  {
  }

  lemma TwoEventTotals(a: TokenUsage, b: TokenUsage)
    requires a == EMPTY.(input := Some(10), output := Some(1)) && b == EMPTY.(input := Some(10), output := Some(50))
    ensures StreamTotal([a] + [b]) == Some(11) && Last(Totals([b])).None? && DerivedTotal([b]) == Some(60)
  {
    OneEventTotal(a);
    OneEventTotal(b);
    ColumnsAppend([a], [b]);
    LastAppend(Totals([a]), Totals([b]));
    assert ([a] + [b])[..1] == [a];
  }

  lemma OneEventTotal(a: TokenUsage)
    requires a.input.Some? && a.output.Some?
    ensures Last(Totals([a])) == a.total && DerivedTotal([a]) == Some(AddInt64(a.input.value, a.output.value))
  {
    assert [a][..0] == [];
    assert Inputs([a]) == [a.input] && Outputs([a]) == [a.output] && Totals([a]) == [a.total];
    OneValue(a.input);
    OneValue(a.output);
    OneValue(a.total);
  }

  lemma OneValue(x: Option<int>)
    ensures Last([x]) == x
  {
    assert [x][..0] == [];
  }

  lemma OverrideOne(out: seq<TokenUsage>, part: TokenUsage)
    ensures OverrideAll(out + [part]) == Override(OverrideAll(out), part)
  {
    assert (out + [part])[..|out|] == out;
  }

  lemma OverrideFirst(u: TokenUsage)
    ensures OverrideAll([u]) == u
  {
    OverrideOne([], u);
    assert [] + [u] == [u];
  }

  lemma OverrideEmpty(out: seq<TokenUsage>)
    ensures OverrideAll(out + [EMPTY]) == OverrideAll(out)
  {
    OverrideOne(out, EMPTY);
  }

  lemma MergeWithTail(u: TokenUsage, v: TokenUsage)
    ensures Merge([u, EMPTY, EMPTY, v]) == WithTotal(Override(u, v))
  {
    OverrideFirst(u);
    OverrideEmpty([u]);
    OverrideEmpty([u] + [EMPTY]);
    OverrideOne([u] + [EMPTY] + [EMPTY], v);
    assert [u] + [EMPTY] + [EMPTY] + [v] == [u, EMPTY, EMPTY, v];
  }

  /** A folded usage never lacks a total it could derive. */
  lemma FoldIsComplete(parts: seq<TokenUsage>)
    ensures WithTotal(Fold(parts)) == Fold(parts)
  {
  }
}
