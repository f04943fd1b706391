/**
 Token usage records, how parts of them are merged, and how they are read out of a decoded JSON
 object. Counts are Go int64 values; sums wrap around.
 */
module TokenUsage {
  import opened Prelude

  datatype TokenUsage = TokenUsage(model: string, input: Option<int>, output: Option<int>,
                                   cacheRead: Option<int>, cacheCreation: Option<int>, total: Option<int>)

  const EMPTY := TokenUsage("", None, None, None, None, None)

  const TWO_TO_THE_63 := 0x8000_0000_0000_0000
  const TWO_TO_THE_64 := 0x1_0000_0000_0000_0000

  /** int64 addition. */
  function AddInt64(a: int, b: int): int {
    (a + b + TWO_TO_THE_63) % TWO_TO_THE_64 - TWO_TO_THE_63
  }

  function Later<T>(earlier: Option<T>, later: Option<T>): Option<T> {
    if later.Some? then later else earlier
  }

  function Override(out: TokenUsage, part: TokenUsage): TokenUsage {
    TokenUsage(if part.model != "" then part.model else out.model,
               Later(out.input, part.input), Later(out.output, part.output),
               Later(out.cacheRead, part.cacheRead), Later(out.cacheCreation, part.cacheCreation),
               Later(out.total, part.total))
  }

  function OverrideAll(parts: seq<TokenUsage>): TokenUsage {
    if parts == [] then EMPTY else Override(OverrideAll(parts[..|parts| - 1]), parts[|parts| - 1])
  }

  /** A missing total is filled in when input and output are both known. */
  function WithTotal(u: TokenUsage): TokenUsage {
    if u.total.None? && u.input.Some? && u.output.Some?
    then u.(total := Some(AddInt64(u.input.value, u.output.value)))
    else u
  }

  /** mergeTokenUsage */
  function Merge(parts: seq<TokenUsage>): TokenUsage { WithTotal(OverrideAll(parts)) }

  method MergeTokenUsage(parts: seq<TokenUsage>) returns (out: TokenUsage)
    ensures out == Merge(parts)
  {
    out := EMPTY;
    for i := 0 to |parts|
      invariant out == OverrideAll(parts[..i])
    {
      var part := parts[i];
      if part.model != "" { out := out.(model := part.model); }
      if part.input.Some? { out := out.(input := part.input); }
      if part.output.Some? { out := out.(output := part.output); }
      if part.cacheRead.Some? { out := out.(cacheRead := part.cacheRead); }
      if part.cacheCreation.Some? { out := out.(cacheCreation := part.cacheCreation); }
      if part.total.Some? { out := out.(total := part.total); }
      assert parts[..i + 1][..i] == parts[..i];
    }
    assert parts[..|parts|] == parts;
    if out.total.None? && out.input.Some? && out.output.Some? {
      var total := AddInt64(out.input.value, out.output.value);
      out := out.(total := Some(total));
    }
  }

  // ---- Folding parts one at a time, as a stream does ----

  function Fold(parts: seq<TokenUsage>): TokenUsage {
    if parts == [] then EMPTY else Merge([Fold(parts[..|parts| - 1]), parts[|parts| - 1]])
  }

  /** The last value reported. */
  function Last<T>(xs: seq<Option<T>>): Option<T> {
    if xs == [] then None else Later(Last(xs[..|xs| - 1]), xs[|xs| - 1])
  }

  function LastNonEmpty(xs: seq<string>): string {
    if xs == [] then "" else if xs[|xs| - 1] != "" then xs[|xs| - 1] else LastNonEmpty(xs[..|xs| - 1])
  }

  function Models(parts: seq<TokenUsage>): seq<string> { seq(|parts|, i requires 0 <= i < |parts| => parts[i].model) }
  function Inputs(parts: seq<TokenUsage>): seq<Option<int>> { seq(|parts|, i requires 0 <= i < |parts| => parts[i].input) }
  function Outputs(parts: seq<TokenUsage>): seq<Option<int>> { seq(|parts|, i requires 0 <= i < |parts| => parts[i].output) }
  function CacheReads(parts: seq<TokenUsage>): seq<Option<int>> { seq(|parts|, i requires 0 <= i < |parts| => parts[i].cacheRead) }
  function CacheCreations(parts: seq<TokenUsage>): seq<Option<int>> { seq(|parts|, i requires 0 <= i < |parts| => parts[i].cacheCreation) }
  function Totals(parts: seq<TokenUsage>): seq<Option<int>> { seq(|parts|, i requires 0 <= i < |parts| => parts[i].total) }

  /** Input and output have both been reported by the first `k` parts. */
  predicate BothKnown(parts: seq<TokenUsage>, k: nat)
    requires k <= |parts|
  {
    Last(Inputs(parts)[..k]).Some? && Last(Outputs(parts)[..k]).Some?
  }

  lemma PrefixColumns(parts: seq<TokenUsage>, k: nat)
    requires k <= |parts|
    ensures Models(parts[..k]) == Models(parts)[..k]
    ensures Inputs(parts[..k]) == Inputs(parts)[..k] && Outputs(parts[..k]) == Outputs(parts)[..k]
    ensures CacheReads(parts[..k]) == CacheReads(parts)[..k] && CacheCreations(parts[..k]) == CacheCreations(parts)[..k]
    ensures Totals(parts[..k]) == Totals(parts)[..k]
  {
  }

  lemma FoldStep(parts: seq<TokenUsage>)
    requires parts != []
    ensures Fold(parts) == WithTotal(Override(Fold(parts[..|parts| - 1]), parts[|parts| - 1]))
  {
    var a, b := Fold(parts[..|parts| - 1]), parts[|parts| - 1];
    assert [a, b][..1] == [a] && [a][..0] == [];
    assert OverrideAll([a]) == a;
  }

  /** Model and the four raw counts are the last ones reported. */
  lemma {:induction false} FoldKeepsLastReported(parts: seq<TokenUsage>)
    ensures Fold(parts).model == LastNonEmpty(Models(parts))
    ensures Fold(parts).input == Last(Inputs(parts)) && Fold(parts).output == Last(Outputs(parts))
    ensures Fold(parts).cacheRead == Last(CacheReads(parts)) && Fold(parts).cacheCreation == Last(CacheCreations(parts))
  {
    if parts != [] {
      var n := |parts| - 1;
      FoldKeepsLastReported(parts[..n]);
      PrefixColumns(parts, n);
      FoldStep(parts);
    }
  }

  /** If any part carries a total, the last carried total is the result, whatever was derived before. */
  lemma {:induction false} FoldCarriedTotal(parts: seq<TokenUsage>)
    requires Last(Totals(parts)).Some?
    ensures Fold(parts).total == Last(Totals(parts))
  {
    var n := |parts| - 1;
    PrefixColumns(parts, n);
    FoldStep(parts);
    if parts[n].total.None? {
      FoldCarriedTotal(parts[..n]);
    }
  }

  /** With no total carried there is none as long as input or output is missing. */
  lemma {:induction false} FoldNoTotal(parts: seq<TokenUsage>)
    requires Last(Totals(parts)).None? && !BothKnown(parts, |parts|)
    ensures Fold(parts).total == None
  {
    if parts != [] {
      var n := |parts| - 1;
      PrefixColumns(parts, n);
      FoldStep(parts);
      FoldKeepsLastReported(parts);
      assert Inputs(parts)[..|parts|] == Inputs(parts) && Outputs(parts)[..|parts|] == Outputs(parts);
      assert Inputs(parts[..n])[..n] == Inputs(parts)[..n] && Outputs(parts[..n])[..n] == Outputs(parts)[..n];
      FoldNoTotal(parts[..n]);
    }
  }

  /** Input plus output as known after the first part with both. */
  function DerivedTotal(parts: seq<TokenUsage>): Option<int> {
    if parts == [] then None
    else
      var earlier := DerivedTotal(parts[..|parts| - 1]);
      if earlier.Some? then earlier
      else if Last(Inputs(parts)).Some? && Last(Outputs(parts)).Some?
      then Some(AddInt64(Last(Inputs(parts)).value, Last(Outputs(parts)).value)) else None
  }

  /** The total of a stream of parts: the last carried one, else the derived one. */
  function StreamTotal(parts: seq<TokenUsage>): Option<int> {
    if Last(Totals(parts)).Some? then Last(Totals(parts)) else DerivedTotal(parts)
  }

  lemma {:induction false} FoldTotal(parts: seq<TokenUsage>)
    ensures Fold(parts).total == StreamTotal(parts)
  {
    if Last(Totals(parts)).Some? {
      FoldCarriedTotal(parts);
    } else if parts != [] {
      var before := parts[..|parts| - 1];
      PrefixColumns(parts, |before|);
      FoldTotal(before);
      FoldStep(parts);
      FoldKeepsLastReported(parts);
    }
  }

  /**
   What several reports come to: of the model and each count the last one reported; of the total the last one carried,
   else input plus output if both are known.
   */
  predicate ReportsLast(u: TokenUsage, parts: seq<TokenUsage>) {
    && u.model == LastNonEmpty(Models(parts))
    && u.input == Last(Inputs(parts)) && u.output == Last(Outputs(parts))
    && u.cacheRead == Last(CacheReads(parts)) && u.cacheCreation == Last(CacheCreations(parts))
    && u.total == (if Last(Totals(parts)).Some? then Last(Totals(parts))
                   else if u.input.Some? && u.output.Some? then Some(AddInt64(u.input.value, u.output.value)) else None)
  }

  lemma {:induction false} OverrideAllIsLast(parts: seq<TokenUsage>)
    ensures var u := OverrideAll(parts);
            && u.model == LastNonEmpty(Models(parts))
            && u.input == Last(Inputs(parts)) && u.output == Last(Outputs(parts))
            && u.cacheRead == Last(CacheReads(parts)) && u.cacheCreation == Last(CacheCreations(parts))
            && u.total == Last(Totals(parts))
  {
    if parts != [] {
      PrefixColumns(parts, |parts| - 1);
      OverrideAllIsLast(parts[..|parts| - 1]);
    }
  }

  /** Merging reports the last of everything. */
  lemma MergeReportsLast(parts: seq<TokenUsage>)
    ensures ReportsLast(Merge(parts), parts)
  {
    OverrideAllIsLast(parts);
  }

  /** Sums are exact within int64 and otherwise off by a multiple of 2 to the 64. */
  lemma AddInt64Wraps(a: int, b: int)
    ensures -0x8000_0000_0000_0000 <= AddInt64(a, b) < 0x8000_0000_0000_0000
    ensures (a + b - AddInt64(a, b)) % 0x1_0000_0000_0000_0000 == 0
    ensures -0x8000_0000_0000_0000 <= a + b < 0x8000_0000_0000_0000 ==> AddInt64(a, b) == a + b
  {
    var n := a + b + TWO_TO_THE_63;
    assert a + b - AddInt64(a, b) == n - n % TWO_TO_THE_64;
    assert n - n % TWO_TO_THE_64 == TWO_TO_THE_64 * (n / TWO_TO_THE_64);
  }

  lemma PrefixOfPrefix(parts: seq<TokenUsage>, n: nat, k: nat)
    requires k <= n <= |parts|
    ensures Inputs(parts[..n])[..k] == Inputs(parts)[..k] && Outputs(parts[..n])[..k] == Outputs(parts)[..k]
    ensures BothKnown(parts[..n], k) == BothKnown(parts, k)
  {
  }

  lemma {:induction false} DerivedTotalAt(parts: seq<TokenUsage>, k: nat)
    requires 0 < k <= |parts| && BothKnown(parts, k) && !BothKnown(parts, k - 1)
    ensures DerivedTotal(parts) == Some(AddInt64(Last(Inputs(parts)[..k]).value, Last(Outputs(parts)[..k]).value))
  {
    var n := |parts| - 1;
    if k <= n {
      PrefixOfPrefix(parts, n, k);
      PrefixOfPrefix(parts, n, k - 1);
      DerivedTotalAt(parts[..n], k);
    } else {
      DerivedTotalIff(parts[..n]);
      PrefixColumns(parts, n);
      assert Inputs(parts)[..k] == Inputs(parts) && Outputs(parts)[..k] == Outputs(parts);
    }
  }

  /** Without a carried total it is input plus output as known after the first part with both, and stays that. */
  lemma FoldDerivedTotal(parts: seq<TokenUsage>, k: nat)
    requires 0 < k <= |parts| && Last(Totals(parts)).None?
    requires BothKnown(parts, k) && !BothKnown(parts, k - 1)
    ensures Fold(parts).total == Some(AddInt64(Last(Inputs(parts)[..k]).value, Last(Outputs(parts)[..k]).value))
  {
    FoldTotal(parts);
    DerivedTotalAt(parts, k);
  }

  lemma DerivedTotalIff(parts: seq<TokenUsage>)
    ensures DerivedTotal(parts).Some? <==> Last(Inputs(parts)).Some? && Last(Outputs(parts)).Some?
  {
    if parts != [] {
      DerivedTotalIff(parts[..|parts| - 1]);
      PrefixColumns(parts, |parts| - 1);
    }
  }

  lemma {:induction false} LastAppend<T>(a: seq<Option<T>>, b: seq<Option<T>>)
    ensures Last(a + b) == Later(Last(a), Last(b))
  {
    if b == [] {
      assert a + b == a;
    } else {
      LastAppend(a, b[..|b| - 1]);
      assert (a + b)[..|a + b| - 1] == a + b[..|b| - 1];
    }
  }

  lemma {:induction false} LastNonEmptyAppend(a: seq<string>, b: seq<string>)
    ensures LastNonEmpty(a + b) == if LastNonEmpty(b) != "" then LastNonEmpty(b) else LastNonEmpty(a)
  {
    if b == [] {
      assert a + b == a;
    } else {
      LastNonEmptyAppend(a, b[..|b| - 1]);
      assert (a + b)[..|a + b| - 1] == a + b[..|b| - 1];
    }
  }

  lemma ColumnsAppend(a: seq<TokenUsage>, b: seq<TokenUsage>)
    ensures Inputs(a + b) == Inputs(a) + Inputs(b) && Outputs(a + b) == Outputs(a) + Outputs(b)
    ensures CacheReads(a + b) == CacheReads(a) + CacheReads(b)
    ensures CacheCreations(a + b) == CacheCreations(a) + CacheCreations(b)
    ensures Totals(a + b) == Totals(a) + Totals(b) && Models(a + b) == Models(a) + Models(b)
  {
  }

  /** Folding parts again after the stream they end changes no model and no count. */
  lemma RefoldedCounts(p: seq<TokenUsage>, q: seq<TokenUsage>)
    ensures var u, v := Fold(p + q), Fold(q);
            var w := Override(u, v);
            && w.model == u.model && w.input == u.input && w.output == u.output
            && w.cacheRead == u.cacheRead && w.cacheCreation == u.cacheCreation
  {
    ColumnsAppend(p, q);
    FoldKeepsLastReported(p + q);
    FoldKeepsLastReported(q);
    LastNonEmptyAppend(Models(p), Models(q));
    LastAppend(Inputs(p), Inputs(q));
    LastAppend(Outputs(p), Outputs(q));
    LastAppend(CacheReads(p), CacheReads(q));
    LastAppend(CacheCreations(p), CacheCreations(q));
  }

  /** What the end of a stream does to the total: it overrides it with its own derived one, if that is all it has. */
  lemma RefoldedTotal(p: seq<TokenUsage>, q: seq<TokenUsage>)
    ensures var total := Later(Fold(p + q).total, Fold(q).total);
            total == if Last(Totals(q)).None? && DerivedTotal(q).Some? then DerivedTotal(q) else StreamTotal(p + q)
  {
    FoldTotal(p + q);
    FoldTotal(q);
    ColumnsAppend(p, q);
    LastAppend(Totals(p), Totals(q));
  }

  // ---- Reading a decoded JSON object ----

  /** The names of fields the code looks at, and any other. */
  datatype FieldName =
    | ModelName | Message | Response | Usage | InputTokensDetails | PromptTokensDetails | CacheReadInputTokens | CacheReadTokens
    | CachedTokens | InputTokens | PromptTokens | OutputTokens | CompletionTokens | CacheCreationInputTokens
    | CacheCreationTokens | TotalTokens | OtherName(text: string)

  /** A decoded value; a text carries its trimmed form and the integer it spells, if any. */
  datatype Json = Object(fields: map<FieldName, Json>) | Text(trimmed: string, asInt: Option<int>) | Number(n: int) | Other

  function Field(o: map<FieldName, Json>, key: FieldName): Json { if key in o then o[key] else Other }

  function Int64Value(v: Json): Option<int> {
    match v
    case Number(n) => Some(n)
    case Text(_, asInt) => asInt
    case _ => None
  }

  function FirstInt64(o: map<FieldName, Json>, first: FieldName, second: FieldName): Option<int> {
    Later(Int64Value(Field(o, second)), Int64Value(Field(o, first)))
  }

  function ModelOf(o: map<FieldName, Json>): string {
    if Field(o, ModelName).Text? then Field(o, ModelName).trimmed else ""
  }

  /** The counts a usage object reports; cached counts nested in the details win. */
  function RawUsage(o: map<FieldName, Json>): TokenUsage {
    var details, prompt := Field(o, InputTokensDetails), Field(o, PromptTokensDetails);
    var direct := FirstInt64(o, CacheReadInputTokens, CacheReadTokens);
    var nested := if details.Object? then FirstInt64(details.fields, CachedTokens, CacheReadTokens) else None;
    var deepest := if prompt.Object? then Int64Value(Field(prompt.fields, CachedTokens)) else None;
    TokenUsage("", FirstInt64(o, InputTokens, PromptTokens), FirstInt64(o, OutputTokens, CompletionTokens),
               Later(Later(direct, nested), deepest),
               FirstInt64(o, CacheCreationInputTokens, CacheCreationTokens),
               Int64Value(Field(o, TotalTokens)))
  }

  predicate Says(o: map<FieldName, Json>, name: FieldName, n: int) { name in o && o[name] == Number(n) }

  /** The names of the counts; the second one counts only without the first. */
  lemma CountNames(o: map<FieldName, Json>, n: int)
    ensures Says(o, InputTokens, n) || (InputTokens !in o && Says(o, PromptTokens, n)) ==> RawUsage(o).input == Some(n)
    ensures Says(o, OutputTokens, n) || (OutputTokens !in o && Says(o, CompletionTokens, n)) ==> RawUsage(o).output == Some(n)
    ensures Says(o, CacheCreationInputTokens, n) || (CacheCreationInputTokens !in o && Says(o, CacheCreationTokens, n)) ==>
              RawUsage(o).cacheCreation == Some(n)
    ensures Says(o, TotalTokens, n) ==> RawUsage(o).total == Some(n)
    ensures InputTokens !in o && PromptTokens !in o ==> RawUsage(o).input == None
    ensures OutputTokens !in o && CompletionTokens !in o ==> RawUsage(o).output == None
    ensures CacheCreationInputTokens !in o && CacheCreationTokens !in o ==> RawUsage(o).cacheCreation == None
    ensures TotalTokens !in o ==> RawUsage(o).total == None
  {
  }

  function FieldsOf(o: map<FieldName, Json>, name: FieldName): map<FieldName, Json> {
    if name in o && o[name].Object? then o[name].fields else map[]
  }

  /** Cached counts: those in the prompt's details win over those in the input's, and these over the ones beside them. */
  lemma CachedNames(o: map<FieldName, Json>, n: int)
    ensures var inner, d, read := FieldsOf(o, PromptTokensDetails), FieldsOf(o, InputTokensDetails), RawUsage(o).cacheRead;
            && (Says(inner, CachedTokens, n) ==> read == Some(n))
            && (CachedTokens !in inner && (Says(d, CachedTokens, n) || (CachedTokens !in d && Says(d, CacheReadTokens, n))) ==> read == Some(n))
            && (CachedTokens !in inner && CachedTokens !in d && CacheReadTokens !in d ==>
                  && (Says(o, CacheReadInputTokens, n) || (CacheReadInputTokens !in o && Says(o, CacheReadTokens, n)) ==> read == Some(n))
                  && (CacheReadInputTokens !in o && CacheReadTokens !in o ==> read == None))
  {
  }

  function NestedIn(o: map<FieldName, Json>, name: FieldName): (v: Option<Json>)
    ensures v.Some? ==> name in o && v.value == o[name] && v.value.Object?
  {
    if name in o && o[name].Object? then Some(o[name]) else None
  }

  /** tokenUsageFromObject up to its own usage object: its model, then the message, then the response. */
  function FromNested(payload: Json): TokenUsage
    requires payload.Object?
    decreases payload, 0
  {
    var o := payload.fields;
    var own := EMPTY.(model := ModelOf(o));
    var message, response := NestedIn(o, Message), NestedIn(o, Response);
    var withMessage := if message.Some? then Merge([own, FromObject(message.value)]) else own;
    if response.Some? then Merge([withMessage, FromObject(response.value)]) else withMessage
  }

  /** tokenUsageFromObject */
  function FromObject(payload: Json): TokenUsage
    requires payload.Object?
    decreases payload, 1
  {
    var usage := NestedIn(payload.fields, Usage);
    if usage.Some? then RawUsage(usage.value.fields).(model := FromNested(payload).model) else FromNested(payload)
  }

  /** The usage objects that count, in the order in which they override each other. */
  function Sources(payload: Json): seq<TokenUsage>
    requires payload.Object?
    decreases payload, 2
  {
    var usage := NestedIn(payload.fields, Usage);
    if usage.Some? then [RawUsage(usage.value.fields)] else NestedSources(payload)
  }

  function NestedSources(payload: Json): seq<TokenUsage>
    requires payload.Object?
    decreases payload, 1
  {
    var message, response := NestedIn(payload.fields, Message), NestedIn(payload.fields, Response);
    (if message.Some? then Sources(message.value) else []) + (if response.Some? then Sources(response.value) else [])
  }

  /** The model names in the order in which they override each other: own, message, response. */
  function ModelNames(payload: Json): seq<string>
    requires payload.Object?
    decreases payload
  {
    var o := payload.fields;
    var message, response := NestedIn(o, Message), NestedIn(o, Response);
    [ModelOf(o)] + (if message.Some? then ModelNames(message.value) else [])
    + (if response.Some? then ModelNames(response.value) else [])
  }

  lemma MergePair(a: TokenUsage, b: TokenUsage)
    ensures Merge([a, b]) == WithTotal(Override(a, b))
  {
    assert [a, b][..1] == [a] && [a][..0] == [];
    assert OverrideAll([a]) == a;
  }

  /** The counts and model of `u` are the last ones among `sources` and `models`. */
  ghost predicate Reports(u: TokenUsage, sources: seq<TokenUsage>, models: seq<string>) {
    && u.model == LastNonEmpty(models)
    && u.input == Last(Inputs(sources)) && u.output == Last(Outputs(sources))
    && u.cacheRead == Last(CacheReads(sources)) && u.cacheCreation == Last(CacheCreations(sources))
  }

  lemma MergeReports(u: TokenUsage, us: seq<TokenUsage>, um: seq<string>, v: TokenUsage, vs: seq<TokenUsage>, vm: seq<string>)
    requires Reports(u, us, um) && Reports(v, vs, vm)
    ensures Reports(Merge([u, v]), us + vs, um + vm)
  {
    MergePair(u, v);
    ColumnsAppend(us, vs);
    LastNonEmptyAppend(um, vm);
    LastAppend(Inputs(us), Inputs(vs));
    LastAppend(Outputs(us), Outputs(vs));
    LastAppend(CacheReads(us), CacheReads(vs));
    LastAppend(CacheCreations(us), CacheCreations(vs));
  }

  /** Without its own usage object: what the message and then the response report. */
  lemma {:induction false} NestedReports(payload: Json)
    requires payload.Object?
    ensures Reports(FromNested(payload), NestedSources(payload), ModelNames(payload))
    decreases payload, 0
  {
    var o := payload.fields;
    var own := EMPTY.(model := ModelOf(o));
    OwnModelReports(own);
    var message, response := NestedIn(o, Message), NestedIn(o, Response);
    if message.Some? { ObjectReportsLast(message.value); }
    if response.Some? { ObjectReportsLast(response.value); }
    var withMessage := MergeNested(own, [], [own.model], message);
    assert [] + SourcesOf(message) == SourcesOf(message);
    var nested := MergeNested(withMessage, SourcesOf(message), [own.model] + ModelsOf(message), response);
  }

  /**
   However deep the payload nests, the raw counts are the last ones reported by the usage objects
   that count, where a usage object hides every one nested beside it, and the model is the last
   name found.
   */
  lemma {:induction false} ObjectReportsLast(payload: Json)
    requires payload.Object?
    ensures Reports(FromObject(payload), Sources(payload), ModelNames(payload))
    decreases payload, 1
  {
    NestedReports(payload);
    var usage := NestedIn(payload.fields, Usage);
    if usage.Some? { OneSourceReports(RawUsage(usage.value.fields), FromNested(payload).model, ModelNames(payload)); }
  }

  function SourcesOf(v: Option<Json>): seq<TokenUsage>
    requires v.Some? ==> v.value.Object?
  {
    if v.Some? then Sources(v.value) else []
  }

  function ModelsOf(v: Option<Json>): seq<string>
    requires v.Some? ==> v.value.Object?
  {
    if v.Some? then ModelNames(v.value) else []
  }

  lemma OwnModelReports(own: TokenUsage)
    requires own == EMPTY.(model := own.model)
    ensures Reports(own, [], [own.model])
  {
    assert [own.model][..0] == [];
    assert Inputs([]) == [] && Outputs([]) == [] && CacheReads([]) == [] && CacheCreations([]) == [];
  }

  lemma OneSourceReports(raw: TokenUsage, model: string, models: seq<string>)
    requires model == LastNonEmpty(models)
    ensures Reports(raw.(model := model), [raw], models)
  {
    assert Inputs([raw])[..0] == [] && Outputs([raw])[..0] == [];
    assert CacheReads([raw])[..0] == [] && CacheCreations([raw])[..0] == [];
  }

  /** Merging a nested object, when there is one, appends what it reports. */
  lemma MergeNested(u: TokenUsage, us: seq<TokenUsage>, um: seq<string>, v: Option<Json>) returns (r: TokenUsage)
    requires v.Some? ==> v.value.Object? && Reports(FromObject(v.value), Sources(v.value), ModelNames(v.value))
    requires Reports(u, us, um)
    ensures r == if v.Some? then Merge([u, FromObject(v.value)]) else u
    ensures Reports(r, us + SourcesOf(v), um + ModelsOf(v))
  {
    r := if v.Some? then Merge([u, FromObject(v.value)]) else u;
    if v.Some? {
      MergeReports(u, us, um, FromObject(v.value), Sources(v.value), ModelNames(v.value));
    } else {
      assert us + [] == us && um + [] == um;
    }
  }
}
