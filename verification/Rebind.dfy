/** Placeholders: Rebind and its inverse, and the WHERE clause of the request-log list. */
module Rebind {
  import opened Prelude

  datatype Dialect = SQLite | PostgreSQL

  /** strconv.Itoa */
  function Decimal(n: nat): string
    decreases n
  {
    if n < 10 then [('0' as int + n) as char] else Decimal(n / 10) + [('0' as int + n % 10) as char]
  }

  /** The number a text of decimal digits spells. */
  function Spelled(text: string): int {
    if text == [] then 0 else 10 * Spelled(text[..|text| - 1]) + (text[|text| - 1] as int - '0' as int)
  }

  /** The digits of a number spell it, and do not start with a zero. */
  lemma {:induction false} DecimalSpells(n: nat)
    ensures Spelled(Decimal(n)) == n
    ensures Decimal(n) != [] && forall i :: 0 <= i < |Decimal(n)| ==> '0' <= Decimal(n)[i] <= '9'
    ensures n > 0 ==> Decimal(n)[0] != '0'
  {
    var text := Decimal(n);
    if n >= 10 {
      DecimalSpells(n / 10);
      assert text[..|text| - 1] == Decimal(n / 10);
    } else {
      assert text[..|text| - 1] == [];
    }
  }

  /** The query with its placeholders numbered from n + 1. */
  function Rebound(query: string, n: nat): string {
    if query == [] then []
    else if query[0] == '?' then ['$'] + Decimal(n + 1) + Rebound(query[1..], n + 1)
    else [query[0]] + Rebound(query[1..], n)
  }

  function Marks(query: string): nat {
    if query == [] then 0 else (if query[0] == '?' then 1 else 0) + Marks(query[1..])
  }

  lemma {:induction false} ReboundSnoc(query: string, c: char, n: nat)
    ensures Rebound(query + [c], n) ==
            Rebound(query, n) + (if c == '?' then ['$'] + Decimal(n + Marks(query) + 1) else [c])
  {
    if query == [] {
      assert query + [c] == [c] && [c][1..] == [];
    } else {
      assert (query + [c])[0] == query[0] && (query + [c])[1..] == query[1..] + [c];
      ReboundSnoc(query[1..], c, if query[0] == '?' then n + 1 else n);
    }
  }

  lemma {:induction false} MarksAppend(a: string, b: string)
    ensures Marks(a + b) == Marks(a) + Marks(b)
  {
    if a == [] {
      assert a + b == b;
    } else {
      assert (a + b)[0] == a[0] && (a + b)[1..] == a[1..] + b;
      MarksAppend(a[1..], b);
    }
  }

  /** Dialect.Rebind */
  method RebindQuery(d: Dialect, query: string) returns (text: string)
    ensures text == if d == PostgreSQL then Rebound(query, 0) else query
  {
    if d != PostgreSQL { return query; }
    var n := 0;
    text := [];
    var i := 0;
    while i < |query|
      invariant i <= |query| && n == Marks(query[..i]) && text == Rebound(query[..i], 0)
    {
      assert query[..i + 1] == query[..i] + [query[i]];
      ReboundSnoc(query[..i], query[i], 0);
      MarksAppend(query[..i], [query[i]]);
      assert Marks([query[i]][1..]) == 0;
      if query[i] == '?' {
        n := n + 1;
        text := text + ['$'];
        text := text + Decimal(n);
      } else {
        text := text + [query[i]];
      }
      i := i + 1;
    }
    assert query[..i] == query;
  }

  /** Turns $(n+1), $(n+2), ... back into placeholders; None where another number or no number follows a '$'. */
  function Unbind(text: string, n: nat): Option<string>
    decreases |text|
  {
    if text == [] then Some([])
    else if text[0] == '$' then
      if Decimal(n + 1) <= text[1..] then
        var rest := Unbind(text[1 + |Decimal(n + 1)|..], n + 1);
        if rest.None? then None else Some(['?'] + rest.value)
      else None
    else
      var rest := Unbind(text[1..], n);
      if rest.None? then None else Some([text[0]] + rest.value)
  }

  lemma {:induction false} UnbindUndoes(query: string, n: nat)
    requires '$' !in query
    ensures Unbind(Rebound(query, n), n) == Some(query)
  {
    if query != [] {
      var d := Decimal(n + 1);
      assert query == [query[0]] + query[1..];
      if query[0] == '?' {
        var rest := Rebound(query[1..], n + 1);
        var text := ['$'] + d + rest;
        assert text[1..] == d + rest && text[1 + |d|..] == rest;
        UnbindUndoes(query[1..], n + 1);
      } else {
        assert ([query[0]] + Rebound(query[1..], n))[1..] == Rebound(query[1..], n);
        UnbindUndoes(query[1..], n);
      }
    }
  }

  lemma {:induction false} UnbindLeavesNoDollar(text: string, n: nat)
    ensures Unbind(text, n).Some? ==> '$' !in Unbind(text, n).value
    decreases |text|
  {
    if text != [] {
      if text[0] == '$' {
        if Decimal(n + 1) <= text[1..] { UnbindLeavesNoDollar(text[1 + |Decimal(n + 1)|..], n + 1); }
      } else {
        UnbindLeavesNoDollar(text[1..], n);
      }
    }
  }

  /** Rebind can be undone exactly for queries that have no '$' of their own. */
  lemma RoundTripIff(query: string)
    ensures Unbind(Rebound(query, 0), 0) == Some(query) <==> '$' !in query
  {
    UnbindLeavesNoDollar(Rebound(query, 0), 0);
    if '$' !in query { UnbindUndoes(query, 0); }
  }

  /** The text between placeholders. */
  function Segments(query: string): (s: seq<string>)
    ensures |s| == Marks(query) + 1
  {
    if query == [] then [[]]
    else
      var rest := Segments(query[1..]);
      if query[0] == '?' then [[]] + rest else [[query[0]] + rest[0]] + rest[1..]
  }

  function Numbered(segments: seq<string>, n: nat): string
    requires segments != []
  {
    if |segments| == 1 then segments[0] else segments[0] + (['$'] + Decimal(n + 1) + Numbered(segments[1..], n + 1))
  }

  /** All text between placeholders is kept, and the i-th placeholder becomes $i. */
  lemma {:induction false} SegmentsKept(query: string, n: nat)
    ensures Rebound(query, n) == Numbered(Segments(query), n)
  {
    if query != [] {
      var rest := Segments(query[1..]);
      var s := Segments(query);
      if query[0] == '?' {
        SegmentsKept(query[1..], n + 1);
        assert s[1..] == rest && [] + (['$'] + Decimal(n + 1) + Numbered(rest, n + 1)) == ['$'] + Decimal(n + 1) + Numbered(rest, n + 1);
      } else {
        SegmentsKept(query[1..], n);
        assert s[1..] == rest[1..] && s[0] == [query[0]] + rest[0];
        if |rest| > 1 {
          var tail := ['$'] + Decimal(n + 1) + Numbered(rest[1..], n + 1);
          assert [query[0]] + rest[0] + tail == [query[0]] + (rest[0] + tail);
        }
      }
    }
  }

  // ---- requestLogWhere ----

  datatype Arg = IntArg(n: int) | TextArg(s: string)

  datatype Filter = Filter(subscription: Option<int>, apiKey: Option<int>, user: Option<int>, provider: string,
                           statusCode: Option<int>, query: string)

  /** One condition of the WHERE clause with the arguments of its placeholders. */
  datatype Clause = Clause(text: string, args: seq<Arg>)

  ghost predicate ClauseOk(c: Option<Clause>) { c.Some? ==> Marks(c.value.text) == |c.value.args| }

  const AND := " AND "

  /** The conditions that are set, each after AND. */
  function Joined(clauses: seq<Option<Clause>>): string {
    if clauses == [] then []
    else TextOf(clauses[0]) + Joined(clauses[1..])
  }

  function TextOf(c: Option<Clause>): string { if c.Some? then AND + c.value.text else [] }

  function ArgsOf(clauses: seq<Option<Clause>>): seq<Arg> {
    if clauses == [] then [] else (if clauses[0].Some? then clauses[0].value.args else []) + ArgsOf(clauses[1..])
  }

  lemma {:induction false} NoMarks(s: string)
    requires '?' !in s
    ensures Marks(s) == 0
  {
    if s != [] {
      NoMarks(s[1..]);
    }
  }

  lemma {:induction false} JoinedIsBalanced(clauses: seq<Option<Clause>>)
    requires forall i :: 0 <= i < |clauses| ==> ClauseOk(clauses[i])
    ensures Marks(Joined(clauses)) == |ArgsOf(clauses)|
  {
    if clauses != [] {
      var rest, c := clauses[1..], clauses[0];
      assert forall i :: 0 <= i < |rest| ==> rest[i] == clauses[i + 1];
      JoinedIsBalanced(rest);
      if c.Some? {
        NoMarks(AND);
        MarksAppend(AND + c.value.text, Joined(rest));
        MarksAppend(AND, c.value.text);
      } else {
        assert [] + Joined(rest) == Joined(rest);
      }
    }
  }

  lemma {:induction false} JoinedSnoc(clauses: seq<Option<Clause>>, c: Option<Clause>)
    ensures Joined(clauses + [c]) == Joined(clauses) + TextOf(c)
    ensures ArgsOf(clauses + [c]) == ArgsOf(clauses) + (if c.Some? then c.value.args else [])
  {
    if clauses == [] {
      assert clauses + [c] == [c] && [c][1..] == [];
    } else {
      var rest := clauses[1..];
      assert (clauses + [c])[0] == clauses[0] && (clauses + [c])[1..] == rest + [c];
      JoinedSnoc(rest, c);
      Regroup(TextOf(clauses[0]), Joined(rest), TextOf(c));
      Regroup(if clauses[0].Some? then clauses[0].value.args else [], ArgsOf(rest), if c.Some? then c.value.args else []);
    }
  }

  lemma OneMark(before: string, after: string)
    requires '?' !in before && '?' !in after
    ensures Marks(before + ['?'] + after) == 1
  {
    NoMarks(before);
    NoMarks(after);
    MarksAppend(before + ['?'], after);
    MarksAppend(before, ['?']);
    assert Marks(['?']) == 1 + Marks(['?'][1..]);
  }

  function LikeOperator(d: Dialect): string { if d == PostgreSQL then "ILIKE" else "LIKE" }

  /** COALESCE(column,'') op ? for each column, with OR between them. */
  function LikeTerms(columns: seq<string>, op: string): string {
    if columns == [] then []
    else "COALESCE(" + columns[0] + ",'') " + op + " " + ['?'] + (if |columns| == 1 then [] else " OR ") + LikeTerms(columns[1..], op)
  }

  lemma {:induction false} LikeTermsMarks(columns: seq<string>, op: string)
    requires '?' !in op && forall i :: 0 <= i < |columns| ==> '?' !in columns[i]
    ensures Marks(LikeTerms(columns, op)) == |columns|
  {
    if columns != [] {
      var before, after := "COALESCE(" + columns[0] + ",'') " + op + " ", if |columns| == 1 then [] else " OR ";
      assert forall i :: 0 <= i < |columns[1..]| ==> columns[1..][i] == columns[i + 1];
      LikeTermsMarks(columns[1..], op);
      OneMark(before, after);
      MarksAppend(before + ['?'] + after, LikeTerms(columns[1..], op));
    }
  }

  const SEARCHED: seq<string> := ["path", "query", "client_ip", "model", "request_id", "username"]

  function SearchText(d: Dialect): string { "(" + LikeTerms(SEARCHED, LikeOperator(d)) + ")" }

  lemma InParens(text: string)
    ensures Marks("(" + text + ")") == Marks(text)
  {
    NoMarks("(");
    NoMarks(")");
    MarksAppend("(" + text, ")");
    MarksAppend("(", text);
  }

  lemma SearchMarks(d: Dialect)
    ensures Marks(SearchText(d)) == 6
  {
    LikeTermsMarks(SEARCHED, LikeOperator(d));
    InParens(LikeTerms(SEARCHED, LikeOperator(d)));
  }

  function Six(a: Arg): seq<Arg> { [a, a, a, a, a, a] }

  function IntIs(column: string, value: Option<int>): Option<Clause> {
    if value.Some? then Some(Clause(column + ['?'], [IntArg(value.value)])) else None
  }

  function TextIs(column: string, value: string): Option<Clause> {
    if value != [] then Some(Clause(column + ['?'], [TextArg(value)])) else None
  }

  function Search(d: Dialect, q: string): Option<Clause> {
    if q != [] then Some(Clause(SearchText(d), Six(TextArg(['%'] + q + ['%'])))) else None
  }

  /** The conditions a filter asks for, in the order of the clause. */
  function Wanted(d: Dialect, f: Filter, trim: string -> string): seq<Option<Clause>> {
    Listed(IntIs("subscription_id=", f.subscription), IntIs("api_key_id=", f.apiKey), IntIs("user_id=", f.user),
           TextIs("provider=", trim(f.provider)), IntIs("status_code=", f.statusCode), Search(d, trim(f.query)))
  }

  function Listed(subscription: Option<Clause>, apiKey: Option<Clause>, user: Option<Clause>, provider: Option<Clause>,
                  statusCode: Option<Clause>, query: Option<Clause>): seq<Option<Clause>> {
    [subscription, apiKey, user, provider, statusCode, query]
  }

  lemma EqualsMark(column: string)
    requires '?' !in column
    ensures Marks(column + ['?']) == 1
  {
    OneMark(column, []);
    assert column + ['?'] + [] == column + ['?'];
  }

  lemma IntIsOk(column: string, value: Option<int>)
    requires '?' !in column
    ensures ClauseOk(IntIs(column, value))
  {
    EqualsMark(column);
  }

  lemma IdsAreBalanced(f: Filter)
    ensures ClauseOk(IntIs("subscription_id=", f.subscription)) && ClauseOk(IntIs("api_key_id=", f.apiKey))
    ensures ClauseOk(IntIs("user_id=", f.user))
  {
    IntIsOk("subscription_id=", f.subscription);
    IntIsOk("api_key_id=", f.apiKey);
    IntIsOk("user_id=", f.user);
  }

  lemma TextsAreBalanced(d: Dialect, f: Filter, trim: string -> string)
    ensures ClauseOk(TextIs("provider=", trim(f.provider))) && ClauseOk(IntIs("status_code=", f.statusCode))
    ensures ClauseOk(Search(d, trim(f.query)))
  {
    TextIsOk("provider=", trim(f.provider));
    IntIsOk("status_code=", f.statusCode);
    SearchIsOk(d, trim(f.query));
  }

  lemma TextIsOk(column: string, value: string)
    requires '?' !in column
    ensures ClauseOk(TextIs(column, value))
  {
    EqualsMark(column);
  }

  lemma SearchIsOk(d: Dialect, q: string)
    ensures ClauseOk(Search(d, q))
  {
    SearchMarks(d);
  }

  lemma WantedIsBalanced(d: Dialect, f: Filter, trim: string -> string)
    ensures forall i :: 0 <= i < 6 ==> ClauseOk(Wanted(d, f, trim)[i])
  {
    IdsAreBalanced(f);
    TextsAreBalanced(d, f, trim);
  }

  const WHERE := "WHERE 1=1"

  /** Adds one condition, and its arguments, if it is set. */
  method AddIf(text: string, args: seq<Arg>, c: Option<Clause>, ghost before: seq<Option<Clause>>)
    returns (text': string, args': seq<Arg>, ghost after: seq<Option<Clause>>)
    requires text == WHERE + Joined(before) && args == ArgsOf(before)
    ensures after == before + [c] && text' == WHERE + Joined(after) && args' == ArgsOf(after)
  {
    after := before + [c];
    JoinedSnoc(before, c);
    Regroup(WHERE, Joined(before), TextOf(c));
    if c.Some? {
      text', args' := text + (AND + c.value.text), args + c.value.args;
    } else {
      text', args' := text, args;
    }
  }

  /** requestLogWhere: as many arguments as placeholders, in their order, for every filter. */
  method RequestLogWhere(d: Dialect, f: Filter, trim: string -> string) returns (text: string, args: seq<Arg>)
    ensures text == WHERE + Joined(Wanted(d, f, trim)) && args == ArgsOf(Wanted(d, f, trim))
    ensures Marks(text) == |args|
  {
    ghost var done := [];
    text, args := WHERE, [];
    text, args, done := AddIf(text, args, IntIs("subscription_id=", f.subscription), done);
    text, args, done := AddIf(text, args, IntIs("api_key_id=", f.apiKey), done);
    text, args, done := AddIf(text, args, IntIs("user_id=", f.user), done);
    text, args, done := AddIf(text, args, TextIs("provider=", trim(f.provider)), done);
    text, args, done := AddIf(text, args, IntIs("status_code=", f.statusCode), done);
    text, args, done := AddIf(text, args, Search(d, trim(f.query)), done);
    assert done == Wanted(d, f, trim);
    WhereIsBalanced(d, f, trim);
  }

  lemma WhereIsBalanced(d: Dialect, f: Filter, trim: string -> string)
    ensures Marks(WHERE + Joined(Wanted(d, f, trim))) == |ArgsOf(Wanted(d, f, trim))|
  {
    WantedIsBalanced(d, f, trim);
    JoinedIsBalanced(Wanted(d, f, trim));
    NoMarks(WHERE);
    MarksAppend(WHERE, Joined(Wanted(d, f, trim)));
  }

  // ---- What the conditions say ----

  /** The five columns compared, each with the filter's own value and only if that is set. */
  lemma ComparedColumns(d: Dialect, f: Filter, trim: string -> string)
    ensures var w := Wanted(d, f, trim);
            && w[0] == (if f.subscription.Some? then Some(Clause("subscription_id=?", [IntArg(f.subscription.value)])) else None)
            && w[1] == (if f.apiKey.Some? then Some(Clause("api_key_id=?", [IntArg(f.apiKey.value)])) else None)
            && w[2] == (if f.user.Some? then Some(Clause("user_id=?", [IntArg(f.user.value)])) else None)
            && w[3] == (if trim(f.provider) != "" then Some(Clause("provider=?", [TextArg(trim(f.provider))])) else None)
            && w[4] == (if f.statusCode.Some? then Some(Clause("status_code=?", [IntArg(f.statusCode.value)])) else None)
  {
    assert "subscription_id=" + ['?'] == "subscription_id=?" && "api_key_id=" + ['?'] == "api_key_id=?";
    assert "user_id=" + ['?'] == "user_id=?" && "provider=" + ['?'] == "provider=?" && "status_code=" + ['?'] == "status_code=?";
  }

  /** One column's comparison, NULL being the empty text. */
  function Like(column: string, op: string): string { "COALESCE(" + column + ",'') " + op + " ?" }

  function Either(a: string, b: string): string { a + (" OR " + b) }

  lemma OneTerm(columns: seq<string>, op: string)
    requires |columns| == 1
    ensures LikeTerms(columns, op) == Like(columns[0], op)
  {
    assert LikeTerms(columns[1..], op) == [];
    Regroup("COALESCE(" + columns[0] + ",'') " + op, " ", "?");
    assert " " + "?" == " ?";
  }

  lemma MoreTerms(columns: seq<string>, op: string)
    requires |columns| > 1
    ensures LikeTerms(columns, op) == Either(Like(columns[0], op), LikeTerms(columns[1..], op))
  {
    var before, rest := "COALESCE(" + columns[0] + ",'') " + op, LikeTerms(columns[1..], op);
    Regroup(before, " ", "?");
    assert " " + "?" == " ?";
    assert before + " " + ['?'] + " OR " + rest == before + " ?" + (" OR " + rest);
  }

  lemma LastTerms(columns: seq<string>, op: string)
    requires |columns| == 3
    ensures LikeTerms(columns, op) == Either(Like(columns[0], op), Either(Like(columns[1], op), Like(columns[2], op)))
  {
    MoreTerms(columns, op);
    MoreTerms(columns[1..], op);
    OneTerm(columns[1..][1..], op);
  }

  /** Free text is looked for in six columns. */
  lemma SearchedColumns(d: Dialect, op: string)
    requires op == if d == PostgreSQL then "ILIKE" else "LIKE"
    ensures SearchText(d) == "(" + Either(Like("path", op), Either(Like("query", op), Either(Like("client_ip", op),
                               Either(Like("model", op), Either(Like("request_id", op), Like("username", op)))))) + ")"
  {
    var a, b := SEARCHED[1..], SEARCHED[2..];
    MoreTerms(SEARCHED, op);
    MoreTerms(a, op);
    assert a[1..] == b && b[1..] == SEARCHED[3..];
    MoreTerms(b, op);
    LastTerms(SEARCHED[3..], op);
  }

  /** And the text may stand anywhere in them. */
  lemma SearchPattern(d: Dialect, f: Filter, trim: string -> string, pattern: Arg)
    requires pattern == TextArg("%" + trim(f.query) + "%")
    ensures Wanted(d, f, trim)[5] == if trim(f.query) != "" then Some(Clause(SearchText(d), [pattern, pattern, pattern, pattern, pattern, pattern])) else None
  {
    assert ['%'] + trim(f.query) + ['%'] == "%" + trim(f.query) + "%";
  }

  ghost predicate SameText(a: Option<Clause>, b: Option<Clause>) { (a.Some? <==> b.Some?) && (a.Some? ==> a.value.text == b.value.text) }

  lemma {:induction false} SameTexts(a: seq<Option<Clause>>, b: seq<Option<Clause>>)
    requires |a| == |b| && forall i :: 0 <= i < |a| ==> SameText(a[i], b[i])
    ensures Joined(a) == Joined(b)
  {
    if a != [] {
      assert SameText(a[0], b[0]);
      assert forall i :: 0 <= i < |a[1..]| ==> a[1..][i] == a[i + 1] && b[1..][i] == b[i + 1];
      SameTexts(a[1..], b[1..]);
    }
  }

  /** The same conditions are set, whatever they compare with. */
  predicate SameShape(f: Filter, g: Filter, trim: string -> string) {
    && (f.subscription.Some? <==> g.subscription.Some?) && (f.apiKey.Some? <==> g.apiKey.Some?)
    && (f.user.Some? <==> g.user.Some?) && (f.statusCode.Some? <==> g.statusCode.Some?)
    && (trim(f.provider) == [] <==> trim(g.provider) == []) && (trim(f.query) == [] <==> trim(g.query) == [])
  }

  lemma SameProvider(a: string, b: string)
    requires a == [] <==> b == []
    ensures SameText(TextIs("provider=", a), TextIs("provider=", b))
  {
  }

  lemma SameSearch(d: Dialect, a: string, b: string)
    requires a == [] <==> b == []
    ensures SameText(Search(d, a), Search(d, b))
  {
  }

  lemma SameInt(column: string, a: Option<int>, b: Option<int>)
    requires a.Some? <==> b.Some?
    ensures SameText(IntIs(column, a), IntIs(column, b))
  {
  }

  lemma SameListed(a0: Option<Clause>, a1: Option<Clause>, a2: Option<Clause>, a3: Option<Clause>, a4: Option<Clause>, a5: Option<Clause>,
                   b0: Option<Clause>, b1: Option<Clause>, b2: Option<Clause>, b3: Option<Clause>, b4: Option<Clause>, b5: Option<Clause>)
    requires SameText(a0, b0) && SameText(a1, b1) && SameText(a2, b2) && SameText(a3, b3) && SameText(a4, b4) && SameText(a5, b5)
    ensures Joined(Listed(a0, a1, a2, a3, a4, a5)) == Joined(Listed(b0, b1, b2, b3, b4, b5))
  {
    SameTexts(Listed(a0, a1, a2, a3, a4, a5), Listed(b0, b1, b2, b3, b4, b5));
  }

  /** The text depends on which conditions are set, never on the values they compare with. */
  lemma TextIgnoresValues(d: Dialect, f: Filter, g: Filter, trim: string -> string)
    requires SameShape(f, g, trim)
    ensures Joined(Wanted(d, f, trim)) == Joined(Wanted(d, g, trim))
  {
    SameInt("subscription_id=", f.subscription, g.subscription);
    SameInt("api_key_id=", f.apiKey, g.apiKey);
    SameInt("user_id=", f.user, g.user);
    SameInt("status_code=", f.statusCode, g.statusCode);
    SameProvider(trim(f.provider), trim(g.provider));
    SameSearch(d, trim(f.query), trim(g.query));
    SameListed(IntIs("subscription_id=", f.subscription), IntIs("api_key_id=", f.apiKey), IntIs("user_id=", f.user),
               TextIs("provider=", trim(f.provider)), IntIs("status_code=", f.statusCode), Search(d, trim(f.query)),
               IntIs("subscription_id=", g.subscription), IntIs("api_key_id=", g.apiKey), IntIs("user_id=", g.user),
               TextIs("provider=", trim(g.provider)), IntIs("status_code=", g.statusCode), Search(d, trim(g.query)));
  }
}
