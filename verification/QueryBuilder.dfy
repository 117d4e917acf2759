/** The embedded query builder: each `?` of a condition becomes the next numbered
    placeholder, counted from the parameters collected so far. A query with metadata holds
    the core once and, around it, only text without placeholders. */
module QueryBuilder {
  import opened Options
  import opened CStrings

  // ---------- reading placeholders ----------

  lemma {:induction false} MoreDigits(a: string, b: string)
    requires AllDigits(a) && AllDigits(b) && b != ""
    ensures AllDigits(a + b) && Number(a + b) >= 10 * Number(a)
  {
    assert (a + b)[..|a + b| - 1] == a + b[..|b| - 1];
    if |b| == 1 {
      assert a + b[..0] == a;
    } else {
      MoreDigits(a, b[..|b| - 1]);
    }
  }

  function DigitRun(s: string): (r: string)
    ensures |r| <= |s| && r == s[..|r|] && AllDigits(r)
    ensures |r| < |s| ==> !IsDigit(s[|r|])
  {
    if s == "" || !IsDigit(s[0]) then "" else [s[0]] + DigitRun(s[1..])
  }

  /** The numbers of the `$n` in a text, left to right. */
  function Placeholders(s: string): seq<nat>
    decreases |s|
  {
    if s == "" then []
    else if s[0] == '$' && DigitRun(s[1..]) != "" then
      [Number(DigitRun(s[1..]))] + Placeholders(s[1 + |DigitRun(s[1..])|..])
    else Placeholders(s[1..])
  }

  predicate NoDigitFirst(s: string) {
    s == "" || !IsDigit(s[0])
  }

  lemma {:induction false} RunBefore(a: string, b: string)
    requires NoDigitFirst(b)
    ensures DigitRun(a + b) == DigitRun(a)
  {
    if a == "" {
      assert a + b == b;
    } else {
      assert (a + b)[1..] == a[1..] + b;
      if IsDigit(a[0]) {
        RunBefore(a[1..], b);
      }
    }
  }

  lemma PlaceholdersSkip(c: char, s: string)
    requires c != '$' || NoDigitFirst(s)
    ensures Placeholders([c] + s) == Placeholders(s)
  {
    assert ([c] + s)[1..] == s;
  }

  lemma PlaceholdersTake(run: string, s: string)
    requires AllDigits(run) && run != "" && NoDigitFirst(s)
    ensures Placeholders("$" + run + s) == [Number(run)] + Placeholders(s)
  {
    hide Number;
    var t := "$" + run + s;
    assert t[1..] == run + s;
    RunBefore(run, s);
    WholeRun(run);
    assert t[1 + |run|..] == s;
  }

  /** Texts can be read piece by piece where the second does not start with a digit. */
  lemma {:induction false} PlaceholdersConcat(a: string, b: string)
    requires NoDigitFirst(b)
    ensures Placeholders(a + b) == Placeholders(a) + Placeholders(b)
    decreases |a|
  {
    hide Placeholders, Number, DigitRun;
    if a == "" {
      assert a + b == b;
      assert Placeholders("") == [] by { EmptyText(); }
    } else if a[0] == '$' && !NoDigitFirst(a[1..]) {
      var run := DigitRun(a[1..]);
      var rest := a[1 + |run|..];
      RunNotEmpty(a[1..]);
      assert a[1..] == run + rest;
      assert a == "$" + run + rest && a + b == "$" + run + (rest + b);
      PlaceholdersConcat(rest, b);
      PlaceholdersTake(run, rest);
      PlaceholdersTake(run, rest + b);
      assert [Number(run)] + (Placeholders(rest) + Placeholders(b))
        == ([Number(run)] + Placeholders(rest)) + Placeholders(b);
    } else {
      assert a == [a[0]] + a[1..] && a + b == [a[0]] + (a[1..] + b);
      PlaceholdersConcat(a[1..], b);
      PlaceholdersSkip(a[0], a[1..]);
      PlaceholdersSkip(a[0], a[1..] + b);
    }
  }

  lemma EmptyText()
    ensures Placeholders("") == []
  {
  }

  lemma RunNotEmpty(s: string)
    requires !NoDigitFirst(s)
    ensures DigitRun(s) != ""
  {
  }

  /** The text refers to no parameter; a `$` may stand in it, but not in front of a digit. */
  predicate Silent(s: string) {
    Placeholders(s) == []
  }

  lemma SilentStep(c: char, rest: string)
    requires Silent([c] + rest)
    ensures Silent(rest) && (c == '$' ==> NoDigitFirst(rest))
  {
    assert ([c] + rest)[1..] == rest;
    if c == '$' && !NoDigitFirst(rest) {
      RunNotEmpty(rest);
    }
  }

  /** So nowhere does a digit follow a `$`. */
  lemma {:induction false} SilentExactly(s: string)
    ensures Silent(s) <==> forall i :: 0 < i < |s| && s[i - 1] == '$' ==> !IsDigit(s[i])
  {
    hide Placeholders, DigitRun, Number;
    if s == "" {
      EmptyText();
    } else {
      var c, rest := s[0], s[1..];
      assert s == [c] + rest;
      SilentExactly(rest);
      assert forall i :: 0 < i < |rest| ==> rest[i - 1] == s[i] && rest[i] == s[i + 1];
      if c != '$' || NoDigitFirst(rest) {
        PlaceholdersSkip(c, rest);
        Shifted(s);
      } else {
        assert s[0] == '$' && IsDigit(s[1]);
        if Silent(s) {
          SilentStep(c, rest);
        }
      }
    }
  }

  lemma Shifted(s: string)
    requires s != "" && (s[0] != '$' || NoDigitFirst(s[1..]))
    ensures (forall i :: 0 < i < |s| && s[i - 1] == '$' ==> !IsDigit(s[i]))
      <==> (forall i :: 0 < i < |s[1..]| && s[1..][i - 1] == '$' ==> !IsDigit(s[1..][i]))
  {
    var rest := s[1..];
    if forall i :: 0 < i < |s| && s[i - 1] == '$' ==> !IsDigit(s[i]) {
      forall i | 0 < i < |rest| && rest[i - 1] == '$' ensures !IsDigit(rest[i]) {
        assert s[i + 1 - 1] == '$' && s[i + 1] == rest[i];
      }
    }
    if forall i :: 0 < i < |rest| && rest[i - 1] == '$' ==> !IsDigit(rest[i]) {
      forall i | 0 < i < |s| && s[i - 1] == '$' ensures !IsDigit(s[i]) {
        if i == 1 {
          assert s[1] == rest[0];
        } else {
          assert rest[i - 1 - 1] == '$' && rest[i - 1] == s[i];
        }
      }
    }
  }

  /** Part of a silent text is silent. */
  lemma SilentPart(s: string, i: nat, j: nat)
    requires i <= j <= |s| && Silent(s)
    ensures Silent(s[i..j])
  {
    hide Placeholders;
    SilentExactly(s);
    SilentExactly(s[i..j]);
    var t := s[i..j];
    forall k | 0 < k < |t| && t[k - 1] == '$' ensures !IsDigit(t[k]) {
      assert s[i + k - 1] == '$' && t[k] == s[i + k];
    }
  }

  /** Text without `$` is silent, whatever follows it. */
  lemma {:induction false} SeparatorSilent(sep: string, rest: string)
    requires '$' !in sep
    ensures Placeholders(sep + rest) == Placeholders(rest)
  {
    hide Placeholders;
    if sep == "" {
      assert sep + rest == rest;
    } else {
      assert sep[0] in sep;
      assert sep + rest == [sep[0]] + (sep[1..] + rest);
      SeparatorSilent(sep[1..], rest);
      PlaceholdersSkip(sep[0], sep[1..] + rest);
    }
  }

  // ---------- renumbering ----------

  function Marks(cond: string): nat {
    if cond == "" then 0 else (if cond[0] == '?' then 1 else 0) + Marks(cond[1..])
  }

  /** The gsub of `where`, with its counter. */
  function Renumber(cond: string, count: nat): string {
    if cond == "" then ""
    else if cond[0] == '?' then "$" + Decimal(count + 1) + Renumber(cond[1..], count + 1)
    else [cond[0]] + Renumber(cond[1..], count)
  }

  /** No `?` is directly followed by a digit. */
  predicate Separated(cond: string) {
    forall i :: 0 <= i < |cond| - 1 && cond[i] == '?' ==> !IsDigit(cond[i + 1])
  }

  function Numbers(from: nat, n: nat): (r: seq<nat>)
    ensures |r| == n
  {
    seq(n, i requires 0 <= i < n => from + i)
  }

  lemma NumbersSplit(from: nat, a: nat, b: nat)
    ensures Numbers(from, a + b) == Numbers(from, a) + Numbers(from + a, b)
  {
  }

  lemma RenumberStart(cond: string, count: nat)
    ensures NoDigitFirst(Renumber(cond, count)) <==> NoDigitFirst(cond)
  {
  }

  lemma PlaceholderFirst(n: nat, rest: string)
    requires NoDigitFirst(rest)
    ensures Placeholders("$" + Decimal(n) + rest) == [n] + Placeholders(rest)
  {
    NumberDecimal(n);
    PlaceholdersTake(Decimal(n), rest);
  }

  lemma {:induction false} WholeRun(d: string)
    requires AllDigits(d)
    ensures DigitRun(d) == d
  {
    if d != "" {
      WholeRun(d[1..]);
    }
  }

  /** In a condition that names no parameter itself, the placeholders of the renumbered text
      continue the count exactly when no mark is directly followed by a digit. */
  lemma {:induction false} RenumberExact(cond: string, count: nat)
    requires Silent(cond)
    ensures Placeholders(Renumber(cond, count)) == Numbers(count + 1, Marks(cond)) <==> Separated(cond)
  {
    hide Placeholders, Numbers, Separated;
    if cond == "" {
      RenumberNothing(count);
    } else {
      var c, rest := cond[0], cond[1..];
      assert cond == [c] + rest;
      SilentStep(c, rest);
      SeparatedStep(c, rest);
      if c == '?' {
        RenumberExact(rest, count + 1);
        RenumberMark(rest, count);
      } else {
        RenumberExact(rest, count);
        RenumberStart(rest, count);
        PlaceholdersSkip(c, Renumber(rest, count));
      }
    }
  }

  lemma RenumberNothing(count: nat)
    ensures Placeholders("") == Numbers(count + 1, 0) && Separated("")
  {
  }

  lemma RenumberMark(rest: string, count: nat)
    ensures var tail := Renumber(rest, count + 1); var n := Marks(rest);
      Placeholders("$" + Decimal(count + 1) + tail) == Numbers(count + 1, 1 + n)
      <==> Placeholders(tail) == Numbers(count + 2, n) && NoDigitFirst(rest)
  {
    hide Placeholders, Decimal, Renumber;
    var tail, n := Renumber(rest, count + 1), Marks(rest);
    RenumberStart(rest, count + 1);
    var found, wanted := Placeholders("$" + Decimal(count + 1) + tail), Numbers(count + 1, 1 + n);
    assert wanted[0] == count + 1 && wanted[1..] == Numbers(count + 2, n);
    if NoDigitFirst(rest) {
      PlaceholderFirst(count + 1, tail);
      assert found[1..] == Placeholders(tail);
      assert wanted == [count + 1] + wanted[1..];
    } else {
      SwallowsDigits(count + 1, tail);
    }
  }

  lemma SeparatedStep(c: char, rest: string)
    ensures Separated([c] + rest) <==> Separated(rest) && (c == '?' ==> NoDigitFirst(rest))
  {
    var s := [c] + rest;
    assert forall i :: 0 <= i < |rest| ==> s[i + 1] == rest[i];
    if Separated(s) {
      forall i | 0 <= i < |rest| - 1 && rest[i] == '?' ensures !IsDigit(rest[i + 1]) {
        assert s[i + 1] == '?' && s[i + 2] == rest[i + 1];
      }
      if c == '?' && rest != "" {
        assert s[0] == '?' && !IsDigit(s[0 + 1]);
      }
    }
    if Separated(rest) && (c == '?' ==> NoDigitFirst(rest)) {
      forall i | 0 <= i < |s| - 1 && s[i] == '?' ensures !IsDigit(s[i + 1]) {
        if i > 0 {
          assert rest[i - 1] == '?';
        }
      }
    }
  }

  /** A digit behind a mark is read as part of the placeholder's number. */
  lemma SwallowsDigits(n: nat, tail: string)
    requires n > 0 && !NoDigitFirst(tail)
    ensures Placeholders("$" + Decimal(n) + tail) != [] && Placeholders("$" + Decimal(n) + tail)[0] > n
  {
    var d, run := Decimal(n), DigitRun(tail);
    var s := "$" + d + tail;
    assert s[1..] == d + tail;
    RunAfter(d, tail);
    NumberDecimal(n);
    MoreDigits(d, run);
  }

  lemma {:induction false} RunAfter(d: string, tail: string)
    requires AllDigits(d)
    ensures DigitRun(d + tail) == d + DigitRun(tail)
  {
    if d == "" {
      assert d + tail == tail;
    } else {
      assert (d + tail)[1..] == d[1..] + tail;
      RunAfter(d[1..], tail);
    }
  }

  // ---------- the builder on values ----------

  /** What a number prints as. */
  type Printed = s: string | '$' !in s witness "0"

  function Whole(n: int): Printed {
    SignedPlain(n);
    Signed(n)
  }

  lemma SignedPlain(n: int)
    ensures '$' !in Signed(n)
  {
  }

  /** A number of the script: how it prints, and the integer it equals if there is one. */
  datatype Numeral = Integer(n: int) | Float(text: Printed, whole: Option<int>)

  /** tostring */
  function Shown(n: Numeral): Printed {
    match n
    case Integer(i) => Whole(i)
    case Float(text, _) => text
  }

  /** string.format with `%d`, an error for a number with no integer value. */
  function Integral(n: Numeral): Option<Printed> {
    match n
    case Integer(i) => Some(Whole(i))
    case Float(_, None) => None
    case Float(_, Some(i)) => Some(Whole(i))
  }

  /** The argument of limit and offset: nil, or a value that is no number for tonumber, or one
      that is. */
  datatype Amount = Absent | NoNumber | Amount(n: Numeral)

  /** The builder's state; `meta` holds the types given for the fields of the metadata row. */
  datatype Builder = Builder(
    selects: seq<string>, source: Option<string>, wheres: seq<string>, order: Option<string>,
    limit: Option<Numeral>, offset: Option<Numeral>, params: seq<string>, meta: Option<map<string, string>>)

  const NEW := Builder([], None, [], None, None, None, [], None)

  /** One call. A parameter may be nil; the flag of WhereIf says whether its value was
      neither nil nor the empty string. */
  datatype Call =
    | Select(columns: seq<string>)
    | From(source: string)
    | Where(cond: string, params: seq<Option<string>>)
    | WhereIf(present: bool, cond: string, params: seq<Option<string>>)
    | OrderBy(order: string)
    | SetLimit(amount: Amount)
    | SetOffset(amount: Amount)
    | WithMetadata(fields: map<string, string>)

  /** What ipairs visits: the parameters up to the first nil. */
  function Given(params: seq<Option<string>>): seq<string> {
    if params == [] || params[0].None? then [] else [params[0].value] + Given(params[1..])
  }

  function AddWhere(b: Builder, cond: string, params: seq<Option<string>>): Builder {
    b.(wheres := b.wheres + [Renumber(cond, |b.params|)], params := b.params + Given(params))
  }

  function Set(before: Option<Numeral>, a: Amount): Option<Numeral> {
    match a
    case Absent => before
    case NoNumber => None
    case Amount(n) => Some(n)
  }

  function Apply(b: Builder, c: Call): Builder {
    match c
    case Select(columns) => b.(selects := columns)
    case From(source) => b.(source := Some(source))
    case Where(cond, params) => AddWhere(b, cond, params)
    case WhereIf(present, cond, params) => if present then AddWhere(b, cond, params) else b
    case OrderBy(order) => b.(order := Some(order))
    case SetLimit(amount) => b.(limit := Set(b.limit, amount))
    case SetOffset(amount) => b.(offset := Set(b.offset, amount))
    case WithMetadata(fields) => b.(meta := Some(fields))
  }

  function ApplyAll(b: Builder, calls: seq<Call>): Builder
    decreases |calls|
  {
    if calls == [] then b else ApplyAll(Apply(b, calls[0]), calls[1..])
  }

  /** table.concat */
  function Concat(parts: seq<string>, sep: string): string {
    if parts == [] then ""
    else if |parts| == 1 then parts[0]
    else parts[0] + sep + Concat(parts[1..], sep)
  }

  function SelectClause(b: Builder): string {
    "SELECT " + if b.selects != [] then Concat(b.selects, ", ") else "*"
  }

  function SourceParts(b: Builder): seq<string> {
    [SelectClause(b)] + if b.source.Some? then ["FROM " + b.source.value] else []
  }

  function WhereParts(b: Builder): seq<string> {
    if b.wheres != [] then ["WHERE " + Concat(b.wheres, " AND ")] else []
  }

  function OrderParts(b: Builder): seq<string> {
    if b.order.Some? then ["ORDER BY " + b.order.value] else []
  }

  function LimitParts(b: Builder): seq<string> {
    (if b.limit.Some? then ["LIMIT " + Shown(b.limit.value)] else []) +
    (if b.offset.Some? then ["OFFSET " + Shown(b.offset.value)] else [])
  }

  /** The parts of a query without its limits. */
  function CoreParts(b: Builder): seq<string> {
    SourceParts(b) + WhereParts(b) + OrderParts(b)
  }

  /** _build_core */
  function BuildCore(b: Builder): string {
    Concat(CoreParts(b) + LimitParts(b), " ")
  }

  // ---------- the fields of the metadata row ----------

  /** Whether a word starts here that white space, `as` and white space follow. */
  predicate AliasedAt(s: string, i: nat)
    requires i <= |s|
  {
    var w := WordLength(s[i..]);
    var tail := TrimLeft(s[i + w..]);
    && w > 0 && |tail| < |s| - i - w
    && |tail| > 2 && tail[0] in "aA" && tail[1] in "sS" && IsSpace(tail[2])
  }

  /** The first such word. */
  function Aliased(s: string, i: nat): (r: Option<string>)
    requires i <= |s|
    ensures r.Some? ==> exists j, k :: 0 <= j <= k <= |s| && r.value == s[j..k]
    decreases |s| - i
  {
    if AliasedAt(s, i) then
      var k := i + WordLength(s[i..]);
      assert s[i..k] == s[i..][..WordLength(s[i..])];
      Some(s[i..k])
    else if i == |s| then None
    else Aliased(s, i + 1)
  }

  /** What follows the last dot, if anything does. */
  function AfterDot(s: string): (r: Option<string>)
    ensures r.Some? ==> |r.value| <= |s| && r.value == s[|s| - |r.value|..]
  {
    if s == "" then None
    else if s[0] == '.' && |s| > 1 && '.' !in s[1..] then Some(s[1..])
    else AfterDot(s[1..])
  }

  function OrElse(o: Option<string>, s: string): string {
    if o.Some? then o.value else s
  }

  /** The column, or what an alias is given to, without what its last dot qualifies. */
  function FieldName(column: string): string {
    var word := OrElse(Aliased(column, 0), column);
    OrElse(AfterDot(word), word)
  }

  predicate EndsWith(s: string, end: string) {
    |end| <= |s| && s[|s| - |end|..] == end
  }

  function FieldType(fields: map<string, string>, name: string): string {
    if name in fields then fields[name]
    else if name == "id" then "bigint"
    else if EndsWith(name, "_id") then "integer"
    else if EndsWith(name, "count") then "bigint"
    else "text"
  }

  function NullField(fields: map<string, string>, column: string): string {
    Format(["NULL::", " as ", ""], [FieldType(fields, FieldName(column)), FieldName(column)])
  }

  function NullFields(fields: map<string, string>, columns: seq<string>): seq<string> {
    if columns == [] then []
    else NullFields(fields, columns[..|columns| - 1]) + [NullField(fields, columns[|columns| - 1])]
  }

  lemma NullFieldsStart(fields: map<string, string>)
    ensures NullFields(fields, []) == []
  {
  }

  lemma NullFieldsStep(fields: map<string, string>, columns: seq<string>, i: nat)
    requires i < |columns|
    ensures NullFields(fields, columns[..i + 1]) == NullFields(fields, columns[..i]) + [NullField(fields, columns[i])]
  {
    hide NullField;
    assert columns[..i + 1][..i] == columns[..i];
  }

  // ---------- the query with metadata ----------

  /** string.format: the pieces of the format around its `%s`, with the arguments put in. */
  function Format(pieces: seq<string>, args: seq<string>): string
    requires |pieces| == |args| + 1
  {
    if args == [] then pieces[0] else pieces[0] + (args[0] + Format(pieces[1..], args[1..]))
  }

  function Spaces(n: nat): (r: string)
    ensures |r| == n && '$' !in r && NoDigitFirst(r)
  {
    if n == 0 then "" else " " + Spaces(n - 1)
  }

  /** A line of the format, with the line break in front of it. */
  function Line(indent: nat, text: string): (r: string)
    ensures r != "" && NoDigitFirst(r)
    ensures '$' !in text ==> '$' !in r
  {
    "\n" + Spaces(indent) + text
  }

  /** In front of the core. */
  function Opening(): (r: string)
    ensures '$' !in r
  {
    Spaces(12) + "WITH base_query AS (" + Line(16, "")
  }

  /** Between the core and its limits. */
  function Counting(): (r: string)
    ensures '$' !in r && r != "" && NoDigitFirst(r)
  {
    Line(12, "),") + Line(12, "total_count AS (") + CountRows() + Line(12, "),") + Selecting()
  }

  function CountRows(): (r: string)
    ensures '$' !in r && r != "" && NoDigitFirst(r)
  {
    Line(16, "SELECT COUNT(*) as ") + "count FROM base_query"
  }

  function Selecting(): (r: string)
    ensures '$' !in r && r != "" && NoDigitFirst(r)
  {
    Line(12, "paginated_data AS (") + Columns() + Line(16, "FROM base_query, ") + "total_count" + Line(16, "")
  }

  function Columns(): (r: string)
    ensures '$' !in r && r != "" && NoDigitFirst(r)
  {
    Line(16, "SELECT base_query.*, ") + "total_count.count as " + "total_count"
  }

  /** Between the limits and the columns of the data rows. */
  function DataColumns(): (r: string)
    ensures '$' !in r && r != "" && NoDigitFirst(r)
  {
    Line(12, ")") + Line(12, "(") + Line(16, "SELECT ") + Line(20, "'data'::text as type,") + TotalCount()
  }

  function TotalCount(): (r: string)
    ensures '$' !in r && r != "" && NoDigitFirst(r)
  {
    Line(20, "NULL::bigint as ") + "total_count," + Line(20, "")
  }

  /** Between the columns of the data rows and the fields of the metadata row. */
  function MetadataColumns(): (r: string)
    ensures '$' !in r && r != "" && NoDigitFirst(r)
  {
    "," + NullOffset() + NullMore() + Line(12, ")") + Line(12, "UNION ALL") + Line(12, "(") + MetadataRow()
  }

  function NullOffset(): (r: string)
    ensures '$' !in r && r != "" && NoDigitFirst(r)
  {
    Line(20, "NULL::integer as ") + "offset," + NullLimit()
  }

  function NullLimit(): (r: string)
    ensures '$' !in r && r != "" && NoDigitFirst(r)
  {
    Line(20, "NULL::integer as ") + "limit,"
  }

  function NullMore(): (r: string)
    ensures '$' !in r && r != "" && NoDigitFirst(r)
  {
    Line(20, "NULL::boolean as ") + "has_more" + FromPaginated()
  }

  function FromPaginated(): (r: string)
    ensures '$' !in r && r != "" && NoDigitFirst(r)
  {
    Line(16, "FROM ") + "paginated_data"
  }

  function MetadataRow(): (r: string)
    ensures '$' !in r && r != "" && NoDigitFirst(r)
  {
    Line(16, "SELECT") + Line(20, "'metadata'::text ") + "as type," + MetadataCount()
  }

  function MetadataCount(): (r: string)
    ensures '$' !in r && r != "" && NoDigitFirst(r)
  {
    Line(20, "count::bigint as ") + "total_count," + Line(20, "")
  }

  /** Between the limit and the offset that look for more rows. */
  function MoreRows(): (r: string)
    ensures '$' !in r && r != "" && NoDigitFirst(r)
  {
    " as limit," + Line(20, "EXISTS (") + SelectOne() + Line(24, "OFFSET ")
  }

  function SelectOne(): (r: string)
    ensures '$' !in r && r != "" && NoDigitFirst(r)
  {
    Line(24, "SELECT 1 FROM ") + "base_query"
  }

  function Closing(): (r: string)
    ensures '$' !in r && r != "" && NoDigitFirst(r)
  {
    Line(24, "LIMIT 1") + Line(20, ") as has_more") + FromTotal() + Ordering()
  }

  function FromTotal(): (r: string)
    ensures '$' !in r && r != "" && NoDigitFirst(r)
  {
    Line(16, "FROM ") + "total_count" + Line(12, ")")
  }

  function Ordering(): (r: string)
    ensures '$' !in r && r != "" && NoDigitFirst(r)
  {
    Line(12, "ORDER BY type DESC") + Line(8, "")
  }

  /** The format of a query with metadata. */
  function Envelope(): (r: seq<string>)
    ensures |r| == 10
  {
    [Opening(), Counting(), Line(16, ""), DataColumns(), MetadataColumns(), "," + Line(20, ""),
     " as offset," + Line(20, ""), MoreRows(), " + ", Closing()]
  }

  function Or(n: Option<Numeral>, otherwise: Printed): Printed {
    if n.Some? then Shown(n.value) else otherwise
  }

  /** The limit or offset of the data rows; None is the error of `%d`. */
  function Clause(word: string, n: Option<Numeral>): Option<string> {
    if n.None? then Some("")
    else match Integral(n.value)
      case None => None
      case Some(digits) => Some(word + digits)
  }

  /** What is put into the format. */
  function MetadataArgs(b: Builder, fields: map<string, string>, limit: string, offset: string): (r: seq<string>)
    ensures |r| == 9
  {
    var from, size := Or(b.offset, "0"), Or(b.limit, "20");
    [Concat(CoreParts(b), " "), limit, offset, Concat(b.selects, ", "), Concat(NullFields(fields, b.selects), ", "),
     from, size, from, size]
  }

  /** _build_select; None is the error of a limit or offset with a fraction in a query with
      metadata. */
  function BuildSelect(b: Builder): Option<string> {
    if b.meta.None? then Some(BuildCore(b))
    else
      var limit, offset := Clause("LIMIT ", b.limit), Clause("OFFSET ", b.offset);
      if limit.None? || offset.None? then None
      else Some(Format(Envelope(), MetadataArgs(b, b.meta.value, limit.value, offset.value)))
  }

  // ---------- the placeholders of the built query ----------

  predicate AllSilent(s: seq<string>) {
    forall i :: 0 <= i < |s| ==> Silent(s[i])
  }

  predicate OptionSilent(o: Option<string>) {
    o.Some? ==> Silent(o.value)
  }

  predicate FieldsSilent(fields: map<string, string>) {
    forall name :: name in fields ==> Silent(fields[name])
  }

  /** The condition of a where call can be numbered: no `$n`, no mark in front of a digit,
      and as many non-nil parameters as marks. */
  predicate ValidWhere(cond: string, params: seq<Option<string>>) {
    Silent(cond) && Separated(cond) && |Given(params)| == Marks(cond)
  }

  predicate ValidCall(c: Call) {
    match c
    case Select(columns) => AllSilent(columns)
    case From(source) => Silent(source)
    case Where(cond, params) => ValidWhere(cond, params)
    case WhereIf(present, cond, params) => present ==> ValidWhere(cond, params)
    case OrderBy(order) => Silent(order)
    case WithMetadata(fields) => FieldsSilent(fields)
    case _ => true
  }

  predicate ValidCalls(calls: seq<Call>) {
    forall i :: 0 <= i < |calls| ==> ValidCall(calls[i])
  }

  /** The parameters supplied for the marks, call by call. */
  function Supplied(calls: seq<Call>): seq<string>
    decreases |calls|
  {
    if calls == [] then [] else SuppliedBy(calls[0]) + Supplied(calls[1..])
  }

  function AllPlaceholders(texts: seq<string>): seq<nat> {
    if texts == [] then [] else AllPlaceholders(texts[..|texts| - 1]) + Placeholders(texts[|texts| - 1])
  }

  /** What every valid chain of calls keeps. */
  ghost predicate Numbered(b: Builder) {
    && AllPlaceholders(b.wheres) == Numbers(1, |b.params|)
    && AllSilent(b.selects) && OptionSilent(b.source) && OptionSilent(b.order)
    && (b.meta.Some? ==> FieldsSilent(b.meta.value))
  }

  lemma WhereNumbered(b: Builder, cond: string, params: seq<Option<string>>)
    requires Numbered(b) && ValidWhere(cond, params)
    ensures Numbered(AddWhere(b, cond, params))
  {
    RenumberExact(cond, |b.params|);
    var b' := AddWhere(b, cond, params);
    assert b'.wheres[..|b'.wheres| - 1] == b.wheres;
    NumbersSplit(1, |b.params|, Marks(cond));
  }

  /** The parameters one call supplies. */
  function SuppliedBy(c: Call): seq<string> {
    match c
    case Where(_, params) => Given(params)
    case WhereIf(present, _, params) => if present then Given(params) else []
    case _ => []
  }

  lemma CallNumbered(b: Builder, c: Call)
    requires Numbered(b) && ValidCall(c)
    ensures Numbered(Apply(b, c)) && Apply(b, c).params == b.params + SuppliedBy(c)
  {
    hide AllPlaceholders;
    assert b.params + [] == b.params;
    match c {
      case Where(cond, params) => WhereNumbered(b, cond, params);
      case WhereIf(present, cond, params) => if present { WhereNumbered(b, cond, params); }
      case _ =>
    }
  }

  lemma StartNumbered()
    ensures Numbered(NEW)
  {
  }

  lemma {:induction false} CallsNumbered(b: Builder, calls: seq<Call>)
    requires Numbered(b) && ValidCalls(calls)
    ensures Numbered(ApplyAll(b, calls))
    ensures ApplyAll(b, calls).params == b.params + Supplied(calls)
    decreases |calls|
  {
    hide Numbered, Apply, ValidCall, SuppliedBy;
    if calls == [] {
      assert b.params + [] == b.params;
    } else {
      CallNumbered(b, calls[0]);
      CallsNumbered(Apply(b, calls[0]), calls[1..]);
      assert b.params + (SuppliedBy(calls[0]) + Supplied(calls[1..]))
        == (b.params + SuppliedBy(calls[0])) + Supplied(calls[1..]);
    }
  }

  /** Joining texts with separators that start with no digit and hold no `$`. */
  lemma {:induction false} ConcatPlaceholders(parts: seq<string>, sep: string)
    requires sep != "" && NoDigitFirst(sep) && '$' !in sep
    ensures Placeholders(Concat(parts, sep)) == Flat(parts)
  {
    hide Placeholders;
    if parts == [] {
      EmptyText();
    } else if |parts| == 1 {
      assert parts[1..] == [];
      assert Placeholders(parts[0]) + [] == Placeholders(parts[0]);
    } else {
      var rest := Concat(parts[1..], sep);
      ConcatPlaceholders(parts[1..], sep);
      SeparatorSilent(sep, rest);
      PlaceholdersConcat(parts[0], sep + rest);
      assert parts[0] + sep + rest == parts[0] + (sep + rest);
    }
  }

  function Flat(parts: seq<string>): seq<nat> {
    if parts == [] then [] else Placeholders(parts[0]) + Flat(parts[1..])
  }

  lemma {:induction false} FlatConcat(a: seq<string>, b: seq<string>)
    ensures Flat(a + b) == Flat(a) + Flat(b)
  {
    if a == [] {
      assert a + b == b;
    } else {
      assert (a + b)[1..] == a[1..] + b;
      FlatConcat(a[1..], b);
    }
  }

  lemma {:induction false} FlatIsAll(texts: seq<string>)
    ensures Flat(texts) == AllPlaceholders(texts)
  {
    if texts != [] {
      var init, last := texts[..|texts| - 1], texts[|texts| - 1];
      FlatIsAll(init);
      FlatConcat(init, [last]);
      assert texts == init + [last];
      assert [last][1..] == [];
    }
  }

  lemma {:induction false} FlatSilent(parts: seq<string>)
    requires AllSilent(parts)
    ensures Flat(parts) == []
  {
    hide Placeholders;
    if parts != [] {
      assert Silent(parts[0]);
      FlatSilent(parts[1..]);
    }
  }

  lemma SilentBehind(word: string, s: string)
    requires '$' !in word && Silent(s)
    ensures Silent(word + s)
  {
    SeparatorSilent(word, s);
  }

  lemma SilentWords(word: string, s: string)
    requires '$' !in word && '$' !in s
    ensures Silent(word + s)
  {
    hide Placeholders;
    SeparatorSilent(word + s, "");
    assert word + s + "" == word + s;
    EmptyText();
  }

  lemma ColumnsSilent(columns: seq<string>)
    requires AllSilent(columns)
    ensures Silent(Concat(columns, ", ")) && Silent("*")
  {
    ConcatPlaceholders(columns, ", ");
    FlatSilent(columns);
  }

  lemma PartsFlat(b: Builder)
    requires Numbered(b)
    ensures Flat(SourceParts(b)) == [] && Flat(OrderParts(b)) == [] && Flat(LimitParts(b)) == []
    ensures Flat(WhereParts(b)) == Numbers(1, |b.params|)
  {
    hide Placeholders, Concat, Silent, AllPlaceholders;
    ColumnsSilent(b.selects);
    SilentBehind("SELECT ", if b.selects != [] then Concat(b.selects, ", ") else "*");
    if b.source.Some? { SilentBehind("FROM ", b.source.value); }
    if b.order.Some? { SilentBehind("ORDER BY ", b.order.value); }
    if b.limit.Some? { SilentWords("LIMIT ", Shown(b.limit.value)); }
    if b.offset.Some? { SilentWords("OFFSET ", Shown(b.offset.value)); }
    FlatSilent(SourceParts(b));
    FlatSilent(OrderParts(b));
    FlatSilent(LimitParts(b));
    FlatIsAll(b.wheres);
    if b.wheres != [] {
      var joined := Concat(b.wheres, " AND ");
      ConcatPlaceholders(b.wheres, " AND ");
      SeparatorSilent("WHERE ", joined);
      assert WhereParts(b)[1..] == [];
      assert Flat(WhereParts(b)) == Placeholders("WHERE " + joined) + [];
    }
  }

  lemma SpacedPlaceholders(parts: seq<string>)
    ensures Placeholders(Concat(parts, " ")) == Flat(parts)
  {
    ConcatPlaceholders(parts, " ");
  }

  /** Around the arguments of a format stands no `$`, and no digit behind one. */
  predicate Framing(pieces: seq<string>) {
    && (forall i :: 0 <= i < |pieces| ==> '$' !in pieces[i])
    && (forall i :: 0 < i < |pieces| ==> NoDigitFirst(pieces[i]) && (pieces[i] == "" ==> i == |pieces| - 1))
  }

  lemma FormatStart(pieces: seq<string>, args: seq<string>)
    requires |pieces| == |args| + 1 && NoDigitFirst(pieces[0]) && (pieces[0] == "" ==> args == [])
    ensures NoDigitFirst(Format(pieces, args))
  {
  }

  /** Then the placeholders of the text are those of the arguments, one after the other. */
  lemma {:induction false} FormatPlaceholders(pieces: seq<string>, args: seq<string>)
    requires |pieces| == |args| + 1 && Framing(pieces)
    ensures Placeholders(Format(pieces, args)) == Flat(args)
  {
    hide Placeholders;
    if args == [] {
      SeparatorSilent(pieces[0], "");
      assert pieces[0] + "" == pieces[0];
      EmptyText();
    } else {
      var tail := Format(pieces[1..], args[1..]);
      assert forall i :: 0 <= i < |pieces[1..]| ==> pieces[1..][i] == pieces[i + 1];
      FormatPlaceholders(pieces[1..], args[1..]);
      FormatStart(pieces[1..], args[1..]);
      SeparatorSilent(pieces[0], args[0] + tail);
      PlaceholdersConcat(args[0], tail);
    }
  }

  lemma FieldNameSilent(column: string)
    requires Silent(column)
    ensures Silent(FieldName(column))
  {
    hide Placeholders, AliasedAt;
    var aliased := Aliased(column, 0);
    var word := OrElse(aliased, column);
    if aliased.Some? {
      var j, k :| 0 <= j <= k <= |column| && word == column[j..k];
      SilentPart(column, j, k);
    }
    var last := AfterDot(word);
    if last.Some? {
      SilentPart(word, |word| - |last.value|, |word|);
      assert word[|word| - |last.value|..|word|] == last.value;
    }
  }

  lemma FieldTypeSilent(fields: map<string, string>, name: string)
    requires FieldsSilent(fields)
    ensures Silent(FieldType(fields, name))
  {
    hide Placeholders;
    SilentWords("big", "int");
    SilentWords("inte", "ger");
    SilentWords("te", "xt");
    assert "big" + "int" == "bigint" && "inte" + "ger" == "integer" && "te" + "xt" == "text";
  }

  lemma NullFieldSilent(fields: map<string, string>, column: string)
    requires FieldsSilent(fields) && Silent(column)
    ensures Silent(NullField(fields, column))
  {
    hide Placeholders, FieldName, FieldType, FieldsSilent;
    var name := FieldName(column);
    var args := [FieldType(fields, name), name];
    FieldNameSilent(column);
    FieldTypeSilent(fields, name);
    FormatPlaceholders(["NULL::", " as ", ""], args);
    FlatSilent(args);
  }

  lemma {:induction false} NullFieldsSilent(fields: map<string, string>, columns: seq<string>)
    requires FieldsSilent(fields) && AllSilent(columns)
    ensures AllSilent(NullFields(fields, columns))
  {
    hide Silent, FieldsSilent, NullField;
    if columns != [] {
      NullFieldsSilent(fields, columns[..|columns| - 1]);
      NullFieldSilent(fields, columns[|columns| - 1]);
    }
  }

  lemma EnvelopeFrames()
    ensures Framing(Envelope())
  {
    hide Opening, Counting, DataColumns, MetadataColumns, MoreRows, Closing, Line;
    assert '$' !in " as offset," && '$' !in " + ";
  }

  /** Of what is put into the envelope only the core has placeholders. */
  lemma ArgsFlat(b: Builder, limit: string, offset: string)
    requires Numbered(b) && b.meta.Some? && Silent(limit) && Silent(offset)
    ensures Flat(MetadataArgs(b, b.meta.value, limit, offset)) == Placeholders(Concat(CoreParts(b), " "))
  {
    hide Placeholders, Concat, CoreParts, NullFields, AllPlaceholders, Shown;
    var args := MetadataArgs(b, b.meta.value, limit, offset);
    ColumnsSilent(b.selects);
    NullFieldsSilent(b.meta.value, b.selects);
    ColumnsSilent(NullFields(b.meta.value, b.selects));
    SilentWords("", Or(b.offset, "0"));
    SilentWords("", Or(b.limit, "20"));
    assert "" + Or(b.offset, "0") == Or(b.offset, "0") && "" + Or(b.limit, "20") == Or(b.limit, "20");
    assert AllSilent(args[1..]);
    FlatSilent(args[1..]);
    assert Flat(args) == Placeholders(args[0]) + [];
  }

  lemma ClauseSilent(word: string, n: Option<Numeral>)
    requires '$' !in word
    ensures Clause(word, n).Some? ==> Silent(Clause(word, n).value)
  {
    hide Placeholders;
    EmptyText();
    if n.Some? && Integral(n.value).Some? {
      SilentWords(word, Integral(n.value).value);
    }
  }

  lemma QueryNumbered(b: Builder)
    requires Numbered(b) && BuildSelect(b).Some?
    ensures Placeholders(BuildSelect(b).value) == Numbers(1, |b.params|)
  {
    hide Placeholders, Numbers, SourceParts, WhereParts, OrderParts, LimitParts, Concat, Numbered, Envelope,
      MetadataArgs, Format, Clause;
    PartsFlat(b);
    FlatConcat(SourceParts(b), WhereParts(b));
    FlatConcat(SourceParts(b) + WhereParts(b), OrderParts(b));
    FlatConcat(CoreParts(b), LimitParts(b));
    SpacedPlaceholders(CoreParts(b));
    SpacedPlaceholders(CoreParts(b) + LimitParts(b));
    if b.meta.Some? {
      var limit, offset := Clause("LIMIT ", b.limit).value, Clause("OFFSET ", b.offset).value;
      ClauseSilent("LIMIT ", b.limit);
      ClauseSilent("OFFSET ", b.offset);
      EnvelopeFrames();
      FormatPlaceholders(Envelope(), MetadataArgs(b, b.meta.value, limit, offset));
      ArgsFlat(b, limit, offset);
    }
  }

  /** A number that `%d` refuses. */
  predicate Fractional(n: Option<Numeral>) {
    n.Some? && n.value.Float? && n.value.whole.None?
  }

  /** For every chain of valid calls the placeholders of the built SQL, left to right, are
      $1 to $n for the n collected parameters, in the plain and in the metadata query, and
      the i-th parameter is the one that was supplied for the i-th mark. Only a query with
      metadata and a limit or offset with a fraction cannot be built. */
  lemma PlaceholdersBound(calls: seq<Call>)
    requires ValidCalls(calls)
    ensures var b := ApplyAll(NEW, calls); var sql := BuildSelect(b);
      && b.params == Supplied(calls)
      && (sql.None? <==> b.meta.Some? && (Fractional(b.limit) || Fractional(b.offset)))
      && (sql.Some? ==> Placeholders(sql.value) == Numbers(1, |b.params|))
  {
    StartNumbered();
    hide Placeholders, Numbers, Numbered, ValidCalls, ApplyAll, Supplied, Format, Envelope, MetadataArgs, BuildCore;
    CallsNumbered(NEW, calls);
    assert NEW.params + Supplied(calls) == Supplied(calls);
    if BuildSelect(ApplyAll(NEW, calls)).Some? {
      QueryNumbered(ApplyAll(NEW, calls));
    }
  }

  /** A mark directly followed by a digit spoils it: `x = ?0` with one parameter refers to
      a parameter other than the first. */
  lemma DigitAfterMark()
    ensures !Separated("x = ?0") && Silent("x = ?0") && Marks("x = ?0") == 1
    ensures Placeholders(Renumber("x = ?0", 0)) != Numbers(1, 1)
  {
    hide Placeholders, Renumber;
    var cond := "x = ?0";
    assert cond[4] == '?' && IsDigit(cond[4 + 1]);
    assert Marks(cond) == 1 by {
      hide Separated, Silent;
      assert cond[1..] == " = ?0" && " = ?0"[1..] == "= ?0" && "= ?0"[1..] == " ?0";
      assert " ?0"[1..] == "?0" && "?0"[1..] == "0";
      assert Marks("0") == 0 && Marks("?0") == 1 && Marks(" ?0") == 1;
    }
    SeparatorSilent(cond, "");
    assert cond + "" == cond;
    EmptyText();
    RenumberExact(cond, 0);
  }

  /** A `$` that starts no parameter is no obstacle: a JSON path in a condition. */
  lemma JsonPathCondition()
    ensures Silent("jsonb_path_exists(data, '$.id')")
  {
    hide Placeholders;
    var before, after := "jsonb_path_exists(data, '", ".id')";
    SeparatorSilent(before, "$" + after);
    assert before + ("$" + after) == "jsonb_path_exists(data, '$.id')";
    PlaceholdersSkip('$', after);
    assert ['$'] + after == "$" + after;
    SeparatorSilent(after, "");
    assert after + "" == after;
    EmptyText();
  }

  // ---------- the builder object ----------

  class QueryBuilderObject {
    var state: Builder

    constructor ()
      ensures state == NEW
    {
      state := NEW;
    }

    /** where: the counting gsub, then the loop that collects the parameters. */
    method AddCondition(cond: string, params: seq<Option<string>>)
      modifies this
      ensures state == AddWhere(old(state), cond, params)
    {
      var count: nat := |state.params|;
      var modified := "";
      var i := 0;
      while i < |cond|
        invariant 0 <= i <= |cond|
        invariant modified + Renumber(cond[i..], count) == Renumber(cond, |state.params|)
        invariant state == old(state)
      {
        assert cond[i..][1..] == cond[i + 1..];
        ghost var rest := Renumber(cond[i + 1..], if cond[i] == '?' then count + 1 else count);
        var piece := [cond[i]];
        if cond[i] == '?' {
          count := count + 1;
          piece := "$" + Decimal(count);
        }
        assert modified + (piece + rest) == (modified + piece) + rest;
        modified := modified + piece;
        i := i + 1;
      }
      assert modified + "" == modified;
      state := state.(wheres := state.wheres + [modified]);
      ghost var before := state;
      var j := 0;
      assert state.params + Given(params[0..]) == before.params + Given(params) by { assert params[0..] == params; }
      while j < |params| && params[j].Some?
        invariant 0 <= j <= |params|
        invariant state == before.(params := state.params)
        invariant state.params + Given(params[j..]) == before.params + Given(params)
      {
        assert params[j..][1..] == params[j + 1..];
        assert state.params + ([params[j].value] + Given(params[j + 1..]))
            == (state.params + [params[j].value]) + Given(params[j + 1..]);
        state := state.(params := state.params + [params[j].value]);
        j := j + 1;
      }
      assert Given(params[j..]) == [];
      assert state.params + [] == state.params;
    }

    /** Any call of the chain. */
    method Call(c: Call)
      modifies this
      ensures state == Apply(old(state), c)
    {
      match c {
        case Select(columns) => state := state.(selects := columns);
        case From(source) => state := state.(source := Some(source));
        case Where(cond, params) => AddCondition(cond, params);
        case WhereIf(present, cond, params) =>
          if present {
            AddCondition(cond, params);
          }
        case OrderBy(order) => state := state.(order := Some(order));
        case SetLimit(amount) =>
          if amount != Absent {
            state := state.(limit := if amount.Amount? then Some(amount.n) else None);
          }
        case SetOffset(amount) =>
          if amount != Absent {
            state := state.(offset := if amount.Amount? then Some(amount.n) else None);
          }
        case WithMetadata(fields) => state := state.(meta := Some(fields));
      }
    }

    /** The loop that types the fields of the metadata row. */
    method CollectNullFields(fields: map<string, string>) returns (nulls: seq<string>)
      ensures nulls == NullFields(fields, state.selects)
    {
      hide NullField, NullFields;
      nulls := [];
      NullFieldsStart(fields);
      var i := 0;
      while i < |state.selects|
        invariant 0 <= i <= |state.selects|
        invariant nulls == NullFields(fields, state.selects[..i])
      {
        NullFieldsStep(fields, state.selects, i);
        nulls := nulls + [NullField(fields, state.selects[i])];
        i := i + 1;
      }
      assert state.selects[..i] == state.selects;
    }

    /** The parts of the core, one after the other. */
    method CollectParts() returns (parts: seq<string>)
      ensures parts == CoreParts(state)
    {
      parts := [SelectClause(state)];
      if state.source.Some? {
        parts := parts + ["FROM " + state.source.value];
      }
      if state.wheres != [] {
        parts := parts + ["WHERE " + Concat(state.wheres, " AND ")];
      }
      if state.order.Some? {
        parts := parts + ["ORDER BY " + state.order.value];
      }
    }

    /** build: the text, unless the formatting of a number fails, and the parameters. */
    method Build() returns (sql: Option<string>, params: seq<string>)
      ensures sql == BuildSelect(state) && params == state.params
    {
      hide Format, Envelope, Concat, CoreParts, NullFields, Shown, Integral;
      params := state.params;
      var parts := CollectParts();
      if state.meta.Some? {
        var nulls := CollectNullFields(state.meta.value);
        var limit, offset := Clause("LIMIT ", state.limit), Clause("OFFSET ", state.offset);
        if limit.None? || offset.None? {
          return None, params;
        }
        var from, size := Or(state.offset, "0"), Or(state.limit, "20");
        sql := Some(Format(Envelope(), [Concat(parts, " "), limit.value, offset.value,
          Concat(state.selects, ", "), Concat(nulls, ", "), from, size, from, size]));
      } else {
        if state.limit.Some? {
          parts := parts + ["LIMIT " + Shown(state.limit.value)];
        }
        if state.offset.Some? {
          parts := parts + ["OFFSET " + Shown(state.offset.value)];
        }
        assert parts == CoreParts(state) + LimitParts(state);
        sql := Some(Concat(parts, " "));
      }
    }
  }
}
