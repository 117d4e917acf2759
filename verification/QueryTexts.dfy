/** The text of a built query: what each call adds to it, and what a whole chain of calls
    makes. The texts are put together here without the clauses and the joins of the builder. */
module QueryTexts {
  import opened Options
  import opened CStrings
  import opened QueryBuilder

  // ---------- joined texts ----------

  /** The items one after the other, the first behind one word and the others behind another. */
  function Chained(first: string, next: string, items: seq<string>): string {
    if items == [] then ""
    else Chained(first, next, items[..|items| - 1]) + (if |items| == 1 then first else next) + items[|items| - 1]
  }

  function Optional(word: string, o: Option<string>): string {
    if o.Some? then word + o.value else ""
  }

  function Print(n: Option<Numeral>): Option<string> {
    if n.Some? then Some(Shown(n.value)) else None
  }

  lemma {:induction false} ConcatLast(parts: seq<string>, last: string, sep: string)
    requires parts != []
    ensures Concat(parts + [last], sep) == Concat(parts, sep) + sep + last
  {
    if |parts| == 1 {
      assert (parts + [last])[1..] == [last];
    } else {
      assert (parts + [last])[1..] == parts[1..] + [last];
      ConcatLast(parts[1..], last, sep);
      var rest := Concat(parts[1..], sep);
      assert parts[0] + sep + (rest + sep + last) == parts[0] + sep + rest + sep + last;
    }
  }

  lemma {:induction false} ConcatChained(first: string, items: seq<string>, sep: string)
    requires items != []
    ensures first + Concat(items, sep) == Chained(first, sep, items)
  {
    var init, last := items[..|items| - 1], items[|items| - 1];
    assert items == init + [last];
    if init == [] {
      assert Chained(first, sep, init) == "";
      assert "" + first + last == first + last;
    } else {
      ConcatChained(first, init, sep);
      ConcatLast(init, last, sep);
      assert first + (Concat(init, sep) + sep + last) == first + Concat(init, sep) + sep + last;
    }
  }

  lemma ConcatOptional(parts: seq<string>, o: Option<string>)
    requires parts != []
    ensures Concat(parts + (if o.Some? then [o.value] else []), " ")
      == Concat(parts, " ") + Optional(" ", o)
  {
    if o.Some? {
      ConcatLast(parts, o.value, " ");
      assert Concat(parts, " ") + " " + o.value == Concat(parts, " ") + (" " + o.value);
    } else {
      assert parts + [] == parts;
    }
  }

  // ---------- the plain query ----------

  /** The text in front of the order and the limits. */
  function Selected(columns: seq<string>, source: Option<string>, conditions: seq<string>): string {
    "SELECT" + (if columns == [] then " *" else Chained(" ", ", ", columns)) + Optional(" FROM ", source)
    + Chained(" WHERE ", " AND ", conditions)
  }

  function Written(columns: seq<string>, source: Option<string>, conditions: seq<string>, order: Option<string>,
                   limit: Option<string>, offset: Option<string>): string {
    Selected(columns, source, conditions) + Optional(" ORDER BY ", order) + Optional(" LIMIT ", limit)
    + Optional(" OFFSET ", offset)
  }

  lemma ColumnsWritten(b: Builder)
    ensures SelectClause(b) == "SELECT" + (if b.selects == [] then " *" else Chained(" ", ", ", b.selects))
  {
    if b.selects == [] {
      assert "SELECT " + "*" == "SELECT" + " *";
    } else {
      ConcatChained(" ", b.selects, ", ");
      assert "SELECT " + Concat(b.selects, ", ") == "SELECT" + (" " + Concat(b.selects, ", "));
    }
  }

  lemma WithWord(word: string, o: Option<string>)
    ensures Optional(" ", if o.Some? then Some(word + o.value) else None) == Optional(" " + word, o)
  {
    if o.Some? {
      assert " " + (word + o.value) == " " + word + o.value;
    }
  }

  lemma SelectedWritten(b: Builder)
    ensures Concat(SourceParts(b) + WhereParts(b), " ") == Selected(b.selects, b.source, b.wheres)
  {
    hide Concat, SelectClause, Chained;
    ColumnsWritten(b);
    var head := [SelectClause(b)];
    var from := if b.source.Some? then Some("FROM " + b.source.value) else None;
    ConcatOptional(head, from);
    ConcatOne(SelectClause(b));
    WithWord("FROM ", b.source);
    assert " " + "FROM " == " FROM ";
    WheresWritten(b.wheres);
    var conds := if b.wheres == [] then None else Some("WHERE " + Concat(b.wheres, " AND "));
    ConcatOptional(SourceParts(b), conds);
  }

  lemma ConcatOne(s: string)
    ensures Concat([s], " ") == s
  {
  }

  lemma WheresWritten(wheres: seq<string>)
    ensures Optional(" ", if wheres == [] then None else Some("WHERE " + Concat(wheres, " AND ")))
      == Chained(" WHERE ", " AND ", wheres)
  {
    if wheres != [] {
      ConcatChained(" WHERE ", wheres, " AND ");
      assert " " + ("WHERE " + Concat(wheres, " AND ")) == " WHERE " + Concat(wheres, " AND ");
    }
  }

  lemma CoreWritten(b: Builder)
    ensures Concat(CoreParts(b), " ") == Selected(b.selects, b.source, b.wheres) + Optional(" ORDER BY ", b.order)
  {
    hide Concat, SourceParts, WhereParts, Selected;
    SelectedWritten(b);
    NotEmpty(b);
    ConcatOptional(SourceParts(b) + WhereParts(b), if b.order.Some? then Some("ORDER BY " + b.order.value) else None);
    WithWord("ORDER BY ", b.order);
    assert " " + "ORDER BY " == " ORDER BY ";
  }

  lemma NotEmpty(b: Builder)
    ensures SourceParts(b) + WhereParts(b) != [] && CoreParts(b) != []
  {
  }

  lemma LimitsWritten(b: Builder)
    ensures Concat(CoreParts(b) + LimitParts(b), " ")
      == Concat(CoreParts(b), " ") + Optional(" LIMIT ", Print(b.limit)) + Optional(" OFFSET ", Print(b.offset))
  {
    hide Concat, CoreParts, Shown;
    NotEmpty(b);
    var limit := if b.limit.Some? then Some("LIMIT " + Shown(b.limit.value)) else None;
    var offset := if b.offset.Some? then Some("OFFSET " + Shown(b.offset.value)) else None;
    var limits := if limit.Some? then [limit.value] else [];
    var offsets := if offset.Some? then [offset.value] else [];
    assert LimitParts(b) == limits + offsets;
    assert CoreParts(b) + LimitParts(b) == (CoreParts(b) + limits) + offsets;
    ConcatOptional(CoreParts(b), limit);
    ConcatOptional(CoreParts(b) + limits, offset);
    WithWord("LIMIT ", Print(b.limit));
    WithWord("OFFSET ", Print(b.offset));
    assert " " + "LIMIT " == " LIMIT " && " " + "OFFSET " == " OFFSET ";
  }

  /** The text of a builder without metadata. */
  lemma PlainText(b: Builder)
    requires b.meta.None?
    ensures BuildSelect(b)
      == Some(Written(b.selects, b.source, b.wheres, b.order, Print(b.limit), Print(b.offset)))
  {
    hide Concat, CoreParts, LimitParts, Selected, Optional;
    CoreWritten(b);
    LimitsWritten(b);
  }

  // ---------- what a call adds ----------

  predicate Plain(b: Builder) {
    b.meta.None?
  }

  function Sql(b: Builder): string
    requires Plain(b)
  {
    BuildSelect(b).value
  }

  /** No order, limit or offset yet. */
  predicate Open(b: Builder) {
    Plain(b) && b.order.None? && b.limit.None? && b.offset.None?
  }

  /** Behind the text so far: the first condition after WHERE, a later one after AND, with its
      marks numbered from the parameters already there. */
  lemma WhereAppends(b: Builder, cond: string, params: seq<Option<string>>)
    requires Open(b)
    ensures var b' := Apply(b, Where(cond, params));
      && Plain(b')
      && Sql(b') == Sql(b) + (if b.wheres == [] then " WHERE " else " AND ") + Renumber(cond, |b.params|)
      && b'.params == b.params + Given(params)
      && Apply(b, WhereIf(true, cond, params)) == b' && Apply(b, WhereIf(false, cond, params)) == b
  {
    hide BuildSelect, Renumber, Given;
    var b' := Apply(b, Where(cond, params));
    PlainText(b);
    PlainText(b');
    var word := if b.wheres == [] then " WHERE " else " AND ";
    var text := Renumber(cond, |b.params|);
    assert b'.wheres[..|b'.wheres| - 1] == b.wheres;
    assert Chained(" WHERE ", " AND ", b'.wheres) == Chained(" WHERE ", " AND ", b.wheres) + word + text;
    Behind(b, b', word + text);
  }

  lemma Behind(b: Builder, b': Builder, more: string)
    requires Open(b) && Open(b') && b'.selects == b.selects && b'.source == b.source
    requires Chained(" WHERE ", " AND ", b'.wheres) == Chained(" WHERE ", " AND ", b.wheres) + more
    ensures Written(b'.selects, b'.source, b'.wheres, None, None, None)
      == Written(b.selects, b.source, b.wheres, None, None, None) + more
  {
    hide Chained;
  }

  /** The order, the limit and the offset come behind everything that is there. */
  lemma OrderAppends(b: Builder, order: string)
    requires Open(b)
    ensures var b' := Apply(b, OrderBy(order)); Plain(b') && Sql(b') == Sql(b) + " ORDER BY " + order
  {
    hide BuildSelect, Selected;
    PlainText(b);
    PlainText(Apply(b, OrderBy(order)));
  }

  lemma LimitAppends(b: Builder, n: Numeral)
    requires Plain(b) && b.limit.None? && b.offset.None?
    ensures var b' := Apply(b, SetLimit(Amount(n))); Plain(b') && Sql(b') == Sql(b) + " LIMIT " + Shown(n)
  {
    hide BuildSelect, Selected, Shown;
    PlainText(b);
    PlainText(Apply(b, SetLimit(Amount(n))));
  }

  lemma OffsetAppends(b: Builder, n: Numeral)
    requires Plain(b) && b.offset.None?
    ensures var b' := Apply(b, SetOffset(Amount(n))); Plain(b') && Sql(b') == Sql(b) + " OFFSET " + Shown(n)
  {
    hide BuildSelect, Selected, Shown;
    PlainText(b);
    PlainText(Apply(b, SetOffset(Amount(n))));
  }

  /** The source comes behind the columns, and the columns behind SELECT. */
  lemma FromAppends(b: Builder, source: string)
    requires Open(b) && b.source.None? && b.wheres == []
    ensures var b' := Apply(b, From(source)); Plain(b') && Sql(b') == Sql(b) + " FROM " + source
  {
    hide BuildSelect;
    PlainText(b);
    PlainText(Apply(b, From(source)));
  }

  lemma SelectStarts(column: string)
    ensures var b := Apply(NEW, Select([column]));
      Sql(NEW) == "SELECT *" && Plain(b) && Sql(b) == "SELECT " + column
  {
    hide BuildSelect, Chained;
    PlainText(NEW);
    PlainText(Apply(NEW, Select([column])));
    NoConditions();
    ChainedOne(column);
    assert "SELECT" + " *" == "SELECT *" && "SELECT" + (" " + column) == "SELECT " + column;
  }

  lemma ChainedOne(column: string)
    ensures Chained(" ", ", ", [column]) == " " + column
  {
    assert "" + " " + column == " " + column;
  }

  lemma SelectAppends(columns: seq<string>, column: string)
    requires columns != []
    ensures var b, b' := Apply(NEW, Select(columns)), Apply(NEW, Select(columns + [column]));
      Plain(b) && Plain(b') && Sql(b') == Sql(b) + ", " + column
  {
    hide BuildSelect, Chained;
    PlainText(Apply(NEW, Select(columns)));
    PlainText(Apply(NEW, Select(columns + [column])));
    ChainedLast(columns, column);
    NoConditions();
  }

  lemma ChainedLast(columns: seq<string>, column: string)
    requires columns != []
    ensures Chained(" ", ", ", columns + [column]) == Chained(" ", ", ", columns) + ", " + column
  {
    assert (columns + [column])[..|columns|] == columns;
  }

  lemma NoConditions()
    ensures Chained(" WHERE ", " AND ", []) == ""
  {
  }

  // ---------- chains of calls ----------

  /** The columns of the last call that gave some, and likewise the rest. */
  function LastColumns(calls: seq<Call>): seq<string> {
    if calls == [] then []
    else match calls[|calls| - 1]
      case Select(columns) => columns
      case _ => LastColumns(calls[..|calls| - 1])
  }

  function LastSource(calls: seq<Call>): Option<string> {
    if calls == [] then None
    else match calls[|calls| - 1]
      case From(source) => Some(source)
      case _ => LastSource(calls[..|calls| - 1])
  }

  function LastOrder(calls: seq<Call>): Option<string> {
    if calls == [] then None
    else match calls[|calls| - 1]
      case OrderBy(order) => Some(order)
      case _ => LastOrder(calls[..|calls| - 1])
  }

  /** A call with nil leaves the limit, one with a value that is no number takes it away. */
  function LastLimit(calls: seq<Call>): Option<Numeral> {
    if calls == [] then None
    else match calls[|calls| - 1]
      case SetLimit(Amount(n)) => Some(n)
      case SetLimit(NoNumber) => None
      case _ => LastLimit(calls[..|calls| - 1])
  }

  function LastOffset(calls: seq<Call>): Option<Numeral> {
    if calls == [] then None
    else match calls[|calls| - 1]
      case SetOffset(Amount(n)) => Some(n)
      case SetOffset(NoNumber) => None
      case _ => LastOffset(calls[..|calls| - 1])
  }

  /** All conditions in the order of their calls, each numbered behind the parameters of the
      calls before it. */
  function Conditions(calls: seq<Call>): seq<string> {
    if calls == [] then []
    else
      var before := calls[..|calls| - 1];
      match calls[|calls| - 1]
      case Where(cond, _) => Conditions(before) + [Renumber(cond, |Supplied(before)|)]
      case WhereIf(true, cond, _) => Conditions(before) + [Renumber(cond, |Supplied(before)|)]
      case _ => Conditions(before)
  }

  predicate NoMetadata(calls: seq<Call>) {
    forall i :: 0 <= i < |calls| ==> !calls[i].WithMetadata?
  }

  lemma {:induction false} ApplyLast(b: Builder, calls: seq<Call>, c: Call)
    ensures ApplyAll(b, calls + [c]) == Apply(ApplyAll(b, calls), c)
    decreases |calls|
  {
    hide Apply;
    if calls == [] {
      assert (calls + [c])[1..] == [];
    } else {
      assert (calls + [c])[1..] == calls[1..] + [c];
      ApplyLast(Apply(b, calls[0]), calls[1..], c);
    }
  }

  lemma {:induction false} SuppliedLast(calls: seq<Call>, c: Call)
    ensures Supplied(calls + [c]) == Supplied(calls) + SuppliedBy(c)
    decreases |calls|
  {
    hide SuppliedBy;
    if calls == [] {
      assert (calls + [c])[1..] == [];
      assert SuppliedBy(c) + [] == [] + SuppliedBy(c);
    } else {
      assert (calls + [c])[1..] == calls[1..] + [c];
      SuppliedLast(calls[1..], c);
      assert SuppliedBy(calls[0]) + (Supplied(calls[1..]) + SuppliedBy(c))
        == SuppliedBy(calls[0]) + Supplied(calls[1..]) + SuppliedBy(c);
    }
  }

  /** What one more call changes. */
  lemma OneMoreCall(calls: seq<Call>, c: Call, b: Builder)
    requires b.selects == LastColumns(calls) && b.source == LastSource(calls) && b.order == LastOrder(calls)
    requires b.limit == LastLimit(calls) && b.offset == LastOffset(calls)
    ensures var b', all := Apply(b, c), calls + [c];
      && b'.selects == LastColumns(all) && b'.source == LastSource(all) && b'.order == LastOrder(all)
      && b'.limit == LastLimit(all) && b'.offset == LastOffset(all)
  {
    hide Renumber, Given;
    assert (calls + [c])[..|calls|] == calls;
  }

  lemma OneMoreCondition(calls: seq<Call>, c: Call, b: Builder)
    requires b.wheres == Conditions(calls) && b.params == Supplied(calls)
    ensures Apply(b, c).wheres == Conditions(calls + [c]) && Apply(b, c).params == Supplied(calls + [c])
  {
    hide Supplied, Renumber, Given;
    assert (calls + [c])[..|calls|] == calls;
    SuppliedLast(calls, c);
    assert b.params + [] == b.params;
  }

  lemma OneMoreMetadata(calls: seq<Call>, c: Call, b: Builder)
    requires NoMetadata(calls) ==> b.meta.None?
    ensures NoMetadata(calls + [c]) ==> Apply(b, c).meta.None?
  {
    hide Renumber, Given;
    var all := calls + [c];
    assert all[|calls|] == c && forall i :: 0 <= i < |calls| ==> all[i] == calls[i];
  }

  lemma {:induction false} StateOfCalls(calls: seq<Call>)
    ensures var b := ApplyAll(NEW, calls);
      && b.selects == LastColumns(calls) && b.source == LastSource(calls) && b.order == LastOrder(calls)
      && b.limit == LastLimit(calls) && b.offset == LastOffset(calls)
      && b.wheres == Conditions(calls) && b.params == Supplied(calls)
      && (NoMetadata(calls) ==> b.meta.None?)
    decreases |calls|
  {
    if calls == [] {
      NothingSupplied();
    } else {
      hide *;
      var before, c := calls[..|calls| - 1], calls[|calls| - 1];
      assert calls == before + [c];
      StateOfCalls(before);
      ApplyLast(NEW, before, c);
      OneMoreCall(before, c, ApplyAll(NEW, before));
      OneMoreCondition(before, c, ApplyAll(NEW, before));
      OneMoreMetadata(before, c, ApplyAll(NEW, before));
    }
  }

  lemma NothingSupplied()
    ensures Supplied([]) == []
  {
  }

  /** The text and the parameters of every chain of calls without metadata: the columns, source
      and order given last, every condition in order, and the limits given last, each behind its
      word, whatever order the calls come in. */
  lemma TextOfCalls(calls: seq<Call>)
    requires NoMetadata(calls)
    ensures var b := ApplyAll(NEW, calls);
      && b.params == Supplied(calls)
      && BuildSelect(b) == Some(Written(LastColumns(calls), LastSource(calls), Conditions(calls), LastOrder(calls),
                                        Print(LastLimit(calls)), Print(LastOffset(calls))))
  {
    hide ApplyAll, BuildSelect, Written;
    StateOfCalls(calls);
    PlainText(ApplyAll(NEW, calls));
  }

  // ---------- numbering a condition ----------

  /** A text without marks stays as it is, and each mark becomes the placeholder whose number
      counts the parameters so far and the marks up to it. */
  lemma {:induction false} RenumberPieces(a: string, b: string, count: nat)
    requires '?' !in a
    ensures Renumber(a, count) == a
    ensures Renumber(a + "?" + b, count) == a + "$" + Decimal(count + 1) + Renumber(b, count + 1)
  {
    hide Decimal;
    var text := a + "?" + b;
    if a == "" {
      assert text == "?" + b && text[1..] == b;
      assert "" + "$" == "$";
    } else {
      assert a[0] in a && a == [a[0]] + a[1..];
      assert text[1..] == a[1..] + "?" + b;
      RenumberPieces(a[1..], b, count);
      assert [a[0]] + (a[1..] + "$" + Decimal(count + 1) + Renumber(b, count + 1))
        == a + "$" + Decimal(count + 1) + Renumber(b, count + 1);
    }
  }

  // ---------- the names of the fields ----------

  predicate Dotless(name: string) {
    name != "" && '.' !in name
  }

  lemma {:induction false} DotRead(qualifier: string, name: string)
    requires Dotless(name)
    ensures AfterDot(qualifier + "." + name) == Some(name) && AfterDot(name) == None
    decreases |qualifier| + |name|
  {
    var s := qualifier + "." + name;
    if qualifier == "" {
      assert s == "." + name && s[1..] == name;
    } else {
      assert s[1..] == qualifier[1..] + "." + name;
      assert s[1..][|qualifier| - 1] == '.';
      DotRead(qualifier[1..], name);
    }
    if |name| > 1 {
      assert name == [name[0]] + name[1..];
      DotRead("", name[1..]);
    }
  }

  lemma {:induction false} WordRead(word: string, rest: string)
    requires NoSpace(word) && (rest != "" ==> IsSpace(rest[0]))
    ensures WordLength(word + rest) == |word|
  {
    if word == "" {
      assert word + rest == rest;
    } else {
      assert (word + rest)[1..] == word[1..] + rest;
      WordRead(word[1..], rest);
    }
  }

  lemma {:induction false} BlanksRead(blanks: string, rest: string)
    requires AllSpace(blanks) && rest != "" && !IsSpace(rest[0])
    ensures TrimLeft(blanks + rest) == rest
  {
    if blanks == "" {
      assert blanks + rest == rest;
    } else {
      assert (blanks + rest)[1..] == blanks[1..] + rest;
      BlanksRead(blanks[1..], rest);
    }
  }

  /** The word `as` in any spelling, with a blank behind it. */
  predicate AsWord(s: string) {
    |s| > 2 && s[0] in "aA" && s[1] in "sS" && IsSpace(s[2])
  }

  lemma AliasRead(word: string, blanks: string, tail: string)
    requires word != "" && NoSpace(word) && blanks != "" && AllSpace(blanks) && AsWord(tail)
    ensures Aliased(word + blanks + tail, 0) == Some(word)
  {
    hide WordLength, TrimLeft;
    var s := word + blanks + tail;
    assert s == word + (blanks + tail) && s[0..] == s && s[|word|..] == blanks + tail;
    WordRead(word, blanks + tail);
    BlanksRead(blanks, tail);
    assert s[0..|word|] == word;
  }

  lemma {:induction false} NoAlias(word: string, i: nat)
    requires NoSpace(word) && i <= |word|
    ensures Aliased(word, i) == None
    decreases |word| - i
  {
    var rest := word[i..];
    WordRead(rest, "");
    assert rest + "" == rest && word[i + |rest|..] == "";
    if i < |word| {
      NoAlias(word, i + 1);
    }
  }

  /** A field has the name of its column: what stands in front of `as`, without what qualifies
      it. */
  lemma FieldNameRead(qualifier: string, name: string, blanks: string, tail: string)
    requires Dotless(name) && NoSpace(qualifier) && NoSpace(name)
    requires blanks != "" && AllSpace(blanks) && AsWord(tail)
    ensures FieldName(name) == name && FieldName(qualifier + "." + name) == name
    ensures FieldName(name + blanks + tail) == name
    ensures FieldName(qualifier + "." + name + blanks + tail) == name
  {
    hide Aliased, AfterDot;
    DotRead(qualifier, name);
    NoAlias(name, 0);
    NoAlias(qualifier + "." + name, 0);
    AliasRead(name, blanks, tail);
    AliasRead(qualifier + "." + name, blanks, tail);
  }

  /** The column of the metadata row: its type is the one given for the name; without one,
      numbers for what is called an id or a count, and text for the rest. */
  lemma NullFieldText(fields: map<string, string>, column: string)
    ensures var name := FieldName(column);
      && (name in fields ==> NullField(fields, column) == "NULL::" + fields[name] + " as " + name)
      && (name !in fields ==> exists t ::
            && NullField(fields, column) == "NULL::" + t + " as " + name
            && (t == "integer" <==> EndsWith(name, "_id"))
            && (t == "bigint" <==> name == "id" || EndsWith(name, "count"))
            && (t == "text" <==> name != "id" && !EndsWith(name, "_id") && !EndsWith(name, "count")))
  {
    var name := FieldName(column);
    var t := FieldType(fields, name);
    FormatTwo(t, name);
    NotBoth(name);
    assert "integer"[0] == 'i' && "bigint"[0] == 'b' && "text"[0] == 't';
  }

  lemma FormatTwo(t: string, name: string)
    ensures Format(["NULL::", " as ", ""], [t, name]) == "NULL::" + t + " as " + name
  {
    var p, a := ["NULL::", " as ", ""], [t, name];
    assert p[0..] == p && a[0..] == a;
    FormatStep(p, a, 0);
    FormatStep(p, a, 1);
    assert "NULL::" + (t + (" as " + (name + ""))) == "NULL::" + t + " as " + name;
  }

  lemma NotBoth(name: string)
    ensures !(EndsWith(name, "_id") && EndsWith(name, "count")) && !EndsWith("id", "_id") && !EndsWith("id", "count")
  {
    if EndsWith(name, "_id") {
      assert name[|name| - 3..][2] == name[|name| - 1] == 'd';
    }
    if EndsWith(name, "count") {
      assert name[|name| - 5..][4] == name[|name| - 1] == 't';
    }
  }

  // ---------- the query with metadata ----------

  /** The same query without metadata and limits. */
  function Core(b: Builder): Builder {
    b.(meta := None, limit := None, offset := None)
  }

  /** The limit or offset of the data rows, as a whole number. */
  function Bound(word: string, n: Option<Numeral>): string
    requires !Fractional(n)
  {
    match n
    case None => ""
    case Some(Integer(i)) => word + Whole(i)
    case Some(Float(_, whole)) => word + Whole(whole.value)
  }

  /** The fixed pieces of the query with metadata, by what stands around each gap. */
  predicate Surrounds(p: seq<string>) {
    && |p| == 10
    && EndsWith(p[0], "WITH base_query AS (" + Line(16, "")) && Line(12, "),") <= p[1]
    && EndsWith(p[1], "total_count" + Line(16, "")) && p[2] == Line(16, "") && Line(12, ")") <= p[3]
    && EndsWith(p[3], "total_count," + Line(20, "")) && "," <= p[4]
    && EndsWith(p[4], "total_count," + Line(20, "")) && p[5] == "," + Line(20, "")
    && " as offset," <= p[6] && " as limit," <= p[7]
    && EndsWith(p[7], Line(24, "OFFSET ")) && p[8] == " + " && Line(24, "LIMIT 1") <= p[9]
  }

  lemma Ends(a: string, b: string)
    ensures EndsWith(a + b, b) && a <= a + b
  {
    assert (a + b)[|a|..] == b;
  }

  lemma EndsLonger(a: string, b: string, end: string)
    requires EndsWith(b, end)
    ensures EndsWith(a + b, end)
  {
    assert (a + b)[|a + b| - |end|..] == b[|b| - |end|..];
  }

  lemma EnvelopeSurrounds()
    ensures Surrounds(Envelope())
  {
    hide Line, Spaces, EndsWith, CountRows, Columns, NullOffset, NullMore, SelectOne, FromTotal, Ordering;
    CountingSurrounds();
    DataSurrounds();
    MetadataSurrounds();
    MoreSurrounds();
    assert Opening() == Spaces(12) + ("WITH base_query AS (" + Line(16, ""));
    Ends(Spaces(12), "WITH base_query AS (" + Line(16, ""));
    assert Closing() == Line(24, "LIMIT 1") + (Line(20, ") as has_more") + FromTotal() + Ordering());
  }

  lemma CountingSurrounds()
    ensures EndsWith(Counting(), "total_count" + Line(16, "")) && Line(12, "),") <= Counting()
  {
    hide Line, EndsWith, CountRows, Columns;
    var head := Line(12, "paginated_data AS (") + Columns() + Line(16, "FROM base_query, ");
    assert Selecting() == head + ("total_count" + Line(16, ""));
    Ends(head, "total_count" + Line(16, ""));
    var front := Line(12, "),") + Line(12, "total_count AS (") + CountRows() + Line(12, "),");
    EndsLonger(front, Selecting(), "total_count" + Line(16, ""));
    assert Counting() == front + Selecting();
    assert Counting() == Line(12, "),") + (Line(12, "total_count AS (") + CountRows() + Line(12, "),") + Selecting());
  }

  lemma DataSurrounds()
    ensures EndsWith(DataColumns(), "total_count," + Line(20, "")) && Line(12, ")") <= DataColumns()
  {
    hide Line, EndsWith;
    var tail := "total_count," + Line(20, "");
    assert TotalCount() == Line(20, "NULL::bigint as ") + tail;
    Ends(Line(20, "NULL::bigint as "), tail);
    var front := Line(12, ")") + Line(12, "(") + Line(16, "SELECT ") + Line(20, "'data'::text as type,");
    EndsLonger(front, TotalCount(), tail);
    assert DataColumns() == front + TotalCount();
    assert DataColumns() == Line(12, ")") + (Line(12, "(") + Line(16, "SELECT ") + Line(20, "'data'::text as type,")
      + TotalCount());
  }

  lemma MetadataSurrounds()
    ensures EndsWith(MetadataColumns(), "total_count," + Line(20, "")) && "," <= MetadataColumns()
  {
    hide Line, EndsWith, NullOffset, NullMore;
    var tail := "total_count," + Line(20, "");
    assert MetadataCount() == Line(20, "count::bigint as ") + tail;
    Ends(Line(20, "count::bigint as "), tail);
    var front := Line(16, "SELECT") + Line(20, "'metadata'::text ") + "as type,";
    EndsLonger(front, MetadataCount(), tail);
    assert MetadataRow() == front + MetadataCount();
    var first := "," + NullOffset() + NullMore() + Line(12, ")") + Line(12, "UNION ALL") + Line(12, "(");
    EndsLonger(first, MetadataRow(), tail);
    assert MetadataColumns() == first + MetadataRow();
    assert MetadataColumns() == "," + (NullOffset() + NullMore() + Line(12, ")") + Line(12, "UNION ALL")
      + Line(12, "(") + MetadataRow());
  }

  lemma MoreSurrounds()
    ensures EndsWith(MoreRows(), Line(24, "OFFSET ")) && " as limit," <= MoreRows()
  {
    hide Line, EndsWith, SelectOne;
    var front := " as limit," + Line(20, "EXISTS (") + SelectOne();
    assert MoreRows() == front + Line(24, "OFFSET ");
    Ends(front, Line(24, "OFFSET "));
    assert MoreRows() == " as limit," + (Line(20, "EXISTS (") + SelectOne() + Line(24, "OFFSET "));
  }

  /** The pieces of a text with the arguments between them, written out. */
  lemma FormatNine(p: seq<string>, a: seq<string>)
    requires |p| == 10 && |a| == 9
    ensures Format(p, a) == p[0] + (a[0] + (p[1] + (a[1] + (p[2] + (a[2] + (p[3] + (a[3] + (p[4] + (a[4] + (p[5]
      + (a[5] + (p[6] + (a[6] + (p[7] + (a[7] + (p[8] + (a[8] + p[9])))))))))))))))))
  {
    FormatStep(p, a, 0);
    FormatStep(p, a, 1);
    FormatStep(p, a, 2);
    FormatStep(p, a, 3);
    FormatStep(p, a, 4);
    FormatStep(p, a, 5);
    FormatStep(p, a, 6);
    FormatStep(p, a, 7);
    FormatStep(p, a, 8);
    assert p[0..] == p && a[0..] == a;
  }

  lemma FormatStep(p: seq<string>, a: seq<string>, i: nat)
    requires |p| == |a| + 1 && i < |a|
    ensures Format(p[i..], a[i..]) == p[i] + (a[i] + Format(p[i + 1..], a[i + 1..]))
    ensures i + 1 == |a| ==> Format(p[i + 1..], a[i + 1..]) == p[i + 1]
  {
    assert p[i..][1..] == p[i + 1..] && a[i..][1..] == a[i + 1..];
  }

  lemma BoundIs(word: string, n: Option<Numeral>)
    ensures Clause(word, n) == if Fractional(n) then None else Some(Bound(word, n))
  {
  }

  /** The query with metadata: inside `base_query` the plain query without its limits; behind it
      the limit and the offset of the data rows; then the columns, as many typed NULL fields for
      the metadata row, and the offset and limit once as columns and once more in looking for
      further rows, 0 and 20 where there is none. */
  lemma MetadataText(b: Builder)
    requires b.meta.Some? && !Fractional(b.limit) && !Fractional(b.offset)
    ensures var p := Envelope();
      var from, size := (if b.offset.Some? then Shown(b.offset.value) else "0"),
                        (if b.limit.Some? then Shown(b.limit.value) else "20");
      && Surrounds(p) && |NullFields(b.meta.value, b.selects)| == |b.selects|
      && BuildSelect(b) == Some(
           p[0] + (Sql(Core(b)) + (p[1] + (Bound("LIMIT ", b.limit) + (p[2] + (Bound("OFFSET ", b.offset) + (p[3]
           + (Chained("", ", ", b.selects) + (p[4] + (Chained("", ", ", NullFields(b.meta.value, b.selects)) + (p[5]
           + (from + (p[6] + (size + (p[7] + (from + (p[8] + (size + p[9]))))))))))))))))))
  {
    hide Envelope, Surrounds, Concat, NullFields, Shown, CoreParts, Format, Bound, Clause, BuildCore, Chained;
    EnvelopeSurrounds();
    BoundIs("LIMIT ", b.limit);
    BoundIs("OFFSET ", b.offset);
    var nulls := NullFields(b.meta.value, b.selects);
    CoreOnly(b);
    NullPerColumn(b.meta.value, b.selects);
    Joined(b.selects);
    Joined(nulls);
    var args := MetadataArgs(b, b.meta.value, Bound("LIMIT ", b.limit), Bound("OFFSET ", b.offset));
    FormatNine(Envelope(), args);
  }

  lemma Joined(items: seq<string>)
    ensures Concat(items, ", ") == Chained("", ", ", items)
  {
    if items != [] {
      ConcatChained("", items, ", ");
      assert "" + Concat(items, ", ") == Concat(items, ", ");
    }
  }

  lemma CoreOnly(b: Builder)
    ensures Sql(Core(b)) == Concat(CoreParts(b), " ")
  {
    assert LimitParts(Core(b)) == [];
    assert CoreParts(Core(b)) == CoreParts(b);
    hide Concat, CoreParts, LimitParts;
    assert CoreParts(Core(b)) + [] == CoreParts(b);
  }

  lemma {:induction false} NullPerColumn(fields: map<string, string>, columns: seq<string>)
    ensures |NullFields(fields, columns)| == |columns|
    ensures forall i :: 0 <= i < |columns| ==> NullFields(fields, columns)[i] == NullField(fields, columns[i])
  {
    hide NullField;
    if columns != [] {
      NullPerColumn(fields, columns[..|columns| - 1]);
    }
  }
}
