/**
 * The parts of SQL the models rely on: `ORDER BY` over text, filtered
 * selection, `ILIKE` patterns, and `UPDATE ... SET col = $n` statements with
 * numbered placeholders.
 */
module Query {
  import opened Store

  // ---------------------------------------------------------------------------
  // ORDER BY on text: code-point lexicographic order (the "C" collation).

  predicate LexLeq(a: string, b: string)
    decreases |a|
  {
    |a| == 0 || (|b| > 0 && (a[0] < b[0] || (a[0] == b[0] && LexLeq(a[1..], b[1..]))))
  }

  lemma {:induction false} LexLeqTotal(a: string, b: string)
    ensures LexLeq(a, b) || LexLeq(b, a)
    decreases |a|
  {
    if |a| > 0 && |b| > 0 && a[0] == b[0] {
      LexLeqTotal(a[1..], b[1..]);
    }
  }

  lemma {:induction false} LexLeqTransitive(a: string, b: string, c: string)
    requires LexLeq(a, b) && LexLeq(b, c)
    ensures LexLeq(a, c)
    decreases |a|
  {
    if |a| > 0 && a[0] == b[0] && b[0] == c[0] {
      LexLeqTransitive(a[1..], b[1..], c[1..]);
    }
  }

  /** Rows in non-decreasing order of `key`. */
  ghost predicate SortedBy<V>(s: seq<V>, key: V -> string) {
    forall i, j :: 0 <= i < j < |s| ==> LexLeq(key(s[i]), key(s[j]))
  }

  /** Insert `x` before the first row whose key is not below it. */
  function InsertByKey<V>(s: seq<V>, x: V, key: V -> string): seq<V> {
    if s == [] then [x]
    else if LexLeq(key(x), key(s[0])) then [x] + s
    else [s[0]] + InsertByKey(s[1..], x, key)
  }

  /** Inserting adds exactly one occurrence of the row and loses none. */
  lemma {:induction false} InsertByKeyAdds<V>(s: seq<V>, x: V, key: V -> string)
    ensures multiset(InsertByKey(s, x, key)) == multiset(s) + multiset{x}
  {
    if s != [] && !LexLeq(key(x), key(s[0])) {
      InsertByKeyAdds(s[1..], x, key);
      assert s == [s[0]] + s[1..];
    }
  }

  /** A lower bound on every key of `s` and on the key of `x` bounds the keys after the insertion. */
  lemma {:induction false} InsertByKeyAbove<V>(s: seq<V>, x: V, key: V -> string, low: string)
    requires forall i :: 0 <= i < |s| ==> LexLeq(low, key(s[i]))
    requires LexLeq(low, key(x))
    ensures forall i :: 0 <= i < |InsertByKey(s, x, key)| ==> LexLeq(low, key(InsertByKey(s, x, key)[i]))
  {
    if s != [] && !LexLeq(key(x), key(s[0])) {
      InsertByKeyAbove(s[1..], x, key, low);
    }
  }

  lemma {:induction false} InsertByKeySorted<V>(s: seq<V>, x: V, key: V -> string)
    requires SortedBy(s, key)
    ensures SortedBy(InsertByKey(s, x, key), key)
    ensures multiset(InsertByKey(s, x, key)) == multiset(s) + multiset{x}
  {
    InsertByKeyAdds(s, x, key);
    if s == [] {
    } else if LexLeq(key(x), key(s[0])) {
      var r := [x] + s;
      forall i, j | 0 <= i < j < |r| ensures LexLeq(key(r[i]), key(r[j])) {
        if i == 0 && j > 1 {
          LexLeqTransitive(key(x), key(s[0]), key(s[j - 1]));
        }
      }
    } else {
      LexLeqTotal(key(x), key(s[0]));
      InsertByKeySorted(s[1..], x, key);
      InsertByKeyAbove(s[1..], x, key, key(s[0]));
    }
  }

  /** The rows of `vals` that satisfy `keep`: a `WHERE` clause. */
  function Matching<V>(vals: set<V>, keep: V -> bool): set<V> {
    set v | v in vals && keep(v)
  }

  /** `SELECT ... WHERE keep ORDER BY key`: every matching row exactly once, in key order. */
  method SelectOrdered<V>(vals: set<V>, keep: V -> bool, key: V -> string) returns (r: seq<V>)
    ensures SortedBy(r, key)
    ensures multiset(r) == multiset(Matching(vals, keep))
  {
    r := [];
    var todo := Matching(vals, keep);
    while todo != {}
      invariant SortedBy(r, key)
      invariant multiset(r) + multiset(todo) == multiset(Matching(vals, keep))
      decreases |todo|
    {
      var v :| v in todo;
      InsertByKeySorted(r, v, key);
      r := InsertByKey(r, v, key);
      assert todo == (todo - {v}) + {v};
      todo := todo - {v};
    }
  }

  /** A sequence whose multiset is that of a set holds each element once. */
  lemma {:induction false} OnceEach<V>(r: seq<V>, s: set<V>)
    requires multiset(r) == multiset(s)
    ensures forall v :: v in r <==> v in s
    ensures forall i, j :: 0 <= i < j < |r| ==> r[i] != r[j]
  {
    forall v ensures v in r <==> v in s {
      assert v in r <==> v in multiset(r);
    }
    forall i, j | 0 <= i < j < |r| ensures r[i] != r[j] {
      RepeatCountsTwice(r, i, j);
    }
  }

  lemma RepeatCountsTwice<V>(r: seq<V>, i: nat, j: nat)
    requires i < j < |r|
    ensures r[i] == r[j] ==> multiset(r)[r[i]] >= 2
  {
    assert r == r[..i] + [r[i]] + r[i + 1..j] + [r[j]] + r[j + 1..];
  }

  // ---------------------------------------------------------------------------
  // ILIKE: `%` matches any run, `_` one character, `\` escapes the next
  // character; letters compare after folding to lower case (ASCII folding).

  function Lower(c: char): char {
    if 'A' <= c <= 'Z' then (c as int + 32) as char else c
  }

  predicate ILike(s: string, p: string)
    decreases |p|, |s|
  {
    if |p| == 0 then |s| == 0
    else if p[0] == '%' then ILike(s, p[1..]) || (|s| > 0 && ILike(s[1..], p))
    else if |s| == 0 then false
    else if p[0] == '_' then ILike(s[1..], p[1..])
    else if p[0] == '\\' && |p| >= 2 then Lower(s[0]) == Lower(p[1]) && ILike(s[1..], p[2..])
    else Lower(s[0]) == Lower(p[0]) && ILike(s[1..], p[1..])
  }

  /** No character of `t` means anything special in a LIKE pattern. */
  predicate PlainTerm(t: string) {
    forall i :: 0 <= i < |t| ==> t[i] != '%' && t[i] != '_' && t[i] != '\\'
  }

  /** `t` is a prefix of `s` up to case. */
  predicate PrefixFolded(t: string, s: string) {
    |t| <= |s| && forall i :: 0 <= i < |t| ==> Lower(s[i]) == Lower(t[i])
  }

  /** `t` occurs in `s` up to case. */
  predicate ContainsFolded(s: string, t: string) {
    exists i :: 0 <= i <= |s| && PrefixFolded(t, s[i..])
  }

  lemma {:induction false} PercentMatchesAll(s: string)
    ensures ILike(s, "%")
    decreases |s|
  {
    if |s| > 0 {
      PercentMatchesAll(s[1..]);
    }
  }

  lemma {:induction false} PlainPrefixMatch(s: string, t: string)
    requires PlainTerm(t)
    ensures ILike(s, t + "%") <==> PrefixFolded(t, s)
    decreases |t|
  {
    if |t| == 0 {
      assert t + "%" == "%";
      PercentMatchesAll(s);
    } else {
      var p := t + "%";
      assert p[0] == t[0] && p[1..] == t[1..] + "%";
      assert PlainTerm(t[1..]);
      if |s| > 0 {
        PlainPrefixMatch(s[1..], t[1..]);
        if PrefixFolded(t, s) {
          assert PrefixFolded(t[1..], s[1..]);
        }
        if Lower(s[0]) == Lower(t[0]) && PrefixFolded(t[1..], s[1..]) {
          forall i | 0 <= i < |t| ensures Lower(s[i]) == Lower(t[i]) {
            if i > 0 {
              assert Lower(s[1..][i - 1]) == Lower(t[1..][i - 1]);
            }
          }
        }
      }
    }
  }

  lemma {:induction false} LeadingPercent(s: string, q: string)
    ensures ILike(s, "%" + q) <==> exists i :: 0 <= i <= |s| && ILike(s[i..], q)
    decreases |s|
  {
    var p := "%" + q;
    assert p[1..] == q;
    assert s[0..] == s;
    if |s| > 0 {
      LeadingPercent(s[1..], q);
      if exists i :: 0 <= i <= |s| && ILike(s[i..], q) {
        var i :| 0 <= i <= |s| && ILike(s[i..], q);
        if i > 0 {
          assert s[1..][i - 1..] == s[i..];
        }
      }
      if exists i :: 0 <= i <= |s[1..]| && ILike(s[1..][i..], q) {
        var i :| 0 <= i <= |s[1..]| && ILike(s[1..][i..], q);
        assert s[1..][i..] == s[i + 1..];
      }
    }
  }

  /** For a term without metacharacters, `name ILIKE '%' || term || '%'` is containment up to case. */
  lemma {:induction false} SearchPatternIsContainment(s: string, t: string)
    requires PlainTerm(t)
    ensures ILike(s, "%" + t + "%") <==> ContainsFolded(s, t)
  {
    assert "%" + t + "%" == "%" + (t + "%");
    LeadingPercent(s, t + "%");
    forall i | 0 <= i <= |s| ensures ILike(s[i..], t + "%") <==> PrefixFolded(t, s[i..]) {
      PlainPrefixMatch(s[i..], t);
    }
  }

  /** With a metacharacter in the term the pattern is no longer containment. */
  lemma UnderscoreMatchesAnyCharacter()
    ensures ILike("abc", "%" + "_" + "%")
    ensures !ContainsFolded("abc", "_")
  {
    assert ILike("c", "%");
    assert ILike("bc", "_%");
    assert ILike("abc", "%_%");
    forall i | 0 <= i <= 3 ensures !PrefixFolded("_", "abc"[i..]) {
      if i < 3 {
        assert "abc"[i..][0] == "abc"[i];
      }
    }
  }

  // ---------------------------------------------------------------------------
  // UPDATE statements built with numbered placeholders.

  /** A parameter value as the driver sends it. */
  datatype SqlValue = SqlText(text: string) | SqlInt(number: int) | SqlBool(flag: bool) | SqlNull

  function TextOrNull(v: Option<string>): SqlValue {
    match v
    case Some(s) => SqlText(s)
    case None => SqlNull
  }

  function IntOrNull(v: Option<int>): SqlValue {
    match v
    case Some(i) => SqlInt(i)
    case None => SqlNull
  }

  function BoolOrNull(v: Option<bool>): SqlValue {
    match v
    case Some(b) => SqlBool(b)
    case None => SqlNull
  }

  /** Reading a bound value into a column: a NOT NULL column refuses NULL, and a value of another type is refused. */
  function RequiredText(v: Option<SqlValue>): Result<string> {
    match v
    case Some(SqlText(s)) => Ok(s)
    case Some(SqlNull) => Err(NotNullViolation)
    case _ => Err(InvalidInput)
  }

  function NullableText(v: Option<SqlValue>): Result<Option<string>> {
    match v
    case Some(SqlText(s)) => Ok(Some(s))
    case Some(SqlNull) => Ok(None)
    case _ => Err(InvalidInput)
  }

  function RequiredInt(v: Option<SqlValue>): Result<int> {
    match v
    case Some(SqlInt(i)) => Ok(i)
    case Some(SqlNull) => Err(NotNullViolation)
    case _ => Err(InvalidInput)
  }

  function NullableInt(v: Option<SqlValue>): Result<Option<int>> {
    match v
    case Some(SqlInt(i)) => Ok(Some(i))
    case Some(SqlNull) => Ok(None)
    case _ => Err(InvalidInput)
  }

  function RequiredBool(v: Option<SqlValue>): Result<bool> {
    match v
    case Some(SqlBool(b)) => Ok(b)
    case Some(SqlNull) => Err(NotNullViolation)
    case _ => Err(InvalidInput)
  }

  /** The clause list of one optional field: empty when the key is absent. */
  function Supplied<C, T>(f: Field<T>, column: C, encode: T -> SqlValue): (r: seq<(C, SqlValue)>)
    ensures |r| <= 1
    ensures f.Absent? <==> r == []
  {
    match f
    case Absent => []
    case Given(v) => [(column, encode(v))]
  }

  /** The numbering after k clauses: `$1..$k` are taken and the next placeholder is `$(k+1)`. */
  predicate Numbered<C(==)>(fields: seq<Assignment<C>>, values: seq<SqlValue>, idx: nat, supplied: seq<(C, SqlValue)>) {
    fields == Placeholders(supplied) && values == ParamValues(supplied) && idx == |supplied| + 1
  }

  /**
   * `if (updates.key !== undefined) { fields.push("col = $" + idx++); values.push(value); }`
   * for one key of the update body.
   */
  method PushIfGiven<C(==), T>(fields: seq<Assignment<C>>, values: seq<SqlValue>, idx: nat, ghost supplied: seq<(C, SqlValue)>,
                           f: Field<T>, column: C, encode: T -> SqlValue)
    returns (fields': seq<Assignment<C>>, values': seq<SqlValue>, idx': nat, ghost supplied': seq<(C, SqlValue)>)
    requires Numbered(fields, values, idx, supplied)
    ensures supplied' == supplied + Supplied(f, column, encode)
    ensures Numbered(fields', values', idx', supplied')
    ensures f.Given? ==> fields' == fields + [Param(column, idx)] && values' == values + [encode(f.value)] && idx' == idx + 1
    ensures f.Absent? ==> fields' == fields && values' == values && idx' == idx
  {
    fields', values', idx', supplied' := fields, values, idx, supplied;
    if f.Given? {
      fields' := fields' + [Param(column, idx')];
      idx' := idx' + 1;
      values' := values' + [encode(f.value)];
      supplied' := supplied' + [(column, encode(f.value))];
    }
  }

  /** One clause of a SET list: `col = $index` or `col = NOW()`. */
  datatype Assignment<C> = Param(column: C, index: nat) | SetNow(column: C)

  /** `UPDATE t SET assignments WHERE id = $whereIndex`, with its parameter list. */
  datatype UpdateStatement<C> = UpdateStatement(assignments: seq<Assignment<C>>, params: seq<SqlValue>, whereIndex: nat)

  /** `col_1 = $1, ..., col_k = $k` for the given (column, value) pairs. */
  function Placeholders<C>(fields: seq<(C, SqlValue)>): (r: seq<Assignment<C>>)
    ensures |r| == |fields|
    ensures forall i :: 0 <= i < |fields| ==> r[i] == Param(fields[i].0, i + 1)
  {
    seq(|fields|, i requires 0 <= i < |fields| => Param(fields[i].0, i + 1))
  }

  /** The columns of the pairs, in order. */
  function Columns<C>(fields: seq<(C, SqlValue)>): (r: seq<C>)
    ensures |r| == |fields|
    ensures forall i :: 0 <= i < |fields| ==> r[i] == fields[i].0
  {
    seq(|fields|, i requires 0 <= i < |fields| => fields[i].0)
  }

  lemma ColumnsAppend<C>(a: seq<(C, SqlValue)>, b: seq<(C, SqlValue)>)
    ensures Columns(a + b) == Columns(a) + Columns(b)
  {
  }

  /** The one key's clause names its column exactly when the key is present. */
  lemma ColumnsOfSupplied<C, T>(f: Field<T>, column: C, encode: T -> SqlValue, c: C)
    ensures c in Columns(Supplied(f, column, encode)) <==> f.Given? && c == column
  {
    if f.Given? {
      assert Columns(Supplied(f, column, encode)) == [column];
    } else {
      assert Columns(Supplied(f, column, encode)) == [];
    }
  }

  /** The values of the pairs, in the same order. */
  function ParamValues<C>(fields: seq<(C, SqlValue)>): (r: seq<SqlValue>)
    ensures |r| == |fields|
    ensures forall i :: 0 <= i < |fields| ==> r[i] == fields[i].1
  {
    seq(|fields|, i requires 0 <= i < |fields| => fields[i].1)
  }

  /**
   * The statement for a set of supplied fields: one numbered placeholder per
   * field, the `extra` clauses after them, and the id bound to the last
   * placeholder of the WHERE clause.
   */
  function StatementFor<C>(fields: seq<(C, SqlValue)>, extra: seq<Assignment<C>>, id: int): UpdateStatement<C> {
    UpdateStatement(Placeholders(fields) + extra, ParamValues(fields) + [SqlInt(id)], |fields| + 1)
  }

  /** What the store binds to each assignment: its column and its value (None for NOW()). */
  function Bindings<C>(assignments: seq<Assignment<C>>, params: seq<SqlValue>): seq<(C, Option<SqlValue>)> {
    if assignments == [] then []
    else
      var a := assignments[0];
      var v := match a
        case Param(_, n) => if 1 <= n <= |params| then Some(params[n - 1]) else Some(SqlNull)
        case SetNow(_) => None;
      [(a.column, v)] + Bindings(assignments[1..], params)
  }

  /** The pairs as the store binds them. */
  function Bound<C>(fields: seq<(C, SqlValue)>): (r: seq<(C, Option<SqlValue>)>)
    ensures |r| == |fields|
    ensures forall i :: 0 <= i < |fields| ==> r[i] == (fields[i].0, Some(fields[i].1))
  {
    seq(|fields|, i requires 0 <= i < |fields| => (fields[i].0, Some(fields[i].1)))
  }

  /** Run the bound assignments against a row from left to right; the first failure aborts. */
  function ApplyBindings<R, C>(row: R, bs: seq<(C, Option<SqlValue>)>, assign: (R, C, Option<SqlValue>) -> Result<R>): Result<R>
    decreases |bs|
  {
    if bs == [] then Ok(row)
    else match assign(row, bs[0].0, bs[0].1)
      case Err(e) => Err(e)
      case Ok(next) => ApplyBindings(next, bs[1..], assign)
  }

  /** After one assignment: stop on its error, or run the rest on the new row. */
  function Continue<R, C>(step: Result<R>, tail: seq<(C, Option<SqlValue>)>, assign: (R, C, Option<SqlValue>) -> Result<R>): Result<R> {
    match step
    case Err(e) => Err(e)
    case Ok(next) => ApplyBindings(next, tail, assign)
  }

  lemma BoundThen<C>(a: seq<(C, SqlValue)>, b: seq<(C, SqlValue)>, tail: seq<(C, Option<SqlValue>)>)
    ensures Bound(a + b) + tail == Bound(a) + (Bound(b) + tail)
  {
    assert Bound(a + b) == Bound(a) + Bound(b);
  }

  /** The bound clause list of one optional field. */
  function BoundField<C, T>(f: Field<T>, column: C, encode: T -> SqlValue): seq<(C, Option<SqlValue>)> {
    match f
    case Absent => []
    case Given(v) => [(column, Some(encode(v)))]
  }

  lemma BoundSupplied<C, T>(f: Field<T>, column: C, encode: T -> SqlValue)
    ensures Bound(Supplied(f, column, encode)) == BoundField(f, column, encode)
  {
  }

  /** Running a list that starts with one optional field's clause: that assignment if given, then the rest. */
  lemma ApplyField<R, C, T>(row: R, f: Field<T>, column: C, encode: T -> SqlValue,
                            tail: seq<(C, Option<SqlValue>)>, assign: (R, C, Option<SqlValue>) -> Result<R>)
    ensures ApplyBindings(row, BoundField(f, column, encode) + tail, assign) ==
      if f.Absent? then ApplyBindings(row, tail, assign)
      else Continue(assign(row, column, Some(encode(f.value))), tail, assign)
  {
    if f.Absent? {
      assert BoundField(f, column, encode) + tail == tail;
    } else {
      assert (BoundField(f, column, encode) + tail)[1..] == tail;
    }
  }

  /** What the store does with an UPDATE statement on the row it matched. */
  function ExecUpdate<R, C>(row: R, stmt: UpdateStatement<C>, assign: (R, C, Option<SqlValue>) -> Result<R>): Result<R> {
    ApplyBindings(row, Bindings(stmt.assignments, stmt.params), assign)
  }

  /** Placeholders are $1..$k in order and the WHERE placeholder is the last one, $(k+1). */
  predicate WellNumbered<C>(stmt: UpdateStatement<C>) {
    && |stmt.params| == stmt.whereIndex
    && (forall i :: 0 <= i < |stmt.assignments| && stmt.assignments[i].Param? ==> stmt.assignments[i].index == i + 1)
    && (forall i :: 0 <= i < |stmt.assignments| && stmt.assignments[i].SetNow? ==> i + 1 >= stmt.whereIndex)
  }

  lemma {:induction false} BindingsAppend<C>(a: seq<Assignment<C>>, b: seq<Assignment<C>>, params: seq<SqlValue>)
    ensures Bindings(a + b, params) == Bindings(a, params) + Bindings(b, params)
  {
    if a == [] {
      assert a + b == b;
    } else {
      assert (a + b)[0] == a[0];
      assert (a + b)[1..] == a[1..] + b;
      BindingsAppend(a[1..], b, params);
    }
  }

  lemma {:induction false} PlaceholderBindings<C>(fields: seq<(C, SqlValue)>, params: seq<SqlValue>)
    requires |fields| <= |params|
    requires forall i :: 0 <= i < |fields| ==> params[i] == fields[i].1
    ensures Bindings(Placeholders(fields), params) == Bound(fields)
    decreases |fields|
  {
    if |fields| > 0 {
      var front := fields[..|fields| - 1];
      assert Placeholders(fields) == Placeholders(front) + [Param(fields[|fields| - 1].0, |fields|)];
      BindingsAppend(Placeholders(front), [Param(fields[|fields| - 1].0, |fields|)], params);
      PlaceholderBindings(front, params);
      assert Bound(fields) == Bound(front) + [(fields[|fields| - 1].0, Some(fields[|fields| - 1].1))];
    }
  }

  /**
   * In a statement built by `StatementFor`, `$i` is bound to the i-th
   * supplied value, each clause names its field's column, and the WHERE
   * placeholder is bound to the id.
   */
  lemma StatementForBinds<C>(fields: seq<(C, SqlValue)>, extra: seq<Assignment<C>>, id: int)
    requires forall a :: a in extra ==> a.SetNow?
    ensures WellNumbered(StatementFor(fields, extra, id))
    ensures var stmt := StatementFor(fields, extra, id);
      stmt.params[stmt.whereIndex - 1] == SqlInt(id)
    ensures var stmt := StatementFor(fields, extra, id);
      Bindings(stmt.assignments, stmt.params) == Bound(fields) + Bindings(extra, stmt.params)
  {
    var stmt := StatementFor(fields, extra, id);
    forall i | 0 <= i < |stmt.assignments|
      ensures || (i < |fields| && stmt.assignments[i] == Param(fields[i].0, i + 1))
              || (i >= |fields| && stmt.assignments[i] in extra)
    {
    }
    BindingsAppend(Placeholders(fields), extra, stmt.params);
    PlaceholderBindings(fields, stmt.params);
  }
}
