/**
  The statements utils/bq_client.py sends to the warehouse, in structured form:
  their text, built by literal interpolation as the source's f-strings build it,
  and their meaning over an abstract table of positional rows.
 */
module Sql {
  import opened Wrappers
  import opened Text

  /** A cell of a warehouse row, and a value interpolated into a statement. */
  datatype Value = VInt(i: int) | VBool(b: bool) | VString(s: string) | VNull

  /** A row of a table: one value per column of its schema, in schema order. */
  type Row = seq<Value>

  /** `column = value`, in a SET list or a WHERE clause. */
  datatype Binding = Binding(column: string, value: Value)

  datatype Statement =
    | Update(target: string, assignments: seq<Binding>, filter: seq<Binding>)
    | Delete(target: string, filter: seq<Binding>)

  // ---------------------------------------------------------------------------
  // Text
  // ---------------------------------------------------------------------------

  /**
    How an f-string renders a value: an int in decimal, a bool as True or False, None as
    None, and a string verbatim between single quotes, with nothing escaped.
   */
  function Literal(v: Value): string {
    match v
    case VInt(i) => IntToString(i)
    case VBool(b) => if b then "True" else "False"
    case VString(s) => "'" + s + "'"
    case VNull => "None"
  }

  function RenderBinding(b: Binding): string {
    b.column + " = " + Literal(b.value)
  }

  function RenderBindings(bs: seq<Binding>): (parts: seq<string>)
    ensures |parts| == |bs|
    ensures forall j :: 0 <= j < |bs| ==> parts[j] == RenderBinding(bs[j])
  {
    seq(|bs|, j requires 0 <= j < |bs| => RenderBinding(bs[j]))
  }

  /** A table reference, `project.dataset.table`. */
  function TableRef(target: string): string {
    "`" + target + "`"
  }

  function SetList(assignments: seq<Binding>): string {
    Join(RenderBindings(assignments), ", ")
  }

  function WhereClause(filter: seq<Binding>): string {
    Join(RenderBindings(filter), " AND ")
  }

  /** A two-key filter reads a AND b. */
  lemma WhereClauseOfPair(a: Binding, b: Binding)
    ensures WhereClause([a, b]) == RenderBinding(a) + " AND " + RenderBinding(b)
  {
    var parts := RenderBindings([a, b]);
    assert parts == [RenderBinding(a), RenderBinding(b)];
    assert parts[1..] == [RenderBinding(b)];
    assert Join(parts[1..], " AND ") == RenderBinding(b);
  }

  /** The text before the WHERE clause's predicates. */
  function QueryHead(stmt: Statement): string {
    match stmt
    case Update(target, assignments, _) => "UPDATE " + TableRef(target) + " SET " + SetList(assignments) + " WHERE "
    case Delete(target, _) => "DELETE FROM " + TableRef(target) + " WHERE "
  }

  /** The statement text, up to the layout whitespace of the source's f-strings. */
  function Query(stmt: Statement): string {
    QueryHead(stmt) + WhereClause(stmt.filter)
  }

  /** The text names the target table between backticks. */
  lemma QueryNamesTarget(stmt: Statement)
    ensures IsSubstring(TableRef(stmt.target), Query(stmt))
  {
    var t := TableRef(stmt.target);
    SubstringReflexive(t);
    match stmt
    case Update(target, assignments, filter) =>
      SubstringInRight(t, "UPDATE ", t);
      SubstringInLeft(t, "UPDATE " + t, " SET ");
      SubstringInLeft(t, "UPDATE " + t + " SET ", SetList(assignments));
      SubstringInLeft(t, "UPDATE " + t + " SET " + SetList(assignments), " WHERE ");
      SubstringInLeft(t, QueryHead(stmt), WhereClause(filter));
    case Delete(target, filter) =>
      SubstringInRight(t, "DELETE FROM ", t);
      SubstringInLeft(t, "DELETE FROM " + t, " WHERE ");
      SubstringInLeft(t, QueryHead(stmt), WhereClause(filter));
  }

  /** Every SET entry appears verbatim in the text. */
  lemma QueryShowsAssignment(stmt: Statement, j: nat)
    requires stmt.Update? && j < |stmt.assignments|
    ensures IsSubstring(RenderBinding(stmt.assignments[j]), Query(stmt))
  {
    var b := RenderBinding(stmt.assignments[j]);
    var l := SetList(stmt.assignments);
    var pre := "UPDATE " + TableRef(stmt.target) + " SET ";
    JoinContainsPart(RenderBindings(stmt.assignments), ", ", j);
    SubstringInRight(b, pre, l);
    SubstringInLeft(b, pre + l, " WHERE ");
    SubstringInLeft(b, QueryHead(stmt), WhereClause(stmt.filter));
  }

  /** Every WHERE predicate appears verbatim in the text. */
  lemma QueryShowsPredicate(stmt: Statement, j: nat)
    requires j < |stmt.filter|
    ensures IsSubstring(RenderBinding(stmt.filter[j]), Query(stmt))
  {
    JoinContainsPart(RenderBindings(stmt.filter), " AND ", j);
    SubstringInRight(RenderBinding(stmt.filter[j]), QueryHead(stmt), WhereClause(stmt.filter));
  }

  /** A string assigned in the SET list stands in the text as '<value>', unescaped. */
  lemma QueryQuotesString(stmt: Statement, j: nat)
    requires stmt.Update? && j < |stmt.assignments| && stmt.assignments[j].value.VString?
    ensures IsSubstring("'" + stmt.assignments[j].value.s + "'", Query(stmt))
  {
    var b := stmt.assignments[j];
    var quoted := "'" + b.value.s + "'";
    SubstringReflexive(quoted);
    SubstringInRight(quoted, b.column + " = ", quoted);
    QueryShowsAssignment(stmt, j);
    SubstringTransitive(quoted, RenderBinding(b), Query(stmt));
  }

  // ---------------------------------------------------------------------------
  // Meaning over an abstract table
  // ---------------------------------------------------------------------------

  function Columns(bs: seq<Binding>): (cs: seq<string>)
    ensures |cs| == |bs|
    ensures forall j :: 0 <= j < |bs| ==> cs[j] == bs[j].column
  {
    seq(|bs|, j requires 0 <= j < |bs| => bs[j].column)
  }

  function Values(bs: seq<Binding>): (vs: Row)
    ensures |vs| == |bs|
    ensures forall j :: 0 <= j < |bs| ==> vs[j] == bs[j].value
  {
    seq(|bs|, j requires 0 <= j < |bs| => bs[j].value)
  }

  predicate NoDuplicates(columns: seq<string>) {
    forall i, j :: 0 <= i < j < |columns| ==> columns[i] != columns[j]
  }

  /** Position of a column in the schema (its first occurrence), None for an unknown name. */
  function IndexOf(columns: seq<string>, c: string): (r: Option<nat>)
    ensures r.Some? ==> r.value < |columns| && columns[r.value] == c
    ensures r.Some? ==> forall j :: 0 <= j < r.value ==> columns[j] != c
    ensures r.None? <==> c !in columns
  {
    if columns == [] then None
    else if columns[0] == c then Some(0)
    else match IndexOf(columns[1..], c)
      case Some(i) => Some(i + 1)
      case None => None
  }

  function CellAt(columns: seq<string>, row: Row, c: string): Option<Value> {
    match IndexOf(columns, c)
    case Some(i) => if i < |row| then Some(row[i]) else None
    case None => None
  }

  /** The WHERE clause holds of the row: every predicate's column holds its value. */
  predicate Matches(columns: seq<string>, row: Row, filter: seq<Binding>) {
    forall j :: 0 <= j < |filter| ==> CellAt(columns, row, filter[j].column) == Some(filter[j].value)
  }

  /** The SET list applied to one row, left to right. */
  function Assign(columns: seq<string>, row: Row, bs: seq<Binding>): (r: Row)
    ensures |r| == |row|
    decreases |bs|
  {
    if bs == [] then row
    else
      var row' := match IndexOf(columns, bs[0].column)
        case Some(i) => if i < |row| then row[i := bs[0].value] else row
        case None => row;
      Assign(columns, row', bs[1..])
  }

  function ApplyUpdate(columns: seq<string>, rows: seq<Row>, assignments: seq<Binding>, filter: seq<Binding>): (r: seq<Row>)
    ensures |r| == |rows|
  {
    seq(|rows|, i requires 0 <= i < |rows| =>
      if Matches(columns, rows[i], filter) then Assign(columns, rows[i], assignments) else rows[i])
  }

  /** The rows the WHERE clause does not hold of, in their order. */
  function ApplyDelete(columns: seq<string>, rows: seq<Row>, filter: seq<Binding>): (r: seq<Row>)
    ensures forall x :: multiset(r)[x] == if Matches(columns, x, filter) then 0 else multiset(rows)[x]
  {
    if rows == [] then []
    else
      var rest := ApplyDelete(columns, rows[1..], filter);
      assert rows == [rows[0]] + rows[1..];
      if Matches(columns, rows[0], filter) then rest else [rows[0]] + rest
  }

  /** What executing the statement does to the rows of the table it targets. */
  function Execute(columns: seq<string>, rows: seq<Row>, stmt: Statement): seq<Row> {
    match stmt
    case Update(_, assignments, filter) => ApplyUpdate(columns, rows, assignments, filter)
    case Delete(_, filter) => ApplyDelete(columns, rows, filter)
  }

  predicate WellFormed(columns: seq<string>, rows: seq<Row>) {
    forall i :: 0 <= i < |rows| ==> |rows[i]| == |columns|
  }

  /** Executing a statement keeps every row as wide as the schema. */
  lemma ExecuteKeepsWidth(columns: seq<string>, rows: seq<Row>, stmt: Statement)
    requires WellFormed(columns, rows)
    ensures WellFormed(columns, Execute(columns, rows, stmt))
  {
    var r := Execute(columns, rows, stmt);
    if stmt.Delete? {
      forall i | 0 <= i < |r| ensures |r[i]| == |columns| {
        assert multiset(r)[r[i]] > 0;
        assert r[i] in multiset(rows);
      }
    }
  }

  // ---------------------------------------------------------------------------
  // Key-addressed statements: WHERE on the leading key columns, SET on the rest
  // ---------------------------------------------------------------------------

  /** The row's leading |key| cells are the key. */
  predicate HasKey(row: Row, key: Row) {
    |key| <= |row| && row[..|key|] == key
  }

  /** The table after every row with the key is replaced by newRow (an UPDATE by key). */
  function ReplaceKeyed(rows: seq<Row>, key: Row, newRow: Row): (r: seq<Row>)
    ensures |r| == |rows|
    ensures forall i :: 0 <= i < |rows| && !HasKey(rows[i], key) ==> r[i] == rows[i]
    ensures forall i :: 0 <= i < |rows| && HasKey(rows[i], key) ==> r[i] == newRow
  {
    seq(|rows|, i requires 0 <= i < |rows| => if HasKey(rows[i], key) then newRow else rows[i])
  }

  /** The table after every row with the key is removed (a DELETE by key). */
  function WithoutKey(rows: seq<Row>, key: Row): (r: seq<Row>)
  {
    if rows == [] then []
    else (if HasKey(rows[0], key) then [] else [rows[0]]) + WithoutKey(rows[1..], key)
  }

  /** No row with the key remains; every other row stays, as often as it was there. */
  lemma {:induction false} WithoutKeyRemovesExactlyKeyed(rows: seq<Row>, key: Row)
    ensures forall x :: x in WithoutKey(rows, key) ==> !HasKey(x, key)
    ensures forall x :: !HasKey(x, key) ==> multiset(WithoutKey(rows, key))[x] == multiset(rows)[x]
  {
    if rows != [] {
      WithoutKeyRemovesExactlyKeyed(rows[1..], key);
      assert rows == [rows[0]] + rows[1..];
    }
  }

  /** Key-addressed writes to a key no row has change nothing. */
  lemma AbsentKeyUnchanged(rows: seq<Row>, key: Row, newRow: Row)
    requires forall i :: 0 <= i < |rows| ==> !HasKey(rows[i], key)
    ensures ReplaceKeyed(rows, key, newRow) == rows
    ensures WithoutKey(rows, key) == rows
  {
    WithoutKeyAbsent(rows, key);
  }

  lemma {:induction false} WithoutKeyAbsent(rows: seq<Row>, key: Row)
    requires forall i :: 0 <= i < |rows| ==> !HasKey(rows[i], key)
    ensures WithoutKey(rows, key) == rows
  {
    if rows != [] {
      WithoutKeyAbsent(rows[1..], key);
    }
  }

  /** The WHERE binds exactly the first k columns and the SET list exactly the others. */
  predicate KeyedUpdate(columns: seq<string>, k: nat, stmt: Statement) {
    && stmt.Update?
    && k <= |columns|
    && Columns(stmt.filter) == columns[..k]
    && Columns(stmt.assignments) == columns[k..]
  }

  predicate KeyedDelete(columns: seq<string>, k: nat, stmt: Statement) {
    && stmt.Delete?
    && k <= |columns|
    && Columns(stmt.filter) == columns[..k]
  }

  lemma IndexOfDistinct(columns: seq<string>, i: nat)
    requires NoDuplicates(columns) && i < |columns|
    ensures IndexOf(columns, columns[i]) == Some(i)
  {
    var r := IndexOf(columns, columns[i]);
    assert r.Some?;
  }

  /** Under a unique schema, a WHERE on the leading key columns holds exactly of the rows with that key. */
  lemma MatchesLeadingKey(columns: seq<string>, row: Row, filter: seq<Binding>)
    requires NoDuplicates(columns) && |row| == |columns|
    requires |filter| <= |columns| && Columns(filter) == columns[..|filter|]
    ensures Matches(columns, row, filter) <==> HasKey(row, Values(filter))
  {
    forall j | 0 <= j < |filter|
      ensures CellAt(columns, row, filter[j].column) == Some(row[j])
    {
      assert filter[j].column == columns[j];
      IndexOfDistinct(columns, j);
    }
    if Matches(columns, row, filter) {
      assert forall j :: 0 <= j < |filter| ==> row[j] == filter[j].value;
      assert row[..|filter|] == Values(filter);
    }
  }

  /** Under a unique schema, a SET list on the trailing columns rewrites exactly those cells. */
  lemma {:induction false} AssignTrailing(columns: seq<string>, row: Row, bs: seq<Binding>, k: nat)
    requires NoDuplicates(columns) && |row| == |columns|
    requires k + |bs| == |columns| && Columns(bs) == columns[k..]
    ensures Assign(columns, row, bs) == row[..k] + Values(bs)
    decreases |bs|
  {
    if bs == [] {
      assert row[..k] == row;
    } else {
      var v := bs[0].value;
      AssignFirst(columns, row, bs, k);
      ColumnsTail(columns, bs, k);
      AssignTrailing(columns, row[k := v], bs[1..], k + 1);
      PrefixAfterUpdate(row, k, v);
      ValuesCons(bs);
      ConcatAssociates(row[..k], [v], Values(bs[1..]));
    }
  }

  /** The first SET entry, on column k of a unique schema, writes cell k. */
  lemma AssignFirst(columns: seq<string>, row: Row, bs: seq<Binding>, k: nat)
    requires NoDuplicates(columns) && |row| == |columns|
    requires bs != [] && k < |columns| && bs[0].column == columns[k]
    ensures Assign(columns, row, bs) == Assign(columns, row[k := bs[0].value], bs[1..])
  {
    IndexOfDistinct(columns, k);
  }

  lemma ConcatAssociates(a: Row, b: Row, c: Row)
    ensures (a + b) + c == a + (b + c)
  {
  }

  lemma PrefixAfterUpdate(row: Row, k: nat, v: Value)
    requires k < |row|
    ensures row[k := v][..k + 1] == row[..k] + [v]
  {
  }

  lemma ValuesCons(bs: seq<Binding>)
    requires bs != []
    ensures Values(bs) == [bs[0].value] + Values(bs[1..])
  {
    assert Values(bs)[1..] == Values(bs[1..]);
  }

  lemma ColumnsTail(columns: seq<string>, bs: seq<Binding>, k: nat)
    requires bs != [] && k + |bs| == |columns| && Columns(bs) == columns[k..]
    ensures Columns(bs[1..]) == columns[k + 1..]
  {
    var tail := Columns(bs[1..]);
    forall j | 0 <= j < |tail|
      ensures tail[j] == columns[k + 1..][j]
    {
      assert tail[j] == bs[j + 1].column == Columns(bs)[j + 1] == columns[k + 1 + j];
    }
  }

  /** A key-addressed UPDATE replaces each row with the key by the key followed by the SET values. */
  lemma KeyedUpdateMeaning(columns: seq<string>, k: nat, rows: seq<Row>, stmt: Statement)
    requires NoDuplicates(columns) && WellFormed(columns, rows) && KeyedUpdate(columns, k, stmt)
    ensures Execute(columns, rows, stmt)
      == ReplaceKeyed(rows, Values(stmt.filter), Values(stmt.filter) + Values(stmt.assignments))
  {
    var key := Values(stmt.filter);
    var r := Execute(columns, rows, stmt);
    var s := ReplaceKeyed(rows, key, key + Values(stmt.assignments));
    forall i | 0 <= i < |rows|
      ensures r[i] == s[i]
    {
      MatchesLeadingKey(columns, rows[i], stmt.filter);
      if HasKey(rows[i], key) {
        AssignTrailing(columns, rows[i], stmt.assignments, k);
      }
    }
  }

  /** A key-addressed DELETE removes exactly the rows with the key. */
  lemma {:induction false} KeyedDeleteMeaning(columns: seq<string>, k: nat, rows: seq<Row>, stmt: Statement)
    requires NoDuplicates(columns) && WellFormed(columns, rows) && KeyedDelete(columns, k, stmt)
    ensures Execute(columns, rows, stmt) == WithoutKey(rows, Values(stmt.filter))
  {
    if rows != [] {
      MatchesLeadingKey(columns, rows[0], stmt.filter);
      KeyedDeleteMeaning(columns, k, rows[1..], stmt);
    }
  }
}
