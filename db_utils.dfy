/** The SQL statement builders of src/database/dbUtils.ts. A record handed to them is
    a JavaScript object, whose `Object.keys` and `Object.values` list its properties
    in one and the same order (integer-like keys first, ascending, then the others in
    insertion order); it is modelled as the list of (column, value) pairs in that order.
    Each builder yields the statement text and the parameters it passes on; running
    the statement is not part of this model. */
module DbUtils {
  import opened Wrappers
  import opened Text
  import opened Json

  /** A record as `Object.keys` / `Object.values` see it. */
  type Row = seq<(string, Value)>

  /** A statement and the values bound to its `?` placeholders, in order. */
  datatype Query = Query(sql: string, params: seq<Value>)

  const MARK: char := '?'
  const LIST_SEPARATOR: string := ", "

  /** `Object.keys(data)`. */
  function Columns(data: Row): (r: seq<string>)
    ensures |r| == |data|
    ensures forall i :: 0 <= i < |data| ==> r[i] == data[i].0
  {
    seq(|data|, i requires 0 <= i < |data| => data[i].0)
  }

  /** `Object.values(data)`. */
  function Values(data: Row): (r: seq<Value>)
    ensures |r| == |data|
    ensures forall i :: 0 <= i < |data| ==> r[i] == data[i].1
  {
    seq(|data|, i requires 0 <= i < |data| => data[i].1)
  }

  /** `Object.keys(data).map(() => '?')`. */
  function Marks(n: nat): (r: seq<string>)
    ensures |r| == n
    ensures forall i :: 0 <= i < n ==> r[i] == [MARK]
  {
    seq(n, _ => [MARK])
  }

  /** `Object.keys(data).map(key => `${key} = ?`)`. */
  function Assignments(columns: seq<string>): (r: seq<string>)
    ensures |r| == |columns|
    ensures forall i :: 0 <= i < |columns| ==> r[i] == columns[i] + " = " + [MARK]
  {
    seq(|columns|, i requires 0 <= i < |columns| => columns[i] + " = " + [MARK])
  }

  /** The number of `?` in all of `parts` together. */
  function MarksIn(parts: seq<string>): nat
  {
    if parts == [] then 0 else CountChar(parts[0], MARK) + MarksIn(parts[1..])
  }

  /** No column or table name contains a placeholder. */
  predicate Unmarked(parts: seq<string>) {
    forall i :: 0 <= i < |parts| ==> MARK !in parts[i]
  }

  // ---------------------------------------------------------------------------
  // The builders

  /** `insertRecord`: `INSERT INTO t (c1, c2) VALUES (?, ?)` with the record's values. */
  function InsertRecord(table: string, data: Row): (q: Query)
    ensures |q.params| == |data|
    ensures forall i :: 0 <= i < |data| ==> (Columns(data)[i], q.params[i]) == data[i]
  {
    Query(InsertText(table, Columns(data)), Values(data))
  }

  /** The text of an insert into `table` of the given columns. */
  function InsertText(table: string, columns: seq<string>): string {
    "INSERT INTO " + table + " (" + Join(columns, LIST_SEPARATOR) + ") VALUES ("
    + Join(Marks(|columns|), LIST_SEPARATOR) + ")"
  }

  /** `updateRecord`: `UPDATE t SET c1 = ?, c2 = ? WHERE clause`, with the record's values
      followed by the parameters of the clause. */
  function UpdateRecord(table: string, data: Row, whereClause: string, whereParams: seq<Value>): (q: Query)
    ensures |q.params| == |data| + |whereParams|
    ensures forall i :: 0 <= i < |data| ==> q.params[i] == data[i].1
    ensures q.params[|data|..] == whereParams
  {
    Query("UPDATE " + table + " SET " + Join(Assignments(Columns(data)), LIST_SEPARATOR)
          + " WHERE " + whereClause,
          Values(data) + whereParams)
  }

  /** `deleteRecord`: `DELETE FROM t WHERE clause`; the parameters pass through. */
  function DeleteRecord(table: string, whereClause: string, whereParams: seq<Value>): (q: Query)
    ensures q.params == whereParams
    ensures q.sql == "DELETE FROM " + table + " WHERE " + whereClause
  {
    Query("DELETE FROM " + table + " WHERE " + whereClause, whereParams)
  }

  /** `getRecords`: `SELECT * FROM t`, with ` WHERE clause` when the clause is given and
      not empty (an empty string is falsy). */
  function GetRecords(table: string, whereClause: Option<string>, whereParams: seq<Value>): (q: Query)
    ensures q.params == whereParams
  {
    var filter := if whereClause.Some? && whereClause.value != "" then " WHERE " + whereClause.value else "";
    Query("SELECT * FROM " + table + filter, whereParams)
  }

  // ---------------------------------------------------------------------------
  // Placeholders and parameters agree

  /** The `?` in a join are those of the pieces and those of the separators between them. */
  lemma {:induction false} CountJoin(parts: seq<string>, sep: string)
    ensures CountChar(Join(parts, sep), MARK)
         == MarksIn(parts) + (if parts == [] then 0 else (|parts| - 1) * CountChar(sep, MARK))
  {
    if |parts| == 1 {
      assert parts[1..] == [];
    } else if |parts| > 1 {
      CountJoin(parts[1..], sep);
      CountCharConcat(parts[0], sep, MARK);
      CountCharConcat(parts[0] + sep, Join(parts[1..], sep), MARK);
    }
  }

  lemma {:induction false} MarksInUnmarked(parts: seq<string>)
    requires Unmarked(parts)
    ensures MarksIn(parts) == 0
  {
    if parts != [] {
      CountNone(parts[0], MARK);
      MarksInUnmarked(parts[1..]);
    }
  }

  lemma {:induction false} CountNone(s: string, c: char)
    requires c !in s
    ensures CountChar(s, c) == 0
  {
    if s != [] {
      CountNone(s[1..], c);
    }
  }

  lemma {:induction false} MarksInMarks(n: nat)
    ensures MarksIn(Marks(n)) == n
  {
    if n > 0 {
      assert Marks(n)[1..] == Marks(n - 1);
      MarksInMarks(n - 1);
    }
  }

  lemma {:induction false} MarksInAssignments(columns: seq<string>)
    requires Unmarked(columns)
    ensures MarksIn(Assignments(columns)) == |columns|
  {
    if columns != [] {
      var a := Assignments(columns);
      assert a[1..] == Assignments(columns[1..]);
      CountNone(columns[0], MARK);
      CountCharConcat(columns[0], " = ", MARK);
      CountCharConcat(columns[0] + " = ", [MARK], MARK);
      MarksInAssignments(columns[1..]);
    }
  }

  /** The `?` of five pieces put together. */
  lemma CountFive(a: string, b: string, c: string, d: string, e: string)
    ensures CountChar(a + b + c + d + e, MARK)
         == CountChar(a, MARK) + CountChar(b, MARK) + CountChar(c, MARK) + CountChar(d, MARK) + CountChar(e, MARK)
  {
    CountCharConcat(a, b, MARK);
    CountCharConcat(a + b, c, MARK);
    CountCharConcat(a + b + c, d, MARK);
    CountCharConcat(a + b + c + d, e, MARK);
  }

  /** The text of an insert has one placeholder per column, provided the table and
      column names contain none. */
  lemma InsertTextCount(table: string, columns: seq<string>)
    requires MARK !in table && Unmarked(columns)
    ensures CountChar(InsertText(table, columns), MARK) == |columns|
  {
    var pre, cols, mid, marks, post :=
      "INSERT INTO " + table + " (", Join(columns, LIST_SEPARATOR), ") VALUES (",
      Join(Marks(|columns|), LIST_SEPARATOR), ")";
    InsertWordsUnmarked();
    CountFive(pre, cols, mid, marks, post);
    WrappedCount("INSERT INTO ", table, " (");
    CountNone(mid, MARK);
    CountNone(post, MARK);
    ColumnListCount(columns);
    MarkListCount(|columns|);
  }

  /** The fixed words of an insert hold no placeholder. */
  lemma InsertWordsUnmarked()
    ensures MARK !in "INSERT INTO " && MARK !in " (" && MARK !in ") VALUES (" && MARK !in ")"
  {
  }

  /** Nor do those of an update or a delete. */
  lemma UpdateWordsUnmarked()
    ensures MARK !in "UPDATE " && MARK !in " SET " && MARK !in " WHERE " && MARK !in "DELETE FROM "
  {
  }

  /** A name between two placeholder-free pieces of text adds no placeholder. */
  lemma WrappedCount(before: string, name: string, after: string)
    requires MARK !in before && MARK !in name && MARK !in after
    ensures CountChar(before + name + after, MARK) == 0
  {
    CountNone(before, MARK);
    CountNone(name, MARK);
    CountNone(after, MARK);
    CountCharConcat(before, name, MARK);
    CountCharConcat(before + name, after, MARK);
  }

  /** An insert binds exactly as many values as its text has placeholders, provided the
      table and column names contain none. */
  lemma InsertPlaceholders(table: string, data: Row)
    requires MARK !in table && Unmarked(Columns(data))
    ensures CountChar(InsertRecord(table, data).sql, MARK) == |InsertRecord(table, data).params|
  {
    InsertTextCount(table, Columns(data));
  }

  /** A column list of placeholder-free names has no placeholder. */
  lemma ColumnListCount(columns: seq<string>)
    requires Unmarked(columns)
    ensures CountChar(Join(columns, LIST_SEPARATOR), MARK) == 0
  {
    CountNone(LIST_SEPARATOR, MARK);
    CountJoin(columns, LIST_SEPARATOR);
    MarksInUnmarked(columns);
  }

  /** `?, ?, …, ?` with `n` marks has `n` placeholders. */
  lemma MarkListCount(n: nat)
    ensures CountChar(Join(Marks(n), LIST_SEPARATOR), MARK) == n
  {
    CountNone(LIST_SEPARATOR, MARK);
    CountJoin(Marks(n), LIST_SEPARATOR);
    MarksInMarks(n);
  }

  /** An update binds exactly as many values as its text has placeholders, provided the
      table and column names contain none and the clause has one per parameter. */
  lemma UpdatePlaceholders(table: string, data: Row, whereClause: string, whereParams: seq<Value>)
    requires MARK !in table && Unmarked(Columns(data))
    requires CountChar(whereClause, MARK) == |whereParams|
    ensures CountChar(UpdateRecord(table, data, whereClause, whereParams).sql, MARK)
         == |UpdateRecord(table, data, whereClause, whereParams).params|
  {
    var pre, setClause, mid := "UPDATE " + table + " SET ", Join(Assignments(Columns(data)), LIST_SEPARATOR), " WHERE ";
    assert UpdateRecord(table, data, whereClause, whereParams).sql == pre + setClause + mid + whereClause + "";
    UpdateWordsUnmarked();
    CountFive(pre, setClause, mid, whereClause, "");
    WrappedCount("UPDATE ", table, " SET ");
    CountNone(mid, MARK);
    CountNone(LIST_SEPARATOR, MARK);
    CountJoin(Assignments(Columns(data)), LIST_SEPARATOR);
    MarksInAssignments(Columns(data));
  }

  /** A delete binds as many values as its text has placeholders when its clause does. */
  lemma DeletePlaceholders(table: string, whereClause: string, whereParams: seq<Value>)
    requires MARK !in table
    requires CountChar(whereClause, MARK) == |whereParams|
    ensures CountChar(DeleteRecord(table, whereClause, whereParams).sql, MARK) == |whereParams|
  {
    UpdateWordsUnmarked();
    WrappedCount("DELETE FROM ", table, " WHERE ");
    CountCharConcat("DELETE FROM " + table + " WHERE ", whereClause, MARK);
  }

  // ---------------------------------------------------------------------------
  // Shape of the statements

  /** `t` occurs in `a + t + b`. */
  lemma {:induction false} IncludesMiddle(a: string, t: string, b: string)
    ensures Includes(a + t + b, t)
    decreases |a|
  {
    var s := a + t + b;
    if a == [] {
      assert s[..|t|] == t;
    } else {
      assert s[1..] == a[1..] + t + b;
      IncludesMiddle(a[1..], t, b);
    }
  }

  /** A delete statement always has a `WHERE` clause: it never empties a whole table by
      leaving the condition out. */
  lemma DeleteAlwaysFiltered(table: string, whereClause: string, whereParams: seq<Value>)
    ensures Includes(DeleteRecord(table, whereClause, whereParams).sql, " WHERE ")
  {
    IncludesMiddle("DELETE FROM " + table, " WHERE ", whereClause);
    assert "DELETE FROM " + table + " WHERE " + whereClause
        == ("DELETE FROM " + table) + " WHERE " + whereClause;
  }

  /** Without a clause, or with an empty one, `getRecords` selects the whole table; with
      one it adds ` WHERE ` and the clause to that. */
  lemma GetRecordsFilter(table: string, whereClause: Option<string>, whereParams: seq<Value>)
    ensures whereClause.None? || whereClause == Some("") ==>
      GetRecords(table, whereClause, whereParams).sql == "SELECT * FROM " + table
    ensures whereClause.Some? && whereClause.value != "" ==>
      GetRecords(table, whereClause, whereParams).sql
      == GetRecords(table, None, whereParams).sql + " WHERE " + whereClause.value
  {
    assert "SELECT * FROM " + table + "" == "SELECT * FROM " + table;
  }

  /** An update binds the same record values, in the same order, as an insert of the
      same record, and the clause's parameters after them. */
  lemma UpdateExtendsInsert(table: string, data: Row, whereClause: string, whereParams: seq<Value>)
    ensures UpdateRecord(table, data, whereClause, whereParams).params
         == InsertRecord(table, data).params + whereParams
  {
  }
}
