/** `SqlQueryBuilder` of src/db_client.rs: statement strings with 1-based `$n` placeholders. */
module SqlBuilder {
  import opened Wrappers
  import opened Text

  /** `format!("${i}")`. */
  function Placeholder(i: nat): string
  {
    "$" + NatToString(i)
  }

  /** The placeholders `$first, $first+1, …` for `count` columns. */
  function Placeholders(first: nat, count: nat): (r: seq<string>)
    ensures |r| == count
    ensures forall k :: 0 <= k < count ==> r[k] == Placeholder(first + k)
    decreases count
  {
    if count == 0 then [] else [Placeholder(first)] + Placeholders(first + 1, count - 1)
  }

  /** The clauses `column = $n`, numbered from `first` in column order. */
  function Assignments(columns: seq<string>, first: nat): (r: seq<string>)
    ensures |r| == |columns|
    ensures forall k :: 0 <= k < |columns| ==> r[k] == columns[k] + " = " + Placeholder(first + k)
  {
    if columns == [] then []
    else [columns[0] + " = " + Placeholder(first)] + Assignments(columns[1..], first + 1)
  }

  /** `prepare_insert_statement`: the column list, then one placeholder per column. */
  function PrepareInsert(table: string, columns: seq<string>): (r: string)
    ensures "INSERT INTO " + table + " (" + Join(columns, ", ") + ") VALUES (" <= r
    ensures r[|r| - 1] == ')'
  {
    var sql := "INSERT INTO " + table + " (" + Join(columns, ", ") + ")";
    sql + " VALUES (" + Join(Placeholders(1, |columns|), ", ") + ")"
  }

  /** `prepare_update_statement`: every column but the last is SET, the last one is the WHERE key.
      With no columns `columns.len() - 1` underflows and the call panics. */
  function PrepareUpdate(table: string, columns: seq<string>): (r: Result<string>)
    ensures r.Ok? <==> |columns| > 0
    ensures r.Ok? ==> "UPDATE " + table + " SET " <= r.value
    ensures r.Ok? ==> var key := " WHERE " + columns[|columns| - 1] + " = " + Placeholder(|columns|);
      |key| <= |r.value| && r.value[|r.value| - |key|..] == key
  {
    if |columns| == 0 then Panic("attempt to subtract with overflow")
    else
      var n := |columns|;
      var sql := "UPDATE " + table + " SET";
      var placeholders := Join(Assignments(columns[..n - 1], 1), ", ");
      Ok(sql + " " + placeholders + " WHERE " + columns[n - 1] + " = " + Placeholder(n))
  }

  /** `prepare_fetch_statement`: every row of the table, or the rows matching all filters. */
  function PrepareFetch(table: string, filters: seq<string>): (r: string)
    ensures |filters| == 0 ==> r == "SELECT * FROM " + table
    ensures |filters| > 0 ==> "SELECT * FROM " + table + " WHERE " <= r
  {
    if |filters| == 0 then "SELECT * FROM " + table
    else
      var sql := "SELECT * FROM " + table;
      sql + " WHERE " + Join(Assignments(filters, 1), " AND ")
  }

  /** `prepare_delete_statement`: every row of the table, or the rows matching all columns. */
  function PrepareDelete(table: string, columns: seq<string>): (r: string)
    ensures |columns| == 0 ==> r == "DELETE FROM " + table
    ensures |columns| > 0 ==> "DELETE FROM " + table + " WHERE " <= r
  {
    if |columns| == 0 then "DELETE FROM " + table
    else
      var sql := "DELETE FROM " + table;
      sql + " WHERE " + Join(Assignments(columns, 1), " AND ")
  }

  // ---------------------------------------------------------------------------
  // Reading the placeholders back out of a statement.

  /** Length of the run of digits at the start of `s`. */
  function DigitRun(s: string): (k: nat)
    ensures k <= |s| && AllDigits(s[..k])
    ensures k < |s| ==> !IsDigit(s[k])
  {
    if s == [] || !IsDigit(s[0]) then 0
    else
      var k := 1 + DigitRun(s[1..]);
      assert s[..k] == [s[0]] + s[1..][..k - 1];
      k
  }

  /** The numbers of the `$n` placeholders of a statement, left to right; a `$` not followed by a
      digit is not a placeholder. This is how the database numbers the parameters it binds. */
  function PlaceholderNumbers(s: string): seq<nat>
    decreases |s|
  {
    if s == [] then []
    else if s[0] != '$' then PlaceholderNumbers(s[1..])
    else
      var k := DigitRun(s[1..]);
      (if k == 0 then [] else [ParseDigits(s[1..][..k])]) + PlaceholderNumbers(s[1 + k..])
  }

  /** `1 + first, …`: the numbers `first .. first + count - 1`. */
  function Range(first: nat, count: nat): (r: seq<nat>)
    ensures |r| == count
    ensures forall k :: 0 <= k < count ==> r[k] == first + k
    decreases count
  {
    if count == 0 then [] else [first] + Range(first + 1, count - 1)
  }

  lemma RangeSnoc(first: nat, count: nat)
    ensures Range(first, count + 1) == Range(first, count) + [first + count]
  {
    assert Range(first, count + 1)[..count] == Range(first, count);
  }

  /** Scanning `a + b` scans `a` then `b` unless a number in `a` could run on into `b`. */
  predicate Separable(a: string, b: string)
  {
    || a == []
    || b == []
    || !IsDigit(b[0])
    || (|a| > 0 && a[|a| - 1] != '$' && !IsDigit(a[|a| - 1]))
  }

  lemma {:induction false} DigitRunConcat(x: string, y: string)
    requires DigitRun(x) < |x|
    ensures DigitRun(x + y) == DigitRun(x)
    decreases |x|
  {
    if IsDigit(x[0]) {
      assert (x + y)[1..] == x[1..] + y;
      DigitRunConcat(x[1..], y);
    }
  }

  lemma {:induction false} DigitRunAllDigits(x: string, y: string)
    requires AllDigits(x)
    requires y == [] || !IsDigit(y[0])
    ensures DigitRun(x + y) == |x|
    decreases |x|
  {
    if x != [] {
      assert (x + y)[1..] == x[1..] + y;
      DigitRunAllDigits(x[1..], y);
    }
  }

  /** Scanning distributes over concatenation at a separable boundary. */
  lemma {:induction false} PlaceholderNumbersConcat(a: string, b: string)
    requires Separable(a, b)
    ensures PlaceholderNumbers(a + b) == PlaceholderNumbers(a) + PlaceholderNumbers(b)
    decreases |a|
  {
    if a == [] {
      assert a + b == b;
    } else if b == [] {
      assert a + b == a;
    } else if a[0] != '$' {
      assert (a + b)[1..] == a[1..] + b;
      PlaceholderNumbersConcat(a[1..], b);
    } else {
      var ka := DigitRun(a[1..]);
      if ka < |a| - 1 {
        assert (a + b)[1..] == a[1..] + b;
        DigitRunConcat(a[1..], b);
        assert (a + b)[1..][..ka] == a[1..][..ka];
        assert (a + b)[1 + ka..] == a[1 + ka..] + b;
        PlaceholderNumbersConcat(a[1 + ka..], b);
      } else {
        // `a` is a `$` followed by digits only, so it ends in `$` or a digit
        assert a[1..][..ka] == a[1..];
        assert a[|a| - 1] == '$' || IsDigit(a[|a| - 1]);
        assert !IsDigit(b[0]);
        assert (a + b)[1..] == a[1..] + b;
        DigitRunAllDigits(a[1..], b);
        assert (a + b)[1..][..ka] == a[1..];
        assert (a + b)[1 + ka..] == b;
        assert a[1 + ka..] == [];
      }
    }
  }

  lemma {:induction false} NoDollarNoPlaceholders(s: string)
    requires NoDollar(s)
    ensures PlaceholderNumbers(s) == []
    decreases |s|
  {
    if s != [] {
      NoDollarNoPlaceholders(s[1..]);
    }
  }

  /** A placeholder reads back as its own number. */
  lemma PlaceholderReadsBack(i: nat)
    ensures PlaceholderNumbers(Placeholder(i)) == [i]
  {
    var s := Placeholder(i);
    DigitRunAllDigits(NatToString(i), []);
    assert s[1..] == NatToString(i) + [];
    assert s[1..][..|NatToString(i)|] == NatToString(i);
    assert s[1 + |NatToString(i)|..] == [];
  }

  /** A clause `column = $i` of a dollar-free column carries exactly placeholder i. */
  lemma AssignmentReadsBack(column: string, i: nat)
    requires NoDollar(column)
    ensures PlaceholderNumbers(column + " = " + Placeholder(i)) == [i]
  {
    NoDollarNoPlaceholders(column + " = ");
    PlaceholderNumbersConcat(column + " = ", Placeholder(i));
    PlaceholderReadsBack(i);
  }

  /** Separators such as ", " and " AND ": no digit, no `$`, not empty. */
  predicate PlainSeparator(sep: string)
  {
    |sep| > 0 && NoDollar(sep) && forall k :: 0 <= k < |sep| ==> !IsDigit(sep[k])
  }

  /** Joining parts whose k-th part carries placeholder first + k yields first, first + 1, … */
  lemma {:induction false} JoinReadsBack(parts: seq<string>, sep: string, first: nat)
    requires PlainSeparator(sep)
    requires forall k :: 0 <= k < |parts| ==> PlaceholderNumbers(parts[k]) == [first + k]
    ensures PlaceholderNumbers(Join(parts, sep)) == Range(first, |parts|)
    decreases |parts|
  {
    if |parts| == 0 {
    } else if |parts| == 1 {
      assert Range(first, 1) == [first];
    } else {
      var rest := Join(parts[1..], sep);
      assert Join(parts, sep) == parts[0] + sep + rest;
      NoDollarNoPlaceholders(sep);
      PlaceholderNumbersConcat(parts[0], sep);
      PlaceholderNumbersConcat(parts[0] + sep, rest);
      JoinReadsBack(parts[1..], sep, first + 1);
      assert Range(first, |parts|) == [first] + Range(first + 1, |parts| - 1);
    }
  }

  predicate DollarFree(table: string, columns: seq<string>)
  {
    NoDollar(table) && forall k :: 0 <= k < |columns| ==> NoDollar(columns[k])
  }

  /** The fixed words of the statements contain no `$`. */
  lemma PlainLiterals()
    ensures NoDollar("INSERT INTO ") && NoDollar(" (") && NoDollar(")") && NoDollar(" VALUES (")
    ensures NoDollar("UPDATE ") && NoDollar(" SET") && NoDollar(" ") && NoDollar(" = ")
    ensures NoDollar("SELECT * FROM ") && NoDollar("DELETE FROM ") && NoDollar(" WHERE ")
    ensures PlainSeparator(", ") && PlainSeparator(" AND ")
  {
  }

  lemma NoDollarConcat(a: string, b: string)
    requires NoDollar(a) && NoDollar(b)
    ensures NoDollar(a + b)
  {
  }

  /** A dollar-free prefix contributes no placeholder. */
  lemma PlainPrefix(a: string, b: string)
    requires NoDollar(a) && Separable(a, b)
    ensures PlaceholderNumbers(a + b) == PlaceholderNumbers(b)
  {
    NoDollarNoPlaceholders(a);
    PlaceholderNumbersConcat(a, b);
  }

  /** A dollar-free suffix that starts with no digit contributes no placeholder. */
  lemma PlainSuffix(a: string, b: string)
    requires NoDollar(b) && |b| > 0 && !IsDigit(b[0])
    ensures PlaceholderNumbers(a + b) == PlaceholderNumbers(a)
  {
    NoDollarNoPlaceholders(b);
    PlaceholderNumbersConcat(a, b);
  }

  lemma AssignmentsReadBack(columns: seq<string>, first: nat, sep: string)
    requires PlainSeparator(sep)
    requires forall k :: 0 <= k < |columns| ==> NoDollar(columns[k])
    ensures PlaceholderNumbers(Join(Assignments(columns, first), sep)) == Range(first, |columns|)
  {
    var parts := Assignments(columns, first);
    forall k | 0 <= k < |parts|
      ensures PlaceholderNumbers(parts[k]) == [first + k]
    {
      AssignmentReadsBack(columns[k], first + k);
    }
    JoinReadsBack(parts, sep, first);
  }

  /** The INSERT statement binds $1 … $n, one per column, in column order. */
  lemma InsertPlaceholders(table: string, columns: seq<string>)
    requires DollarFree(table, columns)
    ensures PlaceholderNumbers(PrepareInsert(table, columns)) == Range(1, |columns|)
  {
    var names := Join(columns, ", ");
    var sql := "INSERT INTO " + table + " (" + names + ")";
    var ps := Join(Placeholders(1, |columns|), ", ");
    assert NoDollar(sql + " VALUES (") by {
      PlainLiterals();
      JoinNoDollar(columns, ", ");
      NoDollarConcat("INSERT INTO ", table);
      NoDollarConcat("INSERT INTO " + table, " (");
      NoDollarConcat("INSERT INTO " + table + " (", names);
      NoDollarConcat("INSERT INTO " + table + " (" + names, ")");
      NoDollarConcat(sql, " VALUES (");
    }
    assert PlaceholderNumbers(ps) == Range(1, |columns|) by {
      PlainLiterals();
      var parts := Placeholders(1, |columns|);
      forall k | 0 <= k < |parts|
        ensures PlaceholderNumbers(parts[k]) == [1 + k]
      {
        PlaceholderReadsBack(1 + k);
      }
      JoinReadsBack(parts, ", ", 1);
    }
    PlainLiterals();
    PlainPrefix(sql + " VALUES (", ps);
    PlainSuffix(sql + " VALUES (" + ps, ")");
  }

  /** The SET list of UPDATE binds $1 … $n for its n columns. */
  lemma UpdateSetReadsBack(table: string, columns: seq<string>)
    requires DollarFree(table, columns)
    ensures PlaceholderNumbers("UPDATE " + table + " SET" + " " + Join(Assignments(columns, 1), ", "))
         == Range(1, |columns|)
  {
    var sql := "UPDATE " + table + " SET";
    PlainLiterals();
    AssignmentsReadBack(columns, 1, ", ");
    assert NoDollar(sql + " ") by {
      NoDollarConcat("UPDATE ", table);
      NoDollarConcat("UPDATE " + table, " SET");
      NoDollarConcat(sql, " ");
    }
    PlainPrefix(sql + " ", Join(Assignments(columns, 1), ", "));
  }

  /** The WHERE key of UPDATE appends its own placeholder. */
  lemma KeyClauseReadsBack(a: string, key: string, n: nat)
    requires NoDollar(key)
    ensures PlaceholderNumbers(a + " WHERE " + key + " = " + Placeholder(n)) == PlaceholderNumbers(a) + [n]
  {
    var b := a + " WHERE " + key + " = ";
    assert PlaceholderNumbers(b) == PlaceholderNumbers(a) by {
      PlainLiterals();
      PlainSuffix(a, " WHERE ");
      NoDollarNoPlaceholders(key);
      PlaceholderNumbersConcat(a + " WHERE ", key);
      PlainSuffix(a + " WHERE " + key, " = ");
    }
    PlaceholderReadsBack(n);
    PlaceholderNumbersConcat(b, Placeholder(n));
  }

  /** The UPDATE statement binds $1 … $n: the SET columns first, the WHERE key last. */
  lemma UpdatePlaceholders(table: string, columns: seq<string>)
    requires |columns| > 0 && DollarFree(table, columns)
    ensures PrepareUpdate(table, columns).Ok?
    ensures PlaceholderNumbers(PrepareUpdate(table, columns).value) == Range(1, |columns|)
  {
    var n := |columns|;
    var a := "UPDATE " + table + " SET" + " " + Join(Assignments(columns[..n - 1], 1), ", ");
    UpdateSetReadsBack(table, columns[..n - 1]);
    KeyClauseReadsBack(a, columns[n - 1], n);
    RangeSnoc(1, n - 1);
  }

  /** A WHERE clause after a dollar-free head binds $1 … $n, one per filter, in filter order. */
  lemma WhereClauseReadsBack(head: string, filters: seq<string>)
    requires NoDollar(head)
    requires forall k :: 0 <= k < |filters| ==> NoDollar(filters[k])
    ensures PlaceholderNumbers(head + " WHERE " + Join(Assignments(filters, 1), " AND "))
         == Range(1, |filters|)
  {
    var w := Join(Assignments(filters, 1), " AND ");
    PlainLiterals();
    AssignmentsReadBack(filters, 1, " AND ");
    assert NoDollar(head + " WHERE ") by {
      PlainLiterals();
      NoDollarConcat(head, " WHERE ");
    }
    PlainPrefix(head + " WHERE ", w);
  }

  /** The SELECT and DELETE statements bind $1 … $n, one per filter, in filter order. */
  lemma FetchPlaceholders(table: string, filters: seq<string>)
    requires DollarFree(table, filters)
    ensures PlaceholderNumbers(PrepareFetch(table, filters)) == Range(1, |filters|)
    ensures PlaceholderNumbers(PrepareDelete(table, filters)) == Range(1, |filters|)
  {
    var select := "SELECT * FROM " + table;
    var delete := "DELETE FROM " + table;
    assert NoDollar(select) && NoDollar(delete) by {
      PlainLiterals();
      NoDollarConcat("SELECT * FROM ", table);
      NoDollarConcat("DELETE FROM ", table);
    }
    if |filters| == 0 {
      NoDollarNoPlaceholders(select);
      NoDollarNoPlaceholders(delete);
    } else {
      WhereClauseReadsBack(select, filters);
      WhereClauseReadsBack(delete, filters);
    }
  }

  /** DELETE is the SELECT statement with `SELECT *` replaced by `DELETE`, with or without filters. */
  lemma DeleteMirrorsFetch(table: string, filters: seq<string>)
    ensures PrepareDelete(table, filters) == "DELETE" + PrepareFetch(table, filters)[|"SELECT *"|..]
  {
    var from := " FROM " + table;
    var tail := if |filters| == 0 then from else from + " WHERE " + Join(Assignments(filters, 1), " AND ");
    StatementWords(table);
    assert PrepareFetch(table, filters) == "SELECT *" + tail;
    assert PrepareDelete(table, filters) == "DELETE" + tail;
    assert ("SELECT *" + tail)[|"SELECT *"|..] == tail;
  }

  /** The SELECT and DELETE heads share everything after their first word. */
  lemma StatementWords(table: string)
    ensures "SELECT * FROM " + table == "SELECT *" + (" FROM " + table)
    ensures "DELETE FROM " + table == "DELETE" + (" FROM " + table)
  {
    assert "SELECT * FROM " == "SELECT *" + " FROM ";
    assert "DELETE FROM " == "DELETE" + " FROM ";
  }

  /** UPDATE needs at least one column; with none it panics. */
  lemma UpdatePanicsOnlyWithoutColumns(table: string, columns: seq<string>)
    ensures PrepareUpdate(table, columns).Panic? <==> |columns| == 0
  {
  }

  /** The first placeholders, spelled out. */
  lemma SmallPlaceholders()
    ensures Placeholder(1) == "$1" && Placeholder(2) == "$2" && Placeholder(3) == "$3"
    ensures Placeholder(4) == "$4" && Placeholder(5) == "$5"
  {
  }

  /** With a single column the SET list is empty: `UPDATE t SET  WHERE id = $1`. */
  lemma UpdateSingleColumn()
    ensures PrepareUpdate("t", ["id"]) == Ok("UPDATE t SET  WHERE id = $1")
  {
    SmallPlaceholders();
    assert ["id"][..0] == [];
    assert Join(Assignments([], 1), ", ") == "";
    assert "UPDATE " + "t" + " SET" == "UPDATE t SET";
    assert "UPDATE t SET" + " " + "" == "UPDATE t SET ";
    assert "UPDATE t SET " + " WHERE " + "id" == "UPDATE t SET  WHERE id";
    assert "UPDATE t SET  WHERE id" + " = " + "$1" == "UPDATE t SET  WHERE id = $1";
  }
}
