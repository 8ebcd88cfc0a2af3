/** The statements pinned by the repository's unit tests, derived from the builder's definitions. */
module SqlExamples {
  import opened Wrappers
  import opened Text
  import opened SqlBuilder

  // The exact strings of the unit tests.

  lemma JoinThree(a: string, b: string, c: string, sep: string)
    ensures Join([a, b, c], sep) == a + sep + (b + sep + c)
  {
    assert [a, b, c][1..] == [b, c];
    assert [b, c][1..] == [c];
    assert Join([b, c], sep) == b + sep + c;
  }

  lemma JoinFour(a: string, b: string, c: string, d: string, sep: string)
    ensures Join([a, b, c, d], sep) == a + sep + (b + sep + (c + sep + d))
  {
    assert [a, b, c, d][1..] == [b, c, d];
    JoinThree(b, c, d, sep);
  }

  // The pieces of the unit-test strings: the column lists, the placeholder lists and the
  // WHERE clauses the builders join, each spelled out as the literal it equals.

  lemma FourNames()
    ensures Join(["one", "two", "three", "four"], ", ") == "one, two, three, four"
  {
    JoinFour("one", "two", "three", "four", ", ");
    assert "three" + ", " + "four" == "three, four";
    assert "two" + ", " + "three, four" == "two, three, four";
    assert "one" + ", " + "two, three, four" == "one, two, three, four";
  }

  lemma FourMarks()
    ensures Join(Placeholders(1, 4), ", ") == "$1, $2, $3, $4"
  {
    SmallPlaceholders();
    assert Placeholders(1, 4) == ["$1", "$2", "$3", "$4"];
    JoinFour("$1", "$2", "$3", "$4", ", ");
  }

  lemma InsertHead1()
    ensures "INSERT INTO " + "test" + " (" == "INSERT INTO test ("
  {
  }

  lemma InsertHead2()
    ensures "INSERT INTO test (" + "one, two, three, four" + ")" == "INSERT INTO test (one, two, three, four)"
  {
  }

  lemma InsertTail1()
    ensures "INSERT INTO test (one, two, three, four)" + " VALUES (" + "$1, $2, $3, $4"
         == "INSERT INTO test (one, two, three, four) VALUES ($1, $2, $3, $4"
  {
  }

  lemma InsertTail2()
    ensures "INSERT INTO test (one, two, three, four) VALUES ($1, $2, $3, $4" + ")"
         == "INSERT INTO test (one, two, three, four) VALUES ($1, $2, $3, $4)"
  {
  }

  /** The INSERT statement of the unit test. */
  lemma InsertExample()
    ensures PrepareInsert("test", ["one", "two", "three", "four"])
         == "INSERT INTO test (one, two, three, four) VALUES ($1, $2, $3, $4)"
  {
    FourNames();
    FourMarks();
    InsertHead1();
    InsertHead2();
    InsertTail1();
    InsertTail2();
  }

  lemma FourClauseItems()
    ensures Assignments(["one", "two", "three", "four"], 1) == ["one = $1", "two = $2", "three = $3", "four = $4"]
  {
    SmallPlaceholders();
    var r := Assignments(["one", "two", "three", "four"], 1);
    assert r[0] == "one" + " = " + Placeholder(1) == "one = $1";
    assert r[1] == "two" + " = " + Placeholder(2) == "two = $2";
    assert r[2] == "three" + " = " + Placeholder(3) == "three = $3";
    assert r[3] == "four" + " = " + Placeholder(4) == "four = $4";
  }

  lemma FourClauses()
    ensures Join(Assignments(["one", "two", "three", "four"], 1), ", ")
         == "one = $1, two = $2, three = $3, four = $4"
  {
    FourClauseItems();
    JoinFour("one = $1", "two = $2", "three = $3", "four = $4", ", ");
    FourClauseText1();
    FourClauseText2();
    FourClauseText3();
  }

  lemma FourClauseText1()
    ensures "three = $3" + ", " + "four = $4" == "three = $3, four = $4"
  {
  }

  lemma FourClauseText2()
    ensures "two = $2" + ", " + "three = $3, four = $4" == "two = $2, three = $3, four = $4"
  {
  }

  lemma FourClauseText3()
    ensures "one = $1" + ", " + "two = $2, three = $3, four = $4" == "one = $1, two = $2, three = $3, four = $4"
  {
  }

  lemma UpdateVerb()
    ensures "UPDATE " + "test" + " SET" == "UPDATE test SET"
  {
  }

  lemma UpdateHead()
    ensures "UPDATE test SET" + " " + "one = $1, two = $2, three = $3, four = $4"
         == "UPDATE test SET one = $1, two = $2, three = $3, four = $4"
  {
  }

  lemma UpdateTail1()
    ensures "UPDATE test SET one = $1, two = $2, three = $3, four = $4" + " WHERE " + "local_id"
         == "UPDATE test SET one = $1, two = $2, three = $3, four = $4 WHERE local_id"
  {
  }

  lemma UpdateTail2()
    ensures "UPDATE test SET one = $1, two = $2, three = $3, four = $4 WHERE local_id" + " = " + "$5"
         == "UPDATE test SET one = $1, two = $2, three = $3, four = $4 WHERE local_id = $5"
  {
  }

  /** The UPDATE statement of the unit test: the last column is the key. */
  lemma UpdateExample()
    ensures PrepareUpdate("test", ["one", "two", "three", "four", "local_id"])
         == Ok("UPDATE test SET one = $1, two = $2, three = $3, four = $4 WHERE local_id = $5")
  {
    SmallPlaceholders();
    assert ["one", "two", "three", "four", "local_id"][..4] == ["one", "two", "three", "four"];
    FourClauses();
    UpdateVerb();
    UpdateHead();
    UpdateTail1();
    UpdateTail2();
  }

  lemma ThreeFilterItems()
    ensures Assignments(["one", "two", "three"], 1) == ["one = $1", "two = $2", "three = $3"]
  {
    SmallPlaceholders();
    var r := Assignments(["one", "two", "three"], 1);
    assert r[0] == "one" + " = " + Placeholder(1) == "one = $1";
    assert r[1] == "two" + " = " + Placeholder(2) == "two = $2";
    assert r[2] == "three" + " = " + Placeholder(3) == "three = $3";
  }

  /** The filters `one, two, three` as a WHERE list. */
  lemma ThreeFilters()
    ensures Join(Assignments(["one", "two", "three"], 1), " AND ")
         == "one = $1 AND two = $2 AND three = $3"
  {
    ThreeFilterItems();
    JoinThree("one = $1", "two = $2", "three = $3", " AND ");
    ThreeFilterText1();
    ThreeFilterText2();
  }

  lemma ThreeFilterText1()
    ensures "two = $2" + " AND " + "three = $3" == "two = $2 AND three = $3"
  {
  }

  lemma ThreeFilterText2()
    ensures "one = $1" + " AND " + "two = $2 AND three = $3" == "one = $1 AND two = $2 AND three = $3"
  {
  }

  lemma FetchText1()
    ensures "SELECT * FROM " + "test" + " WHERE " == "SELECT * FROM test WHERE "
  {
  }

  lemma FetchText2()
    ensures "SELECT * FROM test WHERE " + "one = $1 AND two = $2 AND three = $3"
         == "SELECT * FROM test WHERE one = $1 AND two = $2 AND three = $3"
  {
  }

  /** The SELECT statements of the unit tests, without and with filters. */
  lemma FetchExamples()
    ensures PrepareFetch("test", []) == "SELECT * FROM test"
    ensures PrepareFetch("test", ["one", "two", "three"])
         == "SELECT * FROM test WHERE one = $1 AND two = $2 AND three = $3"
  {
    ThreeFilters();
    FetchText1();
    FetchText2();
  }

  lemma DeleteText1()
    ensures "DELETE FROM " + "test" + " WHERE " == "DELETE FROM test WHERE "
  {
  }

  lemma DeleteText2()
    ensures "DELETE FROM test WHERE " + "one = $1 AND two = $2 AND three = $3"
         == "DELETE FROM test WHERE one = $1 AND two = $2 AND three = $3"
  {
  }

  /** The DELETE statements of the unit tests, without and with filters. */
  lemma DeleteExamples()
    ensures PrepareDelete("test", []) == "DELETE FROM test"
    ensures PrepareDelete("test", ["one", "two", "three"])
         == "DELETE FROM test WHERE one = $1 AND two = $2 AND three = $3"
  {
    ThreeFilters();
    DeleteText1();
    DeleteText2();
  }
}
