/**
 * The behaviour pinned down by the WHERE builder's unit tests.
 *
 * Each test is stated twice: first as a property of every column name and
 * value of the same kind (a plain column, a literal value, a comma string
 * of three tokens, ...), then as the instance the test itself checks, with
 * its own names and values, for every escaping collaborator `db`. The
 * expected SQL is written the way the tests build it, as a chain of
 * concatenations around the collaborator's outputs.
 */
module WhereTestCases {
  import opened Strings
  import opened WhereClause

  // ---------------------------------------------------------------------
  // Regrouping the text of the expected SQL

  /** The joiner as the tests spell it. */
  lemma LinkText(e: string)
    ensures Link(And, e) == " AND " + e
    ensures Link(Or, e) == " OR " + e
  {
    assert " " + "AND" + " " == " AND ";
    assert " " + "OR" + " " == " OR ";
  }

  /** A comparison linked after an expression, read left to right. */
  lemma LinkedComparison(a: string, e: string, t: string, s: string)
    ensures a + Link(And, e + t + s) == a + " AND " + e + t + s
    ensures a + Link(Or, e + t + s) == a + " OR " + e + t + s
  {
    LinkText(e + t + s);
  }

  /** `p` followed by a three-piece chain, read left to right. */
  lemma Glue3(p: string, x: string, y: string, z: string)
    ensures p + (x + y + z) == p + x + y + z
  {
  }

  /** A two-element join read left to right. */
  lemma Join2(a: string, b: string, sep: string)
    ensures Join([a, b], sep) == a + sep + b
  {
    assert [a, b][1..] == [b];
  }

  /** A three-element join read left to right. */
  lemma Join3(a: string, b: string, c: string, sep: string)
    ensures Join([a, b, c], sep) == a + sep + b + sep + c
  {
    assert [a, b, c][1..] == [b, c];
    Join2(b, c, sep);
  }

  /** A string whose first character differs from a prefix's does not
      start with it. */
  lemma FirstDiffers(s: string, prefix: string)
    requires |s| > 0 && |prefix| > 0 && s[0] != prefix[0]
    ensures !StartsWith(s, prefix)
  {
    if |prefix| <= |s| {
      assert s[..|prefix|][0] == s[0];
    }
  }

  /** The LIKE templates of the tests. */
  lemma LikeTextBoth(column: string, e: string)
    ensures LikeExpr(column, "%" + e + "%") == "LOWER(" + column + ") LIKE LOWER('%" + e + "%')"
  {
    assert "LOWER(" + column + ") LIKE LOWER('%" == "LOWER(" + column + ") LIKE LOWER('" + "%";
    assert "%')" == "%" + "')";
  }

  lemma LikeTextLeading(column: string, e: string)
    ensures LikeExpr(column, "%" + e) == "LOWER(" + column + ") LIKE LOWER('%" + e + "')"
  {
    assert "LOWER(" + column + ") LIKE LOWER('%" == "LOWER(" + column + ") LIKE LOWER('" + "%";
  }

  lemma LikeTextTrailing(column: string, e: string)
    ensures LikeExpr(column, e + "%") == "LOWER(" + column + ") LIKE LOWER('" + e + "%')"
  {
    assert "%')" == "%" + "')";
  }

  // ---------------------------------------------------------------------
  // The tests' shapes, for every column and value of the same kind

  /** A single column that is neither split nor cast. */
  predicate Plain(name: string)
  {
    FieldSeparator !in name && !StartsWith(name, CastIntegerPrefix)
  }

  /** A value rendered as a literal, not as a `field:` column reference. */
  predicate Literal(v: Value)
  {
    !(v.Str? && StartsWith(v.s, FieldPrefix))
  }

  /** A comparison, with the operator and its surrounding spaces written
      as one piece of text. */
  lemma Compared(db: Db, fields: string, op: Op, v: Value, j: Joiner, text: string)
    requires IsComparison(op) && Plain(fields) && Literal(v)
    requires " " + Symbol(op) + " " == text
    ensures Sql(db, Condition(fields, op, v, j)) == db.escapeColumn(fields) + text + db.var2str(v)
  {
    PlainComparison(db, fields, op, v, j);
    var c := db.escapeColumn(fields);
    ConcatAssoc(c + " ", Symbol(op), " ");
    ConcatAssoc(c, " ", Symbol(op) + " ");
  }

  /** A comparison with another column, written the same way. */
  lemma ComparedField(db: Db, fields: string, op: Op, value: string, other: string, j: Joiner, text: string)
    requires value == FieldPrefix + other
    requires IsComparison(op) && Plain(fields) && !StartsWith(other, CastIntegerPrefix)
    requires " " + Symbol(op) + " " == text
    ensures Sql(db, Condition(fields, op, Str(value), j)) == db.escapeColumn(fields) + text + db.escapeColumn(other)
  {
    FieldReference(db, fields, op, other, j);
    var c := db.escapeColumn(fields);
    ConcatAssoc(c + " ", Symbol(op), " ");
    ConcatAssoc(c, " ", Symbol(op) + " ");
  }

  /** A comparison on a cast column, written the same way. */
  lemma ComparedCast(db: Db, fields: string, name: string, op: Op, v: Value, j: Joiner, text: string)
    requires fields == CastIntegerPrefix + name
    requires IsComparison(op) && FieldSeparator !in name && Literal(v)
    requires " " + Symbol(op) + " " == text
    ensures Sql(db, Condition(fields, op, v, j)) == db.castInteger(name) + text + db.var2str(v)
  {
    CastColumn(db, name, op, v, j);
    var c := db.castInteger(name);
    ConcatAssoc(c + " ", Symbol(op), " ");
    ConcatAssoc(c, " ", Symbol(op) + " ");
  }

  /** A plain column compared with a literal, as one column of a
      multi-column condition renders it. */
  lemma PlainField(db: Db, c: string, v: Value)
    requires Plain(c) && Literal(v)
    ensures SqlField(db, c, Equal, v) == db.escapeColumn(c) + " = " + db.var2str(v)
  {
    var e := db.escapeColumn(c);
    assert " " + Symbol(Equal) + " " == " = ";
    ConcatAssoc(e + " ", Symbol(Equal), " ");
    ConcatAssoc(e, " ", Symbol(Equal) + " ");
  }

  /** The three OR-ed parts, read left to right. */
  lemma OrOfThree(x1: string, x2: string, x3: string, t: string, s: string)
    ensures "(" + Join([x1 + t + s, x2 + t + s, x3 + t + s], " OR ") + ")"
      == "(" + x1 + t + s + " OR " + x2 + t + s + " OR " + x3 + t + s + ")"
  {
    var p1, p2, p3 := x1 + t + s, x2 + t + s, x3 + t + s;
    Join3(p1, p2, p3, " OR ");
    Glue3(p1 + " OR ", x2, t, s);
    Glue3(p1 + " OR " + p2 + " OR ", x3, t, s);
    Glue3("(", x1, t, s);
    ConcatAssoc("(", p1 + " OR " + p2 + " OR " + p3, ")");
  }

  /** Three `|`-separated columns compared with one value. */
  lemma ThreeColumns(db: Db, c1: string, c2: string, c3: string, v: Value)
    requires Plain(c1) && Plain(c2) && Plain(c3) && Literal(v)
    ensures var s := db.var2str(v);
      Sql(db, Column(c1 + [FieldSeparator] + c2 + [FieldSeparator] + c3, v))
      == "(" + db.escapeColumn(c1) + " = " + s
         + " OR " + db.escapeColumn(c2) + " = " + s
         + " OR " + db.escapeColumn(c3) + " = " + s + ")"
  {
    var columns := [c1, c2, c3];
    var s := db.var2str(v);
    Join3(c1, c2, c3, [FieldSeparator]);
    MultiColumn(db, columns, Equal, v, And);
    PlainField(db, c1, v);
    PlainField(db, c2, v);
    PlainField(db, c3, v);
    var parts := SqlFields(db, columns, Equal, v);
    assert parts == [db.escapeColumn(c1) + " = " + s, db.escapeColumn(c2) + " = " + s, db.escapeColumn(c3) + " = " + s];
    OrOfThree(db.escapeColumn(c1), db.escapeColumn(c2), db.escapeColumn(c3), " = ", s);
  }

  /** IN with a two-element list. */
  lemma InTwo(db: Db, fields: string, x: Value, y: Value)
    requires Plain(fields)
    ensures Sql(db, In(fields, List([x, y])))
      == db.escapeColumn(fields) + " IN (" + db.var2str(x) + ", " + db.var2str(y) + ")"
  {
    InList(db, fields, [x, y]);
    var l1 := db.var2str(x);
    var l2 := db.var2str(y);
    assert Literals(db, [x, y]) == [l1, l2];
    Join2(l1, l2, ", ");
    Glue3(db.escapeColumn(fields) + " IN (", l1, ", ", l2);
  }

  /** IN with a three-element list. */
  lemma InThree(db: Db, fields: string, x: Value, y: Value, z: Value)
    requires Plain(fields)
    ensures Sql(db, In(fields, List([x, y, z])))
      == db.escapeColumn(fields) + " IN (" + db.var2str(x) + ", " + db.var2str(y) + ", " + db.var2str(z) + ")"
  {
    InList(db, fields, [x, y, z]);
    var l1 := db.var2str(x);
    var l2 := db.var2str(y);
    var l3 := db.var2str(z);
    assert Literals(db, [x, y, z]) == [l1, l2, l3];
    Join3(l1, l2, l3, ", ");
    var head := db.escapeColumn(fields) + " IN (";
    ConcatAssoc(head, l1 + ", " + l2 + ", " + l3, ")");
    Glue3(head, l1 + ", " + l2, ", ", l3);
    Glue3(head, l1, ", ", l2);
  }

  /** A comma string of three tokens stands for the list of the three
      trimmed tokens. */
  lemma ThreeTokensAsList(db: Db, fields: string, text: string, t1: string, t2: string, t3: string)
    requires text == t1 + "," + t2 + "," + t3
    requires ',' !in t1 && ',' !in t2 && ',' !in t3
    requires !IsSubquery(text)
    ensures Sql(db, In(fields, Str(text))) == Sql(db, In(fields, List([Str(Trim(t1)), Str(Trim(t2)), Str(Trim(t3))])))
  {
    Join3(t1, t2, t3, ",");
    TrimmedThree(t1, t2, t3);
    NoCommaInThree(t1, t2, t3);
    InCommaString(db, fields, And, [t1, t2, t3]);
  }

  lemma TrimmedThree(t1: string, t2: string, t3: string)
    ensures TrimmedTokens([t1, t2, t3]) == [Str(Trim(t1)), Str(Trim(t2)), Str(Trim(t3))]
  {
  }

  lemma NoCommaInThree(t1: string, t2: string, t3: string)
    requires ',' !in t1 && ',' !in t2 && ',' !in t3
    ensures forall i :: 0 <= i < |[t1, t2, t3]| ==> ',' !in [t1, t2, t3][i]
  {
  }

  /** IN with a comma string of three tokens: each token trimmed and
      rendered as a literal. */
  lemma InThreeTokens(db: Db, fields: string, text: string, t1: string, t2: string, t3: string)
    requires Plain(fields)
    requires text == t1 + "," + t2 + "," + t3
    requires ',' !in t1 && ',' !in t2 && ',' !in t3
    requires !IsSubquery(text)
    ensures Sql(db, In(fields, Str(text)))
      == db.escapeColumn(fields) + " IN (" + db.var2str(Str(Trim(t1)))
         + ", " + db.var2str(Str(Trim(t2))) + ", " + db.var2str(Str(Trim(t3))) + ")"
  {
    ThreeTokensAsList(db, fields, text, t1, t2, t3);
    InThree(db, fields, Str(Trim(t1)), Str(Trim(t2)), Str(Trim(t3)));
  }

  /** IN with a subquery, the query text spliced in as one piece. */
  lemma InQuery(db: Db, fields: string, query: string, text: string)
    requires Plain(fields) && IsSubquery(query)
    requires " IN (" + query + ")" == text
    ensures Sql(db, In(fields, Str(query))) == db.escapeColumn(fields) + text
  {
    InSubquery(db, fields, query);
    ConcatAssoc(db.escapeColumn(fields) + " IN (", query, ")");
    ConcatAssoc(db.escapeColumn(fields), " IN (", query + ")");
  }

  /** Two well-formed nodes make a well-formed sequence. */
  lemma PairWellFormed(a: Where, b: Where)
    requires WellFormed(a) && WellFormed(b)
    ensures AllWellFormed([a, b])
  {
  }

  /** Two nodes joined by AND: an equality, then a greater-than. */
  lemma MultiAndShape(db: Db, c1: string, v1: Value, c2: string, v2: Value)
    requires Plain(c1) && Literal(v1) && Plain(c2) && Literal(v2)
    ensures AllWellFormed([Column(c1, v1), Gt(c2, v2)])
    ensures MultiSql(db, [Column(c1, v1), Gt(c2, v2)])
      == db.escapeColumn(c1) + " = " + db.var2str(v1) + " AND " + db.escapeColumn(c2) + " > " + db.var2str(v2)
  {
    var a := Column(c1, v1);
    var b := Gt(c2, v2);
    PairWellFormed(a, b);
    Compared(db, c1, Equal, v1, And, " = ");
    Compared(db, c2, Greater, v2, And, " > ");
    MultiSqlSmall(db, a, b);
    LinkedComparison(Sql(db, a), db.escapeColumn(c2), " > ", db.var2str(v2));
  }

  /** Appending a BETWEEN node. */
  lemma AppendBetween(db: Db, where: seq<Where>, fields: string, lo: Value, hi: Value)
    requires |where| >= 1 && AllWellFormed(where) && Plain(fields)
    ensures AllWellFormed(where + [Between(fields, lo, hi)])
    ensures MultiSql(db, where + [Between(fields, lo, hi)])
      == MultiSql(db, where) + " AND " + db.escapeColumn(fields) + " BETWEEN " + db.var2str(lo) + " AND " + db.var2str(hi)
  {
    var c := Between(fields, lo, hi);
    var m, e := MultiSql(db, where), db.escapeColumn(fields);
    var l, h := db.var2str(lo), db.var2str(hi);
    MultiSqlAppend(db, where, c);
    assert Sql(db, c) == e + " BETWEEN " + l + " AND " + h by {
      BetweenRenders(db, fields, lo, hi);
    }
    LinkText(Sql(db, c));
    BetweenText(m + " AND ", e, l, h);
  }

  /** An appended BETWEEN read left to right. */
  lemma BetweenText(m: string, e: string, lo: string, hi: string)
    ensures m + (e + " BETWEEN " + lo + " AND " + hi) == m + e + " BETWEEN " + lo + " AND " + hi
  {
    Glue3(m, e + " BETWEEN " + lo, " AND ", hi);
    Glue3(m, e, " BETWEEN ", lo);
  }

  /** Two nodes joined by OR: a not-equal, then a less-or-equal. */
  lemma MultiOrShape(db: Db, c1: string, v1: Value, c2: string, v2: Value)
    requires Plain(c1) && Literal(v1) && Plain(c2) && Literal(v2)
    ensures AllWellFormed([NotEq(c1, v1), OrLte(c2, v2)])
    ensures MultiSql(db, [NotEq(c1, v1), OrLte(c2, v2)])
      == db.escapeColumn(c1) + " != " + db.var2str(v1) + " OR " + db.escapeColumn(c2) + " <= " + db.var2str(v2)
  {
    var a := NotEq(c1, v1);
    var b := OrLte(c2, v2);
    PairWellFormed(a, b);
    Compared(db, c1, NotEqual, v1, And, " != ");
    Compared(db, c2, LessOrEqual, v2, Or, " <= ");
    MultiSqlSmall(db, a, b);
    LinkedComparison(Sql(db, a), db.escapeColumn(c2), " <= ", db.var2str(v2));
  }

  /** Appending an OR IS NULL node. */
  lemma AppendOrIsNull(db: Db, where: seq<Where>, fields: string)
    requires |where| >= 1 && AllWellFormed(where) && Plain(fields)
    ensures AllWellFormed(where + [OrIsNull(fields)])
    ensures MultiSql(db, where + [OrIsNull(fields)]) == MultiSql(db, where) + " OR " + db.escapeColumn(fields) + " IS NULL"
  {
    NullTests(db, fields);
    MultiSqlAppend(db, where, OrIsNull(fields));
    LinkText(Sql(db, OrIsNull(fields)));
    ConcatAssoc(MultiSql(db, where) + " OR ", db.escapeColumn(fields), " IS NULL");
  }

  /** Two equalities on one column joined by OR. */
  lemma OrPair(db: Db, c: string, v1: Value, v2: Value)
    requires Plain(c) && Literal(v1) && Literal(v2)
    ensures AllWellFormed([Eq(c, v1), OrEq(c, v2)])
    ensures MultiSql(db, [Eq(c, v1), OrEq(c, v2)])
      == db.escapeColumn(c) + " = " + db.var2str(v1) + " OR " + db.escapeColumn(c) + " = " + db.var2str(v2)
  {
    var a := Eq(c, v1);
    var b := OrEq(c, v2);
    PairWellFormed(a, b);
    Compared(db, c, Equal, v1, And, " = ");
    Compared(db, c, Equal, v2, Or, " = ");
    MultiSqlSmall(db, a, b);
    LinkedComparison(Sql(db, a), db.escapeColumn(c), " = ", db.var2str(v2));
  }

  /** The same two equalities as a group. */
  lemma SubShape(db: Db, c: string, v1: Value, v2: Value)
    requires Plain(c) && Literal(v1) && Literal(v2)
    ensures WellFormed(Sub([Eq(c, v1), OrEq(c, v2)]))
    ensures Sql(db, Sub([Eq(c, v1), OrEq(c, v2)]))
      == "(" + db.escapeColumn(c) + " = " + db.var2str(v1) + " OR " + db.escapeColumn(c) + " = " + db.var2str(v2) + ")"
  {
    var ws := [Eq(c, v1), OrEq(c, v2)];
    OrPair(db, c, v1, v2);
    SubRenders(db, ws, And, ws);
    ParenText(db.escapeColumn(c), db.var2str(v1), db.var2str(v2));
  }

  /** The group's text read left to right. */
  lemma ParenText(e: string, s1: string, s2: string)
    ensures "(" + (e + " = " + s1 + " OR " + e + " = " + s2) + ")"
      == "(" + e + " = " + s1 + " OR " + e + " = " + s2 + ")"
  {
    ConcatAssoc("(", e + " = " + s1 + " OR " + e + " = " + s2, ")");
    Glue3("(" + e + " = " + s1 + " OR ", e, " = ", s2);
    Glue3("(", e, " = ", s1);
  }

  /** That group followed by a greater-or-equal joined by AND. */
  lemma SubThenAnd(db: Db, c: string, v1: Value, v2: Value, c2: string, v3: Value)
    requires Plain(c) && Literal(v1) && Literal(v2) && Plain(c2) && Literal(v3)
    ensures MultiSql(db, [Sub([Eq(c, v1), OrEq(c, v2)]), Gte(c2, v3)])
      == "(" + db.escapeColumn(c) + " = " + db.var2str(v1) + " OR " + db.escapeColumn(c) + " = " + db.var2str(v2) + ")"
         + " AND " + db.escapeColumn(c2) + " >= " + db.var2str(v3)
  {
    var g := Sub([Eq(c, v1), OrEq(c, v2)]);
    var d := Gte(c2, v3);
    SubShape(db, c, v1, v2);
    Compared(db, c2, GreaterOrEqual, v3, And, " >= ");
    MultiSqlSmall(db, g, d);
    LinkText(Sql(db, d));
    Glue3(Sql(db, g) + " AND ", db.escapeColumn(c2), " >= ", db.var2str(v3));
  }

  // ---------------------------------------------------------------------
  // The facts about the tests' own strings

  /** The column names the tests use are plain. */
  lemma TestNames()
    ensures Plain("test") && Plain("test2") && Plain("test3") && Plain("test4") && Plain("test5")
  {
  }

  lemma ColumnNames()
    ensures Plain("col1") && Plain("col2") && Plain("col3")
  {
  }

  lemma TableNames()
    ensures Plain("nombre") && Plain("total") && Plain("fecha") && Plain("nick")
  {
  }

  /** The values the tests compare with are literals. */
  lemma TestValues()
    ensures Literal(Str("value")) && Literal(Str("value2")) && Literal(Str("02-02-2020"))
    ensures Literal(Str("test")) && Literal(Str("test2")) && Literal(Str("test3")) && Literal(Int(100))
  {
    FirstDiffers("value2", FieldPrefix);
    FirstDiffers("02-02-2020", FieldPrefix);
  }

  /** Each comparison operator with its surrounding spaces. */
  lemma SymbolTexts()
    ensures " " + Symbol(Equal) + " " == " = "
    ensures " " + Symbol(NotEqual) + " " == " != "
    ensures " " + Symbol(Greater) + " " == " > "
    ensures " " + Symbol(Less) + " " == " < "
    ensures " " + Symbol(GreaterOrEqual) + " " == " >= "
    ensures " " + Symbol(LessOrEqual) + " " == " <= "
  {
  }

  lemma EqFieldFacts()
    ensures "field:cantidad" == FieldPrefix + "cantidad"
    ensures Plain("disponible") && !StartsWith("cantidad", CastIntegerPrefix)
    ensures " " + Symbol(Less) + " " == " < "
  {
    FirstDiffers("disponible", CastIntegerPrefix);
    FirstDiffers("cantidad", CastIntegerPrefix);
  }

  lemma CastIntegerFacts()
    ensures "integer:codigo" == CastIntegerPrefix + "codigo"
    ensures FieldSeparator !in "codigo" && Literal(Int(100))
    ensures " " + Symbol(Greater) + " " == " > "
  {
  }

  /** The LIKE patterns of the tests, and where their `%` signs are. */
  lemma LikeTexts()
    ensures '%' !in "value" && '%' !in "value2" && '%' !in "value3" && '%' !in "value4"
    ensures "%" + "value2" == "%value2" && "value3" + "%" == "value3%" && "%" + "value4" + "%" == "%value4%"
    ensures |"value2"| == 0 || "value2"[|"value2"| - 1] != '%'
    ensures |"value3"| > 0 && "value3"[0] != '%'
    ensures '%' in "value5%value5" && "value5%value5"[0] != '%' && "value5%value5"[|"value5%value5"| - 1] != '%'
  {
    assert "value5%value5"[6] == '%';
  }

  lemma ColumnListText()
    ensures "col1" + [FieldSeparator] + "col2" + [FieldSeparator] + "col3" == "col1|col2|col3"
  {
  }

  lemma CommaStringText()
    ensures "value3" + "," + "value4" + "," + " value5" == "value3,value4, value5"
  {
  }

  lemma CommaTokensHaveNoComma()
    ensures ',' !in "value3" && ',' !in "value4" && ',' !in " value5"
  {
  }

  lemma CommaStringNotSubquery()
    ensures !IsSubquery("value3,value4, value5")
  {
    var text := "value3,value4, value5";
    assert text[0] == 'v' && text[|text| - 1] == '5';
    assert Trim(text) == text;
    assert ToUpper(text[0]) != ToUpper("SELECT"[0]);
  }

  /** A string with no space at either end, behind one leading space,
      trims back to itself. */
  lemma TrimLeadingSpace(s: string)
    requires |s| > 0 && !IsSpace(s[0]) && !IsSpace(s[|s| - 1])
    ensures Trim([' '] + s) == s
  {
    var t := [' '] + s;
    assert t[1..] == s;
    assert TrimStart(t) == TrimStart(s);
  }

  /** A word with no space at either end is its own trim. */
  lemma TrimmedWord(s: string)
    requires |s| > 0 && !IsSpace(s[0]) && !IsSpace(s[|s| - 1])
    ensures Trim(s) == s
  {
  }

  lemma CommaTokensTrimmed()
    ensures Trim("value3") == "value3" && Trim("value4") == "value4" && Trim(" value5") == "value5"
  {
    TrimmedWord("value3");
    TrimmedWord("value4");
    Value5Trimmed();
  }

  lemma Value5Trimmed()
    ensures Trim(" value5") == "value5"
  {
    assert [' '] + "value5" == " value5";
    TrimLeadingSpace("value5");
  }

  /** `SELECT` followed by text with no trailing space is a subquery. */
  lemma SelectQuery(rest: string)
    requires |rest| > 0 && !IsSpace(rest[|rest| - 1])
    ensures IsSubquery("SELECT" + rest)
  {
    var q := "SELECT" + rest;
    assert Trim(q) == q;
    forall i | 0 <= i < 6 ensures ToUpper(q[i]) == ToUpper("SELECT"[i]) {
      assert q[i] == "SELECT"[i];
    }
  }

  lemma SubqueryIsSelect()
    ensures IsSubquery("SELECT col1 FROM test_table")
  {
    assert "SELECT" + " col1 FROM test_table" == "SELECT col1 FROM test_table";
    SelectQuery(" col1 FROM test_table");
  }

  lemma SubqueryText()
    ensures " IN (" + "SELECT col1 FROM test_table" + ")" == " IN (SELECT col1 FROM test_table)"
  {
  }

  // ---------------------------------------------------------------------
  // The tests' own instances

  /** A condition's stored attributes, as the tests read them back. */
  predicate Stores(w: Where, fields: string, value: Value, operator: string, operation: string)
  {
    w.Condition? && w.fields == fields && w.value == value
    && Symbol(w.operator) == operator && Keyword(w.operation) == operation
  }

  lemma TestNewInstance(db: Db)
    ensures Stores(New("test", Str("value")), "test", Str("value"), "=", "AND")
    ensures Sql(db, New("test", Str("value"))) == db.escapeColumn("test") + " = " + db.var2str(Str("value"))
  {
    TestNames();
    TestValues();
    SymbolTexts();
    Compared(db, "test", Equal, Str("value"), And, " = ");
  }

  lemma TestColumn(db: Db)
    ensures Stores(Column("test2", Str("value2")), "test2", Str("value2"), "=", "AND")
    ensures Sql(db, Column("test2", Str("value2"))) == db.escapeColumn("test2") + " = " + db.var2str(Str("value2"))
  {
    TestNames();
    TestValues();
    SymbolTexts();
    Compared(db, "test2", Equal, Str("value2"), And, " = ");
  }

  lemma TestColumnDate(db: Db)
    ensures Stores(Column("test3", Str("02-02-2020")), "test3", Str("02-02-2020"), "=", "AND")
    ensures Sql(db, Column("test3", Str("02-02-2020"))) == db.escapeColumn("test3") + " = " + db.var2str(Str("02-02-2020"))
  {
    TestNames();
    TestValues();
    SymbolTexts();
    Compared(db, "test3", Equal, Str("02-02-2020"), And, " = ");
  }

  lemma TestColumnEqFieldStores()
    ensures Stores(Lt("disponible", Str("field:cantidad")), "disponible", Str("field:cantidad"), "<", "AND")
  {
  }

  lemma TestColumnEqField(db: Db)
    ensures Sql(db, Lt("disponible", Str("field:cantidad"))) == db.escapeColumn("disponible") + " < " + db.escapeColumn("cantidad")
  {
    EqFieldFacts();
    ComparedField(db, "disponible", Less, "field:cantidad", "cantidad", And, " < ");
  }

  lemma TestMultiColumn(db: Db)
    ensures Stores(Column("col1|col2|col3", Str("value")), "col1|col2|col3", Str("value"), "=", "AND")
    ensures var v := db.var2str(Str("value"));
      Sql(db, Column("col1|col2|col3", Str("value")))
      == "(" + db.escapeColumn("col1") + " = " + v
         + " OR " + db.escapeColumn("col2") + " = " + v
         + " OR " + db.escapeColumn("col3") + " = " + v + ")"
  {
    ColumnNames();
    TestValues();
    ColumnListText();
    ThreeColumns(db, "col1", "col2", "col3", Str("value"));
  }

  lemma TestColumnCastInteger(db: Db)
    ensures Stores(Gt("integer:codigo", Int(100)), "integer:codigo", Int(100), ">", "AND")
    ensures Sql(db, Gt("integer:codigo", Int(100))) == db.castInteger("codigo") + " > " + db.var2str(Int(100))
  {
    CastIntegerFacts();
    ComparedCast(db, "integer:codigo", "codigo", Greater, Int(100), And, " > ");
  }

  lemma TestWhereBetween(db: Db)
    ensures Stores(Between("test", Str("value1"), Str("value2")), "test", List([Str("value1"), Str("value2")]), "BETWEEN", "AND")
    ensures Sql(db, Between("test", Str("value1"), Str("value2")))
      == db.escapeColumn("test") + " BETWEEN " + db.var2str(Str("value1")) + " AND " + db.var2str(Str("value2"))
  {
    TestNames();
    BetweenRenders(db, "test", Str("value1"), Str("value2"));
  }

  lemma TestWhereInList(db: Db)
    ensures Stores(In("test", List([Str("value1"), Str("value2")])), "test", List([Str("value1"), Str("value2")]), "IN", "AND")
    ensures Sql(db, In("test", List([Str("value1"), Str("value2")])))
      == db.escapeColumn("test") + " IN (" + db.var2str(Str("value1")) + ", " + db.var2str(Str("value2")) + ")"
  {
    TestNames();
    InTwo(db, "test", Str("value1"), Str("value2"));
  }

  lemma TestWhereInStringStores()
    ensures Stores(In("test2", Str("value3,value4, value5")), "test2", Str("value3,value4, value5"), "IN", "AND")
  {
  }

  lemma TestWhereInString(db: Db)
    ensures Sql(db, In("test2", Str("value3,value4, value5")))
      == db.escapeColumn("test2") + " IN (" + db.var2str(Str("value3"))
         + ", " + db.var2str(Str("value4")) + ", " + db.var2str(Str("value5")) + ")"
  {
    TestNames();
    CommaStringText();
    CommaStringNotSubquery();
    CommaTokensHaveNoComma();
    CommaTokensTrimmed();
    InThreeTokens(db, "test2", "value3,value4, value5", "value3", "value4", " value5");
  }

  lemma TestWhereInSubqueryStores()
    ensures Stores(In("test3", Str("SELECT col1 FROM test_table")), "test3", Str("SELECT col1 FROM test_table"), "IN", "AND")
  {
  }

  lemma TestWhereInSubquery(db: Db)
    ensures Sql(db, In("test3", Str("SELECT col1 FROM test_table"))) == db.escapeColumn("test3") + " IN (SELECT col1 FROM test_table)"
  {
    TestNames();
    SubqueryIsSelect();
    SubqueryText();
    InQuery(db, "test3", "SELECT col1 FROM test_table", " IN (SELECT col1 FROM test_table)");
  }

  lemma TestWhereLike(db: Db)
    ensures Stores(Like("test", "value"), "test", Str("value"), "LIKE", "AND")
    ensures Sql(db, Like("test", "value"))
      == "LOWER(" + db.escapeColumn("test") + ") LIKE LOWER('%" + db.escapeString("value") + "%')"
  {
    TestNames();
    LikeTexts();
    LikeContains(db, "test", "value");
    LikeTextBoth(db.escapeColumn("test"), db.escapeString("value"));
  }

  lemma TestWhereLikeLeading(db: Db)
    ensures Sql(db, Like("test2", "%value2"))
      == "LOWER(" + db.escapeColumn("test2") + ") LIKE LOWER('%" + db.escapeString("value2") + "')"
  {
    TestNames();
    LikeTexts();
    LikeLeadingWildcard(db, "test2", "value2");
    LikeTextLeading(db.escapeColumn("test2"), db.escapeString("value2"));
  }

  lemma TestWhereLikeTrailing(db: Db)
    ensures Sql(db, Like("test3", "value3%"))
      == "LOWER(" + db.escapeColumn("test3") + ") LIKE LOWER('" + db.escapeString("value3") + "%')"
  {
    TestNames();
    LikeTexts();
    LikeTrailingWildcard(db, "test3", "value3");
    LikeTextTrailing(db.escapeColumn("test3"), db.escapeString("value3"));
  }

  lemma TestWhereLikeBothEnds(db: Db)
    ensures Sql(db, Like("test4", "%value4%"))
      == "LOWER(" + db.escapeColumn("test4") + ") LIKE LOWER('%" + db.escapeString("value4") + "%')"
  {
    TestNames();
    LikeTexts();
    LikeBothEnds(db, "test4", "value4");
    LikeTextBoth(db.escapeColumn("test4"), db.escapeString("value4"));
  }

  lemma TestWhereLikeInner(db: Db)
    ensures Sql(db, Like("test5", "value5%value5"))
      == "LOWER(" + db.escapeColumn("test5") + ") LIKE LOWER('" + db.escapeString("value5%value5") + "')"
  {
    TestNames();
    LikeTexts();
    LikeInnerWildcard(db, "test5", "value5%value5");
  }

  lemma TestMultiAnd(db: Db)
    ensures var where := [Column("nombre", Str("test")), Gt("total", Int(100))];
      var sql := db.escapeColumn("nombre") + " = " + db.var2str(Str("test"))
        + " AND " + db.escapeColumn("total") + " > " + db.var2str(Int(100));
      && MultiSql(db, where) == sql
      && AllWellFormed(where + [Between("fecha", Str("01-01-2020"), Str("31-01-2020"))])
      && MultiSql(db, where + [Between("fecha", Str("01-01-2020"), Str("31-01-2020"))])
         == sql + " AND " + db.escapeColumn("fecha") + " BETWEEN "
            + db.var2str(Str("01-01-2020")) + " AND " + db.var2str(Str("31-01-2020"))
  {
    TableNames();
    TestValues();
    var where := [Column("nombre", Str("test")), Gt("total", Int(100))];
    MultiAndShape(db, "nombre", Str("test"), "total", Int(100));
    AppendBetween(db, where, "fecha", Str("01-01-2020"), Str("31-01-2020"));
  }

  lemma TestMultiOr(db: Db)
    ensures var where := [NotEq("nombre", Str("test")), OrLte("total", Int(100))];
      var sql := db.escapeColumn("nombre") + " != " + db.var2str(Str("test"))
        + " OR " + db.escapeColumn("total") + " <= " + db.var2str(Int(100));
      && MultiSql(db, where) == sql
      && AllWellFormed(where + [OrIsNull("nick")])
      && MultiSql(db, where + [OrIsNull("nick")]) == sql + " OR " + db.escapeColumn("nick") + " IS NULL"
  {
    TableNames();
    TestValues();
    var where := [NotEq("nombre", Str("test")), OrLte("total", Int(100))];
    MultiOrShape(db, "nombre", Str("test"), "total", Int(100));
    AppendOrIsNull(db, where, "nick");
  }

  lemma TestSub(db: Db)
    ensures MultiSql(db, [Sub([Eq("nombre", Str("test2")), OrEq("nombre", Str("test3"))]), Gte("total", Int(100))])
      == "(" + db.escapeColumn("nombre") + " = " + db.var2str(Str("test2"))
         + " OR " + db.escapeColumn("nombre") + " = " + db.var2str(Str("test3")) + ")"
         + " AND " + db.escapeColumn("total") + " >= " + db.var2str(Int(100))
  {
    TableNames();
    TestValues();
    SubThenAnd(db, "nombre", Str("test2"), Str("test3"), "total", Int(100));
  }
}
