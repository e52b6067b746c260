/**
 * The WHERE-clause builder: condition nodes, their named factories, and
 * the renderer that turns a node or a sequence of nodes into an SQL
 * boolean expression.
 *
 * The database's quoting and casting is not part of the builder; it is
 * injected as a `Db` value holding the four escaping functions the
 * builder calls, and every rendering function takes it as a parameter.
 */
module WhereClause {
  import opened Strings

  /** A PHP value as a condition can hold it: a scalar or an array. */
  datatype Value = Null | Int(n: int) | Str(s: string) | List(items: seq<Value>)

  /** The comparison operators a condition can carry. */
  datatype Op =
    | Equal | NotEqual | Greater | Less | GreaterOrEqual | LessOrEqual
    | BetweenOp | InOp | LikeOp | IsNullOp | IsNotNullOp

  /** The text a condition stores as its `operator`. */
  function Symbol(op: Op): string
  {
    match op
    case Equal => "="
    case NotEqual => "!="
    case Greater => ">"
    case Less => "<"
    case GreaterOrEqual => ">="
    case LessOrEqual => "<="
    case BetweenOp => "BETWEEN"
    case InOp => "IN"
    case LikeOp => "LIKE"
    case IsNullOp => "IS NULL"
    case IsNotNullOp => "IS NOT NULL"
  }

  /** The six operators rendered as `column <op> value`. */
  predicate IsComparison(op: Op)
  {
    op in {Equal, NotEqual, Greater, Less, GreaterOrEqual, LessOrEqual}
  }

  /** The boolean keyword joining a node to the node before it. */
  datatype Joiner = And | Or

  function Keyword(j: Joiner): string
  {
    match j
    case And => "AND"
    case Or => "OR"
  }

  /** The escaping collaborator: identifier quoting, raw string escaping
      (no quotes added), literal rendering and the integer cast. */
  datatype Db = Db(
    escapeColumn: string -> string,
    escapeString: string -> string,
    var2str: Value -> string,
    castInteger: string -> string)

  /** A condition node: one comparison, or a parenthesised group of nodes.
      `operation` joins the node to its predecessor in a sequence. */
  datatype Where =
    | Condition(fields: string, operator: Op, value: Value, operation: Joiner)
    | Group(subWhere: seq<Where>, operation: Joiner)

  /** What each operator needs of its value: two bounds for BETWEEN, a
      non-empty list or a string for IN, a pattern string for LIKE. */
  predicate ValueFits(op: Op, v: Value)
  {
    match op
    case BetweenOp => v.List? && |v.items| == 2
    case InOp => v.Str? || (v.List? && |v.items| > 0)
    case LikeOp => v.Str?
    case _ => true
  }

  predicate WellFormed(w: Where)
  {
    match w
    case Condition(_, op, v, _) => ValueFits(op, v)
    case Group(ws, _) => AllWellFormed(ws)
  }

  predicate AllWellFormed(ws: seq<Where>)
    decreases ws
  {
    forall i {:trigger WellFormed(ws[i])} :: 0 <= i < |ws| ==> WellFormed(ws[i])
  }

  // ---------------------------------------------------------------------
  // Construction

  /** The generic constructor: operator `=` and joiner AND by default. */
  function New(fields: string, value: Value, operator: Op := Equal, operation: Joiner := And): (w: Where)
    ensures w.Condition?
    ensures w.fields == fields && w.value == value
    ensures w.operator == operator && w.operation == operation
    ensures WellFormed(w) <==> ValueFits(operator, value)
  {
    Condition(fields, operator, value, operation)
  }

  function Column(fields: string, value: Value, operator: Op := Equal, operation: Joiner := And): (w: Where)
    ensures w == New(fields, value, operator, operation)
  {
    Condition(fields, operator, value, operation)
  }

  function Eq(fields: string, value: Value): (w: Where)
    ensures w == New(fields, value, Equal, And)
  {
    Condition(fields, Equal, value, And)
  }

  function NotEq(fields: string, value: Value): (w: Where)
    ensures w == New(fields, value, NotEqual, And)
  {
    Condition(fields, NotEqual, value, And)
  }

  function Gt(fields: string, value: Value): (w: Where)
    ensures w == New(fields, value, Greater, And)
  {
    Condition(fields, Greater, value, And)
  }

  function Lt(fields: string, value: Value): (w: Where)
    ensures w == New(fields, value, Less, And)
  {
    Condition(fields, Less, value, And)
  }

  function Gte(fields: string, value: Value): (w: Where)
    ensures w == New(fields, value, GreaterOrEqual, And)
  {
    Condition(fields, GreaterOrEqual, value, And)
  }

  function Lte(fields: string, value: Value): (w: Where)
    ensures w == New(fields, value, LessOrEqual, And)
  {
    Condition(fields, LessOrEqual, value, And)
  }

  /** The two bounds are stored as the list `[value1, value2]`. */
  function Between(fields: string, value1: Value, value2: Value): (w: Where)
    ensures w == New(fields, List([value1, value2]), BetweenOp, And)
    ensures WellFormed(w)
  {
    Condition(fields, BetweenOp, List([value1, value2]), And)
  }

  /** `values` is kept as given: a list, a comma string or a subquery. */
  function In(fields: string, values: Value): (w: Where)
    ensures w == New(fields, values, InOp, And)
  {
    Condition(fields, InOp, values, And)
  }

  function Like(fields: string, pattern: string): (w: Where)
    ensures w == New(fields, Str(pattern), LikeOp, And)
    ensures WellFormed(w)
  {
    Condition(fields, LikeOp, Str(pattern), And)
  }

  function IsNull(fields: string): (w: Where)
    ensures w == New(fields, Null, IsNullOp, And)
    ensures WellFormed(w)
  {
    Condition(fields, IsNullOp, Null, And)
  }

  function IsNotNull(fields: string): (w: Where)
    ensures w == New(fields, Null, IsNotNullOp, And)
    ensures WellFormed(w)
  {
    Condition(fields, IsNotNullOp, Null, And)
  }

  function OrEq(fields: string, value: Value): (w: Where)
    ensures w == New(fields, value, Equal, Or)
  {
    Condition(fields, Equal, value, Or)
  }

  function OrNotEq(fields: string, value: Value): (w: Where)
    ensures w == New(fields, value, NotEqual, Or)
  {
    Condition(fields, NotEqual, value, Or)
  }

  function OrGt(fields: string, value: Value): (w: Where)
    ensures w == New(fields, value, Greater, Or)
  {
    Condition(fields, Greater, value, Or)
  }

  function OrLt(fields: string, value: Value): (w: Where)
    ensures w == New(fields, value, Less, Or)
  {
    Condition(fields, Less, value, Or)
  }

  function OrGte(fields: string, value: Value): (w: Where)
    ensures w == New(fields, value, GreaterOrEqual, Or)
  {
    Condition(fields, GreaterOrEqual, value, Or)
  }

  function OrLte(fields: string, value: Value): (w: Where)
    ensures w == New(fields, value, LessOrEqual, Or)
  {
    Condition(fields, LessOrEqual, value, Or)
  }

  function OrBetween(fields: string, value1: Value, value2: Value): (w: Where)
    ensures w == New(fields, List([value1, value2]), BetweenOp, Or)
    ensures WellFormed(w)
  {
    Condition(fields, BetweenOp, List([value1, value2]), Or)
  }

  function OrIn(fields: string, values: Value): (w: Where)
    ensures w == New(fields, values, InOp, Or)
  {
    Condition(fields, InOp, values, Or)
  }

  function OrLike(fields: string, pattern: string): (w: Where)
    ensures w == New(fields, Str(pattern), LikeOp, Or)
    ensures WellFormed(w)
  {
    Condition(fields, LikeOp, Str(pattern), Or)
  }

  function OrIsNull(fields: string): (w: Where)
    ensures w == New(fields, Null, IsNullOp, Or)
    ensures WellFormed(w)
  {
    Condition(fields, IsNullOp, Null, Or)
  }

  function OrIsNotNull(fields: string): (w: Where)
    ensures w == New(fields, Null, IsNotNullOp, Or)
    ensures WellFormed(w)
  {
    Condition(fields, IsNotNullOp, Null, Or)
  }

  /** A parenthesised group of nodes, joined to its predecessor by `operation`. */
  function Sub(subWhere: seq<Where>, operation: Joiner := And): (w: Where)
    ensures w.Group? && w.subWhere == subWhere && w.operation == operation
    ensures WellFormed(w) <==> AllWellFormed(subWhere)
  {
    Group(subWhere, operation)
  }

  // ---------------------------------------------------------------------
  // Rendering

  const FieldSeparator: char := '|'
  const CastIntegerPrefix: string := "integer:"
  const FieldPrefix: string := "field:"

  /** A column reference: `integer:name` is the integer cast of `name`. */
  function SqlColumn(db: Db, field: string): string
  {
    if StartsWith(field, CastIntegerPrefix) then db.castInteger(field[|CastIntegerPrefix|..])
    else db.escapeColumn(field)
  }

  /** The right-hand side of a comparison: `field:name` is another column. */
  function SqlValue(db: Db, v: Value): string
  {
    if v.Str? && StartsWith(v.s, FieldPrefix) then SqlColumn(db, v.s[|FieldPrefix|..])
    else db.var2str(v)
  }

  /** Each value as an SQL literal. */
  function Literals(db: Db, vs: seq<Value>): (r: seq<string>)
    ensures |r| == |vs|
    ensures forall i :: 0 <= i < |vs| ==> r[i] == db.var2str(vs[i])
  {
    if |vs| == 0 then [] else [db.var2str(vs[0])] + Literals(db, vs[1..])
  }

  /** The tokens of a comma-separated IN string, each trimmed. */
  function TrimmedTokens(parts: seq<string>): (r: seq<Value>)
    ensures |r| == |parts|
    ensures forall i :: 0 <= i < |parts| ==> r[i] == Str(Trim(parts[i]))
  {
    if |parts| == 0 then [] else [Str(Trim(parts[0]))] + TrimmedTokens(parts[1..])
  }

  /** An IN string whose trimmed text starts with SELECT, in any case. */
  predicate IsSubquery(s: string)
  {
    StartsWithIgnoreCase(Trim(s), "SELECT")
  }

  /** The literals an IN value stands for. */
  function InItems(v: Value): seq<Value>
    requires v.Str? || v.List?
  {
    if v.List? then v.items else TrimmedTokens(Split(v.s, ','))
  }

  function SqlIn(db: Db, column: string, v: Value): string
    requires v.Str? || v.List?
  {
    if v.Str? && IsSubquery(v.s) then column + " IN (" + v.s + ")"
    else column + " IN (" + Join(Literals(db, InItems(v)), ", ") + ")"
  }

  /** The LIKE pattern. Without a `%` it becomes a contains-match: the
      escaped text between two added wildcards. With a `%` the caller's
      wildcards are kept and none are added: a `%` at the start or at the end
      stays outside the escaped text, and any other `%` is escaped with the
      text around it. */
  function LikePattern(db: Db, pattern: string): string
  {
    if '%' !in pattern then "%" + db.escapeString(pattern) + "%"
    else
      var lead := pattern[0] == '%';
      var rest := if lead then pattern[1..] else pattern;
      var trail := |rest| > 0 && rest[|rest| - 1] == '%';
      var middle := if trail then rest[..|rest| - 1] else rest;
      (if lead then "%" else "") + db.escapeString(middle) + (if trail then "%" else "")
  }

  /** The case-insensitive match of a column against a pattern. */
  function LikeExpr(column: string, pattern: string): string
  {
    "LOWER(" + column + ") LIKE LOWER('" + pattern + "')"
  }

  /** The expression for one column of a condition. */
  function SqlField(db: Db, field: string, op: Op, v: Value): string
    requires ValueFits(op, v)
  {
    var column := SqlColumn(db, field);
    match op
    case BetweenOp => column + " BETWEEN " + db.var2str(v.items[0]) + " AND " + db.var2str(v.items[1])
    case InOp => SqlIn(db, column, v)
    case LikeOp => LikeExpr(column, LikePattern(db, v.s))
    case IsNullOp => column + " IS NULL"
    case IsNotNullOp => column + " IS NOT NULL"
    case _ => column + " " + Symbol(op) + " " + SqlValue(db, v)
  }

  /** One expression per column, all with the same operator and value. */
  function SqlFields(db: Db, fields: seq<string>, op: Op, v: Value): (r: seq<string>)
    requires ValueFits(op, v)
    ensures |r| == |fields|
    ensures forall i :: 0 <= i < |fields| ==> r[i] == SqlField(db, fields[i], op, v)
  {
    if |fields| == 0 then [] else [SqlField(db, fields[0], op, v)] + SqlFields(db, fields[1..], op, v)
  }

  /** `sql()` of one node. A `|`-separated field list becomes a
      parenthesised OR of the per-column expressions; a group becomes its
      parenthesised `MultiSql`. The node's own joiner is not rendered. */
  function Sql(db: Db, w: Where): string
    requires WellFormed(w)
    decreases w
  {
    match w
    case Condition(fields, op, v, _) =>
      var columns := Split(fields, FieldSeparator);
      if |columns| == 1 then SqlField(db, columns[0], op, v)
      else "(" + Join(SqlFields(db, columns, op, v), " OR ") + ")"
    case Group(ws, _) => "(" + MultiSql(db, ws) + ")"
  }

  /** `multiSql`: the first node's expression, then every later node's
      joiner and expression. */
  function MultiSql(db: Db, ws: seq<Where>): string
    requires AllWellFormed(ws)
    decreases ws
  {
    if |ws| == 0 then "" else Sql(db, ws[0]) + JoinedSql(db, ws[1..])
  }

  /** Each node in turn, linked by its own joiner. */
  function JoinedSql(db: Db, ws: seq<Where>): string
    requires AllWellFormed(ws)
    decreases ws
  {
    if |ws| == 0 then "" else Link(ws[0].operation, Sql(db, ws[0])) + JoinedSql(db, ws[1..])
  }

  /** An expression as it follows its predecessor: ` <joiner> <expression>`. */
  function Link(j: Joiner, expression: string): string
  {
    " " + Keyword(j) + " " + expression
  }

  // ---------------------------------------------------------------------
  // Properties of the rendering

  /** A field spec without `|` names one column. */
  lemma SingleColumn(db: Db, fields: string, op: Op, v: Value, j: Joiner)
    requires FieldSeparator !in fields && ValueFits(op, v)
    ensures Sql(db, Condition(fields, op, v, j)) == SqlField(db, fields, op, v)
  {
    SplitSingle(fields, FieldSeparator);
  }

  /** A plain column compared with a plain value:
      `escapeColumn(f) <op> var2str(v)`. */
  lemma PlainComparison(db: Db, fields: string, op: Op, v: Value, j: Joiner)
    requires IsComparison(op)
    requires FieldSeparator !in fields && !StartsWith(fields, CastIntegerPrefix)
    requires !(v.Str? && StartsWith(v.s, FieldPrefix))
    ensures Sql(db, Condition(fields, op, v, j)) == db.escapeColumn(fields) + " " + Symbol(op) + " " + db.var2str(v)
  {
    SingleColumn(db, fields, op, v, j);
  }

  /** An `integer:` field renders as the cast of the bare name. */
  lemma CastColumn(db: Db, name: string, op: Op, v: Value, j: Joiner)
    requires IsComparison(op)
    requires FieldSeparator !in name
    requires !(v.Str? && StartsWith(v.s, FieldPrefix))
    ensures Sql(db, Condition(CastIntegerPrefix + name, op, v, j)) == db.castInteger(name) + " " + Symbol(op) + " " + db.var2str(v)
  {
    var f := CastIntegerPrefix + name;
    assert FieldSeparator !in f by {
      forall i | 0 <= i < |f| ensures f[i] != FieldSeparator {
        if i >= |CastIntegerPrefix| { assert f[i] == name[i - |CastIntegerPrefix|]; }
      }
    }
    assert f[..|CastIntegerPrefix|] == CastIntegerPrefix && f[|CastIntegerPrefix|..] == name;
    SingleColumn(db, f, op, v, j);
  }

  /** A `field:` value compares with another column instead of a literal. */
  lemma FieldReference(db: Db, fields: string, op: Op, other: string, j: Joiner)
    requires IsComparison(op)
    requires FieldSeparator !in fields && !StartsWith(fields, CastIntegerPrefix)
    requires !StartsWith(other, CastIntegerPrefix)
    ensures Sql(db, Condition(fields, op, Str(FieldPrefix + other), j)) == db.escapeColumn(fields) + " " + Symbol(op) + " " + db.escapeColumn(other)
  {
    var s := FieldPrefix + other;
    assert s[..|FieldPrefix|] == FieldPrefix && s[|FieldPrefix|..] == other;
    SingleColumn(db, fields, op, Str(s), j);
  }

  /** `col1|col2|...` renders as the parenthesised OR of what each column
      alone renders, whatever the node's own joiner. */
  lemma MultiColumn(db: Db, columns: seq<string>, op: Op, v: Value, j: Joiner)
    requires |columns| >= 2 && ValueFits(op, v)
    requires forall i :: 0 <= i < |columns| ==> FieldSeparator !in columns[i]
    ensures var parts := SqlFields(db, columns, op, v);
      && Sql(db, Condition(Join(columns, [FieldSeparator]), op, v, j)) == "(" + Join(parts, " OR ") + ")"
      && forall i, j' :: 0 <= i < |columns| ==> parts[i] == Sql(db, Condition(columns[i], op, v, j'))
  {
    SplitJoin(columns, FieldSeparator);
    SplitSingle(Join(columns, [FieldSeparator]), FieldSeparator);
    forall i, j' | 0 <= i < |columns|
      ensures SqlFields(db, columns, op, v)[i] == Sql(db, Condition(columns[i], op, v, j'))
    {
      SingleColumn(db, columns[i], op, v, j');
    }
  }

  /** BETWEEN renders both bounds as literals. */
  lemma BetweenRenders(db: Db, fields: string, lo: Value, hi: Value)
    requires FieldSeparator !in fields && !StartsWith(fields, CastIntegerPrefix)
    ensures Sql(db, Between(fields, lo, hi)) == db.escapeColumn(fields) + " BETWEEN " + db.var2str(lo) + " AND " + db.var2str(hi)
  {
    SingleColumn(db, fields, BetweenOp, List([lo, hi]), And);
  }

  /** IN with a list renders each element as a literal, comma-separated. */
  lemma InList(db: Db, fields: string, items: seq<Value>)
    requires |items| > 0
    requires FieldSeparator !in fields && !StartsWith(fields, CastIntegerPrefix)
    ensures Sql(db, In(fields, List(items))) == db.escapeColumn(fields) + " IN (" + Join(Literals(db, items), ", ") + ")"
  {
    SingleColumn(db, fields, InOp, List(items), And);
  }

  /** Two values that every single column renders alike render alike
      under any field spec. */
  lemma SameRendering(db: Db, fields: string, op: Op, v1: Value, v2: Value, j: Joiner)
    requires ValueFits(op, v1) && ValueFits(op, v2)
    requires forall c :: SqlField(db, c, op, v1) == SqlField(db, c, op, v2)
    ensures Sql(db, Condition(fields, op, v1, j)) == Sql(db, Condition(fields, op, v2, j))
  {
    var columns := Split(fields, FieldSeparator);
    assert SqlFields(db, columns, op, v1) == SqlFields(db, columns, op, v2);
  }

  /** A non-subquery IN string and a list standing for the same literals
      render alike. */
  lemma SameItems(db: Db, column: string, text: Value, list: Value)
    requires text.Str? && !IsSubquery(text.s) && list.List?
    requires InItems(text) == InItems(list)
    ensures SqlIn(db, column, text) == SqlIn(db, column, list)
  {
  }

  /** IN with a comma string renders exactly as IN with the list of its
      trimmed tokens. */
  lemma InCommaString(db: Db, fields: string, w: Joiner, tokens: seq<string>)
    requires |tokens| >= 1
    requires forall i :: 0 <= i < |tokens| ==> ',' !in tokens[i]
    requires !IsSubquery(Join(tokens, ","))
    ensures Sql(db, Condition(fields, InOp, Str(Join(tokens, ",")), w)) == Sql(db, Condition(fields, InOp, List(TrimmedTokens(tokens)), w))
  {
    var text := Str(Join(tokens, ","));
    var list := List(TrimmedTokens(tokens));
    assert InItems(text) == InItems(list) by {
      assert "," == [','];
      SplitJoin(tokens, ',');
    }
    forall c ensures SqlField(db, c, InOp, text) == SqlField(db, c, InOp, list) {
      SameItems(db, SqlColumn(db, c), text, list);
    }
    SameRendering(db, fields, InOp, text, list, w);
  }

  /** IN with a SELECT string embeds it verbatim. */
  lemma InSubquery(db: Db, fields: string, query: string)
    requires IsSubquery(query)
    requires FieldSeparator !in fields && !StartsWith(fields, CastIntegerPrefix)
    ensures Sql(db, In(fields, Str(query))) == db.escapeColumn(fields) + " IN (" + query + ")"
  {
    SingleColumn(db, fields, InOp, Str(query), And);
  }

  /** A `%`-free pattern is matched anywhere: `%` is added on both sides. */
  lemma LikeContains(db: Db, fields: string, pattern: string)
    requires '%' !in pattern
    requires FieldSeparator !in fields && !StartsWith(fields, CastIntegerPrefix)
    ensures Sql(db, Like(fields, pattern)) == LikeExpr(db.escapeColumn(fields), "%" + db.escapeString(pattern) + "%")
  {
    SingleColumn(db, fields, LikeOp, Str(pattern), And);
  }

  /** A pattern whose `%` signs are all inside it, none at either end, is
      escaped as a whole: no wildcard is added. */
  lemma LikeInnerWildcard(db: Db, fields: string, pattern: string)
    requires '%' in pattern && pattern[0] != '%' && pattern[|pattern| - 1] != '%'
    requires FieldSeparator !in fields && !StartsWith(fields, CastIntegerPrefix)
    ensures Sql(db, Like(fields, pattern)) == LikeExpr(db.escapeColumn(fields), db.escapeString(pattern))
  {
    SingleColumn(db, fields, LikeOp, Str(pattern), And);
    assert LikePattern(db, pattern) == "" + db.escapeString(pattern) + "";
  }

  /** A leading `%` is a suffix match: the wildcard stays in front of the
      escaped text and nothing is added after it. */
  lemma LikeLeadingWildcard(db: Db, fields: string, x: string)
    requires |x| == 0 || x[|x| - 1] != '%'
    requires FieldSeparator !in fields && !StartsWith(fields, CastIntegerPrefix)
    ensures Sql(db, Like(fields, "%" + x)) == LikeExpr(db.escapeColumn(fields), "%" + db.escapeString(x))
  {
    var p := "%" + x;
    assert p[0] == '%' && p[1..] == x;
    SingleColumn(db, fields, LikeOp, Str(p), And);
    assert LikePattern(db, p) == "%" + db.escapeString(x) + "";
  }

  /** A trailing `%` is a prefix match: the wildcard stays after the
      escaped text and nothing is added before it. */
  lemma LikeTrailingWildcard(db: Db, fields: string, x: string)
    requires |x| > 0 && x[0] != '%'
    requires FieldSeparator !in fields && !StartsWith(fields, CastIntegerPrefix)
    ensures Sql(db, Like(fields, x + "%")) == LikeExpr(db.escapeColumn(fields), db.escapeString(x) + "%")
  {
    var p := x + "%";
    assert p[0] == x[0] && p[|p| - 1] == '%' && p[..|p| - 1] == x;
    SingleColumn(db, fields, LikeOp, Str(p), And);
    assert LikePattern(db, p) == "" + db.escapeString(x) + "%";
  }

  /** `%x%` keeps both wildcards outside the escaped `x`, whatever `x`
      holds; for a `%`-free `x` that is exactly the contains-match of `x`. */
  lemma LikeBothEnds(db: Db, fields: string, x: string)
    requires FieldSeparator !in fields && !StartsWith(fields, CastIntegerPrefix)
    ensures Sql(db, Like(fields, "%" + x + "%")) == LikeExpr(db.escapeColumn(fields), "%" + db.escapeString(x) + "%")
    ensures '%' !in x ==> Sql(db, Like(fields, "%" + x + "%")) == Sql(db, Like(fields, x))
  {
    var p := "%" + x + "%";
    assert p[0] == '%' && p[1..] == x + "%";
    assert (x + "%")[|x|] == '%' && (x + "%")[..|x|] == x;
    SingleColumn(db, fields, LikeOp, Str(p), And);
    assert LikePattern(db, p) == "%" + db.escapeString(x) + "%";
    if '%' !in x {
      LikeContains(db, fields, x);
    }
  }

  /** With an escaper that changes nothing, a pattern holding a `%` comes
      out exactly as the caller wrote it, and a `%`-free one gains a `%` at
      each end: the caller's wildcards are never moved, dropped or added to. */
  lemma LikeVerbatim(db: Db, pattern: string)
    requires forall s :: db.escapeString(s) == s
    ensures '%' in pattern ==> LikePattern(db, pattern) == pattern
    ensures '%' !in pattern ==> LikePattern(db, pattern) == "%" + pattern + "%"
  {
    if '%' in pattern {
      PatternRejoins(pattern);
      var lead := pattern[0] == '%';
      var rest := if lead then pattern[1..] else pattern;
      var trail := |rest| > 0 && rest[|rest| - 1] == '%';
      var middle := if trail then rest[..|rest| - 1] else rest;
      assert db.escapeString(middle) == middle;
    }
  }

  /** Cutting a leading and a trailing `%` off a pattern, as `LikePattern`
      does, and putting them back gives the pattern again. */
  lemma PatternRejoins(pattern: string)
    requires '%' in pattern
    ensures var lead := pattern[0] == '%';
            var rest := if lead then pattern[1..] else pattern;
            var trail := |rest| > 0 && rest[|rest| - 1] == '%';
            var middle := if trail then rest[..|rest| - 1] else rest;
            (if lead then "%" else "") + middle + (if trail then "%" else "") == pattern
  {
    var lead := pattern[0] == '%';
    var rest := if lead then pattern[1..] else pattern;
    var trail := |rest| > 0 && rest[|rest| - 1] == '%';
    var middle := if trail then rest[..|rest| - 1] else rest;
    assert (if trail then middle + "%" else middle) == rest;
    assert (if lead then "%" + rest else rest) == pattern;
  }

  /** The null tests have no value segment. */
  lemma NullTests(db: Db, fields: string)
    requires FieldSeparator !in fields && !StartsWith(fields, CastIntegerPrefix)
    ensures Sql(db, IsNull(fields)) == db.escapeColumn(fields) + " IS NULL"
    ensures Sql(db, OrIsNull(fields)) == db.escapeColumn(fields) + " IS NULL"
    ensures Sql(db, IsNotNull(fields)) == db.escapeColumn(fields) + " IS NOT NULL"
  {
    SingleColumn(db, fields, IsNullOp, Null, And);
    SingleColumn(db, fields, IsNullOp, Null, Or);
    SingleColumn(db, fields, IsNotNullOp, Null, And);
  }

  // ---------------------------------------------------------------------
  // Properties of multiSql and sub

  /** The empty sequence renders as the empty string, one node as itself,
      and two nodes with the second node's joiner between them. */
  lemma MultiSqlSmall(db: Db, a: Where, b: Where)
    requires WellFormed(a) && WellFormed(b)
    ensures MultiSql(db, []) == ""
    ensures MultiSql(db, [a]) == Sql(db, a)
    ensures MultiSql(db, [a, b]) == Sql(db, a) + Link(b.operation, Sql(db, b))
  {
    assert [a, b][1..] == [b];
    assert [b][1..] == [];
  }

  /** Appending a node appends its joiner and expression. */
  lemma MultiSqlAppend(db: Db, ws: seq<Where>, w: Where)
    requires |ws| >= 1 && AllWellFormed(ws) && WellFormed(w)
    ensures AllWellFormed(ws + [w])
    ensures MultiSql(db, ws + [w]) == MultiSql(db, ws) + Link(w.operation, Sql(db, w))
  {
    var all := ws + [w];
    assert AllWellFormed(all) by {
      forall i | 0 <= i < |all| ensures WellFormed(all[i]) {
        if i < |ws| { assert all[i] == ws[i]; }
      }
    }
    assert all[0] == ws[0];
    assert all[1..] == ws[1..] + [w];
    JoinedSqlAppend(db, ws[1..], w);
    ConcatAssoc(Sql(db, ws[0]), JoinedSql(db, ws[1..]), Link(w.operation, Sql(db, w)));
  }

  lemma {:induction false} JoinedSqlAppend(db: Db, ws: seq<Where>, w: Where)
    requires AllWellFormed(ws) && WellFormed(w)
    ensures AllWellFormed(ws + [w])
    ensures JoinedSql(db, ws + [w]) == JoinedSql(db, ws) + Link(w.operation, Sql(db, w))
    decreases |ws|
  {
    var all := ws + [w];
    assert AllWellFormed(all) by {
      forall i | 0 <= i < |all| ensures WellFormed(all[i]) {
        if i < |ws| { assert all[i] == ws[i]; }
      }
    }
    if |ws| == 0 {
      assert all == [w];
      assert all[1..] == [];
    } else {
      var rest := ws[1..];
      assert AllWellFormed(rest) by {
        forall i | 0 <= i < |rest| ensures WellFormed(rest[i]) { assert rest[i] == ws[i + 1]; }
      }
      JoinedSqlAppend(db, rest, w);
      assert all[0] == ws[0];
      assert all[1..] == rest + [w];
      ConcatAssoc(Link(ws[0].operation, Sql(db, ws[0])), JoinedSql(db, rest), Link(w.operation, Sql(db, w)));
    }
  }

  /** Read from the front: the first node, then the second node's joiner
      followed by the rendering of all nodes after the first. */
  lemma MultiSqlFront(db: Db, ws: seq<Where>)
    requires |ws| >= 2 && AllWellFormed(ws)
    ensures AllWellFormed(ws[1..])
    ensures MultiSql(db, ws) == Sql(db, ws[0]) + Link(ws[1].operation, MultiSql(db, ws[1..]))
  {
    var rest := ws[1..];
    assert AllWellFormed(rest) by {
      forall i | 0 <= i < |rest| ensures WellFormed(rest[i]) { assert rest[i] == ws[i + 1]; }
    }
    assert rest[0] == ws[1];
    var sep := " " + Keyword(ws[1].operation) + " ";
    ConcatAssoc(sep, Sql(db, ws[1]), JoinedSql(db, rest[1..]));
  }

  /** The first node's joiner is never emitted. */
  lemma MultiSqlIgnoresFirstJoiner(db: Db, ws: seq<Where>, j: Joiner)
    requires |ws| >= 1 && AllWellFormed(ws)
    ensures AllWellFormed(ws[0 := ws[0].(operation := j)])
    ensures MultiSql(db, ws[0 := ws[0].(operation := j)]) == MultiSql(db, ws)
  {
    var ws' := ws[0 := ws[0].(operation := j)];
    SqlIgnoresJoiner(db, ws[0], j);
    assert AllWellFormed(ws') by {
      forall i | 0 <= i < |ws'| ensures WellFormed(ws'[i]) {
        if i > 0 { assert ws'[i] == ws[i]; }
      }
    }
    assert ws'[1..] == ws[1..];
  }

  /** A node's own joiner does not affect its expression. */
  lemma SqlIgnoresJoiner(db: Db, w: Where, j: Joiner)
    requires WellFormed(w)
    ensures WellFormed(w.(operation := j))
    ensures Sql(db, w.(operation := j)) == Sql(db, w)
  {
  }

  /** Regrouping a concatenation. */
  lemma ConcatAssoc(a: string, b: string, c: string)
    ensures (a + b) + c == a + (b + c)
  {
  }

  /** `sub` wraps the inner `multiSql`, inner joiners untouched, in
      parentheses; its own joiner only links it to the outer sequence. */
  lemma SubRenders(db: Db, ws: seq<Where>, j: Joiner, outer: seq<Where>)
    requires AllWellFormed(ws) && AllWellFormed(outer) && |outer| >= 1
    ensures Sql(db, Sub(ws, j)) == "(" + MultiSql(db, ws) + ")"
    ensures MultiSql(db, outer + [Sub(ws, j)]) == MultiSql(db, outer) + Link(j, Sql(db, Sub(ws, j)))
  {
    MultiSqlAppend(db, outer, Sub(ws, j));
  }
}
