# FacturaScripts WHERE builder and URI parameters, in Dafny

This project models two pieces of FacturaScripts.

- **The WHERE-clause builder** (`FacturaScripts\Core\Where`). It turns condition nodes into SQL boolean expressions:
  - a node holds a field spec, an operator, a value and a joiner (`AND`/`OR`);
  - named factories build nodes, and the `or*` variants set the joiner to `OR`;
  - `sql()` renders one node;
  - `multiSql` renders a sequence of nodes, linking each node after the first by its own joiner;
  - `sub` groups nodes inside parentheses.
- **`App::getUriParam`**. It reads path parameter `n` of the request URI.

The database's quoting and casting is abstract. It is a `Db` value with four functions: `escapeColumn`, `escapeString`, `var2str` and `castInteger`. Every rendering function takes a `Db`, and every property holds for every `Db`.

Files:

- `strings.dfy` (module `Strings`): the PHP string primitives used, which are `explode`, `implode`, `trim`, `substr` and prefix tests, with their round-trip lemmas.
- `where.dfy` (module `WhereClause`): the node datatype, the factories, the renderer (`Sql`, `MultiSql`) and its general properties.
- `where_cases.dfy` (module `WhereTestCases`): each assertion in the builder's unit test file, stated twice:
  - as a lemma over any plain column name and literal value;
  - as the test's own instance.
- `app.dfy` (module `App`): the `uri` field, `getUriParam`, and the properties of path splitting.

Rendering rules as modelled:

- A field spec containing `|` renders as a parenthesised disjunction. Each column gets the same operator and value, and the parts are joined with ` OR ` whatever the node's own joiner is.
- A field name beginning with `integer:` renders as `castInteger(<rest>)`.
- A value string beginning with `field:` renders as a column reference.
- The operands of `BETWEEN` and the items of `IN` are always literals (`var2str`).
- An `IN` string is embedded verbatim when its trimmed text starts with `SELECT`, in any letter case. Otherwise it is split on `,` and each token is trimmed.
- A `LIKE` pattern without `%` becomes `%<escaped>%`. In a pattern that holds a `%`, a leading or trailing `%` stays outside the escaped text and an inner `%` is escaped with the text around it. No wildcard is added.

## Model

The tests use no call to `orNotEq`, `orGt`, `orLt`, `orGte`, `orBetween`, `orIn`, `orLike`, `isNotNull` or `orIsNotNull`. They are modelled (`WhereClause.OrNotEq`, `WhereClause.IsNotNull` and so on) on the same pattern as the tested ones: one factory per operator, and an `or` variant of each that sets the joiner to OR. They have no rows below because no source line shows them.

| member | source | states |
|---|---|---|
| WhereClause.New | Test/Core/WhereTest.php:31-37 | the generic constructor stores fields and value verbatim, with operator `=` and joiner AND by default; the node is well formed exactly when its value fits its operator |
| WhereClause.Column | Test/Core/WhereTest.php:43-49 | `column` builds the same node as the generic constructor |
| WhereClause.Eq | Test/Core/WhereTest.php:241 | `eq` is the generic constructor with `=` and AND |
| WhereClause.NotEq | Test/Core/WhereTest.php:221 | `notEq` is the generic constructor with `!=` and AND |
| WhereClause.Gt | Test/Core/WhereTest.php:96-100 | `gt` is the generic constructor with `>` and AND |
| WhereClause.Lt | Test/Core/WhereTest.php:70-74 | `lt` is the generic constructor with `<` and AND |
| WhereClause.Gte | Test/Core/WhereTest.php:244 | `gte` is the generic constructor with `>=` and AND |
| WhereClause.Lte | Test/Core/WhereTest.php:222 | `lte` is the generic constructor with `<=` and AND |
| WhereClause.Between | Test/Core/WhereTest.php:108-112 | `between` stores the two bounds as the list `[a, b]`, with operator BETWEEN and joiner AND; the node is well formed |
| WhereClause.In | Test/Core/WhereTest.php:123-127 | `in` stores the list or string as given, with operator IN and joiner AND |
| WhereClause.Like | Test/Core/WhereTest.php:162-166 | `like` stores the pattern string, with operator LIKE and joiner AND; the node is well formed |
| WhereClause.IsNull | Test/Core/WhereTest.php:230 | `isNull` has no value, operator IS NULL and joiner AND |
| WhereClause.OrEq | Test/Core/WhereTest.php:242 | `orEq` is `eq` with joiner OR |
| WhereClause.OrLte | Test/Core/WhereTest.php:222 | `orLte` is `lte` with joiner OR |
| WhereClause.OrIsNull | Test/Core/WhereTest.php:230 | `orIsNull` is `isNull` with joiner OR |
| WhereClause.Sub | Test/Core/WhereTest.php:240-243 | `sub` keeps the inner nodes in order with the given joiner; the group is well formed exactly when every inner node is |
| WhereClause.Literals | Test/Core/WhereTest.php:129-131 | one `var2str` literal per item, in order |
| WhereClause.TrimmedTokens | Test/Core/WhereTest.php:141-144 | one trimmed string per comma token, in order |
| WhereClause.SqlFields | Test/Core/WhereTest.php:87-90 | one expression per column, each with the node's operator and value |
| WhereClause.SqlColumn | Test/Core/WhereTest.php:101-103 | the column reference: `castInteger(name)` for an `integer:name` field and `escapeColumn(f)` otherwise; stated by `CastColumn` and `PlainComparison` |
| WhereClause.SqlValue | Test/Core/WhereTest.php:75-77 | the right-hand side of a comparison: a `field:other` value is the column `other`, any other value is `var2str(v)`; stated by `FieldReference` and `PlainComparison` |
| WhereClause.SqlIn | Test/Core/WhereTest.php:129-156 | IN with a list renders its literals, a comma string renders its trimmed tokens, and a SELECT string is embedded verbatim; stated by `InList`, `InCommaString` and `InSubquery` |
| WhereClause.LikePattern | Test/Core/WhereTest.php:168-194 | the LIKE pattern, with the caller's wildcards neither moved nor added to; stated by `LikeContains`, `LikeLeadingWildcard`, `LikeTrailingWildcard`, `LikeBothEnds`, `LikeInnerWildcard` and `LikeVerbatim` |
| WhereClause.SqlField | Test/Core/WhereTest.php:38-40 | the expression for one column of a node: its column reference, the operator and its value; stated by `PlainComparison`, `BetweenRenders`, `NullTests` and the IN and LIKE lemmas |
| WhereClause.Sql | Test/Core/WhereTest.php:88-91 | `sql()` of one node: one column renders as that column's expression, several as their parenthesised OR, a group as its parenthesised `multiSql`; stated by `SingleColumn`, `MultiColumn`, `SqlIgnoresJoiner` and `SubRenders` |
| WhereClause.MultiSql | Test/Core/WhereTest.php:200-250 | `multiSql`: the first node, then each later node's joiner and expression; stated by `MultiSqlSmall`, `MultiSqlAppend`, `MultiSqlFront` and `MultiSqlIgnoresFirstJoiner` |
| WhereClause.JoinedSql | Test/Core/WhereTest.php:210-214 | every node of a tail, each preceded by its own joiner; stated by `JoinedSqlAppend` |
| WhereClause.SingleColumn | Test/Core/WhereTest.php:39-40 | a field spec without the column separator renders as the expression for that one column |
| WhereClause.PlainComparison | Test/Core/WhereTest.php:38-40 | a plain column compared with a literal renders as `escapeColumn(f) <op> var2str(v)`, whatever the joiner |
| WhereClause.CastColumn | Test/Core/WhereTest.php:101-103 | an `integer:name` field renders as `castInteger(name) <op> var2str(v)` |
| WhereClause.FieldReference | Test/Core/WhereTest.php:75-77 | a `field:other` value renders as `escapeColumn(f) <op> escapeColumn(other)` |
| WhereClause.MultiColumn | Test/Core/WhereTest.php:82-91 | columns `c1 … cn` joined by the column separator render as `(` + the single-column renderings joined by ` OR ` + `)`, and each part equals what that column alone renders under any joiner |
| WhereClause.BetweenRenders | Test/Core/WhereTest.php:113-117 | BETWEEN renders `escapeColumn(f) BETWEEN var2str(a) AND var2str(b)` |
| WhereClause.InList | Test/Core/WhereTest.php:129-132 | IN with a list renders `escapeColumn(f) IN (` + the literals joined by `, ` + `)` |
| WhereClause.InCommaString | Test/Core/WhereTest.php:134-145 | IN with a comma string that is not a subquery renders exactly as IN with the list of its trimmed tokens |
| WhereClause.SameRendering | Test/Core/WhereTest.php:134-145 | two values that every single column renders alike render alike under any field spec, including a multi-column one |
| WhereClause.InSubquery | Test/Core/WhereTest.php:147-156 | IN with a SELECT string embeds it verbatim: `escapeColumn(f) IN (<string>)` |
| WhereClause.LikeContains | Test/Core/WhereTest.php:168-170 | a pattern without `%` renders `LOWER(col) LIKE LOWER('%` + escapeString(p) + `%')` |
| WhereClause.LikeInnerWildcard | Test/Core/WhereTest.php:190-194 | a pattern whose `%` are all inner is escaped as given, and no wildcard is added |
| WhereClause.LikeLeadingWildcard | Test/Core/WhereTest.php:172-176 | `%x`, where `x` does not end with `%`, renders with the wildcard before the escaped text and nothing after it |
| WhereClause.LikeTrailingWildcard | Test/Core/WhereTest.php:178-182 | `x%`, where `x` does not start with `%`, renders with the wildcard after the escaped text and nothing before it |
| WhereClause.LikeBothEnds | Test/Core/WhereTest.php:184-188 | `%x%` renders with both wildcards outside the escaped `x`, for every `x`; for an `x` without `%` that is exactly the contains-match of `x` |
| WhereClause.LikeVerbatim | Test/Core/WhereTest.php:162-194 | under an escaper that changes nothing, a pattern holding `%` renders exactly as written and a `%`-free one gains one `%` at each end |
| WhereClause.PatternRejoins | Test/Core/WhereTest.php:172-194 | cutting a leading and a trailing `%` off a pattern and putting them back gives the pattern again |
| WhereClause.NullTests | Test/Core/WhereTest.php:230-232 | `isNull` and `orIsNull` render `escapeColumn(f) IS NULL`; `isNotNull` renders `escapeColumn(f) IS NOT NULL` |
| WhereClause.MultiSqlSmall | Test/Core/WhereTest.php:205-207 | no nodes render as `""`; one node renders as itself; for two nodes the second node's joiner goes between them and the first node's joiner is not rendered |
| WhereClause.MultiSqlAppend | Test/Core/WhereTest.php:210-214 | appending a node to a non-empty sequence appends ` <its joiner> <its expression>` |
| WhereClause.JoinedSqlAppend | Test/Core/WhereTest.php:210-214 | the joined tail of a sequence grows by the appended node's link, by induction on the sequence |
| WhereClause.MultiSqlFront | Test/Core/WhereTest.php:239-250 | read from the front, a sequence is its first node, then the second node's joiner, then the rendering of the rest |
| WhereClause.MultiSqlIgnoresFirstJoiner | Test/Core/WhereTest.php:239-250 | changing the first node's joiner leaves the rendering unchanged |
| WhereClause.SqlIgnoresJoiner | Test/Core/WhereTest.php:88-91 | a node's own joiner never changes its own expression |
| WhereClause.SubRenders | Test/Core/WhereTest.php:239-250 | `sub` renders `(` + the inner `multiSql` + `)` with the inner joiners kept, and its own joiner only links it to what precedes it |
| WhereTestCases.Compared | Test/Core/WhereTest.php:38-40 | any plain column compared with any literal renders as the column, the operator text and the literal |
| WhereTestCases.ComparedField | Test/Core/WhereTest.php:75-77 | any plain column compared with `field:other` renders as the column, the operator text and `escapeColumn(other)` |
| WhereTestCases.ComparedCast | Test/Core/WhereTest.php:101-103 | any `integer:name` field renders as `castInteger(name)`, the operator text and the literal |
| WhereTestCases.ThreeColumns | Test/Core/WhereTest.php:87-91 | any three plain columns joined by the column separator render as the parenthesised OR of three `=` comparisons |
| WhereTestCases.InTwo | Test/Core/WhereTest.php:129-132 | IN with any two-item list renders `col IN (a, b)` |
| WhereTestCases.InThree | Test/Core/WhereTest.php:141-145 | IN with any three-item list renders `col IN (a, b, c)` |
| WhereTestCases.ThreeTokensAsList | Test/Core/WhereTest.php:134-145 | a comma string of any three comma-free tokens renders as the list of the three trimmed tokens |
| WhereTestCases.InThreeTokens | Test/Core/WhereTest.php:141-145 | IN with any three-token comma string renders the three trimmed tokens as literals |
| WhereTestCases.InQuery | Test/Core/WhereTest.php:154-156 | IN with any SELECT string embeds it verbatim |
| WhereTestCases.MultiAndShape | Test/Core/WhereTest.php:200-207 | an `=` node followed by a `>` node renders the two comparisons joined by ` AND ` |
| WhereTestCases.AppendBetween | Test/Core/WhereTest.php:210-214 | appending `between` adds ` AND col BETWEEN a AND b` |
| WhereTestCases.MultiOrShape | Test/Core/WhereTest.php:220-227 | a `!=` node followed by an `orLte` node renders the two comparisons joined by ` OR ` |
| WhereTestCases.AppendOrIsNull | Test/Core/WhereTest.php:230-233 | appending `orIsNull` adds ` OR col IS NULL` |
| WhereTestCases.SubShape | Test/Core/WhereTest.php:240-243 | a group of `eq` and `orEq` on one column renders `(a = x OR a = y)` |
| WhereTestCases.SubThenAnd | Test/Core/WhereTest.php:239-250 | that group followed by a `gte` node renders the group, ` AND ` and the comparison |
| WhereTestCases.TestNewInstance | Test/Core/WhereTest.php:31-41 | testNewInstance: stored attributes and rendering of `new Where('test', 'value')` |
| WhereTestCases.TestColumn | Test/Core/WhereTest.php:43-53 | testColumn: stored attributes and rendering of `column('test2', 'value2')` |
| WhereTestCases.TestColumnDate | Test/Core/WhereTest.php:55-66 | testColumnDate: a date string is stored and rendered as a literal |
| WhereTestCases.TestColumnEqFieldStores | Test/Core/WhereTest.php:69-74 | testColumnEqField: `lt('disponible', 'field:cantidad')` keeps the `field:` prefix in its stored value |
| WhereTestCases.TestColumnEqField | Test/Core/WhereTest.php:75-77 | testColumnEqField: the node renders as a comparison of two columns |
| WhereTestCases.TestMultiColumn | Test/Core/WhereTest.php:80-92 | testMultiColumn: the three-column spec is stored unsplit and renders as the OR of three comparisons |
| WhereTestCases.TestColumnCastInteger | Test/Core/WhereTest.php:94-104 | testColumnCastInteger: `integer:codigo` is stored with its prefix and renders as `castInteger('codigo') > var2str(100)` |
| WhereTestCases.TestWhereBetween | Test/Core/WhereTest.php:106-118 | testWhereBetween: stores `['value1', 'value2']` and renders both bounds |
| WhereTestCases.TestWhereInList | Test/Core/WhereTest.php:122-132 | testWhereIn, list form |
| WhereTestCases.TestWhereInStringStores | Test/Core/WhereTest.php:134-139 | testWhereIn, comma-string form: the raw string is stored as the value |
| WhereTestCases.TestWhereInString | Test/Core/WhereTest.php:141-145 | testWhereIn, comma-string form: three trimmed literals are rendered |
| WhereTestCases.TestWhereInSubqueryStores | Test/Core/WhereTest.php:147-152 | testWhereIn, subquery form: stored attributes |
| WhereTestCases.TestWhereInSubquery | Test/Core/WhereTest.php:154-156 | testWhereIn, subquery form: rendering |
| WhereTestCases.TestWhereLike | Test/Core/WhereTest.php:161-170 | testWhereLike, no wildcard: stored attributes and the contains-match |
| WhereTestCases.TestWhereLikeLeading | Test/Core/WhereTest.php:172-176 | testWhereLike, leading wildcard |
| WhereTestCases.TestWhereLikeTrailing | Test/Core/WhereTest.php:178-182 | testWhereLike, trailing wildcard |
| WhereTestCases.TestWhereLikeBothEnds | Test/Core/WhereTest.php:184-188 | testWhereLike, wildcards at both ends |
| WhereTestCases.TestWhereLikeInner | Test/Core/WhereTest.php:190-194 | testWhereLike, inner wildcard: the pattern is escaped as given |
| WhereTestCases.TestMultiAnd | Test/Core/WhereTest.php:197-215 | testMultiAnd: both `multiSql` assertions, before and after the `between` node is appended |
| WhereTestCases.TestMultiOr | Test/Core/WhereTest.php:217-234 | testMultiOr: both `multiSql` assertions, before and after the `orIsNull` node is appended |
| WhereTestCases.TestSub | Test/Core/WhereTest.php:236-251 | testSub: a group followed by an AND node |
| Strings.Split | Core/App/App.php:152 | `explode` never returns an empty array, and no piece contains the delimiter |
| Strings.JoinSplit | Core/App/App.php:152 | imploding the pieces of `explode` with the same delimiter gives back the string |
| Strings.SplitSingle | Test/Core/WhereTest.php:80-92 | a string is one piece exactly when it holds no delimiter |
| Strings.SplitPrefix | Test/Core/WhereTest.php:135-145 | exploding `p + d + rest`, where `p` has no delimiter, gives `p` followed by the pieces of `rest` |
| Strings.SplitJoin | Test/Core/WhereTest.php:135-145 | exploding the implosion of delimiter-free pieces gives back the pieces |
| Strings.TrimStart | Test/Core/WhereTest.php:135-144 | `ltrim` removes exactly a whitespace prefix and leaves no leading whitespace |
| Strings.TrimEnd | Test/Core/WhereTest.php:135-144 | `rtrim` removes exactly a whitespace suffix and leaves no trailing whitespace |
| Strings.Trim | Test/Core/WhereTest.php:135-144 | `trim` leaves no whitespace at either end, never lengthens the string, and leaves a string without outer whitespace unchanged |
| Strings.TrimIsSlice | Test/Core/WhereTest.php:135-144 | what `trim` keeps is one contiguous slice `s[a..b]` of its input, and every character it cut before `a` or from `b` on is whitespace |
| App.Create | Core/App/App.php:84-94 | the constructor records the request path as given, with `/` by default |
| App.DropFirst | Core/App/App.php:152 | `substr(uri, 1)`: the string after its first character, or `""` when there is none |
| App.Segments | Core/App/App.php:152 | the segments of the path after its first character, never an empty list |
| App.GetUriParam | Core/App/App.php:150-154 | parameter `n` is segment `n` when `0 <= n` is below the segment count and `""` otherwise; it never contains `/` |
| App.ParamsRebuildPath | Core/App/App.php:152-153 | the parameters `0 .. count-1`, joined with `/`, give back the path after its first character |
| App.DefaultHasNoParams | Core/App/App.php:84 | with the default path `/`, every parameter is `""` |
| App.SingleSegment | Core/App/App.php:152-153 | for a path `/p` where `p` has no `/`, parameter 0 is `p` and every other parameter is `""` |
| App.TwoSegments | Core/App/App.php:152-153 | for a path `/a/b`, parameters 0 and 1 are `a` and `b`, and every other parameter is `""` |

## Left out

- `Core/Where.php` is not part of this model. The builder's behaviour comes from the assertions of `Test/Core/WhereTest.php` and from the builder's documented rendering rules, so branches that neither covers may differ from the real class.
- The real `DataBase` quoting, literal formatting and casting (`Test/Core/WhereTest.php:253-260`) is driver code. It is abstract here: every property holds for every `Db`.
- Error behaviour is not modelled: a BETWEEN value without exactly two bounds, an empty IN list, a LIKE value that is not a string. `Sql` requires `WellFormed` and says nothing about malformed nodes.
- Unknown operators cannot be written, because `Op` is a closed datatype.
- PHP's dynamic typing of `value` is reduced to `Value = Null | Int | Str | List`, and coercion between these is not modelled.
- Only the `integer:` cast prefix is modelled, since `castInteger` is the only cast function the escaper provides. Any other prefix is part of the column name.
- App.GetUriParam: the parameter is modelled as an integer index. A PHP string key such as `"1"` maps to that integer. A non-numeric key is never set, so it reads as `""`, like any index outside `0 .. count-1`.
- App.DropFirst: PHP `substr($uri, 1)` drops one byte. The model's string is a sequence of characters, so for a path whose first character is not ASCII the model drops that whole character where PHP drops only its first byte.
- The rest of `Core/App/App.php` is not modelled: the constructor's request, cookie, language, timezone and logging set-up, `connect`, `close`, `render`, `ipWarning`, `isIPBanned`, `loadPlugins` and `toolBox`. All of it is framework I/O or calls into code outside this file. `Application` keeps only the `uri` field.
