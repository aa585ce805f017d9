# nodal ORM core in Dafny

This project models the query-building and record-keeping core of the
nodal web framework's ORM and router:

- **the neutral SQL adapter** (`SQLAdapter`): type properties and key
  filters, the DDL and DML statement templates, and the WHERE / JOIN /
  ORDER BY / GROUP BY / LIMIT clause compiler, including `__VAR__`
  placeholder numbering and the parameter list it is paired with;
- **the PostgreSQL dialect** (`PostgresAdapter`): column and constraint
  builders, rename and column-type rewrites, sequences, the boolean
  sanitiser, index types and the LIMIT clause;
- **the query builder** (`Composer`): `filter`, `join`, `orderBy`,
  `groupBy`, `limit`, `copy`/`aggregate`, the filter-key parser
  (`__parseFilters__`), the parameter list of a chain and the row
  materialiser `__parseModelsFromRows__`;
- **the model instance** (`Model`): initialisation, `set`/`read`,
  change tracking, errors, validation, loading from storage and the
  column and parameter choice of `save`;
- **the router**: `Route` construction, `parseQueryParameters` and the
  first-match lookup of `Router.find`.

SQL text is modelled as a sequence of fragments (`Fragments.Frag`):
literal text, a `__VAR__` token still to be numbered, or a numbered
`$n` parameter. That makes placeholder numbering and counting statable:
the central results are that a WHERE clause numbers `$offset+1 …
$offset+n` where `n` is the length of the parameter list built for the
same filters (`WhereJoin.WhereParams`), that `generateAndClause` puts
each joined alias's subquery at the position of its first entry
(`AndFacts.AndSpecPieces`), that the JOIN and WHERE clauses of one
select start numbering at the same `$offset+1`
(`JoinParams.JoinWhereCollide`), and that the row materialiser returns
one model per run of rows with the same id (`Rows.ReduceRuns`).

Imperative code is imperative here: `Composer`, `Model` and `Router` are
classes whose methods change their fields, the loops of
`generateAndClause`, `generateOrClause`, `generateJoinClause`,
`parseQueryParameters` and `Router.find` are `while` loops proved against
specification functions, and the pure builders are functions.

JavaScript values are `Values.Val`; a dialect's statement builders, a
filter's `valueFunction`, a type's `convert`, a validator and the regular
expression engine are function-typed parameters.

## Model

| member | source | states |
|---|---|---|
| Strings.IndexOfFrom | core/required/composer/composer.js:612 | the index found is the first occurrence at or after `from`; `None` means no occurrence there |
| Strings.Split | core/required/composer/composer.js:74 | `split` on a non-empty separator yields at least one piece |
| Strings.SplitJoin | core/required/composer/composer.js:74-98 | joining the pieces of a split with the same separator gives back the string |
| Strings.SplitPiecesFree | core/required/composer/composer.js:74 | no piece of a split contains the separator |
| Strings.SplitSingle | core/required/composer/composer.js:74-75 | a string splits into one piece exactly when it holds no separator |
| Strings.SplitLast | core/required/composer/composer.js:263-265 | the earlier pieces re-joined, the separator and the last piece rebuild the string |
| Strings.SplitOfJoin | core/required/composer/composer.js:58 | splitting a join of separator-free pieces gives the pieces back |
| Strings.NatToString | core/required/composer/composer.js:542-543 | the rendering is a non-empty digit string without a leading zero |
| Strings.DigitRun | core/required/composer/composer.js:542-543 | the run is the longest prefix of digits |
| Strings.ParseIntOfIntToString | core/required/composer/composer.js:542-543 | `parseInt(String(n)) == n` for every integer |
| Strings.ParseIntOfDigits | core/required/composer/composer.js:542-543 | an optionally signed digit run reads as its (negated) decimal value |
| Strings.ToLowerAscii | core/required/composer/composer.js:450 | lower-casing keeps the length |
| Strings.LastIndexOf | core/required/router.js:39 | the index is the last occurrence of the character; `None` means it does not occur |
| Values.JoinText | core/required/db/sql_adapter.js:633-638 | `null` and `undefined` join as the empty string, anything else as `String(v)` |
| Values.WrapInt32 | core/required/db/sql_adapter.js:336 | ToInt32 lands in [-2^31, 2^31) and is congruent to its input modulo 2^32 |
| Values.BitOrZero | core/required/db/sql_adapter.js:336 | bitwise-or with 0 gives a signed 32-bit integer |
| Values.BitOrZeroFacts | core/required/db/sql_adapter.js:336-343 | bitwise-or with 0 turns `true` into 1 and `false` into 0 and leaves a 32-bit integer unchanged |
| Values.BitOrZeroOfDecimal | core/required/db/sql_adapter.js:336 | bitwise-or with 0 reads a decimal string back as the number it was written from |
| Values.StringToIntegerOfDecimal | core/required/db/adapters/postgres.js:376 | `Number(String(n)) == n` for every natural number |
| Values.StringToIntegerOfDigits | core/required/db/adapters/postgres.js:376 | a trimmed decimal digit run converts to its decimal value |
| Fragments.T | core/required/db/sql_adapter.js:452 | literal text holds no token and no parameter |
| Fragments.RenderJoin | core/required/db/sql_adapter.js:535 | rendering a fragment join equals joining the rendered parts |
| Fragments.VarCountJoin | core/required/db/sql_adapter.js:535 | the tokens of a join are the sum of the parts' tokens |
| Fragments.PlaceholdersJoin | core/required/db/sql_adapter.js:535 | a join of parameter-free parts is parameter-free |
| Fragments.Range | core/required/db/sql_adapter.js:263 | the range `lo … hi-1` has the right length and elements |
| Fragments.NumberClearsVars | core/required/db/sql_adapter.js:452 | numbering leaves no `__VAR__` token |
| Fragments.NumberAt | core/required/db/sql_adapter.js:452 | the k-th token becomes `$(next + k)`; everything else is unchanged |
| Fragments.NumberPlaceholders | core/required/db/sql_adapter.js:452 | numbering yields the consecutive parameters `$next … $(next + tokens - 1)` |
| Fragments.NumberAppend | core/required/db/sql_adapter.js:452 | numbering a concatenation continues the counter across the boundary |
| Fragments.NumberSnoc | core/required/db/sql_adapter.js:452 | one more fragment: a token becomes the next parameter |
| Fragments.Inline | core/required/db/sql_adapter.js:477 | every token becomes the given text and nothing else changes; no token is left |
| SqlAdapter.EscapeFieldJoin | core/required/db/sql_adapter.js:46-48 | the name between two escape characters equals `['', name, ''].join(quote)` |
| SqlAdapter.EscapeAll | core/required/db/sql_adapter.js:309 | each name is escaped, in order |
| SqlAdapter.Sanitize | core/required/db/sql_adapter.js:39-44 | a type without a sanitiser passes the value through unchanged |
| SqlAdapter.Overlay | core/required/db/sql_adapter.js:58-64 | a listed key takes the caller's value, else the type's; unlisted keys keep the accumulator |
| SqlAdapter.GetTypeProperties | core/required/db/sql_adapter.js:50-68 | every property reads as the caller's value, else the type's own, else the default |
| SqlAdapter.OverlayResolves | core/required/db/sql_adapter.js:654-672 | overlaying all seven keys resolves each key by that priority |
| SqlAdapter.GetTypeDbName | core/required/db/sql_adapter.js:70-73 | an unknown type is `INTEGER`, a known one its `dbName` |
| SqlAdapter.FilterSeq | core/required/db/sql_adapter.js:87-89 | exactly the elements satisfying the predicate are kept |
| SqlAdapter.FilterSeqAppend | core/required/db/sql_adapter.js:87-89 | filtering distributes over concatenation, so it keeps the input order |
| SqlAdapter.FilterSeqSubsequence | core/required/model.js:529-531 | what a filter keeps is a subsequence of its input: the kept elements stay in input order |
| SqlAdapter.FilterSeqTwice | core/required/model.js:535-537 | filtering the filtered list by a second test equals one filter by both tests |
| SqlAdapter.GetAutoIncrementKeys | core/required/db/sql_adapter.js:84-91 | a column is kept iff its resolved `auto_increment` is truthy |
| SqlAdapter.GetPrimaryKeys | core/required/db/sql_adapter.js:93-102 | a column is kept iff its resolved `primary_key` is truthy |
| SqlAdapter.GetUniqueKeys | core/required/db/sql_adapter.js:104-113 | a column is kept iff it is unique and not a primary key |
| SqlAdapter.KeyFiltersKeepOrder | core/required/db/sql_adapter.js:84-113 | the three key filters keep the order of their input |
| SqlAdapter.NonEmpty | core/required/db/sql_adapter.js:142 | the empty sections are dropped and every other section is kept |
| SqlAdapter.CreateTableWithoutKeys | core/required/db/sql_adapter.js:132-146 | without key columns the body is the column list alone, with no stray comma |
| SqlAdapter.NonEmptyBlanks | core/required/db/sql_adapter.js:142 | two blank sections vanish from the comma join |
| SqlAdapter.CreateTableNoColumns | core/required/db/sql_adapter.js:132-146 | a table without columns is `CREATE TABLE "t"()` |
| SqlAdapter.Parenthesised | core/required/db/sql_adapter.js:161 | each query is wrapped in parentheses |
| SqlAdapter.UnionQueryShape | core/required/db/sql_adapter.js:160-162 | one query is parenthesised; two are joined by ` UNION ` |
| SqlAdapter.ParamList | core/required/db/sql_adapter.js:263 | the list binds `$lo … $(lo+n-1)` and leaves no token |
| SqlAdapter.InsertQuery | core/required/db/sql_adapter.js:304-314 | the insert binds `$1 … $n`, one per column |
| SqlAdapter.DeleteQuery | core/required/db/sql_adapter.js:255-267 | the delete binds `$1 … $n`, one per column |
| SqlAdapter.UpdateValues | core/required/db/sql_adapter.js:235-242 | the SET values bind `$lo …` for the plain columns; function columns bind nothing |
| SqlAdapter.UpdateSelector | core/required/db/sql_adapter.js:247-250 | the selector binds `$1` unless a subquery is given |
| SqlAdapter.UpdateHead | core/required/db/sql_adapter.js:245-246 | the column list binds nothing |
| SqlAdapter.UpdateAllQuery | core/required/db/sql_adapter.js:229-253 | the parameters are `$offset+1 …` for the plain columns, then `$1` when no subquery is given |
| SqlAdapter.UpdateQuery | core/required/db/sql_adapter.js:223-227 | the key is bound last as `$1`, the other columns as `$2 … $n` |
| SqlAdapter.Reverse | core/required/db/sql_adapter.js:284 | element `i` of the reversal is element `n-1-i` of the input |
| SqlAdapter.DeleteJoinPieces | core/required/db/sql_adapter.js:284-292 | only the piece of the first join carries the `IN ($1 … $n)` test |
| SqlAdapter.DeleteAllQuery | core/required/db/sql_adapter.js:269-302 | `$1 … $n` are bound once, except that an empty join list binds nothing |
| SqlAdapter.DeleteSubQuery | core/required/db/sql_adapter.js:271-295 | the `IN (…)` operand binds `$1 … $n` unless the join list is empty |
| SqlAdapter.JoinAfterHead | core/required/db/sql_adapter.js:279-293 | a literal head joined with pieces binds only what the last piece binds |
| SqlAdapter.AlterTableQuery | core/required/db/sql_adapter.js:316-349 | it fails exactly when the index (bitwise-or with 0) of `primary_key` (or else `unique`) is outside {0, 1}; with nothing to do it is empty |
| SqlAdapter.CreateIndexQuery | core/required/db/sql_adapter.js:374-380 | a missing index type becomes `btree` |
| SqlAdapter.PlaceholdersJoinSlots | core/required/db/sql_adapter.js:235-242 | parameter slots followed by parameter-free parts bind exactly the slots' range |
| SqlWhere.FindComparator | core/required/db/sql_adapter.js:676-699 | a found comparator has the name; `None` means no listed comparator has it |
| SqlWhere.ComparatorNamed | core/required/db/sql_adapter.js:97 | a comparator found by name carries that name |
| SqlWhere.AllComparatorsListed | core/required/db/sql_adapter.js:676-699 | every comparator is in the table |
| SqlWhere.ComparatorNameRoundTrip | core/required/db/sql_adapter.js:676-699 | every comparator is found under its own name |
| SqlWhere.ComparatorNameInjective | core/required/db/sql_adapter.js:676-699 | no two comparators share a name |
| SqlWhere.Template | core/required/db/sql_adapter.js:676-699 | a template holds no numbered parameter |
| SqlWhere.TemplateTokens | core/required/db/sql_adapter.js:676-708 | a value-taking template has exactly one `__VAR__`; the six IS-tests have none |
| SqlWhere.ParseWhere | core/required/db/sql_adapter.js:392-418 | the reference is the escaped table (the entry's, else the query's) and column; only a plain value is sanitised; `ignoreValue` agrees with the comparator |
| SqlWhere.ParseWhereObj | core/required/db/sql_adapter.js:392-418 | each entry is parsed, in order |
| SqlWhere.CreateMultiFilter | core/required/db/sql_adapter.js:420-428 | every entry of the result is well formed, and no group is added |
| SqlWhere.CreateMultiFilterAppend | core/required/db/sql_adapter.js:420-428 | the groups are processed independently, in order |
| SqlWhere.CreateMultiFilterKeeps | core/required/db/sql_adapter.js:422-426 | a present group is parsed in place and an absent one vanishes |
| SqlWhere.UnnumberedPlaceholders | core/required/db/sql_adapter.js:452 | before numbering, a clause holds no `$n` |
| SqlWhere.UnnumberedJoin | core/required/db/sql_adapter.js:535 | joining unnumbered clauses keeps them unnumbered |
| SqlWhere.ClauseOf | core/required/db/sql_adapter.js:475-477 | an entry's clause holds no numbered parameter |
| SqlWhere.ClauseTokens | core/required/db/sql_adapter.js:475-477 | an entry's clause keeps one token iff its value is sanitised and taken |
| SqlWhere.NoneCountAppend | core/required/db/sql_adapter.js:495 | open slots add up over a concatenation |
| SqlWhere.Collect | core/required/db/sql_adapter.js:469-500 | the loop state keeps one open slot per group, and its index points at the groups |
| SqlWhere.Fill | core/required/db/sql_adapter.js:528-533 | filling keeps one part per slot |
| SqlWhere.StepPiece | core/required/db/sql_adapter.js:508-520 | only the last join step carries the group's clauses and their tokens |
| SqlWhere.SubJoinPieces | core/required/db/sql_adapter.js:508-522 | there is one piece per remaining join step |
| SqlWhere.Subquery | core/required/db/sql_adapter.js:502-526 | a subquery keeps the group's tokens exactly when the group has join steps |
| SqlWhere.Subqueries | core/required/db/sql_adapter.js:502-526 | one subquery per group, in order |
| SqlWhere.AndSpecUnnumbered | core/required/db/sql_adapter.js:456-537 | the AND clause holds no numbered parameter |
| SqlWhere.CollectClauses | core/required/db/sql_adapter.js:469-500 | the loop computes the specified slots, groups and alias index |
| SqlWhere.FillSlots | core/required/db/sql_adapter.js:528-533 | the queue loop fills each open slot with the next subquery |
| SqlWhere.AndClause | core/required/db/sql_adapter.js:456-537 | the method computes the specified AND clause |
| SqlWhere.LiteralAround | core/required/db/sql_adapter.js:509-520 | literal text around a clause adds no token |
| SqlWhere.SumOnlyLast | core/required/db/sql_adapter.js:508-521 | when only the last piece has tokens, the sum is its count |
| SqlWhere.FillUnnumbered | core/required/db/sql_adapter.js:528-533 | filling unnumbered slots gives unnumbered parts |
| AndFacts.AliasSeenSnoc | core/required/db/sql_adapter.js:485-493 | an alias is seen after one more entry iff it was seen or the entry is joined under it |
| AndFacts.AliasClauses | core/required/db/sql_adapter.js:485-491 | an alias's clauses hold no numbered parameter |
| AndFacts.AliasClausesUnseen | core/required/db/sql_adapter.js:485-491 | an unseen alias has no clauses |
| AndFacts.FirstJoined | core/required/db/sql_adapter.js:485-494 | the first entry of an alias exists iff the alias is seen, and it is joined under it |
| AndFacts.GroupOf | core/required/db/sql_adapter.js:485-494 | an alias's group holds no numbered parameter |
| AndFacts.GroupOfSnoc | core/required/db/sql_adapter.js:485-494 | a later entry of a seen alias appends its clause; the first opens the group with its table and joins |
| AndFacts.Aliases | core/required/db/sql_adapter.js:485-494 | the aliases listed are exactly the aliases seen |
| AndFacts.GroupsOf | core/required/db/sql_adapter.js:502-526 | one group per alias, in order |
| AndFacts.CollectTracks | core/required/db/sql_adapter.js:469-500 | the loop index holds exactly the seen aliases, each pointing at its group |
| AndFacts.TracksStep | core/required/db/sql_adapter.js:469-500 | one more entry keeps that correspondence |
| AndFacts.TracksSeen | core/required/db/sql_adapter.js:485 | an entry of a seen alias keeps it |
| AndFacts.TracksNew | core/required/db/sql_adapter.js:487-495 | an entry of a new alias keeps it |
| AndFacts.FillSnoc | core/required/db/sql_adapter.js:528-533 | filling one more slot extends the result by that slot's part |
| AndFacts.CollectShape | core/required/db/sql_adapter.js:469-500 | the open slots are as many as the aliases, and the index keys are the seen aliases |
| AndFacts.SubqueriesOfSnoc | core/required/db/sql_adapter.js:502-526 | one more alias appends its subquery |
| AndFacts.GroupsOfSnoc | core/required/db/sql_adapter.js:502-526 | one more alias appends its group |
| AndFacts.SubqueriesSnoc | core/required/db/sql_adapter.js:502-526 | one more group appends its subquery |
| AndFacts.PiecesFill | core/required/db/sql_adapter.js:469-533 | filling the loop's slots with the subqueries gives the pieces, entry by entry |
| AndFacts.PiecesStep | core/required/db/sql_adapter.js:469-533 | the fill argument extends from the first `n-1` entries to the first `n` |
| AndFacts.PiecesStepPlain | core/required/db/sql_adapter.js:479-481 | a plain entry adds its own clause |
| AndFacts.PiecesStepSeen | core/required/db/sql_adapter.js:485 | a later entry of a seen alias adds nothing |
| AndFacts.PiecesStepNew | core/required/db/sql_adapter.js:487-495 | a new alias adds an open slot filled by its subquery |
| AndFacts.AndSpecPieces | core/required/db/sql_adapter.js:456-537 | the AND clause joins the plain clauses in entry order, with each alias's subquery at its first entry's position |
| AndFacts.PiecesPlain | core/required/db/sql_adapter.js:479-481 | without joined entries the pieces are the entries' clauses, in order |
| AndFacts.SomeTokensAppend | core/required/db/sql_adapter.js:469-500 | the slots' tokens add up over a concatenation |
| AndFacts.GroupTokensAppend | core/required/db/sql_adapter.js:502-526 | the groups' tokens add up over a concatenation |
| AndFacts.GroupTokensUpdate | core/required/db/sql_adapter.js:485 | replacing a group changes the total by the difference of the two groups |
| AndFacts.SumVarCountsSnoc | core/required/db/sql_adapter.js:535 | one more part adds its tokens |
| AndFacts.CollectTokens | core/required/db/sql_adapter.js:469-500 | the tokens in the loop state equal the parameters its entries bind |
| AndFacts.FillTokens | core/required/db/sql_adapter.js:528-533 | filling adds the subqueries' tokens to the slots' |
| AndFacts.SubqueriesTokens | core/required/db/sql_adapter.js:502-526 | the subqueries keep every token of their groups |
| AndFacts.AndTokens | core/required/db/sql_adapter.js:456-537 | the AND clause has one token per sanitised value-taking entry |
| AndFacts.JoinlessEntryBindsNothing | core/required/db/sql_adapter.js:508-523 | a joined entry without join steps binds a value while its clause, and its token, never appear |
| WhereJoin.ClampOffsetParses | core/required/db/sql_adapter.js:444 | the clamp equals `Math.max(0, parseInt(String(v)))`, with NaN read as 0, on every value, and a missing offset is 0 |
| WhereJoin.NoDigits | core/required/db/sql_adapter.js:444 | `parseInt` of `"undefined"` or `"null"` is NaN |
| WhereJoin.ClampIdempotent | core/required/db/sql_adapter.js:577 | clamping a clamped offset changes nothing |
| WhereJoin.NumberTokens | core/required/db/sql_adapter.js:452 | the tokens become `$offset+1 …` in order, and the counter ends advanced by the token count |
| WhereJoin.AndSpecs | core/required/db/sql_adapter.js:450-451 | one AND clause per group |
| WhereJoin.AndSpecsUnnumbered | core/required/db/sql_adapter.js:450-451 | none of the groups' AND clauses is numbered yet |
| WhereJoin.AndSpecsAt | core/required/db/sql_adapter.js:450-451 | group k's AND clause is the k-th, so the groups keep their order |
| WhereJoin.OrBodyUnnumbered | core/required/db/sql_adapter.js:450 | the OR body holds no numbered parameter |
| WhereJoin.OrClause | core/required/db/sql_adapter.js:442-454 | the method computes the specified OR clause at the clamped offset |
| WhereJoin.OrSpecEmpty | core/required/db/sql_adapter.js:446-448 | the OR clause is empty exactly when there are no groups |
| WhereJoin.OrNumbering | core/required/db/sql_adapter.js:442-454 | the OR clause leaves no token, and its parameters run from `$offset+1`, one per token |
| WhereJoin.NumberUnnumbered | core/required/db/sql_adapter.js:452 | numbering an unnumbered clause gives consecutive parameters from `next` |
| WhereJoin.OrText | core/required/db/sql_adapter.js:450 | the OR text is each AND group in parentheses, joined by `) OR (` |
| WhereJoin.WhereClause | core/required/db/sql_adapter.js:430-440 | the method computes the specified WHERE clause at the clamped offset |
| WhereJoin.WhereShape | core/required/db/sql_adapter.js:430-440 | the clause is empty iff there are no groups, else ` WHERE ` before the OR clause |
| WhereJoin.GroupParams | core/required/db/sql_adapter.js:539-543 | a group binds one value per sanitised value-taking entry |
| WhereJoin.GroupParamsFrom | core/required/db/sql_adapter.js:539-543 | every bound value is the value of a sanitised value-taking entry |
| WhereJoin.OrBodyTokens | core/required/db/sql_adapter.js:442-454 | the OR body holds one token per value in the parameter list |
| WhereJoin.AndsTokens | core/required/db/sql_adapter.js:450 | the AND clauses together hold one token per bound value |
| WhereJoin.WhereParams | core/required/db/sql_adapter.js:430-454 | the WHERE clause's parameters are `$offset+1 … $offset+n`, `n` the length of the parameter list for the same groups |
| WhereJoin.WhereNumbering | core/required/db/sql_adapter.js:430-454 | an OR body holding one token per value of a parameter list numbers the WHERE clause `$offset+1` up to `$offset` plus the list's length |
| WhereJoin.ParamOrderFollowsEntries | core/required/db/sql_adapter.js:456-543 | the subquery gathers both entries of an alias ahead of a plain entry between them, while the parameters keep entry order |
| WhereJoin.SubqueryGathersAlias | core/required/db/sql_adapter.js:479-526 | two entries of one alias form a single subquery placed before the plain entry between them |
| WhereJoin.ParamsKeepEntryOrder | core/required/db/sql_adapter.js:539-543 | the parameter list keeps entry order |
| WhereJoin.Row | core/required/db/sql_adapter.js:597-601 | one equality per previous column, in order |
| WhereJoin.PairsAt | core/required/db/sql_adapter.js:595-602 | there are m times as many equalities as previous columns, pair `(i, k)` at position i times the number of previous columns plus k |
| WhereJoin.PairsLength | core/required/db/sql_adapter.js:595-602 | there are m times as many equalities as previous columns |
| WhereJoin.PairsIndex | core/required/db/sql_adapter.js:595-602 | the equality at position i times the number of previous columns plus k is join column `i` against previous column `k` |
| WhereJoin.RowMajorBound | core/required/db/sql_adapter.js:595-602 | a row-major index stays below the total |
| WhereJoin.JoinEqualities | core/required/db/sql_adapter.js:595-602 | the nested loop builds exactly the row-major equalities |
| WhereJoin.StatementStep | core/required/db/sql_adapter.js:610-616 | the statement the loop builds for join `i` is the specified `i`-th statement |
| WhereJoin.StatementIs | core/required/db/sql_adapter.js:610-616 | the assembled pieces form the join statement |
| WhereJoin.JoinStatementsAt | core/required/db/sql_adapter.js:575-620 | statement `i` is numbered from where the earlier joins' filters left the offset |
| WhereJoin.TotalAdvanceSnoc | core/required/db/sql_adapter.js:605-608 | one more join advances the offset by its own filters |
| WhereJoin.JoinStatements | core/required/db/sql_adapter.js:575-620 | one statement per join |
| WhereJoin.AdvanceOffset | core/required/db/sql_adapter.js:605-608 | the offset advances by one per entry that is not an IS-test |
| WhereJoin.JoinStep | core/required/db/sql_adapter.js:586-618 | one pass builds join `i`'s statement and moves the offset past its filters |
| WhereJoin.JoinClause | core/required/db/sql_adapter.js:575-620 | the method computes the specified JOIN clause at the clamped offset |
| JoinParams.NonIgnoredSplit | core/required/db/sql_adapter.js:539-543 | the entries that advance the offset are the bound values plus the inlined entries |
| JoinParams.GetParamsSnoc | core/required/db/sql_adapter.js:539-543 | one more group appends its values |
| JoinParams.AdvanceCounts | core/required/db/sql_adapter.js:605-608 | a join's filters advance the offset by their bound values plus one per inlined entry, which binds nothing |
| JoinParams.StatementOfCounts | core/required/db/sql_adapter.js:610-616 | a join statement's tokens and parameters are its filter's |
| JoinParams.OrParams | core/required/db/sql_adapter.js:442-454 | the OR clause binds `$offset+1 … $offset+n`, one per value of its groups |
| JoinParams.JoinStatementNumbering | core/required/db/sql_adapter.js:610-616 | a join statement carries exactly its filter's parameters |
| JoinParams.JoinFirstPlaceholder | core/required/db/sql_adapter.js:610-616 | a filtered join's first parameter is `$offset+1` |
| JoinParams.OrFirstPlaceholder | core/required/db/sql_adapter.js:442-454 | an OR clause with values numbers its first one `$offset+1` |
| JoinParams.WhereFirstPlaceholder | core/required/db/sql_adapter.js:430-440 | a WHERE clause with values numbers its first one `$offset+1` |
| JoinParams.JoinWhereCollide | core/required/db/sql_adapter.js:203-204 | a filtered join and a filtered WHERE of one select both number their first parameter `$offset+1` |
| SqlClauses.FindAggregate | core/required/db/sql_adapter.js:717-730 | a found aggregate has the name; `None` means no listed aggregate has it |
| SqlClauses.AllAggregatesListed | core/required/db/sql_adapter.js:717-730 | every aggregate is in the table |
| SqlClauses.AggregateByName | core/required/db/sql_adapter.js:717-730 | every aggregate is found under its own key |
| SqlClauses.AggregateNameInjective | core/required/db/sql_adapter.js:717-730 | no two aggregates share a key |
| SqlClauses.AggregateUnknown | core/required/db/sql_adapter.js:642-650 | an unknown key falls back to `none`, which renders every field as `NULL` |
| SqlClauses.AggregateGiven | core/required/db/sql_adapter.js:642-650 | a function argument is returned untouched |
| SqlClauses.FindJoin | core/required/db/sql_adapter.js:553 | a found join carries the alias; `None` means no join has it |
| SqlClauses.OrderColumnPlain | core/required/db/sql_adapter.js:548-563 | a name without `__` is qualified by the table, joins or no joins |
| SqlClauses.OrderColumnNoJoins | core/required/db/sql_adapter.js:548-563 | without a join array exactly the names without `__` survive |
| SqlClauses.OrderColumnJoined | core/required/db/sql_adapter.js:548-563 | with a join array every name resolves, to the table's column or to `alias.column` of a join carrying that alias |
| SqlClauses.EscapedColumns | core/required/db/sql_adapter.js:548-563 | no column is added |
| SqlClauses.EscapedColumnsKeepAll | core/required/db/sql_adapter.js:548-563 | with a join array every name yields its resolved column, in order |
| SqlClauses.OrderTerms | core/required/db/sql_adapter.js:545-573 | at most one term per entry |
| SqlClauses.OrderByEmpty | core/required/db/sql_adapter.js:545-573 | the clause is empty exactly when no entry keeps an escaped column |
| SqlClauses.OrderTermsEmpty | core/required/db/sql_adapter.js:565-569 | no term exactly when no entry keeps an escaped column |
| SqlClauses.OrderTermsAll | core/required/db/sql_adapter.js:545-573 | with a join array and non-empty entries, one term per entry, in order |
| SqlClauses.QualifyAll | core/required/db/sql_adapter.js:625 | each column is qualified by the table, in order |
| SqlClauses.GroupTerms | core/required/db/sql_adapter.js:622-629 | one term per entry, in order |
| SqlClauses.GroupByShape | core/required/db/sql_adapter.js:622-629 | the clause is empty iff there are no entries, else ` GROUP BY ` and the comma-separated terms |
| SqlClauses.BaseLimitShape | core/required/db/sql_adapter.js:631-640 | the clause is empty only without a limit object; it begins ` LIMIT ` with the offset before the count |
| Postgres.PrefixedJoin | core/required/db/adapters/postgres.js:48-57 | each non-empty part preceded by the separator equals the separator before the join of the non-empty parts |
| Postgres.JoinNonEmpty | core/required/db/adapters/postgres.js:48-57 | a non-empty first part, then each non-empty later part after a separator |
| Postgres.Spaced4 | core/required/db/adapters/postgres.js:59-69 | four space-joined parts with the empty ones dropped |
| Postgres.Spaced5 | core/required/db/adapters/postgres.js:48-57 | five space-joined parts with the empty ones dropped |
| Postgres.ColumnShape | core/required/db/adapters/postgres.js:48-57 | the escaped name, the type if any, `ARRAY` exactly for array columns, `NOT NULL` exactly for primary-key or non-nullable columns |
| Postgres.AlterColumnShape | core/required/db/adapters/postgres.js:59-69 | `ALTER COLUMN "c" TYPE`, the type, and `ARRAY` exactly for array columns |
| Postgres.AlterColumnSetNull | core/required/db/adapters/postgres.js:71-80 | `SET NOT NULL` exactly for primary-key or non-nullable columns, else `DROP NOT NULL` |
| Postgres.Constraint | core/required/db/adapters/postgres.js:108-110 | the name is `table_column_suffix`, escaped as one identifier |
| Postgres.ConstraintNamesDistinct | core/required/db/adapters/postgres.js:102-122 | the primary-key, unique, index and sequence names of a column are pairwise different, and so are its key definitions |
| Postgres.RenameConstraints | core/required/db/adapters/postgres.js:135-154 | one constraint rename per key column, in order |
| Postgres.RenameSequences | core/required/db/adapters/postgres.js:155-157 | one sequence rename per auto-increment column, in order |
| Postgres.RenameStatementsCount | core/required/db/adapters/postgres.js:124-160 | one statement per renamed object, the table rename first |
| Postgres.RenamedConstraints | core/required/db/adapters/postgres.js:124-160 | every primary-key, then every unique-key constraint is renamed from the old table's name for it to the new table's |
| Postgres.RenamedSequences | core/required/db/adapters/postgres.js:124-160 | the sequences of the auto-increment columns are renamed last |
| Postgres.AlterTableRenamePlain | core/required/db/adapters/postgres.js:124-160 | without key or auto-increment columns the rename is a single statement |
| Postgres.SectionAt | core/required/db/adapters/postgres.js:124-160 | an index past the head falls in the first, second or third section |
| Postgres.AlterTableColumnTypeSequence | core/required/db/adapters/postgres.js:162-194 | four statements for every column; an auto-increment column also gets its sequence re-created and set as default |
| Postgres.IndexTypeFor | core/required/db/adapters/postgres.js:275-289 | the index type is always a listed one, and it is the requested one exactly when that is listed |
| Postgres.GenerateArrayRoundTrip | core/required/db/adapters/postgres.js:9-13 | the array literal is braced, and splitting between the braces gives back the items' texts when none holds a comma |
| Postgres.SanitizeBoolean | core/required/db/adapters/postgres.js:374-378 | the value is `'f'` at index 0, `'t'` at index 1 and `undefined` at every other index |
| Postgres.SanitizeBooleans | core/required/db/adapters/postgres.js:374-378 | booleans become `'f'`/`'t'`; other types pass through |
| Postgres.PropsOf | core/required/db/sql_adapter.js:50-68 | a column's properties resolve by caller, type, default |
| Postgres.SerialProps | core/required/db/adapters/postgres.js:389-397 | a `serial` column without own properties is a non-nullable, auto-incremented, non-array primary key |
| Postgres.SerialResolves | core/required/db/adapters/postgres.js:389-397 | the serial type's own properties resolve to those four values |
| Postgres.SerialColumn | core/required/db/adapters/postgres.js:389-397 | a `serial` column is a primary, auto-increment column rendered `BIGINT NOT NULL` |
| Postgres.BigintNotNull | core/required/db/adapters/postgres.js:48-57 | a non-array column that must not be null renders as `"c" BIGINT NOT NULL` |
| Postgres.SequenceGroups | core/required/db/adapters/postgres.js:343-362 | one sequence group per auto-increment column, in order |
| Postgres.SequenceSection | core/required/db/adapters/postgres.js:343-362 | no sequence text without auto-increment columns; otherwise each group follows those before it, comma-separated |
| Postgres.JoinLast | core/required/db/adapters/postgres.js:343-362 | a joined list is its earlier parts, a separator when there are any, and its last part |
| Postgres.CreateTableSequences | core/required/db/adapters/postgres.js:343-362 | the neutral CREATE TABLE, `;`, then the auto-increment columns' sequence groups in column order |
| Postgres.LimitClauseNumbers | core/required/db/adapters/postgres.js:364-370 | for numeric count and offset, a zero part is left out and LIMIT precedes OFFSET |
| ComposerSpec.NumMin | core/required/composer/composer.js:545 | `Math.min` is NaN when either side is, else the smaller of the two |
| ComposerSpec.NumMax | core/required/composer/composer.js:545 | `Math.max` is NaN when either side is, else the larger of the two |
| ComposerSpec.NumAdd | core/required/composer/composer.js:546 | `+` is NaN when either side is, else the sum |
| ComposerSpec.ParseIntOfNum | core/required/composer/composer.js:542-543 | `parseInt` of an integer is that integer |
| ComposerSpec.LimitSingleArgument | core/required/composer/composer.js:537-540 | with `count` undefined the single argument is the count and the offset is 0 |
| ComposerSpec.LimitNarrows | core/required/composer/composer.js:535-550 | without a count set the new count is the parsed one clamped at 0; once set it can only be lowered; offsets add up |
| ComposerSpec.LimitExample | core/required/composer/composer.js:535-550 | `limit(5, 10)` then `limit(0, 3)` leave count 3 and offset 5 |
| ComposerSpec.LimitNaN | core/required/composer/composer.js:542-546 | once count and offset are NaN, a further limit whose count does not parse leaves both NaN |
| ComposerSpec.FirstId | core/required/composer/composer.js:416-428 | the index is the first entry ordering by `id`; `None` means there is none |
| ComposerSpec.IdFirstShape | core/required/composer/composer.js:416-428 | after a join the first entry orders by `id` (the first such entry, or a new ascending one), the others follow in their old order |
| ComposerSpec.IdFirstPermutes | core/required/composer/composer.js:416-428 | the new order is a permutation of the old one, plus `id ASC` when it had no `id` entry |
| ComposerSpec.MoveToFront | core/required/composer/composer.js:417-428 | moving an element to the front keeps the multiset |
| ComposerSpec.IdFirstIdempotent | core/required/composer/composer.js:416-428 | a second join leaves the order alone |
| ComposerSpec.DirectionOf | core/required/composer/composer.js:450 | the direction is `ASC` or `DESC` |
| ComposerSpec.DescAnyCase | core/required/composer/composer.js:450 | `desc` in any mix of cases gives `DESC` |
| ComposerSpec.LowerAt | core/required/composer/composer.js:450 | lower-casing changes exactly the ASCII capitals |
| ComposerSpec.AscByDefault | core/required/composer/composer.js:450 | a missing direction, or one that does not lower-case to `desc`, gives `ASC` |
| ComposerSpec.AggregateEntry | core/required/composer/composer.js:40-46 | an entry keeps its column and direction and gains a format; an entry with a format is unchanged |
| ComposerSpec.AggregateEntries | core/required/composer/composer.js:40-46 | each entry is aggregated, in order |
| ComposerSpec.AggregateOrder | core/required/composer/composer.js:36-49 | without grouping the order is unchanged; with grouping every entry keeps its column and has a format |
| ComposerSpec.RelationGroups | core/required/composer/composer.js:474-491 | one single-column entry of the related table per column of the related model |
| ComposerSpec.ParseColumns | core/required/composer/composer.js:256-303 | it succeeds iff every column parses, with one table and one name per column |
| ComposerSpec.SplitPair | core/required/composer/composer.js:263 | `a__b` splits into `a` and `b` |
| ComposerSpec.ParseOwnColumn | core/required/composer/composer.js:256-303 | a column of the model itself parses to itself with no table |
| ComposerSpec.ParseRelatedColumn | core/required/composer/composer.js:256-303 | `rel__column` gives the related table and the column, or the missing-column error |
| ComposerSpec.ParseUnknownRelationship | core/required/composer/composer.js:256-303 | a relationship the model lacks is an error |
| ComposerSpec.GroupBy | core/required/composer/composer.js:493-533 | a successful `groupBy` keeps the earlier entries as a prefix |
| ComposerSpec.GroupByColumnsExist | core/required/composer/composer.js:493-533 | every added entry groups by a column of the model or of one of its relationships |
| ComposerSpec.ParsedColumnExists | core/required/composer/composer.js:256-303 | a parsed column exists in the model or in the relationship whose table it names |
| ComposerSpec.AggregateRefusesOrder | core/required/composer/composer.js:436-438 | after `aggregate()` the `_groupBy` is empty and `orderBy` throws |
| ComposerSpec.AliasInjective | core/required/composer/composer.js:359-362 | two aliases of one join are equal only for the same column |
| ComposerSpec.JoinRecordOf | core/required/composer/composer.js:389-393 | a child relationship joins its `via` to `id`; a parent joins `id` to its `via` |
| ComposerSpec.JoinAliases | core/required/composer/composer.js:398-412 | one alias per column of the joined model, in column order |
| ComposerSpec.AliasEntriesRecord | core/required/composer/composer.js:398-412 | each column's alias is recorded with the column and the joined table |
| ComposerSpec.AliasEntriesKeep | core/required/composer/composer.js:398-412 | every other alias keeps its old entry |
| ComposerSpec.Get | core/required/composer/composer.js:63-69 | a key is missing exactly when no entry has it |
| ComposerSpec.Put | core/required/composer/composer.js:67 | the key reads the new value and every other key is unchanged |
| ComposerSpec.Remove | core/required/composer/composer.js:68 | the key is gone and every other key is unchanged |
| ComposerSpec.RelationKeys | core/required/composer/composer.js:63-64 | only relationship names are listed |
| ComposerSpec.RewriteStep | core/required/composer/composer.js:63-69 | an instance value moves its `id` under the relationship's `via` and the key is deleted; anything else throws |
| ComposerSpec.LastJoined | core/required/composer/composer.js:87 | the relationship comes from an ancestor that joined the name; `None` means none did |
| ComposerSpec.ParseEntries | core/required/composer/composer.js:71-119 | no filter is added |
| ComposerSpec.ParseOwnKey | core/required/composer/composer.js:71-119 | `column__cmp` gives that column and comparator, and a bare `column` gives `is` |
| ComposerSpec.ParseUnknownColumn | core/required/composer/composer.js:101-107 | a key of an unknown column is dropped |
| ComposerSpec.ParseRelatedKey | core/required/composer/composer.js:76-96 | `rel__column__cmp` filters the related table's column, or the joined alias once an ancestor joined the relationship |
| ComposerSpec.ParseRelatedSegments | core/required/composer/composer.js:76-96 | the same for any key that splits into those three segments |
| ComposerSpec.FinishPair | core/required/composer/composer.js:97-113 | a column and a comparator name give that filter |
| ComposerSpec.SplitTriple | core/required/composer/composer.js:74 | `a__b__c` splits into three segments |
| ComposerSpec.ControlKeyDropped | core/required/composer/composer.js:71-119 | the control keys `__order`, `__offset` and `__count` never become filters |
| ComposerSpec.ControlNameFree | core/required/composer/composer.js:57-61 | the control names hold no `__` |
| ComposerSpec.ControlNameNoComparator | core/required/composer/composer.js:97-107 | no comparator is called `order`, `offset` or `count` |
| ComposerSpec.ComparatorInitial | core/required/composer/composer.js:97 | no comparator name starts with `o`, and only `contains` starts with `c` |
| ComposerSpec.OrderBy | core/required/composer/composer.js:434-458 | it throws exactly on an empty `_groupBy`; an unknown field changes nothing; a column appends one entry with the normalised direction |
| ComposerSpec.OffsetDisablesCount | core/required/composer/composer.js:60-61 | with `__offset` present the page is left alone |
| ComposerSpec.ParseFilters | core/required/composer/composer.js:51-121 | a successful parse leaves the page `limit` gives |
| ComposerSpec.ParseFiltersPieces | core/required/composer/composer.js:51-121 | once `__order` applies, the page follows and the relationship rewrite decides the outcome |
| ComposerSpec.ParseFiltersOrderFails | core/required/composer/composer.js:57-58 | an `__order` that cannot be applied stops the parse before anything changes |
| ComposerSpec.ParseAll | core/required/composer/composer.js:339-353 | a successful parse gives one group per filter object |
| ComposerSpec.NonEmptyGroups | core/required/composer/composer.js:351-353 | exactly the non-empty groups survive, in order |
| ComposerChain.AsWhere | core/required/composer/composer.js:168 | a parsed filter reaches the adapter without value function, not joined, with its comparator and value |
| ComposerChain.AsWhereGroup | core/required/composer/composer.js:168 | each filter of a group is handed over, in order |
| ComposerChain.AsGroups | core/required/composer/composer.js:168 | every group of a builder is present in the multi-filter |
| ComposerChain.GroupValuesAgree | core/required/composer/composer.js:168-169 | the adapter's parameters for a group are the values of its value-taking filters |
| ComposerChain.ValuesOfBinding | core/required/db/sql_adapter.js:539-543 | entries that bind exactly their filters' values give those values |
| ComposerChain.EntryBinds | core/required/db/sql_adapter.js:392-418 | a parsed filter is sanitised, keeps its value and ignores it exactly for an IS-test |
| ComposerChain.LinkParamsAgree | core/required/composer/composer.js:168-169 | `getParamsFromMultiFilter` of a builder's filters is the value-taking filters' values, group after group |
| ComposerChain.FilterValuesCount | core/required/composer/composer.js:168-169 | a value is bound iff some value-taking filter carries it |
| ComposerChain.ChainParamsAt | core/required/composer/composer.js:201-214 | link `i`'s values sit right after the values of the links before it |
| ComposerChain.ChainParamsSnoc | core/required/composer/composer.js:201-214 | one more link appends its values |
| QueryBuilder.JoinedMaps | core/required/composer/composer.js:87 | one `_joined` map per builder of the chain, in order |
| QueryBuilder.FiltersOf | core/required/composer/composer.js:201-214 | one `_filters` list per builder of the chain, in order |
| QueryBuilder.Composer.constructor | core/required/composer/composer.js:10-34 | a new builder has no filters, order, grouping or joins, count and offset 0, and selects the last link's columns or the model's |
| QueryBuilder.Composer.Limit | core/required/composer/composer.js:535-550 | the page becomes what `limit` specifies |
| QueryBuilder.Composer.GetJoinedAlias | core/required/composer/composer.js:359-362 | the alias exists iff the builder joined the name; it is `'$$' + joinName + '$' + column` for a child multiple relationship, else `'$' + joinName + '$' + column` |
| QueryBuilder.Composer.SetJoined | core/required/composer/composer.js:364-379 | a known relationship is recorded under its name; an unknown one throws and changes nothing |
| QueryBuilder.Composer.Join | core/required/composer/composer.js:385-432 | the relationship, its join record, every joined column's alias and the `id`-first order are recorded; an unknown name changes nothing |
| QueryBuilder.Composer.SelectJoined | core/required/composer/composer.js:398-412 | each column of the joined model is selected and recorded under its alias |
| QueryBuilder.Composer.IdFirstOrder | core/required/composer/composer.js:416-428 | the order becomes the `id`-first order |
| QueryBuilder.Composer.AggregateOrder | core/required/composer/composer.js:36-49 | the order becomes the aggregated order once the builder groups |
| QueryBuilder.Composer.OrderBy | core/required/composer/composer.js:434-458 | the order becomes what `orderBy` specifies; a refusal changes nothing |
| QueryBuilder.Composer.GroupByRelationship | core/required/composer/composer.js:474-491 | one group per related column is appended and the order is aggregated |
| QueryBuilder.Composer.GroupBy | core/required/composer/composer.js:493-533 | the groups and order become what `groupBy` specifies; an error changes nothing |
| QueryBuilder.Composer.ParseFilters | core/required/composer/composer.js:51-121 | order, page and filters become what `__parseFilters__` specifies |
| QueryBuilder.Composer.ApplyPage | core/required/composer/composer.js:60-61 | the page is limited only when `__count` is given without `__offset` |
| QueryBuilder.Composer.ApplyOrder | core/required/composer/composer.js:57-58 | `__order` is applied through `orderBy`; a failure changes nothing |
| QueryBuilder.Composer.RewriteRelations | core/required/composer/composer.js:63-69 | the rewritten object is the specified relationship rewrite |
| QueryBuilder.Composer.ParseEach | core/required/composer/composer.js:351-353 | the filter objects are parsed in turn, the first error stopping it |
| QueryBuilder.Composer.SetFilters | core/required/composer/composer.js:351-353 | on success the non-empty groups become the filters |
| QueryBuilder.Composer.Filter | core/required/composer/composer.js:339-357 | a filtered builder joins its own chain and a fresh child parses the filters; otherwise the builder parses them itself; joins and columns are unchanged |
| QueryBuilder.Composer.Copy | core/required/composer/composer.js:236-244 | the copy has the same state |
| QueryBuilder.Composer.Aggregate | core/required/composer/composer.js:246-254 | the copy groups by nothing and has no order, everything else equal |
| QueryBuilder.Composer.ToSqlParams | core/required/composer/composer.js:168-169 | a link binds its filters' values |
| QueryBuilder.Composer.PrepareQuery | core/required/composer/composer.js:189-222 | the parameters are the links' values in chain order, each link numbered from the count before it; the query is grouped iff some link groups, and then returns no models |
| QueryBuilder.Composer.ParseModelsFromRows | core/required/composer/composer.js:589-727 | the result is the specified reduction of the rows |
| QueryBuilder.AnyGrouped | core/required/composer/composer.js:197 | true iff some builder of the chain groups |
| QueryBuilder.ParseAllStep | core/required/composer/composer.js:351-353 | one more filter object continues from the order and page the earlier ones left |
| QueryBuilder.ParseAllStops | core/required/composer/composer.js:351-353 | once parsing fails on a prefix it fails the same way on the whole list |
| QueryBuilder.ParseAllErrLast | core/required/composer/composer.js:351-353 | a failed prefix makes the whole list fail the same way |
| QueryBuilder.AliasParses | core/required/composer/composer.js:606-625 | the alias `join` selects parses back to that join and column, and is a multiple key exactly for a multiple child |
| Rows.ParseKey | core/required/composer/composer.js:606-631 | an entry records its kind and a join name free of `$` |
| Rows.OccursAtChar | core/required/composer/composer.js:612 | a one-character search finds exactly that character |
| Rows.Lookup | core/required/composer/composer.js:634-637 | exactly the `$` keys with a second `$` have an entry, each what its key parses to |
| Rows.KeyRoundTrip | core/required/composer/composer.js:606-631 | every parsed key is rebuilt from its entry |
| Rows.KeyForParses | core/required/composer/composer.js:606-631 | a key built from a `$`-free join name parses back to that join and column |
| Rows.InitSkeleton | core/required/composer/composer.js:640-653 | the skeleton holds one data object per join with one slot per column |
| Rows.Assign | core/required/composer/composer.js:660-669 | assigning keeps the skeleton's joins and slots |
| Rows.AssignWritesKey | core/required/composer/composer.js:660-669 | every key of the kind assigned writes the row's value into its own slot |
| Rows.AssignKeepsSlot | core/required/composer/composer.js:660-669 | a slot no key of that kind points at keeps its value |
| Rows.AssignWholeJoin | core/required/composer/composer.js:660-669 | a join all of whose keys are of that kind takes all its data from the row |
| Rows.RawObj | core/required/composer/composer.js:674 | a fresh result row holds exactly the row's columns |
| Rows.PushAll | core/required/composer/composer.js:700-713 | every multiple join's array gets one more model from the skeleton, other fields unchanged; it throws iff some existing field cannot be pushed onto |
| Rows.Step | core/required/composer/composer.js:671-717 | one row keeps the skeleton shaped and adds a result row exactly when it starts a record |
| Rows.ReduceStops | core/required/composer/composer.js:671-717 | once the reduce throws on a prefix it throws the same on the whole list |
| Rows.StepStartsRecord | core/required/composer/composer.js:676-696 | a starting row appends one result row with its own columns, one model per singular join and a one-model array per multiple join, built from this row |
| Rows.NewRecordColumns | core/required/composer/composer.js:674 | a new record keeps the row's own columns |
| Rows.NewRecordSingles | core/required/composer/composer.js:684-692 | a new record holds one model per singular join, built from its row |
| Rows.NewRecordMultiples | core/required/composer/composer.js:700-713 | a new record holds a one-model array per multiple join, built from its row |
| Rows.NewRecordMultiple | core/required/composer/composer.js:700-713 | the same for one multiple join |
| Rows.Started | core/required/composer/composer.js:684-694 | the started row holds the row's columns and one model per singular join |
| Rows.StepStarts | core/required/composer/composer.js:676-713 | a starting row assigns both kinds of keys, builds the singular models and pushes the multiple ones |
| Rows.StepJoinsRecord | core/required/composer/composer.js:700-713 | a row of the current record adds no result row; each multiple join's array gets one more model from this row, the rest is unchanged |
| Rows.Heads | core/required/composer/composer.js:676 | the rows that start a record are a non-empty list of row indices for non-empty input |
| Rows.ReduceRuns | core/required/composer/composer.js:671-717 | one result row per record start, the last matched on the `id` of the row that started it |
| Rows.ReduceSnoc | core/required/composer/composer.js:671 | the reduce is one step after the reduce of the earlier rows |
| Rows.LastHead | core/required/composer/composer.js:676 | the last record is matched on a row of the list |
| Rows.RunsGlue | core/required/composer/composer.js:671-717 | one more row moves the record count and matched `id` as `Heads` does |
| Rows.HeadsSnoc | core/required/composer/composer.js:676 | one more row continues the last record or starts one at its own index |
| Rows.RunsStep | core/required/composer/composer.js:676-696 | one row adds a result row iff its `id` differs from the current record's, and the new one is matched on its own `id` |
| Rows.StepJoins | core/required/composer/composer.js:700-713 | a row of the current record assigns the multiple keys and pushes onto the current record |
| Rows.PushedId | core/required/composer/composer.js:705-706 | pushing keeps the matched `id` unless a multiple join is named `id` |
| Rows.NewRecordId | core/required/composer/composer.js:694 | a new record is matched on its row's `id` unless a join is named `id` |
| Rows.NoJoinStep | core/required/composer/composer.js:671-717 | without `$` columns a starting row becomes a result row as it is and a continuing row changes nothing |
| Rows.RawObjId | core/required/composer/composer.js:676 | a raw row is matched on its own `id` |
| Rows.NoJoins | core/required/composer/composer.js:671-717 | a query without joins returns one result row per run of equal ids, the run's first row |
| Rows.ReduceSnocOk | core/required/composer/composer.js:671 | when the prefix reduces, the reduce is one more step |
| Rows.NoJoinsGlue | core/required/composer/composer.js:671-717 | the induction step of the join-free case |
| Rows.NonAdjacentIdsStaySeparate | core/required/composer/composer.js:676 | ids 1, 2, 1 make three records: only adjacent rows merge |
| Rows.AdjacentHeads | core/required/composer/composer.js:676 | two rows with different ids start a record each |
| Rows.AdjacentIdsMerge | core/required/composer/composer.js:676 | two adjacent rows with id 1 make one record |
| Rows.NoJoinHeads | core/required/composer/composer.js:676 | without joins a row starts a record exactly when its id differs from that of the current record's first row |
| Rows.ParseWithoutJoins | core/required/composer/composer.js:598-637 | rows with only an `id` column are reduced with the empty lookup |
| Rows.OnlyIdKey | core/required/composer/composer.js:602-637 | a plain `id` column gives no lookup entry |
| Records.FieldData | core/required/model.js:172-176 | a field is found exactly when some column has that name, and the column found carries the name |
| Records.IsFieldArray | core/required/model.js:462-465 | an unknown field is never an array field |
| Records.IsFieldPrimaryKey | core/required/model.js:467-470 | an unknown field is never a primary key |
| Records.FieldDefaultValue | core/required/model.js:472-475 | reads the array flag, so it always agrees with `isFieldArray` |
| Records.RelationshipOf | core/required/model.js:312-313 | a relationship found is one of the model's and carries the name; none found means no relationship has the name |
| Records.WithError | core/required/model.js:485-489 | the message is appended to the key's list, created when missing; every other key keeps its entry |
| Records.WithoutError | core/required/model.js:491-494 | the key is gone and every other key keeps its entry |
| Records.WithErrorsAppends | core/required/model.js:485-489 | several messages for one key are appended in order to that key alone |
| Records.HasErrorsIffSomeKey | core/required/model.js:236-240 | the instance has errors exactly when the error map has a key |
| Records.ErrorObjectOf | core/required/model.js:218-234 | no error object without errors; otherwise the details are the error map and the message is the `_query` messages joined by commas, or the default message |
| Records.FailuresSnoc | core/required/model.js:257-268 | one more rule adds its message exactly when it rejects the value |
| Records.RecordFailuresSnoc | core/required/model.js:269-274 | one more `'*'` rule adds its message exactly when it rejects the whole data map |
| Records.CheckFieldsNext | core/required/model.js:257-268 | checking one more field records exactly that field's failures, leaves every other key as before, and adds its failure to the verdict |
| Records.CheckFieldsRecords | core/required/model.js:257-268 | each checked field ends up holding exactly its own failures |
| Records.CheckFieldsKeeps | core/required/model.js:257-268 | keys that are not checked keep their entries |
| Records.CheckFieldsInvalid | core/required/model.js:257-268 | the per-field verdict is invalid exactly when some checked field fails a rule |
| Records.CheckFieldsEffect | core/required/model.js:257-268 | the three facts above together |
| Records.ValidationEffect | core/required/model.js:251-276 | after validation each listed field holds exactly its failures, `'*'` holds the record rules' failures, every other key is untouched, and the verdict is whether anything failed |
| Records.Initial | core/required/model.js:163-194 | a fresh instance is not stored, has every field null and unchanged and no cached relationship |
| Records.InitialErrors | core/required/model.js:163-194 | a fresh instance starts with the errors its rules give on null fields and on the all-null data, and no others |
| Records.ConvertAll | core/required/model.js:333-342 | every element of an array value is converted, into a new array of the same length |
| Records.Converted | core/required/model.js:333-342 | null stays null; an array column always gets an array, with one element for a non-array value |
| Records.Replacement | core/required/model.js:344-357 | a new value is stored unless it is strictly equal to the current one; two arrays count as equal when no element of the new one differs from the current element at its index |
| Records.PrefixArrayIsNoChange | core/required/model.js:344-357 | setting an array that repeats a prefix of the stored array stores nothing |
| Records.ArrayWithObjectIsChange | core/required/model.js:344-357 | an array holding an object is always stored as a change |
| Records.SetFieldStep | core/required/model.js:321-362 | an unknown field throws and changes nothing; otherwise the converted value is stored as Replacement says, the flag records whether logging was on and something was stored, and the data keeps one key per field |
| Records.SetStep | core/required/model.js:310-364 | a relationship name demands an instance of the related model, caches it and sets its `via` field to the instance id; anything else throws; a plain field behaves as SetFieldStep |
| Records.SetFieldTouchesOneField | core/required/model.js:321-362 | setting a field changes no other field's value or flag |
| Records.SetTouchesOneField | core/required/model.js:310-364 | `set` changes the value and flag of its target field at most |
| Records.LoadKeys | core/required/model.js:287-289 | the keys loaded are exactly the fields and relationship names the data owns |
| Records.Owned | core/required/model.js:287-289 | keeps exactly the keys the data owns |
| Records.SetAllNext | core/required/model.js:287-293 | loading one more key is one more `set` on the state the earlier keys left |
| Records.SetAllStops | core/required/model.js:287-293 | once a key throws, later keys change nothing |
| Records.LoadStep | core/required/model.js:278-297 | the instance records whether it came from storage, keeps one data key per field, and a new instance of a model without `created_at` throws |
| Records.ReadStep | core/required/model.js:299-308 | reading keeps the storage mark and one data key per field |
| Records.SetAllQuietly | core/required/model.js:287-293 | setting without validation or logging never throws, keeps the errors, leaves every visited flag false and other fields as they were |
| Records.LoadFromStorage | core/required/model.js:280-292 | loading a stored row without relationships clears the errors, throws nothing, and leaves every loaded field unmarked |
| Records.StoredInstanceUnchanged | core/required/model.js:141-153 | an instance built from a stored row without relationships has no errors and no change marked |
| Records.StoredRelationshipMarksVia | core/required/model.js:312-318 | a stored row naming a relationship marks its `via` field changed |
| Records.InsertColumns | core/required/model.js:527-531 | an INSERT names exactly the non-key fields whose value is not null, in `fieldList()` order |
| Records.ChangedFieldsOf | core/required/model.js:211-216 | the changed fields are exactly the fields whose flag is set, in field order |
| Records.UpdateColumns | core/required/model.js:535-539 | an UPDATE names `id` first, then exactly the changed non-key fields: the field list filtered once by both tests, in field order |
| Records.SaveParams | core/required/model.js:547-549 | one parameter per column, and a column that is no field throws |
| Records.InsertPlan | core/required/model.js:527-533 | the INSERT names the insert columns, binds one parameter per column as `$1` onwards, and fails only on a column that is no field |
| Records.UpdatePlan | core/required/model.js:535-541 | the UPDATE names the update columns, binds `id` to `$1`, one parameter per column, and fails exactly when the model has no `id` field |
| Records.SaveStep | core/required/model.js:496-543 | a read-only model throws; errors are reported instead of saving; otherwise a new instance is inserted and a stored one updated |
| Records.Model.constructor | core/required/model.js:163-194 | the new instance's state is the initial store |
| Records.Model.SetError | core/required/model.js:485-489 | the error map becomes WithError of the old one |
| Records.Model.ClearError | core/required/model.js:491-494 | the error map becomes WithoutError of the old one |
| Records.Model.GetErrors | core/required/model.js:242-249 | returns a copy equal to the error map |
| Records.Model.ErrorObject | core/required/model.js:218-234 | no error object exactly when the error map is empty; otherwise its details are the error map |
| Records.Model.ChangedFields | core/required/model.js:211-216 | exactly the fields whose flag is set |
| Records.Model.HasChanged | core/required/model.js:207-209 | with a field, whether its flag is set; without one, whether any field's flag is set |
| Records.Model.CheckField | core/required/model.js:257-268 | the field's errors are cleared and replaced by its failures; answers whether there were any |
| Records.Model.CheckRecord | core/required/model.js:269-274 | the `'*'` failures are appended; answers whether there were any |
| Records.Model.Validate | core/required/model.js:251-276 | the errors and verdict left are those of Validation, so ValidationEffect describes them |
| Records.Model.SetField | core/required/model.js:321-362 | the new state and result are those of SetFieldStep |
| Records.Model.Set | core/required/model.js:310-364 | the new state and result are those of SetStep |
| Records.Model.SetEach | core/required/model.js:287-293 | the new state and outcome are those of SetAll over the keys |
| Records.Model.Load | core/required/model.js:278-297 | the new state and outcome are those of LoadStep |
| Records.Model.Read | core/required/model.js:299-308 | the new state and outcome are those of ReadStep |
| Routing.LineStartIsLast | core/required/router.js:39 | the last line of a key starts right after its last line terminator, and contains none |
| Routing.LastOpenIsLast | core/required/router.js:39 | the greedy first group ends at the last `[` of the range, or there is no `[` in it |
| Routing.SplitKeyIsRegexMatch | core/required/router.js:39 | a key splits into name and sub-key exactly when the pattern `(.*)\[(.*)\]$` matches it, and the parts are the groups of the leftmost, greedy match |
| Routing.Wrapped | core/required/router.js:50 | a single value becomes a one-element array; an array stays as it is |
| Routing.AssignSub | core/required/router.js:44-46 | a missing or empty entry becomes a new object holding the sub-key; an object gains the property; an array gains it as a named property (see Left out); a non-empty string ignores the write |
| Routing.Apply | core/required/router.js:39-57 | one key adds its target key to the result and leaves every other key alone |
| Routing.QueryParamsNext | core/required/router.js:34-60 | one more query key applies the loop body to the object the earlier keys built |
| Routing.ParseQueryParameters | core/required/router.js:30-64 | the object built is that of QueryParams over the query's keys in order |
| Routing.TargetedSnoc | core/required/router.js:34-60 | a key is written by a list of entries exactly when it is written by all but the last, or by the last |
| Routing.QueryParamsKeys | core/required/router.js:34-60 | the result has exactly the keys some entry writes |
| Routing.LaterEntriesKeep | core/required/router.js:34-60 | entries that write other keys leave a key as it was |
| Routing.PlainKeyLastWins | core/required/router.js:57 | a plain key written last holds its value unchanged |
| Routing.ArrayKeyWraps | core/required/router.js:50-52 | a `name[]` key written last stores its value as an array |
| Routing.SubWrittenSnoc | core/required/router.js:44-46 | a `name[sub]` key is in a list exactly when it is in all but the last, or is the last |
| Routing.SubWrittenTargets | core/required/router.js:44-46 | a `name[sub]` key writes `name` |
| Routing.OnlySubKeysInit | core/required/router.js:44-46 | when only sub-keys write `name`, the same holds for every prefix |
| Routing.SubKeysCollect | core/required/router.js:44-46 | when only sub-keys write `name`, it holds an object whose properties are exactly those sub-keys |
| Routing.WritesSubInit | core/required/router.js:44-46 | whether an earlier entry is `name[sub]` does not depend on later entries |
| Routing.SubKeyLastWins | core/required/router.js:44-46 | the property `sub` of `name` holds the value of the last `name[sub]` key |
| Routing.NewRoute | core/required/router.js:10-23 | a pattern that is neither string nor RegExp throws first, then a controller that is not a Controller; otherwise a string is compiled and a RegExp kept |
| Routing.FirstMatchIsFirst | core/required/router.js:104-112 | nothing is found exactly when no route matches; otherwise the route found is the first that matches |
| Routing.Router.constructor | core/required/router.js:72-79 | a new router has no routes |
| Routing.Router.AddRoute | core/required/router.js:100-102 | a route that builds is appended; one that throws leaves the routes alone |
| Routing.Router.Find | core/required/router.js:104-112 | returns null exactly when no route matches, otherwise the first route that matches |
| Records.SetAll | core/required/model.js:287-293 | a run of `set` calls keeps the storage mark and one data key per field |

## Left out

- QueryBuilder.Composer.Copy: the copy is a value, so it does not capture that `copy()` shares with the original every non-array field, in particular the `_joined` and `_joinedAlias` objects and the `_orderBy` entry objects (composer.js:42-44, 240, 377); a later `join` on either builder is seen by both in JavaScript and not in the model.
- QueryBuilder.Composer.Aggregate: built on `Copy`, so the same sharing of `_joined`, `_joinedAlias` and the order entries is not captured.
- QueryBuilder.Composer.AggregateOrder: the order entries are values; the in-place update of a shared entry object that another builder still holds is not captured.
- QueryBuilder.Composer.RewriteRelations: returns a new filter object; `__parseFilters__` rewrites and deletes keys of the caller's own filter object (composer.js:64-69), and that change to the caller's object is not captured.
- Fragments.Inline: `replace(/__VAR__/gi, value)` with a string replacement expands `$&`, `$$`, `` $` `` and `$'` in the value; the model inserts the value literally, so it matches JavaScript only for values without `$`.
- SqlWhere.ClauseOf: an inlined value (a `valueFunction` result) and every escaped identifier (table, alias, column, and the `refName` of an inlined entry) are literal fragments, so a `__VAR__` written inside that text is not numbered later, whereas JavaScript's global `replace` numbers every `__VAR__` in the whole OR text (sql_adapter.js:452) and the inlined-entry `replace(/__VAR__/gi, …)` at sql_adapter.js:477 also matches it case-insensitively in `refName`.
- WhereJoin.OrClause: the same gaps as SqlWhere.ClauseOf and Fragments.Inline; AndFacts.AndTokens and WhereJoin.WhereParams hold only for inlined text and identifiers (table, alias, column and `refName`) that contain neither `$` nor `__VAR__` in any letter case.
- Rows.Existing: a join field that already holds a truthy raw value throws in the model; when that value is a JavaScript array, composer.js:705-706 pushes onto it instead.
- Values.Val: numbers are integers; fractions, exponent forms and the rendering of large numbers such as `1e+21` are not modelled.
- Values.StringToInteger: reads only integral decimal and `0x` literals; a fractional or exponent literal gives `None`, where JavaScript gives a number.
- Values.ToStr: renders every integer as its decimal digits; JavaScript renders 10^21 and above as `1e+21` and so on, so `limit` and the offset clamp read such a number back as 1, which the model does not capture.
- Postgres.SanitizeBoolean: a string such as `"1.5"` is read as not a number, so it becomes `f` where JavaScript gives `t`.
- Values.BitOrZero: defined on the integer values only, so the truncation of a fraction by `|0` is not modelled.
- ComposerSpec.ParseIntOf: `parseInt` of a fractional value is modelled on its integral reading only.
- WhereJoin.ClampOffset: inherits the integer-only reading of `parseInt`.
- The SQL text of `__prepareQuery__` (composer.js), its summary and aggregate branches, `__toSQL__`, `__prepareAggregateBy__` and `__prepareColumns__`: only the parameter lists and the filter, join, order and limit state they read are modelled.
- `transform`, `stransform`, `update`, `end`, `summarize` and `__query__` of `Composer`: database I/O and callbacks.
- `getFunctionParameters`: the parameter names of a `valueFunction` are given as data (`FnArg`) instead of being parsed from the function's text.
- The sort in `createMultiFilter`: its comparator always answers 0, so the order is unchanged; it is modelled as the identity.
- `__parseModelsFromRows__`: the timing log and the `ModelArray` construction; models are values built from their data; a lookup built from a key without a second `$` is modelled as an error (`Rows.LookupFails`).
- The in-place rewrite of order entries by `generateOrderByClause` (the `escapedColumns` it stores) is not captured; the clause text is.
- `generateSelectQuery` and `generateCountQuery` (sql_adapter.js): modelled only as far as the JOIN and WHERE parameter numbering they combine (JoinParams.JoinWhereCollide).
- `generateColumnsStatement`, `generatePrimaryKeysStatement` and `generateUniqueKeysStatement` (SqlAdapter.ColumnsStatement, PrimaryKeysStatement, UniqueKeysStatement): their text carries no contract; what is proved is about the key lists they are built from (SqlAdapter.GetPrimaryKeys, GetUniqueKeys, KeyFiltersKeepOrder) and about how CREATE TABLE drops an empty one (SqlAdapter.CreateTableWithoutKeys).
- Drop-column, rename-column and drop-index queries: string templates without parameters.
- `preprocessWhereObj`: the identity in the neutral adapter (sql_adapter.js:388-390).
- The abstract methods at the top of `SQLAdapter` (sql_adapter.js:5-37): they only throw or return nothing.
- The PostgreSQL connection string and the clear, create and drop database queries (postgres.js:15-46): pure string builders used only when connecting or managing databases, outside the query-building core modelled here.
- The `adapter.js` base class is not part of this model.
- `Model`'s static methods (`find`, `create`, `update`, `destroy`, `query`, `columns`, `relationship`, `toResource`), the instance `relationship`, `toObject` and `destroy`: database I/O and serialisation.
- `save`: the `db instanceof Database` check and the query callback are left out; the model stops at the statement and its parameters.
- `DataTypes[type].convert` is a parameter; a `convert` that throws is not modelled.
- `new Date()` in `__load__` is the parameter `now`.
- `validates`: the rules a model registers are fixed in its `Schema`, in registration order.
- ComposerSpec.DirectionOf: `{'asc': 'ASC', 'desc': 'DESC'}[(direction + '').toLowerCase()]` (composer.js:450) is a plain-object lookup, so a direction that lower-cases to `constructor` or `__proto__`, the two all-lower-case `Object.prototype` members, stores the inherited value (the `Object` function or `Object.prototype`) as the order entry's direction; the model gives `ASC`, so "`ASC` or `DESC`" holds only for other directions. Mixed-case names such as `valueOf` lower-case to no inherited member and give `ASC` in both. ComposerSpec.OrderBy and QueryBuilder.Composer.OrderBy inherit this gap.
- ComposerSpec.AscByDefault: a direction that does not lower-case to `desc` gives `ASC` only when it also lower-cases to neither `constructor` nor `__proto__`; the two inherited names are the gap ComposerSpec.DirectionOf names.
- ComposerSpec.ParseEntry: `comparators[comparator]` (composer.js:105) is a plain-object lookup in the table at sql_adapter.js:676, so a comparator segment naming an inherited `Object.prototype` member (`constructor`, `toString`, `toLocaleString`, `valueOf`, `hasOwnProperty`, `isPrototypeOf`, `propertyIsEnumerable`) passes the test and JavaScript keeps a filter with that comparator; the model knows only the listed comparators and drops the key. ComposerSpec.ParseEntries and ComposerSpec.ParseFilters inherit this gap.
- ComposerSpec.ParseOwnKey: speaks only of listed comparators; a key such as `x__constructor` is dropped in the model but survives as a filter in JavaScript, as ComposerSpec.ParseEntry's line says.
- Keys named after `Object.prototype` members (`__proto__`, `constructor`) in data, errors and query objects are not modelled (for the direction and comparator tables see the ComposerSpec.DirectionOf and ComposerSpec.ParseEntry lines); when two columns share a name the last one wins, as `_fieldLookup` does.
- The regular expression engine: `RegExp.exec` is the parameter `Regex.exec`, and a `SyntaxError` thrown by `new RegExp` on a bad pattern string is not modelled.
- `Route.prototype.execute`, `Router.prototype.execute`, the 404 response, the HTTP server, `bindApplication`, `bindSocket` and the WebSocket proxy: I/O.
- Routing.AssignSub: when the entry already holds an array (from a `name[]` key or a repeated plain key), JavaScript's `obj[name][sub] = value` (router.js:45) treats an index sub-key as an element write and `length` as a resize, and a `length` that is not a valid array length throws `RangeError`; the model keeps the elements and records every such sub-key as a named property, so `?a[]=1&a[0]=2` gives `['1']` with property `0` where JavaScript gives `['2']`, and no query throws. Routing.Apply and Routing.ParseQueryParameters inherit this gap.
- `parseQueryParameters` stores the query's own arrays, so the result aliases them; the model copies values.
- `Object.keys` lists integer-like keys first in ascending order; the model takes the keys in the order given.
