/**
 * What the JOIN and WHERE builders number: how far a join's filters move
 * the offset, which placeholders each clause carries, and where the two
 * clauses of one select query meet.
 */
module JoinParams {
  import opened Strings
  import opened Fragments
  import opened SqlAdapter
  import opened SqlWhere
  import opened AndFacts
  import opened WhereJoin

  /** Entries of a group that take a value but have it inlined as text (function-valued ones). */
  function Inlined(fs: seq<Filter>): nat
  {
    if |fs| == 0 then 0
    else
      var f := fs[|fs| - 1];
      Inlined(fs[..|fs| - 1]) + (if !f.ignoreValue && !f.sanitize then 1 else 0)
  }

  function InlinedAll(multi: seq<seq<Filter>>): nat
  {
    if |multi| == 0 then 0 else InlinedAll(multi[..|multi| - 1]) + Inlined(multi[|multi| - 1])
  }

  lemma {:induction false} NonIgnoredSplit(fs: seq<Filter>)
    ensures NonIgnored(fs) == |GroupParams(fs)| + Inlined(fs)
  {
    if |fs| > 0 {
      NonIgnoredSplit(fs[..|fs| - 1]);
    }
  }

  lemma {:induction false} GetParamsSnoc(multi: seq<seq<Filter>>)
    requires |multi| > 0
    ensures GetParams(multi) == GetParams(multi[..|multi| - 1]) + GroupParams(multi[|multi| - 1])
  {
    var init := multi[..|multi| - 1];
    if |multi| == 1 {
      assert GetParams(multi) == GroupParams(multi[0]) + GetParams(multi[1..]);
      assert multi[1..] == [] && init == [];
    } else {
      var tail := multi[1..];
      GetParamsSnoc(tail);
      assert tail[..|tail| - 1] == init[1..] && tail[|tail| - 1] == multi[|multi| - 1];
      assert init[0] == multi[0];
    }
  }

  /**
   * A join's filters move the offset by one per value they bind plus one
   * per inlined entry, which binds none: each inlined entry leaves a gap in
   * the numbering of the joins after it.
   */
  lemma {:induction false} AdvanceCounts(multi: seq<seq<Filter>>)
    ensures Advance(multi) == |GetParams(multi)| + InlinedAll(multi)
  {
    if |multi| > 0 {
      AdvanceCounts(multi[..|multi| - 1]);
      NonIgnoredSplit(multi[|multi| - 1]);
      GetParamsSnoc(multi);
    }
  }

  /** The statement's literal pieces add no token and no parameter: both come from the filter. */
  lemma {:induction false} StatementOfCounts(quote: string, j: JoinEntry, equalities: seq<string>, filter: Sql)
    ensures VarCount(StatementOf(quote, j, equalities, filter)) == VarCount(filter)
    ensures Placeholders(StatementOf(quote, j, equalities, filter)) == Placeholders(filter)
  {
    var head := T(" LEFT JOIN " + EscapeField(quote, j.joinTable) + " AS " + EscapeField(quote, j.joinAlias) +
                  " ON (" + Join(equalities, " OR "));
    var mid := if |filter| > 0 then T(" AND (") + filter + T(")") else [];
    if |filter| > 0 {
      VarCountAppend(T(" AND (") + filter, T(")"));
      VarCountAppend(T(" AND ("), filter);
      PlaceholdersAppend(T(" AND (") + filter, T(")"));
      PlaceholdersAppend(T(" AND ("), filter);
    } else {
      assert filter == [];
    }
    VarCountAppend(head + mid, T(")"));
    VarCountAppend(head, mid);
    PlaceholdersAppend(head + mid, T(")"));
    PlaceholdersAppend(head, mid);
  }

  /** An OR clause numbers its parameters `$offset+1 … $offset+n`, one per value of the groups. */
  lemma {:induction false} OrParams(quote: string, table: string, multi: seq<seq<Filter>>, offset: nat)
    requires AllCountable(multi)
    ensures VarCount(OrSpec(quote, table, multi, offset)) == 0
    ensures Placeholders(OrSpec(quote, table, multi, offset)) == Range(offset + 1, offset + 1 + |GetParams(multi)|)
  {
    if |multi| > 0 {
      OrBodyTokens(quote, table, multi);
      OrNumbering(quote, table, multi, offset);
    } else {
      assert GetParams(multi) == [];
    }
  }

  /**
   * A join statement carries exactly its filter's parameters: the ON
   * equalities are text only.
   */
  lemma {:induction false} JoinStatementNumbering(quote: string, table: string, j: JoinEntry, offset: nat)
    ensures Placeholders(JoinStatement(quote, table, j, offset)) == Placeholders(OrSpec(quote, j.joinAlias, j.multiFilter, offset))
  {
    StatementOfCounts(quote, j, Pairs(quote, table, j, |j.joinColumns|), OrSpec(quote, j.joinAlias, j.multiFilter, offset));
  }

  /** A filtered join statement's first parameter is `$offset+1`. */
  lemma {:induction false} JoinFirstPlaceholder(quote: string, table: string, j: JoinEntry, offset: nat)
    requires AllCountable(j.multiFilter) && |GetParams(j.multiFilter)| > 0
    ensures |Placeholders(JoinStatement(quote, table, j, offset))| > 0
    ensures Placeholders(JoinStatement(quote, table, j, offset))[0] == offset + 1
  {
    JoinStatementNumbering(quote, table, j, offset);
    OrFirstPlaceholder(quote, j.joinAlias, j.multiFilter, offset);
  }

  lemma {:induction false} OrFirstPlaceholder(quote: string, table: string, multi: seq<seq<Filter>>, offset: nat)
    requires AllCountable(multi) && |GetParams(multi)| > 0
    ensures |Placeholders(OrSpec(quote, table, multi, offset))| > 0
    ensures Placeholders(OrSpec(quote, table, multi, offset))[0] == offset + 1
  {
    OrParams(quote, table, multi, offset);
    var r := Range(offset + 1, offset + 1 + |GetParams(multi)|);
    assert |r| > 0 && r[0] == offset + 1;
  }

  /** A WHERE clause with parameters numbers its first one `$offset+1`. */
  lemma {:induction false} WhereFirstPlaceholder(quote: string, table: string, multi: seq<seq<Filter>>, offset: nat)
    requires AllCountable(multi) && |GetParams(multi)| > 0
    ensures |Placeholders(WhereSpec(quote, table, multi, offset))| > 0
    ensures Placeholders(WhereSpec(quote, table, multi, offset))[0] == offset + 1
  {
    WhereParams(quote, table, multi, offset);
    var r := Range(offset + 1, offset + 1 + |GetParams(multi)|);
    assert |r| > 0 && r[0] == offset + 1;
  }

  /**
   * The select query hands the same offset to the JOIN and the WHERE
   * builders, so a filtered join and a filtered WHERE clause both number
   * their first parameter `$offset+1`.
   */
  lemma {:induction false} JoinWhereCollide(quote: string, table: string, j: JoinEntry, multi: seq<seq<Filter>>, offset: nat)
    requires AllCountable(j.multiFilter) && |GetParams(j.multiFilter)| > 0
    requires AllCountable(multi) && |GetParams(multi)| > 0
    ensures |Placeholders(JoinStatement(quote, table, j, offset))| > 0 && |Placeholders(WhereSpec(quote, table, multi, offset))| > 0
    ensures Placeholders(JoinStatement(quote, table, j, offset))[0] == offset + 1 == Placeholders(WhereSpec(quote, table, multi, offset))[0]
  {
    JoinFirstPlaceholder(quote, table, j, offset);
    WhereFirstPlaceholder(quote, table, multi, offset);
  }
}
