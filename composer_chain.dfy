/**
 * The parameters a chain of query builders binds. Each builder's parsed
 * filters reach the adapter's `createMultiFilter` as where-objects; the
 * parameters of the whole chain are those of each link in chain order, and
 * each link numbers its placeholders after those of the links before it.
 */
module ComposerChain {
  import opened Wrappers
  import opened Values
  import opened SqlAdapter
  import opened SqlWhere
  import opened WhereJoin
  import opened ComposerSpec

  /** A parsed filter as `createMultiFilter` receives it: no alias, no value function, not joined. */
  function AsWhere(f: CFilter): (w: WhereObj)
    ensures w.valueFunction.None? && !w.joined && w.comparator == f.comparator && w.value == f.value
  {
    WhereObj(f.table.GetOr(""), "", f.columnName, f.comparator, f.value, None, [], false, [])
  }

  function AsWhereGroup(g: seq<CFilter>): (r: seq<WhereObj>)
    ensures |r| == |g|
    ensures forall i :: 0 <= i < |g| ==> r[i] == AsWhere(g[i])
  {
    seq(|g|, i requires 0 <= i < |g| => AsWhere(g[i]))
  }

  /** A builder's `_filters` as the adapter's multi-filter input: every group is present. */
  function AsGroups(gs: seq<seq<CFilter>>): (r: seq<Option<seq<WhereObj>>>)
    ensures |r| == |gs|
    ensures forall i :: 0 <= i < |gs| ==> r[i] == Some(AsWhereGroup(gs[i]))
  {
    seq(|gs|, i requires 0 <= i < |gs| => Some(AsWhereGroup(gs[i])))
  }

  /** The values of the filters that take one, in filter order. */
  function FilterValues(g: seq<CFilter>): seq<Val>
  {
    if |g| == 0 then []
    else FilterValues(g[..|g| - 1]) + (if IgnoresValue(g[|g| - 1].comparator) then [] else [g[|g| - 1].value])
  }

  /** The values one builder binds: its groups' values, group after group. */
  function LinkParams(gs: seq<seq<CFilter>>): seq<Val>
  {
    if |gs| == 0 then [] else FilterValues(gs[0]) + LinkParams(gs[1..])
  }

  /** The values a chain of builders binds, link after link. */
  function ChainParams(links: seq<seq<seq<CFilter>>>): seq<Val>
  {
    if |links| == 0 then [] else ChainParams(links[..|links| - 1]) + LinkParams(links[|links| - 1])
  }

  lemma {:induction false} GroupValuesAgree(quote: string, table: string, g: seq<CFilter>)
    ensures GroupParams(ParseWhereObj(quote, table, AsWhereGroup(g))) == FilterValues(g)
  {
    var fs := ParseWhereObj(quote, table, AsWhereGroup(g));
    forall i | 0 <= i < |g|
      ensures fs[i].sanitize && fs[i].ignoreValue == IgnoresValue(g[i].comparator) && fs[i].value == g[i].value
    {
      EntryBinds(quote, table, g[i]);
    }
    ValuesOfBinding(fs, g);
  }

  /** Entries that bind exactly the values of the filters they stand for give those filters' values. */
  lemma {:induction false} ValuesOfBinding(fs: seq<Filter>, g: seq<CFilter>)
    requires |fs| == |g|
    requires forall i :: 0 <= i < |g| ==> fs[i].sanitize && fs[i].ignoreValue == IgnoresValue(g[i].comparator) && fs[i].value == g[i].value
    ensures GroupParams(fs) == FilterValues(g)
  {
    if |g| > 0 {
      ValuesOfBinding(fs[..|fs| - 1], g[..|g| - 1]);
    }
  }

  /** A parsed filter reaches the adapter sanitised, with its value, and ignoring it exactly for an IS-test. */
  lemma {:induction false} EntryBinds(quote: string, table: string, c: CFilter)
    ensures var f := ParseWhere(quote, table, AsWhere(c));
            f.sanitize && f.ignoreValue == IgnoresValue(c.comparator) && f.value == c.value
  {
  }

  /**
   * What `getParamsFromMultiFilter` returns for a builder's filters is the
   * values of its filters that take one, group after group, whatever the
   * quote character and table.
   */
  lemma {:induction false} LinkParamsAgree(quote: string, table: string, gs: seq<seq<CFilter>>)
    ensures GetParams(CreateMultiFilter(quote, table, AsGroups(gs))) == LinkParams(gs)
  {
    if |gs| > 0 {
      var groups := AsGroups(gs);
      assert groups == [Some(AsWhereGroup(gs[0]))] + AsGroups(gs[1..]);
      assert groups[1..] == AsGroups(gs[1..]);
      GroupValuesAgree(quote, table, gs[0]);
      LinkParamsAgree(quote, table, gs[1..]);
    }
  }

  /** `FilterValues` holds exactly the value-taking filters' values. */
  lemma {:induction false} FilterValuesCount(g: seq<CFilter>, v: Val)
    ensures |FilterValues(g)| <= |g|
    ensures v in FilterValues(g) <==> exists i :: 0 <= i < |g| && !IgnoresValue(g[i].comparator) && g[i].value == v
  {
    if |g| > 0 {
      var init := g[..|g| - 1];
      FilterValuesCount(init, v);
      if v in FilterValues(init) {
        var i :| 0 <= i < |init| && !IgnoresValue(init[i].comparator) && init[i].value == v;
        assert g[i] == init[i];
      }
      if exists i :: 0 <= i < |g| && !IgnoresValue(g[i].comparator) && g[i].value == v {
        var i :| 0 <= i < |g| && !IgnoresValue(g[i].comparator) && g[i].value == v;
        if i < |g| - 1 {
          assert init[i] == g[i];
        }
      }
    }
  }

  /**
   * In the chain's parameter list, link `i`'s values sit right after those
   * of the links before it: its placeholders, numbered from that offset,
   * bind exactly its own values.
   */
  lemma {:induction false} ChainParamsAt(links: seq<seq<seq<CFilter>>>, i: nat)
    requires i < |links|
    ensures var at := |ChainParams(links[..i])|;
            at + |LinkParams(links[i])| <= |ChainParams(links)| &&
            ChainParams(links)[at..at + |LinkParams(links[i])|] == LinkParams(links[i])
  {
    var n := |links|;
    if i < n - 1 {
      ChainParamsAt(links[..n - 1], i);
      assert links[..n - 1][..i] == links[..i];
      assert links[..n - 1][i] == links[i];
    } else {
      assert links[..i] == links[..n - 1];
    }
  }

  /** One more link: its values follow those of the links before it. */
  lemma {:induction false} ChainParamsSnoc(links: seq<seq<seq<CFilter>>>, i: nat)
    requires i < |links|
    ensures ChainParams(links[..i + 1]) == ChainParams(links[..i]) + LinkParams(links[i])
  {
    assert links[..i + 1][..i] == links[..i];
  }

  /** What `__prepareQuery__` returns besides the SQL text. */
  datatype Prepared = Prepared(params: seq<Val>, offsets: seq<nat>, grouped: bool, models: bool, columns: seq<string>)
}
