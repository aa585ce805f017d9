/**
 * What `generateAndClause` produces, stated without its loop: a reference
 * definition entry by entry, and the number of `__VAR__` tokens it leaves.
 */
module AndFacts {
  import opened Wrappers
  import opened Fragments
  import opened SqlWhere

  /** Some entry of `fs` is joined under alias `a`. */
  predicate AliasSeen(fs: seq<Filter>, a: string)
  {
    exists i :: 0 <= i < |fs| && fs[i].joined && fs[i].alias == a
  }

  lemma {:induction false} AliasSeenSnoc(fs: seq<Filter>, x: Filter, a: string)
    ensures AliasSeen(fs + [x], a) <==> AliasSeen(fs, a) || (x.joined && x.alias == a)
  {
    if AliasSeen(fs, a) {
      var i :| 0 <= i < |fs| && fs[i].joined && fs[i].alias == a;
      assert (fs + [x])[i] == fs[i];
    }
    if x.joined && x.alias == a {
      assert (fs + [x])[|fs|] == x;
    }
    if AliasSeen(fs + [x], a) {
      var i :| 0 <= i < |fs + [x]| && (fs + [x])[i].joined && (fs + [x])[i].alias == a;
      if i < |fs| {
        assert fs[i] == (fs + [x])[i];
      }
    }
  }

  /** The clauses of the entries joined under alias `a`, in entry order. */
  function AliasClauses(fs: seq<Filter>, a: string): (r: seq<Sql>)
    ensures forall i :: 0 <= i < |r| ==> Unnumbered(r[i])
  {
    if |fs| == 0 then []
    else
      var x := fs[|fs| - 1];
      AliasClauses(fs[..|fs| - 1], a) + (if x.joined && x.alias == a then [ClauseOf(x)] else [])
  }

  lemma {:induction false} AliasClausesUnseen(fs: seq<Filter>, a: string)
    requires !AliasSeen(fs, a)
    ensures AliasClauses(fs, a) == []
  {
    if |fs| > 0 {
      var init := fs[..|fs| - 1];
      assert fs == init + [fs[|fs| - 1]];
      AliasSeenSnoc(init, fs[|fs| - 1], a);
      AliasClausesUnseen(init, a);
    }
  }

  /** The first entry of `fs` joined under alias `a`. */
  function FirstJoined(fs: seq<Filter>, a: string): (r: Option<Filter>)
    ensures r.Some? <==> AliasSeen(fs, a)
    ensures r.Some? ==> r.value.joined && r.value.alias == a && r.value in fs
  {
    if |fs| == 0 then None
    else
      var init := fs[..|fs| - 1];
      var x := fs[|fs| - 1];
      assert fs == init + [x];
      AliasSeenSnoc(init, x, a);
      match FirstJoined(init, a)
      case Some(f) => Some(f)
      case None => if x.joined && x.alias == a then Some(x) else None
  }

  /**
   * The group `generateAndClause` gathers for alias `a`: the table and the
   * join steps of the alias's first entry, and the clauses of all its entries.
   */
  function GroupOf(fs: seq<Filter>, a: string): (g: Group)
    ensures GroupUnnumbered(g)
  {
    match FirstJoined(fs, a)
    case Some(f) => Group(f.table, f.joins, AliasClauses(fs, a))
    case None => Group("", [], [])
  }

  /** How `GroupOf` changes when one entry is added. */
  lemma {:induction false} GroupOfSnoc(fs: seq<Filter>, x: Filter, a: string)
    ensures GroupOf(fs + [x], a) ==
      if x.joined && x.alias == a then
        (if AliasSeen(fs, a) then GroupOf(fs, a).(clauses := GroupOf(fs, a).clauses + [ClauseOf(x)])
         else Group(x.table, x.joins, [ClauseOf(x)]))
      else GroupOf(fs, a)
  {
    assert (fs + [x])[..|fs|] == fs;
    if !AliasSeen(fs, a) {
      AliasClausesUnseen(fs, a);
    }
  }

  /** The aliases of the joined entries, in the order of their first entries. */
  function Aliases(fs: seq<Filter>): (r: seq<string>)
    ensures forall a :: a in r <==> AliasSeen(fs, a)
  {
    if |fs| == 0 then []
    else
      var init := fs[..|fs| - 1];
      var x := fs[|fs| - 1];
      assert fs == init + [x];
      assert forall a :: AliasSeen(fs, a) <==> AliasSeen(init, a) || (x.joined && x.alias == a) by {
        forall a ensures AliasSeen(fs, a) <==> AliasSeen(init, a) || (x.joined && x.alias == a) {
          AliasSeenSnoc(init, x, a);
        }
      }
      Aliases(init) + (if x.joined && !AliasSeen(init, x.alias) then [x.alias] else [])
  }

  function GroupsOf(fs: seq<Filter>, aliases: seq<string>): (r: seq<Group>)
    ensures |r| == |aliases|
    ensures forall k :: 0 <= k < |r| ==> r[k] == GroupOf(fs, aliases[k])
  {
    if |aliases| == 0 then [] else [GroupOf(fs, aliases[0])] + GroupsOf(fs, aliases[1..])
  }

  /**
   * The AND clause's parts, entry by entry over the first `n` entries: a
   * plain entry gives its own clause; the first entry of an alias gives the
   * subquery over all entries of that alias; its later entries give nothing.
   */
  function Pieces(quote: string, table: string, fs: seq<Filter>, n: nat): seq<Sql>
    requires n <= |fs|
  {
    if n == 0 then []
    else
      var x := fs[n - 1];
      Pieces(quote, table, fs, n - 1) +
      (if !x.joined then [ClauseOf(x)]
       else if AliasSeen(fs[..n - 1], x.alias) then []
       else [Subquery(quote, table, GroupOf(fs, x.alias))])
  }

  /** The AND loop's state after the entries `pre`, described by `pre` alone. */
  ghost predicate Tracks(pre: seq<Filter>, c: Collected)
  {
    (forall a :: a in c.index <==> AliasSeen(pre, a)) &&
    |c.groups| == |Aliases(pre)| &&
    (forall k :: 0 <= k < |Aliases(pre)| ==> Aliases(pre)[k] in c.index && c.index[Aliases(pre)[k]] == k) &&
    (forall k :: 0 <= k < |c.groups| ==> c.groups[k] == GroupOf(pre, Aliases(pre)[k]))
  }

  /**
   * `joinedTables` holds exactly the aliases seen so far, each pointing at
   * its group, and group `k` gathers the entries of the `k`-th alias.
   */
  lemma {:induction false} CollectTracks(pre: seq<Filter>)
    ensures Tracks(pre, Collect(pre))
  {
    if |pre| > 0 {
      var init := pre[..|pre| - 1];
      var x := pre[|pre| - 1];
      assert pre == init + [x];
      CollectTracks(init);
      TracksStep(init, x);
    }
  }

  /** One more entry keeps `Tracks`. */
  lemma {:induction false} TracksStep(init: seq<Filter>, x: Filter)
    requires Tracks(init, Collect(init))
    ensures Tracks(init + [x], Collect(init + [x]))
  {
    var pre := init + [x];
    assert pre[..|pre| - 1] == init && pre[|pre| - 1] == x;
    var c := Collect(init);
    var als := Aliases(init);
    forall a ensures AliasSeen(pre, a) <==> AliasSeen(init, a) || (x.joined && x.alias == a) {
      AliasSeenSnoc(init, x, a);
    }
    if !x.joined {
      assert Collect(pre) == Collected(c.slots + [Some(ClauseOf(x))], c.groups, c.index);
      assert Aliases(pre) == als;
      forall k | 0 <= k < |c.groups| ensures c.groups[k] == GroupOf(pre, als[k]) {
        GroupOfSnoc(init, x, als[k]);
      }
    } else if x.alias in c.index {
      TracksSeen(init, x);
    } else {
      TracksNew(init, x);
    }
  }

  lemma {:induction false} TracksSeen(init: seq<Filter>, x: Filter)
    requires Tracks(init, Collect(init))
    requires x.joined && x.alias in Collect(init).index
    requires forall a :: AliasSeen(init + [x], a) <==> AliasSeen(init, a) || (x.joined && x.alias == a)
    ensures Tracks(init + [x], Collect(init + [x]))
  {
    var pre := init + [x];
    assert pre[..|pre| - 1] == init && pre[|pre| - 1] == x;
    var c := Collect(init);
    var als := Aliases(init);
    var k := c.index[x.alias];
    var g := c.groups[k].(clauses := c.groups[k].clauses + [ClauseOf(x)]);
    assert Collect(pre) == Collected(c.slots, c.groups[k := g], c.index);
    assert Aliases(pre) == als;
    assert x.alias in als;
    var j :| 0 <= j < |als| && als[j] == x.alias;
    assert j == k;
    var c' := Collect(pre);
    forall k' | 0 <= k' < |c'.groups| ensures c'.groups[k'] == GroupOf(pre, als[k']) {
      GroupOfSnoc(init, x, als[k']);
      if k' != k {
        assert c.index[als[k']] == k';
      }
    }
  }

  lemma {:induction false} TracksNew(init: seq<Filter>, x: Filter)
    requires Tracks(init, Collect(init))
    requires x.joined && x.alias !in Collect(init).index
    requires forall a :: AliasSeen(init + [x], a) <==> AliasSeen(init, a) || (x.joined && x.alias == a)
    ensures Tracks(init + [x], Collect(init + [x]))
  {
    var pre := init + [x];
    assert pre[..|pre| - 1] == init && pre[|pre| - 1] == x;
    var c := Collect(init);
    var als := Aliases(init);
    assert Collect(pre) == Collected(c.slots + [None], c.groups + [Group(x.table, x.joins, [ClauseOf(x)])], c.index[x.alias := |c.groups|]);
    assert Aliases(pre) == als + [x.alias];
    forall k' | 0 <= k' < |als| ensures als[k'] != x.alias {
      assert als[k'] in als;
    }
    var c' := Collect(pre);
    forall k' | 0 <= k' < |c'.groups| ensures c'.groups[k'] == GroupOf(pre, (als + [x.alias])[k']) {
      GroupOfSnoc(init, x, (als + [x.alias])[k']);
    }
  }

  /** Filling one more slot extends the result by one part. */
  lemma {:induction false} FillSnoc(slots: seq<Option<Sql>>, subs: seq<Sql>, x: Option<Sql>, extra: seq<Sql>)
    requires NoneCount(slots) == |subs| && |extra| == (if x.None? then 1 else 0)
    ensures NoneCount(slots + [x]) == |subs + extra|
    ensures Fill(slots + [x], subs + extra) == Fill(slots, subs) + (if x.Some? then [x.value] else extra)
  {
    NoneCountAppend(slots, [x]);
    assert NoneCount([x]) == NoneCount([x][1..]) + (if x.None? then 1 else 0);
    if |slots| == 0 {
      assert slots + [x] == [x];
      assert subs + extra == extra;
    } else {
      assert (slots + [x])[1..] == slots[1..] + [x];
      match slots[0]
      case Some(c) =>
        FillSnoc(slots[1..], subs, x, extra);
      case None =>
        assert (subs + extra)[1..] == subs[1..] + extra;
        FillSnoc(slots[1..], subs[1..], x, extra);
    }
  }

  /** The part of `Tracks` the fill argument needs. */
  lemma {:induction false} CollectShape(pre: seq<Filter>)
    ensures NoneCount(Collect(pre).slots) == |Aliases(pre)|
    ensures forall a :: a in Collect(pre).index <==> AliasSeen(pre, a)
  {
    CollectTracks(pre);
  }

  lemma {:induction false} SubqueriesOfSnoc(quote: string, table: string, fs: seq<Filter>, aliases: seq<string>, a: string)
    ensures Subqueries(quote, table, GroupsOf(fs, aliases + [a])) ==
            Subqueries(quote, table, GroupsOf(fs, aliases)) + [Subquery(quote, table, GroupOf(fs, a))]
  {
    GroupsOfSnoc(fs, aliases, a);
    SubqueriesSnoc(quote, table, GroupsOf(fs, aliases), GroupOf(fs, a));
  }

  lemma {:induction false} GroupsOfSnoc(fs: seq<Filter>, aliases: seq<string>, a: string)
    ensures GroupsOf(fs, aliases + [a]) == GroupsOf(fs, aliases) + [GroupOf(fs, a)]
  {
    var l := GroupsOf(fs, aliases + [a]);
    var r := GroupsOf(fs, aliases) + [GroupOf(fs, a)];
    forall k | 0 <= k < |l| ensures l[k] == r[k] {
      assert (aliases + [a])[k] == if k < |aliases| then aliases[k] else a;
    }
  }

  lemma {:induction false} SubqueriesSnoc(quote: string, table: string, gs: seq<Group>, g: Group)
    requires forall k :: 0 <= k < |gs| ==> GroupUnnumbered(gs[k])
    requires GroupUnnumbered(g)
    ensures Subqueries(quote, table, gs + [g]) == Subqueries(quote, table, gs) + [Subquery(quote, table, g)]
  {
    var l := Subqueries(quote, table, gs + [g]);
    var r := Subqueries(quote, table, gs) + [Subquery(quote, table, g)];
    forall k | 0 <= k < |l| ensures l[k] == r[k] {
      assert (gs + [g])[k] == if k < |gs| then gs[k] else g;
    }
  }

  lemma {:induction false} PiecesFill(quote: string, table: string, fs: seq<Filter>, n: nat)
    requires n <= |fs|
    ensures NoneCount(Collect(fs[..n]).slots) == |Aliases(fs[..n])| &&
            Fill(Collect(fs[..n]).slots, Subqueries(quote, table, GroupsOf(fs, Aliases(fs[..n])))) ==
            Pieces(quote, table, fs, n)
  {
    CollectShape(fs[..n]);
    if n > 0 {
      PiecesFill(quote, table, fs, n - 1);
      PiecesStep(quote, table, fs, n);
    }
  }

  /** The fill argument for entry `n - 1`, given it for the entries before. */
  lemma {:induction false} PiecesStep(quote: string, table: string, fs: seq<Filter>, n: nat)
    requires 0 < n <= |fs|
    requires NoneCount(Collect(fs[..n - 1]).slots) == |Aliases(fs[..n - 1])|
    requires Fill(Collect(fs[..n - 1]).slots, Subqueries(quote, table, GroupsOf(fs, Aliases(fs[..n - 1])))) ==
             Pieces(quote, table, fs, n - 1)
    ensures NoneCount(Collect(fs[..n]).slots) == |Aliases(fs[..n])|
    ensures Fill(Collect(fs[..n]).slots, Subqueries(quote, table, GroupsOf(fs, Aliases(fs[..n])))) ==
            Pieces(quote, table, fs, n)
  {
    var x := fs[n - 1];
    if !x.joined {
      PiecesStepPlain(quote, table, fs, n);
    } else if x.alias in Collect(fs[..n - 1]).index {
      PiecesStepSeen(quote, table, fs, n);
    } else {
      PiecesStepNew(quote, table, fs, n);
    }
  }

  /** A plain entry adds its clause to the slots and to the pieces. */
  lemma {:induction false} PiecesStepPlain(quote: string, table: string, fs: seq<Filter>, n: nat)
    requires 0 < n <= |fs|
    requires NoneCount(Collect(fs[..n - 1]).slots) == |Aliases(fs[..n - 1])|
    requires Fill(Collect(fs[..n - 1]).slots, Subqueries(quote, table, GroupsOf(fs, Aliases(fs[..n - 1])))) ==
             Pieces(quote, table, fs, n - 1)
    requires !fs[n - 1].joined
    ensures NoneCount(Collect(fs[..n]).slots) == |Aliases(fs[..n])|
    ensures Fill(Collect(fs[..n]).slots, Subqueries(quote, table, GroupsOf(fs, Aliases(fs[..n])))) ==
            Pieces(quote, table, fs, n)
  {
    var pre := fs[..n];
    var init := fs[..n - 1];
    var x := fs[n - 1];
    assert pre[..|pre| - 1] == init && pre[|pre| - 1] == x;
    CollectShape(init);
    CollectShape(pre);
    var c := Collect(init);
    var als := Aliases(init);
    var subs := Subqueries(quote, table, GroupsOf(fs, als));
    var prev := Pieces(quote, table, fs, n - 1);
    var clause := ClauseOf(x);
    assert Collect(pre).slots == c.slots + [Some(clause)];
    assert Pieces(quote, table, fs, n) == prev + [clause];
    FillSnoc(c.slots, subs, Some(clause), []);
    assert subs + [] == subs;
    assert Aliases(pre) == als;
  }

  /** A joined entry whose alias was seen adds nothing. */
  lemma {:induction false} PiecesStepSeen(quote: string, table: string, fs: seq<Filter>, n: nat)
    requires 0 < n <= |fs|
    requires NoneCount(Collect(fs[..n - 1]).slots) == |Aliases(fs[..n - 1])|
    requires Fill(Collect(fs[..n - 1]).slots, Subqueries(quote, table, GroupsOf(fs, Aliases(fs[..n - 1])))) ==
             Pieces(quote, table, fs, n - 1)
    requires fs[n - 1].joined && fs[n - 1].alias in Collect(fs[..n - 1]).index
    ensures NoneCount(Collect(fs[..n]).slots) == |Aliases(fs[..n])|
    ensures Fill(Collect(fs[..n]).slots, Subqueries(quote, table, GroupsOf(fs, Aliases(fs[..n])))) ==
            Pieces(quote, table, fs, n)
  {
    var pre := fs[..n];
    var init := fs[..n - 1];
    var x := fs[n - 1];
    assert pre[..|pre| - 1] == init && pre[|pre| - 1] == x;
    CollectShape(init);
    CollectShape(pre);
    var c := Collect(init);
    assert Collect(pre).slots == c.slots;
    assert Pieces(quote, table, fs, n) == Pieces(quote, table, fs, n - 1) + [];
    assert Aliases(pre) == Aliases(init);
  }

  /** A joined entry with a new alias adds an open slot and its alias's subquery. */
  lemma {:induction false} PiecesStepNew(quote: string, table: string, fs: seq<Filter>, n: nat)
    requires 0 < n <= |fs|
    requires NoneCount(Collect(fs[..n - 1]).slots) == |Aliases(fs[..n - 1])|
    requires Fill(Collect(fs[..n - 1]).slots, Subqueries(quote, table, GroupsOf(fs, Aliases(fs[..n - 1])))) ==
             Pieces(quote, table, fs, n - 1)
    requires fs[n - 1].joined && fs[n - 1].alias !in Collect(fs[..n - 1]).index
    ensures NoneCount(Collect(fs[..n]).slots) == |Aliases(fs[..n])|
    ensures Fill(Collect(fs[..n]).slots, Subqueries(quote, table, GroupsOf(fs, Aliases(fs[..n])))) ==
            Pieces(quote, table, fs, n)
  {
    var pre := fs[..n];
    var init := fs[..n - 1];
    var x := fs[n - 1];
    assert pre[..|pre| - 1] == init && pre[|pre| - 1] == x;
    CollectShape(init);
    CollectShape(pre);
    var c := Collect(init);
    var als := Aliases(init);
    var subs := Subqueries(quote, table, GroupsOf(fs, als));
    var prev := Pieces(quote, table, fs, n - 1);
    var s := Subquery(quote, table, GroupOf(fs, x.alias));
    assert Collect(pre).slots == c.slots + [None];
    assert Pieces(quote, table, fs, n) == prev + [s];
    FillSnoc(c.slots, subs, None, [s]);
    assert Aliases(pre) == als + [x.alias];
    SubqueriesOfSnoc(quote, table, fs, als, x.alias);
  }

  /**
   * `generateAndClause` joins with `' AND '` the plain entries' clauses in
   * entry order, with each alias's subquery standing at the position of the
   * alias's first entry and covering all of that alias's entries.
   */
  lemma {:induction false} AndSpecPieces(quote: string, table: string, fs: seq<Filter>)
    ensures AndSpec(quote, table, fs) == JoinSql(Pieces(quote, table, fs, |fs|), " AND ")
  {
    if |fs| > 0 {
      PiecesFill(quote, table, fs, |fs|);
      assert fs[..|fs|] == fs;
      CollectTracks(fs);
      assert Collect(fs).groups == GroupsOf(fs, Aliases(fs));
    }
  }

  /** Without joined entries the AND clause is the entries' clauses in order. */
  lemma {:induction false} PiecesPlain(quote: string, table: string, fs: seq<Filter>, n: nat)
    requires n <= |fs|
    requires forall i :: 0 <= i < |fs| ==> !fs[i].joined
    ensures |Pieces(quote, table, fs, n)| == n
    ensures forall i :: 0 <= i < n ==> Pieces(quote, table, fs, n)[i] == ClauseOf(fs[i])
  {
    if n > 0 {
      PiecesPlain(quote, table, fs, n - 1);
    }
  }

  // ---------------------------------------------------------------------
  // Token count

  /** The number of parameters the entries bind, one per sanitised value-taking entry. */
  function TotalBinds(fs: seq<Filter>): nat
  {
    if |fs| == 0 then 0 else TotalBinds(fs[..|fs| - 1]) + Binds(fs[|fs| - 1])
  }

  /** The entry is well formed and, when joined, has at least one join step. */
  predicate Counted(f: Filter)
  {
    WellFormed(f) && (f.joined ==> |f.joins| > 0)
  }

  /** Every entry is `Counted`. */
  predicate Countable(fs: seq<Filter>)
  {
    |fs| == 0 || (Countable(fs[..|fs| - 1]) && Counted(fs[|fs| - 1]))
  }

  function SomeTokens(slots: seq<Option<Sql>>): nat
  {
    if |slots| == 0 then 0 else (if slots[0].Some? then VarCount(slots[0].value) else 0) + SomeTokens(slots[1..])
  }

  lemma {:induction false} SomeTokensAppend(a: seq<Option<Sql>>, b: seq<Option<Sql>>)
    ensures SomeTokens(a + b) == SomeTokens(a) + SomeTokens(b)
  {
    if |a| == 0 {
      assert a + b == b;
    } else {
      assert (a + b)[1..] == a[1..] + b;
      SomeTokensAppend(a[1..], b);
    }
  }

  function GroupTokens(gs: seq<Group>): nat
  {
    if |gs| == 0 then 0 else SumVarCounts(gs[0].clauses) + GroupTokens(gs[1..])
  }

  lemma {:induction false} GroupTokensAppend(a: seq<Group>, b: seq<Group>)
    ensures GroupTokens(a + b) == GroupTokens(a) + GroupTokens(b)
  {
    if |a| == 0 {
      assert a + b == b;
    } else {
      assert (a + b)[1..] == a[1..] + b;
      GroupTokensAppend(a[1..], b);
    }
  }

  lemma {:induction false} GroupTokensUpdate(gs: seq<Group>, k: nat, g: Group)
    requires k < |gs|
    ensures GroupTokens(gs[k := g]) == GroupTokens(gs) - SumVarCounts(gs[k].clauses) + SumVarCounts(g.clauses)
  {
    if k == 0 {
      assert gs[k := g][1..] == gs[1..];
    } else {
      assert gs[k := g][1..] == gs[1..][k - 1 := g];
      GroupTokensUpdate(gs[1..], k - 1, g);
    }
  }

  lemma {:induction false} SumVarCountsSnoc(parts: seq<Sql>, x: Sql)
    ensures SumVarCounts(parts + [x]) == SumVarCounts(parts) + VarCount(x)
  {
    SumVarCountsAppend(parts, [x]);
    assert SumVarCounts([x]) == VarCount(x) + SumVarCounts([x][1..]);
  }

  /** The tokens left in the AND loop's state are the parameters its entries bind. */
  lemma {:induction false} CollectTokens(pre: seq<Filter>)
    requires Countable(pre)
    ensures SomeTokens(Collect(pre).slots) + GroupTokens(Collect(pre).groups) == TotalBinds(pre)
    ensures forall k :: 0 <= k < |Collect(pre).groups| ==> |Collect(pre).groups[k].joins| > 0
  {
    if |pre| > 0 {
      var init := pre[..|pre| - 1];
      var x := pre[|pre| - 1];
      CollectTokens(init);
      var c := Collect(init);
      var clause := ClauseOf(x);
      ClauseTokens(x);
      if !x.joined {
        SomeTokensAppend(c.slots, [Some(clause)]);
        assert SomeTokens([Some(clause)]) == VarCount(clause) + SomeTokens([Some(clause)][1..]);
      } else if x.alias in c.index {
        var k := c.index[x.alias];
        var g := c.groups[k];
        GroupTokensUpdate(c.groups, k, g.(clauses := g.clauses + [clause]));
        SumVarCountsSnoc(g.clauses, clause);
      } else {
        SomeTokensAppend(c.slots, [None]);
        assert SomeTokens([None]) == SomeTokens([None][1..]);
        var g := Group(x.table, x.joins, [clause]);
        GroupTokensAppend(c.groups, [g]);
        assert GroupTokens([g]) == SumVarCounts([clause]) + GroupTokens([g][1..]);
        assert SumVarCounts([clause]) == VarCount(clause) + SumVarCounts([clause][1..]);
      }
    }
  }

  lemma {:induction false} FillTokens(slots: seq<Option<Sql>>, subs: seq<Sql>)
    requires NoneCount(slots) == |subs|
    ensures SumVarCounts(Fill(slots, subs)) == SomeTokens(slots) + SumVarCounts(subs)
  {
    if |slots| > 0 {
      match slots[0]
      case Some(c) =>
        FillTokens(slots[1..], subs);
      case None =>
        FillTokens(slots[1..], subs[1..]);
    }
  }

  lemma {:induction false} SubqueriesTokens(quote: string, table: string, gs: seq<Group>)
    requires forall k :: 0 <= k < |gs| ==> GroupUnnumbered(gs[k]) && |gs[k].joins| > 0
    ensures SumVarCounts(Subqueries(quote, table, gs)) == GroupTokens(gs)
  {
    if |gs| > 0 {
      SubqueriesTokens(quote, table, gs[1..]);
      assert Subqueries(quote, table, gs)[1..] == Subqueries(quote, table, gs[1..]);
    }
  }

  /**
   * Placeholder count equals parameter count for one AND group: the clause
   * leaves one `__VAR__` per sanitised value-taking entry.
   */
  lemma {:induction false} AndTokens(quote: string, table: string, fs: seq<Filter>)
    requires Countable(fs)
    ensures VarCount(AndSpec(quote, table, fs)) == TotalBinds(fs)
  {
    if |fs| > 0 {
      var c := Collect(fs);
      CollectTokens(fs);
      var subs := Subqueries(quote, table, c.groups);
      SubqueriesTokens(quote, table, c.groups);
      FillTokens(c.slots, subs);
      VarCountJoin(Fill(c.slots, subs), " AND ");
    }
  }

  /**
   * A joined entry without join steps loses its token: the subquery of an
   * empty `joins` list never includes the group's clauses.
   */
  lemma {:induction false} JoinlessEntryBindsNothing(quote: string, table: string, f: Filter)
    requires WellFormed(f) && f.joined && f.joins == [] && f.sanitize && !f.ignoreValue
    ensures TotalBinds([f]) == 1
    ensures VarCount(AndSpec(quote, table, [f])) == 0
  {
    assert [f][..0] == [];
    assert Collect([f][..0]) == Collected([], [], map[]);
    assert f.alias !in Collect([f][..0]).index;
    var c := Collect([f]);
    assert c.slots == [None];
    assert c.groups == [Group(f.table, [], [ClauseOf(f)])];
    var subs := Subqueries(quote, table, c.groups);
    assert Fill(c.slots, subs) == [subs[0]];
    assert JoinSql([subs[0]], " AND ") == subs[0];
  }
}
