/**
 * SQL text as a sequence of fragments. A statement is literal text
 * interleaved with the `__VAR__` placeholder token, which the WHERE
 * compiler later rewrites into positional `$n` parameters. Keeping the
 * token as its own fragment lets placeholder counts and numbering be
 * stated exactly; `Render` gives the string the adapter produces.
 */
module Fragments {
  import opened Strings

  datatype Frag = Text(s: string) | Var | Param(n: nat)

  type Sql = seq<Frag>

  /** The literal token the templates use for a value still to be bound. */
  const VarToken: string := "__VAR__"

  function RenderFrag(f: Frag): string
  {
    match f
    case Text(s) => s
    case Var => VarToken
    case Param(n) => "$" + NatToString(n)
  }

  /** The SQL string a fragment sequence stands for. */
  function Render(q: Sql): string
  {
    if |q| == 0 then "" else RenderFrag(q[0]) + Render(q[1..])
  }

  lemma {:induction false} RenderAppend(a: Sql, b: Sql)
    ensures Render(a + b) == Render(a) + Render(b)
  {
    if |a| == 0 {
      assert a + b == b;
    } else {
      assert (a + b)[1..] == a[1..] + b;
      RenderAppend(a[1..], b);
    }
  }

  /** Literal text as a fragment sequence. */
  function T(s: string): (r: Sql)
    ensures VarCount(r) == 0 && Placeholders(r) == []
  {
    [Text(s)]
  }

  lemma {:induction false} RenderT(s: string)
    ensures Render(T(s)) == s
  {
    assert Render(T(s)) == s + Render([]);
  }

  /** Number of `__VAR__` tokens. */
  function VarCount(q: Sql): nat
  {
    if |q| == 0 then 0 else (if q[0].Var? then 1 else 0) + VarCount(q[1..])
  }

  lemma {:induction false} VarCountSmall(q: Sql)
    requires |q| <= 3
    ensures VarCount(q) == (if |q| > 0 && q[0].Var? then 1 else 0) + (if |q| > 1 && q[1].Var? then 1 else 0) +
                           (if |q| > 2 && q[2].Var? then 1 else 0)
  {
    if |q| > 0 {
      assert VarCount(q) == (if q[0].Var? then 1 else 0) + VarCount(q[1..]);
      if |q| > 1 {
        assert VarCount(q[1..]) == (if q[1].Var? then 1 else 0) + VarCount(q[2..]);
        if |q| > 2 {
          assert VarCount(q[2..]) == (if q[2].Var? then 1 else 0) + VarCount(q[3..]);
        }
      }
    }
  }

  lemma {:induction false} VarCountAppend(a: Sql, b: Sql)
    ensures VarCount(a + b) == VarCount(a) + VarCount(b)
  {
    if |a| == 0 {
      assert a + b == b;
    } else {
      assert (a + b)[1..] == a[1..] + b;
      VarCountAppend(a[1..], b);
    }
  }

  /** The `$n` parameter numbers, left to right. */
  function Placeholders(q: Sql): seq<nat>
  {
    if |q| == 0 then []
    else (if q[0].Param? then [q[0].n] else []) + Placeholders(q[1..])
  }

  lemma {:induction false} PlaceholdersAppend(a: Sql, b: Sql)
    ensures Placeholders(a + b) == Placeholders(a) + Placeholders(b)
  {
    if |a| == 0 {
      assert a + b == b;
    } else {
      var head := if a[0].Param? then [a[0].n] else [];
      assert (a + b)[0] == a[0] && (a + b)[1..] == a[1..] + b;
      assert Placeholders(a + b) == head + Placeholders(a[1..] + b);
      PlaceholdersAppend(a[1..], b);
      assert Placeholders(a) == head + Placeholders(a[1..]);
    }
  }

  /** `[lo, lo + 1, …, hi - 1]`. */
  function Range(lo: int, hi: int): (r: seq<int>)
    ensures |r| == if lo <= hi then hi - lo else 0
    ensures forall i :: 0 <= i < |r| ==> r[i] == lo + i
    decreases hi - lo
  {
    if lo >= hi then [] else [lo] + Range(lo + 1, hi)
  }

  lemma {:induction false} RangeAppend(lo: nat, mid: nat, hi: nat)
    requires lo <= mid <= hi
    ensures Range(lo, mid) + Range(mid, hi) == Range(lo, hi)
  {
  }

  /**
   * `replace(/__VAR__/g, () => '$' + (1 + offset++))` starting from offset
   * `next - 1`: every token, left to right, becomes the next parameter.
   */
  function Number(q: Sql, next: nat): (r: Sql)
    ensures |r| == |q|
  {
    if |q| == 0 then []
    else if q[0].Var? then [Param(next)] + Number(q[1..], next + 1)
    else [q[0]] + Number(q[1..], next)
  }

  /** Numbering leaves no token behind. */
  lemma {:induction false} NumberClearsVars(q: Sql, next: nat)
    ensures VarCount(Number(q, next)) == 0
  {
    if |q| > 0 {
      NumberClearsVars(q[1..], if q[0].Var? then next + 1 else next);
    }
  }

  /** The i-th fragment of a numbered sequence: the token becomes the parameter that counts it. */
  lemma {:induction false} NumberAt(q: Sql, next: nat, i: nat)
    requires i < |q|
    ensures Number(q, next)[i] == if q[i].Var? then Param(next + VarCount(q[..i])) else q[i]
  {
    if i > 0 {
      NumberAt(q[1..], if q[0].Var? then next + 1 else next, i - 1);
      assert q[1..][..i - 1] == q[..i][1..];
      assert q[1..][i - 1] == q[i];
    }
  }

  /** Numbering a sequence without parameters yields `$next … $(next + tokens - 1)` in order. */
  lemma {:induction false} NumberPlaceholders(q: Sql, next: nat)
    requires Placeholders(q) == []
    ensures Placeholders(Number(q, next)) == Range(next, next + VarCount(q))
  {
    if |q| > 0 {
      assert !q[0].Param? && Placeholders(q[1..]) == [];
      if q[0].Var? {
        NumberPlaceholders(q[1..], next + 1);
      } else {
        NumberPlaceholders(q[1..], next);
      }
    }
  }

  lemma {:induction false} NumberAppend(a: Sql, b: Sql, next: nat)
    ensures Number(a + b, next) == Number(a, next) + Number(b, next + VarCount(a))
  {
    if |a| == 0 {
      assert a + b == b;
    } else {
      var after := if a[0].Var? then next + 1 else next;
      var head := if a[0].Var? then Param(next) else a[0];
      calc {
        Number(a + b, next);
      == { assert (a + b)[0] == a[0]; assert (a + b)[1..] == a[1..] + b; }
        [head] + Number(a[1..] + b, after);
      == { NumberAppend(a[1..], b, after); }
        [head] + (Number(a[1..], after) + Number(b, after + VarCount(a[1..])));
      == { assert next + VarCount(a) == after + VarCount(a[1..]); }
        ([head] + Number(a[1..], after)) + Number(b, next + VarCount(a));
      }
    }
  }

  /** Numbering one more fragment: a token becomes the parameter after those already numbered. */
  lemma {:induction false} NumberSnoc(q: Sql, i: nat, start: nat)
    requires i < |q|
    ensures Number(q[..i + 1], start) ==
            Number(q[..i], start) + [if q[i].Var? then Param(start + VarCount(q[..i])) else q[i]]
    ensures VarCount(q[..i + 1]) == VarCount(q[..i]) + (if q[i].Var? then 1 else 0)
  {
    assert q[..i + 1] == q[..i] + [q[i]];
    NumberAppend(q[..i], [q[i]], start);
    VarCountAppend(q[..i], [q[i]]);
  }

  /** `replace(/__VAR__/gi, text)`: every token becomes the given literal text. */
  function Inline(q: Sql, text: string): (r: Sql)
    ensures |r| == |q| && VarCount(r) == 0
    ensures forall i :: 0 <= i < |q| ==> r[i] == if q[i].Var? then Text(text) else q[i]
  {
    if |q| == 0 then [] else [if q[0].Var? then Text(text) else q[0]] + Inline(q[1..], text)
  }

  /** `parts.join(sep)` on fragment sequences. */
  function JoinSql(parts: seq<Sql>, sep: string): Sql
  {
    if |parts| == 0 then []
    else if |parts| == 1 then parts[0]
    else parts[0] + T(sep) + JoinSql(parts[1..], sep)
  }

  /** Rendering commutes with joining. */
  lemma {:induction false} RenderJoin(parts: seq<Sql>, sep: string)
    ensures Render(JoinSql(parts, sep)) == Join(RenderAll(parts), sep)
  {
    if |parts| > 1 {
      RenderJoin(parts[1..], sep);
      RenderAppend(parts[0] + T(sep), JoinSql(parts[1..], sep));
      RenderAppend(parts[0], T(sep));
      assert RenderAll(parts)[1..] == RenderAll(parts[1..]);
      assert Join(RenderAll(parts), sep) == Render(parts[0]) + sep + Join(RenderAll(parts[1..]), sep);
    }
  }

  function RenderAll(parts: seq<Sql>): (r: seq<string>)
    ensures |r| == |parts|
    ensures forall i :: 0 <= i < |parts| ==> r[i] == Render(parts[i])
  {
    if |parts| == 0 then [] else [Render(parts[0])] + RenderAll(parts[1..])
  }

  /** The tokens of a join are those of its parts. */
  lemma {:induction false} VarCountJoin(parts: seq<Sql>, sep: string)
    ensures VarCount(JoinSql(parts, sep)) == SumVarCounts(parts)
  {
    if |parts| == 1 {
      assert SumVarCounts(parts) == VarCount(parts[0]) + SumVarCounts(parts[1..]);
    } else if |parts| > 1 {
      VarCountJoin(parts[1..], sep);
      assert SumVarCounts(parts) == VarCount(parts[0]) + SumVarCounts(parts[1..]);
      VarCountAppend(parts[0] + T(sep), JoinSql(parts[1..], sep));
      VarCountAppend(parts[0], T(sep));
    }
  }

  lemma {:induction false} PlaceholdersJoin(parts: seq<Sql>, sep: string)
    requires forall i :: 0 <= i < |parts| ==> Placeholders(parts[i]) == []
    ensures Placeholders(JoinSql(parts, sep)) == []
  {
    if |parts| > 1 {
      assert forall i :: 0 <= i < |parts[1..]| ==> parts[1..][i] == parts[i + 1];
      PlaceholdersJoin(parts[1..], sep);
      PlaceholdersAppend(parts[0] + T(sep), JoinSql(parts[1..], sep));
      PlaceholdersAppend(parts[0], T(sep));
    }
  }

  lemma {:induction false} JoinSqlSnoc(parts: seq<Sql>, x: Sql, sep: string)
    requires |parts| > 0
    ensures JoinSql(parts + [x], sep) == JoinSql(parts, sep) + T(sep) + x
  {
    if |parts| == 1 {
      assert (parts + [x])[1..] == [x];
    } else {
      assert (parts + [x])[1..] == parts[1..] + [x];
      JoinSqlSnoc(parts[1..], x, sep);
    }
  }

  lemma {:induction false} JoinSql3(a: Sql, b: Sql, c: Sql, sep: string)
    ensures JoinSql([a, b, c], sep) == a + T(sep) + (b + T(sep) + c)
  {
    assert [a, b, c][1..] == [b, c];
    assert [b, c][1..] == [c];
    assert JoinSql([b, c], sep) == b + T(sep) + c;
  }

  /** The parts one after another, with nothing between them (`join('')`). */
  function Concat(parts: seq<Sql>): Sql
  {
    if |parts| == 0 then [] else Concat(parts[..|parts| - 1]) + parts[|parts| - 1]
  }

  /** Appending the next part to the concatenation of those before it. */
  lemma {:induction false} ConcatSnoc(parts: seq<Sql>, i: nat, done: Sql, next: Sql)
    requires i < |parts| && done == Concat(parts[..i]) && next == parts[i]
    ensures done + next == Concat(parts[..i + 1])
  {
    assert parts[..i + 1][..i] == parts[..i];
  }

  function SumVarCounts(parts: seq<Sql>): nat
  {
    if |parts| == 0 then 0 else VarCount(parts[0]) + SumVarCounts(parts[1..])
  }

  lemma {:induction false} SumVarCountsAppend(a: seq<Sql>, b: seq<Sql>)
    ensures SumVarCounts(a + b) == SumVarCounts(a) + SumVarCounts(b)
  {
    if |a| == 0 {
      assert a + b == b;
    } else {
      assert (a + b)[1..] == a[1..] + b;
      SumVarCountsAppend(a[1..], b);
    }
  }
}
