/**
 * What `__parseModelsFromRows__` builds from the rows a joined SELECT
 * returns. Columns named `$join$column` belong to a singular join and
 * `$$join$column` to a multiple one. Consecutive rows with the same `id`
 * make one record: its singular joins come from the run's first row, and
 * each multiple join gets one entry per row of the run.
 */
module Rows {
  import opened Wrappers
  import opened Strings
  import opened Values

  /** A row as the driver returns it: column name to value. */
  type Row = map<string, Val>

  /** The data a joined model's constructor receives. */
  type Data = map<string, Val>

  /** A field of a result row: a column's value, a singular join's model, or a multiple join's model array. */
  datatype Cell = Raw(v: Val) | One(data: Data) | Many(items: seq<Data>)

  /** A result row, the object handed to the model constructor. */
  type Obj = map<string, Cell>

  /** `row[k]`. */
  function Field(row: Row, k: string): Val
  {
    if k in row then row[k] else Undefined
  }

  /** `key[0] === '$' && key[1] !== '$'`. */
  predicate IsJoinKey(k: string)
  {
    |k| > 0 && k[0] == '$' && !(|k| > 1 && k[1] == '$')
  }

  /** `key[0] === '$' && key[1] === '$'`. */
  predicate IsMultipleKey(k: string)
  {
    |k| > 1 && k[0] == '$' && k[1] == '$'
  }

  /** What the lookup records for a `$` key: the join name, the column, and whether the join is multiple. */
  datatype KeyInfo = KeyInfo(mainKey: string, subKey: string, multiple: bool)

  /**
   * `createLookup(multiple)` for one key: the join name runs from after the
   * leading `$` (or `$$`) to the next `$`, the column is everything after it.
   * A key without that second `$` has no entry.
   */
  function ParseKey(k: string, multiple: bool): (r: Option<KeyInfo>)
    ensures r.Some? ==> r.value.multiple == multiple && '$' !in r.value.mainKey
  {
    var offset := if multiple then 2 else 1;
    match IndexOfFrom(k, "$", offset)
    case None => None
    case Some(index) =>
      assert forall j :: offset <= j < index ==> k[j] != '$' by {
        forall j | offset <= j < index ensures k[j] != '$' {
          OccursAtChar(k, j);
        }
      }
      Some(KeyInfo(k[offset..index], k[index + 1..], multiple))
  }

  lemma {:induction false} OccursAtChar(s: string, j: nat)
    requires j < |s|
    ensures OccursAt(s, "$", j) <==> s[j] == '$'
  {
    if s[j] == '$' {
      assert s[j..j + 1] == [s[j]];
    }
  }

  /** The lookup entry of a key starting with `$`, by its kind. */
  function InfoOf(k: string): Option<KeyInfo>
  {
    if IsMultipleKey(k) then ParseKey(k, true)
    else if IsJoinKey(k) then ParseKey(k, false)
    else None
  }

  /** Some `$` key has no second `$`: the lookup reducer loses its accumulator and the call throws. */
  predicate LookupFails(keys: set<string>)
  {
    exists k :: k in keys && (IsJoinKey(k) || IsMultipleKey(k)) && InfoOf(k).None?
  }

  /** `joinLookup`: every `$` key with its join name and column. */
  function Lookup(keys: set<string>): (l: map<string, KeyInfo>)
    ensures forall k :: k in l <==> k in keys && InfoOf(k).Some?
    ensures forall k :: k in l ==> Some(l[k]) == InfoOf(k)
  {
    map k | k in keys && InfoOf(k).Some? :: InfoOf(k).value
  }

  /** The column the lookup maps to join `j`, column `s` and the given kind. */
  function KeyFor(multiple: bool, j: string, s: string): string
  {
    (if multiple then "$$" else "$") + j + "$" + s
  }

  /** Every parsed key is rebuilt from its entry. */
  lemma {:induction false} KeyRoundTrip(k: string)
    requires InfoOf(k).Some?
    ensures var i := InfoOf(k).value; KeyFor(i.multiple, i.mainKey, i.subKey) == k
  {
    var m := IsMultipleKey(k);
    var offset := if m then 2 else 1;
    var index := IndexOfFrom(k, "$", offset).value;
    OccursAtChar(k, index);
    assert k[..offset] == (if m then "$$" else "$");
    assert k == k[..offset] + k[offset..index] + [k[index]] + k[index + 1..];
  }

  /** A key built from a `$`-free join name parses back to that join and column. */
  lemma {:induction false} KeyForParses(multiple: bool, j: string, s: string)
    requires '$' !in j && (multiple || j != "")
    ensures InfoOf(KeyFor(multiple, j, s)) == Some(KeyInfo(j, s, multiple))
  {
    var k := KeyFor(multiple, j, s);
    var offset := if multiple then 2 else 1;
    assert k == (if multiple then "$$" else "$") + j + ("$" + s);
    assert k[..offset] == (if multiple then "$$" else "$");
    assert k[offset..offset + |j|] == j;
    assert k[offset + |j|] == '$';
    assert k[offset + |j| + 1..] == s;
    if multiple {
      assert IsMultipleKey(k);
    } else {
      assert k[1] == j[0];
      assert IsJoinKey(k) && !IsMultipleKey(k);
    }
    OccursAtChar(k, offset + |j|);
    var r := IndexOfFrom(k, "$", offset);
    if r.None? {
      assert false;
    } else if r.value < offset + |j| {
      OccursAtChar(k, r.value);
      assert false;
    } else if r.value > offset + |j| {
      assert false;
    }
  }

  /** The join names the lookup mentions. */
  function Mains(l: map<string, KeyInfo>): set<string>
  {
    set k | k in l :: l[k].mainKey
  }

  /** The columns the lookup records for join `j`. */
  function Subs(l: map<string, KeyInfo>, j: string): set<string>
  {
    set k | k in l && l[k].mainKey == j :: l[k].subKey
  }

  /**
   * The skeleton's `multiple` flag: the singular keys enter the lookup
   * first, so a join is multiple only when none of its keys is singular.
   */
  predicate AllMultiple(l: map<string, KeyInfo>, j: string)
  {
    forall k :: k in l && l[k].mainKey == j ==> l[k].multiple
  }

  /** `joinNames`. */
  function SingleNames(l: map<string, KeyInfo>): set<string>
  {
    set j | j in Mains(l) && !AllMultiple(l, j)
  }

  /** `joinMultipleNames`. */
  function MultipleNames(l: map<string, KeyInfo>): set<string>
  {
    set j | j in Mains(l) && AllMultiple(l, j)
  }

  /** The skeleton holds one data object per join name with one slot per column. */
  type Skeleton = map<string, Data>

  predicate Shaped(l: map<string, KeyInfo>, skel: Skeleton)
  {
    skel.Keys == Mains(l) && forall j :: j in skel ==> skel[j].Keys == Subs(l, j)
  }

  /** `joinSkeleton`: every slot `null`. */
  function InitSkeleton(l: map<string, KeyInfo>): (skel: Skeleton)
    ensures Shaped(l, skel)
  {
    map j | j in Mains(l) :: map s | s in Subs(l, j) :: Null
  }

  /**
   * `keys.forEach(assignToSkeleton(row))` over the keys of one kind: each
   * such key writes the row's value into its join's slot. The key of a slot
   * is recovered with `KeyFor`.
   */
  function Assign(l: map<string, KeyInfo>, skel: Skeleton, row: Row, multiple: bool): (r: Skeleton)
    ensures r.Keys == skel.Keys && forall j :: j in r ==> r[j].Keys == skel[j].Keys
  {
    map j | j in skel ::
      map s | s in skel[j] ::
        var k := KeyFor(multiple, j, s);
        if k in l && l[k] == KeyInfo(j, s, multiple) then Field(row, k) else skel[j][s]
  }

  /** Every key of the kind assigned lands the row's value in its own slot. */
  lemma {:induction false} AssignWritesKey(l: map<string, KeyInfo>, skel: Skeleton, row: Row, multiple: bool, k: string)
    requires Shaped(l, skel) && k in l && l[k].multiple == multiple
    requires forall k' :: k' in l ==> Some(l[k']) == InfoOf(k')
    ensures var i := l[k];
            i.mainKey in skel && i.subKey in skel[i.mainKey] && Assign(l, skel, row, multiple)[i.mainKey][i.subKey] == Field(row, k)
  {
    var i := l[k];
    assert i.mainKey in Mains(l);
    assert i.subKey in Subs(l, i.mainKey);
    KeyRoundTrip(k);
  }

  /** A slot no key of the kind assigned points at keeps its value. */
  lemma {:induction false} AssignKeepsSlot(l: map<string, KeyInfo>, skel: Skeleton, row: Row, multiple: bool, j: string, s: string)
    requires j in skel && s in skel[j]
    requires forall k :: k in l ==> Some(l[k]) == InfoOf(k)
    requires forall k :: k in l && l[k].mainKey == j && l[k].subKey == s ==> l[k].multiple != multiple
    ensures Assign(l, skel, row, multiple)[j][s] == skel[j][s]
  {
  }

  /** What one data object holds after its row's keys are assigned: that row's value of each column. */
  function RowData(row: Row, j: string, cols: set<string>, multiple: bool): Data
  {
    map s | s in cols :: Field(row, KeyFor(multiple, j, s))
  }

  /** A join all of whose keys are of the kind assigned takes all its data from the row. */
  lemma {:induction false} AssignWholeJoin(l: map<string, KeyInfo>, skel: Skeleton, row: Row, multiple: bool, j: string)
    requires Shaped(l, skel) && j in skel
    requires forall k :: k in l ==> Some(l[k]) == InfoOf(k)
    requires forall k :: k in l && l[k].mainKey == j ==> l[k].multiple == multiple
    ensures Assign(l, skel, row, multiple)[j] == RowData(row, j, Subs(l, j), multiple)
  {
    var r := Assign(l, skel, row, multiple);
    forall s | s in Subs(l, j) ensures r[j][s] == Field(row, KeyFor(multiple, j, s)) {
      var k :| k in l && l[k].mainKey == j && l[k].subKey == s;
      AssignWritesKey(l, skel, row, multiple, k);
      KeyRoundTrip(k);
    }
  }

  // ---------------------------------------------------------------------
  // The row reduction

  /** The rows built so far and the shared skeleton. */
  datatype State = State(objs: seq<Obj>, skel: Skeleton)

  /** A fresh result row: the row's own columns. */
  function RawObj(row: Row): (o: Obj)
    ensures forall k :: k in o <==> k in row
    ensures forall k :: k in o ==> o[k] == Raw(row[k])
  {
    map k | k in row :: Raw(row[k])
  }

  /** `lastRow.id`: the value of a plain `id` column; a model or model array is an object. */
  function IdOf(o: Obj): Option<Val>
  {
    if "id" !in o then Some(Undefined)
    else match o["id"]
      case Raw(v) => Some(v)
      case _ => None
  }

  /** `lastRow && lastRow.id === row.id`. */
  predicate SameRun(objs: seq<Obj>, row: Row)
  {
    |objs| > 0 && var id := IdOf(objs[|objs| - 1]); id.Some? && StrictEq(id.value, Field(row, "id"))
  }

  /** `curRow[joinName] || new ModelArray(...)`: the array to push onto, if any. */
  function Existing(o: Obj, j: string): Result<seq<Data>>
  {
    if j !in o then Ok([])
    else match o[j]
      case Many(items) => Ok(items)
      case Raw(v) => if Truthy(v) then Err("curRow[joinName].push is not a function") else Ok([])
      case One(_) => Err("curRow[joinName].push is not a function")
  }

  /** Every multiple join's array gets one more model, built from the skeleton's data. */
  function PushAll(o: Obj, names: set<string>, skel: Skeleton): (r: Result<Obj>)
    requires names <= skel.Keys
    ensures r.Ok? ==> r.value.Keys == o.Keys + names
    ensures r.Ok? ==> forall k :: k in o && k !in names ==> r.value[k] == o[k]
    ensures r.Ok? ==> forall j :: j in names ==> Existing(o, j).Ok? && r.value[j] == Many(Existing(o, j).value + [skel[j]])
    ensures r.Err? <==> exists j :: j in names && Existing(o, j).Err?
  {
    if exists j :: j in names && Existing(o, j).Err? then
      var j :| j in names && Existing(o, j).Err?;
      Err(Existing(o, j).message)
    else
      Ok(map k | k in o.Keys + names :: if k in names then Many(Existing(o, k).value + [skel[k]]) else o[k])
  }

  const UnknownJoin := "Cannot read property 'model' of undefined"

  /**
   * One row of the reduce. A row whose `id` differs from the current
   * record's starts a new record: the singular keys are copied into the
   * skeleton and each singular join becomes a model. Then, for every row,
   * the multiple keys are copied and each multiple join gets one more model.
   * A join name the model does not know has no constructor and throws.
   */
  function Step(l: map<string, KeyInfo>, known: set<string>, st: State, row: Row): (r: Result<State>)
    requires Shaped(l, st.skel)
    ensures r.Ok? ==> Shaped(l, r.value.skel)
    ensures r.Ok? ==> |r.value.objs| == |st.objs| + (if SameRun(st.objs, row) then 0 else 1)
  {
    var starts := !SameRun(st.objs, row);
    var skel1 := if starts then Assign(l, st.skel, row, false) else st.skel;
    if starts && !(SingleNames(l) <= known) then Err(UnknownJoin)
    else
      var objs1 := if starts then st.objs + [Started(l, skel1, row)] else st.objs;
      var skel2 := Assign(l, skel1, row, true);
      if !(MultipleNames(l) <= known) then Err(UnknownJoin)
      else
        var last := |objs1| - 1;
        match PushAll(objs1[last], MultipleNames(l), skel2)
        case Err(e) => Err(e)
        case Ok(o) => Ok(State(objs1[..last] + [o], skel2))
  }

  /** The reduce over the first rows, one `Step` per row. */
  function Reduce(l: map<string, KeyInfo>, known: set<string>, rows: seq<Row>): (r: Result<State>)
    ensures r.Ok? ==> Shaped(l, r.value.skel)
  {
    if |rows| == 0 then Ok(State([], InitSkeleton(l)))
    else
      match Reduce(l, known, rows[..|rows| - 1])
      case Err(e) => Err(e)
      case Ok(st) => Step(l, known, st, rows[|rows| - 1])
  }

  /** Once the reduce has thrown on a prefix, it throws the same on every longer list. */
  lemma {:induction false} ReduceStops(l: map<string, KeyInfo>, known: set<string>, rows: seq<Row>, n: nat)
    requires n <= |rows| && Reduce(l, known, rows[..n]).Err?
    ensures Reduce(l, known, rows) == Reduce(l, known, rows[..n])
    decreases |rows| - n
  {
    if n < |rows| {
      var pre := rows[..n + 1];
      assert pre[..n] == rows[..n];
      assert Reduce(l, known, pre) == Reduce(l, known, rows[..n]);
      ReduceStops(l, known, rows, n + 1);
    } else {
      assert rows[..n] == rows;
    }
  }

  /**
   * `__parseModelsFromRows__(rows)` with the model's join names `known`: the
   * keys of the first row decide the lookup; a `$` key without a second `$`
   * throws.
   */
  function ParseModels(known: set<string>, rows: seq<Row>): Result<seq<Obj>>
  {
    if |rows| == 0 then Ok([])
    else if LookupFails(rows[0].Keys) then Err("Cannot set property of undefined")
    else
      match Reduce(Lookup(rows[0].Keys), known, rows)
      case Err(e) => Err(e)
      case Ok(st) => Ok(st.objs)
  }

  // ---------------------------------------------------------------------
  // What one row does

  /** Every lookup entry is what its key parses to, as `Lookup` builds it. */
  predicate FromKeys(l: map<string, KeyInfo>)
  {
    forall k :: k in l ==> Some(l[k]) == InfoOf(k)
  }

  /** All keys of join `j` are of the given kind. */
  predicate OnlyKind(l: map<string, KeyInfo>, j: string, multiple: bool)
  {
    forall k :: k in l && l[k].mainKey == j ==> l[k].multiple == multiple
  }

  /**
   * A row that starts a record adds one result row and leaves the earlier
   * ones alone. The new row holds the row's own columns, a model built from
   * this row for each singular join, and a one-model array built from this
   * row for each multiple join.
   */
  lemma {:induction false} StepStartsRecord(l: map<string, KeyInfo>, known: set<string>, st: State, row: Row, r: State)
    requires FromKeys(l) && Shaped(l, st.skel) && !SameRun(st.objs, row)
    requires Step(l, known, st, row) == Ok(r)
    ensures |r.objs| == |st.objs| + 1 && r.objs[..|st.objs|] == st.objs
    ensures var o := r.objs[|st.objs|];
            (forall k :: k in row && k !in Mains(l) ==> k in o && o[k] == Raw(row[k])) &&
            (forall j :: j in SingleNames(l) && OnlyKind(l, j, false) ==> j in o && o[j] == One(RowData(row, j, Subs(l, j), false))) &&
            (forall j :: j in MultipleNames(l) && j !in row ==> j in o && o[j] == Many([RowData(row, j, Subs(l, j), true)]))
  {
    StepStarts(l, known, st, row);
    var o := r.objs[|st.objs|];
    NewRecordColumns(l, st.skel, row, o);
    NewRecordSingles(l, st.skel, row, o);
    NewRecordMultiples(l, st.skel, row, o);
  }

  /** The pushed record a starting row makes from skeleton `skel`. */
  predicate NewRecord(l: map<string, KeyInfo>, skel: Skeleton, row: Row, o: Obj)
    requires Shaped(l, skel)
  {
    var skel1 := Assign(l, skel, row, false);
    PushAll(Started(l, skel1, row), MultipleNames(l), Assign(l, skel1, row, true)) == Ok(o)
  }

  lemma {:induction false} NewRecordColumns(l: map<string, KeyInfo>, skel: Skeleton, row: Row, o: Obj)
    requires Shaped(l, skel) && NewRecord(l, skel, row, o)
    ensures forall k :: k in row && k !in Mains(l) ==> k in o && o[k] == Raw(row[k])
  {
  }

  lemma {:induction false} NewRecordSingles(l: map<string, KeyInfo>, skel: Skeleton, row: Row, o: Obj)
    requires FromKeys(l) && Shaped(l, skel) && NewRecord(l, skel, row, o)
    ensures forall j :: j in SingleNames(l) && OnlyKind(l, j, false) ==> j in o && o[j] == One(RowData(row, j, Subs(l, j), false))
  {
    forall j | j in SingleNames(l) && OnlyKind(l, j, false)
      ensures j in o && o[j] == One(RowData(row, j, Subs(l, j), false))
    {
      AssignWholeJoin(l, skel, row, false, j);
      assert j !in MultipleNames(l);
    }
  }

  lemma {:induction false} NewRecordMultiples(l: map<string, KeyInfo>, skel: Skeleton, row: Row, o: Obj)
    requires FromKeys(l) && Shaped(l, skel) && NewRecord(l, skel, row, o)
    ensures forall j :: j in MultipleNames(l) && j !in row ==> j in o && o[j] == Many([RowData(row, j, Subs(l, j), true)])
  {
    forall j | j in MultipleNames(l) && j !in row
      ensures j in o && o[j] == Many([RowData(row, j, Subs(l, j), true)])
    {
      NewRecordMultiple(l, skel, row, o, j);
    }
  }

  lemma {:induction false} NewRecordMultiple(l: map<string, KeyInfo>, skel: Skeleton, row: Row, o: Obj, j: string)
    requires FromKeys(l) && Shaped(l, skel) && NewRecord(l, skel, row, o)
    requires j in MultipleNames(l) && j !in row
    ensures j in o && o[j] == Many([RowData(row, j, Subs(l, j), true)])
  {
    var skel1 := Assign(l, skel, row, false);
    var skel2 := Assign(l, skel1, row, true);
    var started := Started(l, skel1, row);
    AssignWholeJoin(l, skel1, row, true, j);
    assert j !in SingleNames(l);
    assert Existing(started, j) == Ok([]);
    assert [] + [skel2[j]] == [skel2[j]];
  }

  /** The result row a record starts with, before the multiple joins: the row's columns and the singular models. */
  function Started(l: map<string, KeyInfo>, skel: Skeleton, row: Row): (o: Obj)
    requires SingleNames(l) <= skel.Keys
    ensures o.Keys == row.Keys + SingleNames(l)
    ensures forall k :: k in row && k !in SingleNames(l) ==> o[k] == Raw(row[k])
    ensures forall j :: j in SingleNames(l) ==> o[j] == One(skel[j])
  {
    RawObj(row) + map j | j in SingleNames(l) :: One(skel[j])
  }

  /** `Step` on a row that starts a record, with its intermediate values named. */
  lemma {:induction false} StepStarts(l: map<string, KeyInfo>, known: set<string>, st: State, row: Row)
    requires Shaped(l, st.skel) && !SameRun(st.objs, row)
    requires Step(l, known, st, row).Ok?
    ensures var skel1 := Assign(l, st.skel, row, false);
            var skel2 := Assign(l, skel1, row, true);
            var pushed := PushAll(Started(l, skel1, row), MultipleNames(l), skel2);
            pushed.Ok? && Step(l, known, st, row) == Ok(State(st.objs + [pushed.value], skel2))
  {
    var started := Started(l, Assign(l, st.skel, row, false), row);
    var objs1 := st.objs + [started];
    assert objs1[..|objs1| - 1] == st.objs && objs1[|objs1| - 1] == started;
  }

  /**
   * A row with the current record's `id` adds no result row: the current
   * one keeps its columns and singular models, and each multiple join's
   * array gets one more model built from this row.
   */
  lemma {:induction false} StepJoinsRecord(l: map<string, KeyInfo>, known: set<string>, st: State, row: Row)
    requires FromKeys(l) && Shaped(l, st.skel) && SameRun(st.objs, row)
    requires Step(l, known, st, row).Ok?
    ensures var objs := Step(l, known, st, row).value.objs;
            |objs| == |st.objs| && objs[..|objs| - 1] == st.objs[..|st.objs| - 1]
    ensures var o := st.objs[|st.objs| - 1];
            var o' := Step(l, known, st, row).value.objs[|st.objs| - 1];
            (forall k :: k in o && k !in MultipleNames(l) ==> k in o' && o'[k] == o[k]) &&
            (forall j :: j in MultipleNames(l) ==>
               Existing(o, j).Ok? && j in o' && o'[j] == Many(Existing(o, j).value + [RowData(row, j, Subs(l, j), true)]))
  {
    var skel2 := Assign(l, st.skel, row, true);
    forall j | j in MultipleNames(l) ensures skel2[j] == RowData(row, j, Subs(l, j), true) {
      AssignWholeJoin(l, st.skel, row, true, j);
    }
  }

  // ---------------------------------------------------------------------
  // Records are runs of equal ids

  /** The `id` a record is matched on when it is built from `row`; a join named `id` makes it an object. */
  function HeadKey(l: map<string, KeyInfo>, row: Row): Option<Val>
  {
    if "id" in Mains(l) then None else Some(Field(row, "id"))
  }

  /**
   * The rows that start a record, by index: the first row, and every row
   * whose `id` is not strictly equal to that of the row starting the
   * current record. Equal ids further apart start separate records.
   */
  function Heads(l: map<string, KeyInfo>, rows: seq<Row>): (h: seq<nat>)
    ensures |h| <= |rows| && (|rows| > 0 ==> |h| > 0)
    ensures forall i :: 0 <= i < |h| ==> h[i] < |rows|
  {
    if |rows| == 0 then []
    else
      var h := Heads(l, rows[..|rows| - 1]);
      var key := if |h| > 0 then HeadKey(l, rows[h[|h| - 1]]) else None;
      if key.Some? && StrictEq(key.value, Field(rows[|rows| - 1], "id")) then h else h + [|rows| - 1]
  }

  /**
   * One result row per record: as many as `Heads` has, and the last one is
   * matched on the `id` of the row that started it.
   */
  lemma {:induction false} ReduceRuns(l: map<string, KeyInfo>, known: set<string>, rows: seq<Row>)
    requires FromKeys(l) && Reduce(l, known, rows).Ok?
    ensures |Reduce(l, known, rows).value.objs| == |Heads(l, rows)|
    ensures |rows| > 0 ==> LastMatched(l, Reduce(l, known, rows).value.objs, rows, Heads(l, rows))
  {
    if |rows| > 0 {
      var init := rows[..|rows| - 1];
      ReduceSnoc(l, known, rows);
      ReduceRuns(l, known, init);
      HeadsSnoc(l, rows);
      RunsGlue(l, known, rows, Reduce(l, known, init).value, Reduce(l, known, rows).value, Heads(l, init), Heads(l, rows));
    }
  }

  /** `Reduce` on a non-empty list is one `Step` after the rest. */
  lemma {:induction false} ReduceSnoc(l: map<string, KeyInfo>, known: set<string>, rows: seq<Row>)
    requires |rows| > 0 && Reduce(l, known, rows).Ok?
    ensures Reduce(l, known, rows[..|rows| - 1]).Ok?
    ensures Step(l, known, Reduce(l, known, rows[..|rows| - 1]).value, rows[|rows| - 1]) == Reduce(l, known, rows)
  {
  }

  /** The record a prefix of `rows` ended with is matched on a row of `rows`. */
  lemma {:induction false} LastHead(l: map<string, KeyInfo>, objs: seq<Obj>, init: seq<Row>, rows: seq<Row>, h: seq<nat>)
    requires |rows| > 0 && init == rows[..|rows| - 1]
    requires |objs| == |h| && LastMatched(l, objs, init, h)
    ensures IdOf(objs[|h| - 1]) == HeadKey(l, rows[h[|h| - 1]])
  {
    assert rows[h[|h| - 1]] == init[h[|h| - 1]];
  }

  /** The induction step of `ReduceRuns`, on the values `Reduce` and `Heads` give before and after the last row. */
  lemma {:induction false} RunsGlue(l: map<string, KeyInfo>, known: set<string>, rows: seq<Row>, st: State, r: State, h: seq<nat>, h2: seq<nat>)
    requires FromKeys(l) && |rows| > 0 && Shaped(l, st.skel) && Step(l, known, st, rows[|rows| - 1]) == Ok(r)
    requires |st.objs| == |h| && (|h| > 0 ==> LastMatched(l, st.objs, rows[..|rows| - 1], h))
    requires h2 == var key := if |h| > 0 then HeadKey(l, rows[h[|h| - 1]]) else None;
                   if key.Some? && StrictEq(key.value, Field(rows[|rows| - 1], "id")) then h else h + [|rows| - 1]
    ensures |r.objs| == |h2| && LastMatched(l, r.objs, rows, h2)
  {
    var head := if |h| > 0 then Some(rows[h[|h| - 1]]) else None;
    if |h| > 0 {
      LastHead(l, st.objs, rows[..|rows| - 1], rows, h);
    }
    RunsStep(l, known, st, |h|, head, rows[|rows| - 1], r);
  }

  /** One more row either continues the last record or starts one at its own index. */
  lemma {:induction false} HeadsSnoc(l: map<string, KeyInfo>, rows: seq<Row>)
    requires |rows| > 0
    ensures var h := Heads(l, rows[..|rows| - 1]);
            var key := if |h| > 0 then HeadKey(l, rows[h[|h| - 1]]) else None;
            Heads(l, rows) == if key.Some? && StrictEq(key.value, Field(rows[|rows| - 1], "id")) then h else h + [|rows| - 1]
  {
    var h := Heads(l, rows[..|rows| - 1]);
    assert |h| > 0 ==> rows[..|rows| - 1][h[|h| - 1]] == rows[h[|h| - 1]];
  }

  /** The last record is matched on the `id` of the row that started it. */
  predicate LastMatched(l: map<string, KeyInfo>, objs: seq<Obj>, rows: seq<Row>, h: seq<nat>)
  {
    |objs| > 0 && |h| > 0 && h[|h| - 1] < |rows| && IdOf(objs[|objs| - 1]) == HeadKey(l, rows[h[|h| - 1]])
  }

  /** One row moves the record count and the matched `id` exactly as `Heads` does. */
  lemma {:induction false} RunsStep(l: map<string, KeyInfo>, known: set<string>, st: State, n: nat, head: Option<Row>, row: Row, r: State)
    requires FromKeys(l) && Shaped(l, st.skel) && Step(l, known, st, row) == Ok(r)
    requires |st.objs| == n && (n > 0 <==> head.Some?)
    requires n > 0 ==> IdOf(st.objs[n - 1]) == HeadKey(l, head.value)
    ensures var key := if head.Some? then HeadKey(l, head.value) else None;
            var same := key.Some? && StrictEq(key.value, Field(row, "id"));
            |r.objs| == n + (if same then 0 else 1) &&
            IdOf(r.objs[|r.objs| - 1]) == if same then key else HeadKey(l, row)
  {
    if SameRun(st.objs, row) {
      StepJoins(l, known, st, row);
      PushedId(l, st.objs[n - 1], Assign(l, st.skel, row, true), r.objs[|r.objs| - 1]);
    } else {
      StepStarts(l, known, st, row);
      NewRecordId(l, st.skel, row, r.objs[|r.objs| - 1]);
    }
  }

  /** `Step` on a row of the current record, with its intermediate values named. */
  lemma {:induction false} StepJoins(l: map<string, KeyInfo>, known: set<string>, st: State, row: Row)
    requires Shaped(l, st.skel) && SameRun(st.objs, row)
    requires Step(l, known, st, row).Ok?
    ensures var skel2 := Assign(l, st.skel, row, true);
            var pushed := PushAll(st.objs[|st.objs| - 1], MultipleNames(l), skel2);
            pushed.Ok? && Step(l, known, st, row) == Ok(State(st.objs[..|st.objs| - 1] + [pushed.value], skel2))
  {
    var skel2 := Assign(l, st.skel, row, true);
    assert MultipleNames(l) <= known;
    assert PushAll(st.objs[|st.objs| - 1], MultipleNames(l), skel2).Ok?;
  }

  /** Pushing models keeps the matched `id`, unless a multiple join is named `id`. */
  lemma {:induction false} PushedId(l: map<string, KeyInfo>, o: Obj, skel: Skeleton, o': Obj)
    requires MultipleNames(l) <= skel.Keys && PushAll(o, MultipleNames(l), skel) == Ok(o')
    ensures IdOf(o') == if "id" in MultipleNames(l) then None else IdOf(o)
  {
  }

  /** A new record is matched on its row's `id`, unless a join is named `id`. */
  lemma {:induction false} NewRecordId(l: map<string, KeyInfo>, skel: Skeleton, row: Row, o: Obj)
    requires Shaped(l, skel) && NewRecord(l, skel, row, o)
    ensures IdOf(o) == HeadKey(l, row)
  {
    var skel1 := Assign(l, skel, row, false);
    var started := Started(l, skel1, row);
    PushedId(l, started, Assign(l, skel1, row, true), o);
    assert "id" in Mains(l) <==> "id" in SingleNames(l) || "id" in MultipleNames(l);
  }

  // ---------------------------------------------------------------------
  // Examples

  /** Without `$` columns a row of a new record becomes a result row as it is, and a row of the current one changes nothing. */
  lemma {:induction false} NoJoinStep(known: set<string>, st: State, row: Row)
    requires st.skel == map[]
    ensures Step(map[], known, st, row) == Ok(State(if SameRun(st.objs, row) then st.objs else st.objs + [RawObj(row)], map[]))
  {
    var l: map<string, KeyInfo> := map[];
    assert Mains(l) == {};
    assert SingleNames(l) == {} && MultipleNames(l) == {};
    assert Assign(l, map[], row, false) == map[];
    assert Assign(l, map[], row, true) == map[];
    assert Started(l, map[], row) == RawObj(row);
    var objs1 := if SameRun(st.objs, row) then st.objs else st.objs + [RawObj(row)];
    var last := |objs1| - 1;
    var pushed := PushAll(objs1[last], {}, map[]);
    assert pushed.Ok?;
    assert pushed.value.Keys == objs1[last].Keys;
    assert pushed.value == objs1[last];
    assert objs1[..last] + [objs1[last]] == objs1;
  }

  /** A raw row is matched on its own `id`. */
  lemma {:induction false} RawObjId(row: Row)
    ensures IdOf(RawObj(row)) == Some(Field(row, "id"))
  {
  }

  /**
   * A query without joins returns one result row per run of equal `id`s:
   * the run's first row, as it is.
   */
  lemma {:induction false} NoJoins(known: set<string>, rows: seq<Row>)
    ensures Reduce(map[], known, rows).Ok? && Reduce(map[], known, rows).value.skel == map[]
    ensures RawRuns(Reduce(map[], known, rows).value.objs, rows, Heads(map[], rows))
  {
    var l: map<string, KeyInfo> := map[];
    if |rows| == 0 {
      assert Mains(l) == {};
      assert InitSkeleton(l) == map[];
    } else {
      var init := rows[..|rows| - 1];
      NoJoins(known, init);
      var st := Reduce(l, known, init).value;
      assert Reduce(l, known, rows) == Ok(State(if SameRun(st.objs, rows[|rows| - 1]) then st.objs else st.objs + [RawObj(rows[|rows| - 1])], map[])) by {
        ReduceSnocOk(l, known, rows);
        NoJoinStep(known, st, rows[|rows| - 1]);
      }
      HeadsSnoc(l, rows);
      NoJoinsGlue(known, rows, st, Reduce(l, known, rows).value, Heads(l, init), Heads(l, rows));
    }
  }

  /** `Reduce` on a non-empty list whose prefix reduces is one `Step` after the prefix. */
  lemma {:induction false} ReduceSnocOk(l: map<string, KeyInfo>, known: set<string>, rows: seq<Row>)
    requires |rows| > 0 && Reduce(l, known, rows[..|rows| - 1]).Ok?
    ensures Reduce(l, known, rows) == Step(l, known, Reduce(l, known, rows[..|rows| - 1]).value, rows[|rows| - 1])
  {
  }

  /** Each result row is the row `h` names, as it is. */
  predicate RawRuns(objs: seq<Obj>, rows: seq<Row>, h: seq<nat>)
  {
    |objs| == |h| && forall i :: 0 <= i < |h| ==> h[i] < |rows| && objs[i] == RawObj(rows[h[i]])
  }

  /** The induction step of `NoJoins`, on the values `Reduce` and `Heads` give before and after the last row. */
  lemma {:induction false} NoJoinsGlue(known: set<string>, rows: seq<Row>, st: State, r: State, h: seq<nat>, h2: seq<nat>)
    requires |rows| > 0 && RawRuns(st.objs, rows[..|rows| - 1], h)
    requires r == State(if SameRun(st.objs, rows[|rows| - 1]) then st.objs else st.objs + [RawObj(rows[|rows| - 1])], map[])
    requires h2 == var key := if |h| > 0 then HeadKey(map[], rows[h[|h| - 1]]) else None;
                   if key.Some? && StrictEq(key.value, Field(rows[|rows| - 1], "id")) then h else h + [|rows| - 1]
    ensures RawRuns(r.objs, rows, h2)
  {
    var l: map<string, KeyInfo> := map[];
    var row := rows[|rows| - 1];
    forall i | 0 <= i < |h| ensures st.objs[i] == RawObj(rows[h[i]]) {
      assert rows[..|rows| - 1][h[i]] == rows[h[i]];
    }
    if |h| > 0 {
      RawObjId(rows[h[|h| - 1]]);
      assert "id" !in Mains(l);
    }
    if SameRun(st.objs, row) {
      assert h2 == h && r.objs == st.objs;
    } else {
      assert h2 == h + [|rows| - 1] && r.objs == st.objs + [RawObj(row)];
    }
    forall i | 0 <= i < |h2|
      ensures r.objs[i] == RawObj(rows[h2[i]])
    {
      if i < |h| {
        assert r.objs[i] == st.objs[i] && h2[i] == h[i];
      }
    }
  }

  /** Rows with ids 1, 2, 1 and no `$` columns make three records: only adjacent rows are merged. */
  lemma {:induction false} NonAdjacentIdsStaySeparate(a: Row, b: Row, c: Row)
    requires a.Keys == {"id"} && Field(a, "id") == Num(1) && Field(b, "id") == Num(2) && Field(c, "id") == Num(1)
    ensures ParseModels({}, [a, b, c]) == Ok([RawObj(a), RawObj(b), RawObj(c)])
  {
    var rows := [a, b, c];
    assert Reduce(map[], {}, rows).Ok? && RawRuns(Reduce(map[], {}, rows).value.objs, rows, [0, 1, 2]) by {
      assert rows[..2] == [a, b] && rows[..|rows| - 1] == rows[..2];
      AdjacentHeads(a, b);
      NoJoinHeads(rows);
      NoJoins({}, rows);
    }
    ParseWithoutJoins(rows);
    var objs := Reduce(map[], {}, rows).value.objs;
    Three(objs, RawObj(a), RawObj(b), RawObj(c));
  }

  lemma {:induction false} Three<T>(s: seq<T>, x: T, y: T, z: T)
    requires |s| == 3 && s[0] == x && s[1] == y && s[2] == z
    ensures s == [x, y, z]
  {
  }

  /** Two rows with different ids start a record each. */
  lemma {:induction false} AdjacentHeads(a: Row, b: Row)
    requires !StrictEq(Field(a, "id"), Field(b, "id"))
    ensures Heads(map[], [a, b]) == [0, 1]
  {
    var rows := [a, b];
    NoJoinHeads(rows[..1]);
    NoJoinHeads(rows);
    assert rows[..1][..0] == [] && rows[..|rows| - 1] == rows[..1];
  }

  /** Two rows with id 1 and no `$` columns make one record, the first row. */
  lemma {:induction false} AdjacentIdsMerge(a: Row, b: Row)
    requires a.Keys == {"id"} && Field(a, "id") == Num(1) && Field(b, "id") == Num(1)
    ensures ParseModels({}, [a, b]) == Ok([RawObj(a)])
  {
    var rows := [a, b];
    NoJoinHeads(rows[..1]);
    NoJoinHeads(rows);
    assert rows[..1][..0] == [] && rows[..|rows| - 1] == rows[..1];
    assert Heads(map[], rows[..1]) == [0];
    assert Heads(map[], rows) == [0];
    NoJoins({}, rows);
    ParseWithoutJoins(rows);
    var objs := Reduce(map[], {}, rows).value.objs;
    assert objs == [RawObj(a)] by {
      assert |objs| == 1 && objs[0] == RawObj(a);
    }
  }

  /** Without joins, a row starts a record exactly when its `id` differs from that of the record's first row. */
  lemma {:induction false} NoJoinHeads(rows: seq<Row>)
    requires |rows| > 0
    ensures var h := Heads(map[], rows[..|rows| - 1]);
            Heads(map[], rows) ==
              if |h| > 0 && StrictEq(Field(rows[h[|h| - 1]], "id"), Field(rows[|rows| - 1], "id")) then h else h + [|rows| - 1]
  {
    var l: map<string, KeyInfo> := map[];
    assert Mains(l) == {};
    HeadsSnoc(l, rows);
  }

  /** Rows whose only column is `id` are reduced with the empty lookup. */
  lemma {:induction false} ParseWithoutJoins(rows: seq<Row>)
    requires |rows| > 0 && rows[0].Keys == {"id"}
    requires Reduce(map[], {}, rows).Ok?
    ensures ParseModels({}, rows) == Ok(Reduce(map[], {}, rows).value.objs)
  {
    OnlyIdKey();
  }

  /** A plain `id` column gives no lookup entry. */
  lemma {:induction false} OnlyIdKey()
    ensures !LookupFails({"id"}) && Lookup({"id"}) == map[]
  {
    assert !IsJoinKey("id") && !IsMultipleKey("id");
  }
}
