/**
 * The dialect-neutral half of the SQL generator: identifier escaping,
 * layered type-property resolution, the key filters, CREATE/ALTER/DROP
 * statements and the INSERT/UPDATE/DELETE templates with positional
 * `$n` parameters.
 */
module SqlAdapter {
  import opened Wrappers
  import opened Strings
  import opened Values
  import opened Fragments

  /** The seven column properties, in the adapter's `typeProperties` order. */
  datatype PropKey = Length | Nullable | Unique | PrimaryKey | AutoIncrement | IsArray | DefaultValue

  const TypePropertyKeys: seq<PropKey> :=
    [Length, Nullable, Unique, PrimaryKey, AutoIncrement, IsArray, DefaultValue]

  function PropName(k: PropKey): string
  {
    match k
    case Length => "length"
    case Nullable => "nullable"
    case Unique => "unique"
    case PrimaryKey => "primary_key"
    case AutoIncrement => "auto_increment"
    case IsArray => "array"
    case DefaultValue => "defaultValue"
  }

  /** `typePropertyDefaults`. */
  function DefaultProp(k: PropKey): Val
  {
    match k
    case Length => Null
    case Nullable => Bool(true)
    case Unique => Bool(false)
    case PrimaryKey => Bool(false)
    case AutoIncrement => Bool(false)
    case IsArray => Bool(false)
    case DefaultValue => Null
  }

  /** An object's own column properties; a missing key is a key it does not own. */
  type Props = map<PropKey, Val>

  /** Reading a property of an object whose prototype is `typePropertyDefaults`. */
  function Lookup(p: Props, k: PropKey): Val
  {
    if k in p then p[k] else DefaultProp(k)
  }

  /** An entry of the dialect's `types` table; `properties` absent is the empty map. */
  datatype TypeDef = TypeDef(dbName: string, properties: Props)

  /** A column descriptor `{name, type, properties}`. */
  datatype ColumnData = ColumnData(name: string, typeName: string, properties: Props)

  /**
   * The members a concrete dialect supplies: its escape character, its type
   * and sanitiser tables, and the statement builders the neutral code calls.
   * Each builder receives the table or column name, the database type name
   * and the resolved properties, as the corresponding method does.
   */
  datatype Dialect = Dialect(
    quote: string,
    types: map<string, TypeDef>,
    sanitizeType: map<string, Val -> Val>,
    column: (string, string, Props) -> string,
    primaryKey: (string, string) -> string,
    uniqueKey: (string, string) -> string,
    alterTableColumnType: (string, string, string, Props) -> string,
    addPrimaryKey: (string, string) -> string,
    dropPrimaryKey: (string, string) -> string,
    addUniqueKey: (string, string) -> string,
    dropUniqueKey: (string, string) -> string,
    addColumn: (string, string, string, Props) -> string,
    dropColumn: (string, string) -> string,
    renameColumn: (string, string, string) -> string,
    createIndex: (string, string, string) -> string,
    dropIndex: (string, string) -> string)

  /** `escapeField(name)`: the name between two escape characters, nothing doubled. */
  function EscapeField(quote: string, name: string): string
  {
    quote + name + quote
  }

  /** `escapeField` in sql_adapter.js builds it as `['', name, ''].join(quote)`. */
  lemma {:induction false} EscapeFieldJoin(quote: string, name: string)
    ensures EscapeField(quote, name) == Join(["", name, ""], quote)
  {
    assert ["", name, ""][1..] == [name, ""];
    assert [name, ""][1..] == [""];
    assert Join([name, ""], quote) == name + quote;
    assert Join(["", name, ""], quote) == "" + quote + (name + quote);
  }

  /** `escapeField(table) + '.' + escapeField(column)`. */
  function Qualified(quote: string, table: string, column: string): string
  {
    EscapeField(quote, table) + "." + EscapeField(quote, column)
  }

  function EscapeAll(quote: string, names: seq<string>): (r: seq<string>)
    ensures |r| == |names|
    ensures forall i :: 0 <= i < |names| ==> r[i] == EscapeField(quote, names[i])
  {
    if |names| == 0 then [] else [EscapeField(quote, names[0])] + EscapeAll(quote, names[1..])
  }

  /** `sanitize(type, value)`: the dialect's sanitiser for the type, if it has one. */
  function Sanitize(d: Dialect, typeName: string, v: Val): (r: Val)
    ensures typeName !in d.sanitizeType ==> r == v
  {
    if typeName in d.sanitizeType then d.sanitizeType[typeName](v) else v
  }

  /** The own properties of the named type (`{}` for an unknown type). */
  function TypeOwnProps(d: Dialect, typeName: string): Props
  {
    if typeName in d.types then d.types[typeName].properties else map[]
  }

  /**
   * The `forEach` of `getTypeProperties` over the listed keys, writing each
   * key the caller or the type supplies into the output object.
   */
  function Overlay(keys: seq<PropKey>, optional: Props, own: Props, acc: Props): (r: Props)
    ensures forall k :: k in keys && k in optional ==> k in r && r[k] == optional[k]
    ensures forall k :: k in keys && k !in optional && k in own ==> k in r && r[k] == own[k]
    ensures forall k :: k !in keys ==> (k in r <==> k in acc) && (k in acc ==> r[k] == acc[k])
    ensures forall k :: k in keys && k !in optional && k !in own ==> (k in r <==> k in acc) && (k in acc ==> r[k] == acc[k])
  {
    if |keys| == 0 then acc
    else
      var k := keys[0];
      var next :=
        if k in optional then acc[k := optional[k]]
        else if k in own then acc[k := own[k]]
        else acc;
      Overlay(keys[1..], optional, own, next)
  }

  /** The value a property must resolve to: the caller's, else the type's, else the default. */
  function Resolved(optional: Props, own: Props, k: PropKey): Val
  {
    if k in optional then optional[k] else if k in own then own[k] else DefaultProp(k)
  }

  /**
   * `getTypeProperties(typeName, optionalValues)`: the own properties of the
   * output object. Read through `Lookup`, every property resolves to the
   * caller's value, else the type's own value, else the default.
   */
  function GetTypeProperties(d: Dialect, typeName: string, optional: Props): (r: Props)
    ensures forall k :: Lookup(r, k) == Resolved(optional, TypeOwnProps(d, typeName), k)
  {
    OverlayResolves(optional, TypeOwnProps(d, typeName));
    Overlay(TypePropertyKeys, optional, TypeOwnProps(d, typeName), map[])
  }

  lemma {:induction false} AllKeysListed(k: PropKey)
    ensures k in TypePropertyKeys
  {
    match k
    case Length => assert TypePropertyKeys[0] == k;
    case Nullable => assert TypePropertyKeys[1] == k;
    case Unique => assert TypePropertyKeys[2] == k;
    case PrimaryKey => assert TypePropertyKeys[3] == k;
    case AutoIncrement => assert TypePropertyKeys[4] == k;
    case IsArray => assert TypePropertyKeys[5] == k;
    case DefaultValue => assert TypePropertyKeys[6] == k;
  }

  /** Overlaying every key on an empty object resolves each key by priority. */
  lemma {:induction false} OverlayResolves(optional: Props, own: Props)
    ensures forall k :: Lookup(Overlay(TypePropertyKeys, optional, own, map[]), k) == Resolved(optional, own, k)
  {
    var r := Overlay(TypePropertyKeys, optional, own, map[]);
    forall k ensures Lookup(r, k) == Resolved(optional, own, k) {
      AllKeysListed(k);
    }
  }

  /** `getTypeDbName`: unknown types are `INTEGER`. */
  function GetTypeDbName(d: Dialect, typeName: string): (r: string)
    ensures typeName !in d.types ==> r == "INTEGER"
    ensures typeName in d.types ==> r == d.types[typeName].dbName
  {
    if typeName in d.types then d.types[typeName].dbName else "INTEGER"
  }

  /** The resolved properties of a column descriptor. */
  function ColumnProps(d: Dialect, c: ColumnData): Props
  {
    GetTypeProperties(d, c.typeName, c.properties)
  }

  predicate IsAutoIncrement(d: Dialect, c: ColumnData)
  {
    Truthy(Lookup(ColumnProps(d, c), AutoIncrement))
  }

  predicate IsPrimary(d: Dialect, c: ColumnData)
  {
    Truthy(Lookup(ColumnProps(d, c), PrimaryKey))
  }

  predicate IsUniqueKey(d: Dialect, c: ColumnData)
  {
    !IsPrimary(d, c) && Truthy(Lookup(ColumnProps(d, c), Unique))
  }

  /** `Array.prototype.filter`: keeps exactly the elements satisfying `p`, in order. */
  function FilterSeq<T(!new)>(s: seq<T>, p: T -> bool): (r: seq<T>)
    ensures |r| <= |s|
    ensures forall x :: x in r <==> x in s && p(x)
  {
    if |s| == 0 then []
    else (if p(s[0]) then [s[0]] else []) + FilterSeq(s[1..], p)
  }

  /** Filtering distributes over concatenation, so it keeps the input order. */
  lemma {:induction false} FilterSeqAppend<T(!new)>(a: seq<T>, b: seq<T>, p: T -> bool)
    ensures FilterSeq(a + b, p) == FilterSeq(a, p) + FilterSeq(b, p)
  {
    if |a| == 0 {
      assert a + b == b;
    } else {
      assert (a + b)[1..] == a[1..] + b;
      FilterSeqAppend(a[1..], b, p);
    }
  }

  /** `r` is `s` with some elements left out, the rest in their order. */
  predicate Subsequence<T(==)>(r: seq<T>, s: seq<T>)
    decreases |s|
  {
    if |r| == 0 then true
    else if |s| == 0 then false
    else (r[0] == s[0] && Subsequence(r[1..], s[1..])) || Subsequence(r, s[1..])
  }

  /** Filtering keeps the surviving elements in their input order. */
  lemma {:induction false} FilterSeqSubsequence<T(!new)>(s: seq<T>, p: T -> bool)
    ensures Subsequence(FilterSeq(s, p), s)
  {
    if |s| > 0 {
      FilterSeqSubsequence(s[1..], p);
      var r := FilterSeq(s, p);
      if p(s[0]) {
        assert r == [s[0]] + FilterSeq(s[1..], p);
        assert r[0] == s[0] && r[1..] == FilterSeq(s[1..], p);
        assert Subsequence(r[1..], s[1..]);
      } else {
        assert r == FilterSeq(s[1..], p);
        assert Subsequence(r, s[1..]);
      }
    }
  }

  /** Filtering twice is filtering once by both tests. */
  lemma {:induction false} FilterSeqTwice<T(!new)>(s: seq<T>, p: T -> bool, q: T -> bool, pq: T -> bool)
    requires forall x :: pq(x) == (p(x) && q(x))
    ensures FilterSeq(FilterSeq(s, p), q) == FilterSeq(s, pq)
  {
    if |s| > 0 {
      FilterSeqTwice(s[1..], p, q, pq);
      var r := FilterSeq(s, p);
      if p(s[0]) {
        assert r == [s[0]] + FilterSeq(s[1..], p);
        assert r[0] == s[0] && r[1..] == FilterSeq(s[1..], p);
        assert FilterSeq(r, q) == (if q(s[0]) then [s[0]] else []) + FilterSeq(FilterSeq(s[1..], p), q);
      } else {
        assert r == FilterSeq(s[1..], p);
      }
    }
  }

  /** `getAutoIncrementKeys`. */
  function GetAutoIncrementKeys(d: Dialect, cols: seq<ColumnData>): (r: seq<ColumnData>)
    ensures forall c :: c in r <==> c in cols && IsAutoIncrement(d, c)
  {
    FilterSeq(cols, c => IsAutoIncrement(d, c))
  }

  /** `getPrimaryKeys`. */
  function GetPrimaryKeys(d: Dialect, cols: seq<ColumnData>): (r: seq<ColumnData>)
    ensures forall c :: c in r <==> c in cols && IsPrimary(d, c)
  {
    FilterSeq(cols, c => IsPrimary(d, c))
  }

  /** `getUniqueKeys`: unique columns that are not primary keys. */
  function GetUniqueKeys(d: Dialect, cols: seq<ColumnData>): (r: seq<ColumnData>)
    ensures forall c :: c in r ==> !IsPrimary(d, c)
    ensures forall c :: c in r <==> c in cols && !IsPrimary(d, c) && Truthy(Lookup(ColumnProps(d, c), Unique))
  {
    FilterSeq(cols, c => IsUniqueKey(d, c))
  }

  /** The three key filters keep the order of their input. */
  lemma {:induction false} KeyFiltersKeepOrder(d: Dialect, a: seq<ColumnData>, b: seq<ColumnData>)
    ensures GetAutoIncrementKeys(d, a + b) == GetAutoIncrementKeys(d, a) + GetAutoIncrementKeys(d, b)
    ensures GetPrimaryKeys(d, a + b) == GetPrimaryKeys(d, a) + GetPrimaryKeys(d, b)
    ensures GetUniqueKeys(d, a + b) == GetUniqueKeys(d, a) + GetUniqueKeys(d, b)
  {
    FilterSeqAppend(a, b, c => IsAutoIncrement(d, c));
    FilterSeqAppend(a, b, c => IsPrimary(d, c));
    FilterSeqAppend(a, b, c => IsUniqueKey(d, c));
  }

  function ColumnDefinitions(d: Dialect, cols: seq<ColumnData>): (r: seq<string>)
    ensures |r| == |cols|
  {
    if |cols| == 0 then []
    else
      var c := cols[0];
      [d.column(c.name, GetTypeDbName(d, c.typeName), ColumnProps(d, c))] + ColumnDefinitions(d, cols[1..])
  }

  function PrimaryKeyDefinitions(d: Dialect, table: string, cols: seq<ColumnData>): (r: seq<string>)
    ensures |r| == |cols|
  {
    if |cols| == 0 then [] else [d.primaryKey(table, cols[0].name)] + PrimaryKeyDefinitions(d, table, cols[1..])
  }

  function UniqueKeyDefinitions(d: Dialect, table: string, cols: seq<ColumnData>): (r: seq<string>)
    ensures |r| == |cols|
  {
    if |cols| == 0 then [] else [d.uniqueKey(table, cols[0].name)] + UniqueKeyDefinitions(d, table, cols[1..])
  }

  /** `generateColumnsStatement`. */
  function ColumnsStatement(d: Dialect, cols: seq<ColumnData>): string
  {
    Join(ColumnDefinitions(d, cols), ",")
  }

  /** `generatePrimaryKeysStatement`. */
  function PrimaryKeysStatement(d: Dialect, table: string, cols: seq<ColumnData>): string
  {
    Join(PrimaryKeyDefinitions(d, table, GetPrimaryKeys(d, cols)), ",")
  }

  /** `generateUniqueKeysStatement`. */
  function UniqueKeysStatement(d: Dialect, table: string, cols: seq<ColumnData>): string
  {
    Join(UniqueKeyDefinitions(d, table, GetUniqueKeys(d, cols)), ",")
  }

  /** `filter(v => !!v)` on strings: drops the empty ones and keeps the order of the rest. */
  function NonEmpty(parts: seq<string>): (r: seq<string>)
    ensures forall i :: 0 <= i < |r| ==> r[i] != ""
    ensures forall p :: p in r <==> p in parts && p != ""
  {
    var r := FilterSeq(parts, (p: string) => p != "");
    assert forall i :: 0 <= i < |r| ==> r[i] in r;
    r
  }

  /** `generateCreateTableQuery` of the neutral adapter. */
  function CreateTable(d: Dialect, table: string, cols: seq<ColumnData>): string
  {
    "CREATE TABLE " + EscapeField(d.quote, table) + "(" +
    Join(NonEmpty([ColumnsStatement(d, cols), PrimaryKeysStatement(d, table, cols), UniqueKeysStatement(d, table, cols)]), ",") +
    ")"
  }

  /**
   * Empty sections are dropped before the comma join: with no primary-key
   * and no unique-key columns the body is the column list alone (and empty
   * when there are no columns), with no blank section and no stray comma.
   */
  lemma {:induction false} CreateTableWithoutKeys(d: Dialect, table: string, cols: seq<ColumnData>)
    requires GetPrimaryKeys(d, cols) == [] && GetUniqueKeys(d, cols) == []
    ensures CreateTable(d, table, cols) == "CREATE TABLE " + EscapeField(d.quote, table) + "(" + ColumnsStatement(d, cols) + ")"
  {
    assert PrimaryKeysStatement(d, table, cols) == "";
    assert UniqueKeysStatement(d, table, cols) == "";
    NonEmptyBlanks(ColumnsStatement(d, cols));
  }

  lemma {:induction false} NonEmptyBlanks(x: string)
    ensures Join(NonEmpty([x, "", ""]), ",") == x
  {
    var p := (s: string) => s != "";
    assert FilterSeq(["", ""], p) == [] by {
      assert ["", ""][1..] == [""];
      assert FilterSeq([""], p) == [] by { assert [""][1..] == []; }
    }
    assert [x, "", ""][1..] == ["", ""];
    assert NonEmpty([x, "", ""]) == (if x != "" then [x] else []);
  }

  lemma {:induction false} CreateTableNoColumns(d: Dialect, table: string)
    ensures CreateTable(d, table, []) == "CREATE TABLE " + EscapeField(d.quote, table) + "()"
  {
    CreateTableWithoutKeys(d, table, []);
  }

  /** `generateDropTableQuery`. */
  function DropTable(d: Dialect, table: string, ifExists: bool): string
  {
    "DROP TABLE " + (if ifExists then "IF EXISTS " else "") + EscapeField(d.quote, table)
  }

  /** `generateTruncateTableQuery`. */
  function TruncateTable(d: Dialect, table: string): string
  {
    "TRUNCATE TABLE " + EscapeField(d.quote, table) + " RESTART IDENTITY"
  }

  /** `generateUnionQuery`. */
  function UnionQuery(queries: seq<string>): string
  {
    Join(Parenthesised(queries), " UNION ")
  }

  function Parenthesised(queries: seq<string>): (r: seq<string>)
    ensures |r| == |queries|
    ensures forall i :: 0 <= i < |r| ==> r[i] == "(" + queries[i] + ")"
  {
    if |queries| == 0 then [] else ["(" + queries[0] + ")"] + Parenthesised(queries[1..])
  }

  lemma {:induction false} UnionQueryShape(a: string, b: string)
    ensures UnionQuery([a]) == "(" + a + ")"
    ensures UnionQuery([a, b]) == "(" + a + ") UNION (" + b + ")"
  {
    assert Parenthesised([a]) == ["(" + a + ")"];
    var p := Parenthesised([a, b]);
    assert p == ["(" + a + ")", "(" + b + ")"];
    assert p[1..] == ["(" + b + ")"];
    assert Join(p, " UNION ") == p[0] + " UNION " + Join(p[1..], " UNION ");
  }

  /** `$lo,$(lo+1),…` with `n` parameters, comma-separated. */
  function ParamList(lo: nat, n: nat): (r: Sql)
    ensures VarCount(r) == 0
    ensures Placeholders(r) == Range(lo, lo + n)
    decreases n
  {
    if n == 0 then []
    else if n == 1 then [Param(lo)]
    else [Param(lo), Text(",")] + ParamList(lo + 1, n - 1)
  }

  /** `generateInsertQuery`. */
  function InsertQuery(d: Dialect, table: string, columnNames: seq<string>): (r: Sql)
    ensures VarCount(r) == 0
    ensures Placeholders(r) == Range(1, |columnNames| + 1)
  {
    var head := T("INSERT INTO " + EscapeField(d.quote, table) + "(" + Join(EscapeAll(d.quote, columnNames), ",") + ") VALUES(");
    var params := ParamList(1, |columnNames|);
    var tail := T(") RETURNING *");
    Concat3(head, params, tail);
    head + params + tail
  }

  /** `generateDeleteQuery`. */
  function DeleteQuery(d: Dialect, table: string, columnNames: seq<string>): (r: Sql)
    ensures VarCount(r) == 0
    ensures Placeholders(r) == Range(1, |columnNames| + 1)
  {
    var head := T("DELETE FROM " + EscapeField(d.quote, table) + " WHERE (" + Join(EscapeAll(d.quote, columnNames), ",") + ") = (");
    var params := ParamList(1, |columnNames|);
    var tail := T(") RETURNING *");
    Concat3(head, params, tail);
    head + params + tail
  }

  /** A `[column, fields, fn]` entry of `columnFunctions`: `fn` receives the escaped fields. */
  datatype ColumnFunction = ColumnFunction(column: string, fields: seq<string>, fn: seq<string> -> string)

  function FunctionColumns(quote: string, fs: seq<ColumnFunction>): (r: seq<string>)
    ensures |r| == |fs|
  {
    if |fs| == 0 then [] else [EscapeField(quote, fs[0].column)] + FunctionColumns(quote, fs[1..])
  }

  function FunctionValues(quote: string, fs: seq<ColumnFunction>): (r: seq<Sql>)
    ensures |r| == |fs|
    ensures forall i :: 0 <= i < |r| ==> VarCount(r[i]) == 0 && Placeholders(r[i]) == []
  {
    if |fs| == 0 then [] else [T(fs[0].fn(EscapeAll(quote, fs[0].fields)))] + FunctionValues(quote, fs[1..])
  }

  function ParamSlots(lo: nat, n: nat): (r: seq<Sql>)
    ensures |r| == n
    ensures forall i :: 0 <= i < n ==> r[i] == [Param(lo + i)]
    decreases n
  {
    if n == 0 then [] else [[Param(lo)]] + ParamSlots(lo + 1, n - 1)
  }

  lemma {:induction false} PlaceholdersJoinSlots(lo: nat, n: nat, rest: seq<Sql>, sep: string)
    requires forall i :: 0 <= i < |rest| ==> Placeholders(rest[i]) == [] && VarCount(rest[i]) == 0
    ensures Placeholders(JoinSql(ParamSlots(lo, n) + rest, sep)) == Range(lo, lo + n)
    ensures VarCount(JoinSql(ParamSlots(lo, n) + rest, sep)) == 0
    decreases n
  {
    var parts := ParamSlots(lo, n) + rest;
    if n == 0 {
      assert parts == rest;
      PlaceholdersJoin(rest, sep);
      VarCountJoin(rest, sep);
      NoVarsSum(rest);
    } else {
      assert parts[0] == [Param(lo)];
      assert parts[1..] == ParamSlots(lo + 1, n - 1) + rest;
      PlaceholdersJoinSlots(lo + 1, n - 1, rest, sep);
      if |parts| == 1 {
        assert JoinSql(parts, sep) == [Param(lo)];
      } else {
        var tail := JoinSql(parts[1..], sep);
        assert JoinSql(parts, sep) == [Param(lo)] + T(sep) + tail;
        PlaceholdersAppend([Param(lo)] + T(sep), tail);
        PlaceholdersAppend([Param(lo)], T(sep));
        VarCountAppend([Param(lo)] + T(sep), tail);
        VarCountAppend([Param(lo)], T(sep));
      }
    }
  }

  lemma {:induction false} NoVarsSum(parts: seq<Sql>)
    requires forall i :: 0 <= i < |parts| ==> VarCount(parts[i]) == 0
    ensures SumVarCounts(parts) == 0
  {
    if |parts| > 0 {
      NoVarsSum(parts[1..]);
    }
  }

  /** The SET values: `$lo…` for the plain columns, then the function columns' expressions. */
  function UpdateValues(quote: string, lo: nat, n: nat, columnFunctions: seq<ColumnFunction>): (r: Sql)
    ensures VarCount(r) == 0 && Placeholders(r) == Range(lo, lo + n)
  {
    PlaceholdersJoinSlots(lo, n, FunctionValues(quote, columnFunctions), ",");
    JoinSql(ParamSlots(lo, n) + FunctionValues(quote, columnFunctions), ",")
  }

  /** ` WHERE (pk = $1) RETURNING *`, or `IN (subQuery)` in place of `= $1`. */
  function UpdateSelector(quote: string, pkColumn: string, subQuery: string): (r: Sql)
    ensures VarCount(r) == 0 && Placeholders(r) == (if subQuery == "" then [1] else [])
  {
    var a := T(") WHERE (" + EscapeField(quote, pkColumn));
    var b := if subQuery != "" then T(" IN (" + subQuery + ")") else T(" = ") + [Param(1)];
    var c := T(") RETURNING *");
    if subQuery == "" then
      VarCountAppend(T(" = "), [Param(1)]);
      PlaceholdersAppend(T(" = "), [Param(1)]);
      Concat3(a, b, c);
      a + b + c
    else
      Concat3(a, b, c);
      a + b + c
  }

  lemma {:induction false} Concat3(a: Sql, b: Sql, c: Sql)
    ensures VarCount(a + b + c) == VarCount(a) + VarCount(b) + VarCount(c)
    ensures Placeholders(a + b + c) == Placeholders(a) + Placeholders(b) + Placeholders(c)
  {
    VarCountAppend(a, b);
    VarCountAppend(a + b, c);
    PlaceholdersAppend(a, b);
    PlaceholdersAppend(a + b, c);
  }

  /** A literal head adds no tokens and no parameters. */
  lemma {:induction false} LiteralHead(head: Sql, b: Sql, c: Sql)
    requires VarCount(head) == 0 && Placeholders(head) == []
    ensures VarCount(head + b + c) == VarCount(b) + VarCount(c)
    ensures Placeholders(head + b + c) == Placeholders(b) + Placeholders(c)
  {
    Concat3(head, b, c);
  }

  /** `UPDATE "table" SET (columns…) = (`: the column list, plain columns first. */
  function UpdateHead(quote: string, table: string, columnNames: seq<string>,
                      columnFunctions: seq<ColumnFunction>): (r: Sql)
    ensures VarCount(r) == 0 && Placeholders(r) == []
  {
    var fields := EscapeAll(quote, columnNames) + FunctionColumns(quote, columnFunctions);
    T("UPDATE " + EscapeField(quote, table) + " SET (" + Join(fields, ",") + ") = (")
  }

  /**
   * `generateUpdateAllQuery`: the SET list holds the plain columns, numbered
   * from `offset + 1`, then the function columns' inlined expressions; the
   * row is selected by `= $1`, or by `IN (subQuery)` when one is given.
   */
  function UpdateAllQuery(d: Dialect, table: string, pkColumn: string, columnNames: seq<string>,
                          columnFunctions: seq<ColumnFunction>, offset: nat, subQuery: string): (r: Sql)
    ensures VarCount(r) == 0
    ensures Placeholders(r) ==
      Range(offset + 1, offset + 1 + |columnNames|) + (if subQuery == "" then [1] else [])
  {
    var head := UpdateHead(d.quote, table, columnNames, columnFunctions);
    var values := UpdateValues(d.quote, offset + 1, |columnNames|, columnFunctions);
    var selector := UpdateSelector(d.quote, pkColumn, subQuery);
    LiteralHead(head, values, selector);
    head + values + selector
  }

  /** `generateUpdateQuery`: the first name is the key, bound to `$1`; the rest are `$2…`. */
  function UpdateQuery(d: Dialect, table: string, columnNames: seq<string>): (r: Sql)
    ensures VarCount(r) == 0
    ensures |columnNames| > 0 ==> Placeholders(r) == Range(2, |columnNames| + 1) + [1]
  {
    var pk := if |columnNames| > 0 then columnNames[0] else "";
    var rest := if |columnNames| > 0 then columnNames[1..] else [];
    UpdateAllQuery(d, table, pk, rest, [], 1, "")
  }

  /** One `{prevTable, prevColumn, joinTable, joinColumn}` step of `generateDeleteAllQuery`. */
  datatype DeleteJoin = DeleteJoin(prevTable: string, prevColumn: string, joinTable: string, joinColumn: string)

  function Reverse<T>(s: seq<T>): (r: seq<T>)
    ensures |r| == |s|
    ensures forall i :: 0 <= i < |s| ==> r[i] == s[|s| - 1 - i]
  {
    if |s| == 0 then [] else Reverse(s[1..]) + [s[0]]
  }

  function InnerJoinStep(quote: string, j: DeleteJoin): string
  {
    "INNER JOIN " + EscapeField(quote, j.prevTable) + " ON " +
    Qualified(quote, j.prevTable, j.prevColumn) + " = " + Qualified(quote, j.joinTable, j.joinColumn)
  }

  /**
   * The INNER JOIN pieces of the reversed join chain; the piece at reversed
   * position `total - 1` (the first join) carries the `IN ($1,…)` test.
   */
  function DeleteJoinPieces(quote: string, rev: seq<DeleteJoin>, from: nat, total: nat, valueCount: nat): (r: seq<Sql>)
    requires from + |rev| == total
    ensures |r| == |rev|
    ensures forall i :: 0 <= i < |rev| ==> VarCount(r[i]) == 0
    ensures forall i :: 0 <= i < |rev| ==>
      Placeholders(r[i]) == (if from + i == total - 1 then Range(1, valueCount + 1) else [])
    decreases |rev|
  {
    if |rev| == 0 then []
    else
      var j := rev[0];
      var piece :=
        if from == total - 1 then
          T(InnerJoinStep(quote, j) + " AND " + Qualified(quote, j.prevTable, j.prevColumn) + " IN (") +
          ParamList(1, valueCount) + T(")")
        else T(InnerJoinStep(quote, j));
      assert VarCount(piece) == 0 && Placeholders(piece) == (if from == total - 1 then Range(1, valueCount + 1) else []) by {
        if from == total - 1 {
          var a := T(InnerJoinStep(quote, j) + " AND " + Qualified(quote, j.prevTable, j.prevColumn) + " IN (");
          Concat3(a, ParamList(1, valueCount), T(")"));
        }
      }
      [piece] + DeleteJoinPieces(quote, rev[1..], from + 1, total, valueCount)
  }

  /**
   * `generateDeleteAllQuery`: without joins the key column is tested against
   * `$1…$n`; with joins a SELECT walks the chain in reverse and the first join
   * carries the `IN ($1…$n)` test. An empty join list is truthy and binds nothing.
   */
  function DeleteAllQuery(d: Dialect, table: string, columnName: string, values: seq<Val>,
                          joins: Option<seq<DeleteJoin>>): (r: Sql)
    ensures VarCount(r) == 0
    ensures Placeholders(r) == if joins == Some([]) then [] else Range(1, |values| + 1)
  {
    var q := d.quote;
    var subQuery := DeleteSubQuery(q, table, columnName, |values|, joins);
    var a := T("DELETE FROM " + EscapeField(q, table));
    var b := T("WHERE " + Qualified(q, table, columnName));
    var c := T("IN (") + subQuery + T(")");
    JoinSql3(a, b, c, " ");
    Concat3(T("IN ("), subQuery, T(")"));
    Concat3(b, T(" "), c);
    Concat3(a, T(" "), b + T(" ") + c);
    JoinSql([a, b, c], " ")
  }

  /** The `IN (…)` operand of `generateDeleteAllQuery`. */
  function DeleteSubQuery(q: string, table: string, columnName: string, valueCount: nat,
                          joins: Option<seq<DeleteJoin>>): (r: Sql)
    ensures VarCount(r) == 0
    ensures Placeholders(r) == if joins == Some([]) then [] else Range(1, valueCount + 1)
  {
    if joins.None? then ParamList(1, valueCount)
    else
      var select := T("SELECT " + Qualified(q, table, columnName) + " FROM " + EscapeField(q, table));
      var pieces := DeleteJoinPieces(q, Reverse(joins.value), 0, |joins.value|, valueCount);
      JoinAfterHead(select, pieces, " ");
      JoinSql([select] + pieces, " ")
  }

  /**
   * Joining a literal head with pieces that bind nothing but the last: the
   * result's parameters are the last piece's.
   */
  lemma {:induction false} JoinAfterHead(head: Sql, pieces: seq<Sql>, sep: string)
    requires VarCount(head) == 0 && Placeholders(head) == []
    requires forall i :: 0 <= i < |pieces| ==> VarCount(pieces[i]) == 0
    requires forall i :: 0 <= i < |pieces| - 1 ==> Placeholders(pieces[i]) == []
    ensures VarCount(JoinSql([head] + pieces, sep)) == 0
    ensures Placeholders(JoinSql([head] + pieces, sep)) == if |pieces| == 0 then [] else Placeholders(pieces[|pieces| - 1])
  {
    var parts := [head] + pieces;
    assert forall i :: 0 <= i < |parts| ==> VarCount(parts[i]) == 0 by {
      forall i | 0 <= i < |parts| ensures VarCount(parts[i]) == 0 {
        if i > 0 { assert parts[i] == pieces[i - 1]; }
      }
    }
    VarCountJoin(parts, sep);
    NoVarsSum(parts);
    if |pieces| == 0 {
      assert parts == [head];
    } else {
      var init := parts[..|parts| - 1];
      var last := parts[|parts| - 1];
      assert parts == init + [last];
      assert last == pieces[|pieces| - 1];
      assert forall i :: 0 <= i < |init| ==> Placeholders(init[i]) == [] by {
        forall i | 0 <= i < |init| ensures Placeholders(init[i]) == [] {
          if i > 0 { assert init[i] == pieces[i - 1]; }
        }
      }
      PlaceholdersJoin(init, sep);
      JoinSqlSnoc(init, last, sep);
      Concat3(JoinSql(init, sep), T(sep), last);
    }
  }

  /** `generateAlterTableQuery`: the builder is picked by `[drop, add][flag | 0]`; any other index throws. */
  function AlterTableQuery(d: Dialect, table: string, columnName: string, typeName: string, properties: Props): (r: Result<string>)
    ensures r.Err? <==>
      (PrimaryKey in properties && BitOrZero(properties[PrimaryKey]) !in {0, 1}) ||
      (PrimaryKey !in properties && Unique in properties && BitOrZero(properties[Unique]) !in {0, 1})
    ensures r.Ok? && typeName == "" && PrimaryKey !in properties && Unique !in properties ==> r.value == ""
  {
    var typeQueries :=
      if typeName != "" then [d.alterTableColumnType(table, columnName, GetTypeDbName(d, typeName), GetTypeProperties(d, typeName, properties))]
      else [];
    if PrimaryKey in properties then
      var i := BitOrZero(properties[PrimaryKey]);
      if i == 0 then Ok(Join(typeQueries + [d.dropPrimaryKey(table, columnName)], ";"))
      else if i == 1 then Ok(Join(typeQueries + [d.addPrimaryKey(table, columnName)], ";"))
      else Err("TypeError: undefined is not a function")
    else if Unique in properties then
      var i := BitOrZero(properties[Unique]);
      if i == 0 then Ok(Join(typeQueries + [d.dropUniqueKey(table, columnName)], ";"))
      else if i == 1 then Ok(Join(typeQueries + [d.addUniqueKey(table, columnName)], ";"))
      else Err("TypeError: undefined is not a function")
    else Ok(Join(typeQueries, ";"))
  }

  /** `generateAlterTableAddColumnQuery`: the dialect's builder with the resolved type. */
  function AddColumnQuery(d: Dialect, table: string, columnName: string, typeName: string, properties: Props): string
  {
    d.addColumn(table, columnName, GetTypeDbName(d, typeName), GetTypeProperties(d, typeName, properties))
  }

  /** `generateCreateIndexQuery`: a missing index type becomes `btree`. */
  function CreateIndexQuery(d: Dialect, table: string, columnName: string, indexType: string): (r: string)
    ensures indexType == "" ==> r == d.createIndex(table, columnName, "btree")
    ensures indexType != "" ==> r == d.createIndex(table, columnName, indexType)
  {
    d.createIndex(table, columnName, if indexType == "" then "btree" else indexType)
  }
}
