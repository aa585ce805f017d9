/**
 * The PostgreSQL dialect: `"` as escape character, the column, constraint,
 * index and sequence builders, CREATE TABLE with its sequences, the
 * LIMIT/OFFSET clause, the type table and the boolean sanitiser, gathered
 * into the `Dialect` the neutral adapter calls back into.
 */
module Postgres {
  import opened Wrappers
  import opened Strings
  import opened Values
  import opened SqlAdapter
  import opened SqlClauses

  /** `escapeFieldCharacter`. */
  const Quote: string := "\""

  /** `indexTypes`; the first is the fallback. */
  const IndexTypes: seq<string> := ["btree", "hash", "gist", "gin"]

  // ---------------------------------------------------------------------
  // Space-joined parts with the empty ones dropped

  /** Each non-empty part preceded by the separator, in order. */
  function Prefixed(parts: seq<string>, sep: string): string
  {
    if |parts| == 0 then "" else (if parts[0] != "" then sep + parts[0] else "") + Prefixed(parts[1..], sep)
  }

  lemma {:induction false} PrefixedCons(parts: seq<string>, sep: string)
    requires |parts| > 0
    ensures Prefixed(parts, sep) == (if parts[0] != "" then sep + parts[0] else "") + Prefixed(parts[1..], sep)
  {
  }

  lemma {:induction false} NonEmptyCons(x: string, rest: seq<string>)
    ensures NonEmpty([x] + rest) == (if x != "" then [x] else []) + NonEmpty(rest)
  {
    assert ([x] + rest)[1..] == rest;
  }

  lemma {:induction false} PrefixedJoin(parts: seq<string>, sep: string)
    ensures Prefixed(parts, sep) == if NonEmpty(parts) == [] then "" else sep + Join(NonEmpty(parts), sep)
  {
    if |parts| == 0 {
      assert NonEmpty(parts) == [];
    } else {
      var x := parts[0];
      var rest := parts[1..];
      assert parts == [x] + rest;
      NonEmptyCons(x, rest);
      PrefixedJoin(rest, sep);
      assert Prefixed(parts, sep) == (if x != "" then sep + x else "") + Prefixed(rest, sep);
      if x == "" {
        assert NonEmpty(parts) == NonEmpty(rest);
      } else if NonEmpty(rest) == [] {
        assert NonEmpty(parts) == [x];
      } else {
        assert NonEmpty(parts) == [x] + NonEmpty(rest);
        JoinCons(x, NonEmpty(rest), sep);
      }
    }
  }

  /**
   * `[first, …rest].filter(v => !!v).join(sep)` with a non-empty first
   * part: the first part, then each non-empty later part after a separator.
   */
  lemma {:induction false} JoinNonEmpty(first: string, rest: seq<string>, sep: string)
    requires first != ""
    ensures Join(NonEmpty([first] + rest), sep) == first + Prefixed(rest, sep)
  {
    NonEmptyCons(first, rest);
    PrefixedJoin(rest, sep);
    if NonEmpty(rest) != [] {
      JoinCons(first, NonEmpty(rest), sep);
    }
  }

  // ---------------------------------------------------------------------
  // Columns

  /** `columnProperties.primary_key || !columnProperties.nullable`. */
  predicate NotNull(p: Props)
  {
    Truthy(Lookup(p, PrimaryKey)) || !Truthy(Lookup(p, Nullable))
  }

  predicate ArrayColumn(p: Props)
  {
    Truthy(Lookup(p, IsArray))
  }

  /** `generateColumn`. */
  function Column(name: string, columnType: string, p: Props): string
  {
    Join(NonEmpty([EscapeField(Quote, name), columnType,
                   if ArrayColumn(p) then "ARRAY" else "",
                   if NotNull(p) then "NOT NULL" else ""]), " ")
  }

  function Spaced(x: string): string
  {
    if x != "" then " " + x else ""
  }

  lemma {:induction false} Prefixed3(a: string, b: string, c: string)
    ensures Prefixed([a, b, c], " ") == Spaced(a) + Spaced(b) + Spaced(c)
  {
    PrefixedOne(c);
    assert [b, c][1..] == [c];
    assert Prefixed([b, c], " ") == Spaced(b) + Spaced(c);
    assert [a, b, c][1..] == [b, c];
    assert Prefixed([a, b, c], " ") == Spaced(a) + (Spaced(b) + Spaced(c));
  }

  lemma {:induction false} PrefixedOne(c: string)
    ensures Prefixed([c], " ") == Spaced(c)
  {
    assert [c][1..] == [];
    assert Prefixed([c], " ") == Spaced(c) + "";
  }

  lemma {:induction false} Prefixed4(a: string, b: string, c: string, d: string)
    ensures Prefixed([a, b, c, d], " ") == Spaced(a) + Spaced(b) + Spaced(c) + Spaced(d)
  {
    var rest := Prefixed([b, c, d], " ");
    PrefixedCons([a, b, c, d], " ");
    assert [a, b, c, d][1..] == [b, c, d];
    assert Prefixed([a, b, c, d], " ") == Spaced(a) + rest;
    Prefixed3(b, c, d);
    Regroup(Spaced(a), Spaced(b), Spaced(c), Spaced(d));
  }

  lemma {:induction false} Regroup(w: string, x: string, y: string, z: string)
    ensures w + (x + y + z) == w + x + y + z
  {
  }

  /** Four space-joined parts with the empty ones dropped, the first never empty. */
  lemma {:induction false} Spaced4(a: string, b: string, c: string, d: string)
    requires a != ""
    ensures Join(NonEmpty([a, b, c, d]), " ") == a + Spaced(b) + Spaced(c) + Spaced(d)
  {
    assert [a] + [b, c, d] == [a, b, c, d];
    JoinNonEmpty(a, [b, c, d], " ");
    Prefixed3(b, c, d);
    Regroup(a, Spaced(b), Spaced(c), Spaced(d));
  }

  /** Five space-joined parts with the empty ones dropped, the first never empty. */
  lemma {:induction false} Spaced5(a: string, b: string, c: string, d: string, e: string)
    requires a != ""
    ensures Join(NonEmpty([a, b, c, d, e]), " ") == a + Spaced(b) + Spaced(c) + Spaced(d) + Spaced(e)
  {
    assert [a] + [b, c, d, e] == [a, b, c, d, e];
    JoinNonEmpty(a, [b, c, d, e], " ");
    Prefixed4(b, c, d, e);
    Regroup5(a, Spaced(b), Spaced(c), Spaced(d), Spaced(e));
  }

  lemma {:induction false} Regroup5(v: string, w: string, x: string, y: string, z: string)
    ensures v + (w + x + y + z) == v + w + x + y + z
  {
  }

  /**
   * The escaped name, then the type when there is one, then `ARRAY` exactly
   * for array columns, then `NOT NULL` exactly for primary-key or
   * non-nullable columns, single spaces between them.
   */
  lemma {:induction false} ColumnShape(name: string, columnType: string, p: Props)
    ensures Column(name, columnType, p) ==
            EscapeField(Quote, name) + Spaced(columnType) +
            (if ArrayColumn(p) then " ARRAY" else "") + (if NotNull(p) then " NOT NULL" else "")
  {
    var e := EscapeField(Quote, name);
    var arr := if ArrayColumn(p) then "ARRAY" else "";
    var nn := if NotNull(p) then "NOT NULL" else "";
    Spaced4(e, columnType, arr, nn);
    assert Spaced(arr) == (if ArrayColumn(p) then " ARRAY" else "");
    assert Spaced(nn) == (if NotNull(p) then " NOT NULL" else "");
  }

  /** `generateAlterColumn`. */
  function AlterColumn(name: string, columnType: string, p: Props): string
  {
    Join(NonEmpty(["ALTER COLUMN", EscapeField(Quote, name), "TYPE", columnType, if ArrayColumn(p) then "ARRAY" else ""]), " ")
  }

  lemma {:induction false} AlterColumnShape(name: string, columnType: string, p: Props)
    ensures AlterColumn(name, columnType, p) ==
            "ALTER COLUMN " + EscapeField(Quote, name) + " TYPE" + Spaced(columnType) +
            (if ArrayColumn(p) then " ARRAY" else "")
  {
    var e := EscapeField(Quote, name);
    var arr := if ArrayColumn(p) then "ARRAY" else "";
    Spaced5("ALTER COLUMN", e, "TYPE", columnType, arr);
    assert Spaced(e) == " " + e;
    assert Spaced("TYPE") == " TYPE";
    assert Spaced(arr) == (if ArrayColumn(p) then " ARRAY" else "");
    assert "ALTER COLUMN" + (" " + e) == "ALTER COLUMN " + e;
  }

  /** `generateAlterColumnSetNull`: `SET NOT NULL` exactly when the column must not be null, else `DROP NOT NULL`. */
  function AlterColumnSetNull(name: string, p: Props): (r: string)
    ensures NotNull(p) ==> r == "ALTER COLUMN " + EscapeField(Quote, name) + " SET NOT NULL"
    ensures !NotNull(p) ==> r == "ALTER COLUMN " + EscapeField(Quote, name) + " DROP NOT NULL"
  {
    var parts := ["ALTER COLUMN", EscapeField(Quote, name), if NotNull(p) then "SET" else "DROP", "NOT NULL"];
    JoinCons(parts[0], parts[1..], " ");
    JoinCons(parts[1], parts[2..], " ");
    JoinCons(parts[2], parts[3..], " ");
    assert parts[1..][1..] == parts[2..] && parts[2..][1..] == parts[3..];
    Join(parts, " ")
  }

  /** `generateAlterColumnDropDefault`. */
  function AlterColumnDropDefault(name: string): string
  {
    "ALTER COLUMN " + EscapeField(Quote, name) + " DROP DEFAULT"
  }

  /** `generateAlterColumnSetDefaultSeq`. */
  function AlterColumnSetDefaultSeq(name: string, seqName: string): string
  {
    "ALTER COLUMN " + EscapeField(Quote, name) + " SET DEFAULT nextval('" + seqName + "')"
  }

  // ---------------------------------------------------------------------
  // Constraint, index and sequence names

  /** `generateConstraint`: `table_column_suffix`, escaped as one identifier. */
  function Constraint(table: string, column: string, suffix: string): (r: string)
    ensures r == Quote + table + "_" + column + "_" + suffix + Quote
  {
    JoinCons(table, [column, suffix], "_");
    JoinCons(column, [suffix], "_");
    assert [table, column, suffix][1..] == [column, suffix] && [column, suffix][1..] == [suffix];
    EscapeField(Quote, Join([table, column, suffix], "_"))
  }

  function IndexName(table: string, column: string): string
  {
    Constraint(table, column, "index")
  }

  function SequenceName(table: string, column: string): string
  {
    Constraint(table, column, "seq")
  }

  /** `generatePrimaryKey`. */
  function PrimaryKeyDef(table: string, column: string): string
  {
    "CONSTRAINT " + Constraint(table, column, "pk") + " PRIMARY KEY(" + EscapeField(Quote, column) + ")"
  }

  /** `generateUniqueKey`. */
  function UniqueKeyDef(table: string, column: string): string
  {
    "CONSTRAINT " + Constraint(table, column, "unique") + " UNIQUE(" + EscapeField(Quote, column) + ")"
  }

  /**
   * The four suffixes give four different names for one column, and the
   * primary-key and unique-key definitions of a column differ.
   */
  lemma {:induction false} ConstraintNamesDistinct(table: string, column: string)
    ensures PrimaryKeyDef(table, column) != UniqueKeyDef(table, column)
    ensures var names := [Constraint(table, column, "pk"), Constraint(table, column, "unique"),
                          IndexName(table, column), SequenceName(table, column)];
            forall i, j :: 0 <= i < j < 4 ==> names[i] != names[j]
  {
    var at := |Quote + table + "_" + column + "_"|;
    var names := [Constraint(table, column, "pk"), Constraint(table, column, "unique"),
                  IndexName(table, column), SequenceName(table, column)];
    assert names[0][at] == 'p' && names[1][at] == 'u' && names[2][at] == 'i' && names[3][at] == 's';
    assert |PrimaryKeyDef(table, column)| != |UniqueKeyDef(table, column)|;
  }

  // ---------------------------------------------------------------------
  // Statements

  /** `generateCreateSequenceQuery`: the sequence, then `setval` past the column's largest value. */
  function CreateSequenceQuery(table: string, column: string): string
  {
    "CREATE SEQUENCE " + SequenceName(table, column) + " START 1 OWNED BY " +
    EscapeField(Quote, table) + "." + EscapeField(Quote, column) + ";" +
    "SELECT setval('" + SequenceName(table, column) + "', GREATEST(COALESCE(MAX(" + EscapeField(Quote, column) +
    "), 0), 0) + 1, false) FROM " + EscapeField(Quote, table)
  }

  /** `generateRenameSequenceQuery`. */
  function RenameSequenceQuery(table: string, column: string, newTable: string, newColumn: string): string
  {
    "ALTER SEQUENCE " + SequenceName(table, column) + " RENAME TO " + SequenceName(newTable, newColumn)
  }

  /** `generateDropSequenceQuery`. */
  function DropSequenceQuery(table: string, column: string): string
  {
    "DROP SEQUENCE IF EXISTS " + SequenceName(table, column)
  }

  /** `ALTER TABLE t <clause>`. */
  function AlterTable(table: string, clause: string): string
  {
    "ALTER TABLE " + EscapeField(Quote, table) + " " + clause
  }

  /** `RENAME CONSTRAINT` of one key column's constraint to the new table's name for it. */
  function RenameConstraint(table: string, newTable: string, column: string, suffix: string): string
  {
    AlterTable(newTable, "RENAME CONSTRAINT " + Constraint(table, column, suffix) + " TO " + Constraint(newTable, column, suffix))
  }

  function RenameConstraints(table: string, newTable: string, cols: seq<ColumnData>, suffix: string): (r: seq<string>)
    ensures |r| == |cols|
    ensures forall k :: 0 <= k < |cols| ==> r[k] == RenameConstraint(table, newTable, cols[k].name, suffix)
  {
    if |cols| == 0 then [] else [RenameConstraint(table, newTable, cols[0].name, suffix)] + RenameConstraints(table, newTable, cols[1..], suffix)
  }

  function RenameSequences(table: string, newTable: string, cols: seq<ColumnData>): (r: seq<string>)
    ensures |r| == |cols|
    ensures forall k :: 0 <= k < |cols| ==> r[k] == RenameSequenceQuery(table, cols[k].name, newTable, cols[k].name)
  {
    if |cols| == 0 then [] else [RenameSequenceQuery(table, cols[0].name, newTable, cols[0].name)] + RenameSequences(table, newTable, cols[1..])
  }

  /**
   * The statements of `generateAlterTableRename`, given the primary-key,
   * unique-key and auto-increment columns.
   */
  function RenameStatements(table: string, newTable: string, pks: seq<ColumnData>, uks: seq<ColumnData>, seqs: seq<ColumnData>): seq<string>
  {
    ["ALTER TABLE " + EscapeField(Quote, table) + " RENAME TO " + EscapeField(Quote, newTable)] +
    RenameConstraints(table, newTable, pks, "pk") +
    RenameConstraints(table, newTable, uks, "unique") +
    RenameSequences(table, newTable, seqs)
  }

  /** `generateAlterTableRename`. */
  function AlterTableRename(table: string, newTable: string, cols: seq<ColumnData>): string
  {
    Join(RenameStatements(table, newTable, GetPrimaryKeys(Pg, cols), GetUniqueKeys(Pg, cols), GetAutoIncrementKeys(Pg, cols)), ";")
  }

  /**
   * One statement per renamed object, the table rename first; without key
   * or auto-increment columns it is the only statement.
   */
  lemma {:induction false} RenameStatementsCount(table: string, newTable: string, pks: seq<ColumnData>, uks: seq<ColumnData>, seqs: seq<ColumnData>)
    ensures var r := RenameStatements(table, newTable, pks, uks, seqs);
            |r| == 1 + |pks| + |uks| + |seqs| &&
            r[0] == "ALTER TABLE " + EscapeField(Quote, table) + " RENAME TO " + EscapeField(Quote, newTable)
  {
  }

  /**
   * After the table rename, the constraint of every primary-key column and
   * then of every unique-key column is renamed from the name the old table
   * gave it to the name the new table gives it.
   */
  lemma {:induction false} RenamedConstraints(table: string, newTable: string, pks: seq<ColumnData>, uks: seq<ColumnData>, seqs: seq<ColumnData>, k: nat)
    ensures var r := RenameStatements(table, newTable, pks, uks, seqs);
            (k < |pks| ==> r[1 + k] == RenameConstraint(table, newTable, pks[k].name, "pk")) &&
            (k < |uks| ==> r[1 + |pks| + k] == RenameConstraint(table, newTable, uks[k].name, "unique"))
  {
    var head := "ALTER TABLE " + EscapeField(Quote, table) + " RENAME TO " + EscapeField(Quote, newTable);
    var a := RenameConstraints(table, newTable, pks, "pk");
    var b := RenameConstraints(table, newTable, uks, "unique");
    var c := RenameSequences(table, newTable, seqs);
    if k < |pks| {
      SectionAt(head, a, b, c, 1 + k);
    }
    if k < |uks| {
      SectionAt(head, a, b, c, 1 + |pks| + k);
    }
  }

  /** Last, the sequence of every auto-increment column is renamed the same way. */
  lemma {:induction false} RenamedSequences(table: string, newTable: string, pks: seq<ColumnData>, uks: seq<ColumnData>, seqs: seq<ColumnData>, k: nat)
    requires k < |seqs|
    ensures var r := RenameStatements(table, newTable, pks, uks, seqs);
            r[1 + |pks| + |uks| + k] == RenameSequenceQuery(table, seqs[k].name, newTable, seqs[k].name)
  {
    var head := "ALTER TABLE " + EscapeField(Quote, table) + " RENAME TO " + EscapeField(Quote, newTable);
    SectionAt(head, RenameConstraints(table, newTable, pks, "pk"), RenameConstraints(table, newTable, uks, "unique"),
              RenameSequences(table, newTable, seqs), 1 + |pks| + |uks| + k);
  }

  /** A table without key or auto-increment columns is renamed by a single statement. */
  lemma {:induction false} AlterTableRenamePlain(table: string, newTable: string, cols: seq<ColumnData>)
    requires GetPrimaryKeys(Pg, cols) == [] && GetUniqueKeys(Pg, cols) == [] && GetAutoIncrementKeys(Pg, cols) == []
    ensures AlterTableRename(table, newTable, cols) == "ALTER TABLE " + EscapeField(Quote, table) + " RENAME TO " + EscapeField(Quote, newTable)
  {
    var r := RenameStatements(table, newTable, [], [], []);
    RenameStatementsCount(table, newTable, [], [], []);
    assert r == [r[0]];
  }

  /** Which section of `[head] + a + b + c` index `i` falls in. */
  lemma {:induction false} SectionAt<T>(head: T, a: seq<T>, b: seq<T>, c: seq<T>, i: nat)
    requires 0 < i < 1 + |a| + |b| + |c|
    ensures var r := [head] + a + b + c;
            r[i] == if i < 1 + |a| then a[i - 1] else if i < 1 + |a| + |b| then b[i - 1 - |a|] else c[i - 1 - |a| - |b|]
  {
  }


  /** `generateAlterTableColumnType`: four statements, two more for an auto-increment column. */
  function AlterTableColumnType(table: string, column: string, columnType: string, p: Props): string
  {
    var always := [
      AlterTable(table, AlterColumn(column, columnType, p)),
      AlterTable(table, AlterColumnSetNull(column, p)),
      AlterTable(table, AlterColumnDropDefault(column)),
      DropSequenceQuery(table, column)];
    var sequence :=
      if Truthy(Lookup(p, AutoIncrement)) then
        [CreateSequenceQuery(table, column), AlterTable(table, AlterColumnSetDefaultSeq(column, SequenceName(table, column)))]
      else [];
    Join(always + sequence, ";")
  }

  /**
   * An auto-increment column gets its sequence re-created and attached
   * after the four statements every column gets.
   */
  lemma {:induction false} AlterTableColumnTypeSequence(table: string, column: string, columnType: string, p: Props)
    ensures var always := Join([
              AlterTable(table, AlterColumn(column, columnType, p)),
              AlterTable(table, AlterColumnSetNull(column, p)),
              AlterTable(table, AlterColumnDropDefault(column)),
              DropSequenceQuery(table, column)], ";");
            AlterTableColumnType(table, column, columnType, p) ==
            if Truthy(Lookup(p, AutoIncrement)) then
              always + ";" + CreateSequenceQuery(table, column) + ";" +
              AlterTable(table, AlterColumnSetDefaultSeq(column, SequenceName(table, column)))
            else always
  {
    var always := [
      AlterTable(table, AlterColumn(column, columnType, p)),
      AlterTable(table, AlterColumnSetNull(column, p)),
      AlterTable(table, AlterColumnDropDefault(column)),
      DropSequenceQuery(table, column)];
    if Truthy(Lookup(p, AutoIncrement)) {
      var sequence := [CreateSequenceQuery(table, column), AlterTable(table, AlterColumnSetDefaultSeq(column, SequenceName(table, column)))];
      JoinAppend(always, sequence, ";");
      JoinCons(sequence[0], sequence[1..], ";");
      assert sequence[1..] == [sequence[1]];
    } else {
      assert always + [] == always;
    }
  }

  function AddPrimaryKey(table: string, column: string): string
  {
    AlterTable(table, "ADD " + PrimaryKeyDef(table, column))
  }

  function DropPrimaryKey(table: string, column: string): string
  {
    AlterTable(table, "DROP CONSTRAINT IF EXISTS " + Constraint(table, column, "pk"))
  }

  function AddUniqueKey(table: string, column: string): string
  {
    AlterTable(table, "ADD " + UniqueKeyDef(table, column))
  }

  function DropUniqueKey(table: string, column: string): string
  {
    AlterTable(table, "DROP CONSTRAINT IF EXISTS " + Constraint(table, column, "unique"))
  }

  function AddColumn(table: string, column: string, columnType: string, p: Props): string
  {
    AlterTable(table, "ADD COLUMN " + Column(column, columnType, p))
  }

  function DropColumn(table: string, column: string): string
  {
    AlterTable(table, "DROP COLUMN IF EXISTS " + EscapeField(Quote, column))
  }

  function RenameColumn(table: string, column: string, newColumn: string): string
  {
    AlterTable(table, "RENAME COLUMN " + EscapeField(Quote, column) + " TO " + EscapeField(Quote, newColumn))
  }

  /** The index type `generateCreateIndex` uses: the requested one if listed, else `btree`. */
  function IndexTypeFor(indexType: string): (r: string)
    ensures r in IndexTypes
    ensures r == indexType <==> indexType in IndexTypes
  {
    if indexType in IndexTypes then indexType else IndexTypes[0]
  }

  /** `generateCreateIndex`. */
  function CreateIndex(table: string, column: string, indexType: string): string
  {
    "CREATE INDEX " + IndexName(table, column) + " ON " + EscapeField(Quote, table) +
    " USING " + IndexTypeFor(indexType) + " (" + EscapeField(Quote, column) + ")"
  }

  /** `generateDropIndex`. */
  function DropIndex(table: string, column: string): string
  {
    "DROP INDEX " + IndexName(table, column)
  }

  /** `generateArray`: the items as `Array.prototype.join` renders them, comma-separated, in braces. */
  function GenerateArray(items: seq<Val>): string
  {
    "{" + Join(JoinTexts(items), ",") + "}"
  }

  /** Items whose text holds no comma are read back by splitting between the braces. */
  lemma {:induction false} GenerateArrayRoundTrip(items: seq<Val>)
    requires |items| > 0
    requires forall k, j :: 0 <= k < |items| ==> !OccursAt(JoinTexts(items)[k], ",", j)
    ensures var r := GenerateArray(items);
            r[0] == '{' && r[|r| - 1] == '}' && Split(r[1..|r| - 1], ",") == JoinTexts(items)
  {
    var r := GenerateArray(items);
    var inner := Join(JoinTexts(items), ",");
    assert r[1..|r| - 1] == inner;
    SplitOfJoin(JoinTexts(items), ",");
  }

  // ---------------------------------------------------------------------
  // Types and sanitisers

  /** The `boolean` sanitiser `['f', 't'][v | 0]`; any other index reads `undefined`. */
  function SanitizeBoolean(v: Val): (r: Val)
    ensures BitOrZero(v) == 0 ==> r == Str("f")
    ensures BitOrZero(v) == 1 ==> r == Str("t")
    ensures BitOrZero(v) !in {0, 1} ==> r == Undefined
  {
    var i := BitOrZero(v);
    if i == 0 then Str("f") else if i == 1 then Str("t") else Undefined
  }

  /** `types.serial`: a non-nullable, auto-incremented `BIGINT` primary key. */
  const SerialType: TypeDef :=
    TypeDef("BIGINT", map[PrimaryKey := Bool(true), Nullable := Bool(false), AutoIncrement := Bool(true)])

  /** `types`. */
  const Types: map<string, TypeDef> := map[
    "serial" := SerialType,
    "int" := TypeDef("BIGINT", map[]),
    "currency" := TypeDef("BIGINT", map[]),
    "float" := TypeDef("FLOAT", map[]),
    "string" := TypeDef("VARCHAR", map[]),
    "text" := TypeDef("TEXT", map[]),
    "datetime" := TypeDef("TIMESTAMP", map[]),
    "boolean" := TypeDef("BOOLEAN", map[])]

  /** The PostgreSQL adapter as the neutral generator sees it. */
  const Pg: Dialect := Dialect(
    Quote, Types, map["boolean" := SanitizeBoolean],
    Column, PrimaryKeyDef, UniqueKeyDef, AlterTableColumnType,
    AddPrimaryKey, DropPrimaryKey, AddUniqueKey, DropUniqueKey,
    AddColumn, DropColumn, RenameColumn, CreateIndex, DropIndex)

  /** The sanitiser turns booleans into `'f'` and `'t'`; other types pass through. */
  lemma {:induction false} SanitizeBooleans(b: bool, typeName: string, v: Val)
    ensures Sanitize(Pg, "boolean", Bool(b)) == Str(if b then "t" else "f")
    ensures typeName != "boolean" ==> Sanitize(Pg, typeName, v) == v
  {
    BitOrZeroFacts(b, 0);
  }

  lemma {:induction false} PropsOf(d: Dialect, c: ColumnData, k: PropKey)
    ensures Lookup(ColumnProps(d, c), k) == Resolved(c.properties, TypeOwnProps(d, c.typeName), k)
  {
  }

  /**
   * A `serial` column with no properties of its own resolves to a
   * non-nullable, auto-incremented, non-array primary key.
   */
  lemma {:induction false} SerialProps(d: Dialect, c: ColumnData)
    requires c.typeName in d.types && d.types[c.typeName] == SerialType && c.properties == map[]
    ensures var p := ColumnProps(d, c);
            Lookup(p, PrimaryKey) == Bool(true) && Lookup(p, Nullable) == Bool(false) &&
            Lookup(p, AutoIncrement) == Bool(true) && Lookup(p, IsArray) == Bool(false)
  {
    var own := SerialType.properties;
    assert TypeOwnProps(d, c.typeName) == own;
    forall k ensures Lookup(ColumnProps(d, c), k) == Resolved(map[], own, k) {
      PropsOf(d, c, k);
    }
    SerialResolves();
  }

  lemma {:induction false} SerialResolves()
    ensures var own := SerialType.properties;
            Resolved(map[], own, PrimaryKey) == Bool(true) && Resolved(map[], own, Nullable) == Bool(false) &&
            Resolved(map[], own, AutoIncrement) == Bool(true) && Resolved(map[], own, IsArray) == Bool(false)
  {
  }

  /** So it is a `BIGINT` primary key and auto-increment column, and renders `NOT NULL`. */
  lemma {:induction false} SerialColumn(c: ColumnData)
    requires c.typeName == "serial" && c.properties == map[]
    ensures IsPrimary(Pg, c) && IsAutoIncrement(Pg, c) &&
            ColumnDefinitions(Pg, [c]) == [EscapeField(Quote, c.name) + " BIGINT NOT NULL"]
  {
    var p := ColumnProps(Pg, c);
    assert Pg.types[c.typeName] == SerialType;
    SerialProps(Pg, c);
    assert GetTypeDbName(Pg, c.typeName) == "BIGINT";
    assert ColumnDefinitions(Pg, [c]) == [Column(c.name, "BIGINT", p)] + ColumnDefinitions(Pg, []);
    assert ColumnDefinitions(Pg, []) == [];
    assert !ArrayColumn(p) && NotNull(p);
    BigintNotNull(c.name, p);
  }

  lemma {:induction false} BigintNotNull(name: string, p: Props)
    requires !ArrayColumn(p) && NotNull(p)
    ensures Column(name, "BIGINT", p) == EscapeField(Quote, name) + " BIGINT NOT NULL"
  {
    var e := EscapeField(Quote, name);
    ColumnShape(name, "BIGINT", p);
    assert Column(name, "BIGINT", p) == e + " BIGINT" + "" + " NOT NULL";
    assert " BIGINT" + "" + " NOT NULL" == " BIGINT NOT NULL";
  }

  // ---------------------------------------------------------------------
  // CREATE TABLE and LIMIT

  /** The sequence statements of one auto-increment column. */
  function SequenceGroup(table: string, c: ColumnData): string
  {
    CreateSequenceQuery(table, c.name) + ";" +
    AlterTable(table, AlterColumnSetDefaultSeq(c.name, SequenceName(table, c.name)))
  }

  function SequenceGroups(table: string, cols: seq<ColumnData>): (r: seq<string>)
    ensures |r| == |cols|
    ensures forall k :: 0 <= k < |cols| ==> r[k] == SequenceGroup(table, cols[k])
  {
    if |cols| == 0 then [] else [SequenceGroup(table, cols[0])] + SequenceGroups(table, cols[1..])
  }

  /**
   * `generateCreateTableQuery`: the neutral CREATE TABLE, `;`, then the
   * sequence groups; the inner array is turned into a string by `toString`,
   * so the groups are separated by `,`.
   */
  function CreateTableQuery(table: string, cols: seq<ColumnData>): string
  {
    CreateTable(Pg, table, cols) + ";" + Join(SequenceGroups(table, GetAutoIncrementKeys(Pg, cols)), ",")
  }

  /**
   * The sequence section: empty without auto-increment columns; otherwise
   * the groups of the earlier columns, a `,` when there are any, and the
   * group of the last one.
   */
  lemma {:induction false} SequenceSection(table: string, keys: seq<ColumnData>)
    ensures keys == [] ==> Join(SequenceGroups(table, keys), ",") == ""
    ensures |keys| > 0 ==>
              Join(SequenceGroups(table, keys), ",") ==
              Join(SequenceGroups(table, keys[..|keys| - 1]), ",") + (if |keys| > 1 then "," else "") +
              SequenceGroup(table, keys[|keys| - 1])
  {
    if |keys| > 0 {
      var gs := SequenceGroups(table, keys);
      assert gs[..|gs| - 1] == SequenceGroups(table, keys[..|keys| - 1]);
      JoinLast(gs, ",");
    }
  }

  /** A joined list is the join of all but its last part, the separator when there were others, and the last part. */
  lemma {:induction false} JoinLast(gs: seq<string>, sep: string)
    requires |gs| > 0
    ensures Join(gs, sep) == Join(gs[..|gs| - 1], sep) + (if |gs| > 1 then sep else "") + gs[|gs| - 1]
  {
    assert gs == gs[..|gs| - 1] + [gs[|gs| - 1]];
    if |gs| > 1 {
      JoinSnoc(gs[..|gs| - 1], gs[|gs| - 1], sep);
    } else {
      assert gs == [gs[0]];
    }
  }

  /**
   * Without auto-increment columns the statement ends in a bare `;`; each
   * auto-increment column adds its group after those of the columns before
   * it, the groups separated by `,`.
   */
  lemma {:induction false} CreateTableSequences(table: string, cols: seq<ColumnData>)
    ensures var keys := GetAutoIncrementKeys(Pg, cols);
            var section := Join(SequenceGroups(table, keys), ",");
            CreateTableQuery(table, cols) == CreateTable(Pg, table, cols) + ";" + section &&
            (keys == [] ==> section == "") &&
            (|keys| > 0 ==>
               section == Join(SequenceGroups(table, keys[..|keys| - 1]), ",") + (if |keys| > 1 then "," else "") +
                          SequenceGroup(table, keys[|keys| - 1]))
  {
    SequenceSection(table, GetAutoIncrementKeys(Pg, cols));
  }

  /**
   * `generateLimitClause`: nothing without a limit object; otherwise
   * ` LIMIT count` only for a truthy count and ` OFFSET offset` only for a
   * truthy offset, LIMIT first.
   */
  function LimitClause(limit: Option<LimitObj>): string
  {
    match limit
    case None => ""
    case Some(l) =>
      (if Truthy(l.count) then " LIMIT " + ToStr(l.count) else "") +
      (if Truthy(l.offset) then " OFFSET " + ToStr(l.offset) else "")
  }

  /** For numeric count and offset: a zero part is left out and LIMIT precedes OFFSET. */
  lemma {:induction false} LimitClauseNumbers(count: nat, offset: nat)
    ensures var r := LimitClause(Some(LimitObj(Num(count), Num(offset))));
            r == (if count != 0 then " LIMIT " + NatToString(count) else "") +
                 (if offset != 0 then " OFFSET " + NatToString(offset) else "")
    ensures LimitClause(Some(LimitObj(Num(0), Num(0)))) == ""
  {
  }
}
