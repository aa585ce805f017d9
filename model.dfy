/**
 * A model instance's field store: the `_data`, `_changed` and `_errors`
 * maps and the relationship cache, with change tracking, validation,
 * loading, and the column choice `save` makes between INSERT and UPDATE.
 * The functions of this module say what each operation does to a
 * `Store`; the `Model` class performs the same steps in place.
 */
module Records {
  import opened Wrappers
  import opened Strings
  import opened Values
  import opened Fragments
  import opened SqlAdapter

  /** `relationships[name]`: the related model and the local field holding its id. */
  datatype Relationship = Relationship(name: string, modelName: string, via: string)

  /** A `validates(field, message, action)` entry. */
  datatype Rule = Rule(message: string, action: Val -> bool)

  /** A `validates('*', message, action)` entry: its action receives the whole `_data`. */
  datatype RecordRule = RecordRule(message: string, action: map<string, Val> -> bool)

  /**
   * What a model class fixes: its constructor's name, `schema.table`,
   * `schema.columns`, `relationships` in key order, the validations
   * registered before `__initialize__` runs, `DataTypes[type].convert` and
   * `readOnly`.
   */
  datatype Schema = Schema(
    name: string,
    table: string,
    columns: seq<ColumnData>,
    relationships: seq<Relationship>,
    rules: map<string, seq<Rule>>,
    recordRules: seq<RecordRule>,
    convert: (string, Val) -> Val,
    readOnly: bool)

  type Errors = map<string, seq<string>>

  /** The per-instance state: `_inStorage`, `_data`, `_changed`, `_errors`, `_relationshipCache`. */
  datatype Store = Store(
    inStorage: bool,
    data: map<string, Val>,
    changed: map<string, bool>,
    errors: Errors,
    cache: map<string, Val>)

  /** `fieldList()`. */
  function FieldNames(cols: seq<ColumnData>): (r: seq<string>)
  {
    seq(|cols|, i requires 0 <= i < |cols| => cols[i].name)
  }

  function FieldSet(cols: seq<ColumnData>): set<string>
  {
    set f | f in FieldNames(cols)
  }

  /** `_fieldLookup[field]`: `forEach` leaves the last column of that name in the lookup. */
  function FieldData(cols: seq<ColumnData>, field: string): (r: Option<ColumnData>)
    ensures r.Some? <==> field in FieldNames(cols)
    ensures r.Some? ==> r.value in cols && r.value.name == field
  {
    if |cols| == 0 then None
    else
      assert FieldNames(cols) == FieldNames(cols[..|cols| - 1]) + [cols[|cols| - 1].name];
      if cols[|cols| - 1].name == field then Some(cols[|cols| - 1])
      else FieldData(cols[..|cols| - 1], field)
  }

  /** `hasField(field)`. */
  predicate HasField(cols: seq<ColumnData>, field: string)
  {
    FieldData(cols, field).Some?
  }

  /** `!!(fieldData.properties && fieldData.properties[key])` for a known column. */
  predicate Flag(c: ColumnData, key: PropKey)
  {
    key in c.properties && Truthy(c.properties[key])
  }

  /** `isFieldArray(field)`. */
  function IsFieldArray(cols: seq<ColumnData>, field: string): (r: bool)
    ensures !HasField(cols, field) ==> !r
  {
    match FieldData(cols, field)
    case None => false
    case Some(c) => Flag(c, IsArray)
  }

  /** `isFieldPrimaryKey(field)`. */
  function IsFieldPrimaryKey(cols: seq<ColumnData>, field: string): (r: bool)
    ensures !HasField(cols, field) ==> !r
  {
    match FieldData(cols, field)
    case None => false
    case Some(c) => Flag(c, PrimaryKey)
  }

  /**
   * `fieldDefaultValue(field)`: despite its name it reads the `array`
   * property, so it always agrees with `isFieldArray`.
   */
  function FieldDefaultValue(cols: seq<ColumnData>, field: string): (r: bool)
    ensures r == IsFieldArray(cols, field)
    ensures !HasField(cols, field) ==> !r
  {
    match FieldData(cols, field)
    case None => false
    case Some(c) => Flag(c, IsArray)
  }

  /** `this.relationships[name]`: relationship names are the keys of one object. */
  function RelationshipOf(rels: seq<Relationship>, name: string): (r: Option<Relationship>)
    ensures r.Some? ==> r.value in rels && r.value.name == name
    ensures r.None? ==> forall rel :: rel in rels ==> rel.name != name
  {
    if |rels| == 0 then None
    else if rels[0].name == name then Some(rels[0])
    else RelationshipOf(rels[1..], name)
  }

  function RelationshipNames(rels: seq<Relationship>): seq<string>
  {
    seq(|rels|, i requires 0 <= i < |rels| => rels[i].name)
  }

  /** `obj[key]` on a plain object: a missing key reads as `undefined`. */
  function ValueOf(d: map<string, Val>, key: string): Val
  {
    if key in d then d[key] else Undefined
  }

  // ---------------------------------------------------------------------
  // The error map

  /** Key `k` is absent from both maps or holds the same messages in both. */
  predicate SameEntry(a: Errors, b: Errors, k: string)
  {
    (k in a <==> k in b) && (k in b ==> a[k] == b[k])
  }

  /** Key `k` holds exactly `messages`, and is absent when there are none. */
  predicate Recorded(e: Errors, k: string, messages: seq<string>)
  {
    (k in e <==> |messages| > 0) && (k in e ==> e[k] == messages)
  }

  /** `setError(key, message)`: appends one message to the key's list, creating it. */
  function WithError(e: Errors, key: string, message: string): (r: Errors)
    ensures key in r && r[key] == (if key in e then e[key] else []) + [message]
    ensures forall k :: k != key ==> SameEntry(r, e, k)
  {
    e[key := (if key in e then e[key] else []) + [message]]
  }

  /** `clearError(key)`: deletes the key and nothing else. */
  function WithoutError(e: Errors, key: string): (r: Errors)
    ensures key !in r
    ensures forall k :: k != key ==> SameEntry(r, e, k)
  {
    e - {key}
  }

  /** `setError(key, m)` for each message `m` in turn. */
  function WithErrors(e: Errors, key: string, messages: seq<string>): Errors
  {
    if |messages| == 0 then e
    else WithError(WithErrors(e, key, messages[..|messages| - 1]), key, messages[|messages| - 1])
  }

  lemma {:induction false} WithErrorsSnoc(e: Errors, key: string, messages: seq<string>, message: string)
    ensures WithErrors(e, key, messages + [message]) == WithError(WithErrors(e, key, messages), key, message)
  {
    assert (messages + [message])[..|messages|] == messages;
  }

  /** Recording several messages appends them all, in order, to that key alone. */
  lemma {:induction false} WithErrorsAppends(e: Errors, key: string, messages: seq<string>)
    ensures var r := WithErrors(e, key, messages);
            (key in r <==> key in e || |messages| > 0) &&
            (key in r ==> r[key] == (if key in e then e[key] else []) + messages) &&
            forall k :: k != key ==> SameEntry(r, e, k)
  {
    if |messages| > 0 {
      var init := messages[..|messages| - 1];
      var last := messages[|messages| - 1];
      WithErrorsAppends(e, key, init);
      var prev := WithErrors(e, key, init);
      assert WithErrors(e, key, messages) == WithError(prev, key, last);
      var before := if key in e then e[key] else [];
      assert (if key in prev then prev[key] else []) == before + init by {
        if |init| == 0 {
          assert prev == e && before + init == before;
        }
      }
      assert (before + init) + [last] == before + messages by {
        assert init + [last] == messages;
      }
      forall k | k != key
        ensures SameEntry(WithErrors(e, key, messages), e, k)
      {
        assert SameEntry(WithError(prev, key, last), prev, k) && SameEntry(prev, e, k);
      }
    }
  }

  /** `hasErrors()`: `Object.keys(this._errors).length > 0`. */
  predicate HasErrorsIn(e: Errors)
  {
    |e| > 0
  }

  lemma {:induction false} HasErrorsIffSomeKey(e: Errors)
    ensures HasErrorsIn(e) <==> exists k :: k in e
  {
    if !HasErrorsIn(e) {
      assert e == map[];
    } else {
      var k :| k in e.Keys;
    }
  }

  const DefaultErrorMessage: string := "There was an error with your request"

  /** The `Error` `errorObject()` builds: its message and its `details`. */
  datatype ErrorObj = ErrorObj(message: string, details: Errors)

  /**
   * `errorObject()`: null without errors; otherwise the `_query` messages
   * joined by commas (as `new Error(array)` renders them) or the default
   * message, with a copy of the error map as details.
   */
  function ErrorObjectOf(e: Errors): (r: Option<ErrorObj>)
    ensures r.None? <==> !HasErrorsIn(e)
    ensures r.Some? ==> r.value.details == e
    ensures r.Some? && "_query" !in e ==> r.value.message == DefaultErrorMessage
    ensures r.Some? && "_query" in e ==> r.value.message == Join(e["_query"], ",")
  {
    if !HasErrorsIn(e) then None
    else
      var message := if "_query" in e then Join(e["_query"], ",") else DefaultErrorMessage;
      Some(ErrorObj(message, e))
  }

  // ---------------------------------------------------------------------
  // Validation

  /** The messages of the rules whose action rejects `v`, in registration order. */
  function Failures(rules: seq<Rule>, v: Val): (r: seq<string>)
    ensures |r| <= |rules|
  {
    if |rules| == 0 then []
    else
      var last := rules[|rules| - 1];
      Failures(rules[..|rules| - 1], v) + (if last.action(v) then [] else [last.message])
  }

  lemma {:induction false} FailuresSnoc(rules: seq<Rule>, j: nat, v: Val)
    requires j < |rules|
    ensures Failures(rules[..j + 1], v) == Failures(rules[..j], v) + (if rules[j].action(v) then [] else [rules[j].message])
  {
    assert rules[..j + 1][..j] == rules[..j];
  }

  /** The messages of the `'*'` rules whose action rejects the whole data map. */
  function RecordFailures(rules: seq<RecordRule>, data: map<string, Val>): (r: seq<string>)
    ensures |r| <= |rules|
  {
    if |rules| == 0 then []
    else
      var last := rules[|rules| - 1];
      RecordFailures(rules[..|rules| - 1], data) + (if last.action(data) then [] else [last.message])
  }

  lemma {:induction false} RecordFailuresSnoc(rules: seq<RecordRule>, j: nat, data: map<string, Val>)
    requires j < |rules|
    ensures RecordFailures(rules[..j + 1], data) ==
            RecordFailures(rules[..j], data) + (if rules[j].action(data) then [] else [rules[j].message])
  {
    assert rules[..j + 1][..j] == rules[..j];
  }

  /** `this._validations[field] || []`. */
  function RulesFor(s: Schema, field: string): seq<Rule>
  {
    if field in s.rules then s.rules[field] else []
  }

  /** The messages `field`'s rules produce on its current value. */
  function FieldFailures(s: Schema, data: map<string, Val>, field: string): seq<string>
  {
    Failures(RulesFor(s, field), ValueOf(data, field))
  }

  /** The error map and the verdict `__validate__` leaves. */
  datatype Checked = Checked(errors: Errors, invalid: bool)

  /** The per-field half of `__validate__`: clear each field's errors, then record its failures. */
  function CheckFields(s: Schema, data: map<string, Val>, e: Errors, fields: seq<string>): Checked
  {
    if |fields| == 0 then Checked(e, false)
    else
      var prev := CheckFields(s, data, e, fields[..|fields| - 1]);
      var f := fields[|fields| - 1];
      var failures := FieldFailures(s, data, f);
      Checked(WithErrors(WithoutError(prev.errors, f), f, failures), prev.invalid || |failures| > 0)
  }

  /** `__validate__(fields)`: clears `'*'`, checks each field, then runs the `'*'` rules. */
  function Validation(s: Schema, data: map<string, Val>, e: Errors, fields: seq<string>): Checked
  {
    var c := CheckFields(s, data, WithoutError(e, "*"), fields);
    var failures := RecordFailures(s.recordRules, data);
    Checked(WithErrors(c.errors, "*", failures), c.invalid || |failures| > 0)
  }

  /** A member of a non-empty list is one of those before its last, or its last. */
  lemma {:induction false} MemberOfSnoc(xs: seq<string>, g: string)
    requires |xs| > 0
    ensures g in xs <==> g in xs[..|xs| - 1] || g == xs[|xs| - 1]
  {
    assert xs == xs[..|xs| - 1] + [xs[|xs| - 1]];
  }

  /** Every key other than `key` has the same entry in both maps. */
  ghost predicate KeepsOthers(a: Errors, b: Errors, key: string)
  {
    forall k :: k != key ==> SameEntry(a, b, k)
  }

  /** One more field: clear its errors, then record its failures. */
  lemma {:induction false} CheckFieldsNext(s: Schema, data: map<string, Val>, e: Errors, fields: seq<string>)
    requires |fields| > 0
    ensures Recorded(CheckFields(s, data, e, fields).errors, fields[|fields| - 1], FieldFailures(s, data, fields[|fields| - 1]))
    ensures KeepsOthers(CheckFields(s, data, e, fields).errors, CheckFields(s, data, e, fields[..|fields| - 1]).errors, fields[|fields| - 1])
    ensures CheckFields(s, data, e, fields).invalid ==
              (CheckFields(s, data, e, fields[..|fields| - 1]).invalid || |FieldFailures(s, data, fields[|fields| - 1])| > 0)
  {
    var f := fields[|fields| - 1];
    var prev := CheckFields(s, data, e, fields[..|fields| - 1]);
    var cleared := WithoutError(prev.errors, f);
    var failures := FieldFailures(s, data, f);
    WithErrorsAppends(cleared, f, failures);
    var r := WithErrors(cleared, f, failures);
    forall k | k != f
      ensures SameEntry(r, prev.errors, k)
    {
      assert SameEntry(r, cleared, k) && SameEntry(cleared, prev.errors, k);
    }
  }

  /** Every checked field ends up holding exactly its own failures. */
  lemma {:induction false} CheckFieldsRecords(s: Schema, data: map<string, Val>, e: Errors, fields: seq<string>)
    ensures forall f :: f in fields ==> Recorded(CheckFields(s, data, e, fields).errors, f, FieldFailures(s, data, f))
  {
    if |fields| > 0 {
      var init := fields[..|fields| - 1];
      var f := fields[|fields| - 1];
      CheckFieldsRecords(s, data, e, init);
      CheckFieldsNext(s, data, e, fields);
      var prev := CheckFields(s, data, e, init);
      var c := CheckFields(s, data, e, fields);
      forall g | g in fields
        ensures Recorded(c.errors, g, FieldFailures(s, data, g))
      {
        MemberOfSnoc(fields, g);
        if g != f {
          assert SameEntry(c.errors, prev.errors, g);
        }
      }
    }
  }

  /** Keys that are not checked keep their entries. */
  lemma {:induction false} CheckFieldsKeeps(s: Schema, data: map<string, Val>, e: Errors, fields: seq<string>)
    ensures forall k :: k !in fields ==> SameEntry(CheckFields(s, data, e, fields).errors, e, k)
  {
    if |fields| > 0 {
      var init := fields[..|fields| - 1];
      var f := fields[|fields| - 1];
      CheckFieldsKeeps(s, data, e, init);
      CheckFieldsNext(s, data, e, fields);
      var prev := CheckFields(s, data, e, init);
      var c := CheckFields(s, data, e, fields);
      forall k | k !in fields
        ensures SameEntry(c.errors, e, k)
      {
        MemberOfSnoc(fields, k);
        assert SameEntry(c.errors, prev.errors, k) && SameEntry(prev.errors, e, k);
      }
    }
  }

  /** The verdict is invalid exactly when some checked field has a failure. */
  lemma {:induction false} CheckFieldsInvalid(s: Schema, data: map<string, Val>, e: Errors, fields: seq<string>)
    ensures CheckFields(s, data, e, fields).invalid <==> exists f :: f in fields && |FieldFailures(s, data, f)| > 0
  {
    if |fields| > 0 {
      var init := fields[..|fields| - 1];
      var f := fields[|fields| - 1];
      CheckFieldsInvalid(s, data, e, init);
      var failures := FieldFailures(s, data, f);
      var c := CheckFields(s, data, e, fields);
      assert c.invalid == (CheckFields(s, data, e, init).invalid || |failures| > 0);
      if c.invalid {
        if |failures| > 0 {
          MemberOfSnoc(fields, f);
        } else {
          var g :| g in init && |FieldFailures(s, data, g)| > 0;
          MemberOfSnoc(fields, g);
        }
      } else {
        forall g | g in fields
          ensures |FieldFailures(s, data, g)| == 0
        {
          MemberOfSnoc(fields, g);
        }
      }
    }
  }

  /** `CheckFields` records each checked field's failures, leaves other keys alone, and reports any failure. */
  lemma {:induction false} CheckFieldsEffect(s: Schema, data: map<string, Val>, e: Errors, fields: seq<string>)
    ensures var c := CheckFields(s, data, e, fields);
            (forall f :: f in fields ==> Recorded(c.errors, f, FieldFailures(s, data, f))) &&
            (forall k :: k !in fields ==> SameEntry(c.errors, e, k)) &&
            (c.invalid <==> exists f :: f in fields && |FieldFailures(s, data, f)| > 0)
  {
    CheckFieldsRecords(s, data, e, fields);
    CheckFieldsKeeps(s, data, e, fields);
    CheckFieldsInvalid(s, data, e, fields);
  }

  /**
   * After `__validate__(fields)` each listed field holds exactly the
   * messages of its failed rules (and no entry when none failed), `'*'`
   * holds those of the failed `'*'` rules, every other key is untouched,
   * and the verdict is whether anything failed.
   */
  lemma {:induction false} ValidationEffect(s: Schema, data: map<string, Val>, e: Errors, fields: seq<string>)
    requires "*" !in fields
    ensures var c := Validation(s, data, e, fields);
            (forall f :: f in fields ==> Recorded(c.errors, f, FieldFailures(s, data, f))) &&
            Recorded(c.errors, "*", RecordFailures(s.recordRules, data)) &&
            (forall k :: k !in fields && k != "*" ==> SameEntry(c.errors, e, k)) &&
            (c.invalid <==> (exists f :: f in fields && |FieldFailures(s, data, f)| > 0) ||
                            |RecordFailures(s.recordRules, data)| > 0)
  {
    var e0 := WithoutError(e, "*");
    CheckFieldsEffect(s, data, e0, fields);
    var c := CheckFields(s, data, e0, fields);
    var failures := RecordFailures(s.recordRules, data);
    WithErrorsAppends(c.errors, "*", failures);
    var r := Validation(s, data, e, fields);
    assert r.errors == WithErrors(c.errors, "*", failures);
    forall f | f in fields
      ensures Recorded(r.errors, f, FieldFailures(s, data, f))
    {
      assert SameEntry(r.errors, c.errors, f);
    }
    forall k | k !in fields && k != "*"
      ensures SameEntry(r.errors, e, k)
    {
      assert SameEntry(r.errors, c.errors, k) && SameEntry(c.errors, e0, k) && SameEntry(e0, e, k);
    }
  }

  // ---------------------------------------------------------------------
  // Initialisation

  /** The fields and the data map agree: `_data` and `_changed` have one key per field. */
  predicate Consistent(s: Schema, st: Store)
  {
    st.data.Keys == FieldSet(s.columns) && st.changed.Keys == FieldSet(s.columns)
  }

  /**
   * `__initialize__`: not in storage, every field null and unchanged, no
   * cached relationship, and the errors `__validate__()` finds on that data.
   */
  function Initial(s: Schema): (r: Store)
    ensures Consistent(s, r) && !r.inStorage && r.cache == map[]
    ensures forall f :: f in r.data ==> r.data[f] == Null
    ensures forall f :: f in r.changed ==> !r.changed[f]
  {
    var fields := FieldNames(s.columns);
    var data := map f | f in fields :: Null;
    Store(false, data, map f | f in fields :: false, Validation(s, data, map[], fields).errors, map[])
  }

  /**
   * The errors a fresh instance starts with: for every field the messages
   * its rules give on `null`, and for `'*'` those of the record rules on
   * the all-null data; nothing else.
   */
  lemma {:induction false} InitialErrors(s: Schema)
    requires "*" !in FieldNames(s.columns)
    ensures var r := Initial(s);
            (forall f :: f in FieldNames(s.columns) ==> Recorded(r.errors, f, Failures(RulesFor(s, f), Null))) &&
            Recorded(r.errors, "*", RecordFailures(s.recordRules, r.data)) &&
            (forall k :: k in r.errors ==> k == "*" || k in FieldNames(s.columns))
  {
    var fields := FieldNames(s.columns);
    var data := map f | f in fields :: Null;
    ValidationEffect(s, data, map[], fields);
    var r := Initial(s);
    forall f | f in fields
      ensures Recorded(r.errors, f, Failures(RulesFor(s, f), Null))
    {
      assert ValueOf(data, f) == Null;
    }
    forall k | k in r.errors
      ensures k == "*" || k in fields
    {
      assert k != "*" && k !in fields ==> SameEntry(r.errors, map[], k);
    }
  }

  // ---------------------------------------------------------------------
  // set

  /** `newValue.map(dataType.convert)`. */
  function ConvertAll(convert: (string, Val) -> Val, typeName: string, items: seq<Val>): (r: seq<Val>)
    ensures |r| == |items|
    ensures forall i :: 0 <= i < |items| ==> r[i] == convert(typeName, items[i])
  {
    seq(|items|, i requires 0 <= i < |items| => convert(typeName, items[i]))
  }

  /**
   * The value `set` computes for a known column: `null` stays `null`; an
   * array column wraps a non-array value in a one-element array and
   * converts each element; any other column converts the value.
   */
  function Converted(s: Schema, col: ColumnData, v: Val): (r: Val)
    ensures v.Null? ==> r.Null?
    ensures !v.Null? && Flag(col, IsArray) ==> r.Arr? && |r.items| == (if v.Arr? then |v.items| else 1)
  {
    if v.Null? then Null
    else if Flag(col, IsArray) then Arr(ConvertAll(s.convert, col.typeName, if v.Arr? then v.items else [v]))
    else s.convert(col.typeName, v)
  }

  /** `curValue[i]`: past the end of an array it reads `undefined`. */
  function ItemAt(items: seq<Val>, i: nat): Val
  {
    if i < |items| then items[i] else Undefined
  }

  /** No element of the new array differs (`!==`) from the current element at its index. */
  predicate ItemsMatch(newItems: seq<Val>, curItems: seq<Val>)
  {
    forall i :: 0 <= i < |newItems| ==> StrictEq(newItems[i], ItemAt(curItems, i))
  }

  /**
   * The value `set` stores over `cur`, if it stores one: a new value that
   * is `===` the current one is not stored; two arrays are compared
   * element by element over the new array's length only.
   */
  function Replacement(cur: Val, nv: Val): (r: Option<Val>)
    ensures r.Some? ==> r.value == nv
    ensures !(nv.Arr? && cur.Arr?) ==> (r.Some? <==> !StrictEq(nv, cur))
    ensures nv.Arr? && cur.Arr? ==>
              (r.Some? <==> exists i :: 0 <= i < |nv.items| && !StrictEq(nv.items[i], ItemAt(cur.items, i)))
  {
    if StrictEq(nv, cur) then None
    else if nv.Arr? && cur.Arr? && ItemsMatch(nv.items, cur.items) then None
    else Some(nv)
  }

  /** Setting an array that repeats a prefix of the stored array stores nothing. */
  lemma {:induction false} PrefixArrayIsNoChange(prefix: seq<Val>, rest: seq<Val>)
    requires forall i :: 0 <= i < |prefix| ==> StrictEq(prefix[i], prefix[i])
    ensures Replacement(Arr(prefix + rest), Arr(prefix)).None?
  {
    forall i | 0 <= i < |prefix|
      ensures StrictEq(prefix[i], ItemAt(prefix + rest, i))
    {
      assert (prefix + rest)[i] == prefix[i];
    }
  }

  /** Two arrays are different objects, so an array holding an object always counts as new. */
  lemma {:induction false} ArrayWithObjectIsChange(items: seq<Val>, cur: seq<Val>, i: nat)
    requires i < |items| && (items[i].Arr? || items[i].Inst?)
    ensures Replacement(Arr(cur), Arr(items)) == Some(Arr(items))
  {
    assert !StrictEq(items[i], ItemAt(cur, i));
  }

  /** The state `set` leaves and what it returns or throws. */
  datatype Step = Step(store: Store, result: Result<Val>)

  function UnknownField(s: Schema, field: string): string
  {
    "Field " + field + " does not belong to model " + s.name
  }

  /**
   * `set(field, value, validate, logChange)` below its relationship test:
   * an unknown field throws; otherwise the converted value replaces the
   * stored one as `Replacement` says, the changed flag becomes whether
   * logging is on and something was stored, and the field is revalidated
   * when `validate` holds and either logging is off or the value changed.
   */
  function SetFieldStep(s: Schema, st: Store, field: string, value: Val, validate: bool, logChange: bool): (r: Step)
    ensures !HasField(s.columns, field) ==> r == Step(st, Err(UnknownField(s, field)))
    ensures HasField(s.columns, field) ==>
              var v := if value.Undefined? then Null else value;
              var repl := Replacement(ValueOf(st.data, field), Converted(s, FieldData(s.columns, field).value, v));
              r.result == Ok(v) &&
              r.store.data == (if repl.Some? then st.data[field := repl.value] else st.data) &&
              r.store.changed == st.changed[field := logChange && repl.Some?]
    ensures r.store.inStorage == st.inStorage && r.store.cache == st.cache
    ensures !validate ==> r.store.errors == st.errors
    ensures Consistent(s, st) ==> Consistent(s, r.store)
  {
    if !HasField(s.columns, field) then Step(st, Err(UnknownField(s, field)))
    else
      var v := if value.Undefined? then Null else value;
      var nv := Converted(s, FieldData(s.columns, field).value, v);
      var repl := Replacement(ValueOf(st.data, field), nv);
      var changed := logChange && repl.Some?;
      var data := if repl.Some? then st.data[field := nv] else st.data;
      var errors := if validate && (!logChange || changed) then Validation(s, data, st.errors, [field]).errors else st.errors;
      Step(Store(st.inStorage, data, st.changed[field := changed], errors, st.cache), Ok(v))
  }

  function NotAnInstance(value: Val, rel: Relationship): string
  {
    ToStr(value) + " is not an instance of " + rel.modelName
  }

  /**
   * `set(field, value, validate, logChange)`. A relationship name demands an
   * instance of the related model, caches it, and sets the `via` field to
   * the instance's id with validation and change logging on, whatever the
   * flags passed in.
   */
  function SetStep(s: Schema, st: Store, field: string, value: Val, validate: bool, logChange: bool): (r: Step)
    ensures RelationshipOf(s.relationships, field).None? && !HasField(s.columns, field) ==>
              r == Step(st, Err(UnknownField(s, field)))
    ensures RelationshipOf(s.relationships, field).None? && HasField(s.columns, field) ==>
              var v := if value.Undefined? then Null else value;
              r.result == Ok(v) && field in r.store.changed &&
              (r.store.changed[field] <==>
                 logChange && Replacement(ValueOf(st.data, field), Converted(s, FieldData(s.columns, field).value, v)).Some?)
    ensures RelationshipOf(s.relationships, field).Some? ==>
              var rel := RelationshipOf(s.relationships, field).value;
              if value.Inst? && value.modelName == rel.modelName then
                var id := if value.id.Undefined? then Null else value.id;
                field in r.store.cache && r.store.cache[field] == value &&
                (r.result.Ok? <==> HasField(s.columns, rel.via)) &&
                (HasField(s.columns, rel.via) ==>
                   rel.via in r.store.changed &&
                   (r.store.changed[rel.via] <==>
                      Replacement(ValueOf(st.data, rel.via), Converted(s, FieldData(s.columns, rel.via).value, id)).Some?))
              else r == Step(st, Err(NotAnInstance(value, rel)))
    ensures r.store.inStorage == st.inStorage
    ensures Consistent(s, st) ==> Consistent(s, r.store)
  {
    match RelationshipOf(s.relationships, field)
    case Some(rel) =>
      if value.Inst? && value.modelName == rel.modelName then
        SetFieldStep(s, st.(cache := st.cache[field := value]), rel.via, value.id, true, true)
      else Step(st, Err(NotAnInstance(value, rel)))
    case None =>
      SetFieldStep(s, st, field, value, validate, logChange)
  }

  /** The field `set(field, …)` writes: the relationship's `via` field, or the field itself. */
  function Target(s: Schema, field: string): string
  {
    match RelationshipOf(s.relationships, field)
    case Some(rel) => rel.via
    case None => field
  }

  /** Field `k` has the same value and the same flag in both stores. */
  predicate SameField(a: Store, b: Store, k: string)
  {
    (k in a.data <==> k in b.data) && (k in b.data ==> a.data[k] == b.data[k]) &&
    (k in a.changed <==> k in b.changed) && (k in b.changed ==> a.changed[k] == b.changed[k])
  }

  lemma {:induction false} SetFieldTouchesOneField(s: Schema, st: Store, field: string, value: Val, validate: bool, logChange: bool)
    ensures forall k :: k != field ==> SameField(SetFieldStep(s, st, field, value, validate, logChange).store, st, k)
  {
  }

  /** `set` writes the value and flag of one field at most; every other field keeps both. */
  lemma {:induction false} SetTouchesOneField(s: Schema, st: Store, field: string, value: Val, validate: bool, logChange: bool)
    ensures forall k :: k != Target(s, field) ==> SameField(SetStep(s, st, field, value, validate, logChange).store, st, k)
  {
    match RelationshipOf(s.relationships, field)
    case Some(rel) =>
      if value.Inst? && value.modelName == rel.modelName {
        var st1 := st.(cache := st.cache[field := value]);
        SetFieldTouchesOneField(s, st1, rel.via, value.id, true, true);
        assert SetStep(s, st, field, value, validate, logChange) == SetFieldStep(s, st1, rel.via, value.id, true, true);
        forall k | k != rel.via
          ensures SameField(SetStep(s, st, field, value, validate, logChange).store, st, k)
        {
          assert SameField(SetFieldStep(s, st1, rel.via, value.id, true, true).store, st1, k);
        }
      }
    case None =>
      SetFieldTouchesOneField(s, st, field, value, validate, logChange);
  }

  // ---------------------------------------------------------------------
  // __load__ and read

  /** The keys `__load__` and `read` visit: fields, then relationship names, that `data` owns. */
  function LoadKeys(s: Schema, data: map<string, Val>): (r: seq<string>)
    ensures forall k :: k in r <==> k in data && (k in FieldNames(s.columns) || k in RelationshipNames(s.relationships))
  {
    Owned(FieldNames(s.columns) + RelationshipNames(s.relationships), data)
  }

  /** `keys.filter(key => data.hasOwnProperty(key))`. */
  function Owned(keys: seq<string>, data: map<string, Val>): (r: seq<string>)
    ensures forall k :: k in r <==> k in keys && k in data
  {
    if |keys| == 0 then []
    else
      var last := keys[|keys| - 1];
      Owned(keys[..|keys| - 1], data) + (if last in data then [last] else [])
  }

  /** The state after a run of `set` calls, and whether one of them threw. */
  datatype Loaded = Loaded(store: Store, outcome: Outcome)

  /** `set(key, data[key], flag, flag)` for each key in turn, stopping at the first throw. */
  function SetAll(s: Schema, st: Store, keys: seq<string>, data: map<string, Val>, flag: bool): (r: Loaded)
    ensures r.store.inStorage == st.inStorage
    ensures Consistent(s, st) ==> Consistent(s, r.store)
  {
    if |keys| == 0 then Loaded(st, Pass)
    else
      var prev := SetAll(s, st, keys[..|keys| - 1], data, flag);
      if prev.outcome.Fail? then prev
      else
        var k := keys[|keys| - 1];
        var step := SetStep(s, prev.store, k, ValueOf(data, k), flag, flag);
        Loaded(step.store, if step.result.Err? then Fail(step.result.message) else Pass)
  }

  /** One more key: `set` applied to the store the earlier keys left. */
  lemma {:induction false} SetAllNext(s: Schema, st: Store, keys: seq<string>, i: nat, data: map<string, Val>, flag: bool, before: Store)
    requires i < |keys|
    requires SetAll(s, st, keys[..i], data, flag) == Loaded(before, Pass)
    ensures var step := SetStep(s, before, keys[i], ValueOf(data, keys[i]), flag, flag);
            SetAll(s, st, keys[..i + 1], data, flag) ==
              Loaded(step.store, if step.result.Err? then Fail(step.result.message) else Pass)
  {
    assert keys[..i + 1][..i] == keys[..i];
  }

  /** Once a key throws, the keys after it change nothing. */
  lemma {:induction false} SetAllStops(s: Schema, st: Store, keys: seq<string>, n: nat, data: map<string, Val>, flag: bool)
    requires n <= |keys|
    requires SetAll(s, st, keys[..n], data, flag).outcome.Fail?
    ensures SetAll(s, st, keys, data, flag) == SetAll(s, st, keys[..n], data, flag)
    decreases |keys| - n
  {
    if n < |keys| {
      assert keys[..n + 1][..n] == keys[..n];
      SetAllStops(s, st, keys, n + 1, data, flag);
    } else {
      assert keys[..n] == keys;
    }
  }

  /**
   * `__load__(data, fromStorage)`: records where the instance came from,
   * clears the errors of a stored row, sets `created_at` to `now` for a new
   * one (throwing when the model has no such field), then sets every owned
   * key, validating and logging only for data that is not from storage.
   */
  function LoadStep(s: Schema, st: Store, data: map<string, Val>, fromStorage: bool, now: Val): (r: Loaded)
    ensures r.store.inStorage == fromStorage
    ensures Consistent(s, st) ==> Consistent(s, r.store)
    ensures !fromStorage && RelationshipOf(s.relationships, "created_at").None? && !HasField(s.columns, "created_at") ==>
              r.outcome == Fail(UnknownField(s, "created_at"))
  {
    var st1 := st.(inStorage := fromStorage, errors := if fromStorage then map[] else st.errors);
    if fromStorage then SetAll(s, st1, LoadKeys(s, data), data, false)
    else
      var c := SetStep(s, st1, "created_at", now, true, true);
      if c.result.Err? then Loaded(c.store, Fail(c.result.message))
      else SetAll(s, c.store, LoadKeys(s, data), data, true)
  }

  /** `read(data)`: `set(key, data[key])` with the default flags for each owned key. */
  function ReadStep(s: Schema, st: Store, data: map<string, Val>): (r: Loaded)
    ensures r.store.inStorage == st.inStorage
    ensures Consistent(s, st) ==> Consistent(s, r.store)
  {
    SetAll(s, st, LoadKeys(s, data), data, true)
  }

  /** Field `k` is present and not marked changed. */
  predicate Unmarked(st: Store, k: string)
  {
    k in st.changed && !st.changed[k]
  }

  /** Setting fields without validation or logging: no throw, no errors, every visited flag false. */
  lemma {:induction false} SetAllQuietly(s: Schema, st: Store, keys: seq<string>, data: map<string, Val>)
    requires forall k :: k in keys ==> HasField(s.columns, k) && RelationshipOf(s.relationships, k).None?
    ensures var r := SetAll(s, st, keys, data, false);
            r.outcome.Pass? && r.store.errors == st.errors &&
            (forall k :: k in keys ==> Unmarked(r.store, k)) &&
            (forall k :: k !in keys ==> SameField(r.store, st, k))
  {
    if |keys| > 0 {
      var init := keys[..|keys| - 1];
      var k := keys[|keys| - 1];
      assert keys == init + [k];
      assert forall j :: j in keys <==> j in init || j == k;
      SetAllQuietly(s, st, init, data);
      var prev := SetAll(s, st, init, data, false);
      var step := SetStep(s, prev.store, k, ValueOf(data, k), false, false);
      var r := SetAll(s, st, keys, data, false);
      assert step.result.Ok? && Unmarked(step.store, k);
      assert r.store == step.store && r.outcome == Pass;
      SetTouchesOneField(s, prev.store, k, ValueOf(data, k), false, false);
      assert Target(s, k) == k;
      forall j | j in keys
        ensures Unmarked(r.store, j)
      {
        if j != k {
          assert SameField(step.store, prev.store, j);
        }
      }
      forall j | j !in keys
        ensures SameField(r.store, st, j)
      {
        assert SameField(step.store, prev.store, j) && SameField(prev.store, st, j);
      }
    }
  }

  /**
   * Loading a stored row that names no relationship clears the errors,
   * runs no validation, throws nothing, leaves every loaded field's flag
   * false and every other flag as it was.
   */
  lemma {:induction false} LoadFromStorage(s: Schema, st: Store, data: map<string, Val>, now: Val)
    requires forall rel :: rel in s.relationships ==> rel.name !in data
    ensures var r := LoadStep(s, st, data, true, now);
            r.outcome.Pass? && r.store.inStorage && r.store.errors == map[] &&
            (forall k :: k in data && k in FieldNames(s.columns) ==> Unmarked(r.store, k)) &&
            (forall k :: k !in data ==> SameField(r.store, st, k))
  {
    var keys := LoadKeys(s, data);
    forall k | k in keys
      ensures HasField(s.columns, k) && RelationshipOf(s.relationships, k).None?
    {
    }
    var st1 := st.(inStorage := true, errors := map[]);
    SetAllQuietly(s, st1, keys, data);
  }

  /** A model built from a stored row that names no relationship starts with no change marked. */
  lemma {:induction false} StoredInstanceUnchanged(s: Schema, data: map<string, Val>, now: Val)
    requires forall rel :: rel in s.relationships ==> rel.name !in data
    ensures var r := LoadStep(s, Initial(s), data, true, now);
            r.outcome.Pass? && r.store.errors == map[] &&
            forall k :: k in r.store.changed ==> !r.store.changed[k]
  {
    LoadFromStorage(s, Initial(s), data, now);
    var r := LoadStep(s, Initial(s), data, true, now);
    forall k | k in r.store.changed
      ensures !r.store.changed[k]
    {
      if k !in data {
        assert SameField(r.store, Initial(s), k);
      } else {
        assert Consistent(s, r.store) by {
          assert Consistent(s, Initial(s));
        }
        assert Unmarked(r.store, k);
      }
    }
  }

  /**
   * A stored row that does name a relationship is not loaded quietly: its
   * `via` field is set with logging on and can come out marked changed.
   */
  lemma {:induction false} StoredRelationshipMarksVia(s: Schema, st: Store, rel: Relationship, id: Val, now: Val)
    requires s.relationships == [rel] && |s.columns| == 1 && s.columns[0].name == rel.via && rel.via != rel.name
    requires !Flag(s.columns[0], IsArray) && Present(id) && !s.convert(s.columns[0].typeName, id).Null?
    requires ValueOf(st.data, rel.via).Null?
    ensures var r := LoadStep(s, st, map[rel.name := Inst(rel.modelName, id)], true, now);
            r.outcome.Pass? && rel.via in r.store.changed && r.store.changed[rel.via]
  {
    var col := s.columns[0];
    var data := map[rel.name := Inst(rel.modelName, id)];
    var keys := LoadKeys(s, data);
    assert keys == [rel.name] by {
      var both := FieldNames(s.columns) + RelationshipNames(s.relationships);
      assert both == [rel.via, rel.name];
      assert both[..1] == [rel.via] && both[..1][..0] == [];
      assert Owned(both[..1], data) == [];
    }
    var st1 := st.(inStorage := true, errors := map[]);
    assert FieldData(s.columns, rel.via) == Some(col);
    var step := SetStep(s, st1, rel.name, Inst(rel.modelName, id), false, false);
    assert Replacement(Null, Converted(s, col, id)).Some?;
    assert step.result.Ok? && step.store.changed[rel.via];
    assert keys[..0] == [];
    assert SetAll(s, st1, keys[..0], data, false) == Loaded(st1, Pass);
  }

  // ---------------------------------------------------------------------
  // save

  /** What `save` does once its checks pass: a validation report, or a statement with its parameters. */
  datatype Saved =
    | Rejected(message: string, fields: Errors)
    | Insert(columns: seq<string>, query: Sql, params: seq<Val>)
    | Update(columns: seq<string>, query: Sql, params: seq<Val>)

  /** The columns of an INSERT: non-key fields whose raw value is not null, in field order. */
  function InsertColumns(s: Schema, data: map<string, Val>): (r: seq<string>)
    ensures forall c :: c in r <==> c in FieldNames(s.columns) && !IsFieldPrimaryKey(s.columns, c) && !ValueOf(data, c).Null?
    ensures Subsequence(r, FieldNames(s.columns))
  {
    var p := f => !IsFieldPrimaryKey(s.columns, f) && !ValueOf(data, f).Null?;
    FilterSeqSubsequence(FieldNames(s.columns), p);
    FilterSeq(FieldNames(s.columns), p)
  }

  /** `changedFields()`: the fields whose flag is set, in field order. */
  function ChangedFieldsOf(cols: seq<ColumnData>, changed: map<string, bool>): (r: seq<string>)
    ensures forall f :: f in r <==> f in FieldNames(cols) && f in changed && changed[f]
    ensures Subsequence(r, FieldNames(cols))
  {
    var p := f => f in changed && changed[f];
    FilterSeqSubsequence(FieldNames(cols), p);
    FilterSeq(FieldNames(cols), p)
  }

  /** The columns of an UPDATE: `'id'`, then the changed non-key fields in field order. */
  function UpdateColumns(s: Schema, changed: map<string, bool>): (r: seq<string>)
    ensures |r| > 0 && r[0] == "id"
    ensures forall c :: c in r[1..] <==> c in FieldNames(s.columns) && c in changed && changed[c] && !IsFieldPrimaryKey(s.columns, c)
    ensures r[1..] == FilterSeq(FieldNames(s.columns), f => f in changed && changed[f] && !IsFieldPrimaryKey(s.columns, f))
    ensures Subsequence(r[1..], FieldNames(s.columns))
  {
    var names := FieldNames(s.columns);
    var p := f => f in changed && changed[f];
    var q := f => !IsFieldPrimaryKey(s.columns, f);
    var pq := f => f in changed && changed[f] && !IsFieldPrimaryKey(s.columns, f);
    FilterSeqTwice(names, p, q, pq);
    FilterSeqSubsequence(names, pq);
    ["id"] + FilterSeq(ChangedFieldsOf(s.columns, changed), q)
  }

  /** `columns.map(v => sanitize(getFieldData(v).type, get(v, true)))`: a column that is no field throws. */
  function SaveParams(s: Schema, d: Dialect, data: map<string, Val>, columns: seq<string>): (r: Result<seq<Val>>)
    ensures r.Ok? <==> forall c :: c in columns ==> HasField(s.columns, c)
    ensures r.Ok? ==> |r.value| == |columns|
  {
    if |columns| == 0 then Ok([])
    else
      var prev := SaveParams(s, d, data, columns[..|columns| - 1]);
      var c := columns[|columns| - 1];
      assert forall x :: x in columns <==> x in columns[..|columns| - 1] || x == c by {
        assert columns == columns[..|columns| - 1] + [c];
      }
      match FieldData(s.columns, c)
      case None =>
        assert c in columns && !HasField(s.columns, c);
        Err("Cannot read property 'type' of undefined")
      case Some(col) =>
        if prev.Err? then prev
        else Ok(prev.value + [Sanitize(d, col.typeName, ValueOf(data, c))])
  }

  function ReadOnlyMessage(s: Schema): string
  {
    s.name + " is marked as readOnly, can not save"
  }

  /** An INSERT over `n` columns: no `__VAR__` left, placeholders `$1…$n` in order. */
  predicate InsertShape(q: Sql, n: nat)
  {
    VarCount(q) == 0 && Placeholders(q) == Range(1, n + 1)
  }

  /** An UPDATE over `n` columns: `$2…$n` in the SET list, then the key's `$1`. */
  predicate UpdateShape(q: Sql, n: nat)
  {
    VarCount(q) == 0 && Placeholders(q) == Range(2, n + 1) + [1]
  }

  /** The INSERT branch of `save`: `generateInsertQuery` over the chosen columns. */
  function InsertPlan(s: Schema, d: Dialect, data: map<string, Val>): (r: Result<Saved>)
    ensures r.Ok? <==> forall c :: c in InsertColumns(s, data) ==> HasField(s.columns, c)
    ensures r.Ok? ==> r.value.Insert? && r.value.columns == InsertColumns(s, data) &&
                      |r.value.params| == |r.value.columns| &&
                      InsertShape(r.value.query, |r.value.columns|)
  {
    var columns := InsertColumns(s, data);
    var params := SaveParams(s, d, data, columns);
    var query := InsertQuery(d, s.table, columns);
    assert InsertShape(query, |columns|);
    if params.Err? then Err(params.message)
    else Ok(Insert(columns, query, params.value))
  }

  /** The UPDATE branch of `save`: `generateUpdateQuery` with `'id'` bound to `$1`. */
  function UpdatePlan(s: Schema, d: Dialect, data: map<string, Val>, changed: map<string, bool>): (r: Result<Saved>)
    ensures r.Ok? <==> HasField(s.columns, "id")
    ensures r.Ok? ==> r.value.Update? && r.value.columns == UpdateColumns(s, changed) &&
                      |r.value.params| == |r.value.columns| &&
                      UpdateShape(r.value.query, |r.value.columns|)
  {
    var columns := UpdateColumns(s, changed);
    assert (forall c :: c in columns ==> HasField(s.columns, c)) <==> HasField(s.columns, "id") by {
      assert columns == [columns[0]] + columns[1..];
      assert forall c :: c in columns[1..] ==> HasField(s.columns, c);
    }
    var params := SaveParams(s, d, data, columns);
    var query := UpdateQuery(d, s.table, columns);
    assert UpdateShape(query, |columns|);
    if params.Err? then Err(params.message)
    else Ok(Update(columns, query, params.value))
  }

  /**
   * `save()` up to the query it sends: a read-only model throws; errors
   * are reported instead of saving; a new instance is inserted and a
   * stored one updated, and every column gets one bound parameter.
   */
  function SaveStep(s: Schema, st: Store, d: Dialect): (r: Result<Saved>)
    ensures s.readOnly ==> r == Err(ReadOnlyMessage(s))
    ensures !s.readOnly && HasErrorsIn(st.errors) ==> r == Ok(Rejected("Validation error", st.errors))
    ensures !s.readOnly && !HasErrorsIn(st.errors) ==>
              r == if st.inStorage then UpdatePlan(s, d, st.data, st.changed) else InsertPlan(s, d, st.data)
  {
    if s.readOnly then Err(ReadOnlyMessage(s))
    else if HasErrorsIn(st.errors) then Ok(Rejected("Validation error", st.errors))
    else if !st.inStorage then InsertPlan(s, d, st.data)
    else UpdatePlan(s, d, st.data, st.changed)
  }

  // ---------------------------------------------------------------------
  // The instance

  class Model {
    const schema: Schema
    var inStorage: bool
    var data: map<string, Val>
    var changed: map<string, bool>
    var errors: Errors
    var relationshipCache: map<string, Val>

    /** The instance's state as a value. */
    function Snapshot(): Store
      reads this
    {
      Store(inStorage, data, changed, errors, relationshipCache)
    }

    predicate Valid()
      reads this
    {
      Consistent(schema, Snapshot())
    }

    /** `__initialize__`: every field null and unchanged, then `__validate__()`. */
    constructor (schema: Schema)
      ensures this.schema == schema && Valid()
      ensures Snapshot() == Initial(schema)
    {
      this.schema := schema;
      var fields := FieldNames(schema.columns);
      inStorage := false;
      data := map f | f in fields :: Null;
      changed := map f | f in fields :: false;
      errors := map[];
      relationshipCache := map[];
      new;
      var _ := Validate(fields);
    }

    /** `setError(key, message)`. */
    method SetError(key: string, message: string)
      modifies this`errors
      ensures errors == WithError(old(errors), key, message)
    {
      errors := errors[key := (if key in errors then errors[key] else []) + [message]];
    }

    /** `clearError(key)`. */
    method ClearError(key: string)
      modifies this`errors
      ensures errors == WithoutError(old(errors), key)
    {
      errors := errors - {key};
    }

    /** `hasErrors()`. */
    predicate HasErrors()
      reads this
    {
      HasErrorsIn(errors)
    }

    /** `getErrors()`: a copy of the error map, which later changes to the instance do not reach. */
    method GetErrors() returns (copy: Errors)
      ensures copy == errors
    {
      copy := map k | k in errors :: errors[k];
    }

    /** `errorObject()`. */
    function ErrorObject(): (r: Option<ErrorObj>)
      reads this
      ensures r.None? <==> errors == map[]
      ensures r.Some? ==> r.value.details == errors
    {
      HasErrorsIffSomeKey(errors);
      ErrorObjectOf(errors)
    }

    /** `changedFields()`. */
    function ChangedFields(): (r: seq<string>)
      reads this
      ensures forall f :: f in r <==> f in FieldNames(schema.columns) && f in changed && changed[f]
    {
      ChangedFieldsOf(schema.columns, changed)
    }

    /** `hasChanged(field)`; `None` is calling it without an argument. */
    function HasChanged(field: Option<string>): (r: bool)
      reads this
      ensures field.None? ==> (r <==> exists f :: f in FieldNames(schema.columns) && f in changed && changed[f])
      ensures field.Some? ==> (r <==> field.value in changed && changed[field.value])
    {
      match field
      case None =>
        var fs := ChangedFields();
        assert |fs| > 0 ==> fs[0] in fs;
        |fs| > 0
      case Some(f) => f in changed && changed[f]
    }

    /** One field of `__validate__`: clear its errors, then record each rule its value fails. */
    method CheckField(f: string) returns (failed: bool)
      modifies this`errors
      ensures errors == WithErrors(WithoutError(old(errors), f), f, FieldFailures(schema, data, f))
      ensures failed <==> |FieldFailures(schema, data, f)| > 0
    {
      ClearError(f);
      var rules := RulesFor(schema, f);
      var v := ValueOf(data, f);
      ghost var e1 := errors;
      failed := false;
      var j := 0;
      while j < |rules|
        invariant 0 <= j <= |rules|
        invariant errors == WithErrors(e1, f, Failures(rules[..j], v))
        invariant failed <==> |Failures(rules[..j], v)| > 0
      {
        FailuresSnoc(rules, j, v);
        if !rules[j].action(v) {
          WithErrorsSnoc(e1, f, Failures(rules[..j], v), rules[j].message);
          SetError(f, rules[j].message);
          failed := true;
        } else {
          assert Failures(rules[..j], v) + [] == Failures(rules[..j], v);
        }
        j := j + 1;
      }
      assert rules[..j] == rules;
    }

    /** The `'*'` half of `__validate__`: record each record rule the whole data map fails. */
    method CheckRecord() returns (failed: bool)
      modifies this`errors
      ensures errors == WithErrors(old(errors), "*", RecordFailures(schema.recordRules, data))
      ensures failed <==> |RecordFailures(schema.recordRules, data)| > 0
    {
      var rules := schema.recordRules;
      ghost var e0 := errors;
      failed := false;
      var j := 0;
      while j < |rules|
        invariant 0 <= j <= |rules|
        invariant errors == WithErrors(e0, "*", RecordFailures(rules[..j], data))
        invariant failed <==> |RecordFailures(rules[..j], data)| > 0
      {
        RecordFailuresSnoc(rules, j, data);
        if !rules[j].action(data) {
          WithErrorsSnoc(e0, "*", RecordFailures(rules[..j], data), rules[j].message);
          SetError("*", rules[j].message);
          failed := true;
        } else {
          assert RecordFailures(rules[..j], data) + [] == RecordFailures(rules[..j], data);
        }
        j := j + 1;
      }
      assert rules[..j] == rules;
    }

    /**
     * `__validate__(fields)`: clears `'*'`, then checks each field, then
     * runs the `'*'` rules on the whole data map; answers whether anything
     * failed.
     */
    method Validate(fields: seq<string>) returns (invalid: bool)
      modifies this`errors
      ensures Checked(errors, invalid) == Validation(schema, data, old(errors), fields)
    {
      ClearError("*");
      ghost var e0 := errors;
      invalid := false;
      var i := 0;
      while i < |fields|
        invariant 0 <= i <= |fields|
        invariant Checked(errors, invalid) == CheckFields(schema, data, e0, fields[..i])
      {
        assert fields[..i + 1][..i] == fields[..i];
        var failed := CheckField(fields[i]);
        invalid := invalid || failed;
        i := i + 1;
      }
      assert fields[..i] == fields;
      var failed := CheckRecord();
      invalid := invalid || failed;
    }

    /** The part of `set` after its relationship test. */
    method SetField(field: string, value: Val, validate: bool, logChange: bool) returns (r: Result<Val>)
      modifies this`data, this`changed, this`errors
      ensures Step(Snapshot(), r) == SetFieldStep(schema, old(Snapshot()), field, value, validate, logChange)
    {
      if !HasField(schema.columns, field) {
        return Err(UnknownField(schema, field));
      }
      var v := if value.Undefined? then Null else value;
      var nv := Converted(schema, FieldData(schema.columns, field).value, v);
      var cur := ValueOf(data, field);
      var isChanged := false;
      if !StrictEq(nv, cur) {
        if nv.Arr? && cur.Arr? {
          if !ItemsMatch(nv.items, cur.items) {
            data := data[field := nv];
            isChanged := logChange;
          }
        } else {
          data := data[field := nv];
          isChanged := logChange;
        }
      }
      changed := changed[field := isChanged];
      if validate && (!logChange || isChanged) {
        var _ := Validate([field]);
      }
      r := Ok(v);
    }

    /** `set(field, value, validate, logChange)`; the JavaScript defaults are `true`. */
    method Set(field: string, value: Val, validate: bool, logChange: bool) returns (r: Result<Val>)
      modifies this`data, this`changed, this`errors, this`relationshipCache
      ensures Step(Snapshot(), r) == SetStep(schema, old(Snapshot()), field, value, validate, logChange)
    {
      var rel := RelationshipOf(schema.relationships, field);
      if rel.Some? {
        if !(value.Inst? && value.modelName == rel.value.modelName) {
          return Err(NotAnInstance(value, rel.value));
        }
        relationshipCache := relationshipCache[field := value];
        r := SetField(rel.value.via, value.id, true, true);
        return;
      }
      r := SetField(field, value, validate, logChange);
    }

    /** The loop body of `SetEach`: `set` on the next key. */
    method SetNext(keys: seq<string>, i: nat, source: map<string, Val>, flag: bool, ghost st0: Store) returns (o: Outcome)
      requires i < |keys|
      requires SetAll(schema, st0, keys[..i], source, flag) == Loaded(Snapshot(), Pass)
      modifies this`data, this`changed, this`errors, this`relationshipCache
      ensures SetAll(schema, st0, keys[..i + 1], source, flag) == Loaded(Snapshot(), o)
    {
      ghost var before := Snapshot();
      var x := Set(keys[i], ValueOf(source, keys[i]), flag, flag);
      SetAllNext(schema, st0, keys, i, source, flag, before);
      o := if x.Err? then Fail(x.message) else Pass;
    }

    /** `set(key, source[key], flag, flag)` for each key, stopping at the first throw. */
    method SetEach(keys: seq<string>, source: map<string, Val>, flag: bool) returns (r: Outcome)
      modifies this`data, this`changed, this`errors, this`relationshipCache
      ensures Loaded(Snapshot(), r) == SetAll(schema, old(Snapshot()), keys, source, flag)
    {
      ghost var st0 := Snapshot();
      var i := 0;
      while i < |keys|
        invariant 0 <= i <= |keys|
        invariant SetAll(schema, st0, keys[..i], source, flag) == Loaded(Snapshot(), Pass)
      {
        var o := SetNext(keys, i, source, flag, st0);
        if o.Fail? {
          SetAllStops(schema, st0, keys, i + 1, source, flag);
          return o;
        }
        i := i + 1;
      }
      assert keys[..i] == keys;
      r := Pass;
    }

    /** `__load__(source, fromStorage)`; `now` is the `new Date()` a new instance gets as `created_at`. */
    method Load(source: map<string, Val>, fromStorage: bool, now: Val) returns (r: Outcome)
      requires Valid()
      modifies this
      ensures Valid()
      ensures Loaded(Snapshot(), r) == LoadStep(schema, old(Snapshot()), source, fromStorage, now)
    {
      inStorage := fromStorage;
      if fromStorage {
        errors := map[];
      }
      if !fromStorage {
        var c := Set("created_at", now, true, true);
        if c.Err? {
          return Fail(c.message);
        }
      }
      r := SetEach(LoadKeys(schema, source), source, !fromStorage);
    }

    /** `read(source)`. */
    method Read(source: map<string, Val>) returns (r: Outcome)
      requires Valid()
      modifies this`data, this`changed, this`errors, this`relationshipCache
      ensures Valid()
      ensures Loaded(Snapshot(), r) == ReadStep(schema, old(Snapshot()), source)
    {
      r := SetEach(LoadKeys(schema, source), source, true);
    }
  }
}
