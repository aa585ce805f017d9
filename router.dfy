/**
 * The routing helpers of router.js: the query-string folding of
 * `Route.prototype.parseQueryParameters`, the `Route` constructor and
 * `match`, and the `Router`'s `route` / `find` pair. The regular
 * expression engine is a parameter: a `Regex` carries its `exec` as a
 * function from the subject to the text of the first match, if any.
 */
module Routing {
  import opened Wrappers

  // ---------------------------------------------------------------------
  // Splitting a key with /(.*)\[(.*)\]$/

  /** The characters `.` does not match in a JavaScript regular expression. */
  predicate IsLineTerminator(c: char)
  {
    c == '\n' || c == '\r' || c == '\U{2028}' || c == '\U{2029}'
  }

  predicate NoTerminator(s: string)
  {
    forall i :: 0 <= i < |s| ==> !IsLineTerminator(s[i])
  }

  /**
   * `/(.*)\[(.*)\]$/` matches `key` starting at `p` with its `[` at `q`:
   * `key` ends in `]`, and neither group crosses a line terminator.
   */
  predicate MatchAt(key: string, p: int, q: int)
  {
    0 < |key| && key[|key| - 1] == ']' && 0 <= p <= q < |key| - 1 && key[q] == '[' &&
    NoTerminator(key[p..q]) && NoTerminator(key[q + 1..|key| - 1])
  }

  /**
   * The match `String.prototype.match` reports: the leftmost start, and
   * from there the last `[` (the greedy first group).
   */
  ghost predicate ReportedMatch(key: string, p: int, q: int)
  {
    MatchAt(key, p, q) &&
    (forall p2, q2 :: MatchAt(key, p2, q2) ==> p <= p2) &&
    (forall q2 :: MatchAt(key, p, q2) ==> q2 <= q)
  }

  /** Where the last line of `s` starts. */
  function LineStart(s: string): (r: nat)
    ensures r <= |s|
  {
    if |s| == 0 then 0
    else if IsLineTerminator(s[|s| - 1]) then |s|
    else LineStart(s[..|s| - 1])
  }

  /** `LineStart` follows the last line terminator, and none comes after it. */
  lemma {:induction false} LineStartIsLast(s: string)
    ensures LineStart(s) == 0 || IsLineTerminator(s[LineStart(s) - 1])
    ensures forall i :: LineStart(s) <= i < |s| ==> !IsLineTerminator(s[i])
  {
    if |s| > 0 && !IsLineTerminator(s[|s| - 1]) {
      LineStartIsLast(s[..|s| - 1]);
      forall i | LineStart(s) <= i < |s| - 1
        ensures !IsLineTerminator(s[i])
      {
        assert s[..|s| - 1][i] == s[i];
      }
      if LineStart(s) > 0 {
        assert s[..|s| - 1][LineStart(s) - 1] == s[LineStart(s) - 1];
      }
    }
  }

  /** The last `[` in `s[lo..hi]`. */
  function LastOpen(s: string, lo: nat, hi: nat): (r: Option<nat>)
    requires lo <= hi <= |s|
    ensures r.Some? ==> lo <= r.value < hi
    decreases hi - lo
  {
    if hi == lo then None
    else if s[hi - 1] == '[' then Some(hi - 1)
    else LastOpen(s, lo, hi - 1)
  }

  /** `LastOpen` finds a `[` with none after it, or there is none at all. */
  lemma {:induction false} LastOpenIsLast(s: string, lo: nat, hi: nat)
    requires lo <= hi <= |s|
    ensures var r := LastOpen(s, lo, hi);
            (r.Some? ==> s[r.value] == '[' && forall i :: r.value < i < hi ==> s[i] != '[') &&
            (r.None? ==> forall i :: lo <= i < hi ==> s[i] != '[')
    decreases hi - lo
  {
    if hi > lo && s[hi - 1] != '[' {
      LastOpenIsLast(s, lo, hi - 1);
    }
  }

  /** A query key is either plain or `name[sub]`. */
  datatype KeySplit = Plain | Nested(name: string, sub: string)

  /** `key.match(/(.*)\[(.*)\]$/)`, giving `match[1]` and `match[2]`. */
  function SplitKey(key: string): KeySplit
  {
    if |key| == 0 || key[|key| - 1] != ']' then Plain
    else
      var p := LineStart(key[..|key| - 1]);
      var open := LastOpen(key, p, |key| - 1);
      if open.None? then Plain
      else Nested(key[p..open.value], key[open.value + 1..|key| - 1])
  }

  lemma {:induction false} NoTerminatorAt(s: string, lo: int, hi: int, t: int)
    requires 0 <= lo <= t < hi <= |s| && NoTerminator(s[lo..hi])
    ensures !IsLineTerminator(s[t])
  {
    assert s[lo..hi][t - lo] == s[t];
  }

  /** A line terminator before the closing `]` lies before any match. */
  lemma {:induction false} TerminatorBeforeMatch(key: string, p: int, q: int, t: int)
    requires MatchAt(key, p, q) && 0 <= t < |key| - 1 && IsLineTerminator(key[t])
    ensures t < p
  {
    if p <= t < q {
      NoTerminatorAt(key, p, q, t);
    } else if q < t {
      NoTerminatorAt(key, q + 1, |key| - 1, t);
    }
  }

  /**
   * `SplitKey` is the regular expression's own answer: there is a match
   * exactly when it finds one, and its two parts are those of the match
   * `String.prototype.match` reports.
   */
  lemma {:induction false} SplitKeyIsRegexMatch(key: string)
    ensures SplitKey(key).Nested? <==> exists p, q :: MatchAt(key, p, q)
    ensures SplitKey(key).Nested? ==>
              exists p, q :: ReportedMatch(key, p, q) && SplitKey(key) == Nested(key[p..q], key[q + 1..|key| - 1])
  {
    if 0 < |key| && key[|key| - 1] == ']' {
      var body := |key| - 1;
      var p := LineStart(key[..body]);
      LineStartIsLast(key[..body]);
      LastOpenIsLast(key, p, body);
      forall p2, q2 | MatchAt(key, p2, q2)
        ensures p <= p2 && p <= q2
      {
        if p > 0 {
          TerminatorBeforeMatch(key, p2, q2, p - 1);
        }
      }
      var open := LastOpen(key, p, body);
      if open.Some? {
        assert ReportedMatch(key, p, open.value);
      }
    }
  }

  // ---------------------------------------------------------------------
  // parseQueryParameters

  /** A parsed query value: a string, or an array for a repeated key. */
  datatype QVal = QStr(s: string) | QList(items: seq<string>)

  /**
   * A value of the object `parseQueryParameters` builds: a copied string,
   * an array (with any properties a sub-key wrote onto it), or the object
   * the sub-keys of `name[sub]` collect into.
   */
  datatype Param = Str(s: string) | List(items: seq<string>, props: map<string, QVal>) | Group(fields: map<string, QVal>)

  /** `obj[key] = value`: the value unchanged. */
  function Copied(v: QVal): Param
  {
    match v
    case QStr(s) => Str(s)
    case QList(xs) => List(xs, map[])
  }

  /** `!(value instanceof Array) && (value = [value])`. */
  function Wrapped(v: QVal): (r: Param)
    ensures r.List? && r.props == map[]
    ensures v.QStr? ==> r.items == [v.s]
    ensures v.QList? ==> r.items == v.items
  {
    match v
    case QStr(s) => List([s], map[])
    case QList(xs) => List(xs, map[])
  }

  /**
   * `obj[name] || (obj[name] = {}); obj[name][sub] = value`: a missing or
   * empty-string entry becomes a fresh object; an object gains the
   * property; an array gains it as a named property beside its elements
   * (an index or `length` sub-key, which JavaScript treats as an element
   * write or a resize, is not distinguished); a non-empty string ignores
   * the write, as sloppy-mode JavaScript does for a property of a primitive.
   */
  function AssignSub(current: Option<Param>, sub: string, v: QVal): (r: Param)
    ensures current.None? || current == Some(Str("")) ==> r == Group(map[sub := v])
    ensures current.Some? && current.value.Group? ==> r == Group(current.value.fields[sub := v])
    ensures current.Some? && current.value.List? ==> r == List(current.value.items, current.value.props[sub := v])
    ensures current.Some? && current.value.Str? && current.value.s != "" ==> r == current.value
  {
    match current
    case None => Group(map[sub := v])
    case Some(Str(s)) => if s == "" then Group(map[sub := v]) else Str(s)
    case Some(List(xs, props)) => List(xs, props[sub := v])
    case Some(Group(fields)) => Group(fields[sub := v])
  }

  /** The key of `obj` that entry `key` writes. */
  function Target(key: string): string
  {
    match SplitKey(key)
    case Plain => key
    case Nested(name, _) => name
  }

  /** The body of the `forEach` for one key. */
  function Apply(obj: map<string, Param>, key: string, v: QVal): (r: map<string, Param>)
    ensures r.Keys == obj.Keys + {Target(key)}
    ensures forall k :: k in obj && k != Target(key) ==> r[k] == obj[k]
  {
    match SplitKey(key)
    case Plain => obj[key := Copied(v)]
    case Nested(name, sub) =>
      if sub != "" then obj[name := AssignSub(if name in obj then Some(obj[name]) else None, sub, v)]
      else obj[name := Wrapped(v)]
  }

  /** One key of the parsed `query` object and its value. */
  datatype Entry = Entry(key: string, value: QVal)

  /** What `parseQueryParameters` returns for the entries of `query`, in `Object.keys` order. */
  function QueryParams(entries: seq<Entry>): map<string, Param>
  {
    if |entries| == 0 then map[]
    else
      var last := entries[|entries| - 1];
      Apply(QueryParams(entries[..|entries| - 1]), last.key, last.value)
  }

  /** Entries `0..i` of the list, then entry `i`. */
  lemma {:induction false} QueryParamsNext(entries: seq<Entry>, i: nat)
    requires i < |entries|
    ensures QueryParams(entries[..i + 1]) == Apply(QueryParams(entries[..i]), entries[i].key, entries[i].value)
  {
    assert entries[..i + 1][..i] == entries[..i];
  }

  /** `Route.prototype.parseQueryParameters(query)`. */
  method ParseQueryParameters(entries: seq<Entry>) returns (obj: map<string, Param>)
    ensures obj == QueryParams(entries)
  {
    obj := map[];
    var i := 0;
    while i < |entries|
      invariant 0 <= i <= |entries|
      invariant obj == QueryParams(entries[..i])
      decreases |entries| - i
    {
      QueryParamsNext(entries, i);
      var key := entries[i].key;
      var value := entries[i].value;
      match SplitKey(key) {
        case Plain =>
          obj := obj[key := Copied(value)];
        case Nested(name, sub) =>
          if sub != "" {
            var current := if name in obj then Some(obj[name]) else None;
            obj := obj[name := AssignSub(current, sub, value)];
          } else {
            obj := obj[name := Wrapped(value)];
          }
      }
      i := i + 1;
    }
    assert entries[..i] == entries;
  }

  /** Some entry writes key `k` of the result. */
  predicate Targeted(entries: seq<Entry>, k: string)
  {
    exists i :: 0 <= i < |entries| && Target(entries[i].key) == k
  }

  lemma {:induction false} TargetedSnoc(entries: seq<Entry>, k: string)
    requires |entries| > 0
    ensures Targeted(entries, k) <==> Targeted(entries[..|entries| - 1], k) || Target(entries[|entries| - 1].key) == k
  {
    var init := entries[..|entries| - 1];
    if Targeted(init, k) {
      var i :| 0 <= i < |init| && Target(init[i].key) == k;
      assert init[i] == entries[i];
    }
    if Targeted(entries, k) && Target(entries[|entries| - 1].key) != k {
      var i :| 0 <= i < |entries| && Target(entries[i].key) == k;
      assert init[i] == entries[i];
    }
  }

  /** The result has a key exactly for each key some entry writes. */
  lemma {:induction false} QueryParamsKeys(entries: seq<Entry>, k: string)
    ensures k in QueryParams(entries) <==> Targeted(entries, k)
  {
    if |entries| > 0 {
      var n := |entries| - 1;
      var last := entries[n];
      QueryParamsKeys(entries[..n], k);
      TargetedSnoc(entries, k);
      assert QueryParams(entries).Keys == QueryParams(entries[..n]).Keys + {Target(last.key)};
    }
  }

  /** Entries after `i` that write other keys leave key `k` as entry `i` left it. */
  lemma {:induction false} LaterEntriesKeep(entries: seq<Entry>, i: nat, k: string)
    requires i < |entries|
    requires forall j :: i < j < |entries| ==> Target(entries[j].key) != k
    ensures k in QueryParams(entries) <==> k in QueryParams(entries[..i + 1])
    ensures k in QueryParams(entries) ==> QueryParams(entries)[k] == QueryParams(entries[..i + 1])[k]
    decreases |entries|
  {
    if |entries| > i + 1 {
      var n := |entries| - 1;
      var init := entries[..n];
      forall j | i < j < |init|
        ensures Target(init[j].key) != k
      {
        assert init[j] == entries[j];
      }
      LaterEntriesKeep(init, i, k);
      var before := QueryParams(init);
      var after := QueryParams(entries);
      var last := entries[n];
      assert after == Apply(before, last.key, last.value);
      assert Target(last.key) != k;
      assert init[..i + 1] == entries[..i + 1];
      assert k in after <==> k in before;
    } else {
      assert entries[..i + 1] == entries;
    }
  }

  /** A plain key written last keeps its value unchanged. */
  lemma {:induction false} PlainKeyLastWins(entries: seq<Entry>, i: nat)
    requires i < |entries| && SplitKey(entries[i].key).Plain?
    requires forall j :: i < j < |entries| ==> Target(entries[j].key) != entries[i].key
    ensures entries[i].key in QueryParams(entries)
    ensures QueryParams(entries)[entries[i].key] == Copied(entries[i].value)
  {
    QueryParamsNext(entries, i);
    LaterEntriesKeep(entries, i, entries[i].key);
  }

  /** A `name[]` key written last stores its value as an array. */
  lemma {:induction false} ArrayKeyWraps(entries: seq<Entry>, i: nat, name: string)
    requires i < |entries| && SplitKey(entries[i].key) == Nested(name, "")
    requires forall j :: i < j < |entries| ==> Target(entries[j].key) != name
    ensures name in QueryParams(entries)
    ensures QueryParams(entries)[name] == Wrapped(entries[i].value)
  {
    QueryParamsNext(entries, i);
    LaterEntriesKeep(entries, i, name);
  }

  /** Every entry that writes `name` is a `name[sub]` key with a non-empty `sub`. */
  predicate OnlySubKeys(entries: seq<Entry>, name: string)
  {
    forall i :: 0 <= i < |entries| && Target(entries[i].key) == name ==>
      SplitKey(entries[i].key).Nested? && SplitKey(entries[i].key).sub != ""
  }

  /** Entry `i` is the key `name[sub]`. */
  predicate WritesSub(entries: seq<Entry>, i: int, name: string, sub: string)
  {
    0 <= i < |entries| && SplitKey(entries[i].key) == Nested(name, sub)
  }

  /** Some entry is the key `name[sub]`. */
  ghost predicate SubWritten(entries: seq<Entry>, name: string, sub: string)
  {
    exists i :: WritesSub(entries, i, name, sub)
  }

  lemma {:induction false} SubWrittenSnoc(entries: seq<Entry>, name: string, sub: string)
    requires |entries| > 0
    ensures SubWritten(entries, name, sub) <==>
              SubWritten(entries[..|entries| - 1], name, sub) || WritesSub(entries, |entries| - 1, name, sub)
  {
    var init := entries[..|entries| - 1];
    if SubWritten(init, name, sub) {
      var i :| WritesSub(init, i, name, sub);
      assert WritesSub(entries, i, name, sub);
    }
    if SubWritten(entries, name, sub) && !WritesSub(entries, |entries| - 1, name, sub) {
      var i :| WritesSub(entries, i, name, sub);
      assert WritesSub(init, i, name, sub);
    }
  }

  lemma {:induction false} SubWrittenTargets(entries: seq<Entry>, name: string, sub: string)
    ensures SubWritten(entries, name, sub) ==> Targeted(entries, name)
  {
    if SubWritten(entries, name, sub) {
      var i :| WritesSub(entries, i, name, sub);
      assert Target(entries[i].key) == name;
    }
  }

  lemma {:induction false} OnlySubKeysInit(entries: seq<Entry>, name: string)
    requires |entries| > 0 && OnlySubKeys(entries, name)
    ensures OnlySubKeys(entries[..|entries| - 1], name)
  {
    var init := entries[..|entries| - 1];
    forall i | 0 <= i < |init| && Target(init[i].key) == name
      ensures SplitKey(init[i].key).Nested? && SplitKey(init[i].key).sub != ""
    {
      assert init[i] == entries[i];
    }
  }

  /**
   * When only `name[sub]` keys write `name`, it holds an object whose
   * properties are exactly those sub-keys.
   */
  lemma {:induction false} SubKeysCollect(entries: seq<Entry>, name: string)
    requires OnlySubKeys(entries, name)
    ensures name in QueryParams(entries) ==> QueryParams(entries)[name].Group?
    ensures name in QueryParams(entries) ==>
              forall sub :: sub in QueryParams(entries)[name].fields <==> SubWritten(entries, name, sub)
  {
    if |entries| > 0 {
      var n := |entries| - 1;
      var init := entries[..n];
      OnlySubKeysInit(entries, name);
      SubKeysCollect(init, name);
      var prev := QueryParams(init);
      var r := QueryParams(entries);
      var last := entries[n];
      assert r == Apply(prev, last.key, last.value);
      if Target(last.key) == name {
        var sub0 := SplitKey(last.key).sub;
        assert WritesSub(entries, n, name, sub0);
        if name !in prev {
          QueryParamsKeys(init, name);
          forall sub
            ensures !SubWritten(init, name, sub)
          {
            SubWrittenTargets(init, name, sub);
          }
        }
        forall sub
          ensures sub in r[name].fields <==> SubWritten(entries, name, sub)
        {
          SubWrittenSnoc(entries, name, sub);
        }
      } else if name in r {
        forall sub
          ensures sub in r[name].fields <==> SubWritten(entries, name, sub)
        {
          SubWrittenSnoc(entries, name, sub);
        }
      }
    }
  }

  lemma {:induction false} WritesSubInit(entries: seq<Entry>, j: int, name: string, sub: string)
    requires 0 <= j < |entries| - 1
    ensures WritesSub(entries[..|entries| - 1], j, name, sub) <==> WritesSub(entries, j, name, sub)
  {
    assert entries[..|entries| - 1][j] == entries[j];
  }

  /** The property `sub` of `name` holds the value of the last `name[sub]` key. */
  lemma {:induction false} SubKeyLastWins(entries: seq<Entry>, name: string, sub: string, i: nat)
    requires OnlySubKeys(entries, name)
    requires WritesSub(entries, i, name, sub)
    requires forall j :: i < j < |entries| ==> !WritesSub(entries, j, name, sub)
    ensures name in QueryParams(entries) && QueryParams(entries)[name].Group?
    ensures sub in QueryParams(entries)[name].fields && QueryParams(entries)[name].fields[sub] == entries[i].value
  {
    var n := |entries| - 1;
    var init := entries[..n];
    OnlySubKeysInit(entries, name);
    var prev := QueryParams(init);
    var last := entries[n];
    var r := QueryParams(entries);
    assert r == Apply(prev, last.key, last.value);
    if i == n {
      SubKeysCollect(init, name);
      assert sub != "" by {
        assert Target(entries[i].key) == name;
      }
      var cur := if name in prev then Some(prev[name]) else None;
      assert r[name] == AssignSub(cur, sub, last.value);
      assert r[name] == Group((if name in prev then prev[name].fields else map[])[sub := last.value]);
    } else {
      forall j | i < j < |init|
        ensures !WritesSub(init, j, name, sub)
      {
        WritesSubInit(entries, j, name, sub);
      }
      WritesSubInit(entries, i, name, sub);
      SubKeyLastWins(init, name, sub, i);
      if Target(last.key) == name {
        var other := SplitKey(last.key).sub;
        assert other != "" && other != sub by {
          assert !WritesSub(entries, n, name, sub);
        }
        assert r[name] == AssignSub(Some(prev[name]), other, last.value);
        assert r[name] == Group(prev[name].fields[other := last.value]);
        assert r[name].fields[sub] == prev[name].fields[sub];
      } else {
        assert r[name] == prev[name];
      }
    }
  }

  // ---------------------------------------------------------------------
  // Route

  /**
   * A compiled regular expression: its `exec`, reduced to the text of the
   * first match (`matches[0]`), or `None` when `exec` returns null.
   */
  datatype Regex = Regex(source: string, exec: string -> Option<string>)

  /** What `new Route(regex, …)` is given as its pattern. */
  datatype Pattern = PatternString(text: string) | PatternRegExp(regex: Regex) | PatternOther

  /** A controller constructor; `isController` is whether its prototype inherits from `Controller.prototype`. */
  datatype ControllerRef = ControllerRef(name: string, isController: bool)

  datatype Route = Route(regex: Regex, controller: ControllerRef)

  const PatternError := "Routes must be strings or valid regular expression"
  const ControllerError := "Route requires a valid Controller"

  /**
   * `new Route(regex, controller)`: a string is compiled with `compile`
   * (`new RegExp`), a RegExp is kept; anything else throws, and so does
   * a controller that is not a `Controller`, checked second.
   */
  function NewRoute(pattern: Pattern, controller: ControllerRef, compile: string -> Regex): (r: Result<Route>)
    ensures pattern.PatternOther? ==> r == Err(PatternError)
    ensures !pattern.PatternOther? && !controller.isController ==> r == Err(ControllerError)
    ensures r.Ok? <==> !pattern.PatternOther? && controller.isController
    ensures r.Ok? ==> r.value.controller == controller
    ensures r.Ok? && pattern.PatternString? ==> r.value.regex == compile(pattern.text)
    ensures r.Ok? && pattern.PatternRegExp? ==> r.value.regex == pattern.regex
  {
    if pattern.PatternOther? then Err(PatternError)
    else
      var regex := if pattern.PatternString? then compile(pattern.text) else pattern.regex;
      if !controller.isController then Err(ControllerError)
      else Ok(Route(regex, controller))
  }

  /** `Route.prototype.match`: there is a match and it covers all of `pathname`. */
  predicate Matches(route: Route, pathname: string)
  {
    route.regex.exec(pathname) == Some(pathname)
  }

  /** The first route, in order, that matches `pathname`. */
  function FirstMatch(routes: seq<Route>, pathname: string): Option<Route>
  {
    if |routes| == 0 then None
    else if Matches(routes[0], pathname) then Some(routes[0])
    else FirstMatch(routes[1..], pathname)
  }

  /**
   * `FirstMatch` finds nothing exactly when no route matches, and
   * otherwise finds the route at the first index that matches.
   */
  lemma {:induction false} FirstMatchIsFirst(routes: seq<Route>, pathname: string)
    ensures FirstMatch(routes, pathname).None? <==> forall i :: 0 <= i < |routes| ==> !Matches(routes[i], pathname)
    ensures FirstMatch(routes, pathname).Some? ==>
              exists i :: 0 <= i < |routes| && routes[i] == FirstMatch(routes, pathname).value &&
                Matches(routes[i], pathname) && forall j :: 0 <= j < i ==> !Matches(routes[j], pathname)
  {
    if |routes| > 0 && !Matches(routes[0], pathname) {
      FirstMatchIsFirst(routes[1..], pathname);
      forall i | 1 <= i < |routes|
        ensures routes[i] == routes[1..][i - 1]
      {
      }
      if FirstMatch(routes[1..], pathname).Some? {
        var i :| 0 <= i < |routes[1..]| && routes[1..][i] == FirstMatch(routes[1..], pathname).value &&
                 Matches(routes[1..][i], pathname) && forall j :: 0 <= j < i ==> !Matches(routes[1..][j], pathname);
        assert routes[i + 1] == routes[1..][i];
        forall j | 0 <= j < i + 1
          ensures !Matches(routes[j], pathname)
        {
          if j > 0 {
            assert routes[j] == routes[1..][j - 1];
          }
        }
      }
    } else if |routes| > 0 {
      assert Matches(routes[0], pathname);
    }
  }

  // ---------------------------------------------------------------------
  // Router

  /** The routing table of a `Router`; the HTTP server it listens with is not modelled. */
  class Router {
    var routes: seq<Route>

    /** `new Router(port)`: no routes yet. */
    constructor()
      ensures routes == []
    {
      routes := [];
    }

    /** `route(regex, Controller)`: builds the route, throwing before anything is pushed, then appends it. */
    method AddRoute(pattern: Pattern, controller: ControllerRef, compile: string -> Regex) returns (r: Result<Route>)
      modifies this
      ensures r == NewRoute(pattern, controller, compile)
      ensures r.Ok? ==> routes == old(routes) + [r.value]
      ensures r.Err? ==> routes == old(routes)
    {
      r := NewRoute(pattern, controller, compile);
      if r.Ok? {
        routes := routes + [r.value];
      }
    }

    /** `find(pathname)`: the first registered route whose `match` holds, or null. */
    method Find(pathname: string) returns (r: Option<Route>)
      ensures r == FirstMatch(routes, pathname)
      ensures r.None? <==> forall i :: 0 <= i < |routes| ==> !Matches(routes[i], pathname)
      ensures r.Some? ==>
                exists i :: 0 <= i < |routes| && routes[i] == r.value &&
                  Matches(routes[i], pathname) && forall j :: 0 <= j < i ==> !Matches(routes[j], pathname)
    {
      FirstMatchIsFirst(routes, pathname);
      var i := 0;
      while i < |routes|
        invariant 0 <= i <= |routes|
        invariant FirstMatch(routes[i..], pathname) == FirstMatch(routes, pathname)
      {
        if Matches(routes[i], pathname) {
          return Some(routes[i]);
        }
        assert routes[i..][1..] == routes[i + 1..];
        i := i + 1;
      }
      r := None;
    }
  }
}
