/**
 * Startup options of the installed service (src/cli/service-options.ts): parsing, printing, and the merge
 * that keeps every installed setting unless an explicit option replaces or unsets it.
 */
module ServiceOptions {
  import opened OrderedSets
  import opened Results

  /** The flag tables. `repeatable` may occur several times; `remotePrefix` starts every remote-backup flag. */
  datatype Flags = Flags(
    paths: set<string>, value: set<string>, boolean: set<string>, install: set<string>, internal: seq<string>,
    unset: string, repeatable: string, webRoot: string, remoteDisabled: string, remotePrefix: string)

  datatype Mode = Install | Installed | Other

  datatype Refusal = UnsetNeedsOneFlag | Unsupported | Duplicate | NeedsOneValue | SetAndUnset

  // ---- insertion-ordered maps ----

  datatype Options = Options(keys: seq<string>, values: map<string, seq<string>>)

  const EMPTY := Options([], map[])

  ghost predicate Proper(m: Options) {
    Distinct(m.keys) && forall k :: k in m.keys <==> k in m.values
  }

  function Get(m: Options, flag: string): seq<string> { if flag in m.values then m.values[flag] else [] }

  function Lookup(m: Options, flag: string): Option<seq<string>> {
    if flag in m.values then Some(m.values[flag]) else None
  }

  function Put(m: Options, flag: string, values: seq<string>): Options {
    Options(if flag in m.values then m.keys else m.keys + [flag], m.values[flag := values])
  }

  function Without(keys: seq<string>, flag: string): seq<string> {
    if keys == [] then []
    else if keys[0] == flag then Without(keys[1..], flag)
    else [keys[0]] + Without(keys[1..], flag)
  }

  function Delete(m: Options, flag: string): Options { Options(Without(m.keys, flag), m.values - {flag}) }

  // ---- parsing ----

  predicate IsSpace(c: char) {
    var n := c as int;
    || 9 <= n <= 13 || n == 32 || n == 0xA0 || n == 0x1680 || 0x2000 <= n <= 0x200A
    || n == 0x2028 || n == 0x2029 || n == 0x202F || n == 0x205F || n == 0x3000 || n == 0xFEFF
  }

  predicate ValidValue(value: string) {
    && (exists i :: 0 <= i < |value| && !IsSpace(value[i]))
    && value[0] != '-'
    && '\0' !in value && '\r' !in value && '\n' !in value
  }

  predicate Known(fl: Flags, flag: string) { flag in fl.value || flag in fl.boolean }

  predicate Allowed(fl: Flags, mode: Mode, flag: string) {
    match mode
    case Other => flag in fl.paths
    case Install => Known(fl, flag) || flag in fl.install
    case Installed => Known(fl, flag) || flag in fl.internal
  }

  function ParseFrom(fl: Flags, mode: Mode, args: seq<string>, m: Options): Result<Options, Refusal>
    decreases |args|
  {
    if args == [] then Ok(m)
    else
      var flag := args[0];
      var values := Get(m, flag);
      if flag == fl.unset && mode.Install? then
        if |args| < 2 || !Known(fl, args[1]) || args[1] in values then Err(UnsetNeedsOneFlag)
        else ParseFrom(fl, mode, args[2..], Put(m, flag, values + [args[1]]))
      else if !Allowed(fl, mode, flag) then Err(Unsupported)
      else if flag in m.values && flag != fl.repeatable then Err(Duplicate)
      else if flag !in fl.value then ParseFrom(fl, mode, args[1..], Put(m, flag, values))
      else if |args| < 2 || !ValidValue(args[1]) then Err(NeedsOneValue)
      else ParseFrom(fl, mode, args[2..], Put(m, flag, values + [args[1]]))
  }

  predicate SetsUnset(fl: Flags, m: Options) {
    exists i :: 0 <= i < |Get(m, fl.unset)| && Get(m, fl.unset)[i] in m.values
  }

  function Parse(fl: Flags, mode: Mode, args: seq<string>): Result<Options, Refusal> {
    var parsed := ParseFrom(fl, mode, args, EMPTY);
    if parsed.Ok? && SetsUnset(fl, parsed.value) then Err(SetAndUnset) else parsed
  }

  method ParseOptions(fl: Flags, args: seq<string>, mode: Mode) returns (r: Result<Options, Refusal>)
    ensures r == Parse(fl, mode, args)
  {
    var options, i := EMPTY, 0;
    assert args[0..] == args;
    while i < |args|
      invariant 0 <= i <= |args|
      invariant ParseFrom(fl, mode, args, EMPTY) == ParseFrom(fl, mode, args[i..], options)
    {
      var flag := args[i];
      assert args[i..][1..] == args[i + 1..];
      if flag == fl.unset && mode.Install? {
        i := i + 1;
        var removals := Get(options, flag);
        if i >= |args| || !Known(fl, args[i]) || args[i] in removals {
          return Err(UnsetNeedsOneFlag);
        }
        assert args[i - 1..][2..] == args[i + 1..];
        options := Put(options, flag, removals + [args[i]]);
        i := i + 1;
        continue;
      }
      if !Allowed(fl, mode, flag) { return Err(Unsupported); }
      if flag in options.values && flag != fl.repeatable { return Err(Duplicate); }
      var values := Get(options, flag);
      if flag in fl.value {
        i := i + 1;
        if i >= |args| || !ValidValue(args[i]) { return Err(NeedsOneValue); }
        assert args[i - 1..][2..] == args[i + 1..];
        values := values + [args[i]];
      }
      options := Put(options, flag, values);
      i := i + 1;
    }
    assert args[i..] == [];
    if SetsUnset(fl, options) { return Err(SetAndUnset); }
    return Ok(options);
  }

  // ---- what parsing produces, exactly ----

  /** A flag that starts the controller, or one that only this kind of command line has. */
  ghost predicate Belongs(fl: Flags, mode: Mode, flag: string) {
    if mode.Other? then flag in fl.paths
    else flag in fl.value || flag in fl.boolean || (if mode.Install? then flag in fl.install else flag in fl.internal)
  }

  /** Something other than white space, no flag, on one line. */
  ghost predicate PlainValue(value: string) {
    && (exists i :: 0 <= i < |value| && !IsSpace(value[i])) && value[0] != '-'
    && forall i :: 0 <= i < |value| ==> value[i] != '\0' && value[i] != '\r' && value[i] != '\n'
  }

  ghost predicate EntryParsed(fl: Flags, mode: Mode, flag: string, values: seq<string>) {
    if flag == fl.unset && mode.Install? then
      && values != [] && Distinct(values)
      && forall i :: 0 <= i < |values| ==> values[i] in fl.value || values[i] in fl.boolean
    else
      && Belongs(fl, mode, flag)
      && (flag !in fl.value ==> values == [])
      && (flag in fl.value ==> values != [] && forall i :: 0 <= i < |values| ==> PlainValue(values[i]))
      && (flag != fl.repeatable ==> |values| <= 1)
  }

  ghost predicate Entries(fl: Flags, mode: Mode, m: Options) {
    Proper(m) && forall f :: f in m.values ==> EntryParsed(fl, mode, f, m.values[f])
  }

  ghost predicate Parsed(fl: Flags, mode: Mode, m: Options) { Entries(fl, mode, m) && !SetsUnset(fl, m) }

  lemma PutEntry(fl: Flags, mode: Mode, m: Options, flag: string, values: seq<string>)
    requires Entries(fl, mode, m) && EntryParsed(fl, mode, flag, values)
    ensures Entries(fl, mode, Put(m, flag, values))
  {
  }

  lemma {:induction false} ParsingGivesEntries(fl: Flags, mode: Mode, args: seq<string>, m: Options)
    requires Entries(fl, mode, m) && ParseFrom(fl, mode, args, m).Ok?
    ensures Entries(fl, mode, ParseFrom(fl, mode, args, m).value)
    decreases |args|
  {
    if args != [] {
      var flag := args[0];
      var values := Get(m, flag);
      if (flag == fl.unset && mode.Install?) || flag in fl.value {
        PutEntry(fl, mode, m, flag, values + [args[1]]);
        ParsingGivesEntries(fl, mode, args[2..], Put(m, flag, values + [args[1]]));
      } else {
        PutEntry(fl, mode, m, flag, values);
        ParsingGivesEntries(fl, mode, args[1..], Put(m, flag, values));
      }
    }
  }

  lemma ParseGivesParsed(fl: Flags, mode: Mode, args: seq<string>)
    requires Parse(fl, mode, args).Ok?
    ensures Parsed(fl, mode, Parse(fl, mode, args).value)
  {
    ParsingGivesEntries(fl, mode, args, EMPTY);
  }

  // ---- printing a parsed map and parsing it again ----

  function Pairs(flag: string, values: seq<string>): seq<string> {
    if values == [] then [] else [flag, values[0]] + Pairs(flag, values[1..])
  }

  function FlattenEntry(flag: string, values: seq<string>): seq<string> {
    if values == [] then [flag] else Pairs(flag, values)
  }

  function FlattenKeys(m: Options, keys: seq<string>): seq<string> {
    if keys == [] then [] else FlattenEntry(keys[0], Get(m, keys[0])) + FlattenKeys(m, keys[1..])
  }

  function Flatten(m: Options): seq<string> { FlattenKeys(m, m.keys) }

  lemma PutTwice(m: Options, flag: string, a: seq<string>, b: seq<string>)
    ensures Put(Put(m, flag, a), flag, b) == Put(m, flag, b)
  {
    assert m.values[flag := a][flag := b] == m.values[flag := b];
  }

  /** One more value of a flag whose first values are in the map, and whose entry may still grow. */
  lemma ParsePair(fl: Flags, mode: Mode, flag: string, value: string, rest: seq<string>, m: Options)
    requires EntryParsed(fl, mode, flag, Get(m, flag) + [value])
    requires flag in m.values ==> m.values[flag] != []
    ensures ParseFrom(fl, mode, [flag, value] + rest, m)
            == ParseFrom(fl, mode, rest, Put(m, flag, Get(m, flag) + [value]))
  {
    var args, values := [flag, value] + rest, Get(m, flag);
    assert args[2..] == rest;
    assert (values + [value])[|values|] == value;
    if value in values {
      var i :| 0 <= i < |values| && values[i] == value;
      assert (values + [value])[i] == value;
    }
  }

  ghost predicate Grows(fl: Flags, mode: Mode, flag: string, values: seq<string>) {
    forall n :: 0 < n <= |values| ==> EntryParsed(fl, mode, flag, values[..n])
  }

  lemma PrefixesGrow(fl: Flags, mode: Mode, flag: string, values: seq<string>)
    requires EntryParsed(fl, mode, flag, values)
    ensures Grows(fl, mode, flag, values)
  {
  }

  lemma PairsFirst(flag: string, values: seq<string>, n: nat, rest: seq<string>)
    requires n < |values|
    ensures Pairs(flag, values[n..]) + rest == [flag, values[n]] + (Pairs(flag, values[n + 1..]) + rest)
  {
    assert values[n..][1..] == values[n + 1..];
  }

  lemma {:induction false} ParsePairs(
      fl: Flags, mode: Mode, flag: string, values: seq<string>, n: nat, rest: seq<string>, m: Options)
    requires n <= |values| && Grows(fl, mode, flag, values) && flag !in m.values
    ensures n > 0 ==>
      ParseFrom(fl, mode, Pairs(flag, values[n..]) + rest, Put(m, flag, values[..n]))
      == ParseFrom(fl, mode, rest, Put(m, flag, values))
    ensures n == 0 && values != [] ==>
      ParseFrom(fl, mode, Pairs(flag, values) + rest, m) == ParseFrom(fl, mode, rest, Put(m, flag, values))
    decreases |values| - n
  {
    if n == |values| {
      assert values[..n] == values && [] + rest == rest;
    } else {
      var before := if n == 0 then m else Put(m, flag, values[..n]);
      var more := Pairs(flag, values[n + 1..]) + rest;
      PairsFirst(flag, values, n, rest);
      assert values[0..] == values;
      assert Get(before, flag) + [values[n]] == values[..n + 1];
      ParsePair(fl, mode, flag, values[n], more, before);
      PutTwice(m, flag, values[..n], values[..n + 1]);
      ParsePairs(fl, mode, flag, values, n + 1, rest, m);
    }
  }

  lemma ParseEntry(fl: Flags, mode: Mode, flag: string, values: seq<string>, rest: seq<string>, m: Options)
    requires EntryParsed(fl, mode, flag, values) && flag !in m.values
    ensures ParseFrom(fl, mode, FlattenEntry(flag, values) + rest, m)
            == ParseFrom(fl, mode, rest, Put(m, flag, values))
  {
    if values == [] {
      assert ([flag] + rest)[1..] == rest;
    } else {
      PrefixesGrow(fl, mode, flag, values);
      ParsePairs(fl, mode, flag, values, 0, rest, m);
    }
  }

  /** The first k entries of a map. */
  function First(m: Options, k: nat): Options
    requires k <= |m.keys|
  {
    Options(m.keys[..k], map f | f in m.values && f in m.keys[..k] :: m.values[f])
  }

  lemma FirstGrows(m: Options, k: nat)
    requires Proper(m) && k < |m.keys|
    ensures m.keys[k] !in First(m, k).values
    ensures Put(First(m, k), m.keys[k], Get(m, m.keys[k])) == First(m, k + 1)
  {
    var flag := m.keys[k];
    assert flag in m.keys;
    forall f ensures f in m.keys[..k + 1] <==> f in m.keys[..k] || f == flag {
      assert m.keys[..k + 1] == m.keys[..k] + [flag];
    }
    assert Put(First(m, k), flag, m.values[flag]).values == First(m, k + 1).values;
  }

  lemma {:induction false} ParseKeys(fl: Flags, mode: Mode, m: Options, k: nat)
    requires Entries(fl, mode, m) && k <= |m.keys|
    ensures ParseFrom(fl, mode, FlattenKeys(m, m.keys[k..]), First(m, k)) == Ok(m)
    decreases |m.keys| - k
  {
    if k == |m.keys| {
      assert m.keys[..k] == m.keys;
      assert First(m, k).values == m.values;
    } else {
      var flag := m.keys[k];
      assert flag in m.keys;
      assert m.keys[k..][1..] == m.keys[k + 1..];
      FirstGrows(m, k);
      ParseEntry(fl, mode, flag, m.values[flag], FlattenKeys(m, m.keys[k + 1..]), First(m, k));
      ParseKeys(fl, mode, m, k + 1);
    }
  }

  /** Printing any map that parsing can produce, and parsing it again, gives the same map in the same order. */
  lemma FlattenParses(fl: Flags, mode: Mode, m: Options)
    requires Parsed(fl, mode, m)
    ensures Parse(fl, mode, Flatten(m)) == Ok(m)
  {
    ParseKeys(fl, mode, m, 0);
    assert m.keys[0..] == m.keys && First(m, 0) == EMPTY;
  }

  // ---- the merge ----

  function DeleteAll(m: Options, flags: seq<string>): Options
    decreases |flags|
  {
    if flags == [] then m else DeleteAll(Delete(m, flags[0]), flags[1..])
  }

  function Prefixed(keys: seq<string>, prefix: string): seq<string> {
    if keys == [] then [] else (if prefix <= keys[0] then [keys[0]] else []) + Prefixed(keys[1..], prefix)
  }

  function PutAll(fl: Flags, m: Options, overrides: Options, keys: seq<string>): Options
    decreases |keys|
  {
    if keys == [] then m
    else
      var flag := keys[0];
      PutAll(fl, if flag in fl.install then m else Put(m, flag, Get(overrides, flag)), overrides, keys[1..])
  }

  /** The installed settings that survive: static assets, internal flags and what was unset or disabled do not. */
  function Inherited(fl: Flags, previous: Options, overrides: Options): Options {
    var kept := DeleteAll(DeleteAll(Delete(previous, fl.webRoot), fl.internal), Get(overrides, fl.unset));
    if fl.remoteDisabled in overrides.values then DeleteAll(kept, Prefixed(kept.keys, fl.remotePrefix)) else kept
  }

  function Merge(fl: Flags, previous: Options, overrides: Options): Options {
    PutAll(fl, Inherited(fl, previous, overrides), overrides, overrides.keys)
  }

  function Resolve(fl: Flags, args: seq<string>, installed: Option<seq<string>>): Result<Options, Refusal> {
    var previous := Parse(fl, Installed, if installed.Some? then installed.value else []);
    var overrides := Parse(fl, Install, if args == [] then [] else args[1..]);
    if previous.Err? then previous
    else if overrides.Err? then overrides
    else Ok(Merge(fl, previous.value, overrides.value))
  }

  method ResolveServiceInstallArguments(fl: Flags, args: seq<string>, installed: Option<seq<string>>)
    returns (r: Result<seq<string>, Refusal>)
    ensures var merged := Resolve(fl, args, installed);
            r == if merged.Ok? then Ok(Flatten(merged.value)) else Err(merged.error)
  {
    var previous := ParseOptions(fl, if installed.Some? then installed.value else [], Installed);
    if previous.Err? { return Err(previous.error); }
    var overrides := ParseOptions(fl, if args == [] then [] else args[1..], Install);
    if overrides.Err? { return Err(overrides.error); }
    var merged := Delete(previous.value, fl.webRoot);
    merged := RemoveFlags(merged, fl.internal);
    merged := RemoveFlags(merged, Get(overrides.value, fl.unset));
    if fl.remoteDisabled in overrides.value.values {
      merged := RemoveFlags(merged, Prefixed(merged.keys, fl.remotePrefix));
    }
    ghost var inherited := merged;
    var keys := overrides.value.keys;
    var i := 0;
    assert keys[0..] == keys;
    while i < |keys|
      invariant 0 <= i <= |keys|
      invariant PutAll(fl, merged, overrides.value, keys[i..]) == PutAll(fl, inherited, overrides.value, keys)
    {
      assert keys[i..][1..] == keys[i + 1..];
      if keys[i] !in fl.install {
        merged := Put(merged, keys[i], Get(overrides.value, keys[i]));
      }
      i := i + 1;
    }
    return Ok(Flatten(merged));
  }

  method RemoveFlags(m: Options, flags: seq<string>) returns (r: Options)
    ensures r == DeleteAll(m, flags)
  {
    r := m;
    var i := 0;
    assert flags[0..] == flags;
    while i < |flags|
      invariant 0 <= i <= |flags|
      invariant DeleteAll(r, flags[i..]) == DeleteAll(m, flags)
    {
      assert flags[i..][1..] == flags[i + 1..];
      r := Delete(r, flags[i]);
      i := i + 1;
    }
  }

  // ---- what the merge means for each flag ----

  function Elements(flags: seq<string>): set<string> { set f | f in flags }

  function Filter(keys: seq<string>, dropped: set<string>): seq<string> {
    if keys == [] then []
    else if keys[0] in dropped then Filter(keys[1..], dropped)
    else [keys[0]] + Filter(keys[1..], dropped)
  }

  function Minus(m: Options, dropped: set<string>): Options {
    Options(Filter(m.keys, dropped), m.values - dropped)
  }

  lemma {:induction false} WithoutIsFilter(keys: seq<string>, flag: string)
    ensures Without(keys, flag) == Filter(keys, {flag})
  {
    if keys != [] {
      WithoutIsFilter(keys[1..], flag);
    }
  }

  lemma {:induction false} FilterNothing(keys: seq<string>)
    ensures Filter(keys, {}) == keys
  {
    if keys != [] {
      FilterNothing(keys[1..]);
    }
  }

  lemma {:induction false} FilterTwice(keys: seq<string>, a: set<string>, b: set<string>)
    ensures Filter(Filter(keys, a), b) == Filter(keys, a + b)
  {
    if keys != [] {
      FilterTwice(keys[1..], a, b);
      assert ([keys[0]] + Filter(keys[1..], a))[1..] == Filter(keys[1..], a);
    }
  }

  lemma MinusTwice(m: Options, a: set<string>, b: set<string>)
    ensures Minus(Minus(m, a), b) == Minus(m, a + b)
  {
    FilterTwice(m.keys, a, b);
    assert m.values - a - b == m.values - (a + b);
  }

  lemma {:induction false} DeleteAllIsMinus(m: Options, flags: seq<string>)
    ensures DeleteAll(m, flags) == Minus(m, Elements(flags))
    decreases |flags|
  {
    if flags == [] {
      FilterNothing(m.keys);
      assert Elements(flags) == {} && m.values - {} == m.values;
    } else {
      WithoutIsFilter(m.keys, flags[0]);
      DeleteAllIsMinus(Delete(m, flags[0]), flags[1..]);
      MinusTwice(m, {flags[0]}, Elements(flags[1..]));
      assert {flags[0]} + Elements(flags[1..]) == Elements(flags) by {
        assert flags == [flags[0]] + flags[1..];
      }
    }
  }

  predicate Dropped(fl: Flags, overrides: Options, flag: string) {
    || flag == fl.webRoot
    || flag in fl.internal
    || flag in Get(overrides, fl.unset)
    || (fl.remoteDisabled in overrides.values && fl.remotePrefix <= flag)
  }

  function DroppedKeys(fl: Flags, overrides: Options, keys: seq<string>): set<string> {
    set f | f in keys && Dropped(fl, overrides, f)
  }

  lemma {:induction false} PrefixedElements(keys: seq<string>, prefix: string)
    ensures forall f :: f in Prefixed(keys, prefix) <==> f in keys && prefix <= f
  {
    if keys != [] {
      PrefixedElements(keys[1..], prefix);
      assert keys == [keys[0]] + keys[1..];
    }
  }

  lemma {:induction false} FilterElements(keys: seq<string>, dropped: set<string>)
    ensures forall f :: f in Filter(keys, dropped) <==> f in keys && f !in dropped
    ensures Distinct(keys) ==> Distinct(Filter(keys, dropped))
  {
    if keys != [] {
      FilterElements(keys[1..], dropped);
      assert keys == [keys[0]] + keys[1..];
    }
  }

  /** Only dropped keys matter: flags to drop that are not in the map make no difference. */
  lemma {:induction false} FilterAgrees(keys: seq<string>, a: set<string>, b: set<string>)
    requires forall f :: f in keys ==> (f in a <==> f in b)
    ensures Filter(keys, a) == Filter(keys, b)
  {
    if keys != [] {
      assert keys[0] in keys;
      forall f | f in keys[1..] ensures f in keys {}
      FilterAgrees(keys[1..], a, b);
    }
  }

  lemma MinusAgrees(m: Options, a: set<string>, b: set<string>)
    requires Proper(m) && forall f :: f in m.keys ==> (f in a <==> f in b)
    ensures Minus(m, a) == Minus(m, b)
  {
    FilterAgrees(m.keys, a, b);
    assert m.values - a == m.values - b;
  }

  /** What survives of the installed settings is everything that is not dropped, in its order. */
  lemma InheritedExactly(fl: Flags, previous: Options, overrides: Options)
    requires Proper(previous)
    ensures Inherited(fl, previous, overrides) == Minus(previous, DroppedKeys(fl, overrides, previous.keys))
  {
    var removals := Get(overrides, fl.unset);
    var a, b, c := {fl.webRoot}, Elements(fl.internal), Elements(removals);
    WithoutIsFilter(previous.keys, fl.webRoot);
    DeleteAllIsMinus(Minus(previous, a), fl.internal);
    MinusTwice(previous, a, b);
    DeleteAllIsMinus(Minus(previous, a + b), removals);
    MinusTwice(previous, a + b, c);
    var kept := Minus(previous, a + b + c);
    var all := DroppedKeys(fl, overrides, previous.keys);
    if fl.remoteDisabled in overrides.values {
      var remote := Prefixed(kept.keys, fl.remotePrefix);
      PrefixedElements(kept.keys, fl.remotePrefix);
      FilterElements(previous.keys, a + b + c);
      DeleteAllIsMinus(kept, remote);
      MinusTwice(previous, a + b + c, Elements(remote));
      MinusAgrees(previous, a + b + c + Elements(remote), all);
    } else {
      MinusAgrees(previous, a + b + c, all);
    }
  }

  lemma {:induction false} PutAllLooksUp(fl: Flags, m: Options, overrides: Options, keys: seq<string>, flag: string)
    requires forall k :: k in keys ==> k in overrides.values
    ensures Lookup(PutAll(fl, m, overrides, keys), flag)
            == if flag in keys && flag !in fl.install then Lookup(overrides, flag) else Lookup(m, flag)
    decreases |keys|
  {
    if keys != [] {
      var k := keys[0];
      var next := if k in fl.install then m else Put(m, k, Get(overrides, k));
      assert keys == [k] + keys[1..];
      PutAllLooksUp(fl, next, overrides, keys[1..], flag);
    }
  }

  /**
   * Each flag has its override; else it is absent if unset, disabled with the remote backup, internal or the
   * static assets; else it keeps its installed values in order.
   */
  lemma MergeKeepsEachFlag(fl: Flags, previous: Options, overrides: Options, flag: string)
    requires Proper(previous) && Proper(overrides)
    ensures Lookup(Merge(fl, previous, overrides), flag)
            == if flag in overrides.values && flag !in fl.install then Lookup(overrides, flag)
               else if Dropped(fl, overrides, flag) then None
               else Lookup(previous, flag)
  {
    InheritedExactly(fl, previous, overrides);
    PutAllLooksUp(fl, Inherited(fl, previous, overrides), overrides, overrides.keys, flag);
  }

  function FreshKeys(fl: Flags, m: Options, keys: seq<string>): seq<string> {
    if keys == [] then []
    else (if keys[0] in fl.install || keys[0] in m.values then [] else [keys[0]]) + FreshKeys(fl, m, keys[1..])
  }

  lemma {:induction false} FreshAgrees(fl: Flags, m: Options, n: Options, keys: seq<string>)
    requires forall k :: k in keys ==> (k in m.values <==> k in n.values)
    ensures FreshKeys(fl, m, keys) == FreshKeys(fl, n, keys)
  {
    if keys != [] {
      assert keys[0] in keys;
      forall k | k in keys[1..] ensures k in keys {}
      FreshAgrees(fl, m, n, keys[1..]);
    }
  }

  lemma {:induction false} PutAllAppends(fl: Flags, m: Options, overrides: Options, keys: seq<string>)
    requires Distinct(keys)
    ensures PutAll(fl, m, overrides, keys).keys == m.keys + FreshKeys(fl, m, keys)
    decreases |keys|
  {
    if keys != [] {
      var k, rest := keys[0], keys[1..];
      var next := if k in fl.install then m else Put(m, k, Get(overrides, k));
      assert k !in rest;
      PutAllAppends(fl, next, overrides, rest);
      FreshAgrees(fl, m, next, rest);
      FreshFirst(fl, m, keys);
      if k !in fl.install && k !in m.values {
        assert (m.keys + [k]) + FreshKeys(fl, m, rest) == m.keys + ([k] + FreshKeys(fl, m, rest));
      }
    }
  }

  lemma FreshFirst(fl: Flags, m: Options, keys: seq<string>)
    requires keys != []
    ensures FreshKeys(fl, m, keys)
            == if keys[0] in fl.install || keys[0] in m.values then FreshKeys(fl, m, keys[1..])
               else [keys[0]] + FreshKeys(fl, m, keys[1..])
  {
  }

  /** Surviving settings keep their order, and new ones follow in the order they were given. */
  lemma MergeKeepsOrder(fl: Flags, previous: Options, overrides: Options)
    requires Proper(previous) && Proper(overrides)
    ensures var kept := Inherited(fl, previous, overrides);
            Merge(fl, previous, overrides).keys
            == Filter(previous.keys, DroppedKeys(fl, overrides, previous.keys))
               + FreshKeys(fl, kept, overrides.keys)
  {
    InheritedExactly(fl, previous, overrides);
    PutAllAppends(fl, Inherited(fl, previous, overrides), overrides, overrides.keys);
  }

  lemma {:induction false} PutAllProper(fl: Flags, m: Options, overrides: Options, keys: seq<string>)
    requires Proper(m)
    ensures Proper(PutAll(fl, m, overrides, keys))
    decreases |keys|
  {
    if keys != [] {
      var k := keys[0];
      PutAllProper(fl, if k in fl.install then m else Put(m, k, Get(overrides, k)), overrides, keys[1..]);
    }
  }

  lemma MergeProper(fl: Flags, previous: Options, overrides: Options)
    requires Proper(previous)
    ensures Proper(Merge(fl, previous, overrides))
  {
    InheritedExactly(fl, previous, overrides);
    FilterElements(previous.keys, DroppedKeys(fl, overrides, previous.keys));
    PutAllProper(fl, Inherited(fl, previous, overrides), overrides, overrides.keys);
  }

  // ---- installing again ----

  /** The classes of flags do not overlap. */
  ghost predicate Separate(fl: Flags) {
    && fl.unset in fl.install
    && (forall f :: f in fl.install ==> !Known(fl, f) && f !in fl.internal)
    && (forall f :: f in fl.internal ==> !Known(fl, f))
    && Known(fl, fl.webRoot)
  }

  /** The installed command can be read again: it parses to exactly the merged settings. */
  lemma MergeParses(fl: Flags, previous: Options, overrides: Options)
    requires Separate(fl) && Parsed(fl, Installed, previous) && Parsed(fl, Install, overrides)
    ensures var merged := Merge(fl, previous, overrides);
            Parsed(fl, Installed, merged) && Parse(fl, Installed, Flatten(merged)) == Ok(merged)
  {
    var merged := Merge(fl, previous, overrides);
    MergeProper(fl, previous, overrides);
    forall f | f in merged.values ensures EntryParsed(fl, Installed, f, merged.values[f]) {
      MergeKeepsEachFlag(fl, previous, overrides, f);
    }
    MergeKeepsEachFlag(fl, previous, overrides, fl.unset);
    FlattenParses(fl, Installed, merged);
  }

  lemma EmptyParsed(fl: Flags, mode: Mode)
    ensures Parse(fl, mode, []) == Ok(EMPTY) && Parsed(fl, mode, EMPTY)
  {
  }

  lemma ResolveParts(fl: Flags, args: seq<string>, installed: Option<seq<string>>)
    returns (previous: Options, overrides: Options)
    requires Resolve(fl, args, installed).Ok?
    ensures Parsed(fl, Installed, previous) && Parsed(fl, Install, overrides)
    ensures Resolve(fl, args, installed) == Ok(Merge(fl, previous, overrides))
    ensures Parse(fl, Installed, if installed.Some? then installed.value else []) == Ok(previous)
    ensures Parse(fl, Install, if args == [] then [] else args[1..]) == Ok(overrides)
  {
    var before, given := if installed.Some? then installed.value else [], if args == [] then [] else args[1..];
    ParseGivesParsed(fl, Installed, before);
    ParseGivesParsed(fl, Install, given);
    previous, overrides := Parse(fl, Installed, before).value, Parse(fl, Install, given).value;
  }

  /** Installing the result again with the same options changes no setting. */
  lemma ReinstallIsIdempotent(fl: Flags, args: seq<string>, installed: Option<seq<string>>, flag: string)
    requires Separate(fl) && Resolve(fl, args, installed).Ok?
    ensures var once := Resolve(fl, args, installed).value;
            var twice := Resolve(fl, args, Some(Flatten(once)));
            twice.Ok? && Lookup(twice.value, flag) == Lookup(once, flag)
  {
    var previous, overrides := ResolveParts(fl, args, installed);
    var once := Merge(fl, previous, overrides);
    MergeParses(fl, previous, overrides);
    MergeKeepsEachFlag(fl, previous, overrides, flag);
    MergeKeepsEachFlag(fl, once, overrides, flag);
  }

  lemma PlainMergeExactly(fl: Flags, m: Options)
    requires Proper(m) && forall f :: f in fl.internal ==> f !in m.values
    ensures Merge(fl, m, EMPTY) == m <==> fl.webRoot !in m.values
  {
    InheritedExactly(fl, m, EMPTY);
    if fl.webRoot !in m.values {
      MinusAgrees(m, DroppedKeys(fl, EMPTY, m.keys), {});
      FilterNothing(m.keys);
      assert m.values - {} == m.values;
    } else {
      MergeKeepsEachFlag(fl, m, EMPTY, fl.webRoot);
    }
  }

  /** Installing the result again without options gives the same command exactly when the assets were not overridden. */
  lemma PlainReinstallExactly(fl: Flags, args: seq<string>, installed: Option<seq<string>>)
    requires Separate(fl) && Resolve(fl, args, installed).Ok?
    ensures var once := Resolve(fl, args, installed).value;
            Resolve(fl, [], Some(Flatten(once))) == Ok(once) <==> fl.webRoot !in once.values
  {
    var previous, overrides := ResolveParts(fl, args, installed);
    var once := Merge(fl, previous, overrides);
    MergeParses(fl, previous, overrides);
    EmptyParsed(fl, Install);
    forall f | f in fl.internal ensures f !in once.values {
      MergeKeepsEachFlag(fl, previous, overrides, f);
    }
    PlainMergeExactly(fl, once);
  }
}
