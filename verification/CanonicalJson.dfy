/** Canonical JSON: objects are printed with their keys in order, so that two values print the
    same exactly if they are equal up to the order of keys. */
module CanonicalJson {
  import opened Prelude
  import opened JsonText

  const SafeInteger: int := 9007199254740991

  type Integer = n: int | -SafeInteger <= n <= SafeInteger

  /** A value as JavaScript has it; the keys of an object are in the order of their insertion. */
  datatype Json =
    | Undefined
    | Null
    | Bool(b: bool)
    | Number(n: Integer)
    | String(text: Text)
    | Array(items: seq<Json>)
    | Object(keys: seq<Text>, fields: map<Text, Json>)

  /** What a value means: an object is its fields in no order, an undefined field is none, and
      undefined is null everywhere else. */
  datatype Plain =
    | PlainNull
    | PlainBool(b: bool)
    | PlainNumber(n: int)
    | PlainString(text: Text)
    | PlainArray(items: seq<Plain>)
    | PlainObject(fields: map<Text, Plain>)

  predicate AllDifferent(keys: seq<Text>) {
    forall i, j | 0 <= i < |keys| && 0 <= j < |keys| && i != j :: keys[i] != keys[j]
  }

  /** Every object has each of its fields under one key. */
  ghost predicate IsValue(v: Json) {
    match v
    case Array(items) => forall i | 0 <= i < |items| :: IsValue(items[i])
    case Object(keys, fields) =>
      && AllDifferent(keys)
      && (forall key :: key in keys <==> key in fields)
      && (forall key | key in fields :: IsValue(fields[key]))
    case _ => true
  }

  function Meaning(v: Json): Plain {
    match v
    case Undefined => PlainNull
    case Null => PlainNull
    case Bool(b) => PlainBool(b)
    case Number(n) => PlainNumber(n)
    case String(text) => PlainString(text)
    case Array(items) => PlainArray(seq(|items|, i requires 0 <= i < |items| => Meaning(items[i])))
    case Object(_, fields) =>
      PlainObject(map key | key in fields && !fields[key].Undefined? :: Meaning(fields[key]))
  }

  // ---- Sorting ----

  /** The order of strings by code units. */
  predicate Less(a: Text, b: Text)
    decreases |a|
  {
    b != [] && (a == [] || a[0] < b[0] || (a[0] == b[0] && Less(a[1..], b[1..])))
  }

  function Insert(key: Text, keys: seq<Text>): seq<Text> {
    if keys == [] then [key]
    else if Less(keys[0], key) then [keys[0]] + Insert(key, keys[1..])
    else [key] + keys
  }

  function Sort(keys: seq<Text>): seq<Text> {
    if keys == [] then [] else Insert(keys[0], Sort(keys[1..]))
  }

  function Defined(keys: seq<Text>, fields: map<Text, Json>): seq<Text> {
    if keys == [] then []
    else
      (if keys[0] in fields && !fields[keys[0]].Undefined? then [keys[0]] else [])
      + Defined(keys[1..], fields)
  }

  // ---- Printing ----

  const NullText: Text := [110, 117, 108, 108]
  const TrueText: Text := [116, 114, 117, 101]
  const FalseText: Text := [102, 97, 108, 115, 101]
  const OpenBracket: Unit := 91
  const CloseBracket: Unit := 93
  const OpenBrace: Unit := 123
  const CloseBrace: Unit := 125

  function Canonical(v: Json): Text
    decreases v, 1, 0
  {
    match v
    case Undefined => NullText
    case Null => NullText
    case Bool(b) => if b then TrueText else FalseText
    case Number(n) => PrintInt(n)
    case String(text) => PrintString(text)
    case Array(items) => [OpenBracket] + PrintItems(v, 0) + [CloseBracket]
    case Object(keys, fields) => [OpenBrace] + PrintFields(v, Sort(Defined(keys, fields)), 0) + [CloseBrace]
  }

  /** The items from `i` on, separated by commas. */
  function PrintItems(v: Json, i: nat): Text
    requires v.Array? && i <= |v.items|
    decreases v, 0, |v.items| - i
  {
    if i == |v.items| then []
    else Canonical(v.items[i]) + if i + 1 < |v.items| then [Comma] + PrintItems(v, i + 1) else []
  }

  function PrintFields(v: Json, keys: seq<Text>, i: nat): Text
    requires v.Object? && i <= |keys|
    decreases v, 0, |keys| - i
  {
    if i == |keys| then []
    else
      PrintField(v, keys[i]) + if i + 1 < |keys| then [Comma] + PrintFields(v, keys, i + 1) else []
  }

  function PrintField(v: Json, key: Text): Text
    requires v.Object?
    decreases v, 0, 0
  {
    PrintString(key) + [Colon] + if key in v.fields then Canonical(v.fields[key]) else NullText
  }

  /** Two texts are ordered by the first unit in which they differ; a beginning comes before the whole. */
  lemma {:induction false} OrderedByTheFirstDifference(a: Text, b: Text, n: nat)
    requires n <= |a| && n <= |b| && a[..n] == b[..n]
    requires n == |a| || n == |b| || a[n] != b[n]
    ensures Less(a, b) <==> n < |b| && (n == |a| || a[n] < b[n])
    decreases n
  {
    if n > 0 {
      assert a[0] == a[..n][0] && b[0] == b[..n][0];
      assert a[1..][..n - 1] == a[..n][1..] && b[1..][..n - 1] == b[..n][1..];
      OrderedByTheFirstDifference(a[1..], b[1..], n - 1);
    }
  }

  // ---- The order is total ----

  lemma {:induction false} LessIsTotal(a: Text, b: Text)
    ensures Less(a, b) || Less(b, a) || a == b
    decreases |a|
  {
    if a != [] && b != [] && a[0] == b[0] {
      LessIsTotal(a[1..], b[1..]);
      assert a == [a[0]] + a[1..] && b == [b[0]] + b[1..];
    }
  }

  lemma {:induction false} LessIsTransitive(a: Text, b: Text, c: Text)
    requires Less(a, b) && Less(b, c)
    ensures Less(a, c)
    decreases |a|
  {
    if a != [] && a[0] == b[0] == c[0] {
      LessIsTransitive(a[1..], b[1..], c[1..]);
    }
  }

  lemma {:induction false} LessIsStrict(a: Text)
    ensures !Less(a, a)
    decreases |a|
  {
    if a != [] {
      LessIsStrict(a[1..]);
    }
  }

  predicate IsSorted(keys: seq<Text>) {
    forall i, j | 0 <= i < j < |keys| :: Less(keys[i], keys[j])
  }

  lemma {:induction false} InsertSorts(key: Text, keys: seq<Text>)
    requires IsSorted(keys) && key !in keys
    ensures IsSorted(Insert(key, keys))
    ensures forall k :: k in Insert(key, keys) <==> k == key || k in keys
  {
    if keys != [] {
      if Less(keys[0], key) {
        InsertSorts(key, keys[1..]);
        assert forall j | 1 <= j < |keys| :: keys[j] == keys[1..][j - 1];
        assert forall k | k in keys[1..] :: Less(keys[0], k);
        var rest := Insert(key, keys[1..]);
        forall i, j | 0 <= i < j < |rest| + 1 ensures Less(([keys[0]] + rest)[i], ([keys[0]] + rest)[j]) {
          if i == 0 {
            assert rest[j - 1] in rest;
          }
        }
      } else {
        LessIsTotal(keys[0], key);
        assert keys[0] in keys;
        forall j | 0 <= j < |keys| ensures Less(key, keys[j]) {
          if j > 0 {
            LessIsTransitive(key, keys[0], keys[j]);
          }
        }
      }
    }
  }

  lemma {:induction false} SortSorts(keys: seq<Text>)
    requires AllDifferent(keys)
    ensures IsSorted(Sort(keys))
    ensures forall k :: k in Sort(keys) <==> k in keys
  {
    if keys != [] {
      var rest := keys[1..];
      assert keys[0] !in rest;
      SortSorts(rest);
      InsertSorts(keys[0], Sort(rest));
    }
  }

  /** Two sorted lists of the same keys are the same list. */
  lemma {:induction false} SortedIsUnique(a: seq<Text>, b: seq<Text>)
    requires IsSorted(a) && IsSorted(b)
    requires forall k :: k in a <==> k in b
    ensures a == b
  {
    assert a != [] ==> a[0] in a;
    assert b != [] ==> b[0] in b;
    if a != [] && b != [] {
      SameFirst(a, b);
      LessIsStrict(a[0]);
      forall k ensures k in a[1..] <==> k in b[1..] {
        if k in a[1..] {
          assert k in a && k != a[0];
        }
        if k in b[1..] {
          assert k in b && k != b[0];
        }
      }
      SortedIsUnique(a[1..], b[1..]);
    }
  }

  lemma SameFirst(a: seq<Text>, b: seq<Text>)
    requires IsSorted(a) && IsSorted(b) && a != [] && b != []
    requires forall k :: k in a <==> k in b
    ensures a[0] == b[0]
  {
    assert a[0] in a && b[0] in b;
    var i :| 0 <= i < |b| && b[i] == a[0];
    var j :| 0 <= j < |a| && a[j] == b[0];
    LessIsStrict(a[0]);
    if i > 0 && j > 0 {
      LessIsTransitive(a[0], b[0], a[0]);
    }
  }

  lemma {:induction false} DefinedKeys(keys: seq<Text>, fields: map<Text, Json>)
    requires AllDifferent(keys)
    ensures AllDifferent(Defined(keys, fields))
    ensures forall k :: k in Defined(keys, fields) <==> k in keys && k in fields && !fields[k].Undefined?
  {
    if keys != [] {
      DefinedKeys(keys[1..], fields);
      assert keys[0] !in keys[1..];
    }
  }

  function PrintedKeys(v: Json): seq<Text>
    requires v.Object?
  {
    Sort(Defined(v.keys, v.fields))
  }

  /** The keys that are printed are those of the meaning, in order and each once. */
  lemma PrintedKeysAreSorted(v: Json)
    requires v.Object? && IsValue(v)
    ensures IsSorted(PrintedKeys(v))
    ensures forall k :: k in PrintedKeys(v) <==> k in Meaning(v).fields
  {
    DefinedKeys(v.keys, v.fields);
    SortSorts(Defined(v.keys, v.fields));
  }
}
