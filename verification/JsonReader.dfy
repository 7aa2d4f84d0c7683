/** A reader of canonical JSON that inverts the printer, and what follows: equal texts are equal
    values, and equal values are equal texts. */
module JsonReader {
  import opened Prelude
  import opened JsonText
  import opened CanonicalJson

  function Literal(text: Text, word: Text, value: Plain): (read: Option<(Plain, Text)>)
    requires word != []
    ensures read.Some? ==> |read.value.1| < |text|
  {
    if |word| <= |text| && text[..|word|] == word then Some((value, text[|word|..])) else None
  }

  function ReadValue(text: Text): (read: Option<(Plain, Text)>)
    ensures read.Some? ==> |read.value.1| < |text|
    decreases |text|, 0
  {
    if text == [] then None
    else if text[0] == NullText[0] then Literal(text, NullText, PlainNull)
    else if text[0] == TrueText[0] then Literal(text, TrueText, PlainBool(true))
    else if text[0] == FalseText[0] then Literal(text, FalseText, PlainBool(false))
    else if text[0] == Quote then
      var read := ReadString(text[1..]);
      if read.None? then None else Some((PlainString(read.value.0), read.value.1))
    else if text[0] == OpenBracket then
      if |text| > 1 && text[1] == CloseBracket then Some((PlainArray([]), text[2..]))
      else
        var read := ReadItems(text[1..]);
        if read.None? then None else Some((PlainArray(read.value.0), read.value.1))
    else if text[0] == OpenBrace then
      if |text| > 1 && text[1] == CloseBrace then Some((PlainObject(map[]), text[2..]))
      else
        var read := ReadFields(text[1..]);
        if read.None? then None else Some((PlainObject(read.value.0), read.value.1))
    else
      var read := ReadInt(text);
      if read.None? then None else Some((PlainNumber(read.value.0), read.value.1))
  }

  /** One or more values, separated by commas, and the closing bracket. */
  function ReadItems(text: Text): (read: Option<(seq<Plain>, Text)>)
    ensures read.Some? ==> |read.value.1| < |text|
    decreases |text|, 1
  {
    var read := ReadValue(text);
    if read.None? || read.value.1 == [] then None
    else AfterItem(read.value.0, read.value.1)
  }

  function AfterItem(item: Plain, rest: Text): (read: Option<(seq<Plain>, Text)>)
    requires rest != []
    ensures read.Some? ==> |read.value.1| < |rest|
    decreases |rest|, 0
  {
    if rest[0] == CloseBracket then Some(([item], rest[1..]))
    else if rest[0] == Comma then
      var more := ReadItems(rest[1..]);
      if more.None? then None else Some(([item] + more.value.0, more.value.1))
    else None
  }

  /** One or more fields, separated by commas, and the closing brace. */
  function ReadFields(text: Text): (read: Option<(map<Text, Plain>, Text)>)
    ensures read.Some? ==> |read.value.1| < |text|
    decreases |text|, 1
  {
    if text == [] || text[0] != Quote then None
    else
      var key := ReadString(text[1..]);
      if key.None? || key.value.1 == [] || key.value.1[0] != Colon then None
      else
        var read := ReadValue(key.value.1[1..]);
        if read.None? || read.value.1 == [] then None
        else AfterField(key.value.0, read.value.0, read.value.1)
  }

  function AfterField(key: Text, value: Plain, rest: Text): (read: Option<(map<Text, Plain>, Text)>)
    requires rest != []
    ensures read.Some? ==> |read.value.1| < |rest|
    decreases |rest|, 0
  {
    if rest[0] == CloseBrace then Some((map[key := value], rest[1..]))
    else if rest[0] == Comma then
      var more := ReadFields(rest[1..]);
      if more.None? then None else Some((map[key := value] + more.value.0, more.value.1))
    else None
  }

  // ---- The reader inverts the printer ----

  lemma PrintsSomething(v: Json)
    ensures Canonical(v) != [] && Canonical(v)[0] != CloseBracket
  {
    match v
    case Number(n) => assert n < 0 ==> PrintInt(n)[0] == Minus;
    case _ =>
  }

  lemma LiteralIsRead(word: Text, value: Plain, rest: Text)
    requires word != []
    ensures Literal(word + rest, word, value) == Some((value, rest))
  {
    assert (word + rest)[..|word|] == word && (word + rest)[|word|..] == rest;
  }

  lemma Regroup(a: Text, b: Text, c: Text)
    ensures (a + b) + c == a + (b + c)
  {
  }

  lemma AfterQuote(text: Text, more: Text)
    ensures var whole := PrintString(text) + more;
            whole[0] == Quote && whole[1..] == Escape(text) + ([Quote] + more)
  {
    Regroup([Quote] + Escape(text), [Quote], more);
    Regroup([Quote], Escape(text), [Quote] + more);
  }

  lemma StringValueIsRead(text: Text, rest: Text)
    ensures ReadValue(PrintString(text) + rest) == Some((PlainString(text), rest))
  {
    AfterQuote(text, rest);
    StringRoundTrip(text, rest);
  }

  lemma NumberIsRead(n: Integer, rest: Text)
    requires EndsNumber(rest)
    ensures ReadValue(PrintInt(n) + rest) == Some((PlainNumber(n), rest))
  {
    IntRoundTrip(n, rest);
    assert n < 0 ==> PrintInt(n)[0] == Minus;
    assert n >= 0 ==> IsDigit(PrintInt(n)[0]);
    assert (PrintInt(n) + rest)[0] == PrintInt(n)[0];
  }

  function Meanings(items: seq<Json>): seq<Plain> {
    seq(|items|, i requires 0 <= i < |items| => Meaning(items[i]))
  }

  function FieldMeanings(v: Json, keys: seq<Text>): map<Text, Plain>
    requires v.Object?
  {
    map key | key in keys && key in v.fields :: Meaning(v.fields[key])
  }

  /** Whatever the value, its canonical text is read back as its meaning, and reading stops right
      after it. */
  lemma {:induction false} CanonicalRoundTrip(v: Json, rest: Text)
    requires IsValue(v) && EndsNumber(rest)
    ensures ReadValue(Canonical(v) + rest) == Some((Meaning(v), rest))
    decreases v, 1, 0
  {
    match v
    case Undefined => LiteralIsRead(NullText, PlainNull, rest);
    case Null => LiteralIsRead(NullText, PlainNull, rest);
    case Bool(b) => LiteralIsRead(if b then TrueText else FalseText, PlainBool(b), rest);
    case Number(n) => NumberIsRead(n, rest);
    case String(text) => StringValueIsRead(text, rest);
    case Array(items) =>
      if items == [] {
        EmptyArrayIsRead(rest);
        assert Meaning(v) == PlainArray([]);
      } else {
        ItemsRoundTrip(v, 0, rest);
        ArrayIsRead(v, rest);
      }
    case Object(keys, fields) =>
      PrintedKeysAreSorted(v);
      if PrintedKeys(v) == [] {
        EmptyObjectIsRead(v, rest);
      } else {
        FieldsRoundTrip(v, PrintedKeys(v), 0, rest);
        ObjectIsRead(v, rest);
      }
  }

  lemma EmptyArrayIsRead(rest: Text)
    ensures ReadValue([OpenBracket] + [] + [CloseBracket] + rest) == Some((PlainArray([]), rest))
  {
    var text := [OpenBracket] + [] + [CloseBracket] + rest;
    assert text[2..] == rest;
  }

  lemma ArrayIsRead(v: Json, rest: Text)
    requires v.Array? && v.items != []
    requires ReadItems(PrintItems(v, 0) + ([CloseBracket] + rest)) == Some((Meanings(v.items[0..]), rest))
    ensures ReadValue(Canonical(v) + rest) == Some((Meaning(v), rest))
  {
    var text := Canonical(v) + rest;
    var inner := PrintItems(v, 0) + ([CloseBracket] + rest);
    assert text == [OpenBracket] + inner && text[1..] == inner;
    PrintsSomething(v.items[0]);
    assert inner[0] == Canonical(v.items[0])[0];
    assert v.items[0..] == v.items;
  }

  lemma EmptyObjectIsRead(v: Json, rest: Text)
    requires v.Object? && PrintedKeys(v) == []
    requires forall k :: k in PrintedKeys(v) <==> k in Meaning(v).fields
    ensures ReadValue(Canonical(v) + rest) == Some((Meaning(v), rest))
  {
    var text := Canonical(v) + rest;
    assert text == [OpenBrace, CloseBrace] + rest;
    assert text[2..] == rest;
    assert Meaning(v).fields == map[];
  }

  lemma BracedIsRead(inner: Text, fields: map<Text, Plain>, rest: Text)
    requires inner != [] && inner[0] == Quote && ReadFields(inner) == Some((fields, rest))
    ensures ReadValue([OpenBrace] + inner) == Some((PlainObject(fields), rest))
  {
    assert ([OpenBrace] + inner)[1..] == inner;
  }

  lemma PrintedFieldsAreTheMeaning(v: Json)
    requires v.Object?
    requires forall k :: k in PrintedKeys(v) <==> k in Meaning(v).fields
    ensures FieldMeanings(v, PrintedKeys(v)) == Meaning(v).fields
  {
  }

  lemma ObjectText(v: Json, rest: Text)
    requires v.Object? && PrintedKeys(v) != []
    ensures var inner := PrintFields(v, PrintedKeys(v), 0) + ([CloseBrace] + rest);
            Canonical(v) + rest == [OpenBrace] + inner && inner[0] == Quote
  {
    var fields := PrintFields(v, PrintedKeys(v), 0);
    Regroup([OpenBrace] + fields, [CloseBrace], rest);
    Regroup([OpenBrace], fields, [CloseBrace] + rest);
    var first := PrintField(v, PrintedKeys(v)[0]);
    assert first != [] && first[0] == Quote;
    assert fields[..|first|] == first;
  }

  lemma ObjectIsRead(v: Json, rest: Text)
    requires v.Object? && PrintedKeys(v) != []
    requires forall k :: k in PrintedKeys(v) <==> k in Meaning(v).fields
    requires ReadFields(PrintFields(v, PrintedKeys(v), 0) + ([CloseBrace] + rest))
          == Some((FieldMeanings(v, PrintedKeys(v)[0..]), rest))
    ensures ReadValue(Canonical(v) + rest) == Some((Meaning(v), rest))
  {
    ObjectText(v, rest);
    assert PrintedKeys(v)[0..] == PrintedKeys(v);
    PrintedFieldsAreTheMeaning(v);
    BracedIsRead(PrintFields(v, PrintedKeys(v), 0) + ([CloseBrace] + rest), Meaning(v).fields, rest);
  }

  /** What follows item `i`. */
  function ItemsTail(v: Json, i: nat, rest: Text): (tail: Text)
    requires v.Array? && i < |v.items|
    ensures tail != [] && EndsNumber(tail)
  {
    if i + 1 < |v.items| then [Comma] + (PrintItems(v, i + 1) + ([CloseBracket] + rest)) else [CloseBracket] + rest
  }

  lemma ItemThenTail(v: Json, i: nat, rest: Text)
    requires v.Array? && i < |v.items|
    ensures PrintItems(v, i) + ([CloseBracket] + rest) == Canonical(v.items[i]) + ItemsTail(v, i, rest)
  {
    if i + 1 < |v.items| {
      Regroup(Canonical(v.items[i]), [Comma] + PrintItems(v, i + 1), [CloseBracket] + rest);
      Regroup([Comma], PrintItems(v, i + 1), [CloseBracket] + rest);
    }
  }

  lemma MeaningsOf(v: Json, i: nat)
    requires v.Array? && i < |v.items|
    ensures Meanings(v.items[i..]) == [Meaning(v.items[i])] + Meanings(v.items[i + 1..])
  {
  }

  lemma {:induction false} ItemsRoundTrip(v: Json, i: nat, rest: Text)
    requires v.Array? && i < |v.items| && IsValue(v)
    ensures ReadItems(PrintItems(v, i) + ([CloseBracket] + rest)) == Some((Meanings(v.items[i..]), rest))
    decreases v, 0, |v.items| - i
  {
    var after := ItemsTail(v, i, rest);
    CanonicalRoundTrip(v.items[i], after);
    ItemThenTail(v, i, rest);
    MeaningsOf(v, i);
    if i + 1 < |v.items| {
      ItemsRoundTrip(v, i + 1, rest);
      assert after[1..] == PrintItems(v, i + 1) + ([CloseBracket] + rest);
    } else {
      assert after[1..] == rest;
      assert Meanings(v.items[i..]) == [Meaning(v.items[i])];
    }
  }

  /** What follows the value of field `i`. */
  function FieldsTail(v: Json, keys: seq<Text>, i: nat, rest: Text): (tail: Text)
    requires v.Object? && i < |keys|
    ensures tail != [] && EndsNumber(tail)
  {
    if i + 1 < |keys| then [Comma] + (PrintFields(v, keys, i + 1) + ([CloseBrace] + rest)) else [CloseBrace] + rest
  }

  lemma FieldThenTail(v: Json, keys: seq<Text>, i: nat, rest: Text)
    requires v.Object? && i < |keys| && keys[i] in v.fields
    ensures PrintFields(v, keys, i) + ([CloseBrace] + rest)
         == PrintString(keys[i]) + ([Colon] + (Canonical(v.fields[keys[i]]) + FieldsTail(v, keys, i, rest)))
  {
    var value, tail := Canonical(v.fields[keys[i]]), FieldsTail(v, keys, i, rest);
    if i + 1 < |keys| {
      Regroup(PrintField(v, keys[i]), [Comma] + PrintFields(v, keys, i + 1), [CloseBrace] + rest);
      Regroup([Comma], PrintFields(v, keys, i + 1), [CloseBrace] + rest);
    }
    Regroup(PrintString(keys[i]) + [Colon], value, tail);
    Regroup(PrintString(keys[i]), [Colon], value + tail);
  }

  lemma FieldIsRead(key: Text, value: Text, meaning: Plain, after: Text)
    requires after != [] && ReadValue(value + after) == Some((meaning, after))
    ensures ReadFields(PrintString(key) + ([Colon] + (value + after))) == AfterField(key, meaning, after)
  {
    var afterKey := [Colon] + (value + after);
    AfterQuote(key, afterKey);
    StringRoundTrip(key, afterKey);
    assert afterKey[1..] == value + after;
  }

  lemma FieldsOf(v: Json, keys: seq<Text>, i: nat)
    requires v.Object? && i < |keys| && keys[i] in v.fields
    ensures FieldMeanings(v, keys[i..])
         == map[keys[i] := Meaning(v.fields[keys[i]])] + FieldMeanings(v, keys[i + 1..])
  {
    assert keys[i..] == [keys[i]] + keys[i + 1..];
  }

  lemma {:induction false} FieldsRoundTrip(v: Json, keys: seq<Text>, i: nat, rest: Text)
    requires v.Object? && i < |keys| && IsValue(v)
    requires forall k | k in keys :: k in v.fields
    ensures ReadFields(PrintFields(v, keys, i) + ([CloseBrace] + rest))
         == Some((FieldMeanings(v, keys[i..]), rest))
    decreases v, 0, |keys| - i
  {
    assert keys[i] in keys;
    var value := v.fields[keys[i]];
    var after := FieldsTail(v, keys, i, rest);
    CanonicalRoundTrip(value, after);
    FieldThenTail(v, keys, i, rest);
    FieldIsRead(keys[i], Canonical(value), Meaning(value), after);
    FieldsOf(v, keys, i);
    if i + 1 < |keys| {
      FieldsRoundTrip(v, keys, i + 1, rest);
      assert after[1..] == PrintFields(v, keys, i + 1) + ([CloseBrace] + rest);
    } else {
      assert after[1..] == rest;
      assert FieldMeanings(v, keys[i..]) == map[keys[i] := Meaning(value)];
    }
  }

  // ---- Equal texts and equal values ----

  /** The canonical text of a value is decided by its meaning. */
  lemma {:induction false} SameMeaningSameText(a: Json, b: Json)
    requires IsValue(a) && IsValue(b) && Meaning(a) == Meaning(b)
    ensures Canonical(a) == Canonical(b)
    decreases a, 1, 0
  {
    match a
    case Array(items) =>
      assert |items| == |b.items| by {
        assert |Meaning(a).items| == |Meaning(b).items|;
      }
      SameItems(a, b, 0);
    case Object(keys, fields) =>
      PrintedKeysAreSorted(a);
      PrintedKeysAreSorted(b);
      SortedIsUnique(PrintedKeys(a), PrintedKeys(b));
      SameFields(a, b, PrintedKeys(a), 0);
    case _ =>
  }

  lemma {:induction false} SameItems(a: Json, b: Json, i: nat)
    requires a.Array? && b.Array? && IsValue(a) && IsValue(b) && Meaning(a) == Meaning(b)
    requires i <= |a.items| == |b.items|
    ensures PrintItems(a, i) == PrintItems(b, i)
    decreases a, 0, |a.items| - i
  {
    if i < |a.items| {
      assert Meaning(a).items[i] == Meaning(b).items[i];
      SameMeaningSameText(a.items[i], b.items[i]);
      SameItems(a, b, i + 1);
    }
  }

  lemma SameField(a: Json, b: Json, key: Text)
    requires a.Object? && b.Object? && key in a.fields && key in b.fields
    requires Canonical(a.fields[key]) == Canonical(b.fields[key])
    ensures PrintField(a, key) == PrintField(b, key)
  {
  }

  lemma {:induction false} SameFields(a: Json, b: Json, keys: seq<Text>, i: nat)
    requires a.Object? && b.Object? && IsValue(a) && IsValue(b) && Meaning(a) == Meaning(b)
    requires i <= |keys| && forall k | k in keys :: k in Meaning(a).fields
    ensures PrintFields(a, keys, i) == PrintFields(b, keys, i)
    decreases a, 0, |keys| - i
  {
    if i < |keys| {
      var key := keys[i];
      assert key in keys;
      assert Meaning(a).fields[key] == Meaning(b).fields[key];
      SameMeaningSameText(a.fields[key], b.fields[key]);
      SameField(a, b, key);
      SameFields(a, b, keys, i + 1);
    }
  }

  /** Two values have the same canonical text exactly if they are equal up to the order of their
      keys. */
  lemma CanonicalDecidesEquality(a: Json, b: Json)
    requires IsValue(a) && IsValue(b)
    ensures Canonical(a) == Canonical(b) <==> Meaning(a) == Meaning(b)
  {
    if Meaning(a) == Meaning(b) {
      SameMeaningSameText(a, b);
    }
    CanonicalRoundTrip(a, []);
    CanonicalRoundTrip(b, []);
    assert Canonical(a) + [] == Canonical(a) && Canonical(b) + [] == Canonical(b);
  }
}
