/** JavaScript values and the few built-in string operations the handlers and
    components rely on: `undefined` as `None`, JSON values, truthiness, property
    lookup on parsed JSON, `startsWith`, `split(',')` and decimal printing. */
module Js {

  datatype Option<+T> = None | Some(value: T)

  /** A value that came out of JSON.parse (a request body, a provider reply). */
  datatype Json =
    | JNull
    | JBool(b: bool)
    | JNum(n: real)
    | JStr(s: string)
    | JArr(items: seq<Json>)
    | JObj(fields: seq<(string, Json)>)

  /** JavaScript truthiness of a JSON value (NaN cannot come out of JSON). */
  predicate Truthy(j: Json) {
    match j
    case JNull => false
    case JBool(b) => b
    case JNum(n) => n != 0.0
    case JStr(s) => s != ""
    case JArr(_) => true
    case JObj(_) => true
  }

  /** Truthiness of a value that may be `undefined`. */
  predicate Present(o: Option<Json>) {
    o.Some? && Truthy(o.value)
  }

  /** Truthiness of a text that may be `undefined` (an environment variable,
      a header): unset and "" are both falsy. */
  predicate NonEmpty(text: Option<string>) {
    text.Some? && text.value != ""
  }

  /** `a || b` where `a` may be undefined. */
  function OrElse(a: Option<Json>, b: Json): (r: Json)
    ensures Present(a) ==> r == a.value
    ensures !Present(a) ==> r == b
  {
    if Present(a) then a.value else b
  }

  /** A destructuring default `{ key = b }`: only `undefined` is replaced, so
      an explicit `null` or `""` is kept. */
  function Default(a: Option<Json>, b: Json): (r: Json)
    ensures a.Some? ==> r == a.value
    ensures a.None? ==> r == b
  {
    if a.Some? then a.value else b
  }

  /** `err?.message || fallback`. */
  function MessageOr(message: Option<string>, fallback: string): (r: string)
    ensures message.Some? && message.value != "" ==> r == message.value
    ensures message.None? || message.value == "" ==> r == fallback
  {
    if message.Some? && message.value != "" then message.value else fallback
  }

  /** The value bound to `key` in an object literal; as JSON.parse keeps the
      last of repeated keys, the last binding wins. */
  function Lookup(fields: seq<(string, Json)>, key: string): (r: Option<Json>)
    ensures r.Some? ==> (key, r.value) in fields
    ensures r.None? ==> forall i :: 0 <= i < |fields| ==> fields[i].0 != key
    decreases |fields|
  {
    if fields == [] then None
    else if fields[|fields| - 1].0 == key then Some(fields[|fields| - 1].1)
    else Lookup(fields[..|fields| - 1], key)
  }

  /** `j.key` (or destructuring `{ key } = j`): only objects have fields. */
  function Field(j: Json, key: string): Option<Json> {
    if j.JObj? then Lookup(j.fields, key) else None
  }

  /** Adding a binding for one key leaves every other key's lookup alone. */
  lemma LookupOtherKey(fields: seq<(string, Json)>, k: string, v: Json, key: string)
    requires key != k
    ensures Lookup(fields + [(k, v)], key) == Lookup(fields, key)
  {
    assert (fields + [(k, v)])[..|fields|] == fields;
  }

  /** The option bound to `key` by the last binding for it, `None` if there
      is none. */
  function OptLookup(fields: seq<(string, Option<Json>)>, key: string): Option<Json>
    decreases |fields|
  {
    if fields == [] then None
    else if fields[|fields| - 1].0 == key then fields[|fields| - 1].1
    else OptLookup(fields[..|fields| - 1], key)
  }

  /** The members of an object literal that `JSON.stringify` writes out:
      members whose value is `undefined` are dropped. */
  function Compact(fields: seq<(string, Option<Json>)>): (r: seq<(string, Json)>)
    ensures |r| <= |fields|
    decreases |fields|
  {
    if fields == [] then []
    else
      var last := fields[|fields| - 1];
      Compact(fields[..|fields| - 1]) + (if last.1.Some? then [(last.0, last.1.value)] else [])
  }

  /** Reading a key back from a written-out object gives the value it was
      given, or `undefined` when it was given `undefined` or nothing, provided
      keys are not repeated. */
  lemma {:induction false} CompactLookup(fields: seq<(string, Option<Json>)>, key: string)
    requires forall i, j :: 0 <= i < j < |fields| ==> fields[i].0 != fields[j].0
    ensures Lookup(Compact(fields), key) == OptLookup(fields, key)
    decreases |fields|
  {
    if fields != [] {
      var init := fields[..|fields| - 1];
      var last := fields[|fields| - 1];
      CompactLookup(init, key);
      if last.1.Some? {
        var c := Compact(init) + [(last.0, last.1.value)];
        assert c[..|c| - 1] == Compact(init);
      } else {
        assert Compact(fields) == Compact(init);
        if last.0 == key {
          assert forall i :: 0 <= i < |init| ==> init[i].0 != key by {
            forall i | 0 <= i < |init| ensures init[i].0 != key {
              assert fields[i].0 != fields[|fields| - 1].0;
            }
          }
          NotBoundBefore(init, key);
        }
      }
    }
  }

  /** Exactly the defined members are written out, with their values. */
  lemma {:induction false} CompactMembers(fields: seq<(string, Option<Json>)>)
    ensures forall k, v :: (k, v) in Compact(fields) <==> exists i :: 0 <= i < |fields| && fields[i] == (k, Some(v))
    decreases |fields|
  {
    if fields != [] {
      var init := fields[..|fields| - 1];
      CompactMembers(init);
      forall k, v
        ensures (k, v) in Compact(fields) <==> exists i :: 0 <= i < |fields| && fields[i] == (k, Some(v))
      {
        if (k, v) in Compact(fields) && (k, v) !in Compact(init) {
          assert fields[|fields| - 1] == (k, Some(v));
        }
        if exists i :: 0 <= i < |fields| && fields[i] == (k, Some(v)) {
          var i :| 0 <= i < |fields| && fields[i] == (k, Some(v));
          if i < |fields| - 1 {
            assert init[i] == fields[i];
          }
        }
      }
    }
  }

  /** A key that is only ever given `undefined` is not written out. */
  lemma CompactAbsent(fields: seq<(string, Option<Json>)>, key: string)
    requires forall i :: 0 <= i < |fields| && fields[i].0 == key ==> fields[i].1.None?
    ensures Lookup(Compact(fields), key) == None
  {
    var r := Lookup(Compact(fields), key);
    if r.Some? {
      CompactMembers(fields);
      assert (key, r.value) in Compact(fields);
    }
  }

  /** A key bound last cannot be bound earlier when keys are distinct. */
  lemma NotBoundBefore(init: seq<(string, Option<Json>)>, key: string)
    requires forall i :: 0 <= i < |init| ==> init[i].0 != key
    ensures OptLookup(init, key) == None
    decreases |init|
  {
    if init != [] {
      NotBoundBefore(init[..|init| - 1], key);
    }
  }

  /** A binding that no later binding of the same key overrides is the one a
      lookup finds. */
  lemma {:induction false} LookupAt(fields: seq<(string, Json)>, i: nat)
    requires i < |fields|
    requires forall j :: i < j < |fields| ==> fields[j].0 != fields[i].0
    ensures Lookup(fields, fields[i].0) == Some(fields[i].1)
    decreases |fields|
  {
    if i < |fields| - 1 {
      var init := fields[..|fields| - 1];
      assert init[i] == fields[i];
      LookupAt(init, i);
    }
  }

  /** The same for an object written out by `JSON.stringify`: a defined
      member that is not overridden later is read back unchanged. */
  lemma {:induction false} CompactAt(fields: seq<(string, Option<Json>)>, i: nat)
    requires i < |fields| && fields[i].1.Some?
    requires forall j :: i < j < |fields| ==> fields[j].0 != fields[i].0
    ensures Lookup(Compact(fields), fields[i].0) == fields[i].1
    decreases |fields|
  {
    var init := fields[..|fields| - 1];
    var last := fields[|fields| - 1];
    var c := Compact(fields);
    if i == |fields| - 1 {
      assert c[|c| - 1] == (last.0, last.1.value);
    } else {
      assert init[i] == fields[i];
      CompactAt(init, i);
      if last.1.Some? {
        LookupOtherKey(Compact(init), last.0, last.1.value, fields[i].0);
      } else {
        assert c == Compact(init);
      }
    }
  }

  /** `s.startsWith(p)`. */
  predicate StartsWith(s: string, p: string) {
    |p| <= |s| && s[..|p|] == p
  }

  function DigitChar(d: nat): (c: char)
    requires d < 10
    ensures '0' <= c <= '9' && c as int - '0' as int == d
  {
    ('0' as int + d) as char
  }

  /** The decimal text of a natural number, as a template literal prints it. */
  function Decimal(n: nat): (s: string)
    ensures |s| >= 1
    ensures forall i :: 0 <= i < |s| ==> '0' <= s[i] <= '9'
  {
    if n < 10 then [DigitChar(n)] else Decimal(n / 10) + [DigitChar(n % 10)]
  }

  /** The value of a string of decimal digits. */
  function DecimalValue(s: string): nat
    requires forall i :: 0 <= i < |s| ==> '0' <= s[i] <= '9'
  {
    if s == [] then 0
    else 10 * DecimalValue(s[..|s| - 1]) + ((s[|s| - 1] as int) - ('0' as int))
  }

  /** Printing a number and reading it back gives the number. */
  lemma {:induction false} DecimalRoundTrip(n: nat)
    ensures DecimalValue(Decimal(n)) == n
  {
    var s := Decimal(n);
    if n >= 10 {
      var p := Decimal(n / 10);
      assert s == p + [DigitChar(n % 10)];
      assert s[..|s| - 1] == p;
      DecimalRoundTrip(n / 10);
      assert DecimalValue(s) == 10 * DecimalValue(p) + n % 10;
    } else {
      assert s == [DigitChar(n)];
      assert s[..0] == [];
    }
  }

  /** The decimal text of an integer, with a leading '-' when negative. */
  function IntText(i: int): (s: string)
    ensures i >= 0 ==> s == Decimal(i)
    ensures i < 0 ==> |s| >= 2 && s[0] == '-' && s[1..] == Decimal(-i)
  {
    if i < 0 then "-" + Decimal(-i) else Decimal(i)
  }

  /** `s.split(sep)` for a one-character separator: the pieces between
      separators, in order. */
  function Split(s: string, sep: char): (parts: seq<string>)
    ensures |parts| >= 1
    decreases |s|
  {
    if s == [] then [""]
    else
      var rest := Split(s[1..], sep);
      if s[0] == sep then [""] + rest
      else [[s[0]] + rest[0]] + rest[1..]
  }

  /** `parts.join(sep)`. */
  function Join(parts: seq<string>, sep: char): string
    requires |parts| >= 1
    decreases |parts|
  {
    if |parts| == 1 then parts[0] else parts[0] + [sep] + Join(parts[1..], sep)
  }

  /** Splitting and re-joining gives back the text, and no piece holds the
      separator. */
  lemma {:induction false} SplitJoin(s: string, sep: char)
    ensures Join(Split(s, sep), sep) == s
    ensures forall k :: 0 <= k < |Split(s, sep)| ==> sep !in Split(s, sep)[k]
    decreases |s|
  {
    if s != [] {
      var rest := Split(s[1..], sep);
      SplitJoin(s[1..], sep);
      if s[0] == sep {
        assert Split(s, sep) == [""] + rest;
        assert Split(s, sep)[1..] == rest;
        assert s == [sep] + s[1..];
      } else {
        var parts := Split(s, sep);
        assert parts == [[s[0]] + rest[0]] + rest[1..];
        if |rest| == 1 {
          assert s == [s[0]] + s[1..];
        } else {
          assert parts[1..] == rest[1..];
          assert Join(rest, sep) == rest[0] + [sep] + Join(rest[1..], sep);
          assert s == [s[0]] + s[1..];
        }
        forall k | 0 <= k < |parts| ensures sep !in parts[k] {
          if k == 0 {
            assert sep !in rest[0];
          } else {
            assert parts[k] == rest[k];
          }
        }
      }
    }
  }

  /** Text without the separator splits into itself alone. */
  lemma {:induction false} SplitNoSeparator(s: string, sep: char)
    requires sep !in s
    ensures Split(s, sep) == [s]
    decreases |s|
  {
    if s != [] {
      assert sep !in s[1..];
      SplitNoSeparator(s[1..], sep);
      assert [s[0]] + s[1..] == s;
    }
  }

  /** Splitting `a + sep + b` where `a` has no separator: the first piece is
      `a` and the rest is the split of `b`. */
  lemma {:induction false} SplitAfterFirst(a: string, sep: char, b: string)
    requires sep !in a
    ensures Split(a + [sep] + b, sep) == [a] + Split(b, sep)
    decreases |a|
  {
    if a == [] {
      assert a + [sep] + b == [sep] + b;
      assert ([sep] + b)[1..] == b;
    } else {
      assert (a + [sep] + b)[1..] == a[1..] + [sep] + b;
      assert sep !in a[1..];
      SplitAfterFirst(a[1..], sep, b);
      assert [a[0]] + a[1..] == a;
    }
  }
}
