/**
 * Canonical bytes (crypto/canonicalization.py): sorted keys, no spaces, ASCII escapes, no floats; and
 * a reader of JSON texts that gets the very value back.
 */
module Canonical {
  import opened Common

  // A JSON-compatible value. A dict compares without regard to order, so an object is a map; strings
  // hold Unicode scalar values.
  datatype Json =
    | JNull | JBool(value: bool) | JInt(number: int) | JFloat(float: real) | JString(text: string)
    | JArray(items: seq<Json>) | JObject(fields: map<string, Json>)

  // _reject_non_serializable: a float anywhere.
  predicate HasFloat(v: Json) {
    match v
    case JFloat(_) => true
    case JArray(items) => exists i | 0 <= i < |items| :: HasFloat(items[i])
    case JObject(fields) => exists k | k in fields :: HasFloat(fields[k])
    case _ => false
  }

  /* ----- key order ----- */

  // Code point order, the order of Python strings.
  predicate Less(a: string, b: string) {
    b != [] && (a == [] || a[0] < b[0] || (a[0] == b[0] && Less(a[1..], b[1..])))
  }

  lemma {:induction false} LessIsTransitive(a: string, b: string, c: string)
    requires Less(a, b) && Less(b, c)
    ensures Less(a, c)
    decreases |a|
  {
    if a != [] && a[0] == b[0] && b[0] == c[0] { LessIsTransitive(a[1..], b[1..], c[1..]); }
  }

  lemma {:induction false} LessIsTotal(a: string, b: string)
    ensures a == b || Less(a, b) || Less(b, a)
    ensures !(Less(a, b) && Less(b, a)) && !Less(a, a)
    decreases |a|
  {
    if a != [] {
      if b != [] && a[0] == b[0] {
        LessIsTotal(a[1..], b[1..]);
        assert a == [a[0]] + a[1..] && b == [b[0]] + b[1..];
      }
      LessIsTotal(a[1..], a[1..]);
    }
  }

  // It is decided by the first place where the two differ, or by the one that ends first.
  ghost predicate DiffersBelow(a: string, b: string, i: nat) {
    i <= |a| && i < |b| && a[..i] == b[..i] && (i == |a| || a[i] < b[i])
  }

  lemma {:induction false} LessIsFirstDifference(a: string, b: string)
    ensures Less(a, b) <==> exists i: nat :: DiffersBelow(a, b, i)
    decreases |a|
  {
    if Less(a, b) {
      if a == [] || a[0] < b[0] {
        assert DiffersBelow(a, b, 0);
      } else {
        LessIsFirstDifference(a[1..], b[1..]);
        var i: nat :| DiffersBelow(a[1..], b[1..], i);
        assert a[..i + 1] == [a[0]] + a[1..][..i] && b[..i + 1] == [b[0]] + b[1..][..i];
        assert DiffersBelow(a, b, i + 1);
      }
    }
    if i: nat :| DiffersBelow(a, b, i) {
      if i > 0 {
        assert a[0] == a[..i][0] && b[0] == b[..i][0];
        assert a[1..][..i - 1] == a[..i][1..] && b[1..][..i - 1] == b[..i][1..];
        assert DiffersBelow(a[1..], b[1..], i - 1);
        LessIsFirstDifference(a[1..], b[1..]);
      }
    }
  }

  ghost predicate IsLeast(k: string, keys: set<string>) { k in keys && forall x | x in keys && x != k :: Less(k, x) }

  lemma {:induction false} LeastExists(keys: set<string>)
    requires keys != {}
    ensures exists k :: IsLeast(k, keys)
    decreases |keys|
  {
    var x :| x in keys;
    var others := keys - {x};
    if others == {} {
      assert keys == others + {x};
      assert IsLeast(x, keys);
    } else {
      LeastExists(others);
      var y :| IsLeast(y, others);
      LessIsTotal(x, y);
      if Less(x, y) {
        forall z | z in keys && z != x ensures Less(x, z) {
          if z != y { LessIsTransitive(x, y, z); }
        }
        assert IsLeast(x, keys);
      } else {
        assert IsLeast(y, keys);
      }
    }
  }

  ghost function Least(keys: set<string>): (k: string)
    requires keys != {}
    ensures IsLeast(k, keys)
  {
    LeastExists(keys);
    var k :| IsLeast(k, keys);
    k
  }

  // The keys in ascending order: the only order a sort can give.
  ghost function SortedKeys(keys: set<string>): seq<string>
    decreases |keys|
  {
    if keys == {} then [] else [Least(keys)] + SortedKeys(keys - {Least(keys)})
  }

  lemma {:induction false} SortedKeysAreTheKeys(keys: set<string>)
    ensures forall k :: k in SortedKeys(keys) <==> k in keys
    decreases |keys|
  {
    if keys != {} { SortedKeysAreTheKeys(keys - {Least(keys)}); }
  }

  predicate Ascending(ks: seq<string>) { forall i, j | 0 <= i < j < |ks| :: Less(ks[i], ks[j]) }

  // However a dict was filled, its keys sort to this one sequence.
  lemma {:induction false} SortingIsUnique(ks: seq<string>, keys: set<string>)
    requires Ascending(ks) && forall k :: k in ks <==> k in keys
    ensures ks == SortedKeys(keys)
    decreases |ks|
  {
    if ks == [] {
      assert keys == {};
    } else {
      assert ks[0] in ks;
      var least := Least(keys);
      FirstIsLeast(ks, keys, least);
      forall k ensures k in ks[1..] <==> k in keys - {least} { TailMembers(ks, k); }
      SortingIsUnique(ks[1..], keys - {least});
    }
  }

  lemma FirstIsLeast(ks: seq<string>, keys: set<string>, least: string)
    requires Ascending(ks) && ks != [] && (forall k :: k in ks <==> k in keys) && IsLeast(least, keys)
    ensures least == ks[0]
  {
    var i :| 0 <= i < |ks| && ks[i] == least;
    if i > 0 {
      assert Less(ks[0], ks[i]) && ks[0] in ks;
      LessIsTotal(least, ks[0]);
    }
  }

  lemma TailMembers(ks: seq<string>, k: string)
    requires Ascending(ks) && ks != []
    ensures k in ks[1..] <==> k in ks && k != ks[0]
  {
    LessIsTotal(ks[0], ks[0]);
    if k in ks[1..] {
      var i :| 0 <= i < |ks[1..]| && ks[1..][i] == k;
      assert Less(ks[0], ks[i + 1]);
    }
  }

  lemma {:induction false} SortedKeysAscend(keys: set<string>)
    ensures Ascending(SortedKeys(keys))
    decreases |keys|
  {
    if keys != {} {
      var ks := SortedKeys(keys);
      var rest := SortedKeys(keys - {Least(keys)});
      SortedKeysAreTheKeys(keys - {Least(keys)});
      SortedKeysAscend(keys - {Least(keys)});
      forall i, j | 0 <= i < j < |ks| ensures Less(ks[i], ks[j]) {
        assert ks[j] == rest[j - 1] && rest[j - 1] in rest;
        if i > 0 { assert Less(rest[i - 1], rest[j - 1]); }
      }
    }
  }

  /* ----- writing ----- */

  function HexDigit(d: nat): (c: char)
    requires d < 16
    ensures ' ' <= c <= '~' && (d < 10 ==> IsDigit(c))
  {
    if d < 10 then ('0' as int + d) as char else ('a' as int + d - 10) as char
  }

  function Hex4(n: nat): (s: string)
    requires n < 0x10000
    ensures |s| == 4 && forall x | x in s :: ' ' <= x <= '~'
  {
    [HexDigit(n / 4096), HexDigit(n / 256 % 16), HexDigit(n / 16 % 16), HexDigit(n % 16)]
  }

  // One character of a string literal; outside the plain ASCII range as \u escapes, above the basic
  // plane as a surrogate pair.
  function Escape(c: char): (s: string)
    ensures s != [] && s[0] != '"' && forall x | x in s :: ' ' <= x <= '~'
  {
    if c == '"' then "\\\""
    else if c == '\\' then "\\\\"
    else if c == '\n' then "\\n"
    else if c == '\r' then "\\r"
    else if c == '\t' then "\\t"
    else if c as int == 8 then "\\b"
    else if c as int == 12 then "\\f"
    else if ' ' <= c <= '~' then [c]
    else if c as int < 0x10000 then "\\u" + Hex4(c as int)
    else
      var n := c as int - 0x10000;
      "\\u" + Hex4(0xD800 + n / 1024) + "\\u" + Hex4(0xDC00 + n % 1024)
  }

  // Each character is written in the shortest way there is: itself if it is printable ASCII and neither a
  // quote nor a backslash, two characters if JSON has a short escape for it, one \u escape below the
  // supplementary planes, two above.
  lemma EscapesAreShortest(c: char)
    ensures |Escape(c)| ==
      if c == '"' || c == '\\' || c as int in {8, 9, 10, 12, 13} then 2
      else if ' ' <= c <= '~' then 1
      else if c as int < 0x10000 then 6
      else 12
    ensures |Escape(c)| == 1 ==> Escape(c) == [c]
  {
    hide Hex4;
  }

  predicate LowerHex(s: string) { forall x | x in s :: '0' <= x <= '9' || 'a' <= x <= 'f' }

  lemma Hex4IsLower(n: nat)
    requires n < 0x10000
    ensures LowerHex(Hex4(n))
  {
  }

  lemma EscapeDigitsAreLower(c: char)
    ensures |Escape(c)| >= 6 ==> LowerHex(Escape(c)[2..6])
    ensures |Escape(c)| == 12 ==> LowerHex(Escape(c)[8..12])
  {
    hide Hex4, LowerHex;
    if c as int < 0x10000 {
      Hex4IsLower(c as int);
      assert ("\\u" + Hex4(c as int))[2..6] == Hex4(c as int);
    } else {
      var n := c as int - 0x10000;
      var high, low := Hex4(0xD800 + n / 1024), Hex4(0xDC00 + n % 1024);
      Hex4IsLower(0xD800 + n / 1024);
      Hex4IsLower(0xDC00 + n % 1024);
      assert ("\\u" + high + "\\u" + low)[2..6] == high && ("\\u" + high + "\\u" + low)[8..12] == low;
    }
  }

  function EscapeAll(s: string): string {
    if s == [] then [] else Escape(s[0]) + EscapeAll(s[1..])
  }

  function Quoted(s: string): string { "\"" + EscapeAll(s) + "\"" }

  function PrintNat(n: nat): string {
    if n < 10 then [HexDigit(n)] else PrintNat(n / 10) + [HexDigit(n % 10)]
  }

  // Numbers are written without leading zeros.
  lemma {:induction false} NoLeadingZero(n: nat)
    ensures PrintNat(n) != [] && (PrintNat(n)[0] == '0' <==> n == 0)
    decreases n
  {
    if n >= 10 { NoLeadingZero(n / 10); }
  }

  function PrintInt(n: int): string { if n < 0 then "-" + PrintNat(-n) else PrintNat(n) }

  ghost function Print(v: Json): string
    decreases v, 1, 0
  {
    match v
    case JNull => "null"
    case JBool(b) => if b then "true" else "false"
    case JInt(n) => PrintInt(n)
    case JFloat(_) => ""
    case JString(s) => Quoted(s)
    case JArray(items) => if items == [] then "[]" else "[" + PrintItems(v, 0) + "]"
    case JObject(fields) =>
      if fields == map[] then "{}"
      else
        SortedKeysAreTheKeys(fields.Keys);
        "{" + PrintFields(v, SortedKeys(fields.Keys), 0) + "}"
  }

  ghost function PrintItems(v: Json, i: nat): string
    requires v.JArray? && i < |v.items|
    decreases v, 0, |v.items| - i
  {
    Print(v.items[i]) + if i + 1 < |v.items| then "," + PrintItems(v, i + 1) else ""
  }

  ghost function PrintFields(v: Json, ks: seq<string>, i: nat): string
    requires v.JObject? && i < |ks| && forall k | k in ks :: k in v.fields
    decreases v, 0, |ks| - i
  {
    Quoted(ks[i]) + ":" + Print(v.fields[ks[i]]) + if i + 1 < |ks| then "," + PrintFields(v, ks, i + 1) else ""
  }

  // None is the ValueError.
  ghost function CanonicalBytes(v: Json): Option<string> { if HasFloat(v) then None else Some(Print(v)) }

  /* ----- reading ----- */

  datatype Read<+T> = Fail | Got(value: T, rest: string)

  predicate IsDigit(c: char) { '0' <= c <= '9' }

  function HexValue(c: char): Option<nat> {
    if '0' <= c <= '9' then Some(c as int - '0' as int)
    else if 'a' <= c <= 'f' then Some(c as int - 'a' as int + 10)
    else if 'A' <= c <= 'F' then Some(c as int - 'A' as int + 10)
    else None
  }

  function ReadHex4(s: string): (r: Read<nat>)
    ensures r.Got? ==> |r.rest| < |s|
  {
    if |s| < 4 then Fail
    else
      var a, b, c, d := HexValue(s[0]), HexValue(s[1]), HexValue(s[2]), HexValue(s[3]);
      if a.None? || b.None? || c.None? || d.None? then Fail
      else Got(a.value * 4096 + b.value * 256 + c.value * 16 + d.value, s[4..])
  }

  predicate IsScalar(n: int) { 0 <= n < 0xD800 || 0xE000 <= n < 0x110000 }

  // After a backslash and a u: one scalar, or the high half of a pair with its low half following.
  function ReadUnicode(s: string): (r: Read<char>)
    ensures r.Got? ==> |r.rest| < |s|
  {
    var first := ReadHex4(s);
    if first.Fail? then Fail
    else if IsScalar(first.value) then Got(first.value as char, first.rest)
    else if !(0xD800 <= first.value < 0xDC00) || |first.rest| < 2 || first.rest[0] != '\\' || first.rest[1] != 'u' then Fail
    else
      var second := ReadHex4(first.rest[2..]);
      if second.Fail? || !(0xDC00 <= second.value < 0xE000) then Fail
      else Got((0x10000 + (first.value - 0xD800) * 1024 + (second.value - 0xDC00)) as char, second.rest)
  }

  // Section 7 of RFC 8259: an escape or a plain character.
  function ReadChar(s: string): (r: Read<char>)
    requires s != []
    ensures r.Got? ==> |r.rest| < |s|
  {
    if s[0] != '\\' then Got(s[0], s[1..])
    else if |s| < 2 then Fail
    else if s[1] == '"' || s[1] == '\\' || s[1] == '/' then Got(s[1], s[2..])
    else if s[1] == 'n' then Got('\n', s[2..])
    else if s[1] == 'r' then Got('\r', s[2..])
    else if s[1] == 't' then Got('\t', s[2..])
    else if s[1] == 'b' then Got(8 as char, s[2..])
    else if s[1] == 'f' then Got(12 as char, s[2..])
    else if s[1] == 'u' then ReadUnicode(s[2..])
    else Fail
  }

  // Up to and including the closing quote.
  function ReadText(s: string): (r: Read<string>)
    ensures r.Got? ==> |r.rest| < |s|
    decreases |s|
  {
    if s == [] then Fail
    else if s[0] == '"' then Got([], s[1..])
    else
      match ReadChar(s)
      case Fail => Fail
      case Got(c, rest) =>
        (match ReadText(rest)
         case Fail => Fail
         case Got(text, after) => Got([c] + text, after))
  }

  function ReadDigits(s: string, n: nat): (r: (nat, string))
    ensures |r.1| <= |s|
    decreases |s|
  {
    if s != [] && IsDigit(s[0]) then ReadDigits(s[1..], n * 10 + (s[0] as int - '0' as int)) else (n, s)
  }

  function Negated(r: (nat, string)): Read<int> {
    var n: int := r.0;
    Got(-n, r.1)
  }

  function ReadInt(s: string): (r: Read<int>)
    ensures r.Got? ==> |r.rest| < |s|
  {
    if s == [] then Fail
    else if s[0] == '-' then
      if |s| > 1 && IsDigit(s[1]) then Negated(ReadDigits(s[1..], 0)) else Fail
    else if IsDigit(s[0]) then
      var d := s[0] as int - '0' as int;
      var (n, rest) := ReadDigits(s[1..], d);
      Got(n, rest)
    else Fail
  }

  function ReadWord(s: string, word: string, v: Json): (r: Read<Json>)
    requires word != []
    ensures r.Got? ==> |r.rest| < |s|
  {
    if word <= s then Got(v, s[|word|..]) else Fail
  }

  function ReadValue(s: string): (r: Read<Json>)
    ensures r.Got? ==> |r.rest| < |s|
    decreases |s|, 0
  {
    if s == [] then Fail
    else if s[0] == 'n' then ReadWord(s, "null", JNull)
    else if s[0] == 't' then ReadWord(s, "true", JBool(true))
    else if s[0] == 'f' then ReadWord(s, "false", JBool(false))
    else if s[0] == '"' then
      (match ReadText(s[1..]) case Fail => Fail case Got(text, rest) => Got(JString(text), rest))
    else if s[0] == '[' then
      if |s| > 1 && s[1] == ']' then Got(JArray([]), s[2..])
      else (match ReadItems(s[1..]) case Fail => Fail case Got(items, rest) => Got(JArray(items), rest))
    else if s[0] == '{' then
      if |s| > 1 && s[1] == '}' then Got(JObject(map[]), s[2..])
      else (match ReadFields(s[1..]) case Fail => Fail case Got(fields, rest) => Got(JObject(fields), rest))
    else
      (match ReadInt(s) case Fail => Fail case Got(n, rest) => Got(JInt(n), rest))
  }

  // Values up to and including the closing bracket.
  function ReadItems(s: string): (r: Read<seq<Json>>)
    ensures r.Got? ==> |r.rest| < |s|
    decreases |s|, 1
  {
    match ReadValue(s)
    case Fail => Fail
    case Got(v, rest) =>
      if rest == [] then Fail
      else if rest[0] == ']' then Got([v], rest[1..])
      else if rest[0] == ',' then
        (match ReadItems(rest[1..]) case Fail => Fail case Got(vs, after) => Got([v] + vs, after))
      else Fail
  }

  // Members up to and including the closing brace; a key met again later wins.
  function ReadFields(s: string): (r: Read<map<string, Json>>)
    ensures r.Got? ==> |r.rest| < |s|
    decreases |s|, 1
  {
    if s == [] || s[0] != '"' then Fail
    else
      match ReadText(s[1..])
      case Fail => Fail
      case Got(key, afterKey) =>
        if afterKey == [] || afterKey[0] != ':' then Fail
        else
          (match ReadValue(afterKey[1..])
           case Fail => Fail
           case Got(v, rest) =>
             if rest == [] then Fail
             else if rest[0] == '}' then Got(map[key := v], rest[1..])
             else if rest[0] == ',' then
               (match ReadFields(rest[1..])
                case Fail => Fail
                case Got(more, after) => Got(map[key := v] + more, after))
             else Fail)
  }

  function Parse(s: string): Option<Json> {
    match ReadValue(s)
    case Fail => None
    case Got(v, rest) => if rest == [] then Some(v) else None
  }

  /* ----- the round trip ----- */

  lemma DigitValue(d: nat)
    requires d < 16
    ensures HexValue(HexDigit(d)) == Some(d)
  {
  }

  lemma FourDigits(n: nat)
    requires n < 0x10000
    ensures n / 4096 < 16 && n == n / 4096 * 4096 + n / 256 % 16 * 256 + n / 16 % 16 * 16 + n % 16
  {
  }

  lemma HexRoundTrip(n: nat, t: string)
    requires n < 0x10000
    ensures ReadHex4(Hex4(n) + t) == Got(n, t)
  {
    FourDigits(n);
    DigitValue(n / 4096);
    DigitValue(n / 256 % 16);
    DigitValue(n / 16 % 16);
    DigitValue(n % 16);
    assert (Hex4(n) + t)[4..] == t;
  }

  // A scalar above the basic plane comes back from its pair.
  lemma PairRoundTrip(c: char, t: string)
    requires c as int >= 0x10000
    ensures var n := c as int - 0x10000;
      ReadUnicode(Hex4(0xD800 + n / 1024) + ("\\u" + (Hex4(0xDC00 + n % 1024) + t))) == Got(c, t)
  {
    hide Hex4, ReadHex4;
    var n := c as int - 0x10000;
    var low := Hex4(0xDC00 + n % 1024) + t;
    HexRoundTrip(0xD800 + n / 1024, "\\u" + low);
    HexRoundTrip(0xDC00 + n % 1024, t);
    assert ("\\u" + low)[2..] == low;
    assert n / 1024 * 1024 + n % 1024 == n;
  }

  lemma CharRoundTrip(c: char, t: string)
    ensures ReadChar(Escape(c) + t) == Got(c, t)
  {
    hide Hex4, ReadUnicode;
    var s := Escape(c) + t;
    if c as int >= 0x10000 {
      var n := c as int - 0x10000;
      PairRoundTrip(c, t);
      assert s[2..] == Hex4(0xD800 + n / 1024) + ("\\u" + (Hex4(0xDC00 + n % 1024) + t));
    } else if |Escape(c)| == 6 {
      assert s[2..] == Hex4(c as int) + t;
      UnicodeRoundTrip(c, t);
    } else if |Escape(c)| == 1 {
      assert s[1..] == t;
    } else {
      assert s[2..] == t;
    }
  }

  lemma UnicodeRoundTrip(c: char, t: string)
    requires c as int < 0x10000
    ensures ReadUnicode(Hex4(c as int) + t) == Got(c, t)
  {
    hide Hex4, ReadHex4;
    HexRoundTrip(c as int, t);
  }

  lemma {:induction false} TextRoundTrip(s: string, t: string)
    ensures ReadText(EscapeAll(s) + "\"" + t) == Got(s, t)
    decreases |s|
  {
    if s == [] {
      assert (EscapeAll(s) + "\"" + t)[1..] == t;
    } else {
      var tail := EscapeAll(s[1..]) + "\"" + t;
      assert EscapeAll(s) + "\"" + t == Escape(s[0]) + tail;
      CharRoundTrip(s[0], tail);
      TextRoundTrip(s[1..], t);
      assert [s[0]] + s[1..] == s;
    }
  }

  predicate NoDigitFirst(t: string) { t == [] || !IsDigit(t[0]) }

  lemma {:induction false} DigitsRoundTrip(n: nat, t: string)
    ensures PrintNat(n) != [] && IsDigit(PrintNat(n)[0])
    ensures ReadDigits(PrintNat(n) + t, 0) == ReadDigits(t, n)
    decreases n
  {
    var last := [HexDigit(n % 10)];
    assert (last + t)[1..] == t;
    if n >= 10 {
      DigitsRoundTrip(n / 10, last + t);
      assert PrintNat(n) + t == PrintNat(n / 10) + (last + t);
    }
  }

  lemma IntRoundTrip(n: int, t: string)
    requires NoDigitFirst(t)
    ensures ReadInt(PrintInt(n) + t) == Got(n, t)
  {
    hide PrintNat;
    var digits := PrintNat(if n < 0 then -n else n);
    DigitsRoundTrip(if n < 0 then -n else n, t);
    if n < 0 {
      assert (PrintInt(n) + t)[1..] == digits + t;
    } else {
      assert ReadDigits(digits + t, 0) == ReadDigits((digits + t)[1..], 0 * 10 + ((digits + t)[0] as int - '0' as int));
    }
  }

  lemma FirstCharacter(v: Json)
    requires !v.JFloat?
    ensures Print(v) != [] && Print(v)[0] != ']'
  {
    if v.JInt? { DigitsRoundTrip(if v.number < 0 then -v.number else v.number, []); }
  }

  lemma TextReads(s: string, text: string, t: string)
    requires s != [] && s[0] == '"' && ReadText(s[1..]) == Got(text, t)
    ensures ReadValue(s) == Got(JString(text), t)
  {
  }

  lemma IntReads(s: string, n: int, t: string)
    requires ReadInt(s) == Got(n, t)
    ensures ReadValue(s) == Got(JInt(n), t)
  {
  }

  lemma ArrayReads(s: string, items: seq<Json>, t: string)
    requires |s| > 1 && s[0] == '[' && s[1] != ']' && ReadItems(s[1..]) == Got(items, t)
    ensures ReadValue(s) == Got(JArray(items), t)
  {
  }

  lemma ObjectReads(s: string, fields: map<string, Json>, t: string)
    requires |s| > 1 && s[0] == '{' && s[1] != '}' && ReadFields(s[1..]) == Got(fields, t)
    ensures ReadValue(s) == Got(JObject(fields), t)
  {
    hide ReadFields, ReadItems, ReadText, ReadInt;
  }

  lemma PlainReads(v: Json, t: string)
    requires v.JNull? || v.JBool? || (v.JArray? && v.items == []) || (v.JObject? && v.fields == map[])
    ensures ReadValue(Print(v) + t) == Got(v, t)
  {
    var s := Print(v) + t;
    assert s[..|Print(v)|] == Print(v) && s[|Print(v)|..] == t;
  }

  lemma FirstItem(v: Json)
    requires v.JArray? && v.items != [] && !HasFloat(v)
    ensures PrintItems(v, 0) != [] && PrintItems(v, 0)[0] != ']'
  {
    assert !HasFloat(v.items[0]);
    FirstCharacter(v.items[0]);
  }

  lemma TextCloses(v: Json, t: string)
    requires v.JString? && ReadText(EscapeAll(v.text) + "\"" + t) == Got(v.text, t)
    ensures ReadValue(Print(v) + t) == Got(v, t)
  {
    hide ReadValue, ReadText, EscapeAll;
    assert (Print(v) + t)[1..] == EscapeAll(v.text) + "\"" + t;
    TextReads(Print(v) + t, v.text, t);
  }

  lemma ArrayCloses(v: Json, t: string)
    requires v.JArray? && v.items != [] && !HasFloat(v)
    requires ReadItems(PrintItems(v, 0) + "]" + t) == Got(v.items, t)
    ensures ReadValue(Print(v) + t) == Got(v, t)
  {
    hide ReadValue, ReadItems, PrintItems;
    FirstItem(v);
    assert (Print(v) + t)[1..] == PrintItems(v, 0) + "]" + t;
    ArrayReads(Print(v) + t, v.items, t);
  }

  lemma ObjectCloses(v: Json, ks: seq<string>, t: string)
    requires v.JObject? && v.fields != map[] && ks == SortedKeys(v.fields.Keys) && ks != [] && forall k | k in ks :: k in v.fields
    requires ReadFields(PrintFields(v, ks, 0) + "}" + t) == Got(v.fields, t)
    ensures ReadValue(Print(v) + t) == Got(v, t)
  {
    hide ReadValue, ReadFields, PrintFields, SortedKeys;
    FirstField(v, ks);
    assert (Print(v) + t)[1..] == PrintFields(v, ks, 0) + "}" + t;
    ObjectReads(Print(v) + t, v.fields, t);
  }

  // Reading what was printed, whatever follows it, gives the value and leaves what follows.
  lemma {:induction false} ValueRoundTrip(v: Json, t: string)
    requires !HasFloat(v) && NoDigitFirst(t)
    ensures ReadValue(Print(v) + t) == Got(v, t)
    decreases v, 1, 0
  {
    hide ReadValue, ReadText, ReadItems, ReadFields, ReadInt, EscapeAll, PrintInt, PrintItems, PrintFields,
      SortedKeys, Restored;
    match v
    case JInt(n) =>
      IntRoundTrip(n, t);
      IntReads(Print(v) + t, n, t);
    case JString(text) =>
      TextRoundTrip(text, t);
      TextCloses(v, t);
    case JArray(items) =>
      if items == [] {
        PlainReads(v, t);
      } else {
        ItemsRoundTrip(v, 0, t);
        assert items[0..] == items;
        hide Print;
        ArrayCloses(v, t);
      }
    case JObject(fields) =>
      if fields == map[] {
        PlainReads(v, t);
      } else {
        var ks := SortedKeys(fields.Keys);
        FirstField(v, ks);
        FieldsRoundTrip(v, ks, 0, t);
        AllKeysRestored(fields, ks);
        hide Print;
        ObjectCloses(v, ks, t);
      }
    case _ => PlainReads(v, t);
  }

  lemma FirstField(v: Json, ks: seq<string>)
    requires v.JObject? && v.fields != map[] && ks == SortedKeys(v.fields.Keys)
    ensures ks != [] && forall k :: k in ks <==> k in v.fields
    ensures PrintFields(v, ks, 0) != [] && PrintFields(v, ks, 0)[0] == '"'
  {
    SortedKeysAreTheKeys(v.fields.Keys);
    var k :| k in v.fields;
    assert k in ks;
  }

  lemma ItemsRead(s: string, v: Json, rest: string, vs: seq<Json>, t: string)
    requires ReadValue(s) == Got(v, rest) && rest != []
    requires (rest[0] == ']' && vs == [] && t == rest[1..]) || (rest[0] == ',' && ReadItems(rest[1..]) == Got(vs, t))
    ensures ReadItems(s) == Got([v] + vs, t)
  {
    hide ReadValue;
    assert [v] + [] == [v];
  }

  lemma {:induction false} ItemsRoundTrip(v: Json, i: nat, t: string)
    requires v.JArray? && !HasFloat(v) && i < |v.items|
    ensures ReadItems(PrintItems(v, i) + "]" + t) == Got(v.items[i..], t)
    decreases v, 0, |v.items| - i
  {
    hide ReadValue, ReadItems, Print;
    var more := if i + 1 < |v.items| then "," + PrintItems(v, i + 1) else "";
    var tail := more + "]" + t;
    var s := PrintItems(v, i) + "]" + t;
    assert s == Print(v.items[i]) + tail;
    assert !HasFloat(v.items[i]);
    ValueRoundTrip(v.items[i], tail);
    assert v.items[i..] == [v.items[i]] + v.items[i + 1..];
    if i + 1 < |v.items| {
      ItemsRoundTrip(v, i + 1, t);
      assert tail[1..] == PrintItems(v, i + 1) + "]" + t;
    } else {
      assert tail[1..] == t;
    }
    ItemsRead(s, v.items[i], tail, v.items[i + 1..], t);
  }

  // The members read back from position i on.
  function Restored(fields: map<string, Json>, ks: seq<string>, i: nat): map<string, Json>
    requires i <= |ks| && forall k | k in ks :: k in fields
    decreases |ks| - i
  {
    if i == |ks| then map[] else map[ks[i] := fields[ks[i]]] + Restored(fields, ks, i + 1)
  }

  lemma {:induction false} RestoredFrom(fields: map<string, Json>, ks: seq<string>, i: nat)
    requires i <= |ks| && forall k | k in ks :: k in fields
    ensures forall k :: k in Restored(fields, ks, i) <==> k in ks[i..]
    ensures forall k | k in Restored(fields, ks, i) :: Restored(fields, ks, i)[k] == fields[k]
    decreases |ks| - i
  {
    if i < |ks| {
      RestoredFrom(fields, ks, i + 1);
      assert ks[i..] == [ks[i]] + ks[i + 1..];
    }
  }

  lemma AllKeysRestored(fields: map<string, Json>, ks: seq<string>)
    requires forall k :: k in ks <==> k in fields
    ensures Restored(fields, ks, 0) == fields
  {
    RestoredFrom(fields, ks, 0);
    assert ks[0..] == ks;
  }

  lemma FieldsRead(s: string, key: string, afterKey: string, v: Json, rest: string, more: map<string, Json>, t: string)
    requires s != [] && s[0] == '"' && ReadText(s[1..]) == Got(key, afterKey)
    requires afterKey != [] && afterKey[0] == ':' && ReadValue(afterKey[1..]) == Got(v, rest) && rest != []
    requires (rest[0] == '}' && more == map[] && t == rest[1..]) || (rest[0] == ',' && ReadFields(rest[1..]) == Got(more, t))
    ensures ReadFields(s) == Got(map[key := v] + more, t)
  {
    hide ReadValue, ReadText;
    assert map[key := v] + map[] == map[key := v];
  }

  lemma {:induction false} FieldsRoundTrip(v: Json, ks: seq<string>, i: nat, t: string)
    requires v.JObject? && !HasFloat(v) && i < |ks| && forall k | k in ks :: k in v.fields
    ensures ReadFields(PrintFields(v, ks, i) + "}" + t) == Got(Restored(v.fields, ks, i), t)
    decreases v, 0, |ks| - i
  {
    hide ReadValue, ReadText, ReadFields, Print, EscapeAll;
    var more := if i + 1 < |ks| then "," + PrintFields(v, ks, i + 1) else "";
    var tail := more + "}" + t;
    var value := v.fields[ks[i]];
    var s := PrintFields(v, ks, i) + "}" + t;
    var afterKey := ":" + (Print(value) + tail);
    assert s == Quoted(ks[i]) + afterKey;
    assert s[1..] == EscapeAll(ks[i]) + "\"" + afterKey;
    TextRoundTrip(ks[i], afterKey);
    assert afterKey[1..] == Print(value) + tail;
    assert !HasFloat(value);
    ValueRoundTrip(value, tail);
    if i + 1 < |ks| {
      FieldsRoundTrip(v, ks, i + 1, t);
      assert tail[1..] == PrintFields(v, ks, i + 1) + "}" + t;
    } else {
      assert tail[1..] == t;
    }
    FieldsRead(s, ks[i], afterKey, value, tail, Restored(v.fields, ks, i + 1), t);
  }

  // Canonical bytes parse back to the value they came from.
  lemma ParsesBack(v: Json)
    requires !HasFloat(v)
    ensures CanonicalBytes(v).Some? && Parse(CanonicalBytes(v).value) == Some(v)
  {
    ValueRoundTrip(v, []);
    assert Print(v) + [] == Print(v);
  }

  // Same logical value, same bytes; same bytes, same value.
  lemma CanonicalBytesAreInjective(v: Json, w: Json)
    requires !HasFloat(v) && !HasFloat(w)
    ensures CanonicalBytes(v) == CanonicalBytes(w) <==> v == w
  {
    ParsesBack(v);
    ParsesBack(w);
  }

  /* ----- plain ASCII ----- */

  predicate Ascii(s: string) { forall c | c in s :: ' ' <= c <= '~' }

  lemma {:induction false} EscapedIsAscii(s: string)
    ensures Ascii(EscapeAll(s))
    decreases |s|
  {
    if s != [] { EscapedIsAscii(s[1..]); }
  }

  lemma {:induction false} DigitsAreAscii(n: nat)
    ensures Ascii(PrintNat(n))
    decreases n
  {
    if n >= 10 { DigitsAreAscii(n / 10); }
  }

  lemma BracketsAreAscii(inner: string)
    requires Ascii(inner)
    ensures Ascii("[" + inner + "]") && Ascii("{" + inner + "}") && Ascii("\"" + inner + "\"")
  {
  }

  // The encode("ascii") after printing never fails.
  lemma {:induction false} PrintedIsAscii(v: Json)
    ensures Ascii(Print(v))
    decreases v, 1, 0
  {
    hide Ascii, PrintItems, PrintFields, EscapeAll, PrintNat, SortedKeys;
    match v
    case JInt(n) => IntIsAscii(n);
    case JString(s) =>
      EscapedIsAscii(s);
      BracketsAreAscii(EscapeAll(s));
    case JArray(items) =>
      if items == [] {
        WordsAreAscii();
      } else {
        ItemsAreAscii(v, 0);
        BracketsAreAscii(PrintItems(v, 0));
      }
    case JObject(fields) =>
      if fields == map[] {
        WordsAreAscii();
      } else {
        var ks := SortedKeys(fields.Keys);
        FirstField(v, ks);
        FieldsAreAscii(v, ks, 0);
        BracketsAreAscii(PrintFields(v, ks, 0));
      }
    case _ => WordsAreAscii();
  }

  lemma WordsAreAscii()
    ensures Ascii("null") && Ascii("true") && Ascii("false") && Ascii("") && Ascii("[]") && Ascii("{}")
  {
  }

  lemma IntIsAscii(n: int)
    ensures Ascii(PrintInt(n))
  {
    DigitsAreAscii(if n < 0 then -n else n);
  }

  lemma {:induction false} ItemsAreAscii(v: Json, i: nat)
    requires v.JArray? && i < |v.items|
    ensures Ascii(PrintItems(v, i))
    decreases v, 0, |v.items| - i
  {
    PrintedIsAscii(v.items[i]);
    if i + 1 < |v.items| { ItemsAreAscii(v, i + 1); }
  }

  lemma {:induction false} FieldsAreAscii(v: Json, ks: seq<string>, i: nat)
    requires v.JObject? && i < |ks| && forall k | k in ks :: k in v.fields
    ensures Ascii(PrintFields(v, ks, i))
    decreases v, 0, |ks| - i
  {
    EscapedIsAscii(ks[i]);
    PrintedIsAscii(v.fields[ks[i]]);
    if i + 1 < |ks| { FieldsAreAscii(v, ks, i + 1); }
  }
}
