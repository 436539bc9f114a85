/** Event ids: 26 Crockford base-32 characters that sort by creation time (ledger/chain.py:56-68). */
module EventId {
  import opened Common
  import opened Canonical

  const ALPHABET := "0123456789ABCDEFGHJKMNPQRSTVWXYZ"

  function Pow32(n: nat): (p: nat)
    ensures p > 0
  {
    if n == 0 then 1 else 32 * Pow32(n - 1)
  }

  /* ----- the loop ----- */

  function Encode(value: int, length: nat): (text: string)
    ensures |text| == length
    decreases length
  {
    if length == 0 then [] else Encode(value / 32, length - 1) + [ALPHABET[value % 32]]
  }

  function Reversed<T>(s: seq<T>): (r: seq<T>)
    ensures |r| == |s|
  {
    if s == [] then [] else Reversed(s[1..]) + [s[0]]
  }

  lemma {:induction false} ReversedAppend<T>(s: seq<T>, x: T)
    ensures Reversed(s + [x]) == [x] + Reversed(s)
    decreases |s|
  {
    if s == [] {
      assert [x][1..] == [];
    } else {
      assert (s + [x])[1..] == s[1..] + [x];
      ReversedAppend(s[1..], x);
    }
  }

  // Five bits at a time from the low end, the list reversed at last; masking and shifting are the
  // remainder and the floor of division by 32, for negative values as well.
  method Crockford32(value: int, length: nat) returns (text: string)
    ensures text == Encode(value, length)
    ensures |text| == length && Decode(text) == Some(value % Pow32(length))
  {
    var chars: string := [];
    var rest := value;
    var i := 0;
    while i < length
      invariant 0 <= i <= length
      invariant Encode(value, length) == Encode(rest, length - i) + Reversed(chars)
    {
      ReversedAppend(chars, ALPHABET[rest % 32]);
      chars := chars + [ALPHABET[rest % 32]];
      rest := rest / 32;
      i := i + 1;
    }
    text := Reversed(chars);
    DecodesToRemainder(value, length);
  }

  /* ----- decoding ----- */

  function DigitOf(c: char): Option<nat> {
    if exists d | 0 <= d < 32 :: ALPHABET[d] == c then
      DigitsDiffer(c);
      var d :| 0 <= d < 32 && ALPHABET[d] == c;
      Some(d)
    else None
  }

  // No two digits share a character, and the characters ascend with the digits.
  lemma AlphabetAscends(d: nat, e: nat)
    requires d < e < 32
    ensures ALPHABET[d] < ALPHABET[e]
  {
  }

  lemma DigitsDiffer(c: char)
    ensures forall d, e | 0 <= d < 32 && 0 <= e < 32 :: ALPHABET[d] == c && ALPHABET[e] == c ==> d == e
  {
    forall d, e | 0 <= d < 32 && 0 <= e < 32 && d < e ensures ALPHABET[d] != ALPHABET[e] { AlphabetAscends(d, e); }
  }

  lemma DigitOfAlphabet(d: nat)
    requires d < 32
    ensures DigitOf(ALPHABET[d]) == Some(d)
  {
    DigitsDiffer(ALPHABET[d]);
  }

  // The number a text stands for, most significant digit first; None outside the alphabet.
  function Decode(text: string): Option<nat> {
    if text == [] then Some(0)
    else
      var high := Decode(text[..|text| - 1]);
      var low := DigitOf(text[|text| - 1]);
      if high.None? || low.None? then None else Some(high.value * 32 + low.value)
  }

  lemma ProductsKeepOrder(x: int, y: int, m: nat)
    requires x <= y
    ensures x * m <= y * m
  {
  }

  lemma RemainderIsUnique(v: int, m: nat, a: int, r: nat)
    requires v == a * m + r && r < m
    ensures v % m == r
  {
    var q := v / m;
    assert v == q * m + v % m;
    if q > a { ProductsKeepOrder(a + 1, q, m); }
    if q < a { ProductsKeepOrder(q + 1, a, m); }
  }

  lemma RemainderInTwoSteps(v: int, p: nat)
    requires p > 0
    ensures v / 32 % p * 32 + v % 32 == v % (32 * p)
  {
    var q := v / 32;
    var a, b := q / p, q % p;
    assert q == a * p + b;
    assert v == 32 * (a * p + b) + v % 32;
    assert 32 * (a * p) == a * (32 * p);
    RemainderIsUnique(v, 32 * p, a, 32 * b + v % 32);
  }

  // Decoding the encoder's output gives the value modulo 32^length.
  lemma {:induction false} DecodesToRemainder(value: int, length: nat)
    ensures Decode(Encode(value, length)) == Some(value % Pow32(length))
    decreases length
  {
    if length > 0 {
      DecodesToRemainder(value / 32, length - 1);
      DigitOfAlphabet(value % 32);
      RemainderInTwoSteps(value, Pow32(length - 1));
      var text := Encode(value, length);
      assert text[..length - 1] == Encode(value / 32, length - 1);
    }
  }

  /* ----- order ----- */

  lemma {:induction false} DecodeIsBounded(text: string)
    requires Decode(text).Some?
    ensures Decode(text).value < Pow32(|text|)
    decreases |text|
  {
    if text != [] { DecodeIsBounded(text[..|text| - 1]); }
  }

  lemma PlaceShifts(d: nat, p: nat, x: nat, y: nat)
    ensures (d * p + x) * 32 + y == d * (32 * p) + (x * 32 + y)
  {
  }

  // The same number read from the front.
  lemma {:induction false} DecodeFromFront(text: string)
    requires text != []
    ensures Decode(text).Some? <==> DigitOf(text[0]).Some? && Decode(text[1..]).Some?
    ensures Decode(text).Some? ==>
      Decode(text).value == DigitOf(text[0]).value * Pow32(|text| - 1) + Decode(text[1..]).value
    decreases |text|
  {
    hide DigitOf;
    var n := |text| - 1;
    if n == 0 {
      assert text[..0] == [] && text[1..] == [];
    } else {
      DecodeFromFront(text[..n]);
      assert text[..n][1..] == text[1..][..n - 1] && text[1..][n - 1] == text[n];
      if Decode(text).Some? {
        PlaceShifts(DigitOf(text[0]).value, Pow32(n - 1), Decode(text[1..][..n - 1]).value, DigitOf(text[n]).value);
      }
    }
  }

  lemma DigitsOrderAsCharacters(c: char, d: char)
    requires DigitOf(c).Some? && DigitOf(d).Some?
    ensures c < d <==> DigitOf(c).value < DigitOf(d).value
    ensures c == d <==> DigitOf(c).value == DigitOf(d).value
  {
    var i, j := DigitOf(c).value, DigitOf(d).value;
    if i < j { AlphabetAscends(i, j); }
    if j < i { AlphabetAscends(j, i); }
  }

  lemma HigherDigitWins(i: nat, j: nat, p: nat, x: nat, y: nat)
    requires i < j && x < p
    ensures i * p + x < j * p + y
  {
    ProductsKeepOrder(i + 1, j, p);
  }

  // At one length, the order of the texts is the order of the numbers.
  lemma {:induction false} TextOrderIsNumericOrder(a: string, b: string)
    requires |a| == |b| && Decode(a).Some? && Decode(b).Some?
    ensures Less(a, b) <==> Decode(a).value < Decode(b).value
    decreases |a|
  {
    if a != [] {
      DecodeFromFront(a);
      DecodeFromFront(b);
      DigitsOrderAsCharacters(a[0], b[0]);
      DecodeIsBounded(a[1..]);
      DecodeIsBounded(b[1..]);
      var i, j, p := DigitOf(a[0]).value, DigitOf(b[0]).value, Pow32(|a| - 1);
      if i < j {
        HigherDigitWins(i, j, p, Decode(a[1..]).value, Decode(b[1..]).value);
      } else if j < i {
        HigherDigitWins(j, i, p, Decode(b[1..]).value, Decode(a[1..]).value);
      } else {
        TextOrderIsNumericOrder(a[1..], b[1..]);
      }
    }
  }

  /* ----- ids ----- */

  const TWO_80 := 0x1_0000_0000_0000_0000_0000
  const TWO_50 := 0x4_0000_0000_0000
  const ID_LENGTH := 26

  // The millisecond stamp shifted over 80 random bits.
  function EventIdOf(ms: int, random: nat): string
    requires random < TWO_80
  {
    Encode(ms * TWO_80 + random, ID_LENGTH)
  }

  lemma IdSpace()
    ensures Pow32(ID_LENGTH) == TWO_50 * TWO_80
  {
    PowersAdd(5, 5);
    PowersAdd(10, 6);
    PowersAdd(10, 16);
    assert Pow32(5) == 0x200_0000 && Pow32(6) == 0x4000_0000;
  }

  lemma {:induction false} PowersAdd(m: nat, n: nat)
    ensures Pow32(m + n) == Pow32(m) * Pow32(n)
    decreases m
  {
    if m > 0 {
      PowersAdd(m - 1, n);
      assert 32 * (Pow32(m - 1) * Pow32(n)) == 32 * Pow32(m - 1) * Pow32(n);
    }
  }

  // Ids are ordered and distinguished by stamp and random bits modulo 2^130, whatever the stamp.
  lemma IdsCompareAsNumbers(ms: int, random: nat, later: int, other: nat)
    requires random < TWO_80 && other < TWO_80
    ensures var space := TWO_50 * TWO_80;
      Less(EventIdOf(ms, random), EventIdOf(later, other)) <==>
        (ms * TWO_80 + random) % space < (later * TWO_80 + other) % space
  {
    hide Encode, Decode, Less, Pow32;
    IdSpace();
    DecodesToRemainder(ms * TWO_80 + random, ID_LENGTH);
    DecodesToRemainder(later * TWO_80 + other, ID_LENGTH);
    TextOrderIsNumericOrder(EventIdOf(ms, random), EventIdOf(later, other));
  }

  lemma SmallRemainder(x: nat, m: nat)
    requires x < m
    ensures x % m == x
  {
  }

  lemma StampFits(ms: nat, random: nat)
    requires random < TWO_80 && ms < TWO_50
    ensures 0 <= ms * TWO_80 + random < TWO_50 * TWO_80
    ensures (ms * TWO_80 + random) % (TWO_50 * TWO_80) == ms * TWO_80 + random
  {
    SmallRemainder(ms * TWO_80 + random, TWO_50 * TWO_80);
  }

  // Every id passes the id validator: 26 characters, each a digit or a capital letter other than I, L, O, U.
  lemma IdsAreUlids(ms: int, random: nat)
    requires random < TWO_80
    ensures |EventIdOf(ms, random)| == 26
    ensures forall c | c in EventIdOf(ms, random) :: ('0' <= c <= '9' || 'A' <= c <= 'Z') && c !in {'I', 'L', 'O', 'U'}
  {
    EncodedCharacters(ms * TWO_80 + random, ID_LENGTH);
  }

  lemma {:induction false} EncodedCharacters(value: int, length: nat)
    ensures forall c | c in Encode(value, length) :: ('0' <= c <= '9' || 'A' <= c <= 'Z') && c !in {'I', 'L', 'O', 'U'}
    decreases length
  {
    if length > 0 {
      EncodedCharacters(value / 32, length - 1);
      AlphabetIsPlain(value % 32);
    }
  }

  lemma AlphabetIsPlain(d: nat)
    requires d < 32
    ensures ('0' <= ALPHABET[d] <= '9' || 'A' <= ALPHABET[d] <= 'Z') && ALPHABET[d] !in {'I', 'L', 'O', 'U'}
  {
  }

  // So an earlier millisecond gives a smaller id, whatever the random bits, until the year 37648.
  lemma EarlierMeansSmallerId(ms: nat, random: nat, later: nat, other: nat)
    requires random < TWO_80 && other < TWO_80 && ms < later < TWO_50
    ensures Less(EventIdOf(ms, random), EventIdOf(later, other))
  {
    hide EventIdOf, Less;
    IdsCompareAsNumbers(ms, random, later, other);
    StampFits(ms, random);
    StampFits(later, other);
  }

  // And an id gives its stamp and random bits back, so two calls share one only by drawing the same
  // 80 bits in the same millisecond.
  lemma IdsRepeatOnlyByChance(ms: nat, random: nat, later: nat, other: nat)
    requires random < TWO_80 && other < TWO_80 && ms < TWO_50 && later < TWO_50
    ensures EventIdOf(ms, random) == EventIdOf(later, other) <==> ms == later && random == other
  {
    hide Encode, Decode, Pow32;
    IdSpace();
    DecodesToRemainder(ms * TWO_80 + random, ID_LENGTH);
    DecodesToRemainder(later * TWO_80 + other, ID_LENGTH);
    StampFits(ms, random);
    StampFits(later, other);
  }
}
