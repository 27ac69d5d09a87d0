/** Code-unit texts: their lexicographic order, sorting by key, and decimal numerals.
    A unit is a UTF-16 code unit on the TypeScript side and a byte on the Go side. */
module Texts {

  type Unit = n: int | 0 <= n < 0x1_0000
  type Text = seq<Unit>

  lemma Assoc(a: Text, b: Text, c: Text)
    ensures (a + b) + c == a + (b + c)
  {}

  lemma DropFirst(x: Text, a: Text, b: Text)
    requires x + a == x + b
    ensures a == b
  {
    assert a == (x + a)[|x|..];
    assert b == (x + b)[|x|..];
  }

  // ------------------------------------------------------------------ order

  /** Lexicographic order by unit, the order of both languages' string comparison. */
  predicate Less(a: Text, b: Text) {
    b != [] && (a == [] || a[0] < b[0] || (a[0] == b[0] && Less(a[1..], b[1..])))
  }

  lemma {:induction false} LessTotal(a: Text, b: Text)
    ensures Less(a, b) || a == b || Less(b, a)
    ensures !(Less(a, b) && Less(b, a)) && !Less(a, a)
  {
    if a != [] && b != [] {
      LessTotal(a[1..], b[1..]);
      LessTotal(a[1..], a[1..]);
      assert a == [a[0]] + a[1..] && b == [b[0]] + b[1..];
    } else if a != [] {
      LessTotal(a[1..], a[1..]);
    }
  }

  lemma {:induction false} LessTransitive(a: Text, b: Text, c: Text)
    requires Less(a, b) && Less(b, c)
    ensures Less(a, c)
  {
    if a != [] && a[0] == b[0] && b[0] == c[0] {
      LessTransitive(a[1..], b[1..], c[1..]);
    }
  }

  // ---------------------------------------------------------- sorting by key

  predicate StrictlySorted<V>(entries: seq<(Text, V)>) {
    forall i, j :: 0 <= i < j < |entries| ==> Less(entries[i].0, entries[j].0)
  }

  predicate DistinctKeys<V>(entries: seq<(Text, V)>) {
    forall i, j :: 0 <= i < j < |entries| ==> entries[i].0 != entries[j].0
  }

  function Insert<V(!new)>(e: (Text, V), sorted: seq<(Text, V)>): (r: seq<(Text, V)>)
    ensures |r| == |sorted| + 1
    ensures forall x :: x in r <==> x == e || x in sorted
  {
    if sorted == [] || Less(e.0, sorted[0].0) then [e] + sorted
    else
      assert sorted == [sorted[0]] + sorted[1..];
      [sorted[0]] + Insert(e, sorted[1..])
  }

  function SortByKey<V(!new)>(entries: seq<(Text, V)>): (r: seq<(Text, V)>)
    ensures |r| == |entries|
    ensures forall x :: x in r <==> x in entries
  {
    if entries == [] then []
    else
      assert entries == [entries[0]] + entries[1..];
      Insert(entries[0], SortByKey(entries[1..]))
  }

  lemma {:induction false} InsertSorted<V(!new)>(e: (Text, V), sorted: seq<(Text, V)>)
    requires StrictlySorted(sorted)
    requires forall x <- sorted :: x.0 != e.0
    ensures StrictlySorted(Insert(e, sorted))
  {
    if sorted == [] {
    } else if Less(e.0, sorted[0].0) {
      forall j | 0 <= j < |sorted| ensures Less(e.0, sorted[j].0) {
        if j > 0 { LessTransitive(e.0, sorted[0].0, sorted[j].0); }
      }
    } else {
      var tail := sorted[1..];
      InsertSorted(e, tail);
      LessTotal(e.0, sorted[0].0);
      assert sorted[0] in sorted;
      var r := Insert(e, tail);
      forall j | 0 <= j < |r| ensures Less(sorted[0].0, r[j].0) {
        assert r[j] in r;
        if r[j] != e {
          var k :| 0 <= k < |tail| && tail[k] == r[j];
          assert tail[k] == sorted[k + 1];
        }
      }
    }
  }

  lemma {:induction false} SortedByKey<V(!new)>(entries: seq<(Text, V)>)
    requires DistinctKeys(entries)
    ensures StrictlySorted(SortByKey(entries))
  {
    if entries != [] {
      var rest := entries[1..];
      SortedByKey(rest);
      forall x | x in SortByKey(rest) ensures x.0 != entries[0].0 {
        var k :| 0 <= k < |rest| && rest[k] == x;
        assert entries[k + 1] == x;
      }
      InsertSorted(entries[0], SortByKey(rest));
    }
  }

  /** A strictly sorted listing of a set of entries is unique. */
  lemma {:induction false} SortedUnique<V(!new)>(a: seq<(Text, V)>, b: seq<(Text, V)>)
    requires StrictlySorted(a) && StrictlySorted(b)
    requires forall x :: x in a <==> x in b
    ensures a == b
  {
    assert a != [] ==> a[0] in b;
    assert b != [] ==> b[0] in a;
    if a != [] {
      assert a[0] in a && a[0] in b;
      var i :| 0 <= i < |b| && b[i] == a[0];
      assert b[0] in b && b[0] in a;
      var j :| 0 <= j < |a| && a[j] == b[0];
      LessTotal(a[0].0, b[0].0);
      assert a[0] == b[0];
      LessTotal(a[0].0, a[0].0);
      forall x ensures x in a[1..] <==> x in b[1..] {
        TailMembers(a, x);
        TailMembers(b, x);
      }
      SortedUnique(a[1..], b[1..]);
    }
  }

  lemma TailMembers<V>(a: seq<(Text, V)>, x: (Text, V))
    requires StrictlySorted(a) && a != []
    ensures x in a[1..] <==> x in a && x != a[0]
  {
    LessTotal(a[0].0, a[0].0);
    if x in a && x != a[0] {
      var k :| 0 <= k < |a| && a[k] == x;
      assert a[1..][k - 1] == x;
    }
  }

  // ---------------------------------------------------------------- decimals

  predicate Digit(u: Unit) { 48 <= u <= 57 }

  function Digits(n: nat): (t: Text)
    ensures t != [] && forall u <- t :: Digit(u)
  {
    if n < 10 then [48 + n] else Digits(n / 10) + [48 + n % 10]
  }

  const MINUS: Unit := 45

  function Decimal(n: int): Text {
    if n < 0 then [MINUS] + Digits(-n) else Digits(n)
  }

  function DigitsValue(t: Text): int {
    if t == [] then 0 else DigitsValue(t[..|t| - 1]) * 10 + t[|t| - 1] as int - 48
  }

  function LeadingDigits(t: Text): nat {
    if t == [] || !Digit(t[0]) then 0 else 1 + LeadingDigits(t[1..])
  }

  lemma {:induction false} LeadingDigitsOf(digits: Text, rest: Text)
    requires (forall u <- digits :: Digit(u)) && EndsNumeral(rest)
    ensures LeadingDigits(digits + rest) == |digits|
  {
    if digits == [] {
      assert digits + rest == rest;
    } else {
      assert (digits + rest)[1..] == digits[1..] + rest;
      assert digits[0] in digits;
      LeadingDigitsOf(digits[1..], rest);
    }
  }

  lemma {:induction false} DigitsRoundTrip(n: nat)
    ensures DigitsValue(Digits(n)) == n
  {
    if n < 10 {
      assert [48 + n][..0] == [];
    } else {
      DigitsRoundTrip(n / 10);
      assert Digits(n)[..|Digits(n)| - 1] == Digits(n / 10);
    }
  }

  /** Nothing that follows can be read as part of the numeral. */
  predicate EndsNumeral(rest: Text) { rest != [] ==> !Digit(rest[0]) }

  lemma DigitsPrefixFree(m: nat, n: nat, a: Text, b: Text)
    requires EndsNumeral(a) && EndsNumeral(b)
    requires Digits(m) + a == Digits(n) + b
    ensures m == n && a == b
  {
    var p, q := Digits(m), Digits(n);
    var text := p + a;
    LeadingDigitsOf(p, a);
    LeadingDigitsOf(q, b);
    assert p == text[..|p|] == q;
    assert a == text[|p|..] == b;
    DigitsRoundTrip(m);
    DigitsRoundTrip(n);
  }

  lemma DecimalPrefixFree(m: int, n: int, a: Text, b: Text)
    requires EndsNumeral(a) && EndsNumeral(b)
    requires Decimal(m) + a == Decimal(n) + b
    ensures m == n && a == b
  {
    hide Digits;
    SignOfDecimal(m, a);
    SignOfDecimal(n, b);
    if m < 0 {
      Assoc([MINUS], Digits(-m), a);
      Assoc([MINUS], Digits(-n), b);
      DropFirst([MINUS], Digits(-m) + a, Digits(-n) + b);
      DigitsPrefixFree(-m, -n, a, b);
    } else {
      DigitsPrefixFree(m, n, a, b);
    }
  }

  lemma SignOfDecimal(n: int, rest: Text)
    ensures (Decimal(n) + rest)[0] == MINUS <==> n < 0
  {
    hide Digits;
    if n >= 0 {
      assert Digits(n)[0] in Digits(n);
      assert (Decimal(n) + rest)[0] == Digits(n)[0];
    }
  }
}
