/** The bridge's canonical JSON printer, used as an equality test on structured results. */
module CanonicalJson {
  import opened Common
  import opened Texts

  /** Parsed JSON. Object members keep their insertion order; numbers are integers. */
  datatype Json =
    | Null
    | Bool(b: bool)
    | Number(n: int)
    | String(s: Text)
    | Array(items: seq<Json>)
    | Object(members: seq<(Text, Json)>)

  /** JavaScript objects never hold a key twice. */
  predicate WellFormed(v: Json) {
    match v
    case Array(items) => forall x <- items :: WellFormed(x)
    case Object(members) => DistinctKeys(members) && forall m <- members :: WellFormed(m.1)
    case _ => true
  }

  const MAX_SAFE := 0x1F_FFFF_FFFF_FFFF
  const MAX_DEPTH := 64

  // Code units of the JSON punctuation.
  const QUOTE: Unit := 34
  const COMMA: Unit := 44
  const COLON: Unit := 58
  const OPEN_ARRAY: Unit := 91
  const BACKSLASH: Unit := 92
  const CLOSE_ARRAY: Unit := 93
  const OPEN_OBJECT: Unit := 123
  const CLOSE_OBJECT: Unit := 125

  const NULL_TEXT: Text := [110, 117, 108, 108]
  const TRUE_TEXT: Text := [116, 114, 117, 101]
  const FALSE_TEXT: Text := [102, 97, 108, 115, 101]

  /** No surrogate stands alone. */
  predicate ValidText(t: Text) {
    if t == [] then true
    else if 0xD800 <= t[0] < 0xDC00 then |t| > 1 && 0xDC00 <= t[1] < 0xE000 && ValidText(t[2..])
    else !(0xDC00 <= t[0] < 0xE000) && ValidText(t[1..])
  }

  // -------------------------------------------------------------- printing

  function HexDigit(n: int): Unit
    requires 0 <= n < 16
  {
    if n < 10 then 48 + n else 87 + n
  }

  /** JSON.stringify of one code unit of valid text. */
  function Escape(u: Unit): Text {
    if u == QUOTE || u == BACKSLASH then [BACKSLASH, u]
    else if u == 8 then [BACKSLASH, 98]
    else if u == 9 then [BACKSLASH, 116]
    else if u == 10 then [BACKSLASH, 110]
    else if u == 12 then [BACKSLASH, 102]
    else if u == 13 then [BACKSLASH, 114]
    else if u < 32 then [BACKSLASH, 117, 48, 48, HexDigit(u / 16), HexDigit(u % 16)]
    else [u]
  }

  function EscapeAll(t: Text): Text {
    if t == [] then [] else Escape(t[0]) + EscapeAll(t[1..])
  }

  function Quoted(t: Text): Text { [QUOTE] + EscapeAll(t) + [QUOTE] }

  function Join(parts: seq<Text>): Text {
    if parts == [] then [] else if |parts| == 1 then parts[0] else parts[0] + [COMMA] + Join(parts[1..])
  }

  /** canonicalJSON; `None` is a thrown error. */
  function Canonical(v: Json, depth: nat): Option<Text>
    decreases MAX_DEPTH + 1 - depth, 0
  {
    if depth > MAX_DEPTH then None
    else match v
      case Null => Some(NULL_TEXT)
      case Bool(b) => Some(if b then TRUE_TEXT else FALSE_TEXT)
      case Number(n) => if -MAX_SAFE <= n <= MAX_SAFE then Some(Decimal(n)) else None
      case String(s) => if ValidText(s) then Some(Quoted(s)) else None
      case Array(items) =>
        var parts := CanonicalItems(items, depth + 1);
        if parts.None? then None else Some([OPEN_ARRAY] + Join(parts.value) + [CLOSE_ARRAY])
      case Object(members) =>
        var parts := CanonicalMembers(SortByKey(members), depth + 1);
        if parts.None? then None else Some([OPEN_OBJECT] + Join(parts.value) + [CLOSE_OBJECT])
  }

  function CanonicalItems(items: seq<Json>, depth: nat): Option<seq<Text>>
    requires depth <= MAX_DEPTH + 1
    decreases MAX_DEPTH + 1 - depth, 1 + |items|
  {
    if items == [] then Some([])
    else
      var first := Canonical(items[0], depth);
      var rest := CanonicalItems(items[1..], depth);
      if first.None? || rest.None? then None else Some([first.value] + rest.value)
  }

  function CanonicalMembers(members: seq<(Text, Json)>, depth: nat): Option<seq<Text>>
    requires depth <= MAX_DEPTH + 1
    decreases MAX_DEPTH + 1 - depth, 1 + |members|
  {
    if members == [] then Some([])
    else
      var first := Canonical(members[0].1, depth);
      var rest := CanonicalMembers(members[1..], depth);
      if !ValidText(members[0].0) || first.None? || rest.None? then None
      else Some([Quoted(members[0].0) + [COLON] + first.value] + rest.value)
  }

  // ------------------------------------------------------ what is printed

  function HexValue(u: Unit): Option<int> {
    if 48 <= u <= 57 then Some(u - 48) else if 97 <= u <= 102 then Some(10 + u - 97) else None
  }

  /** One code unit of a JSON string as a reader takes it (section 7 of RFC 8259), for the
      escapes that the printer uses, and what follows it. */
  function ReadUnit(t: Text): Option<(int, Text)> {
    if t == [] || t[0] == QUOTE || t[0] < 32 then None
    else if t[0] != BACKSLASH then Some((t[0], t[1..]))
    else if |t| < 2 then None
    else match t[1]
      case 34 => Some((34, t[2..]))
      case 92 => Some((92, t[2..]))
      case 98 => Some((8, t[2..]))
      case 102 => Some((12, t[2..]))
      case 110 => Some((10, t[2..]))
      case 114 => Some((13, t[2..]))
      case 116 => Some((9, t[2..]))
      case 117 =>
        if |t| < 6 || t[2] != 48 || t[3] != 48 || HexValue(t[4]).None? || HexValue(t[5]).None? then None
        else Some((HexValue(t[4]).value * 16 + HexValue(t[5]).value, t[6..]))
      case _ => None
  }

  /** A reader gets back the unit that was printed, and only control characters, quotes and
      backslashes are escaped. */
  lemma EscapeReadsBack(u: Unit, rest: Text)
    ensures ReadUnit(Escape(u) + rest) == Some((u, rest))
    ensures Escape(u) == [u] <==> u >= 32 && u != 34 && u != 92
  {
    var e := Escape(u);
    assert (e + rest)[|e|..] == rest;
    assert forall i :: 0 <= i < |e| ==> (e + rest)[i] == e[i];
    if u < 32 {
      assert HexValue(HexDigit(u / 16)) == Some(u / 16) && HexValue(HexDigit(u % 16)) == Some(u % 16);
    }
  }

  // -------------------------------------------------------- what is accepted

  predicate High(u: Unit) { 0xD800 <= u < 0xDC00 }

  predicate Low(u: Unit) { 0xDC00 <= u < 0xE000 }

  /** Every surrogate is half of a pair, the high half first. */
  predicate Paired(t: Text) {
    && (forall i :: 0 <= i < |t| && High(t[i]) ==> i + 1 < |t| && Low(t[i + 1]))
    && (forall i :: 0 <= i < |t| && Low(t[i]) ==> i > 0 && High(t[i - 1]))
  }

  /** A text is valid exactly when its surrogates are paired. */
  lemma {:induction false} ValidTextIff(t: Text)
    ensures ValidText(t) <==> Paired(t)
    decreases t
  {
    if t != [] {
      if High(t[0]) {
        if |t| > 1 && Low(t[1]) {
          PairedAfter(t, 2);
          ValidTextIff(t[2..]);
        }
      } else if !Low(t[0]) {
        PairedAfter(t, 1);
        ValidTextIff(t[1..]);
      }
    }
  }

  /** A whole character in front changes nothing. */
  lemma PairedAfter(t: Text, n: nat)
    requires (n == 1 && |t| > 0 && !High(t[0]) && !Low(t[0])) || (n == 2 && |t| > 1 && High(t[0]) && Low(t[1]))
    ensures Paired(t[n..]) <==> Paired(t)
  {
    var rest := t[n..];
    assert forall i :: 0 <= i < |rest| ==> rest[i] == t[i + n];
    if Paired(rest) {
      forall i | 0 <= i < |t| && High(t[i]) ensures i + 1 < |t| && Low(t[i + 1]) {
        if i >= n { assert High(rest[i - n]); }
      }
      forall i | 0 <= i < |t| && Low(t[i]) ensures i > 0 && High(t[i - 1]) {
        if i >= n { assert Low(rest[i - n]); }
      }
    }
    if Paired(t) {
      forall i | 0 <= i < |rest| && Low(rest[i]) ensures i > 0 && High(rest[i - 1]) {
        assert Low(t[i + n]) && High(t[i + n - 1]);
      }
    }
  }

  /** Every text in it, keys included, is paired, and every number is a safe integer. */
  predicate Sound(v: Json) {
    match v
    case Number(n) => -0x1F_FFFF_FFFF_FFFF <= n <= 0x1F_FFFF_FFFF_FFFF
    case String(s) => Paired(s)
    case Array(items) => forall x <- items :: Sound(x)
    case Object(members) => forall m <- members :: Paired(m.0) && Sound(m.1)
    case _ => true
  }

  /** At most `n` arrays and objects are nested around any value in it. */
  predicate Nested(v: Json, n: int) {
    && n >= 0
    && match v
       case Array(items) => forall x <- items :: Nested(x, n - 1)
       case Object(members) => forall m <- members :: Nested(m.1, n - 1)
       case _ => true
  }

  /** The printer accepts exactly such documents, nested 64 deep at most. */
  lemma {:induction false} AcceptedIff(v: Json, depth: nat)
    ensures Canonical(v, depth).Some? <==> Sound(v) && Nested(v, 64 - depth)
    decreases v, 1
  {
    hide Paired, ValidText;
    if depth <= MAX_DEPTH {
      match v
      case String(s) => ValidTextIff(s);
      case Array(items) => ItemsAccepted(v, items, depth + 1);
      case Object(members) =>
        forall m | m in members ensures ValidText(m.0) && Canonical(m.1, depth + 1).Some? <==> Paired(m.0) && Sound(m.1) && Nested(m.1, 63 - depth) {
          AcceptedIff(m.1, depth + 1);
          ValidTextIff(m.0);
        }
        ObjectAccepted(members, depth);
      case _ =>
    }
  }

  lemma ObjectAccepted(members: seq<(Text, Json)>, depth: nat)
    requires depth <= MAX_DEPTH
    ensures Canonical(Object(members), depth).Some? <==> forall m <- members :: ValidText(m.0) && Canonical(m.1, depth + 1).Some?
  {
    hide ValidText;
    CanonicalObject(members, depth);
    MembersAccepted(SortByKey(members), depth + 1);
    hide Canonical, SortByKey;
  }

  lemma {:induction false} ItemsAccepted(v: Json, items: seq<Json>, depth: nat)
    requires depth <= MAX_DEPTH + 1 && forall x <- items :: x < v
    ensures CanonicalItems(items, depth).Some? <==> forall x <- items :: Sound(x) && Nested(x, 64 - depth)
    decreases v, 0, items
  {
    if items != [] {
      assert items[0] in items && forall x <- items[1..] :: x in items;
      AcceptedIff(items[0], depth);
      ItemsAccepted(v, items[1..], depth);
      assert items == [items[0]] + items[1..];
    }
  }

  lemma {:induction false} MembersAccepted(members: seq<(Text, Json)>, depth: nat)
    requires depth <= MAX_DEPTH + 1
    ensures CanonicalMembers(members, depth).Some? <==> forall m <- members :: ValidText(m.0) && Canonical(m.1, depth).Some?
    decreases members
  {
    if members != [] {
      MembersAccepted(members[1..], depth);
      assert members == [members[0]] + members[1..];
    }
  }

  // ----------------------------------------------------------- same document

  /** The same JSON value: arrays agree in order, objects have the same keys with
      the same values, in whatever order they were written. */
  predicate Same(v: Json, w: Json)
    decreases v
  {
    match v
    case Array(xs) => w.Array? && |xs| == |w.items| && forall i :: 0 <= i < |xs| ==> Same(xs[i], w.items[i])
    case Object(ms) =>
      && w.Object?
      && (forall i :: 0 <= i < |ms| ==> Has(w.members, ms[i].0) && Same(ms[i].1, Get(w.members, ms[i].0)))
      && (forall j :: 0 <= j < |w.members| ==> Has(ms, w.members[j].0))
    case _ => v == w
  }

  predicate Has(members: seq<(Text, Json)>, key: Text) { exists i :: 0 <= i < |members| && members[i].0 == key }

  function Get(members: seq<(Text, Json)>, key: Text): (value: Json)
    requires Has(members, key)
    ensures (key, value) in members
  {
    if members[0].0 == key then members[0].1
    else
      assert Has(members[1..], key) by {
        var i :| 0 <= i < |members| && members[i].0 == key;
        assert members[1..][i - 1].0 == key;
      }
      Get(members[1..], key)
  }

  // -------------------------------------------------------------- normal form

  /** The value with every object's members in key order. */
  function Normalize(v: Json): Json
    decreases v, 1
  {
    match v
    case Array(items) => Array(NormalizeItems(items))
    case Object(members) => Object(SortByKey(NormalizeMembers(members)))
    case _ => v
  }

  function NormalizeItems(items: seq<Json>): seq<Json>
    decreases Array(items), 0
  {
    seq(|items|, i requires 0 <= i < |items| => Normalize(items[i]))
  }

  function NormalizeMembers(members: seq<(Text, Json)>): seq<(Text, Json)>
    decreases Object(members), 0
  {
    seq(|members|, i requires 0 <= i < |members| => (members[i].0, Normalize(members[i].1)))
  }

  predicate Normal(v: Json) {
    match v
    case Array(items) => forall x <- items :: Normal(x)
    case Object(members) => StrictlySorted(members) && forall m <- members :: Normal(m.1)
    case _ => true
  }

  lemma {:induction false} NormalizeIsNormal(v: Json)
    requires WellFormed(v)
    ensures Normal(Normalize(v))
  {
    match v
    case Array(items) =>
      var r := NormalizeItems(items);
      forall x | x in r ensures Normal(x) {
        var i :| 0 <= i < |r| && r[i] == x;
        NormalizeIsNormal(items[i]);
      }
    case Object(members) =>
      var r := NormalizeMembers(members);
      SortedByKey(r);
      forall m | m in r ensures Normal(m.1) {
        var i :| 0 <= i < |r| && r[i] == m;
        NormalizeIsNormal(members[i].1);
      }
    case _ =>
  }

  lemma {:induction false} InsertCommutes(m: (Text, Json), sorted: seq<(Text, Json)>)
    ensures NormalizeMembers(Insert(m, sorted)) == Insert((m.0, Normalize(m.1)), NormalizeMembers(sorted))
  {
    if sorted != [] && !Less(m.0, sorted[0].0) {
      InsertCommutes(m, sorted[1..]);
      assert NormalizeMembers(sorted)[1..] == NormalizeMembers(sorted[1..]);
    }
  }

  lemma {:induction false} SortCommutes(members: seq<(Text, Json)>)
    ensures NormalizeMembers(SortByKey(members)) == SortByKey(NormalizeMembers(members))
  {
    if members != [] {
      SortCommutes(members[1..]);
      assert NormalizeMembers(members)[1..] == NormalizeMembers(members[1..]);
      InsertCommutes(members[0], SortByKey(members[1..]));
    }
  }

  lemma SortOfSorted<V(!new)>(sorted: seq<(Text, V)>)
    requires StrictlySorted(sorted)
    ensures SortByKey(sorted) == sorted
  {
  }

  /** The printer only sees the normal form. */
  lemma {:induction false} CanonicalOfNormalForm(v: Json, depth: nat)
    requires WellFormed(v)
    ensures Canonical(Normalize(v), depth) == Canonical(v, depth)
    decreases v, 1
  {
    if depth > MAX_DEPTH {
    } else if v.Array? {
      hide Canonical, CanonicalItems, Join;
      ItemsOfNormalForm(v.items, depth + 1);
      CanonicalArray(v.items, depth);
      CanonicalArray(NormalizeItems(v.items), depth);
    } else if v.Object? {
      forall m | m in v.members ensures Canonical(Normalize(m.1), depth + 1) == Canonical(m.1, depth + 1) {
        CanonicalOfNormalForm(m.1, depth + 1);
      }
      ObjectOfNormalForm(v.members, depth);
    }
  }

  lemma ObjectOfNormalForm(members: seq<(Text, Json)>, depth: nat)
    requires depth <= MAX_DEPTH && DistinctKeys(members)
    requires forall m <- members :: Canonical(Normalize(m.1), depth + 1) == Canonical(m.1, depth + 1)
    ensures Canonical(Normalize(Object(members)), depth) == Canonical(Object(members), depth)
  {
    hide Canonical, CanonicalMembers, NormalizeMembers, SortByKey;
    SortNormalized(members);
    MembersOfNormalForm(SortByKey(members), depth + 1);
    CanonicalObject(members, depth);
    CanonicalObject(SortByKey(NormalizeMembers(members)), depth);
  }

  lemma CanonicalArray(items: seq<Json>, depth: nat)
    requires depth <= MAX_DEPTH
    ensures var parts := CanonicalItems(items, depth + 1);
            Canonical(Array(items), depth) ==
            if parts.None? then None else Some([OPEN_ARRAY] + Join(parts.value) + [CLOSE_ARRAY])
  {}

  lemma CanonicalObject(members: seq<(Text, Json)>, depth: nat)
    requires depth <= MAX_DEPTH
    ensures var parts := CanonicalMembers(SortByKey(members), depth + 1);
            Canonical(Object(members), depth) ==
            if parts.None? then None else Some([OPEN_OBJECT] + Join(parts.value) + [CLOSE_OBJECT])
  {}

  lemma SortNormalized(members: seq<(Text, Json)>)
    requires DistinctKeys(members)
    ensures SortByKey(SortByKey(NormalizeMembers(members))) == NormalizeMembers(SortByKey(members))
  {
    SortedByKey(NormalizeMembers(members));
    SortOfSorted(SortByKey(NormalizeMembers(members)));
    SortCommutes(members);
  }

  lemma {:induction false} ItemsOfNormalForm(items: seq<Json>, depth: nat)
    requires depth <= MAX_DEPTH + 1 && forall x <- items :: WellFormed(x)
    ensures CanonicalItems(NormalizeItems(items), depth) == CanonicalItems(items, depth)
    decreases items, 0
  {
    if items != [] {
      CanonicalOfNormalForm(items[0], depth);
      ItemsOfNormalForm(items[1..], depth);
      assert NormalizeItems(items)[1..] == NormalizeItems(items[1..]);
    }
  }

  lemma {:induction false} MembersOfNormalForm(members: seq<(Text, Json)>, depth: nat)
    requires depth <= MAX_DEPTH + 1
    requires forall m <- members :: Canonical(Normalize(m.1), depth) == Canonical(m.1, depth)
    ensures CanonicalMembers(NormalizeMembers(members), depth) == CanonicalMembers(members, depth)
    decreases |members|
  {
    if members != [] {
      assert members[0] in members;
      MembersOfNormalForm(members[1..], depth);
      assert NormalizeMembers(members)[1..] == NormalizeMembers(members[1..]);
    }
  }

  // ------------------------------------------------------ unambiguous printing

  /** What may follow a printed value. */
  predicate EndsValue(rest: Text) {
    rest == [] || rest[0] == COMMA || rest[0] == CLOSE_ARRAY || rest[0] == CLOSE_OBJECT
  }

  lemma EscapePrefixFree(c: Unit, d: Unit, a: Text, b: Text)
    requires Escape(c) + a == Escape(d) + b
    ensures c == d && a == b
  {
    var text := Escape(c) + a;
    assert text[0] == Escape(c)[0] == Escape(d)[0];
    if |Escape(c)| > 1 {
      assert text[1] == Escape(c)[1] == Escape(d)[1];
      if |Escape(c)| > 2 {
        assert text[4] == Escape(c)[4] == Escape(d)[4];
        assert text[5] == Escape(c)[5] == Escape(d)[5];
      }
    }
    assert a == text[|Escape(c)|..] && b == text[|Escape(d)|..];
  }

  lemma EscapeStart(u: Unit)
    ensures Escape(u) != [] && Escape(u)[0] != QUOTE
  {}

  lemma {:induction false} EscapeAllPrefixFree(s: Text, t: Text, a: Text, b: Text)
    requires EscapeAll(s) + [QUOTE] + a == EscapeAll(t) + [QUOTE] + b
    ensures s == t && a == b
  {
    hide Escape;
    var text := EscapeAll(s) + [QUOTE] + a;
    if s != [] { EscapeStart(s[0]); }
    if t != [] { EscapeStart(t[0]); }
    assert s != [] ==> text[0] == Escape(s[0])[0];
    assert t != [] ==> text[0] == Escape(t[0])[0];
    assert s == [] ==> text[0] == QUOTE;
    assert t == [] ==> text[0] == QUOTE;
    if s == [] {
      assert a == text[1..] == b;
    } else {
      var s', t' := EscapeAll(s[1..]) + [QUOTE] + a, EscapeAll(t[1..]) + [QUOTE] + b;
      assert text == Escape(s[0]) + s' == Escape(t[0]) + t';
      EscapePrefixFree(s[0], t[0], s', t');
      EscapeAllPrefixFree(s[1..], t[1..], a, b);
    }
  }

  lemma QuotedPrefixFree(s: Text, t: Text, a: Text, b: Text)
    requires Quoted(s) + a == Quoted(t) + b
    ensures s == t && a == b
  {
    var text := Quoted(s) + a;
    assert text[1..] == EscapeAll(s) + [QUOTE] + a;
    assert text[1..] == EscapeAll(t) + [QUOTE] + b;
    EscapeAllPrefixFree(s, t, a, b);
  }

  /** Which kind of value a printed text starts. */
  function KindOf(u: Unit): int {
    if u == NULL_TEXT[0] then 0
    else if u == TRUE_TEXT[0] then 1
    else if u == FALSE_TEXT[0] then 2
    else if u == QUOTE then 3
    else if u == OPEN_ARRAY then 4
    else if u == OPEN_OBJECT then 5
    else if u == MINUS || Digit(u) then 6
    else 7
  }

  function Kind(v: Json): int {
    match v
    case Null => 0
    case Bool(b) => if b then 1 else 2
    case String(_) => 3
    case Array(_) => 4
    case Object(_) => 5
    case Number(_) => 6
  }

  lemma FirstUnitTellsKind(v: Json, depth: nat)
    requires Canonical(v, depth).Some?
    ensures var t := Canonical(v, depth).value; t != [] && KindOf(t[0]) == Kind(v)
  {
    if v.Number? && v.n >= 0 {
      assert Digits(v.n)[0] in Digits(v.n);
    }
  }

  /** Printed values can be told apart, and told where they end. */
  lemma {:induction false} CanonicalPrefixFree(v: Json, w: Json, depth: nat, a: Text, b: Text)
    requires Normal(v) && Normal(w) && Canonical(v, depth).Some? && Canonical(w, depth).Some?
    requires EndsValue(a) && EndsValue(b)
    requires Canonical(v, depth).value + a == Canonical(w, depth).value + b
    ensures v == w && a == b
    decreases MAX_DEPTH + 1 - depth, 0
  {
    hide Canonical, CanonicalItems, CanonicalMembers, SortByKey;
    var text := Canonical(v, depth).value + a;
    FirstUnitTellsKind(v, depth);
    FirstUnitTellsKind(w, depth);
    assert text[0] == Canonical(v, depth).value[0] == Canonical(w, depth).value[0];
    CanonicalDepth(v, depth);
    match v
    case Array(items) =>
      CanonicalArray(items, depth);
      CanonicalArray(w.items, depth);
      Unwrap(Join(CanonicalItems(items, depth + 1).value), Join(CanonicalItems(w.items, depth + 1).value),
             OPEN_ARRAY, CLOSE_ARRAY, a, b);
      ItemsPrefixFree(items, w.items, depth + 1, a, b);
    case Object(members) =>
      CanonicalObject(members, depth);
      CanonicalObject(w.members, depth);
      SortOfSorted(members);
      SortOfSorted(w.members);
      Unwrap(Join(CanonicalMembers(members, depth + 1).value), Join(CanonicalMembers(w.members, depth + 1).value),
             OPEN_OBJECT, CLOSE_OBJECT, a, b);
      MembersPrefixFree(members, w.members, depth + 1, a, b);
    case _ => AtomPrefixFree(v, w, depth, a, b);
  }

  lemma CanonicalDepth(v: Json, depth: nat)
    requires Canonical(v, depth).Some?
    ensures depth <= MAX_DEPTH
  {}

  lemma Unwrap(p: Text, q: Text, open: Unit, close: Unit, a: Text, b: Text)
    requires [open] + p + [close] + a == [open] + q + [close] + b
    ensures p + [close] + a == q + [close] + b
  {
    var text := [open] + p + [close] + a;
    assert text[1..] == p + [close] + a;
    assert text[1..] == q + [close] + b;
  }

  lemma AtomPrefixFree(v: Json, w: Json, depth: nat, a: Text, b: Text)
    requires !v.Array? && !v.Object? && Kind(v) == Kind(w)
    requires Canonical(v, depth).Some? && Canonical(w, depth).Some?
    requires EndsValue(a) && EndsValue(b)
    requires Canonical(v, depth).value + a == Canonical(w, depth).value + b
    ensures v == w && a == b
  {
    var text := Canonical(v, depth).value + a;
    match v
    case Null => assert a == text[|NULL_TEXT|..] == b;
    case Bool(x) => assert a == text[|Canonical(v, depth).value|..] == b;
    case Number(n) => DecimalPrefixFree(n, w.n, a, b);
    case String(s) => QuotedPrefixFree(s, w.s, a, b);
  }

  /** What follows the first of a list of printed parts. */
  function AfterFirst(parts: seq<Text>, close: Unit, rest: Text): Text
    requires parts != []
  {
    if |parts| == 1 then [close] + rest else [COMMA] + Join(parts[1..]) + [close] + rest
  }

  lemma JoinSplits(parts: seq<Text>, close: Unit, rest: Text)
    requires parts != []
    ensures Join(parts) + [close] + rest == parts[0] + AfterFirst(parts, close, rest)
  {}

  lemma AfterFirstSplits(p: seq<Text>, q: seq<Text>, close: Unit, a: Text, b: Text)
    requires p != [] && q != [] && close != COMMA
    requires AfterFirst(p, close, a) == AfterFirst(q, close, b)
    ensures |p| == 1 <==> |q| == 1
    ensures |p| == 1 ==> a == b
    ensures |p| > 1 ==> Join(p[1..]) + [close] + a == Join(q[1..]) + [close] + b
  {
    var text := AfterFirst(p, close, a);
    assert text[0] == if |p| == 1 then close else COMMA;
    assert text[0] == if |q| == 1 then close else COMMA;
    if |p| == 1 {
      assert a == text[1..] == b;
    } else {
      assert text[1..] == Join(p[1..]) + [close] + a;
      assert text[1..] == Join(q[1..]) + [close] + b;
    }
  }

  lemma {:induction false} ItemsPrefixFree(xs: seq<Json>, ys: seq<Json>, depth: nat, a: Text, b: Text)
    requires depth <= MAX_DEPTH + 1
    requires (forall x <- xs :: Normal(x)) && (forall y <- ys :: Normal(y))
    requires CanonicalItems(xs, depth).Some? && CanonicalItems(ys, depth).Some?
    requires Join(CanonicalItems(xs, depth).value) + [CLOSE_ARRAY] + a ==
             Join(CanonicalItems(ys, depth).value) + [CLOSE_ARRAY] + b
    ensures xs == ys && a == b
    decreases MAX_DEPTH + 1 - depth, 1 + |xs|
  {
    hide Canonical, Normal;
    var p, q := CanonicalItems(xs, depth).value, CanonicalItems(ys, depth).value;
    var text := Join(p) + [CLOSE_ARRAY] + a;
    if xs != [] { FirstUnitTellsKind(xs[0], depth); JoinSplits(p, CLOSE_ARRAY, a); }
    if ys != [] { FirstUnitTellsKind(ys[0], depth); JoinSplits(q, CLOSE_ARRAY, b); }
    assert xs == [] ==> text[0] == CLOSE_ARRAY;
    assert ys == [] ==> text[0] == CLOSE_ARRAY;
    assert xs != [] ==> text[0] == p[0][0];
    assert ys != [] ==> text[0] == q[0][0];
    if xs == [] {
      assert a == text[1..] == b;
    } else {
      CanonicalPrefixFree(xs[0], ys[0], depth, AfterFirst(p, CLOSE_ARRAY, a), AfterFirst(q, CLOSE_ARRAY, b));
      AfterFirstSplits(p, q, CLOSE_ARRAY, a, b);
      if |xs| > 1 {
        ItemsPrefixFree(xs[1..], ys[1..], depth, a, b);
      }
      assert xs == [xs[0]] + xs[1..] && ys == [ys[0]] + ys[1..];
    }
  }

  lemma {:induction false} MembersPrefixFree(xs: seq<(Text, Json)>, ys: seq<(Text, Json)>, depth: nat, a: Text, b: Text)
    requires depth <= MAX_DEPTH + 1
    requires (forall x <- xs :: Normal(x.1)) && (forall y <- ys :: Normal(y.1))
    requires CanonicalMembers(xs, depth).Some? && CanonicalMembers(ys, depth).Some?
    requires Join(CanonicalMembers(xs, depth).value) + [CLOSE_OBJECT] + a ==
             Join(CanonicalMembers(ys, depth).value) + [CLOSE_OBJECT] + b
    ensures xs == ys && a == b
    decreases MAX_DEPTH + 1 - depth, 1 + |xs|
  {
    hide Canonical, Normal, Quoted, Join, AfterFirst;
    var p, q := CanonicalMembers(xs, depth).value, CanonicalMembers(ys, depth).value;
    EmptyOrQuoted(xs, depth, a);
    EmptyOrQuoted(ys, depth, b);
    var text := Join(p) + [CLOSE_OBJECT] + a;
    if xs == [] {
      assert a == text[1..] == b by { JoinEmpty(); }
    } else {
      JoinSplits(p, CLOSE_OBJECT, a);
      JoinSplits(q, CLOSE_OBJECT, b);
      var a', b' := AfterFirst(p, CLOSE_OBJECT, a), AfterFirst(q, CLOSE_OBJECT, b);
      AfterFirstEnds(p, CLOSE_OBJECT, a);
      AfterFirstEnds(q, CLOSE_OBJECT, b);
      MemberPrefixFree(xs[0].0, ys[0].0, Canonical(xs[0].1, depth).value, Canonical(ys[0].1, depth).value, a', b');
      CanonicalPrefixFree(xs[0].1, ys[0].1, depth, a', b');
      AfterFirstSplits(p, q, CLOSE_OBJECT, a, b);
      if |xs| > 1 {
        MembersPrefixFree(xs[1..], ys[1..], depth, a, b);
      }
      assert xs == [xs[0]] + xs[1..] && ys == [ys[0]] + ys[1..];
    }
  }

  lemma JoinEmpty()
    ensures Join([]) == []
  {}

  lemma AfterFirstEnds(parts: seq<Text>, close: Unit, rest: Text)
    requires parts != [] && (close == CLOSE_ARRAY || close == CLOSE_OBJECT)
    ensures EndsValue(AfterFirst(parts, close, rest))
  {}

  /** A closing brace tells an empty object from one with members. */
  lemma EmptyOrQuoted(xs: seq<(Text, Json)>, depth: nat, a: Text)
    requires depth <= MAX_DEPTH + 1 && CanonicalMembers(xs, depth).Some?
    ensures var text := Join(CanonicalMembers(xs, depth).value) + [CLOSE_OBJECT] + a;
            text[0] == if xs == [] then CLOSE_OBJECT else QUOTE
  {
  }

  lemma MemberPrefixFree(k: Text, l: Text, v: Text, w: Text, a: Text, b: Text)
    requires (Quoted(k) + [COLON] + v) + a == (Quoted(l) + [COLON] + w) + b
    ensures k == l && v + a == w + b
  {
    hide Quoted;
    assert (Quoted(k) + [COLON] + v) + a == Quoted(k) + ([COLON] + v + a);
    assert (Quoted(l) + [COLON] + w) + b == Quoted(l) + ([COLON] + w + b);
    QuotedPrefixFree(k, l, [COLON] + v + a, [COLON] + w + b);
    assert ([COLON] + v + a)[1..] == v + a;
    assert ([COLON] + w + b)[1..] == w + b;
  }

  // ------------------------------------------------------------- main results

  lemma GetAt(members: seq<(Text, Json)>, j: nat)
    requires DistinctKeys(members) && j < |members|
    ensures Has(members, members[j].0) && Get(members, members[j].0) == members[j].1
  {
  }

  lemma {:induction false} SameNormalForm(v: Json, w: Json)
    requires WellFormed(v) && WellFormed(w) && Same(v, w)
    ensures Normalize(v) == Normalize(w)
    decreases v
  {
    match v
    case Array(xs) =>
      forall i | 0 <= i < |xs| ensures Normalize(xs[i]) == Normalize(w.items[i]) {
        SameNormalForm(xs[i], w.items[i]);
      }
    case Object(ms) =>
      var r, t := NormalizeMembers(ms), NormalizeMembers(w.members);
      forall i | 0 <= i < |ms| ensures r[i] in t {
        var value := Get(w.members, ms[i].0);
        var j :| 0 <= j < |w.members| && w.members[j] == (ms[i].0, value);
        assert w.members[j] in w.members && ms[i] in ms;
        SameNormalForm(ms[i].1, value);
        assert t[j] == r[i];
      }
      forall j | 0 <= j < |t| ensures t[j] in r {
        var i :| 0 <= i < |ms| && ms[i].0 == w.members[j].0;
        GetAt(w.members, j);
        assert w.members[j] in w.members && ms[i] in ms;
        SameNormalForm(ms[i].1, w.members[j].1);
        assert r[i] == t[j];
      }
      SameEntriesSortAlike(r, t);
    case _ =>
  }

  lemma SameEntriesSortAlike<V(!new)>(r: seq<(Text, V)>, t: seq<(Text, V)>)
    requires DistinctKeys(r) && DistinctKeys(t)
    requires (forall i :: 0 <= i < |r| ==> r[i] in t) && (forall j :: 0 <= j < |t| ==> t[j] in r)
    ensures SortByKey(r) == SortByKey(t)
  {
    SortedByKey(r);
    SortedByKey(t);
    SortedUnique(SortByKey(r), SortByKey(t));
  }

  lemma {:induction false} NormalFormSame(v: Json, w: Json)
    requires WellFormed(v) && WellFormed(w) && Normalize(v) == Normalize(w)
    ensures Same(v, w)
    decreases v
  {
    hide SortByKey, Less;
    match v
    case Array(xs) =>
      assert NormalizeItems(xs) == NormalizeItems(w.items);
      forall i | 0 <= i < |xs| ensures Same(xs[i], w.items[i]) {
        assert NormalizeItems(xs)[i] == NormalizeItems(w.items)[i];
        NormalFormSame(xs[i], w.items[i]);
      }
    case Object(ms) =>
      var r, t := NormalizeMembers(ms), NormalizeMembers(w.members);
      assert SortByKey(r) == SortByKey(t);
      forall i | 0 <= i < |ms| ensures Has(w.members, ms[i].0) && Same(ms[i].1, Get(w.members, ms[i].0)) {
        assert r[i] in SortByKey(r) && r[i] in t;
        var j :| 0 <= j < |t| && t[j] == r[i];
        GetAt(w.members, j);
        assert w.members[j] in w.members && ms[i] in ms;
        NormalFormSame(ms[i].1, w.members[j].1);
      }
      forall j | 0 <= j < |w.members| ensures Has(ms, w.members[j].0) {
        assert t[j] in SortByKey(t) && t[j] in r;
        var i :| 0 <= i < |r| && r[i] == t[j];
        assert ms[i].0 == w.members[j].0;
      }
    case _ =>
  }

  /** Completeness: values that differ only in member order are accepted or rejected
      together and print alike. */
  lemma SamePrintsAlike(v: Json, w: Json, depth: nat)
    requires WellFormed(v) && WellFormed(w) && Same(v, w)
    ensures Canonical(v, depth) == Canonical(w, depth)
  {
    SameNormalForm(v, w);
    CanonicalOfNormalForm(v, depth);
    CanonicalOfNormalForm(w, depth);
  }

  /** canonicalJSON is an exact equality test on everything it accepts. */
  lemma CanonicalIsEqualityTest(v: Json, w: Json, depth: nat)
    requires WellFormed(v) && WellFormed(w)
    requires Canonical(v, depth).Some? && Canonical(w, depth).Some?
    ensures Canonical(v, depth) == Canonical(w, depth) <==> Same(v, w)
  {
    if Same(v, w) { SamePrintsAlike(v, w, depth); }
    if Canonical(v, depth) == Canonical(w, depth) {
      NormalizeIsNormal(v);
      NormalizeIsNormal(w);
      CanonicalOfNormalForm(v, depth);
      CanonicalOfNormalForm(w, depth);
      CanonicalPrefixFree(Normalize(v), Normalize(w), depth, [], []);
      NormalFormSame(v, w);
    }
  }

  /** So two documents are accepted and print alike exactly when they are sound, not too
      deep, and the same. */
  lemma PrintAlikeIff(v: Json, w: Json)
    requires WellFormed(v) && WellFormed(w)
    ensures Canonical(v, 0).Some? && Canonical(w, 0).Some? && Canonical(v, 0) == Canonical(w, 0) <==>
            Same(v, w) && Sound(v) && Nested(v, 64) && Sound(w) && Nested(w, 64)
  {
    hide Canonical, Sound, Nested, Same, WellFormed;
    AcceptedIff(v, 0);
    AcceptedIff(w, 0);
    if Canonical(v, 0).Some? && Canonical(w, 0).Some? {
      CanonicalIsEqualityTest(v, w, 0);
    }
  }
}
