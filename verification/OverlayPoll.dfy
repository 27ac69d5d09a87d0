/** The policy-overlay change detector: a fingerprint of the stored grants and
    mandatory-approval rules, and the poll loop that reloads when it changes. */
module OverlayPoll {
  import opened Common
  import opened Texts

  /** A stored row, as far as change detection looks at it. */
  datatype OverlayRow = OverlayRow(id: Text, updatedAt: int)

  const BAR: Unit := 124
  const ZERO: Text := [48]
  const GRANTS_TAG: Text := [103, 58]       // g:
  const RULES_TAG: Text := [124, 109, 58]   // |m:

  // ------------------------------------------------------------- fingerprint

  /** Rows without an identifier are skipped. */
  function Identified(rows: seq<OverlayRow>): seq<Text> {
    if rows == [] then []
    else
      var front := Identified(rows[..|rows| - 1]);
      var last := rows[|rows| - 1];
      if last.id == [] then front else front + [last.id]
  }

  /** What the table says: identifier to update time, the last row winning. */
  function ByID(rows: seq<OverlayRow>): (m: map<Text, int>)
    ensures forall id :: id in m <==> id in Identified(rows)
  {
    if rows == [] then map[]
    else
      var front := ByID(rows[..|rows| - 1]);
      var last := rows[|rows| - 1];
      if last.id == [] then front else front[last.id := last.updatedAt]
  }

  function Paired(ids: seq<Text>, byID: map<Text, int>): seq<(Text, int)>
    requires forall id <- ids :: id in byID
  {
    seq(|ids|, i requires 0 <= i < |ids| => assert ids[i] in ids; (ids[i], byID[ids[i]]))
  }

  function Lines(entries: seq<(Text, int)>): Text {
    if entries == [] then []
    else Lines(entries[..|entries| - 1]) + Line(entries[|entries| - 1])
  }

  function Line(entry: (Text, int)): Text { [BAR] + (entry.0 + ([BAR] + Decimal(entry.1))) }

  function FingerprintOf(rows: seq<OverlayRow>): Text {
    if rows == [] then ZERO
    else
      var entries := SortByKey(Paired(Identified(rows), ByID(rows)));
      Digits(|entries|) + Lines(entries)
  }

  method Collect(rows: seq<OverlayRow>) returns (ids: seq<Text>, byID: map<Text, int>)
    ensures ids == Identified(rows) && byID == ByID(rows)
  {
    ids, byID := [], map[];
    for i := 0 to |rows|
      invariant ids == Identified(rows[..i]) && byID == ByID(rows[..i])
    {
      assert rows[..i + 1][..i] == rows[..i];
      if rows[i].id != [] {
        ids := ids + [rows[i].id];
        byID := byID[rows[i].id := rows[i].updatedAt];
      }
    }
    assert rows[..|rows|] == rows;
  }

  /** The fingerprint as the source builds it. */
  method Fingerprint(rows: seq<OverlayRow>) returns (text: Text)
    ensures text == FingerprintOf(rows)
  {
    hide Line, Digits, SortByKey, Identified, ByID;
    if |rows| == 0 { return ZERO; }
    var ids, byID := Collect(rows);
    var entries := SortByKey(Paired(ids, byID));
    text := Digits(|ids|);
    var count := text;
    for i := 0 to |entries|
      invariant text == count + Lines(entries[..i])
    {
      assert entries[..i + 1][..i] == entries[..i];
      Assoc(count, Lines(entries[..i]), Line(entries[i]));
      text := text + Line(entries[i]);
    }
    assert entries[..|entries|] == entries;
  }

  function Combined(grants: seq<OverlayRow>, rules: seq<OverlayRow>): Text {
    GRANTS_TAG + FingerprintOf(grants) + RULES_TAG + FingerprintOf(rules)
  }

  // -------------------------------------------------------------- injectivity

  predicate StartsBar(rest: Text) { rest == [] || rest[0] == BAR }

  /** `id` reads as an identifier `x`, a time `t`, and what follows. */
  predicate Spells(id: Text, x: Text, t: int, rest: Text) {
    x != [] && StartsBar(rest) && id == x + ([BAR] + (Decimal(t) + rest))
  }

  /** After some separator in the identifier comes a decimal, up to the next
      separator or the end. Without a separator there is none. */
  ghost predicate Ambiguous(id: Text) { exists x, t, rest :: Spells(id, x, t, rest) }

  /** Stored rows have distinct identifiers, and none of them spells out an entry. */
  ghost predicate Stored(rows: seq<OverlayRow>) {
    && (forall i, j :: 0 <= i < j < |rows| ==> rows[i].id != rows[j].id)
    && (forall r <- rows :: !Ambiguous(r.id))
  }

  lemma PlainIsUnambiguous(id: Text)
    requires BAR !in id
    ensures !Ambiguous(id)
  {
    forall x, t, rest ensures !Spells(id, x, t, rest) {
      assert (x + ([BAR] + (Decimal(t) + rest)))[|x|] == BAR;
      assert BAR in x + ([BAR] + (Decimal(t) + rest));
    }
  }

  lemma NoBarInDecimal(t: int)
    ensures BAR !in Decimal(t)
  {
    hide Digits;
  }

  /** If two entries print alike, the longer identifier spells out the shorter entry. */
  lemma ShorterIsSpelled(e: (Text, int), f: (Text, int), a: Text, b: Text)
    requires e.0 != [] && |e.0| < |f.0| && StartsBar(a)
    requires e.0 + ([BAR] + (Decimal(e.1) + a)) == f.0 + ([BAR] + (Decimal(f.1) + b))
    ensures Ambiguous(f.0)
  {
    hide Decimal;
    NoBarInDecimal(e.1);
    var n, d := |e.0|, Decimal(e.1);
    var m := n + 1 + |d|;
    var text := f.0 + ([BAR] + (Decimal(f.1) + b));
    assert text == e.0 + ([BAR] + (d + a));
    assert forall i :: n + 1 <= i < m ==> text[i] == d[i - n - 1] && d[i - n - 1] in d;
    assert text[|f.0|] == BAR && |f.0| >= m;
    assert f.0 == text[..|f.0|] && text[..n] == e.0 && text[n] == BAR && text[n + 1..m] == d;
    assert m < |text| && text[m] == a[0];
    assert f.0[..n] == e.0 && f.0[n] == BAR && f.0[n + 1..m] == d;
    assert f.0 == f.0[..n] + ([f.0[n]] + (f.0[n + 1..m] + f.0[m..]));
    assert Spells(f.0, e.0, e.1, f.0[m..]);
  }

  lemma LinePrefixFree(e: (Text, int), f: (Text, int), a: Text, b: Text)
    requires e.0 != [] && f.0 != [] && !Ambiguous(e.0) && !Ambiguous(f.0) && StartsBar(a) && StartsBar(b)
    requires Line(e) + a == Line(f) + b
    ensures e == f && a == b
  {
    hide Decimal, Ambiguous;
    LineThen(e, a);
    LineThen(f, b);
    var x, y := Decimal(e.1) + a, Decimal(f.1) + b;
    DropFirst([BAR], e.0 + ([BAR] + x), f.0 + ([BAR] + y));
    if |e.0| < |f.0| {
      ShorterIsSpelled(e, f, a, b);
      assert false;
    } else if |f.0| < |e.0| {
      ShorterIsSpelled(f, e, b, a);
      assert false;
    } else {
      SameLength(e.0, f.0, [BAR] + x, [BAR] + y);
      DropFirst([BAR], x, y);
      DecimalPrefixFree(e.1, f.1, a, b);
    }
  }

  lemma SameLength(x: Text, y: Text, a: Text, b: Text)
    requires |x| == |y| && x + a == y + b
    ensures x == y && a == b
  {
    assert x == (x + a)[..|x|] && y == (y + b)[..|y|];
    assert a == (x + a)[|x|..] && b == (y + b)[|y|..];
  }

  lemma LineThen(e: (Text, int), a: Text)
    ensures Line(e) + a == [BAR] + (e.0 + ([BAR] + (Decimal(e.1) + a)))
  {
  }

  ghost predicate CleanIDs(entries: seq<(Text, int)>) { forall e <- entries :: e.0 != [] && !Ambiguous(e.0) }

  lemma {:induction false} LinesFirst(entries: seq<(Text, int)>)
    requires entries != []
    ensures Lines(entries) == Line(entries[0]) + Lines(entries[1..])
  {
    hide Line;
    if |entries| == 1 {
      assert entries[..0] == [] && entries[1..] == [];
    } else {
      var front := entries[..|entries| - 1];
      LinesFirst(front);
      assert front[1..] == entries[1..][..|entries| - 2];
      Assoc(Line(entries[0]), Lines(front[1..]), Line(entries[|entries| - 1]));
    }
  }

  lemma {:induction false} LinesPrefixFree(p: seq<(Text, int)>, q: seq<(Text, int)>, a: Text, b: Text)
    requires |p| == |q| && CleanIDs(p) && CleanIDs(q) && StartsBar(a) && StartsBar(b)
    requires Lines(p) + a == Lines(q) + b
    ensures p == q && a == b
    decreases |p|
  {
    hide Line;
    if p == [] {
      DropFirst([], a, b);
    } else {
      hide Lines;
      LinesFirst(p);
      LinesFirst(q);
      LinesStartBar(p[1..], a);
      LinesStartBar(q[1..], b);
      Assoc(Line(p[0]), Lines(p[1..]), a);
      Assoc(Line(q[0]), Lines(q[1..]), b);
      assert p[0] in p && q[0] in q;
      LinePrefixFree(p[0], q[0], Lines(p[1..]) + a, Lines(q[1..]) + b);
      LinesPrefixFree(p[1..], q[1..], a, b);
      assert p == [p[0]] + p[1..] && q == [q[0]] + q[1..];
    }
  }

  lemma LinesStartBar(p: seq<(Text, int)>, a: Text)
    requires StartsBar(a)
    ensures StartsBar(Lines(p) + a)
  {
  }

  function Entries(rows: seq<OverlayRow>): seq<(Text, int)> {
    SortByKey(Paired(Identified(rows), ByID(rows)))
  }

  lemma FingerprintFromEntries(rows: seq<OverlayRow>)
    ensures FingerprintOf(rows) == Digits(|Entries(rows)|) + Lines(Entries(rows))
  {}

  lemma {:induction false} IdentifiedStored(rows: seq<OverlayRow>)
    requires Stored(rows)
    ensures forall id :: id in Identified(rows) ==> id != [] && exists r <- rows :: r.id == id
    ensures forall i, j :: 0 <= i < j < |Identified(rows)| ==> Identified(rows)[i] != Identified(rows)[j]
  {
    if rows != [] {
      var front := rows[..|rows| - 1];
      var last := rows[|rows| - 1];
      IdentifiedStored(front);
      assert rows == front + [last];
      forall i | 0 <= i < |Identified(front)| ensures Identified(front)[i] != last.id {
        assert Identified(front)[i] in Identified(front);
        var r :| r in front && r.id == Identified(front)[i];
        var k :| 0 <= k < |front| && front[k] == r;
        assert rows[k] == r;
      }
    }
  }

  lemma EntriesSorted(rows: seq<OverlayRow>)
    requires Stored(rows)
    ensures StrictlySorted(Entries(rows)) && CleanIDs(Entries(rows))
    ensures forall e :: e in Entries(rows) <==> e.0 in ByID(rows) && ByID(rows)[e.0] == e.1
  {
    IdentifiedStored(rows);
    var ids, byID := Identified(rows), ByID(rows);
    var pairs := Paired(ids, byID);
    SortedByKey(pairs);
    forall e ensures e in pairs <==> e.0 in byID && byID[e.0] == e.1 {
      if e.0 in byID && byID[e.0] == e.1 {
        var i :| 0 <= i < |ids| && ids[i] == e.0;
        assert pairs[i] == e;
      }
    }
    forall e | e in Entries(rows) ensures e.0 != [] && !Ambiguous(e.0) {
      assert e.0 in ids;
      var r :| r in rows && r.id == e.0;
    }
  }

  /** Two fingerprints followed by anything that starts with the separator agree
      exactly when the tables they were taken from agree. */
  lemma FingerprintPrefixFree(r: seq<OverlayRow>, t: seq<OverlayRow>, a: Text, b: Text)
    requires Stored(r) && Stored(t) && StartsBar(a) && StartsBar(b)
    requires FingerprintOf(r) + a == FingerprintOf(t) + b
    ensures ByID(r) == ByID(t) && a == b
  {
    var p, q := Entries(r), Entries(t);
    hide Entries, Lines, FingerprintOf, ByID;
    EntriesSorted(r);
    EntriesSorted(t);
    FingerprintFromEntries(r);
    FingerprintFromEntries(t);
    LinesStartBar(p, a);
    LinesStartBar(q, b);
    assert FingerprintOf(r) + a == Digits(|p|) + (Lines(p) + a);
    assert FingerprintOf(t) + b == Digits(|q|) + (Lines(q) + b);
    DigitsPrefixFree(|p|, |q|, Lines(p) + a, Lines(q) + b);
    LinesPrefixFree(p, q, a, b);
    var m, n := ByID(r), ByID(t);
    assert forall id | id in m :: (id, m[id]) in p;
    assert forall id | id in n :: (id, n[id]) in q;
  }

  lemma SameTableSameFingerprint(r: seq<OverlayRow>, t: seq<OverlayRow>)
    requires Stored(r) && Stored(t) && ByID(r) == ByID(t)
    ensures FingerprintOf(r) == FingerprintOf(t)
  {
    EntriesSorted(r);
    EntriesSorted(t);
    SortedUnique(Entries(r), Entries(t));
    FingerprintFromEntries(r);
    FingerprintFromEntries(t);
  }

  /** The combined fingerprint changes exactly when a grant or a rule was added,
      removed or updated, whatever order the rows are listed in. */
  lemma CombinedDetectsEveryChange(g: seq<OverlayRow>, m: seq<OverlayRow>, g': seq<OverlayRow>, m': seq<OverlayRow>)
    requires Stored(g) && Stored(m) && Stored(g') && Stored(m')
    ensures Combined(g, m) == Combined(g', m') <==> ByID(g) == ByID(g') && ByID(m) == ByID(m')
  {
    hide FingerprintOf, ByID;
    if ByID(g) == ByID(g') && ByID(m) == ByID(m') {
      SameTableSameFingerprint(g, g');
      SameTableSameFingerprint(m, m');
    }
    if Combined(g, m) == Combined(g', m') {
      var a, b := RULES_TAG + FingerprintOf(m), RULES_TAG + FingerprintOf(m');
      CombinedSplits(g, m);
      CombinedSplits(g', m');
      DropFirst(GRANTS_TAG, FingerprintOf(g) + a, FingerprintOf(g') + b);
      FingerprintPrefixFree(g, g', a, b);
      DropFirst(RULES_TAG, FingerprintOf(m), FingerprintOf(m'));
      FingerprintPrefixFree(m, m', [], []);
    }
  }

  lemma CombinedSplits(g: seq<OverlayRow>, m: seq<OverlayRow>)
    ensures Combined(g, m) == GRANTS_TAG + (FingerprintOf(g) + (RULES_TAG + FingerprintOf(m)))
  {
  }

  // --------------------------------------------------------------- poll loop

  datatype Snapshot = Snapshot(grants: seq<OverlayRow>, rules: seq<OverlayRow>)

  predicate Same(s: Snapshot, t: Snapshot) { ByID(s.grants) == ByID(t.grants) && ByID(s.rules) == ByID(t.rules) }

  /** The snapshot most recently read, if any read succeeded. */
  function LastRead(seed: Option<Snapshot>, ticks: seq<Option<Snapshot>>): Option<Snapshot> {
    if ticks == [] then seed
    else if ticks[|ticks| - 1].Some? then ticks[|ticks| - 1]
    else LastRead(seed, ticks[..|ticks| - 1])
  }

  ghost predicate StoredSnapshot(s: Snapshot) { Stored(s.grants) && Stored(s.rules) }

  /** The poll loop over a history of reads, each of which may fail: it reloads on
      exactly the ticks that read something different from the last successful read. */
  method Poll(seed: Option<Snapshot>, ticks: seq<Option<Snapshot>>) returns (reloads: seq<bool>)
    requires seed.Some? ==> StoredSnapshot(seed.value)
    requires forall t <- ticks :: t.Some? ==> StoredSnapshot(t.value)
    ensures |reloads| == |ticks|
    ensures forall k :: 0 <= k < |ticks| ==>
              var last := LastRead(seed, ticks[..k]);
              reloads[k] <==> ticks[k].Some? && (last.None? || !Same(last.value, ticks[k].value))
  {
    hide Combined, FingerprintOf, ByID;
    var current: Text := [];
    if seed.Some? { current := Combined(seed.value.grants, seed.value.rules); }
    reloads := [];
    for k := 0 to |ticks|
      invariant |reloads| == k
      invariant var last := LastRead(seed, ticks[..k]);
                && (last.Some? ==> StoredSnapshot(last.value) && current == Combined(last.value.grants, last.value.rules))
                && (last.None? ==> current == [])
      invariant forall j :: 0 <= j < k ==>
                  var last := LastRead(seed, ticks[..j]);
                  reloads[j] <==> ticks[j].Some? && (last.None? || !Same(last.value, ticks[j].value))
    {
      assert ticks[..k + 1][..k] == ticks[..k];
      var reload := false;
      if ticks[k].Some? {
        var next := Combined(ticks[k].value.grants, ticks[k].value.rules);
        CombinedSplits(ticks[k].value.grants, ticks[k].value.rules);
        assert ticks[k] in ticks;
        ghost var last := LastRead(seed, ticks[..k]);
        if last.Some? {
          CombinedDetectsEveryChange(last.value.grants, last.value.rules, ticks[k].value.grants, ticks[k].value.rules);
        }
        reload := next != current;
        current := next;
      }
      reloads := reloads + [reload];
    }
  }

  // ------------------------------------------------------------ ambiguity

  /** What follows `x` and its time when `id`, which spells them out, is followed by
      its own time `u` and by `z`: it reads as one more identifier. */
  function Remainder(rest: Text, u: int, z: Text): Text
    requires StartsBar(rest)
  {
    (rest + ([BAR] + (Decimal(u) + ([BAR] + z))))[1..]
  }

  lemma LinesRegroup(id: Text, x: Text, t: int, rest: Text, u: int, z: Text, v: int)
    requires Spells(id, x, t, rest)
    ensures Line((id, u)) + Line((z, v)) == Line((x, t)) + Line((Remainder(rest, u, z), v))
  {
    hide Decimal;
    var tail := rest + ([BAR] + (Decimal(u) + ([BAR] + z)));
    assert tail[0] == BAR && tail == [BAR] + tail[1..];
    var end := [BAR] + Decimal(v);
    assert Line((id, u)) + Line((z, v)) == [BAR] + (x + ([BAR] + (Decimal(t) + (tail + end))));
    assert Line((x, t)) + ([BAR] + (tail[1..] + end)) == [BAR] + (x + ([BAR] + (Decimal(t) + ([BAR] + (tail[1..] + end)))));
    assert [BAR] + (tail[1..] + end) == tail + end;
  }

  /** Every such identifier hides a change: with any row listed after it, the table
      has the fingerprint of another one, provided that one lists its two
      identifiers in the same order. */
  lemma AmbiguousIdentifierHidesChange(id: Text, x: Text, t: int, rest: Text, u: int, z: Text, v: int)
    requires Spells(id, x, t, rest) && Less(id, z) && z != [] && Less(x, Remainder(rest, u, z))
    ensures var r := [OverlayRow(id, u), OverlayRow(z, v)];
            var s := [OverlayRow(x, t), OverlayRow(Remainder(rest, u, z), v)];
            ByID(r) != ByID(s) && FingerprintOf(r) == FingerprintOf(s)
  {
    hide Line, FingerprintOf, ByID, Identified, Decimal;
    var second := Remainder(rest, u, z);
    assert id != [] && x != [] && |second| > |z| > 0 && |id| > |x|;
    TwoRows(OverlayRow(id, u), OverlayRow(z, v));
    TwoRows(OverlayRow(x, t), OverlayRow(second, v));
    LinesRegroup(id, x, t, rest, u, z, v);
    assert z in ByID([OverlayRow(id, u), OverlayRow(z, v)]) && id in ByID([OverlayRow(id, u), OverlayRow(z, v)]);
    assert id != x && z != second;
    if id == second && z == x { LessTotal(x, id); LessTotal(id, z); }
  }

  /** For example the identifier `a|1|b`. */
  lemma SeparatorInIdentifierHidesChange()
    ensures var id: Text := [97] + ([BAR] + (Decimal(1) + [BAR, 98]));
            var other := Remainder([BAR, 98], 2, [99]);
            var r := [OverlayRow(id, 2), OverlayRow([99], 3)];
            var s := [OverlayRow([97], 1), OverlayRow(other, 3)];
            ByID(r) != ByID(s) && FingerprintOf(r) == FingerprintOf(s)
  {
    hide Decimal, FingerprintOf, ByID;
    var id: Text := [97] + ([BAR] + (Decimal(1) + [BAR, 98]));
    assert Spells(id, [97], 1, [BAR, 98]);
    assert Less(id, [99]) by { assert id[0] == 97; }
    assert Less([97], Remainder([BAR, 98], 2, [99])) by {
      assert Remainder([BAR, 98], 2, [99])[0] == 98;
    }
    AmbiguousIdentifierHidesChange(id, [97], 1, [BAR, 98], 2, [99], 3);
  }

  lemma TwoRows(x: OverlayRow, y: OverlayRow)
    requires x.id != [] && y.id != [] && Less(x.id, y.id)
    ensures Identified([x, y]) == [x.id, y.id]
    ensures ByID([x, y]) == map[x.id := x.updatedAt, y.id := y.updatedAt]
    ensures FingerprintOf([x, y]) == Digits(2) + (Line((x.id, x.updatedAt)) + Line((y.id, y.updatedAt)))
  {
    LessTotal(x.id, y.id);
    LessTotal(x.id, x.id);
    assert [x, y][..1] == [x] && [x][..0] == [];
    assert Identified([x][..0]) == [] && ByID([x][..0]) == map[];
    assert Identified([x]) == [x.id] && ByID([x]) == map[x.id := x.updatedAt];
    var p, q := (x.id, x.updatedAt), (y.id, y.updatedAt);
    assert Paired([x.id, y.id], ByID([x, y])) == [p, q];
    assert [p, q][1..] == [q];
    assert SortByKey([q]) == [q];
    assert SortByKey([p, q]) == [p, q];
    assert [p, q][..1] == [p];
    LinesFirst([p]);
    assert Lines([p]) == Line(p);
    assert Lines([p, q]) == Line(p) + Line(q);
  }
}
