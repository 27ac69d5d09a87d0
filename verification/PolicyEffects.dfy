/**
 * Matching a simulation fixture's expected policy effects against the audit
 * trail (cmd/sim_expect.go).
 *
 * The matcher is greedy: each expectation takes the first unused row it fits.
 * The reference is a perfect matching between expectations and rows.  What the
 * greedy choice accepts always has one; the converse depends on the order in which the
 * fixture lists its expectations, and `GreedyIsCompleteIff` says exactly when.
 */
module PolicyEffects {
  import opened Common

  const STAGE_TOOL_CALL := "tool.call"
  const ALLOW := "allow"
  const DENY := "deny"
  const PENDING := "pending"

  datatype AuditEvent = AuditEvent(action: string, decision: string, connector: string, tool: string, reasonCode: string)

  datatype Expectation = Expectation(connector: string, tool: string, effect: string, reasonCode: string)

  datatype Mismatch = Missing(want: Expectation, got: string) | Unexpected(row: AuditEvent)

  // ----- The reference: perfect matchings -----

  predicate Counts(ev: AuditEvent) {
    ev.action == STAGE_TOOL_CALL && (ev.decision == DENY || ev.decision == PENDING)
  }

  function Relevant(got: seq<AuditEvent>): seq<AuditEvent> {
    if got == [] then []
    else
      var front := Relevant(got[..|got| - 1]);
      if Counts(got[|got| - 1]) then front + [got[|got| - 1]] else front
  }

  predicate SameKey(w: Expectation, ev: AuditEvent) {
    w.connector == ev.connector && w.tool == ev.tool && w.effect == ev.decision
  }

  predicate Fits(w: Expectation, ev: AuditEvent) {
    SameKey(w, ev) && (w.reasonCode == "" || w.reasonCode == ev.reasonCode)
  }

  /** Row `a[k]` answers expectation `want[k]`. */
  ghost predicate Pairs(want: seq<Expectation>, a: seq<AuditEvent>) {
    |a| == |want| && forall k :: 0 <= k < |a| ==> Fits(want[k], a[k])
  }

  /** A perfect matching: some arrangement of exactly the counted rows answers the expectations one for one. */
  ghost predicate Matchable(got: seq<AuditEvent>, want: seq<Expectation>) {
    exists a :: Pairs(want, a) && multiset(a) == multiset(Relevant(got))
  }

  function Unused(rows: seq<AuditEvent>): (used: seq<bool>)
    ensures |used| == |rows|
  {
    seq(|rows|, i => false)
  }

  // ----- The greedy choice -----

  /** The first free row at or after `i` that `w` fits; `|rows|` when there is none. */
  function FirstFit(rows: seq<AuditEvent>, used: seq<bool>, w: Expectation, i: nat): (j: nat)
    requires |used| == |rows| && i <= |rows|
    ensures i <= j <= |rows|
    ensures j < |rows| ==> !used[j] && Fits(w, rows[j])
    ensures forall k :: i <= k < j ==> used[k] || !Fits(w, rows[k])
    decreases |rows| - i
  {
    if i == |rows| || (!used[i] && Fits(w, rows[i])) then i else FirstFit(rows, used, w, i + 1)
  }

  predicate Accepts(rows: seq<AuditEvent>, want: seq<Expectation>, used: seq<bool>)
    requires |used| == |rows|
    decreases want
  {
    if want == [] then forall i :: 0 <= i < |rows| ==> used[i]
    else
      var i := FirstFit(rows, used, want[0], 0);
      i < |rows| && Accepts(rows, want[1..], used[i := true])
  }

  predicate Accepted(got: seq<AuditEvent>, want: seq<Expectation>) {
    var rows := Relevant(got);
    Accepts(rows, want, Unused(rows))
  }

  /** The decision an error message carries: what the audit trail says about this tool. */
  function Label(rows: seq<AuditEvent>, w: Expectation): (said: string)
    ensures || (said == ALLOW && forall ev :: ev in rows ==> ev.connector != w.connector || ev.tool != w.tool)
            || exists i :: 0 <= i < |rows| && (rows[i].connector, rows[i].tool, rows[i].decision) == (w.connector, w.tool, said)
                           && forall j :: 0 <= j < i ==> rows[j].connector != w.connector || rows[j].tool != w.tool
  {
    if rows == [] then ALLOW
    else if SameTool(w, rows[0]) then rows[0].decision
    else
      assert forall ev :: ev in rows ==> ev == rows[0] || ev in rows[1..];
      Label(rows[1..], w)
  }

  predicate SameTool(w: Expectation, ev: AuditEvent) {
    ev.connector == w.connector && ev.tool == w.tool
  }

  method FindFit(rows: seq<AuditEvent>, used: array<bool>, w: Expectation) returns (idx: int)
    requires used.Length == |rows|
    ensures idx < 0 <==> FirstFit(rows, used[..], w, 0) == |rows|
    ensures 0 <= idx ==> idx == FirstFit(rows, used[..], w, 0)
  {
    idx := -1;
    var i := 0;
    while i < |rows|
      invariant 0 <= i <= |rows|
      invariant FirstFit(rows, used[..], w, 0) == FirstFit(rows, used[..], w, i)
    {
      if !used[i] && Fits(w, rows[i]) {
        idx := i;
        return;
      }
      i := i + 1;
    }
  }

  method LabelFor(rows: seq<AuditEvent>, w: Expectation) returns (said: string)
    ensures said == Label(rows, w)
  {
    said := ALLOW;
    var i := 0;
    while i < |rows|
      invariant 0 <= i <= |rows|
      invariant Label(rows, w) == Label(rows[i..], w)
    {
      if SameTool(w, rows[i]) {
        said := rows[i].decision;
        return;
      }
      assert rows[i..][1..] == rows[i + 1..];
      i := i + 1;
    }
  }

  method KeepRelevant(got: seq<AuditEvent>) returns (relevant: seq<AuditEvent>)
    ensures relevant == Relevant(got)
  {
    relevant := [];
    var i := 0;
    while i < |got|
      invariant 0 <= i <= |got|
      invariant relevant == Relevant(got[..i])
    {
      assert got[..i + 1][..i] == got[..i];
      if Counts(got[i]) {
        relevant := relevant + [got[i]];
      }
      i := i + 1;
    }
    assert got[..|got|] == got;
  }

  /**
   * No error exactly when the greedy choice accepts, and then a perfect
   * matching exists.  The error for a missing expectation quotes what the
   * trail says about its tool; an unexpected row is one that counts.
   */
  method MatchPolicyEffects(got: seq<AuditEvent>, want: seq<Expectation>) returns (err: Option<Mismatch>)
    ensures err.None? <==> Accepted(got, want)
    ensures err.None? ==> Matchable(got, want)
    ensures err.Some? && err.value.Missing? ==> err.value.want in want && err.value.got == Label(Relevant(got), err.value.want)
    ensures err.Some? && err.value.Unexpected? ==> err.value.row in got && Counts(err.value.row)
  {
    var rows := KeepRelevant(got);
    var used := new bool[|rows|](i => false);
    assert used[..] == Unused(rows);
    var k := 0;
    while k < |want|
      invariant 0 <= k <= |want|
      invariant Accepts(rows, want, Unused(rows)) == Accepts(rows, want[k..], used[..])
    {
      var w := want[k];
      var idx := FindFit(rows, used, w);
      assert want[k..][0] == w && want[k..][1..] == want[k + 1..];
      if idx < 0 {
        var said := LabelFor(rows, w);
        return Some(Missing(w, said));
      }
      ghost var before := used[..];
      used[idx] := true;
      assert used[..] == before[idx := true];
      k := k + 1;
    }
    var i := 0;
    while i < |rows|
      invariant 0 <= i <= |rows|
      invariant forall j :: 0 <= j < i ==> used[j]
    {
      if !used[i] {
        assert !used[..][i];
        RelevantCounts(got, rows[i]);
        return Some(Unexpected(rows[i]));
      }
      i := i + 1;
    }
    assert Accepts(rows, want[k..], used[..]);
    ghost var a := AcceptedIsMatched(rows, want, Unused(rows));
    AllFree(rows);
    return None;
  }

  lemma {:induction false} RelevantCounts(got: seq<AuditEvent>, ev: AuditEvent)
    ensures ev in Relevant(got) <==> ev in got && Counts(ev)
    decreases got
  {
    if got != [] {
      RelevantCounts(got[..|got| - 1], ev);
      assert got == got[..|got| - 1] + [got[|got| - 1]];
    }
  }

  // ----- Rows still free -----

  ghost function Free(rows: seq<AuditEvent>, used: seq<bool>): multiset<AuditEvent>
    requires |used| == |rows|
  {
    if rows == [] then multiset{}
    else (if used[0] then multiset{} else multiset{rows[0]}) + Free(rows[1..], used[1..])
  }

  lemma {:induction false} AllFree(rows: seq<AuditEvent>)
    ensures Free(rows, Unused(rows)) == multiset(rows)
    decreases rows
  {
    if rows != [] {
      AllFree(rows[1..]);
      assert Unused(rows)[1..] == Unused(rows[1..]);
      assert rows == [rows[0]] + rows[1..];
    }
  }

  /** Marking a row takes exactly that row out of the free ones. */
  lemma {:induction false} Marked(rows: seq<AuditEvent>, used: seq<bool>, i: nat)
    requires |used| == |rows| && i < |rows| && !used[i]
    ensures Free(rows, used) == Free(rows, used[i := true]) + multiset{rows[i]}
    decreases rows
  {
    var marked := used[i := true];
    var rest := Free(rows[1..], marked[1..]);
    if i == 0 {
      assert marked[1..] == used[1..];
      Regroup(multiset{}, rest, multiset{rows[0]});
    } else {
      Marked(rows[1..], used[1..], i - 1);
      assert marked[1..] == used[1..][i - 1 := true];
      var head := if used[0] then multiset{} else multiset{rows[0]};
      Regroup(head, rest, multiset{rows[i]});
    }
  }

  lemma Regroup(a: multiset<AuditEvent>, b: multiset<AuditEvent>, c: multiset<AuditEvent>)
    ensures a + (b + c) == (a + b) + c
    ensures a == multiset{} ==> c + b == (a + b) + c
  {
  }

  lemma {:induction false} FreeIndex(rows: seq<AuditEvent>, used: seq<bool>, ev: AuditEvent) returns (i: nat)
    requires |used| == |rows| && ev in Free(rows, used)
    ensures i < |rows| && !used[i] && rows[i] == ev
    decreases rows
  {
    if !used[0] && rows[0] == ev {
      i := 0;
    } else {
      var j := FreeIndex(rows[1..], used[1..], ev);
      i := j + 1;
    }
  }

  lemma FreeOrUsed(rows: seq<AuditEvent>, used: seq<bool>, i: nat)
    requires |used| == |rows| && i < |rows|
    ensures used[i] || rows[i] in Free(rows, used)
  {
    if !used[i] {
      Marked(rows, used, i);
    }
  }

  lemma {:induction false} NoneFree(rows: seq<AuditEvent>, used: seq<bool>)
    requires |used| == |rows| && forall i :: 0 <= i < |rows| ==> used[i]
    ensures Free(rows, used) == multiset{}
    decreases rows
  {
    if rows != [] {
      NoneFree(rows[1..], used[1..]);
    }
  }

  // ----- Soundness -----

  lemma {:induction false} AcceptedIsMatched(rows: seq<AuditEvent>, want: seq<Expectation>, used: seq<bool>) returns (a: seq<AuditEvent>)
    requires |used| == |rows|
    requires Accepts(rows, want, used)
    ensures Pairs(want, a) && multiset(a) == Free(rows, used)
    decreases want
  {
    if want == [] {
      NoneFree(rows, used);
      a := [];
    } else {
      var i := FirstFit(rows, used, want[0], 0);
      var rest := AcceptedIsMatched(rows, want[1..], used[i := true]);
      Marked(rows, used, i);
      a := [rows[i]] + rest;
      Regroup(multiset{}, multiset(rest), multiset{rows[i]});
    }
  }

  // ----- Completeness -----

  /** Within one (connector, tool, effect), entries naming a reason code come first. */
  ghost predicate CodedFirst(want: seq<Expectation>) {
    forall k, l :: 0 <= k < l < |want| ==> !Inverted(want[k], want[l])
  }

  predicate Inverted(v: Expectation, w: Expectation) {
    && v.connector == w.connector && v.tool == w.tool && v.effect == w.effect
    && v.reasonCode == "" && w.reasonCode != ""
  }

  lemma Swap(a: seq<AuditEvent>, k: nat)
    requires k < |a|
    ensures multiset(a) == multiset(a[k := a[0]][1..]) + multiset{a[k]}
  {
    var rest := a[k := a[0]][1..];
    assert a == [a[0]] + a[1..];
    if k > 0 {
      assert a == [a[0]] + a[1..k] + [a[k]] + a[k + 1..];
      assert rest == a[1..k] + [a[0]] + a[k + 1..];
    }
  }

  lemma Cancel(a: multiset<AuditEvent>, b: multiset<AuditEvent>, ev: AuditEvent)
    requires a + multiset{ev} == b + multiset{ev}
    ensures a == b
  {
    assert a == a + multiset{ev} - multiset{ev};
    assert b == b + multiset{ev} - multiset{ev};
  }

  lemma SwapPairs(want: seq<Expectation>, a: seq<AuditEvent>, k: nat)
    requires Pairs(want, a) && CodedFirst(want)
    requires k < |want| && Fits(want[0], a[k])
    ensures Pairs(want[1..], a[k := a[0]][1..])
  {
  }

  /** Exchange: the greedy choice can be swapped into any perfect matching. */
  lemma Exchange(rows: seq<AuditEvent>, want: seq<Expectation>, used: seq<bool>, a: seq<AuditEvent>) returns (rest: seq<AuditEvent>)
    requires |used| == |rows| && want != [] && CodedFirst(want)
    requires Pairs(want, a) && multiset(a) == Free(rows, used)
    ensures var i := FirstFit(rows, used, want[0], 0);
            && i < |rows|
            && Pairs(want[1..], rest) && multiset(rest) == Free(rows, used[i := true])
  {
    var i := FirstFit(rows, used, want[0], 0);
    assert Fits(want[0], a[0]) && |a| == |want|;
    hide FirstFit, Free, Pairs, CodedFirst, Fits;
    assert a[0] in multiset(a);
    var j := FreeIndex(rows, used, a[0]);
    assert i <= j;
    Marked(rows, used, i);
    assert rows[i] in a by { assert rows[i] in multiset(a); }
    var k :| 0 <= k < |a| && a[k] == rows[i];
    rest := a[k := a[0]][1..];
    SwapPairs(want, a, k);
    Swap(a, k);
    Cancel(multiset(rest), Free(rows, used[i := true]), rows[i]);
  }

  lemma {:induction false} MatchedIsAccepted(rows: seq<AuditEvent>, want: seq<Expectation>, used: seq<bool>, a: seq<AuditEvent>)
    requires |used| == |rows| && CodedFirst(want)
    requires Pairs(want, a) && multiset(a) == Free(rows, used)
    ensures Accepts(rows, want, used)
    decreases want
  {
    if want == [] {
      forall i | 0 <= i < |rows|
        ensures used[i]
      {
        FreeOrUsed(rows, used, i);
      }
    } else {
      var rest := Exchange(rows, want, used, a);
      var i := FirstFit(rows, used, want[0], 0);
      MatchedIsAccepted(rows, want[1..], used[i := true], rest);
    }
  }

  // ----- The order condition is exact -----

  /** The audit row an expectation describes; a codeless one gets the code `novel`. */
  function RowFor(w: Expectation, novel: string): (ev: AuditEvent) {
    AuditEvent(STAGE_TOOL_CALL, w.effect, w.connector, w.tool, if w.reasonCode == "" then novel else w.reasonCode)
  }

  function RowsFor(want: seq<Expectation>, novel: string): seq<AuditEvent> {
    if want == [] then [] else [RowFor(want[0], novel)] + RowsFor(want[1..], novel)
  }

  function Coded(want: seq<Expectation>): seq<Expectation> {
    if want == [] then []
    else if want[0].reasonCode != "" then [want[0]] + Coded(want[1..]) else Coded(want[1..])
  }

  function Codeless(want: seq<Expectation>): seq<Expectation> {
    if want == [] then []
    else if want[0].reasonCode == "" then [want[0]] + Codeless(want[1..]) else Codeless(want[1..])
  }

  /** The trail holding a fixture's own rows, the coded ones first. */
  function OwnRows(want: seq<Expectation>, novel: string): seq<AuditEvent> {
    RowsFor(Coded(want), novel) + RowsFor(Codeless(want), novel)
  }

  /** A reason code no expectation names: longer than all of them. */
  function Novel(want: seq<Expectation>): (code: string)
    ensures code != ""
    ensures forall w :: w in want ==> |w.reasonCode| < |code|
  {
    if want == [] then "x"
    else
      var rest := Novel(want[1..]);
      assert forall w :: w in want ==> w == want[0] || w in want[1..];
      rest + want[0].reasonCode
  }

  lemma {:induction false} RowsPair(want: seq<Expectation>, novel: string)
    requires forall w :: w in want ==> Expectable(w)
    ensures Pairs(want, RowsFor(want, novel))
    ensures forall ev :: ev in RowsFor(want, novel) ==> Counts(ev)
    decreases want
  {
    if want != [] {
      RowsPair(want[1..], novel);
      assert want[0] in want && Counts(RowFor(want[0], novel));
    }
  }

  lemma {:induction false} OwnRowsArranged(want: seq<Expectation>, novel: string)
    ensures multiset(RowsFor(want, novel)) == multiset(RowsFor(Coded(want), novel)) + multiset(RowsFor(Codeless(want), novel))
    decreases want
  {
    if want != [] {
      OwnRowsArranged(want[1..], novel);
      var head := multiset([RowFor(want[0], novel)]);
      var coded, codeless := RowsFor(Coded(want[1..]), novel), RowsFor(Codeless(want[1..]), novel);
      if want[0].reasonCode != "" {
        assert Coded(want)[1..] == Coded(want[1..]);
        Regroup(head, multiset(coded), multiset(codeless));
      } else {
        assert Codeless(want)[1..] == Codeless(want[1..]);
        assert head + (multiset(coded) + multiset(codeless)) == multiset(coded) + (head + multiset(codeless));
      }
    }
  }

  lemma {:induction false} AllRelevant(rows: seq<AuditEvent>)
    requires forall ev :: ev in rows ==> Counts(ev)
    ensures Relevant(rows) == rows
    decreases rows
  {
    if rows != [] {
      AllRelevant(rows[..|rows| - 1]);
      assert rows == rows[..|rows| - 1] + [rows[|rows| - 1]];
    }
  }

  /** An effect the audit trail can carry on a row that counts. */
  predicate Expectable(w: Expectation) {
    w.effect == DENY || w.effect == PENDING
  }

  lemma OwnRowsMatch(want: seq<Expectation>, novel: string)
    requires forall w :: w in want ==> Expectable(w)
    ensures Relevant(OwnRows(want, novel)) == OwnRows(want, novel)
    ensures Matchable(OwnRows(want, novel), want)
  {
    hide Relevant, Coded, Codeless, RowsFor;
    RowsPair(want, novel);
    OwnRowsArranged(want, novel);
    var rows := OwnRows(want, novel);
    assert multiset(rows) == multiset(RowsFor(want, novel));
    forall ev | ev in rows
      ensures Counts(ev)
    {
      assert ev in multiset(rows);
      assert ev in RowsFor(want, novel);
    }
    AllRelevant(rows);
  }

  // ----- Counting the coded rows of one key -----

  /** A row of `v`'s key carrying a code some expectation may name. */
  predicate CodedRow(ev: AuditEvent, v: Expectation, novel: string) {
    SameKey(v, ev) && ev.reasonCode != novel
  }

  function CodedRows(rows: seq<AuditEvent>, used: seq<bool>, v: Expectation, novel: string): nat
    requires |used| == |rows|
  {
    if rows == [] then 0
    else (if !used[0] && CodedRow(rows[0], v, novel) then 1 else 0) + CodedRows(rows[1..], used[1..], v, novel)
  }

  /** Coded expectations of one key. */
  function CodedWants(want: seq<Expectation>, v: Expectation): nat {
    if want == [] then 0
    else (if Inverted(v, want[0]) then 1 else 0) + CodedWants(want[1..], v)
  }

  lemma {:induction false} CodedMarked(rows: seq<AuditEvent>, used: seq<bool>, i: nat, v: Expectation, novel: string)
    requires |used| == |rows| && i < |rows| && !used[i]
    ensures CodedRows(rows, used[i := true], v, novel) ==
            CodedRows(rows, used, v, novel) - (if CodedRow(rows[i], v, novel) then 1 else 0)
    decreases rows
  {
    if i == 0 {
      assert used[0 := true][1..] == used[1..];
    } else {
      CodedMarked(rows[1..], used[1..], i - 1, v, novel);
      assert used[i := true][1..] == used[1..][i - 1 := true];
    }
  }

  lemma {:induction false} CodedIndex(rows: seq<AuditEvent>, used: seq<bool>, v: Expectation, novel: string) returns (i: nat)
    requires |used| == |rows| && CodedRows(rows, used, v, novel) > 0
    ensures i < |rows| && !used[i] && CodedRow(rows[i], v, novel)
    decreases rows
  {
    if !used[0] && CodedRow(rows[0], v, novel) {
      i := 0;
    } else {
      var j := CodedIndex(rows[1..], used[1..], v, novel);
      i := j + 1;
    }
  }

  lemma {:induction false} CountedWant(want: seq<Expectation>, v: Expectation, l: nat)
    requires l < |want| && Inverted(v, want[l])
    ensures CodedWants(want, v) > 0
    decreases want
  {
    if l > 0 {
      CountedWant(want[1..], v, l - 1);
    }
  }

  lemma {:induction false} CodelessRows(want: seq<Expectation>, v: Expectation, novel: string)
    ensures var rows := RowsFor(Codeless(want), novel);
            && CodedRows(rows, Unused(rows), v, novel) == 0
            && forall i :: 0 <= i < |rows| ==> rows[i].reasonCode == novel
    decreases want
  {
    if want != [] {
      CodelessRows(want[1..], v, novel);
      var rows := RowsFor(Codeless(want), novel);
      if want[0].reasonCode == "" {
        assert Codeless(want)[1..] == Codeless(want[1..]);
        assert Unused(rows)[1..] == Unused(rows[1..]);
      }
    }
  }

  lemma {:induction false} CodedOnes(want: seq<Expectation>, v: Expectation, novel: string)
    requires v.reasonCode == "" && forall w :: w in want ==> w.reasonCode != novel
    ensures var rows := RowsFor(Coded(want), novel);
            && CodedRows(rows, Unused(rows), v, novel) == CodedWants(want, v)
            && forall i :: 0 <= i < |rows| ==> rows[i].reasonCode != novel
    decreases want
  {
    if want != [] {
      CodedOnes(want[1..], v, novel);
      var rows := RowsFor(Coded(want), novel);
      if want[0].reasonCode != "" {
        assert Coded(want)[1..] == Coded(want[1..]);
        assert Unused(rows)[1..] == Unused(rows[1..]);
      }
    }
  }

  lemma {:induction false} CodedConcat(a: seq<AuditEvent>, b: seq<AuditEvent>, v: Expectation, novel: string)
    ensures CodedRows(a + b, Unused(a + b), v, novel) ==
            CodedRows(a, Unused(a), v, novel) + CodedRows(b, Unused(b), v, novel)
    decreases a
  {
    if a == [] {
      assert a + b == b;
    } else {
      CodedConcat(a[1..], b, v, novel);
      assert (a + b)[1..] == a[1..] + b;
      assert Unused(a + b)[1..] == Unused(a[1..] + b) && Unused(a)[1..] == Unused(a[1..]);
    }
  }

  // ----- Starvation -----

  /** One greedy step uses up a coded row for every coded expectation, and perhaps one more. */
  lemma GreedyStep(rows: seq<AuditEvent>, want: seq<Expectation>, used: seq<bool>, v: Expectation, novel: string)
    requires |used| == |rows| && want != [] && want[0].reasonCode != novel
    requires FirstFit(rows, used, want[0], 0) < |rows|
    ensures var i := FirstFit(rows, used, want[0], 0);
            && CodedRows(rows, used[i := true], v, novel) ==
               CodedRows(rows, used, v, novel) - (if CodedRow(rows[i], v, novel) then 1 else 0)
            && (Inverted(v, want[0]) ==> CodedRow(rows[i], v, novel))
  {
    CodedMarked(rows, used, FirstFit(rows, used, want[0], 0), v, novel);
  }

  /** Too few coded rows: some coded expectation will find none. */
  lemma {:induction false} TooFewCodedRows(rows: seq<AuditEvent>, want: seq<Expectation>, used: seq<bool>, v: Expectation, novel: string)
    requires |used| == |rows|
    requires forall w :: w in want ==> w.reasonCode != novel
    requires CodedRows(rows, used, v, novel) < CodedWants(want, v)
    ensures !Accepts(rows, want, used)
    decreases want
  {
    var i := FirstFit(rows, used, want[0], 0);
    if i < |rows| {
      GreedyStep(rows, want, used, v, novel);
      TooFewCodedRows(rows, want[1..], used[i := true], v, novel);
    }
  }

  /** With the coded rows in front, a codeless expectation ahead of a coded one takes a coded row. */
  lemma {:induction false} InversionStarves(rows: seq<AuditEvent>, want: seq<Expectation>, used: seq<bool>, k: nat, l: nat, c: nat, novel: string)
    requires |used| == |rows| && k < l < |want| && Inverted(want[k], want[l])
    requires c <= |rows| && forall i :: 0 <= i < |rows| ==> (rows[i].reasonCode != novel <==> i < c)
    requires forall w :: w in want ==> w.reasonCode != novel
    requires CodedRows(rows, used, want[k], novel) <= CodedWants(want, want[k])
    ensures !Accepts(rows, want, used)
    decreases want
  {
    var v := want[k];
    var i := FirstFit(rows, used, want[0], 0);
    if i < |rows| {
      GreedyStep(rows, want, used, v, novel);
      if k == 0 {
        CountedWant(want[1..], v, l - 1);
        if CodedRows(rows, used, v, novel) > 0 {
          var j := CodedIndex(rows, used, v, novel);
          assert Fits(v, rows[j]) && i <= j;
        }
        TooFewCodedRows(rows, want[1..], used[i := true], v, novel);
      } else {
        InversionStarves(rows, want[1..], used[i := true], k - 1, l - 1, c, novel);
      }
    }
  }

  /** Every ordering with an inversion is refused on some audit trail that matches it perfectly. */
  lemma InversionIsRefused(want: seq<Expectation>, k: nat, l: nat) returns (got: seq<AuditEvent>)
    requires k < l < |want| && Inverted(want[k], want[l])
    requires forall w :: w in want ==> Expectable(w)
    ensures Matchable(got, want) && !Accepted(got, want)
  {
    hide Matchable, Accepts, CodedWants, CodedRows, Coded, Codeless, Relevant, RowsFor;
    var novel, v := Novel(want), want[k];
    assert forall w :: w in want ==> w.reasonCode != novel;
    got := OwnRows(want, novel);
    OwnRowsMatch(want, novel);
    CodedOnes(want, v, novel);
    CodelessRows(want, v, novel);
    CodedConcat(RowsFor(Coded(want), novel), RowsFor(Codeless(want), novel), v, novel);
    InversionStarves(got, want, Unused(got), k, l, |RowsFor(Coded(want), novel)|, novel);
  }

  /** The greedy matcher finds a perfect matching of `want` on every trail that has one. */
  ghost predicate Complete(want: seq<Expectation>) {
    forall got :: Matchable(got, want) ==> Accepted(got, want)
  }

  lemma MatchableIsAccepted(got: seq<AuditEvent>, want: seq<Expectation>)
    requires CodedFirst(want) && Matchable(got, want)
    ensures Accepted(got, want)
  {
    var rows := Relevant(got);
    var a :| Pairs(want, a) && multiset(a) == multiset(rows);
    AllFree(rows);
    MatchedIsAccepted(rows, want, Unused(rows), a);
  }

  lemma Unmatchable(got: seq<AuditEvent>, want: seq<Expectation>, w: Expectation)
    requires w in want && !Expectable(w)
    ensures !Matchable(got, want)
  {
    var rows := Relevant(got);
    forall a | Pairs(want, a)
      ensures multiset(a) != multiset(rows)
    {
      var k :| 0 <= k < |want| && want[k] == w;
      RelevantCounts(got, a[k]);
      assert a[k] in multiset(a) && a[k] !in multiset(rows);
    }
  }

  /**
   * Greedy is complete exactly when the fixture lists coded entries before
   * codeless ones within each (connector, tool, effect), or asks for an effect
   * that no counted row carries (and so matches no trail at all).
   */
  lemma GreedyIsCompleteIff(want: seq<Expectation>)
    ensures Complete(want) <==> CodedFirst(want) || exists w :: w in want && !Expectable(w)
  {
    hide Matchable, Accepted;
    if CodedFirst(want) {
      forall got | Matchable(got, want)
        ensures Accepted(got, want)
      {
        MatchableIsAccepted(got, want);
      }
    } else if w :| w in want && !Expectable(w) {
      forall got
        ensures !Matchable(got, want)
      {
        Unmatchable(got, want, w);
      }
    } else {
      var k, l :| 0 <= k < l < |want| && Inverted(want[k], want[l]);
      var got := InversionIsRefused(want, k, l);
    }
  }
}
