/**
 * Bookkeeping after a run's durable commit: usage row, usage hold, result
 * cache, broker and terminal hook (internal/api/completion.go, usage.go,
 * server.go).  A pass may fail at any step and be repeated on any replica, and
 * a write may go through although its reply is lost.
 */
module Finalization {
  import opened Common
  import opened RunStore

  type RunId = string

  datatype Tokens = Tokens(prompt: nat, completion: nat, cost: nat, unmetered: bool)

  /** A stored output document; `decodable` says whether it parses as an object. */
  datatype Document = Document(decodable: bool, tokens: Tokens, values: string)

  /** A committed run row: nothing below changes any of it. */
  datatype Committed = Committed(
    status: RunStatus, output: Option<Document>, simulation: bool, cacheHit: bool,
    agent: string, cacheKey: string, updatedAt: int)

  /** `ttl` gives the cache time of each known agent; `sinks` says whether terminal hooks are configured. */
  datatype World = World(runs: map<RunId, Committed>, ttl: map<string, int>, sinks: bool)

  datatype UsageRow = UsageRow(run: RunId, at: int, agent: string, tokensIn: nat, tokensOut: nat)

  /** A cached result; its agent is part of the key it is stored under. */
  datatype Entry = Entry(values: string, createdAt: int, expiresAt: int)

  datatype Hook = Hook(run: RunId, kind: HookKind)

  datatype HookKind = RunComplete | ErrorHook | InterruptHook

  datatype State = State(
    usage: seq<UsageRow>, holds: set<RunId>, cache: map<string, Entry>, closed: set<RunId>,
    claims: set<RunId>, dispatched: seq<Hook>)

  // ----- What a run calls for -----

  predicate Billable(run: Committed) {
    && run.output.Some? && !run.simulation && !run.cacheHit && Terminal(run.status)
    && var t := run.output.value.tokens; !(t.prompt == 0 && t.completion == 0 && t.cost == 0 && !t.unmetered)
  }

  function Bill(r: RunId, run: Committed): UsageRow
    requires run.output.Some?
  {
    UsageRow(r, run.updatedAt, run.agent, run.output.value.tokens.prompt, run.output.value.tokens.completion)
  }

  predicate HasResult(run: Committed) {
    run.status.Success? && run.output.Some?
  }

  /** Its result belongs in the cache, provided its agent can be looked up. */
  predicate Cacheable(w: World, run: Committed) {
    && HasResult(run) && run.output.value.decodable && run.cacheKey != ""
    && run.agent in w.ttl && w.ttl[run.agent] > 0
  }

  function EntryOf(w: World, run: Committed): Entry
    requires Cacheable(w, run)
  {
    Entry(run.output.value.values, run.updatedAt, run.updatedAt + w.ttl[run.agent])
  }

  function HookOf(r: RunId, run: Committed): Hook {
    Hook(r, match run.status
            case Failed => ErrorHook
            case TimedOut => ErrorHook
            case Interrupted => InterruptHook
            case _ => RunComplete)
  }

  // ----- Store steps -----

  datatype Act =
    | WriteUsage(r: RunId)
    | PlaceHold(r: RunId)
    | ReleaseHold(r: RunId)
    | SaveCache(r: RunId)
    | Close(r: RunId)
    | ClaimHook(r: RunId, heard: bool) // `heard`: the winner learns that it won, and dispatches

  /** Insert, or replace the row of the same run. */
  function Upsert(table: seq<UsageRow>, row: UsageRow): (t: seq<UsageRow>) {
    if table == [] then [row]
    else if table[0].run == row.run then [row] + table[1..]
    else [table[0]] + Upsert(table[1..], row)
  }

  function Apply(w: World, s: State, a: Act): State {
    if a.r !in w.runs then s
    else
      var run := w.runs[a.r];
      match a
      case WriteUsage(r) => if Billable(run) then s.(usage := Upsert(s.usage, Bill(r, run))) else s
      case PlaceHold(r) => if run.simulation then s else s.(holds := s.holds + {r})
      case ReleaseHold(r) => s.(holds := s.holds - {r})
      case SaveCache(r) => if Cacheable(w, run) then s.(cache := s.cache[run.cacheKey := EntryOf(w, run)]) else s
      case Close(r) => s.(closed := s.closed + {r})
      case ClaimHook(r, heard) =>
        if !w.sinks || r in s.claims then s
        else s.(claims := s.claims + {r}, dispatched := if heard then s.dispatched + [HookOf(r, run)] else s.dispatched)
  }

  function Play(w: World, s: State, acts: seq<Act>): State
    decreases acts
  {
    if acts == [] then s else Apply(w, Play(w, s, acts[..|acts| - 1]), acts[|acts| - 1])
  }

  const EMPTY := State([], {}, map[], {}, {}, [])

  // ----- What every history keeps -----

  function RowsOf(table: seq<UsageRow>, r: RunId): nat {
    if table == [] then 0 else (if table[0].run == r then 1 else 0) + RowsOf(table[1..], r)
  }

  predicate Right(w: World, u: UsageRow) {
    u.run in w.runs && Billable(w.runs[u.run]) && u == Bill(u.run, w.runs[u.run])
  }

  predicate Sent(w: World, s: State, h: Hook) {
    h.run in s.claims && h.run in w.runs && h == HookOf(h.run, w.runs[h.run])
  }

  /** `r` is a run whose result the entry under `key` is. */
  predicate Source(w: World, r: RunId, key: string, e: Entry) {
    r in w.runs && Cacheable(w, w.runs[r]) && w.runs[r].cacheKey == key && e == EntryOf(w, w.runs[r])
  }

  /**
   * At most one usage row per run and only for work that was done; every cache
   * entry carries its own run's result and expiry; at most one hook per run.
   */
  ghost predicate Inv(w: World, s: State) {
    && (forall r :: RowsOf(s.usage, r) <= 1)
    && (forall u :: u in s.usage ==> Right(w, u))
    && (forall key :: key in s.cache ==> exists r :: Source(w, r, key, s.cache[key]))
    && (forall h :: h in s.dispatched ==> Sent(w, s, h))
    && (forall i, j :: 0 <= i < j < |s.dispatched| ==> s.dispatched[i].run != s.dispatched[j].run)
  }

  lemma {:induction false} UpsertRows(table: seq<UsageRow>, row: UsageRow)
    ensures row in Upsert(table, row)
    ensures forall u :: u in Upsert(table, row) ==> u in table || u == row
    ensures forall u :: u in table && u.run != row.run ==> u in Upsert(table, row)
    ensures forall r :: RowsOf(Upsert(table, row), r) == if r == row.run && RowsOf(table, r) == 0 then 1 else RowsOf(table, r)
    decreases table
  {
    if table != [] && table[0].run != row.run {
      UpsertRows(table[1..], row);
    }
  }

  lemma InvKept(w: World, s: State, a: Act)
    requires Inv(w, s)
    ensures Inv(w, Apply(w, s, a))
  {
    var t := Apply(w, s, a);
    if t != s {
      match a {
        case WriteUsage(r) => UpsertRows(s.usage, Bill(r, w.runs[r]));
        case SaveCache(r) =>
          forall key | key in t.cache
            ensures exists x :: Source(w, x, key, t.cache[key])
          {
            if key == w.runs[r].cacheKey {
              assert Source(w, r, key, t.cache[key]);
            } else {
              var x :| Source(w, x, key, s.cache[key]);
              assert Source(w, x, key, t.cache[key]);
            }
          }
        case ClaimHook(r, heard) =>
          assert forall i :: 0 <= i < |s.dispatched| ==> Sent(w, s, s.dispatched[i]);
        case _ =>
      }
    }
  }

  lemma {:induction false} InvAlways(w: World, acts: seq<Act>)
    ensures Inv(w, Play(w, EMPTY, acts))
    decreases acts
  {
    if acts != [] {
      InvAlways(w, acts[..|acts| - 1]);
      InvKept(w, Play(w, EMPTY, acts[..|acts| - 1]), acts[|acts| - 1]);
    }
  }

  // ----- What a finished pass has left behind -----

  /** The first half of a pass: what the run itself leaves behind. */
  function Front(w: World, r: RunId): seq<Act>
    requires r in w.runs
  {
    (if Billable(w.runs[r]) then [WriteUsage(r)] else []) + [ReleaseHold(r)] +
    (if Cacheable(w, w.runs[r]) then [SaveCache(r)] else [])
  }

  /** The second half: closing the stream and telling the outside, unless it is known to be told. */
  function Back(r: RunId, hook: bool): seq<Act> {
    [Close(r), ReleaseHold(r)] + (if hook then [ClaimHook(r, true)] else [])
  }

  /** The steps of one uninterrupted pass that learns of its own claim. */
  function Pass(w: World, r: RunId): seq<Act>
    requires r in w.runs
  {
    Front(w, r) + Back(r, true)
  }

  /** Every step a pass for `r` must take is somewhere in the history; a claim may have been lost to another pass. */
  predicate Taken(w: World, acts: seq<Act>, r: RunId) {
    && r in w.runs
    && (Billable(w.runs[r]) ==> WriteUsage(r) in acts)
    && Close(r) in acts
    && (w.sinks ==> ClaimHook(r, true) in acts || ClaimHook(r, false) in acts)
  }

  predicate Holding(acts: seq<Act>, r: RunId) {
    acts != [] && (acts[|acts| - 1] == PlaceHold(r) || (acts[|acts| - 1] != ReleaseHold(r) && Holding(acts[..|acts| - 1], r)))
  }

  /** A hold outlives the history exactly when it was placed after the last release. */
  lemma {:induction false} HoldLeaksIff(w: World, acts: seq<Act>, r: RunId)
    requires r in w.runs
    ensures r in Play(w, EMPTY, acts).holds <==> Holding(acts, r) && !w.runs[r].simulation
    decreases acts
  {
    if acts != [] {
      HoldLeaksIff(w, acts[..|acts| - 1], r);
    }
  }

  /** Creation places its hold after the run row is visible; a run cancelled and finalized in between keeps it. */
  lemma LateHoldLeaks(w: World, r: RunId)
    requires r in w.runs && !w.runs[r].simulation
    ensures r in Play(w, EMPTY, Pass(w, r) + [PlaceHold(r)]).holds
  {
  }

  predicate ClaimTried(acts: seq<Act>, r: RunId) {
    ClaimHook(r, true) in acts || ClaimHook(r, false) in acts
  }

  /** Whether the first attempt to claim the hook learned that it had won. */
  predicate FirstClaimHeard(acts: seq<Act>, r: RunId) {
    acts != [] &&
    var front := acts[..|acts| - 1];
    if ClaimTried(front, r) then FirstClaimHeard(front, r) else acts[|acts| - 1] == ClaimHook(r, true)
  }

  /** A run's hook is dispatched exactly when the first claim was heard by its winner. */
  lemma {:induction false} HookSentIff(w: World, acts: seq<Act>, r: RunId)
    requires r in w.runs && w.sinks
    ensures var s := Play(w, EMPTY, acts);
            && (r in s.claims <==> ClaimTried(acts, r))
            && (HookOf(r, w.runs[r]) in s.dispatched <==> FirstClaimHeard(acts, r))
    decreases acts
  {
    if acts != [] {
      var front, last := acts[..|acts| - 1], acts[|acts| - 1];
      HookSentIff(w, front, r);
      assert acts == front + [last];
      if last.r != r && last.r in w.runs {
        assert HookOf(last.r, w.runs[last.r]) != HookOf(r, w.runs[r]);
      }
    }
  }

  lemma {:induction false} FirstClaimStays(acts: seq<Act>, more: seq<Act>, r: RunId)
    requires ClaimTried(acts, r)
    ensures FirstClaimHeard(acts + more, r) == FirstClaimHeard(acts, r)
    decreases more
  {
    if more == [] {
      assert acts + more == acts;
    } else {
      var front := more[..|more| - 1];
      FirstClaimStays(acts, front, r);
      assert (acts + more)[..|acts + more| - 1] == acts + front;
      assert ClaimTried(acts + front, r);
    }
  }

  /**
   * A pass that takes every step but loses the reply to its claim leaves a run
   * that nobody will ever send the hook of, however often finalization is
   * repeated.
   */
  lemma UnheardClaimIsNeverSent(w: World, r: RunId, more: seq<Act>)
    requires r in w.runs && w.sinks
    ensures var acts := Front(w, r) + [Close(r), ReleaseHold(r), ClaimHook(r, false)];
            Taken(w, acts, r) && HookOf(r, w.runs[r]) !in Play(w, EMPTY, acts + more).dispatched
  {
    var front := Front(w, r) + [Close(r), ReleaseHold(r)];
    var acts := Front(w, r) + [Close(r), ReleaseHold(r), ClaimHook(r, false)];
    assert acts[..|acts| - 1] == front && acts[|acts| - 1] == ClaimHook(r, false);
    assert !ClaimTried(front, r);
    assert acts[|front| - 2] == Close(r);
    assert Billable(w.runs[r]) ==> acts[0] == WriteUsage(r);
    FirstClaimStays(acts, more, r);
    HookSentIff(w, acts + more, r);
  }

  lemma {:induction false} StepsStay(w: World, acts: seq<Act>, r: RunId)
    requires r in w.runs
    ensures var s := Play(w, EMPTY, acts);
            && (Close(r) in acts <==> r in s.closed)
            && (Billable(w.runs[r]) && WriteUsage(r) in acts ==> Bill(r, w.runs[r]) in s.usage)
    decreases acts
  {
    if acts != [] {
      var front, last := acts[..|acts| - 1], acts[|acts| - 1];
      StepsStay(w, front, r);
      assert acts == front + [last];
      if last.WriteUsage? && last.r in w.runs && Billable(w.runs[last.r]) {
        UpsertRows(Play(w, EMPTY, front).usage, Bill(last.r, w.runs[last.r]));
      }
    }
  }

  /** The durable bookkeeping of one run. */
  datatype View = View(bill: Option<UsageRow>, held: bool, cached: Option<Entry>, closed: bool, claimed: bool)

  function RowFor(table: seq<UsageRow>, r: RunId): (row: Option<UsageRow>)
    ensures row.None? <==> RowsOf(table, r) == 0
    ensures row.Some? ==> row.value in table && row.value.run == r
  {
    if table == [] then None
    else if table[0].run == r then Some(table[0])
    else RowFor(table[1..], r)
  }

  /** The cache slot of a run counts only if its result belongs there. */
  function ViewOf(w: World, s: State, r: RunId): View
    requires r in w.runs
  {
    var run := w.runs[r];
    View(RowFor(s.usage, r), r in s.holds,
         if Cacheable(w, run) && run.cacheKey in s.cache then Some(s.cache[run.cacheKey]) else None,
         r in s.closed, r in s.claims)
  }

  /** What finalization owes a run, said without reference to any pass. */
  function Owed(w: World, r: RunId): View
    requires r in w.runs
  {
    var run := w.runs[r];
    View(if Billable(run) then Some(Bill(r, run)) else None, false,
         if Cacheable(w, run) then Some(EntryOf(w, run)) else None, true, w.sinks)
  }

  /** Saving `r` writes the slot `key`, which runs of the same request share. */
  predicate Saves(w: World, a: Act, key: string) {
    a.SaveCache? && a.r in w.runs && Cacheable(w, w.runs[a.r]) && w.runs[a.r].cacheKey == key
  }

  /** The run whose save was the last to write the slot. */
  function LastSave(w: World, acts: seq<Act>, key: string): (r: Option<RunId>)
    ensures r.Some? ==> Saves(w, SaveCache(r.value), key) && SaveCache(r.value) in acts
  {
    if acts == [] then None
    else if Saves(w, acts[|acts| - 1], key) then Some(acts[|acts| - 1].r)
    else LastSave(w, acts[..|acts| - 1], key)
  }

  /** The last save to a cacheable run's slot stored what this run's own would. */
  predicate SavedLast(w: World, acts: seq<Act>, r: RunId)
    requires r in w.runs && Cacheable(w, w.runs[r])
  {
    var last := LastSave(w, acts, w.runs[r].cacheKey);
    last.Some? && EntryOf(w, w.runs[last.value]) == EntryOf(w, w.runs[r])
  }

  lemma {:induction false} RowCounted(table: seq<UsageRow>, u: UsageRow)
    requires u in table
    ensures RowsOf(table, u.run) > 0
    decreases table
  {
    if table[0] != u {
      RowCounted(table[1..], u);
    }
  }

  /** A slot holds the result of the last run saved to it, whichever finished last. */
  lemma {:induction false} SlotIsLastSave(w: World, acts: seq<Act>, key: string)
    ensures var cache, last := Play(w, EMPTY, acts).cache, LastSave(w, acts, key);
            && (key in cache <==> last.Some?)
            && (last.Some? ==> cache[key] == EntryOf(w, w.runs[last.value]))
    decreases acts
  {
    if acts != [] {
      SlotIsLastSave(w, acts[..|acts| - 1], key);
    }
  }

  /**
   * Whatever failed before, in whatever order and on whichever replicas, once
   * every step has gone through the run is billed, closed and claimed as it is
   * owed.  A hold is left exactly when one was placed after the last release,
   * and its result is cached exactly when the last save to its slot stored it:
   * a failed agent lookup skips the save silently, and a run of the same
   * request may have been saved later.
   */
  lemma TakenIsOwedIff(w: World, acts: seq<Act>, r: RunId)
    requires Taken(w, acts, r)
    ensures var view, owed := ViewOf(w, Play(w, EMPTY, acts), r), Owed(w, r);
            && view.bill == owed.bill && view.closed == owed.closed && view.claimed == owed.claimed
            && (view.held <==> Holding(acts, r) && !w.runs[r].simulation)
            && (view.cached == owed.cached <==> (Cacheable(w, w.runs[r]) ==> SavedLast(w, acts, r)))
  {
    var s, run := Play(w, EMPTY, acts), w.runs[r];
    InvAlways(w, acts);
    StepsStay(w, acts, r);
    HoldLeaksIff(w, acts, r);
    SlotIsLastSave(w, acts, run.cacheKey);
    if w.sinks {
      HookSentIff(w, acts, r);
    } else {
      NoSinksNoClaims(w, acts);
    }
    if Billable(run) {
      RowCounted(s.usage, Bill(r, run));
    }
    var row := RowFor(s.usage, r);
    assert row.Some? ==> Right(w, row.value);
  }

  lemma {:induction false} NoSinksNoClaims(w: World, acts: seq<Act>)
    requires !w.sinks
    ensures Play(w, EMPTY, acts).claims == {}
    decreases acts
  {
    if acts != [] {
      NoSinksNoClaims(w, acts[..|acts| - 1]);
    }
  }

  lemma {:induction false} LastSaveConcat(w: World, acts: seq<Act>, more: seq<Act>, key: string)
    ensures LastSave(w, acts + more, key) ==
            if LastSave(w, more, key).Some? then LastSave(w, more, key) else LastSave(w, acts, key)
    decreases more
  {
    if more == [] {
      assert acts + more == acts;
    } else {
      var front := more[..|more| - 1];
      LastSaveConcat(w, acts, front, key);
      assert (acts + more)[..|acts + more| - 1] == acts + front;
    }
  }

  lemma PassIsTaken(w: World, r: RunId)
    requires r in w.runs
    ensures Taken(w, Pass(w, r), r) && !Holding(Pass(w, r), r)
    ensures Cacheable(w, w.runs[r]) ==> LastSave(w, Pass(w, r), w.runs[r].cacheKey) == Some(r)
  {
    var pass := Pass(w, r);
    var n := |pass|;
    assert pass[n - 1] == ClaimHook(r, true) && pass[n - 2] == ReleaseHold(r) && pass[n - 3] == Close(r);
    assert Billable(w.runs[r]) ==> pass[0] == WriteUsage(r);
    assert pass[..n - 1][n - 2] == ReleaseHold(r);
    assert !Holding(pass[..n - 1], r);
    if Cacheable(w, w.runs[r]) {
      assert forall a <- Back(r, true) :: !a.SaveCache?;
      LastSaveConcat(w, Front(w, r), Back(r, true), w.runs[r].cacheKey);
    }
  }

  /**
   * One uninterrupted pass is such a history, so a retried finalization ends
   * where it would have, and exactly when.
   */
  lemma RetriesEndLikeOnePassIff(w: World, acts: seq<Act>, r: RunId)
    requires Taken(w, acts, r)
    ensures ViewOf(w, Play(w, EMPTY, acts), r) == ViewOf(w, Play(w, EMPTY, Pass(w, r)), r) <==>
            && (w.runs[r].simulation || !Holding(acts, r))
            && (Cacheable(w, w.runs[r]) ==> SavedLast(w, acts, r))
  {
    TakenIsOwedIff(w, acts, r);
    PassIsTaken(w, r);
    TakenIsOwedIff(w, Pass(w, r), r);
  }

  /** An agent that cannot be read leaves a finished run without its cache entry. */
  lemma SkippedLookupLeavesNoEntry(w: World, r: RunId)
    requires r in w.runs && Cacheable(w, w.runs[r])
    ensures var acts := (if Billable(w.runs[r]) then [WriteUsage(r)] else []) + [ReleaseHold(r)] + Back(r, true);
            Taken(w, acts, r) && ViewOf(w, Play(w, EMPTY, acts), r) == Owed(w, r).(cached := None) != Owed(w, r)
  {
    var acts := (if Billable(w.runs[r]) then [WriteUsage(r)] else []) + [ReleaseHold(r)] + Back(r, true);
    var n := |acts|;
    assert acts[n - 1] == ClaimHook(r, true) && acts[n - 2] == ReleaseHold(r) && acts[n - 3] == Close(r);
    assert Billable(w.runs[r]) ==> acts[0] == WriteUsage(r);
    assert acts[..n - 1][n - 2] == ReleaseHold(r);
    assert !Holding(acts[..n - 1], r);
    TakenIsOwedIff(w, acts, r);
    assert forall a <- acts :: !a.SaveCache?;
    SlotIsLastSave(w, acts, w.runs[r].cacheKey);
  }

  /**
   * Two runs of one request: a late retry of the older one replaces the newer
   * result and shortens its life.  Both runs are fully finalized.
   */
  lemma LateRetryReplacesNewerResult(w: World, older: RunId, newer: RunId)
    requires older in w.runs && newer in w.runs && Cacheable(w, w.runs[older]) && Cacheable(w, w.runs[newer])
    requires w.runs[older].cacheKey == w.runs[newer].cacheKey && w.runs[older].updatedAt < w.runs[newer].updatedAt
    ensures var acts := Pass(w, newer) + Pass(w, older);
            && Taken(w, acts, older) && Taken(w, acts, newer)
            && ViewOf(w, Play(w, EMPTY, acts), newer).cached == Owed(w, older).cached != Owed(w, newer).cached
  {
    var key := w.runs[newer].cacheKey;
    var acts := Pass(w, newer) + Pass(w, older);
    PassIsTaken(w, older);
    PassIsTaken(w, newer);
    assert forall a <- Pass(w, newer) :: a in acts;
    assert forall a <- Pass(w, older) :: a in acts;
    LastSaveConcat(w, Pass(w, newer), Pass(w, older), key);
    SlotIsLastSave(w, acts, key);
  }

  // ----- What those rows, entries and hooks say -----

  /** The run did model work of its own: it ended with an output, for real and not from
      the cache, that reports tokens, a cost, or that it could not be metered. */
  predicate Worked(run: Committed) {
    && run.status in {Success, Failed, Interrupted, TimedOut} && !run.simulation && !run.cacheHit
    && match run.output
       case None => false
       case Some(d) => d.tokens.prompt > 0 || d.tokens.completion > 0 || d.tokens.cost > 0 || d.tokens.unmetered
  }

  /** What is owed: a row with the run's own prompt and completion tokens exactly if it did
      work, its result for its agent's cache time exactly if it succeeded with one that
      may be cached, and a hook exactly if somebody listens. */
  lemma OwedMeans(w: World, r: RunId)
    requires r in w.runs
    ensures var run, owed := w.runs[r], Owed(w, r);
            && (owed.bill.Some? <==> Worked(run))
            && (owed.bill.Some? ==> var u, d := owed.bill.value, run.output.value;
                  u.run == r && u.agent == run.agent && u.at == run.updatedAt && u.tokensIn == d.tokens.prompt && u.tokensOut == d.tokens.completion)
            && (owed.cached.Some? <==>
                  && run.status == Success && run.output.Some? && run.output.value.decodable && run.cacheKey != ""
                  && run.agent in w.ttl && w.ttl[run.agent] > 0)
            && (owed.cached.Some? ==> var e := owed.cached.value;
                  e.values == run.output.value.values && e.createdAt == run.updatedAt && e.expiresAt - e.createdAt == w.ttl[run.agent])
            && !owed.held && owed.closed && (owed.claimed <==> w.sinks)
  {}

  /** Over every history, nobody is billed who did no work, nor for tokens that are not
      theirs; and a hook says how its run ended. */
  lemma RecordsAreTrue(w: World, acts: seq<Act>)
    ensures var s := Play(w, EMPTY, acts);
            && (forall u :: u in s.usage ==>
                  && u.run in w.runs && Worked(w.runs[u.run]) && u.agent == w.runs[u.run].agent
                  && u.tokensIn == w.runs[u.run].output.value.tokens.prompt && u.tokensOut == w.runs[u.run].output.value.tokens.completion)
            && (forall h :: h in s.dispatched ==>
                  && h.run in w.runs
                  && (h.kind == InterruptHook <==> w.runs[h.run].status == Interrupted)
                  && (h.kind == ErrorHook <==> w.runs[h.run].status == Failed || w.runs[h.run].status == TimedOut))
  {
    InvAlways(w, acts);
    hide RowsOf, Play;
    var s := Play(w, EMPTY, acts);
    forall u | u in s.usage
      ensures u.run in w.runs && Worked(w.runs[u.run]) && u == Bill(u.run, w.runs[u.run])
    {
      assert Right(w, u);
    }
    forall h | h in s.dispatched
      ensures h.run in w.runs && h == HookOf(h.run, w.runs[h.run])
    {
      assert Sent(w, s, h);
    }
  }

  /** Nobody else places a hold for `r` from here on. */
  ghost predicate NoPlacing(others: seq<seq<Act>>, r: RunId) {
    forall script :: script in others ==> PlaceHold(r) !in script
  }

  /** Nobody else saves another run to the slot of `r` from here on. */
  ghost predicate NoSaving(w: World, others: seq<seq<Act>>, r: RunId)
    requires r in w.runs
  {
    forall script, x :: script in others && SaveCache(x) in script && x != r ==> !Saves(w, SaveCache(x), w.runs[r].cacheKey)
  }

  lemma {:induction false} StaysSaved(w: World, acts: seq<Act>, more: seq<Act>, r: RunId)
    requires r in w.runs && Cacheable(w, w.runs[r]) && SavedLast(w, acts, r)
    requires forall x :: SaveCache(x) in more && x != r ==> !Saves(w, SaveCache(x), w.runs[r].cacheKey)
    ensures SavedLast(w, acts + more, r)
    decreases more
  {
    if more == [] {
      assert acts + more == acts;
    } else {
      var front := more[..|more| - 1];
      assert more == front + [more[|more| - 1]];
      StaysSaved(w, acts, front, r);
      assert (acts + more)[..|acts + more| - 1] == acts + front;
    }
  }

  lemma {:induction false} StaysReleased(acts: seq<Act>, more: seq<Act>, r: RunId)
    requires !Holding(acts, r) && PlaceHold(r) !in more
    ensures !Holding(acts + more, r)
    decreases more
  {
    if more == [] {
      assert acts + more == acts;
    } else {
      var front := more[..|more| - 1];
      StaysReleased(acts, front, r);
      assert (acts + more)[..|acts + more| - 1] == acts + front;
    }
  }

  // ----- A replica's pass -----

  /** How a store call ends: done, done but its reply lost, or not done. */
  datatype Outcome = Ok | Lost | Err

  /**
   * One replica working against the shared store.  `others` is what everybody
   * else does before each of its calls, `outcomes` how its own calls end, and
   * `lookups` whether its agent reads succeed; `finished` is its local memory
   * of runs it has finished.  `log` is the history of the store.
   */
  class Replica {
    const w: World
    var s: State
    var finished: set<RunId>
    var others: seq<seq<Act>>
    var outcomes: seq<Outcome>
    var lookups: seq<bool>
    ghost var log: seq<Act>

    ghost predicate Valid()
      reads this
    {
      s == Play(w, EMPTY, log) && (w.sinks ==> forall r :: r in finished ==> ClaimTried(log, r))
    }

    /** Nobody else acts and nothing fails. */
    predicate Quiet()
      reads this
    {
      others == [] && outcomes == [] && lookups == []
    }

    /** Time only adds to the history and uses up the scripts. */
    twostate predicate Later()
      reads this
    {
      && old(log) <= log && old(finished) <= finished
      && (forall script :: script in others ==> script in old(others))
      && (forall r :: NoPlacing(old(others), r) && !Holding(old(log), r) ==> !Holding(log, r))
    }

    /** And nobody has touched the slot of `r`. */
    twostate predicate SlotKept(r: RunId)
      requires r in w.runs && Cacheable(w, w.runs[r])
      reads this
    {
      NoSaving(w, old(others), r) && SavedLast(w, old(log), r) ==> SavedLast(w, log, r)
    }

    constructor (w: World, others: seq<seq<Act>>, outcomes: seq<Outcome>, lookups: seq<bool>)
      ensures Valid() && this.w == w && log == [] && s == EMPTY && finished == {}
      ensures this.others == others && this.outcomes == outcomes && this.lookups == lookups
    {
      this.w := w;
      s := EMPTY;
      finished := {};
      this.others := others;
      this.outcomes := outcomes;
      this.lookups := lookups;
      log := [];
    }

    method Interfere()
      requires Valid()
      modifies this
      ensures Valid() && Later() && finished == old(finished)
      ensures others == (if old(others) == [] then [] else old(others)[1..])
      ensures log == old(log) + (if old(others) == [] then [] else old(others)[0])
      ensures outcomes == old(outcomes) && lookups == old(lookups)
      ensures forall r :: r in w.runs && Cacheable(w, w.runs[r]) ==> SlotKept(r)
    {
      hide Apply, Holding, SavedLast, Cacheable, Saves;
      if others != [] {
        var script := others[0];
        others := others[1..];
        var i := 0;
        while i < |script|
          invariant 0 <= i <= |script|
          invariant s == Play(w, EMPTY, log) && log == old(log) + script[..i]
          invariant finished == old(finished) && others == old(others)[1..]
          invariant outcomes == old(outcomes) && lookups == old(lookups)
        {
          assert (log + [script[i]])[..|log|] == log;
          s := Apply(w, s, script[i]);
          log := log + [script[i]];
          assert script[..i + 1] == script[..i] + [script[i]];
          i := i + 1;
        }
        assert script[..|script|] == script;
        forall r | NoPlacing(old(others), r) && !Holding(old(log), r)
          ensures !Holding(log, r)
        {
          assert script in old(others);
          StaysReleased(old(log), script, r);
        }
        forall r | r in w.runs && Cacheable(w, w.runs[r]) && NoSaving(w, old(others), r) && SavedLast(w, old(log), r)
          ensures SavedLast(w, log, r)
        {
          assert script in old(others);
          StaysSaved(w, old(log), script, r);
        }
      }
    }

    /** The store takes one step. */
    method Take(step: Act)
      requires Valid() && !step.PlaceHold?
      modifies this`s, this`log
      ensures Valid() && log == old(log) + [step]
      ensures forall r :: !Holding(old(log), r) ==> !Holding(log, r)
      ensures !step.SaveCache? ==> forall r :: r in w.runs && Cacheable(w, w.runs[r]) ==> SlotKept(r)
    {
      hide Cacheable, Apply;
      assert (log + [step])[..|log|] == log;
      s := Apply(w, s, step);
      log := log + [step];
    }

    /** What a call leaves in the history; the winner of a claim whose reply is lost never hears of it. */
    static function Effect(a: Act, outcome: Outcome): seq<Act> {
      match outcome
      case Ok => [a]
      case Lost => [if a.ClaimHook? then ClaimHook(a.r, false) else a]
      case Err => []
    }

    /** One store call; the others get in first, and its reply may be lost. */
    method Do(a: Act) returns (ok: bool, won: bool)
      requires Valid() && !a.PlaceHold? && (a.ClaimHook? ==> a.heard)
      modifies this
      ensures Valid() && Later() && finished == old(finished) && lookups == old(lookups)
      ensures ok ==> log != [] && log[|log| - 1] == a
      // what the store did and what the caller heard are as the call turned out
      ensures var outcome := if old(outcomes) == [] then Ok else old(outcomes)[0];
              && (ok <==> outcome.Ok?) && outcomes == (if old(outcomes) == [] then [] else old(outcomes)[1..])
              && log == old(log) + (if old(others) == [] then [] else old(others)[0]) + Effect(a, outcome)
      ensures old(Quiet()) ==> Quiet() && ok && log == old(log) + [a]
      ensures ok && a.ClaimHook? && a.r in w.runs && w.sinks ==> (won <==> !ClaimTried(log[..|log| - 1], a.r))
      ensures !a.SaveCache? ==> forall r :: r in w.runs && Cacheable(w, w.runs[r]) ==> SlotKept(r)
    {
      hide Cacheable, SavedLast, Saves, Holding, Play;
      Interfere();
      var outcome := Ok;
      if outcomes != [] {
        outcome, outcomes := outcomes[0], outcomes[1..];
      }
      won := a.r !in s.claims;
      ok := outcome.Ok?;
      if a.r in w.runs && w.sinks {
        HookSentIff(w, log, a.r);
      }
      if !outcome.Err? {
        Take(if outcome.Lost? && a.ClaimHook? then a.(heard := false) else a);
      }
    }

    method PersistTerminalUsage(r: RunId) returns (ok: bool)
      requires Valid() && r in w.runs
      modifies this
      ensures Valid() && Later() && finished == old(finished) && lookups == old(lookups)
      ensures ok && Billable(w.runs[r]) ==> WriteUsage(r) in log
      ensures old(Quiet()) ==> Quiet() && ok && log == old(log) + (if Billable(w.runs[r]) then [WriteUsage(r)] else [])
    {
      ok := true;
      if Billable(w.runs[r]) {
        var won;
        ok, won := Do(WriteUsage(r));
      }
    }

    method ReleaseUsageHold(r: RunId) returns (ok: bool)
      requires Valid()
      modifies this
      ensures Valid() && Later() && finished == old(finished) && lookups == old(lookups)
      ensures ok ==> !Holding(log, r)
      ensures forall x :: x in w.runs && Cacheable(w, w.runs[x]) ==> SlotKept(x)
      ensures old(Quiet()) ==> Quiet() && ok && log == old(log) + [ReleaseHold(r)]
    {
      var won;
      ok, won := Do(ReleaseHold(r));
    }

    /** `looked`: the agent was read, or did not have to be. */
    method MaybeCacheRunResult(r: RunId) returns (ok: bool, ghost looked: bool)
      requires Valid() && r in w.runs && HasResult(w.runs[r]) && w.runs[r].output.value.decodable
      modifies this
      ensures Valid() && Later() && finished == old(finished)
      ensures ok && looked && Cacheable(w, w.runs[r]) ==> SavedLast(w, log, r)
      ensures !looked <==> w.runs[r].cacheKey != "" && old(lookups) != [] && !old(lookups)[0]
      ensures !looked ==> ok && log == old(log)
      ensures lookups == if w.runs[r].cacheKey == "" || old(lookups) == [] then old(lookups) else old(lookups)[1..]
      ensures old(Quiet()) ==> Quiet() && ok && looked && log == old(log) + (if Cacheable(w, w.runs[r]) then [SaveCache(r)] else [])
    {
      var run := w.runs[r];
      ok, looked := true, true;
      if run.cacheKey == "" {
        return;
      }
      var found := true;
      if lookups != [] {
        found, lookups := lookups[0], lookups[1..];
      }
      if !found {
        looked := false;
        return;
      }
      if run.agent in w.ttl && w.ttl[run.agent] > 0 {
        var won;
        ok, won := Do(SaveCache(r));
      }
    }

    method FinishRun(r: RunId) returns (ok: bool)
      requires Valid() && r in w.runs
      modifies this
      ensures Valid() && Later()
      ensures ok ==> (w.sinks ==> ClaimTried(log, r))
      ensures ok && Terminal(w.runs[r].status) && NoPlacing(old(others), r) ==> !Holding(log, r)
      ensures Cacheable(w, w.runs[r]) ==> SlotKept(r)
      ensures old(Quiet()) && Terminal(w.runs[r].status) ==>
                ok && r in finished && log == old(log) + ([ReleaseHold(r)] + (if w.sinks && r !in old(finished) then [ClaimHook(r, true)] else []))
      ensures old(Quiet()) && !Terminal(w.runs[r].status) ==>
                ok && r in finished && log == old(log) + (if w.sinks && r !in old(finished) then [ClaimHook(r, true)] else [])
    {
      hide Holding, Play, SavedLast, Saves, Apply, Cacheable;
      if Terminal(w.runs[r].status) {
        ok := ReleaseUsageHold(r);
        if !ok {
          return;
        }
      }
      ok := true;
      if r in finished {
        return;
      }
      if !w.sinks {
        finished := finished + {r};
        return;
      }
      var won;
      ok, won := Do(ClaimHook(r, true));
      if ok {
        finished := finished + {r};
      }
    }

    /** Usage row, hold and result cache. */
    method KeepBooks(r: RunId) returns (ok: bool, ghost looked: bool)
      requires Valid() && r in w.runs
      modifies this
      ensures Valid() && Later() && finished == old(finished)
      ensures ok && Billable(w.runs[r]) ==> WriteUsage(r) in log
      ensures ok && looked && Cacheable(w, w.runs[r]) ==> SavedLast(w, log, r)
      ensures HasResult(w.runs[r]) && !w.runs[r].output.value.decodable ==> !ok
      ensures ok && NoPlacing(old(others), r) ==> !Holding(log, r)
      ensures old(Quiet()) && (HasResult(w.runs[r]) ==> w.runs[r].output.value.decodable) ==>
                Quiet() && ok && looked && log == old(log) + Front(w, r)
    {
      hide Holding, Play;
      var run := w.runs[r];
      looked := true;
      ok := PersistTerminalUsage(r);
      if !ok {
        return;
      }
      ok := ReleaseUsageHold(r);
      if !ok {
        return;
      }
      if HasResult(run) {
        if !run.output.value.decodable {
          ok := false;
          return;
        }
        ok, looked := MaybeCacheRunResult(r);
      }
    }

    /** Close the stream, release once more, claim the hook. */
    method CloseAndTell(r: RunId) returns (ok: bool)
      requires Valid() && r in w.runs && Terminal(w.runs[r].status)
      modifies this
      ensures Valid() && Later()
      ensures ok ==> Close(r) in log && (w.sinks ==> ClaimTried(log, r))
      ensures ok && NoPlacing(old(others), r) ==> !Holding(log, r)
      ensures Cacheable(w, w.runs[r]) ==> SlotKept(r)
      ensures old(Quiet()) ==> ok && log == old(log) + Back(r, w.sinks && r !in old(finished))
    {
      hide Holding, Play;
      var won;
      ok, won := Do(Close(r));
      if ok {
        ok := FinishRun(r);
      }
    }

    /**
     * One pass.  If it succeeds then every step has gone through at some point,
     * the run is billed, closed and claimed as owed, and no hold is left unless
     * somebody placed one meanwhile; its result is cached if the agent could be
     * read and nobody saved another run of the same request meanwhile.
     */
    method FinalizeCommittedRun(r: RunId) returns (ok: bool, ghost looked: bool)
      requires Valid() && r in w.runs && Terminal(w.runs[r].status)
      modifies this
      ensures Valid() && Later()
      ensures ok ==> Taken(w, log, r)
      ensures HasResult(w.runs[r]) && !w.runs[r].output.value.decodable ==> !ok
      ensures ok ==> ViewOf(w, s, r).(held := false, cached := None) == Owed(w, r).(cached := None)
      ensures ok && NoPlacing(old(others), r) && looked && NoSaving(w, old(others), r) ==> ViewOf(w, s, r) == Owed(w, r)
      // undisturbed it takes exactly the steps of one pass, leaving out a hook it knows to be claimed
      ensures old(Quiet()) && (HasResult(w.runs[r]) ==> w.runs[r].output.value.decodable) ==>
                ok && looked && log == old(log) + (Front(w, r) + Back(r, w.sinks && r !in old(finished)))
    {
      hide Holding, Play, Front, Back, Billable, Cacheable, SavedLast, Saves;
      ok, looked := KeepBooks(r);
      if ok {
        ghost var mid := log;
        ok := CloseAndTell(r);
        assert mid <= log;
      }
      if ok {
        TakenIsOwedIff(w, log, r);
      }
    }
  }
}
