/**
 * Creating a run on a thread (internal/api/runs.go): the retry pre-check, the
 * thread claim, the insert, and the release or rollback after a failure, for
 * any number of requests interleaving with each other and with completions.
 *
 * A request is a small program whose position is its `Pc`; every read, write
 * or reply of the code is one `Act`.  A store call goes through, fails without
 * effect, or takes effect and loses its reply.
 */
module RunCreation {
  import opened Common

  type RunId = string
  type ThreadId = string
  type Agent = string

  /**
   * `agent` is the name the client sent ("" for none); `routed` and `alias` are
   * what alias resolution and budget routing made of it.  `thread` is the
   * thread used; `named` says whether the client chose it.
   */
  datatype Request = Request(id: RunId, client: bool, thread: ThreadId, named: bool, agent: Agent, routed: Agent, alias: Option<Agent>, input: string)

  datatype RunRow = RunRow(thread: ThreadId, active: bool, agent: Agent, alias: Option<Agent>, input: string)

  datatype Reply = Accepted | Existing | Conflict | Busy | Refused | RolledBack

  /** How a store call ends for its caller. */
  datatype Call = Went | Failed | Lost

  /** How the `i`-th call from here ends. */
  function Nth(calls: seq<Call>, i: nat): Call { if i < |calls| then calls[i] else Went }

  /**
   * `owns` says that what the request is about to release is still its own:
   * its claim, with no row inserted under it, or the thread of the run that
   * this rollback, and nobody else, ended.  `last` marks the second and last
   * attempt of a write that the code retries once.
   */
  datatype Pc =
    | Arrived
    | Checked
    | Claimed
    | Looking(otherwise: Reply, claimed: bool, owns: bool) // for a run of that id, after a store call failed
    | Failing(reply: Reply, owns: bool, last: bool)
    | Created
    | EnqueueFailed
    | RollingBack(owns: bool, last: bool)
    | Done(reply: Reply)

  datatype World = World(aliases: set<Agent>, requests: seq<Request>)

  /** Whether a request inserted the row of its id, and if so as a run still to be done. */
  datatype Insertion = No | Yes(active: bool)

  datatype State = State(busy: set<ThreadId>, runs: map<RunId, RunRow>, pcs: seq<Pc>, inserted: seq<Insertion>)

  /** `read` says whether the look at the stored run that goes with the step succeeds. */
  datatype Act =
    | PreCheck(k: nat, read: bool)
    | Refuse(k: nat)
    | CacheHit(k: nat, call: Call, read: bool)
    | Claim(k: nat, call: Call)
    | Fail(k: nat)
    | Insert(k: nat, call: Call)
    | Look(k: nat, read: bool)
    | Release(k: nat, call: Call)
    | Enqueue(k: nat, accepted: bool)
    | MarkFailed(k: nat, wrote: bool)
    | ReleaseAfterRollback(k: nat, call: Call)
    | Complete(id: RunId)

  // ----- Fingerprint -----

  /** The comparison of a retry with the run it names; an empty field is not compared. */
  predicate Mismatch(aliases: set<Agent>, row: RunRow, agent: Agent, thread: ThreadId, input: string) {
    || (agent != "" && if agent in aliases then row.alias != Some(agent) else row.agent != agent)
    || (thread != "" && row.thread != thread)
    || (input != "" && row.input != input)
  }

  /** The pre-check compares what the client sent. */
  predicate EarlyMismatch(w: World, row: RunRow, q: Request) {
    Mismatch(w.aliases, row, q.agent, if q.named then q.thread else "", q.input)
  }

  /** The race fallbacks compare after routing, and with the thread actually used. */
  predicate LateMismatch(w: World, row: RunRow, q: Request) {
    Mismatch(w.aliases, row, q.routed, q.thread, q.input)
  }

  // ----- Steps -----

  function RowOf(q: Request, active: bool): RunRow {
    RunRow(q.thread, active, q.routed, q.alias, q.input)
  }

  /** The answer of a race fallback: the run of that id if it fits, a conflict if it does not. */
  function Fallback(w: World, s: State, q: Request, read: bool, otherwise: Reply): Reply {
    if read && q.client && q.id in s.runs then (if LateMismatch(w, s.runs[q.id], q) then Conflict else Existing) else otherwise
  }

  /** The store's guard: nobody else is active on the thread. */
  predicate NoOtherActive(s: State, thread: ThreadId, id: RunId) {
    forall x :: x in s.runs && x != id ==> !(s.runs[x].active && s.runs[x].thread == thread)
  }

  function Go(s: State, k: nat, pc: Pc): State
    requires k < |s.pcs|
  {
    s.(pcs := s.pcs[k := pc])
  }

  /** The insert of request `k`'s row, unless the id is taken. */
  function Store(w: World, s: State, k: nat, active: bool): State
    requires k < |w.requests| == |s.inserted|
  {
    var q := w.requests[k];
    if q.id in s.runs then s
    else s.(runs := s.runs[q.id := RowOf(q, active)], inserted := s.inserted[k := Yes(active)])
  }

  predicate Ready(w: World, s: State, k: nat) {
    k < |s.pcs| == |w.requests| == |s.inserted|
  }

  predicate Enabled(w: World, s: State, k: nat, pc: Pc) {
    Ready(w, s, k) && s.pcs[k] == pc
  }

  function Apply(w: World, s: State, a: Act): State {
    match a
    case PreCheck(k, read) => if !Enabled(w, s, k, Arrived) then s else ApplyPreCheck(w, s, k, read)
    case Refuse(k) => if !Enabled(w, s, k, Checked) then s else Go(s, k, Done(Refused))
    case CacheHit(k, call, read) => if !Enabled(w, s, k, Checked) then s else ApplyCacheHit(w, s, k, call, read)
    case Claim(k, call) => if !Enabled(w, s, k, Checked) then s else ApplyClaim(w, s, k, call)
    case Fail(k) => if !Enabled(w, s, k, Claimed) then s else Go(s, k, Failing(Refused, true, false))
    case Insert(k, call) => if !Enabled(w, s, k, Claimed) then s else ApplyInsert(w, s, k, call)
    case Look(k, read) => if !(Ready(w, s, k) && s.pcs[k].Looking?) then s else ApplyLook(w, s, k, read)
    case Release(k, call) => if !(Ready(w, s, k) && s.pcs[k].Failing?) then s else ApplyRelease(w, s, k, call)
    case Enqueue(k, accepted) =>
      if !Enabled(w, s, k, Created) then s else Go(s, k, if accepted then Done(Accepted) else EnqueueFailed)
    case MarkFailed(k, wrote) =>
      if !Enabled(w, s, k, EnqueueFailed) || w.requests[k].id !in s.runs then s
      else
        var id := w.requests[k].id;
        if wrote then Go(s.(runs := s.runs[id := s.runs[id].(active := false)]), k, RollingBack(s.runs[id].active, false))
        else Go(s, k, RollingBack(false, false))
    case ReleaseAfterRollback(k, call) =>
      if !(Ready(w, s, k) && s.pcs[k].RollingBack?) then s else ApplyRollbackRelease(w, s, k, call)
    case Complete(id) =>
      if id in s.runs && s.runs[id].active then
        s.(busy := if NoOtherActive(s, s.runs[id].thread, id) then s.busy - {s.runs[id].thread} else s.busy,
           runs := s.runs[id := s.runs[id].(active := false)])
      else s
  }

  /** A look that fails counts as no run of that id. */
  function ApplyPreCheck(w: World, s: State, k: nat, read: bool): State
    requires Ready(w, s, k)
  {
    var q := w.requests[k];
    if read && q.client && q.id in s.runs
    then Go(s, k, Done(if EarlyMismatch(w, s.runs[q.id], q) then Conflict else Existing))
    else Go(s, k, Checked)
  }

  /** One transaction inserts the finished run if nobody holds the thread; the run is then read back. */
  function ApplyCacheHit(w: World, s: State, k: nat, call: Call, read: bool): State
    requires Ready(w, s, k)
  {
    var q := w.requests[k];
    var stored := q.id !in s.runs && q.thread !in s.busy && !call.Failed?;
    var t := if stored then Store(w, s, k, false) else s;
    Go(t, k, if stored && call.Went? then Done(if read then Accepted else Refused) else Looking(Refused, false, false))
  }

  /** An error of the claim is answered at once: the release is not armed yet. */
  function ApplyClaim(w: World, s: State, k: nat, call: Call): State
    requires Ready(w, s, k)
  {
    var q := w.requests[k];
    var t := if call.Failed? then s else s.(busy := s.busy + {q.thread});
    if !call.Went? then Go(t, k, Done(Refused))
    else if q.thread !in s.busy then Go(t, k, Claimed)
    else Go(s, k, Looking(Busy, false, false))
  }

  /** An error of the insert looks for a run of that id, which may be the one it just stored. */
  function ApplyInsert(w: World, s: State, k: nat, call: Call): State
    requires Ready(w, s, k)
  {
    var q := w.requests[k];
    var t := if call.Failed? then s else Store(w, s, k, true);
    if call.Went? && q.id !in s.runs then Go(t, k, Created) else Go(t, k, Looking(Refused, true, t == s))
  }

  /** The answer is that run or a conflict with it; what was claimed is then released. */
  function ApplyLook(w: World, s: State, k: nat, read: bool): State
    requires Ready(w, s, k) && s.pcs[k].Looking?
  {
    var Looking(otherwise, claimed, owns) := s.pcs[k];
    var reply := Fallback(w, s, w.requests[k], read, otherwise);
    Go(s, k, if claimed then Failing(reply, owns, false) else Done(reply))
  }

  /** The unconditional idling of the thread, tried twice. */
  function ApplyRelease(w: World, s: State, k: nat, call: Call): State
    requires Ready(w, s, k) && s.pcs[k].Failing?
  {
    var Failing(reply, owns, last) := s.pcs[k];
    var t := if call.Failed? then s else s.(busy := s.busy - {w.requests[k].thread});
    Go(t, k, if call.Went? || last then Done(reply) else Failing(reply, owns && call.Failed?, true))
  }

  /** The guarded release of a rollback, tried twice. */
  function ApplyRollbackRelease(w: World, s: State, k: nat, call: Call): State
    requires Ready(w, s, k) && s.pcs[k].RollingBack?
  {
    var RollingBack(owns, last) := s.pcs[k];
    var t := if !call.Failed? && Releases(w, s, k) then s.(busy := s.busy - {w.requests[k].thread}) else s;
    Go(t, k, if call.Went? || last then Done(RolledBack) else RollingBack(owns && call.Failed?, true))
  }

  /** The guard of the rollback's release: the thread is busy and no run but this one is active on it. */
  predicate Releases(w: World, s: State, k: nat)
    requires k < |w.requests|
  {
    w.requests[k].thread in s.busy && NoOtherActive(s, w.requests[k].thread, w.requests[k].id)
  }

  function Play(w: World, s: State, acts: seq<Act>): State
    decreases acts
  {
    if acts == [] then s else Play(w, Apply(w, s, acts[0]), acts[1..])
  }

  function Start(w: World): State {
    State({}, map[], seq(|w.requests|, k => Arrived), seq(|w.requests|, k => No))
  }

  // ----- Idempotent creation -----

  /** A request that knows it inserted the row of its id, and enqueues or rolls back. */
  predicate Creator(pc: Pc) {
    pc.Created? || pc.EnqueueFailed? || pc.RollingBack? || pc == Done(Accepted) || pc == Done(RolledBack)
  }

  predicate Answers(pc: Pc, reply: Reply) {
    pc == Done(reply) || (pc.Failing? && pc.reply == reply)
  }

  predicate Named(w: World, s: State, q: Request, mismatch: bool) {
    q.client && q.id in s.runs &&
    (EarlyMismatch(w, s.runs[q.id], q) == mismatch || LateMismatch(w, s.runs[q.id], q) == mismatch)
  }

  /** What a request's position says about the row of its id. */
  predicate Filed(w: World, s: State, q: Request, pc: Pc, inserted: Insertion) {
    && (inserted.Yes? ==> q.id in s.runs && s.runs[q.id].(active := true) == RowOf(q, true))
    && (Creator(pc) ==> inserted.Yes?)
    && (Answers(pc, Existing) ==> Named(w, s, q, false))
    && (Answers(pc, Conflict) ==> Named(w, s, q, true))
    && (pc.RollingBack? && pc.owns ==> !s.runs[q.id].active)
    && (pc.Failing? ==> !Creator(Done(pc.reply)))
    && (pc.Looking? ==> pc.otherwise == Busy || pc.otherwise == Refused)
  }

  ghost predicate CreatedBy(w: World, s: State, id: RunId, k: nat) {
    Ready(w, s, k) && s.inserted[k].Yes? && w.requests[k].id == id
  }

  /**
   * Every row was inserted by exactly one request and says what that request
   * asked for; a request told of an existing run passed a comparison with it,
   * and a request told of a conflict failed one.
   */
  ghost predicate Books(w: World, s: State) {
    && |s.pcs| == |w.requests| == |s.inserted|
    && (forall k :: 0 <= k < |s.pcs| ==> Filed(w, s, w.requests[k], s.pcs[k], s.inserted[k]))
    && (forall id, k, l :: CreatedBy(w, s, id, k) && CreatedBy(w, s, id, l) ==> k == l)
    && (forall id :: id in s.runs ==> exists k :: CreatedBy(w, s, id, k))
  }

  /** Rows are never removed, rewritten or made active again. */
  ghost predicate Extends(runs: map<RunId, RunRow>, later: map<RunId, RunRow>) {
    forall id :: id in runs ==>
      id in later && later[id].(active := true) == runs[id].(active := true) && (later[id].active ==> runs[id].active)
  }

  /** One request moves on; it may insert the row of its own id. */
  lemma BooksMoved(w: World, s: State, t: State, k: nat)
    requires Books(w, s) && Ready(w, s, k) && Ready(w, t, k) && Extends(s.runs, t.runs)
    requires t.pcs == s.pcs[k := t.pcs[k]] && t.inserted == s.inserted[k := t.inserted[k]]
    requires s.inserted[k].Yes? ==> t.inserted[k].Yes?
    requires t.inserted[k].Yes? ==> s.inserted[k].Yes? || w.requests[k].id !in s.runs
    requires t.runs.Keys == s.runs.Keys + (if t.inserted[k].Yes? then {w.requests[k].id} else {})
    requires Filed(w, t, w.requests[k], t.pcs[k], t.inserted[k])
    ensures Books(w, t)
  {
    forall l | 0 <= l < |t.pcs|
      ensures Filed(w, t, w.requests[l], t.pcs[l], t.inserted[l])
    {
      if l != k {
        FiledKept(w, s, t, w.requests[l], s.pcs[l], s.inserted[l]);
      }
    }
    hide Filed, Extends;
    forall id | id in t.runs
      ensures exists l :: CreatedBy(w, t, id, l)
    {
      if id in s.runs {
        var l :| CreatedBy(w, s, id, l);
        assert CreatedBy(w, t, id, l);
      } else {
        assert CreatedBy(w, t, id, k);
      }
    }
    forall id, l, m | CreatedBy(w, t, id, l) && CreatedBy(w, t, id, m)
      ensures l == m
    {
      if l != k { InsertedHasRow(w, s, l); }
      if m != k { InsertedHasRow(w, s, m); }
      assert l != k ==> CreatedBy(w, s, id, l) && id in s.runs;
      assert m != k ==> CreatedBy(w, s, id, m) && id in s.runs;
      assert s.inserted[k].Yes? && w.requests[k].id == id ==> CreatedBy(w, s, id, k);
    }
  }

  lemma InsertedHasRow(w: World, s: State, k: nat)
    requires Books(w, s) && Ready(w, s, k)
    ensures s.inserted[k].Yes? ==> w.requests[k].id in s.runs
  {
    assert Filed(w, s, w.requests[k], s.pcs[k], s.inserted[k]);
  }

  /** Nobody moves; a row may become inactive. */
  lemma BooksSettled(w: World, s: State, t: State)
    requires Books(w, s) && t.pcs == s.pcs && t.inserted == s.inserted && Extends(s.runs, t.runs) && t.runs.Keys == s.runs.Keys
    ensures Books(w, t)
  {
    forall l | 0 <= l < |t.pcs|
      ensures Filed(w, t, w.requests[l], t.pcs[l], t.inserted[l])
    {
      FiledKept(w, s, t, w.requests[l], s.pcs[l], s.inserted[l]);
    }
    assert forall id, k :: CreatedBy(w, t, id, k) <==> CreatedBy(w, s, id, k);
  }

  lemma FiledKept(w: World, s: State, t: State, q: Request, pc: Pc, inserted: Insertion)
    requires Filed(w, s, q, pc, inserted) && Extends(s.runs, t.runs)
    ensures Filed(w, t, q, pc, inserted)
  {
  }

  /** A request's own step moves nobody else, and inserts at most its own row. */
  lemma StepRows(w: World, s: State, a: Act)
    requires !a.Complete? && Apply(w, s, a) != s && Ready(w, s, a.k)
    requires Filed(w, s, w.requests[a.k], s.pcs[a.k], s.inserted[a.k])
    ensures var t, k, id := Apply(w, s, a), a.k, w.requests[a.k].id;
            && Ready(w, t, k)
            && t.runs.Keys == s.runs.Keys + (if t.inserted[k].Yes? then {id} else {})
            && Extends(s.runs, t.runs)
  {
    hide EarlyMismatch, LateMismatch, Releases, Named, Answers, Creator, NoOtherActive;
    if a.Insert? || a.CacheHit? {
      InsertRows(w, s, a);
    } else {
      var t := Apply(w, s, a);
      assert s.runs.Keys + {} == s.runs.Keys;
      if a.MarkFailed? {
        assert t.runs.Keys == s.runs.Keys == s.runs.Keys + {w.requests[a.k].id};
      } else {
        assert t.runs == s.runs && t.inserted == s.inserted;
      }
    }
  }

  lemma InsertRows(w: World, s: State, a: Act)
    requires (a.Insert? || a.CacheHit?) && Ready(w, s, a.k)
    requires s.inserted[a.k].Yes? ==> w.requests[a.k].id in s.runs
    ensures var t, k, id := Apply(w, s, a), a.k, w.requests[a.k].id;
            && Ready(w, t, k)
            && t.runs.Keys == s.runs.Keys + (if t.inserted[k].Yes? then {id} else {})
            && Extends(s.runs, t.runs)
  {
    var t := Apply(w, s, a);
    assert s.runs.Keys + {} == s.runs.Keys;
    assert t.runs.Keys == s.runs.Keys + (if t.inserted[a.k].Yes? then {w.requests[a.k].id} else {});
  }

  /** Who has inserted stays the inserter, and nobody inserts an id twice. */
  lemma StepMoves(w: World, s: State, a: Act)
    requires !a.Complete? && Apply(w, s, a) != s && Ready(w, s, a.k)
    ensures var t, k, id := Apply(w, s, a), a.k, w.requests[a.k].id;
            && Ready(w, t, k)
            && t.pcs == s.pcs[k := t.pcs[k]] && t.inserted == s.inserted[k := t.inserted[k]]
            && (s.inserted[k].Yes? ==> t.inserted[k].Yes?)
            && (t.inserted[k].Yes? ==> s.inserted[k].Yes? || id !in s.runs)
  {
    hide EarlyMismatch, LateMismatch, Releases, NoOtherActive, RowOf;
  }

  lemma InsertFiled(w: World, s: State, a: Act)
    requires (a.Insert? || a.CacheHit?) && Apply(w, s, a) != s && Ready(w, s, a.k)
    requires Filed(w, s, w.requests[a.k], s.pcs[a.k], s.inserted[a.k])
    ensures var t := Apply(w, s, a);
            Ready(w, t, a.k) && Filed(w, t, w.requests[a.k], t.pcs[a.k], t.inserted[a.k])
  {
    hide EarlyMismatch, LateMismatch, Releases;
  }

  /** The two other steps that look at the stored run. */
  lemma LookFiled(w: World, s: State, a: Act)
    requires (a.PreCheck? || a.Look?) && Apply(w, s, a) != s && Ready(w, s, a.k)
    requires Filed(w, s, w.requests[a.k], s.pcs[a.k], s.inserted[a.k])
    ensures var t := Apply(w, s, a);
            Ready(w, t, a.k) && Filed(w, t, w.requests[a.k], t.pcs[a.k], t.inserted[a.k])
  {
    hide EarlyMismatch, LateMismatch;
  }

  lemma MoveFiled(w: World, s: State, a: Act)
    requires !a.Complete? && !a.Insert? && !a.CacheHit? && !a.PreCheck? && !a.Look? && Apply(w, s, a) != s && Ready(w, s, a.k)
    requires Filed(w, s, w.requests[a.k], s.pcs[a.k], s.inserted[a.k])
    ensures var t := Apply(w, s, a);
            Ready(w, t, a.k) && Filed(w, t, w.requests[a.k], t.pcs[a.k], t.inserted[a.k])
  {
    hide EarlyMismatch, LateMismatch, Releases;
  }

  /** A request's own step keeps its file right. */
  lemma StepFiled(w: World, s: State, a: Act)
    requires !a.Complete? && Apply(w, s, a) != s && Ready(w, s, a.k)
    requires Filed(w, s, w.requests[a.k], s.pcs[a.k], s.inserted[a.k])
    ensures var t := Apply(w, s, a);
            Ready(w, t, a.k) && Filed(w, t, w.requests[a.k], t.pcs[a.k], t.inserted[a.k])
  {
    hide Apply, Filed;
    if a.Insert? || a.CacheHit? {
      InsertFiled(w, s, a);
    } else if a.PreCheck? || a.Look? {
      LookFiled(w, s, a);
    } else {
      MoveFiled(w, s, a);
    }
  }

  lemma BooksKept(w: World, s: State, a: Act)
    requires Books(w, s)
    ensures Books(w, Apply(w, s, a)) && Extends(s.runs, Apply(w, s, a).runs)
  {
    var t := Apply(w, s, a);
    if a.Complete? {
      BooksSettled(w, s, t);
    } else if t != s {
      var k := a.k;
      assert Ready(w, s, k) && Filed(w, s, w.requests[k], s.pcs[k], s.inserted[k]);
      hide Books, Apply, Extends, Filed;
      StepRows(w, s, a);
      StepMoves(w, s, a);
      StepFiled(w, s, a);
      BooksMoved(w, s, t, k);
    }
  }

  lemma {:induction false} BooksAlways(w: World, s: State, acts: seq<Act>)
    requires Books(w, s)
    ensures Books(w, Play(w, s, acts)) && Extends(s.runs, Play(w, s, acts).runs)
    decreases acts
  {
    if acts != [] {
      BooksKept(w, s, acts[0]);
      BooksAlways(w, Apply(w, s, acts[0]), acts[1..]);
    }
  }

  /** The run of that id has another input, thread or agent than asked for; an empty field was not asked for. */
  predicate OtherInput(row: RunRow, q: Request) { q.input != "" && row.input != q.input }

  predicate OtherThread(row: RunRow, q: Request) { q.thread != "" && row.thread != q.thread }

  /** An alias is compared by its name and any other name with the agent that runs. */
  predicate OtherAgent(w: World, row: RunRow, name: Agent) {
    name != "" && ((name in w.aliases && row.alias != Some(name)) || (name !in w.aliases && row.agent != name))
  }

  /** What an answer tells the client about the run of its id. */
  ghost predicate Told(w: World, s: State, q: Request, reply: Reply) {
    match reply
    case Accepted => q.id in s.runs && s.runs[q.id].(active := true) == RunRow(q.thread, true, q.routed, q.alias, q.input)
    case RolledBack => q.id in s.runs && s.runs[q.id].(active := true) == RunRow(q.thread, true, q.routed, q.alias, q.input)
    case Existing =>
      && q.client && q.id in s.runs && !OtherInput(s.runs[q.id], q) && (q.named ==> !OtherThread(s.runs[q.id], q))
      && (!OtherAgent(w, s.runs[q.id], q.agent) || !OtherAgent(w, s.runs[q.id], q.routed))
    case Conflict =>
      && q.client && q.id in s.runs
      && (OtherInput(s.runs[q.id], q) || OtherThread(s.runs[q.id], q) || OtherAgent(w, s.runs[q.id], q.agent) || OtherAgent(w, s.runs[q.id], q.routed))
    case Busy => true
    case Refused => true
  }

  lemma FiledTells(w: World, s: State, q: Request, pc: Pc, inserted: Insertion)
    requires Filed(w, s, q, pc, inserted) && pc.Done?
    ensures Told(w, s, q, pc.reply)
  {}

  /**
   * For every interleaving from an empty store: at most one request ever
   * inserts the row of an id; a request answered with success finds that one
   * row, its own or one with the input and thread it asked for; a conflict
   * means that the row has another input, thread or agent.
   */
  lemma IdempotentCreation(w: World, acts: seq<Act>)
    ensures var s := Play(w, Start(w), acts);
            && |s.pcs| == |w.requests| == |s.inserted|
            && (forall id, k, l :: CreatedBy(w, s, id, k) && CreatedBy(w, s, id, l) ==> k == l)
            && (forall id :: id in s.runs ==> exists k :: CreatedBy(w, s, id, k))
            && (forall k :: 0 <= k < |s.pcs| ==> Filed(w, s, w.requests[k], s.pcs[k], s.inserted[k]))
            && (forall k :: 0 <= k < |s.pcs| && s.pcs[k].Done? ==> Told(w, s, w.requests[k], s.pcs[k].reply))
  {
    BooksAlways(w, Start(w), acts);
    var s := Play(w, Start(w), acts);
    forall k | 0 <= k < |s.pcs| && s.pcs[k].Done? ensures Told(w, s, w.requests[k], s.pcs[k].reply) {
      FiledTells(w, s, w.requests[k], s.pcs[k], s.inserted[k]);
    }
  }

  /** Every run inserted to be done has an inserter that knows of it, and so enqueues it or rolls it back. */
  ghost predicate Minded(w: World, s: State) {
    forall k: nat :: Ready(w, s, k) && s.inserted[k] == Yes(true) ==> Creator(s.pcs[k])
  }

  /** An insert that is stored without its request learning so. */
  predicate Strays(w: World, s: State, a: Act) {
    a.Insert? && Enabled(w, s, a.k, Claimed) && w.requests[a.k].id !in s.runs && a.call.Lost?
  }

  /**
   * Exactly then is a run left to nobody: its request answers as if the run
   * were another's, or with an error, and never enqueues it.
   */
  lemma MindedKeptIff(w: World, s: State, a: Act)
    requires Books(w, s) && Minded(w, s)
    ensures Minded(w, Apply(w, s, a)) <==> !Strays(w, s, a)
  {
    var t := Apply(w, s, a);
    if !a.Complete? && t != s {
      var k := a.k;
      assert Ready(w, s, k) && Filed(w, s, w.requests[k], s.pcs[k], s.inserted[k]);
      StepMoves(w, s, a);
      StrayStep(w, s, a);
      assert forall l: nat :: Ready(w, t, l) && l != k ==> t.pcs[l] == s.pcs[l] && t.inserted[l] == s.inserted[l];
    }
  }

  lemma StrayStep(w: World, s: State, a: Act)
    requires !a.Complete? && Apply(w, s, a) != s && Ready(w, s, a.k)
    requires Filed(w, s, w.requests[a.k], s.pcs[a.k], s.inserted[a.k]) && (s.inserted[a.k] == Yes(true) ==> Creator(s.pcs[a.k]))
    ensures var t := Apply(w, s, a); Ready(w, t, a.k) && ((t.inserted[a.k] == Yes(true) ==> Creator(t.pcs[a.k])) <==> !Strays(w, s, a))
  {
    hide EarlyMismatch, LateMismatch, Releases, Named;
  }

  lemma StrayMoves(w: World, s: State, a: Act)
    requires !a.Complete? && Apply(w, s, a) != s && Ready(w, s, a.k)
    requires w.requests[a.k].id in s.runs && !Creator(s.pcs[a.k])
    requires s.pcs[a.k].Failing? ==> !Creator(Done(s.pcs[a.k].reply))
    requires s.pcs[a.k].Looking? ==> s.pcs[a.k].otherwise == Busy || s.pcs[a.k].otherwise == Refused
    ensures var t := Apply(w, s, a); Ready(w, t, a.k) && !Creator(t.pcs[a.k]) && t.inserted[a.k] == s.inserted[a.k]
  {
    hide EarlyMismatch, LateMismatch, Releases;
  }

  /** A run once left to nobody stays so. */
  lemma StrayStays(w: World, s: State, a: Act, k: nat)
    requires Books(w, s) && Ready(w, s, k) && s.inserted[k] == Yes(true) && !Creator(s.pcs[k])
    ensures var t := Apply(w, s, a); Ready(w, t, k) && t.inserted[k] == Yes(true) && !Creator(t.pcs[k])
  {
    assert Filed(w, s, w.requests[k], s.pcs[k], s.inserted[k]);
    hide Books, Creator;
    if !a.Complete? && Apply(w, s, a) != s {
      assert Ready(w, s, a.k);
      hide Apply;
      StepMoves(w, s, a);
      if a.k == k { StrayMoves(w, s, a); }
    }
  }

  ghost predicate NeverStrays(w: World, s: State, acts: seq<Act>)
    decreases acts
  {
    acts == [] || (!Strays(w, s, acts[0]) && NeverStrays(w, Apply(w, s, acts[0]), acts[1..]))
  }

  /** After any history, every run has somebody to enqueue it exactly when no such insert happened. */
  lemma {:induction false} MindedIff(w: World, s: State, acts: seq<Act>)
    requires Books(w, s)
    ensures Minded(w, Play(w, s, acts)) <==> Minded(w, s) && NeverStrays(w, s, acts)
    decreases acts
  {
    if acts != [] {
      var t := Apply(w, s, acts[0]);
      hide Apply, Strays, Books;
      BooksKept(w, s, acts[0]);
      MindedIff(w, t, acts[1..]);
      if Minded(w, s) {
        MindedKeptIff(w, s, acts[0]);
      } else {
        var k: nat :| Ready(w, s, k) && s.inserted[k] == Yes(true) && !Creator(s.pcs[k]);
        StrayStays(w, s, acts[0], k);
      }
    }
  }

  // ----- Thread exclusion -----

  /** Who holds a thread: an active run, or a request between its claim and its release. */
  datatype Owner = ByRun(id: RunId) | ByRequest(k: nat)

  predicate Owns(w: World, s: State, o: Owner, thread: ThreadId) {
    match o
    case ByRun(id) => id in s.runs && s.runs[id].active && s.runs[id].thread == thread
    case ByRequest(k) =>
      && k < |s.pcs| == |w.requests| && w.requests[k].thread == thread
      && (s.pcs[k].Claimed? || (s.pcs[k].Failing? && s.pcs[k].owns) || (s.pcs[k].RollingBack? && s.pcs[k].owns) ||
          (s.pcs[k].Looking? && s.pcs[k].claimed && s.pcs[k].owns))
  }

  /** A thread never has two owners, and it is busy exactly when it has one. */
  ghost predicate Exclusive(w: World, s: State) {
    && (forall o, p, thread :: Owns(w, s, o, thread) && Owns(w, s, p, thread) ==> o == p)
    && (forall thread :: thread in s.busy ==> exists o :: Owns(w, s, o, thread))
    && (forall o, thread :: Owns(w, s, o, thread) ==> thread in s.busy)
  }

  /**
   * The steps that respect ownership: the reply of an effective claim is not
   * lost, a release that is due is written by the second attempt at the
   * latest, and one that is no longer due finds nothing to release.
   */
  ghost predicate Clean(w: World, s: State, a: Act) {
    match a
    case Claim(k, call) => Enabled(w, s, k, Checked) && w.requests[k].thread !in s.busy ==> !call.Lost?
    case Release(k, call) =>
      Ready(w, s, k) && s.pcs[k].Failing? ==>
        if s.pcs[k].owns then !(call.Failed? && s.pcs[k].last) else !(!call.Failed? && w.requests[k].thread in s.busy)
    case ReleaseAfterRollback(k, call) =>
      Ready(w, s, k) && s.pcs[k].RollingBack? ==>
        if s.pcs[k].owns then !(call.Failed? && s.pcs[k].last) else !(!call.Failed? && Releases(w, s, k))
    case _ => true
  }

  /** Ownership passes from `o` to `p` on one thread and nothing else changes hands. */
  lemma Handover(w: World, s: State, t: State, thread: ThreadId, o: Owner, p: Owner)
    requires Exclusive(w, s) && Owns(w, s, o, thread) && t.busy == s.busy
    requires forall x, y :: Owns(w, t, x, y) <==> (Owns(w, s, x, y) && !(x == o && y == thread)) || (x == p && y == thread)
    ensures Exclusive(w, t)
  {
    forall y | y in t.busy
      ensures exists x :: Owns(w, t, x, y)
    {
      if y == thread {
        assert Owns(w, t, p, y);
      } else {
        var x :| Owns(w, s, x, y);
        assert Owns(w, t, x, y);
      }
    }
  }

  /** The owner of a thread gives it up. */
  lemma GiveUp(w: World, s: State, t: State, thread: ThreadId, o: Owner)
    requires Exclusive(w, s) && Owns(w, s, o, thread) && t.busy == s.busy - {thread}
    requires forall x, y :: Owns(w, t, x, y) <==> Owns(w, s, x, y) && !(x == o && y == thread)
    ensures Exclusive(w, t)
  {
  }

  /** A free thread gets an owner. */
  lemma TakeUp(w: World, s: State, t: State, thread: ThreadId, o: Owner)
    requires Exclusive(w, s) && thread !in s.busy && t.busy == s.busy + {thread}
    requires forall x, y :: Owns(w, t, x, y) <==> Owns(w, s, x, y) || (x == o && y == thread)
    ensures Exclusive(w, t)
  {
    forall y | y in t.busy
      ensures exists x :: Owns(w, t, x, y)
    {
      if y == thread {
        assert Owns(w, t, o, y);
      } else {
        var x :| Owns(w, s, x, y);
        assert Owns(w, t, x, y);
      }
    }
  }

  lemma NoChange(w: World, s: State, t: State)
    requires Exclusive(w, s) && t.busy == s.busy
    requires forall x, y :: Owns(w, t, x, y) <==> Owns(w, s, x, y)
    ensures Exclusive(w, t)
  {
  }

  lemma ExclusiveKept(w: World, s: State, a: Act)
    requires Books(w, s) && Exclusive(w, s) && Clean(w, s, a)
    ensures Exclusive(w, Apply(w, s, a))
  {
    hide Apply, Exclusive, Books;
    if a.Claim? {
      ClaimKeeps(w, s, a.k, a.call);
    } else if a.Insert? {
      InsertKeeps(w, s, a.k, a.call);
    } else if a.Release? {
      ReleaseKeeps(w, s, a.k, a.call);
    } else if a.MarkFailed? {
      MarkFailedKeeps(w, s, a.k, a.wrote);
    } else if a.ReleaseAfterRollback? {
      RollbackKeeps(w, s, a.k, a.call);
    } else if a.Complete? {
      CompleteKeeps(w, s, a.id);
    } else {
      QuietKeeps(w, s, a);
    }
  }

  lemma QuietKeeps(w: World, s: State, a: Act)
    requires Exclusive(w, s)
    requires a.PreCheck? || a.Refuse? || a.CacheHit? || a.Fail? || a.Look? || a.Enqueue?
    ensures Exclusive(w, Apply(w, s, a))
  {
    hide EarlyMismatch, LateMismatch, Exclusive;
    NoChange(w, s, Apply(w, s, a));
  }

  lemma ClaimKeeps(w: World, s: State, k: nat, call: Call)
    requires Exclusive(w, s) && Clean(w, s, Claim(k, call))
    ensures Exclusive(w, Apply(w, s, Claim(k, call)))
  {
    hide EarlyMismatch, LateMismatch, Exclusive;
    var t := Apply(w, s, Claim(k, call));
    if t.busy != s.busy {
      TakeUp(w, s, t, w.requests[k].thread, ByRequest(k));
    } else {
      NoChange(w, s, t);
    }
  }

  lemma InsertKeeps(w: World, s: State, k: nat, call: Call)
    requires Exclusive(w, s)
    ensures Exclusive(w, Apply(w, s, Insert(k, call)))
  {
    hide EarlyMismatch, LateMismatch, Exclusive;
    var t := Apply(w, s, Insert(k, call));
    if t.runs != s.runs {
      var q := w.requests[k];
      Handover(w, s, t, q.thread, ByRequest(k), ByRun(q.id));
    } else {
      NoChange(w, s, t);
    }
  }

  lemma ReleaseKeeps(w: World, s: State, k: nat, call: Call)
    requires Exclusive(w, s) && Clean(w, s, Release(k, call))
    ensures Exclusive(w, Apply(w, s, Release(k, call)))
  {
    hide Exclusive;
    var t := Apply(w, s, Release(k, call));
    if t != s {
      if s.pcs[k].owns && !call.Failed? {
        GiveUp(w, s, t, w.requests[k].thread, ByRequest(k));
      } else {
        assert t.busy == s.busy;
        NoChange(w, s, t);
      }
    }
  }

  /** Ending the run hands its thread to the rolling-back request; if the run had ended already nothing changes hands. */
  lemma MarkedOwners(w: World, s: State, k: nat, wrote: bool, o: Owner, thread: ThreadId)
    requires Enabled(w, s, k, EnqueueFailed) && w.requests[k].id in s.runs && s.runs[w.requests[k].id].thread == w.requests[k].thread
    ensures var q, t := w.requests[k], Apply(w, s, MarkFailed(k, wrote));
            Ready(w, t, k) && (Owns(w, t, o, thread) <==>
              if t.pcs[k] == RollingBack(true, false)
              then (Owns(w, s, o, thread) && !(o == ByRun(q.id) && thread == q.thread)) || (o == ByRequest(k) && thread == q.thread)
              else Owns(w, s, o, thread))
  {
  }

  lemma MarkFailedKeeps(w: World, s: State, k: nat, wrote: bool)
    requires Books(w, s) && Exclusive(w, s)
    ensures Exclusive(w, Apply(w, s, MarkFailed(k, wrote)))
  {
    var t := Apply(w, s, MarkFailed(k, wrote));
    if t != s {
      var q := w.requests[k];
      assert Filed(w, s, q, s.pcs[k], s.inserted[k]);
      hide Exclusive, Books;
      forall o, thread {
        MarkedOwners(w, s, k, wrote, o, thread);
      }
      if t.pcs[k] == RollingBack(true, false) {
        assert Owns(w, s, ByRun(q.id), q.thread);
        hide Owns;
        Handover(w, s, t, q.thread, ByRun(q.id), ByRequest(k));
      } else {
        hide Owns;
        NoChange(w, s, t);
      }
    }
  }

  lemma RollbackKeeps(w: World, s: State, k: nat, call: Call)
    requires Books(w, s) && Exclusive(w, s) && Clean(w, s, ReleaseAfterRollback(k, call))
    ensures Exclusive(w, Apply(w, s, ReleaseAfterRollback(k, call)))
  {
    var t := Apply(w, s, ReleaseAfterRollback(k, call));
    if t != s {
      var thread := w.requests[k].thread;
      if s.pcs[k].owns && !call.Failed? {
        assert Owns(w, s, ByRequest(k), thread);
        OwnerIsAlone(w, s, ByRequest(k), thread);
        assert thread in s.busy;
        hide Exclusive, Books;
        GiveUp(w, s, t, thread, ByRequest(k));
      } else {
        hide Exclusive, Books;
        NoChange(w, s, t);
      }
    }
  }

  /** While a request holds the thread no run is active on it. */
  lemma OwnerIsAlone(w: World, s: State, o: Owner, thread: ThreadId)
    requires Exclusive(w, s) && Owns(w, s, o, thread)
    ensures forall id :: id in s.runs && s.runs[id].active && s.runs[id].thread == thread ==> o == ByRun(id)
  {
    forall id | id in s.runs && s.runs[id].active && s.runs[id].thread == thread
      ensures o == ByRun(id)
    {
      assert Owns(w, s, ByRun(id), thread);
    }
  }

  lemma CompleteKeeps(w: World, s: State, id: RunId)
    requires Books(w, s) && Exclusive(w, s)
    ensures Exclusive(w, Apply(w, s, Complete(id)))
  {
    var t := Apply(w, s, Complete(id));
    if t != s {
      var thread := s.runs[id].thread;
      assert Owns(w, s, ByRun(id), thread);
      OwnerIsAlone(w, s, ByRun(id), thread);
      assert NoOtherActive(s, thread, id);
      GiveUp(w, s, t, thread, ByRun(id));
    }
  }

  /** The condition is exact: any other step leaves a thread stuck or takes it from its owner. */
  lemma ExclusiveKeptIff(w: World, s: State, a: Act)
    requires Books(w, s) && Exclusive(w, s)
    ensures Exclusive(w, Apply(w, s, a)) <==> Clean(w, s, a)
  {
    if Clean(w, s, a) {
      ExclusiveKept(w, s, a);
    } else if a.Claim? || s.pcs[a.k].owns {
      NobodysThread(w, s, a);
    } else {
      var k := a.k;
      var thread, t := w.requests[k].thread, Apply(w, s, a);
      var o :| Owns(w, s, o, thread);
      assert Owns(w, t, o, thread) && thread !in t.busy;
    }
  }

  /** A claim whose reply is lost, or a release that never happens, leaves a busy thread without an owner. */
  lemma NobodysThread(w: World, s: State, a: Act)
    requires Books(w, s) && Exclusive(w, s) && !Clean(w, s, a)
    requires a.Claim? || s.pcs[a.k].owns
    ensures var t := Apply(w, s, a); var thread := w.requests[a.k].thread;
            thread in t.busy && (forall o :: !Owns(w, t, o, thread)) && !Exclusive(w, t)
  {
    var k := a.k;
    var thread, t := w.requests[k].thread, Apply(w, s, a);
    assert !a.Claim? ==> Owns(w, s, ByRequest(k), thread);
    assert thread in t.busy;
    forall o
      ensures !Owns(w, t, o, thread)
    {
      assert Owns(w, t, o, thread) ==> Owns(w, s, o, thread) && o != ByRequest(k);
    }
  }

  // ----- Whole histories -----

  ghost predicate AllClean(w: World, s: State, acts: seq<Act>)
    decreases acts
  {
    acts == [] || (Clean(w, s, acts[0]) && AllClean(w, Apply(w, s, acts[0]), acts[1..]))
  }

  lemma {:induction false} ExclusiveAlways(w: World, s: State, acts: seq<Act>)
    requires Books(w, s) && Exclusive(w, s) && AllClean(w, s, acts)
    ensures Exclusive(w, Play(w, s, acts))
    decreases acts
  {
    if acts != [] {
      BooksKept(w, s, acts[0]);
      ExclusiveKept(w, s, acts[0]);
      ExclusiveAlways(w, Apply(w, s, acts[0]), acts[1..]);
    }
  }

  ghost predicate ExclusiveThroughout(w: World, s: State, acts: seq<Act>)
    decreases acts
  {
    Exclusive(w, s) && (acts == [] || ExclusiveThroughout(w, Apply(w, s, acts[0]), acts[1..]))
  }

  /** So a history is exclusive at every point exactly when all its steps respect ownership. */
  lemma {:induction false} ExclusiveThroughoutIff(w: World, s: State, acts: seq<Act>)
    requires Books(w, s) && Exclusive(w, s)
    ensures ExclusiveThroughout(w, s, acts) <==> AllClean(w, s, acts)
    decreases acts
  {
    if acts != [] {
      hide Books, Exclusive, Clean, Apply;
      BooksKept(w, s, acts[0]);
      ExclusiveKeptIff(w, s, acts[0]);
      if Exclusive(w, Apply(w, s, acts[0])) {
        ExclusiveThroughoutIff(w, Apply(w, s, acts[0]), acts[1..]);
      }
    }
  }

  /** In an exclusive state no thread has two active runs, and once every request is answered only runs keep threads busy. */
  lemma ExclusionMeans(w: World, s: State)
    requires Exclusive(w, s) && |s.pcs| == |w.requests|
    ensures forall x, y :: x in s.runs && y in s.runs && s.runs[x].active && s.runs[y].active && s.runs[x].thread == s.runs[y].thread ==> x == y
    ensures (forall k :: 0 <= k < |s.pcs| ==> s.pcs[k].Done?) ==>
              forall thread :: thread in s.busy <==> exists id :: id in s.runs && s.runs[id].active && s.runs[id].thread == thread
  {
    forall x, y | x in s.runs && y in s.runs && s.runs[x].active && s.runs[y].active && s.runs[x].thread == s.runs[y].thread
      ensures x == y
    {
      assert Owns(w, s, ByRun(x), s.runs[x].thread) && Owns(w, s, ByRun(y), s.runs[x].thread);
    }
    if forall k :: 0 <= k < |s.pcs| ==> s.pcs[k].Done? {
      forall thread
        ensures thread in s.busy <==> exists id :: id in s.runs && s.runs[id].active && s.runs[id].thread == thread
      {
        if thread in s.busy {
          var o :| Owns(w, s, o, thread);
          assert o.ByRun?;
        }
        if id :| id in s.runs && s.runs[id].active && s.runs[id].thread == thread {
          assert Owns(w, s, ByRun(id), thread);
        }
      }
    }
  }

  /**
   * A step of a history in which no reply of a claim, an insert or a first
   * release is lost, a second try goes through, and no run is ended before its
   * own enqueue is decided.
   */
  ghost predicate Calm(w: World, s: State, a: Act) {
    match a
    case Claim(_, call) => !call.Lost?
    case Insert(_, call) => !call.Lost?
    case Release(k, call) => Ready(w, s, k) && s.pcs[k].Failing? ==> if s.pcs[k].last then !call.Failed? else !call.Lost?
    case MarkFailed(_, wrote) => wrote
    case ReleaseAfterRollback(k, call) =>
      Ready(w, s, k) && s.pcs[k].RollingBack? ==> if s.pcs[k].last then !call.Failed? else !call.Lost?
    case Complete(id) => forall k: nat :: Ready(w, s, k) && w.requests[k].id == id ==>
      s.pcs[k] != Created && s.pcs[k] != EnqueueFailed
    case _ => true
  }

  ghost predicate AllCalm(w: World, s: State, acts: seq<Act>)
    decreases acts
  {
    acts == [] || (Calm(w, s, acts[0]) && AllCalm(w, Apply(w, s, acts[0]), acts[1..]))
  }

  /** A run is active until its request hears about the enqueue, and whoever releases owns what it releases. */
  predicate Intact(s: State, q: Request, pc: Pc) {
    && ((pc == Created || pc == EnqueueFailed) ==> q.id in s.runs && s.runs[q.id].active)
    && (pc.RollingBack? || pc.Failing? || (pc.Looking? && pc.claimed) ==> pc.owns)
  }

  ghost predicate Undisturbed(w: World, s: State) {
    |s.pcs| == |w.requests| == |s.inserted| && forall k :: 0 <= k < |s.pcs| ==> Intact(s, w.requests[k], s.pcs[k])
  }

  lemma CalmIsClean(w: World, s: State, a: Act)
    requires Undisturbed(w, s) && Calm(w, s, a)
    ensures Clean(w, s, a)
  {
  }

  lemma OwnStepIntact(w: World, s: State, a: Act)
    requires !a.Complete? && Calm(w, s, a) && Apply(w, s, a) != s && Ready(w, s, a.k)
    requires Intact(s, w.requests[a.k], s.pcs[a.k])
    ensures Ready(w, Apply(w, s, a), a.k) && Intact(Apply(w, s, a), w.requests[a.k], Apply(w, s, a).pcs[a.k])
  {
    hide EarlyMismatch, LateMismatch, Releases;
  }

  lemma OtherStepIntact(w: World, s: State, a: Act, q: Request, pc: Pc)
    requires Intact(s, q, pc)
    requires a == Complete(q.id) ==> pc != Created && pc != EnqueueFailed
    requires a.MarkFailed? && a.k < |w.requests| && w.requests[a.k].id == q.id ==> pc != Created && pc != EnqueueFailed
    ensures Intact(Apply(w, s, a), q, pc)
  {
  }

  lemma UndisturbedKept(w: World, s: State, a: Act)
    requires Books(w, s) && Undisturbed(w, s) && Calm(w, s, a)
    ensures Undisturbed(w, Apply(w, s, a))
  {
    var t := Apply(w, s, a);
    if a.MarkFailed? && t != s {
      OneCreator(w, s, a.k);
    }
    if !a.Complete? && t != s {
      StepMoves(w, s, a);
      assert forall k :: 0 <= k < |t.pcs| && k != a.k ==> t.pcs[k] == s.pcs[k];
    }
    hide Apply, Books, Intact;
    if t != s {
      forall k | 0 <= k < |t.pcs|
        ensures Intact(t, w.requests[k], t.pcs[k])
      {
        if !a.Complete? && k == a.k {
          OwnStepIntact(w, s, a);
        } else {
          OtherStepIntact(w, s, a, w.requests[k], s.pcs[k]);
        }
      }
    }
  }

  lemma OneCreator(w: World, s: State, k: nat)
    requires Books(w, s) && Ready(w, s, k) && Creator(s.pcs[k])
    ensures forall l: nat :: Ready(w, s, l) && Creator(s.pcs[l]) && w.requests[l].id == w.requests[k].id ==> l == k
  {
    assert Filed(w, s, w.requests[k], s.pcs[k], s.inserted[k]);
    assert CreatedBy(w, s, w.requests[k].id, k);
    forall l: nat | Ready(w, s, l) && Creator(s.pcs[l]) && w.requests[l].id == w.requests[k].id
      ensures l == k
    {
      assert Filed(w, s, w.requests[l], s.pcs[l], s.inserted[l]);
      assert CreatedBy(w, s, w.requests[k].id, l);
    }
  }

  /**
   * Thread exclusion over every calm history of creations, failed creations,
   * rollbacks and completions.
   */
  lemma {:induction false} ThreadExclusion(w: World, s: State, acts: seq<Act>)
    requires Books(w, s) && Exclusive(w, s) && Undisturbed(w, s) && AllCalm(w, s, acts)
    ensures Exclusive(w, Play(w, s, acts))
    decreases acts
  {
    if acts != [] {
      CalmIsClean(w, s, acts[0]);
      UndisturbedKept(w, s, acts[0]);
      BooksKept(w, s, acts[0]);
      ExclusiveKept(w, s, acts[0]);
      ThreadExclusion(w, Apply(w, s, acts[0]), acts[1..]);
    }
  }

  lemma StartsExclusive(w: World)
    ensures Books(w, Start(w)) && Exclusive(w, Start(w)) && Undisturbed(w, Start(w))
  {
  }

  /** A result from the cache is stored as a finished run, on a thread that nobody holds,
      and holds no thread itself; it is reported exactly when it was stored, heard of and
      read back. */
  lemma CachedRunHoldsNothing(w: World, s: State, k: nat, call: Call, read: bool)
    requires Enabled(w, s, k, Checked)
    ensures var t, q := Apply(w, s, CacheHit(k, call, read)), w.requests[k];
            && t.busy == s.busy && Ready(w, t, k)
            && (forall id :: id in t.runs && id !in s.runs ==> id == q.id && !t.runs[id].active && q.thread !in s.busy && !call.Failed?)
            && (q.id !in s.runs && q.thread !in s.busy && call.Went? ==> q.id in t.runs && t.pcs[k] == Done(if read then Accepted else Refused))
            && (q.id in s.runs || q.thread in s.busy || !call.Went? ==> t.pcs[k].Looking?)
  {}

  // ----- Stuck threads -----

  /** A busy thread on which nothing is left to release it. */
  ghost predicate Stuck(w: World, s: State, thread: ThreadId) {
    && thread in s.busy
    && (forall id :: id in s.runs && s.runs[id].thread == thread ==> !s.runs[id].active)
    && (forall k: nat :: Ready(w, s, k) && w.requests[k].thread == thread ==>
          s.pcs[k].Arrived? || s.pcs[k].Checked? || s.pcs[k].Done? || (s.pcs[k].Looking? && !s.pcs[k].claimed))
  }

  lemma StuckStep(w: World, s: State, a: Act, thread: ThreadId)
    requires Books(w, s) && Stuck(w, s, thread)
    ensures Stuck(w, Apply(w, s, a), thread)
  {
    var t := Apply(w, s, a);
    if !a.Complete? && t != s {
      var k := a.k;
      assert Ready(w, s, k) && Filed(w, s, w.requests[k], s.pcs[k], s.inserted[k]);
      StepMoves(w, s, a);
      hide EarlyMismatch, LateMismatch, Releases, Books;
      assert forall l: nat :: Ready(w, t, l) && l != k ==> t.pcs[l] == s.pcs[l];
      StuckRequest(w, s, a, thread);
    }
  }

  lemma StuckRequest(w: World, s: State, a: Act, thread: ThreadId)
    requires !a.Complete? && Apply(w, s, a) != s && Ready(w, s, a.k) && Stuck(w, s, thread)
    requires Filed(w, s, w.requests[a.k], s.pcs[a.k], s.inserted[a.k])
    ensures var t := Apply(w, s, a);
            && Ready(w, t, a.k) && thread in t.busy
            && (w.requests[a.k].thread == thread ==> t.pcs[a.k].Arrived? || t.pcs[a.k].Checked? || t.pcs[a.k].Done? || (t.pcs[a.k].Looking? && !t.pcs[a.k].claimed))
            && (forall id :: id in t.runs && t.runs[id].thread == thread ==> !t.runs[id].active)
  {
    hide EarlyMismatch, LateMismatch, Releases;
  }

  /** Such a thread stays busy, without a run, whatever happens. */
  lemma {:induction false} StuckForever(w: World, s: State, acts: seq<Act>, thread: ThreadId)
    requires Books(w, s) && Stuck(w, s, thread)
    ensures Stuck(w, Play(w, s, acts), thread)
    decreases acts
  {
    if acts != [] {
      BooksKept(w, s, acts[0]);
      StuckStep(w, s, acts[0], thread);
      StuckForever(w, Apply(w, s, acts[0]), acts[1..], thread);
    }
  }

  // ----- One request on its own -----

  /** A request that has just arrived, with an id nobody used and a thread nobody holds. */
  predicate Unopposed(w: World, s: State, k: nat) {
    Enabled(w, s, k, Arrived) && w.requests[k].id !in s.runs && w.requests[k].thread !in s.busy
  }

  // ----- Histories that are not calm -----

  ghost predicate TwoActive(s: State, x: RunId, y: RunId) {
    x != y && x in s.runs && y in s.runs && s.runs[x].active && s.runs[y].active && s.runs[x].thread == s.runs[y].thread
  }

  function Plain(id: RunId): Request {
    Request(id, true, "t", true, "agent", "agent", None, "")
  }

  function ThreeRequests(): World {
    World({}, [Plain("a"), Plain("b"), Plain("c")])
  }

  function Three(w: World, s: State, a: Act, b: Act, c: Act): State {
    Apply(w, Apply(w, Apply(w, s, a), b), c)
  }

  lemma PlayThree(w: World, s: State, a: Act, b: Act, c: Act, rest: seq<Act>)
    ensures Play(w, s, [a, b, c] + rest) == Play(w, Three(w, s, a, b, c), rest)
  {
    hide Apply;
    assert [a, b, c] + rest == [a] + ([b] + ([c] + rest));
    PlayOne(w, s, a, [b] + ([c] + rest));
    PlayOne(w, Apply(w, s, a), b, [c] + rest);
    PlayOne(w, Apply(w, Apply(w, s, a), b), c, rest);
  }

  lemma PlayOne(w: World, s: State, a: Act, rest: seq<Act>)
    ensures Play(w, s, [a] + rest) == Play(w, Apply(w, s, a), rest)
  {
  }

  /** What request `k` does first when all goes well. */
  function Begin(k: nat): seq<Act> { [PreCheck(k, true), Claim(k, Went), Insert(k, Went)] }

  const ONE_RUN := map["a" := RowOf(Plain("a"), true)]

  lemma Inserted()
    ensures Three(ThreeRequests(), Start(ThreeRequests()), PreCheck(0, true), Claim(0, Went), Insert(0, Went)) ==
            State({"t"}, ONE_RUN, [Created, Arrived, Arrived], [Yes(true), No, No])
  {
  }

  /**
   * Run `a` is cancelled between its insert and its failing enqueue; `b` claims
   * the freed thread; the rollback of `a` releases it under `b`; `c` claims it
   * too.  Two runs end up active on one thread.
   */
  lemma RollbackReleasesAnothersClaim()
    ensures var acts := Begin(0) + ([Complete("a"), PreCheck(1, true), Claim(1, Went)] +
                        ([Enqueue(0, false), MarkFailed(0, true), ReleaseAfterRollback(0, Went)] +
                        ([PreCheck(2, true), Claim(2, Went), Insert(1, Went)] + [Insert(2, Went)])));
            TwoActive(Play(ThreeRequests(), Start(ThreeRequests()), acts), "b", "c")
  {
    var w := ThreeRequests();
    var s3 := State({"t"}, ONE_RUN, [Created, Arrived, Arrived], [Yes(true), No, No]);
    Inserted();
    var s6 := State({"t"}, map["a" := RowOf(Plain("a"), false)], [Created, Claimed, Arrived], [Yes(true), No, No]);
    ClaimedAfterCancel(s3, s6);
    var s9 := State({}, s6.runs, [Done(RolledBack), Claimed, Arrived], [Yes(true), No, No]);
    ReleasedUnderClaim(s6, s9);
    var last := [PreCheck(2, true), Claim(2, Went), Insert(1, Went)] + [Insert(2, Went)];
    ClaimedAgain(s9);
    hide Apply;
    PlayThree(w, s6, Enqueue(0, false), MarkFailed(0, true), ReleaseAfterRollback(0, Went), last);
    PlayThree(w, s3, Complete("a"), PreCheck(1, true), Claim(1, Went),
              [Enqueue(0, false), MarkFailed(0, true), ReleaseAfterRollback(0, Went)] + last);
    PlayThree(w, Start(w), PreCheck(0, true), Claim(0, Went), Insert(0, Went),
              [Complete("a"), PreCheck(1, true), Claim(1, Went)] +
              ([Enqueue(0, false), MarkFailed(0, true), ReleaseAfterRollback(0, Went)] + last));
  }

  lemma ClaimedAfterCancel(s: State, t: State)
    requires s == State({"t"}, ONE_RUN, [Created, Arrived, Arrived], [Yes(true), No, No])
    requires t == State({"t"}, map["a" := RowOf(Plain("a"), false)], [Created, Claimed, Arrived], [Yes(true), No, No])
    ensures Three(ThreeRequests(), s, Complete("a"), PreCheck(1, true), Claim(1, Went)) == t
  {
  }

  lemma ReleasedUnderClaim(s: State, t: State)
    requires s == State({"t"}, map["a" := RowOf(Plain("a"), false)], [Created, Claimed, Arrived], [Yes(true), No, No])
    requires t == State({}, s.runs, [Done(RolledBack), Claimed, Arrived], [Yes(true), No, No])
    ensures Three(ThreeRequests(), s, Enqueue(0, false), MarkFailed(0, true), ReleaseAfterRollback(0, Went)) == t
  {
  }

  /** `b` believes it holds the free thread, so `c` can claim it as well and both insert. */
  lemma ClaimedAgain(s: State)
    requires s.busy == {} && |s.pcs| == 3 && s.pcs[0].Done? && s.pcs[1..] == [Claimed, Arrived]
    requires |s.inserted| == 3 && "b" !in s.runs && "c" !in s.runs
    ensures TwoActive(Play(ThreeRequests(), s,
              [PreCheck(2, true), Claim(2, Went), Insert(1, Went)] + [Insert(2, Went)]), "b", "c")
  {
    var w := ThreeRequests();
    var t := Three(w, s, PreCheck(2, true), Claim(2, Went), Insert(1, Went));
    PlayThree(w, s, PreCheck(2, true), Claim(2, Went), Insert(1, Went), [Insert(2, Went)]);
    assert Plain("b").id == "b" && Plain("c").id == "c";
    assert s.pcs[1] == Claimed && s.pcs[2] == Arrived;
    assert t.pcs[2] == Claimed && t.runs == s.runs["b" := RowOf(Plain("b"), true)];
    PlayOne(w, t, Insert(2, Went), []);
    assert [Insert(2, Went)] + [] == [Insert(2, Went)];
  }

  /** The rollback's status write is lost but its release goes through: the run stays active on a free thread. */
  lemma LostStatusWriteFreesThread()
    ensures var acts := Begin(0) + ([Enqueue(0, false), MarkFailed(0, false), ReleaseAfterRollback(0, Went)] + (Begin(1) + []));
            TwoActive(Play(ThreeRequests(), Start(ThreeRequests()), acts), "a", "b")
  {
    var w := ThreeRequests();
    var s3 := State({"t"}, ONE_RUN, [Created, Arrived, Arrived], [Yes(true), No, No]);
    Inserted();
    var s6 := State({}, s3.runs, [Done(RolledBack), Arrived, Arrived], [Yes(true), No, No]);
    FreedWhileActive(s3, s6);
    CreatedBeside(s6);
    hide Apply;
    PlayThree(w, s3, Enqueue(0, false), MarkFailed(0, false), ReleaseAfterRollback(0, Went), Begin(1) + []);
    PlayThree(w, Start(w), PreCheck(0, true), Claim(0, Went), Insert(0, Went),
              [Enqueue(0, false), MarkFailed(0, false), ReleaseAfterRollback(0, Went)] + (Begin(1) + []));
  }

  lemma FreedWhileActive(s: State, t: State)
    requires s == State({"t"}, ONE_RUN, [Created, Arrived, Arrived], [Yes(true), No, No])
    requires t == State({}, s.runs, [Done(RolledBack), Arrived, Arrived], [Yes(true), No, No])
    ensures Three(ThreeRequests(), s, Enqueue(0, false), MarkFailed(0, false), ReleaseAfterRollback(0, Went)) == t
  {
  }

  /** A run that is active on a free thread does not keep `b` from being created there. */
  lemma CreatedBeside(s: State)
    requires s.busy == {} && s.runs == ONE_RUN && |s.pcs| == 3 && s.pcs[1] == Arrived && |s.inserted| == 3
    ensures TwoActive(Play(ThreeRequests(), s, Begin(1) + []), "a", "b")
  {
    PlayThree(ThreeRequests(), s, PreCheck(1, true), Claim(1, Went), Insert(1, Went), []);
  }

  /** The claim's reply is lost: the request is refused and the thread stays busy with no owner, for good. */
  lemma LostClaimReplyStrandsThread(rest: seq<Act>)
    ensures var w := ThreeRequests();
            var s := Play(w, Start(w), [PreCheck(0, true)] + ([Claim(0, Lost)] + []));
            && s.pcs == [Done(Refused), Arrived, Arrived] && s.runs == map[] && Stuck(w, s, "t")
            && Stuck(w, Play(w, s, rest), "t")
  {
    var w := ThreeRequests();
    var s1 := Apply(w, Start(w), PreCheck(0, true));
    PlayOne(w, Start(w), PreCheck(0, true), [Claim(0, Lost)] + []);
    PlayOne(w, s1, Claim(0, Lost), []);
    var s := Apply(w, s1, Claim(0, Lost));
    assert s.pcs == [Done(Refused), Arrived, Arrived] && s.busy == {"t"};
    StartsExclusive(w);
    BooksKept(w, Start(w), PreCheck(0, true));
    BooksKept(w, s1, Claim(0, Lost));
    StuckForever(w, s, rest, "t");
  }

  /**
   * The insert's reply is lost: the request finds its own row, answers as if it
   * were somebody else's and idles the thread under it.  The run it named is
   * active, never enqueued, and another becomes active beside it.
   */
  lemma LostInsertReplyFreesThread()
    ensures var w := ThreeRequests();
            var acts := [PreCheck(0, true), Claim(0, Went), Insert(0, Lost)] + ([Look(0, true)] + ([Release(0, Went)] + (Begin(1) + [])));
            var s := Play(w, Start(w), acts);
            TwoActive(s, "a", "b") && |s.pcs| == 3 == |s.inserted| && s.pcs[0] == Done(Existing) && s.inserted[0] == Yes(true)
  {
    var w := ThreeRequests();
    var s3 := State({"t"}, ONE_RUN, [Looking(Refused, true, false), Arrived, Arrived], [Yes(true), No, No]);
    StoredUnheard(s3);
    var s5 := State({}, s3.runs, [Done(Existing), Arrived, Arrived], [Yes(true), No, No]);
    FoundAndReleased(s3, s5);
    CreatedBeside(s5);
    KeepsFirst(s5);
    hide Apply;
    PlayOne(w, Apply(w, s3, Look(0, true)), Release(0, Went), Begin(1) + []);
    PlayOne(w, s3, Look(0, true), [Release(0, Went)] + (Begin(1) + []));
    PlayThree(w, Start(w), PreCheck(0, true), Claim(0, Went), Insert(0, Lost), [Look(0, true)] + ([Release(0, Went)] + (Begin(1) + [])));
  }

  lemma FoundAndReleased(s: State, t: State)
    requires s == State({"t"}, ONE_RUN, [Looking(Refused, true, false), Arrived, Arrived], [Yes(true), No, No])
    requires t == State({}, s.runs, [Done(Existing), Arrived, Arrived], [Yes(true), No, No])
    ensures Apply(ThreeRequests(), Apply(ThreeRequests(), s, Look(0, true)), Release(0, Went)) == t
  {
  }

  lemma StoredUnheard(t: State)
    requires t == State({"t"}, ONE_RUN, [Looking(Refused, true, false), Arrived, Arrived], [Yes(true), No, No])
    ensures Three(ThreeRequests(), Start(ThreeRequests()), PreCheck(0, true), Claim(0, Went), Insert(0, Lost)) == t
  {
  }

  lemma KeepsFirst(s: State)
    requires s == State({}, ONE_RUN, [Done(Existing), Arrived, Arrived], [Yes(true), No, No])
    ensures var t := Play(ThreeRequests(), s, Begin(1) + []);
            |t.pcs| == 3 == |t.inserted| && t.pcs[0] == Done(Existing) && t.inserted[0] == Yes(true)
  {
    PlayThree(ThreeRequests(), s, PreCheck(1, true), Claim(1, Went), Insert(1, Went), []);
  }

  /**
   * The reply of a first release is lost, `b` claims the thread it freed, and
   * the second release idles it under `b`; `c` claims it too.
   */
  lemma RetriedReleaseFreesAnothersClaim()
    ensures var w := ThreeRequests();
            var acts := [PreCheck(0, true), Claim(0, Went), Fail(0)] + ([Release(0, Lost), PreCheck(1, true), Claim(1, Went)] +
                        ([Release(0, Went)] +
                        ([PreCheck(2, true), Claim(2, Went), Insert(1, Went)] + [Insert(2, Went)])));
            TwoActive(Play(w, Start(w), acts), "b", "c")
  {
    hide Apply;
    var w := ThreeRequests();
    var s3 := State({"t"}, map[], [Failing(Refused, true, false), Arrived, Arrived], [No, No, No]);
    FailedAfterClaim(s3);
    var s6 := State({"t"}, map[], [Failing(Refused, false, true), Claimed, Arrived], [No, No, No]);
    ClaimedAfterLostRelease(s3, s6);
    var s7 := State({}, map[], [Done(Refused), Claimed, Arrived], [No, No, No]);
    ReleasedAgain(s6, s7);
    var last := [PreCheck(2, true), Claim(2, Went), Insert(1, Went)] + [Insert(2, Went)];
    ClaimedAgain(s7);
    PlayOne(w, s6, Release(0, Went), last);
    PlayThree(w, s3, Release(0, Lost), PreCheck(1, true), Claim(1, Went), [Release(0, Went)] + last);
    PlayThree(w, Start(w), PreCheck(0, true), Claim(0, Went), Fail(0),
              [Release(0, Lost), PreCheck(1, true), Claim(1, Went)] + ([Release(0, Went)] + last));
  }

  lemma FailedAfterClaim(t: State)
    requires t == State({"t"}, map[], [Failing(Refused, true, false), Arrived, Arrived], [No, No, No])
    ensures Three(ThreeRequests(), Start(ThreeRequests()), PreCheck(0, true), Claim(0, Went), Fail(0)) == t
  {
  }

  lemma ReleasedAgain(s: State, t: State)
    requires s == State({"t"}, map[], [Failing(Refused, false, true), Claimed, Arrived], [No, No, No])
    requires t == State({}, map[], [Done(Refused), Claimed, Arrived], [No, No, No])
    ensures Apply(ThreeRequests(), s, Release(0, Went)) == t
  {
  }

  lemma ClaimedAfterLostRelease(s: State, t: State)
    requires s == State({"t"}, map[], [Failing(Refused, true, false), Arrived, Arrived], [No, No, No])
    requires t == State({"t"}, map[], [Failing(Refused, false, true), Claimed, Arrived], [No, No, No])
    ensures Three(ThreeRequests(), s, Release(0, Lost), PreCheck(1, true), Claim(1, Went)) == t
  {
  }

  // ----- Genuine retries -----

  /** Alias resolution picks a target; budget routing may then replace it and records the replaced name if no alias was asked for. */
  function Routed(aliases: set<Agent>, agent: Agent, pick: Agent, cheaper: Option<Agent>): (r: (Agent, Option<Agent>)) {
    var wasAlias := agent in aliases;
    var resolved := if wasAlias then pick else agent;
    match cheaper
    case None => (resolved, if wasAlias then Some(agent) else None)
    case Some(to) => (to, if wasAlias then Some(agent) else Some(resolved))
  }

  /** `q` was routed under `pick` and `cheaper`. */
  predicate RoutedAs(w: World, q: Request, pick: Agent, cheaper: Option<Agent>) {
    q.agent != "" && (q.routed, q.alias) == Routed(w.aliases, q.agent, pick, cheaper)
  }

  /** `again` sends what `first` sent. */
  predicate Retry(first: Request, again: Request) {
    again.client && again.id == first.id && again.agent == first.agent && again.input == first.input &&
    again.named == first.named && (again.named ==> again.thread == first.thread)
  }

  /** The pre-check accepts a genuine retry exactly when its agent name is an alias or was not routed elsewhere. */
  lemma RetryPassesPreCheckIff(w: World, first: Request, again: Request, active: bool, pick: Agent, cheaper: Option<Agent>)
    requires RoutedAs(w, first, pick, cheaper) && Retry(first, again)
    ensures !EarlyMismatch(w, RowOf(first, active), again) <==>
            first.agent in w.aliases || cheaper == None || cheaper == Some(first.agent)
  {
  }

  /**
   * A race fallback accepts a genuine retry on the same thread exactly when
   * the retry was itself routed to the stored agent, or to an alias name the
   * stored run was requested through.
   */
  lemma RetryPassesFallbackIff(w: World, first: Request, again: Request, active: bool)
    requires Retry(first, again) && again.thread == first.thread && again.routed != ""
    ensures !LateMismatch(w, RowOf(first, active), again) <==>
            if again.routed in w.aliases then first.alias == Some(again.routed) else again.routed == first.routed
  {
  }

  /** A plain agent, neither alias nor routed on either attempt, is never refused as a mismatch. */
  lemma PlainRetryIsAccepted(w: World, first: Request, again: Request, active: bool)
    requires first.agent !in w.aliases && RoutedAs(w, first, first.agent, None)
    requires Retry(first, again) && RoutedAs(w, again, again.agent, None)
    ensures !EarlyMismatch(w, RowOf(first, active), again)
    ensures again.thread == first.thread ==> !LateMismatch(w, RowOf(first, active), again)
  {
  }

  /** A retry of an alias that the second attempt resolves differently is told of a conflict by the fallback. */
  lemma AliasRetryIsRefusedOnRace()
    ensures exists w, first, again, pick, other ::
              RoutedAs(w, first, pick, None) && RoutedAs(w, again, other, None) && Retry(first, again) &&
              again.thread == first.thread && LateMismatch(w, RowOf(first, true), again)
  {
    var w := World({"chat"}, []);
    var first := Request("a", true, "t", true, "chat", "small", Some("chat"), "");
    var again := first.(routed := "large");
    assert RoutedAs(w, first, "small", None) && RoutedAs(w, again, "large", None) && Retry(first, again);
    assert LateMismatch(w, RowOf(first, true), again);
  }

  /** Budget routing moved the first request from `big` to `small`. */
  function RoutedTwice(): World {
    var q := Request("a", true, "t", true, "big", "small", Some("big"), "");
    World({}, [q, q])
  }

  /** So its exact repetition, sent after the run was created and enqueued, is told of a conflict. */
  lemma RoutedRetryIsRefused()
    ensures var w := RoutedTwice();
            && RoutedAs(w, w.requests[0], "big", Some("small")) && Retry(w.requests[0], w.requests[1])
            && Play(w, Start(w), Begin(0) + ([Enqueue(0, true)] + ([PreCheck(1, true)] + []))).pcs == [Done(Accepted), Done(Conflict)]
  {
    var w := RoutedTwice();
    var row := RowOf(w.requests[0], true);
    var s3 := State({"t"}, map["a" := row], [Created, Arrived], [Yes(true), No]);
    RoutedCreated(s3);
    var s4 := s3.(pcs := [Done(Accepted), Arrived]);
    assert Apply(w, s3, Enqueue(0, true)) == s4;
    assert EarlyMismatch(w, row, w.requests[1]);
    assert Apply(w, s4, PreCheck(1, true)).pcs == [Done(Accepted), Done(Conflict)];
    hide Apply;
    PlayOne(w, s4, PreCheck(1, true), []);
    PlayOne(w, s3, Enqueue(0, true), [PreCheck(1, true)] + []);
    PlayThree(w, Start(w), PreCheck(0, true), Claim(0, Went), Insert(0, Went), [Enqueue(0, true)] + ([PreCheck(1, true)] + []));
  }

  lemma RoutedCreated(t: State)
    requires t == State({"t"}, map["a" := RowOf(RoutedTwice().requests[0], true)], [Created, Arrived], [Yes(true), No])
    ensures Three(RoutedTwice(), Start(RoutedTwice()), PreCheck(0, true), Claim(0, Went), Insert(0, Went)) == t
  {
  }

  // ----- The handler -----

  /**
   * A server handling create requests against the shared store.  `others` is
   * what everybody else does before each of its calls, `calls` how its next
   * calls end: a check, a store read or write, or the enqueue.
   */
  class Handler {
    const w: World
    var s: State
    var others: seq<seq<Act>>
    var calls: seq<Call>
    ghost var log: seq<Act>

    ghost predicate Valid()
      reads this
    {
      |s.pcs| == |w.requests| == |s.inserted| && Books(w, s) && s == Play(w, Start(w), log)
    }

    /** The others' steps are not this request's. */
    ghost predicate Foreign(k: nat)
      reads this
    {
      forall script :: script in others ==> forall a :: a in script ==> a.Complete? || a.k != k
    }

    predicate Quiet()
      reads this
    {
      others == [] && calls == []
    }

    constructor (w: World, others: seq<seq<Act>>, calls: seq<Call>)
      ensures Valid() && this.w == w && s == Start(w) && log == [] && this.others == others && this.calls == calls
    {
      this.w, s, this.others, this.calls, log := w, Start(w), others, calls, [];
      new;
      StartsExclusive(w);
    }

    method Do(a: Act)
      requires Valid()
      modifies this`s, this`log
      ensures Valid() && s == Apply(w, old(s), a) && log == old(log) + [a]
    {
      BooksKept(w, s, a);
      PlaySnoc(w, Start(w), log, a);
      s := Apply(w, s, a);
      log := log + [a];
    }

    method Interfere(k: nat)
      requires Valid() && Foreign(k)
      modifies this`s, this`log, this`others
      ensures Valid() && Foreign(k) && old(log) <= log
      ensures k < |s.pcs| ==> s.pcs[k] == old(s.pcs)[k]
      ensures old(others) == [] ==> others == [] && s == old(s) && log == old(log)
      ensures log == old(log) + (if old(others) == [] then [] else old(others)[0]) && calls == old(calls)
    {
      if others != [] {
        var script := others[0];
        assert script in old(others);
        others := others[1..];
        assert forall x :: x in others ==> x in old(others);
        var i := 0;
        while i < |script|
          invariant 0 <= i <= |script| && Valid() && old(log) <= log
          invariant others == old(others)[1..] && log == old(log) + script[..i] && calls == old(calls)
          invariant k < |s.pcs| ==> s.pcs[k] == old(s.pcs)[k]
        {
          assert script[i] in script && script[..i + 1] == script[..i] + [script[i]];
          OthersMove(w, s, script[i], k);
          Do(script[i]);
          i := i + 1;
        }
      }
    }

    method NextCall() returns (call: Call)
      modifies this`calls
      ensures old(calls) == [] ==> call == Went && calls == []
      ensures call == Nth(old(calls), 0) && calls == old(calls)[if old(calls) == [] then 0 else 1..]
    {
      call := Went;
      if calls != [] {
        call, calls := calls[0], calls[1..];
      }
    }

    /** A check or a read: it works or it does not. */
    method Works() returns (ok: bool)
      modifies this`calls
      ensures old(calls) == [] ==> ok && calls == []
      ensures ok == Nth(old(calls), 0).Went? && calls == old(calls)[if old(calls) == [] then 0 else 1..]
    {
      var call := NextCall();
      ok := call == Went;
    }

    /** After a claim: idle the thread, trying twice, and answer. */
    method GiveUp(k: nat, reply: Reply, ghost owns: bool)
      requires Valid() && Foreign(k) && Enabled(w, s, k, Failing(reply, owns, false))
      modifies this
      ensures Valid() && Foreign(k) && old(log) <= log && Enabled(w, s, k, Done(reply))
      ensures old(Quiet()) ==> s.busy == old(s).busy - {w.requests[k].thread} && s.runs == old(s).runs
      // with the others at rest the thread stays busy exactly when both attempts fail
      ensures old(others) == [] ==>
                && s.runs == old(s).runs
                && s.busy == if Nth(old(calls), 0).Failed? && Nth(old(calls), 1).Failed? then old(s).busy else old(s).busy - {w.requests[k].thread}
    {
      hide Books, Play, NoOtherActive;
      Interfere(k);
      var call := NextCall();
      Do(Release(k, call));
      if call != Went {
        Interfere(k);
        call := NextCall();
        Do(Release(k, call));
      }
    }

    /** The guarded release of a rollback, trying twice. */
    method ReleaseRolledBack(k: nat, ghost owns: bool)
      requires Valid() && Foreign(k) && Enabled(w, s, k, RollingBack(owns, false))
      modifies this
      ensures Valid() && old(log) <= log && Enabled(w, s, k, Done(RolledBack))
      ensures old(Quiet()) ==>
                && s.runs == old(s).runs
                && s.busy == if Releases(w, old(s), k) then old(s).busy - {w.requests[k].thread} else old(s).busy
      ensures old(others) == [] ==>
                && s.runs == old(s).runs
                && s.busy == if Releases(w, old(s), k) && !(Nth(old(calls), 0).Failed? && Nth(old(calls), 1).Failed?)
                             then old(s).busy - {w.requests[k].thread} else old(s).busy
    {
      hide Books, Play, Releases, Foreign;
      Interfere(k);
      var call := NextCall();
      Do(ReleaseAfterRollback(k, call));
      ReleasesAlike(w, old(s), s, k);
      if call != Went {
        Interfere(k);
        call := NextCall();
        Do(ReleaseAfterRollback(k, call));
      }
    }

    /** The enqueue of a created run failed: mark it failed, then release the thread. */
    method Rollback(k: nat)
      requires Valid() && Foreign(k) && Enabled(w, s, k, EnqueueFailed)
      modifies this
      ensures Valid() && old(log) <= log && Enabled(w, s, k, Done(RolledBack))
      ensures old(Quiet()) && w.requests[k].id in old(s).runs && old(s).runs[w.requests[k].id] == RowOf(w.requests[k], true) &&
              w.requests[k].thread in old(s).busy && NoOtherActive(old(s), w.requests[k].thread, w.requests[k].id) ==>
                s.busy == old(s).busy - {w.requests[k].thread} && s.runs == old(s).runs[w.requests[k].id := RowOf(w.requests[k], false)]
    {
      hide Books, Play;
      Interfere(k);
      CreatorHasRow(w, s, k);
      var written := Works();
      Do(MarkFailed(k, written));
      ReleaseRolledBack(k, s.pcs[k].owns);
    }

    /** Hand a created run to the queue. */
    method EnqueueCreated(k: nat) returns (reply: Reply)
      requires Valid() && Foreign(k) && Enabled(w, s, k, Created)
      modifies this
      ensures Valid() && old(log) <= log && Enabled(w, s, k, Done(reply))
      ensures old(Quiet()) ==> reply == Accepted && s.busy == old(s).busy && s.runs == old(s).runs
      ensures reply == if Nth(old(calls), 0).Went? then Accepted else RolledBack
    {
      hide Books, Play, NoOtherActive;
      Interfere(k);
      var accepted := Works();
      Do(Enqueue(k, accepted));
      reply := Accepted;
      if !accepted {
        Rollback(k);
        reply := RolledBack;
      }
    }

    /** Look for a run of that id after a call that failed. */
    method LookUp(k: nat, otherwise: Reply, claimed: bool, ghost owns: bool) returns (reply: Reply)
      requires Valid() && Foreign(k) && Enabled(w, s, k, Looking(otherwise, claimed, owns))
      modifies this
      ensures Valid() && Foreign(k) && old(log) <= log
      ensures Enabled(w, s, k, if claimed then Failing(reply, owns, false) else Done(reply))
      ensures old(Quiet()) ==> Quiet() && s.busy == old(s).busy && s.runs == old(s).runs
      // the run that is found is compared by what was routed and used; with none the call's own failure is the answer
      ensures old(Quiet()) ==>
                var q := w.requests[k];
                reply == if !q.client || q.id !in s.runs then otherwise
                         else if OtherInput(s.runs[q.id], q) || OtherThread(s.runs[q.id], q) || OtherAgent(w, s.runs[q.id], q.routed) then Conflict
                         else Existing
    {
      if w.requests[k].id in s.runs { LateMeans(w, s.runs[w.requests[k].id], w.requests[k]); }
      hide Books, Play, NoOtherActive, LateMismatch, EarlyMismatch;
      Interfere(k);
      var read := Works();
      Do(Look(k, read));
      reply := s.pcs[k].reply;
    }

    /** The insert under a claim, and what follows from how it ends. */
    method InsertClaimed(k: nat) returns (reply: Reply)
      requires Valid() && Foreign(k) && Enabled(w, s, k, Claimed)
      modifies this
      ensures Valid() && old(log) <= log && Enabled(w, s, k, Done(reply))
      ensures old(Quiet()) && w.requests[k].id !in old(s).runs ==>
                && reply == Accepted && s.busy == old(s).busy
                && s.runs == old(s).runs[w.requests[k].id := RowOf(w.requests[k], true)]
    {
      hide Books, Play, NoOtherActive, LateMismatch, EarlyMismatch;
      var call := NextCall();
      Do(Insert(k, call));
      if s.pcs[k] == Created {
        reply := EnqueueCreated(k);
      } else {
        ghost var owns := s.pcs[k].owns;
        reply := LookUp(k, Refused, true, owns);
        GiveUp(k, reply, owns);
      }
    }

    /** Checks, insert and enqueue under a claim. */
    method Create(k: nat) returns (reply: Reply)
      requires Valid() && Foreign(k) && Enabled(w, s, k, Claimed)
      modifies this
      ensures Valid() && old(log) <= log && Enabled(w, s, k, Done(reply))
      ensures old(Quiet()) && w.requests[k].id !in old(s).runs ==>
                && reply == Accepted && s.busy == old(s).busy
                && s.runs == old(s).runs[w.requests[k].id := RowOf(w.requests[k], true)]
    {
      hide Books, Play, NoOtherActive, LateMismatch, EarlyMismatch;
      Interfere(k);
      var fine := Works();
      if fine {
        reply := InsertClaimed(k);
      } else {
        Do(Fail(k));
        reply := Refused;
        GiveUp(k, reply, true);
      }
    }

    /** Claim the thread, or answer from the run that holds it. */
    method ClaimAndCreate(k: nat) returns (reply: Reply)
      requires Valid() && Foreign(k) && Enabled(w, s, k, Checked)
      modifies this
      ensures Valid() && old(log) <= log && Enabled(w, s, k, Done(reply))
      ensures old(Quiet()) && w.requests[k].id !in old(s).runs && w.requests[k].thread !in old(s).busy ==>
                && reply == Accepted && s.busy == old(s).busy + {w.requests[k].thread}
                && s.runs == old(s).runs[w.requests[k].id := RowOf(w.requests[k], true)]
      ensures old(Quiet()) && w.requests[k].id !in old(s).runs && w.requests[k].thread in old(s).busy ==>
                reply == Busy && s.busy == old(s).busy && s.runs == old(s).runs
    {
      hide Books, Play, NoOtherActive, LateMismatch, EarlyMismatch;
      Interfere(k);
      var fine := Works();
      if !fine {
        Do(Refuse(k));
        return Refused;
      }
      var call := NextCall();
      Do(Claim(k, call));
      if s.pcs[k] == Claimed {
        reply := Create(k);
        return;
      }
      if s.pcs[k].Looking? {
        reply := LookUp(k, Busy, false, false);
      } else {
        reply := s.pcs[k].reply;
      }
    }

    /**
     * One create request, from the retry pre-check to the answer.  Its steps
     * are those of the protocol, so its answer is what the protocol says: a
     * success names the one stored row of its id, a conflict a failed
     * comparison.  Left alone it creates its run.
     */
    method HandleCreate(k: nat) returns (reply: Reply)
      requires Valid() && Foreign(k) && Enabled(w, s, k, Arrived)
      modifies this
      ensures Valid() && old(log) <= log && Enabled(w, s, k, Done(reply))
      ensures Filed(w, s, w.requests[k], Done(reply), s.inserted[k]) && Told(w, s, w.requests[k], reply)
      ensures old(Quiet()) && Unopposed(w, old(s), k) ==>
                && reply == Accepted && s.busy == old(s).busy + {w.requests[k].thread}
                && s.runs == old(s).runs[w.requests[k].id := RowOf(w.requests[k], true)]
      ensures old(Quiet()) && w.requests[k].client && w.requests[k].id in old(s).runs ==>
                && s.busy == old(s).busy && s.runs == old(s).runs
                && (reply == Existing <==> !EarlyMismatch(w, old(s).runs[w.requests[k].id], w.requests[k]))
      // and that is: another input, another thread than the one named, or another agent is a conflict, and nothing else is
      ensures old(Quiet()) && w.requests[k].client && w.requests[k].id in old(s).runs ==>
                var q, row := w.requests[k], old(s).runs[w.requests[k].id];
                reply == if OtherInput(row, q) || (q.named && OtherThread(row, q)) || OtherAgent(w, row, q.agent) then Conflict else Existing
      ensures old(Quiet()) && w.requests[k].id !in old(s).runs && w.requests[k].thread in old(s).busy ==>
                reply == Busy && s.busy == old(s).busy && s.runs == old(s).runs
    {
      hide Books, Filed, Play, NoOtherActive, LateMismatch, EarlyMismatch;
      Interfere(k);
      var read := Works();
      Do(PreCheck(k, read));
      if s.pcs[k] == Checked {
        reply := ClaimAndCreate(k);
      } else {
        reply := s.pcs[k].reply;
      }
      IsFiled(w, s, k);
      FiledTells(w, s, w.requests[k], s.pcs[k], s.inserted[k]);
      if old(w.requests[k].id in s.runs) { EarlyMeans(w, old(s.runs[w.requests[k].id]), w.requests[k]); }
    }
  }

  /** The pre-check compares exactly the fields that the client sent. */
  lemma EarlyMeans(w: World, row: RunRow, q: Request)
    ensures EarlyMismatch(w, row, q) <==> OtherInput(row, q) || (q.named && OtherThread(row, q)) || OtherAgent(w, row, q.agent)
  {}

  /** The fallbacks compare the thread used and the agent routed to. */
  lemma LateMeans(w: World, row: RunRow, q: Request)
    ensures LateMismatch(w, row, q) <==> OtherInput(row, q) || OtherThread(row, q) || OtherAgent(w, row, q.routed)
  {}

  lemma ReleasesAlike(w: World, s: State, t: State, k: nat)
    requires k < |w.requests|
    ensures t.busy == s.busy && t.runs == s.runs ==> Releases(w, t, k) == Releases(w, s, k)
  {}

  lemma IsFiled(w: World, s: State, k: nat)
    ensures Books(w, s) && k < |s.pcs| ==> Filed(w, s, w.requests[k], s.pcs[k], s.inserted[k])
  {
  }

  lemma CreatorHasRow(w: World, s: State, k: nat)
    ensures Books(w, s) && k < |s.pcs| && Creator(s.pcs[k]) ==> w.requests[k].id in s.runs
  {
    IsFiled(w, s, k);
  }

  lemma OthersMove(w: World, s: State, a: Act, k: nat)
    requires a.Complete? || a.k != k
    ensures |Apply(w, s, a).pcs| == |s.pcs| && (k < |s.pcs| ==> Apply(w, s, a).pcs[k] == s.pcs[k])
  {
    hide EarlyMismatch, LateMismatch, Releases;
  }

  lemma {:induction false} PlaySnoc(w: World, s: State, acts: seq<Act>, a: Act)
    ensures Play(w, s, acts + [a]) == Apply(w, Play(w, s, acts), a)
    decreases acts
  {
    if acts == [] {
      assert acts + [a] == [a] && [a][1..] == [];
      assert Play(w, Apply(w, s, a), []) == Apply(w, s, a);
    } else {
      assert (acts + [a])[1..] == acts[1..] + [a];
      PlaySnoc(w, Apply(w, s, acts[0]), acts[1..], a);
    }
  }
}
