/**
 * The policy gate in front of tool calls and its one-shot approvals
 * (internal/api/server.go, policy.go, admin_pending.go): a call the policy
 * holds back leaves a pending action; an administrator may approve it; one
 * later call with the same binding burns the approval and goes through.
 */
module Approvals {
  import opened Common

  /** What an approval is bound to; `digest` stands for the arguments. */
  datatype Binding = Binding(tenant: string, agent: string, run: string, generation: int, connector: string, tool: string, digest: string)

  /** What an audit row says of a call: all of its binding but the arguments. */
  function Audited(binding: Binding): (row: Binding)
    ensures forall other: Binding :: other.(digest := binding.digest) == binding ==> other.(digest := "") == row
  {
    binding.(digest := "")
  }

  datatype Status = Waiting | Approved | Denied | Consumed

  /** `expires`: an embedded action with a deadline; those are not for tool calls. */
  datatype Action = Action(id: string, binding: Binding, status: Status, expires: bool)

  /** What the policy check said of a call; break-glass names the audit row that was written for it. */
  datatype Verdict = Disabled | BreakGlass(audit: string) | Allow | Hold | Deny

  datatype Pass = Pass(binding: Binding, verdict: Verdict, burned: Option<string>)

  /** `approvals`, `burned` and `passes` are histories. */
  datatype State = State(
    actions: seq<Action>, audits: map<string, Binding>,
    approvals: seq<string>, burned: seq<string>, passes: seq<Pass>)

  datatype Act =
    | Create(id: string, binding: Binding, expires: bool)
    | Approve(id: string, verdict: Verdict, late: bool)
    | DenyAction(id: string)
    | Expire(id: string)
    | Audit(id: string, binding: Binding)
    | Call(binding: Binding, bound: bool, verdict: Verdict, lost: bool)

  const PENDING_PREFIX := "pending-v2-"

  // ----- Store operations -----

  /** Position of an action by id; the length of the table when there is none. */
  function Find(actions: seq<Action>, id: string): (i: nat)
    ensures i <= |actions| && (i < |actions| ==> actions[i].id == id)
    ensures forall j :: 0 <= j < i ==> actions[j].id != id
  {
    if actions == [] || actions[0].id == id then 0 else 1 + Find(actions[1..], id)
  }

  predicate Open(a: Action, binding: Binding, expires: bool) {
    a.status == Waiting && a.binding == binding && a.expires == expires
  }

  /** The oldest open action of a binding; at most one is ever open. */
  function FirstOpen(actions: seq<Action>, binding: Binding, expires: bool): (i: nat)
    ensures i <= |actions| && (i < |actions| ==> Open(actions[i], binding, expires))
    ensures forall j :: 0 <= j < i ==> !Open(actions[j], binding, expires)
  {
    if actions == [] || Open(actions[0], binding, expires) then 0 else 1 + FirstOpen(actions[1..], binding, expires)
  }

  predicate Usable(a: Action, binding: Binding) {
    a.status == Approved && a.binding == binding && !a.expires && binding.digest != ""
  }

  /** The oldest approval a call with this binding may use. */
  function FirstUsable(actions: seq<Action>, binding: Binding): (i: nat)
    ensures i <= |actions| && (i < |actions| ==> Usable(actions[i], binding))
    ensures forall j :: 0 <= j < i ==> !Usable(actions[j], binding)
  {
    if actions == [] || Usable(actions[0], binding) then 0 else 1 + FirstUsable(actions[1..], binding)
  }

  /** The row was issued under the current argument binding. */
  predicate CurrentBinding(a: Action) {
    a.binding.digest != "" && PENDING_PREFIX <= a.id
  }

  function SetStatus(actions: seq<Action>, i: nat, status: Status): seq<Action>
    requires i < |actions|
  {
    actions[i := actions[i].(status := status)]
  }

  function Apply(s: State, a: Act): State {
    match a
    case Create(id, binding, expires) =>
      if Find(s.actions, id) < |s.actions| || FirstOpen(s.actions, binding, expires) < |s.actions| then s
      else s.(actions := s.actions + [Action(id, binding, Waiting, expires)])
    case Approve(id, verdict, late) =>
      var i := Find(s.actions, id);
      if i < |s.actions| && s.actions[i].status == Waiting && CurrentBinding(s.actions[i]) &&
         (verdict.Allow? || verdict.Hold?) && !(s.actions[i].expires && late)
      then s.(actions := SetStatus(s.actions, i, Approved), approvals := s.approvals + [id])
      else s
    case DenyAction(id) =>
      var i := Find(s.actions, id);
      if i < |s.actions| && s.actions[i].status == Waiting then s.(actions := SetStatus(s.actions, i, Denied)) else s
    case Expire(id) =>
      var i := Find(s.actions, id);
      if i < |s.actions| && s.actions[i].status == Waiting && s.actions[i].expires
      then s.(actions := SetStatus(s.actions, i, Denied)) else s
    case Audit(id, binding) =>
      if id in s.audits then s else s.(audits := s.audits[id := Audited(binding)])
    case Call(binding, bound, verdict, lost) =>
      if verdict.Deny? || (verdict.BreakGlass? && !(verdict.audit in s.audits && s.audits[verdict.audit] == Audited(binding))) then s
      else
        var i := if bound then FirstUsable(s.actions, binding) else |s.actions|;
        var hit := i < |s.actions|;
        var t := if hit then s.(actions := SetStatus(s.actions, i, Consumed), burned := s.burned + [s.actions[i].id]) else s;
        if verdict.Hold? && (!hit || lost) then t
        else t.(passes := t.passes + [Pass(binding, verdict, if hit && !lost then Some(s.actions[i].id) else None)])
  }

  function Play(s: State, acts: seq<Act>): State
    decreases acts
  {
    if acts == [] then s else Play(Apply(s, acts[0]), acts[1..])
  }

  const EMPTY := State([], map[], [], [], [])

  // ----- What every history keeps -----

  ghost predicate Distinct(ids: seq<string>) {
    forall i, j :: 0 <= i < j < |ids| ==> ids[i] != ids[j]
  }

  function Ids(actions: seq<Action>): (ids: seq<string>)
    ensures |ids| == |actions|
  {
    seq(|actions|, i requires 0 <= i < |actions| => actions[i].id)
  }

  /** An action's status agrees with the histories: approved once, burned once, and never
      burned unapproved.  Approved are only actions bound to their arguments under the
      current scheme, and burned only those without a deadline. */
  predicate Filed(s: State, a: Action) {
    && (a.id in s.approvals <==> a.status == Approved || a.status == Consumed)
    && (a.id in s.burned <==> a.status == Consumed)
    && (a.id in s.approvals ==> a.binding.digest != "" && "pending-v2-" <= a.id)
    && (a.id in s.burned ==> !a.expires)
  }

  ghost predicate BoundTo(s: State, id: string, binding: Binding) {
    exists i :: 0 <= i < |s.actions| && s.actions[i].id == id && s.actions[i].binding == binding
  }

  /** A pass is justified: policy off, allowed, audited break-glass, or paid for with an approval of the same binding. */
  ghost predicate Justified(s: State, p: Pass) {
    && !p.verdict.Deny?
    && (p.verdict.BreakGlass? ==> p.verdict.audit in s.audits && s.audits[p.verdict.audit] == Audited(p.binding))
    && (p.verdict.Hold? ==> p.burned.Some?)
    && (p.burned.Some? ==> p.burned.value in s.burned && BoundTo(s, p.burned.value, p.binding))
  }

  /** The approvals that calls were let through on, in order. */
  function Spent(passes: seq<Pass>): seq<string> {
    if passes == [] then []
    else
      var last := passes[|passes| - 1];
      Spent(passes[..|passes| - 1]) + (if last.burned.Some? then [last.burned.value] else [])
  }

  ghost predicate Inv(s: State) {
    && Distinct(Ids(s.actions)) && Distinct(s.approvals) && Distinct(s.burned)
    && (forall i :: 0 <= i < |s.actions| ==> Filed(s, s.actions[i]))
    && (forall id :: id in s.approvals || id in s.burned ==> id in Ids(s.actions))
    && (forall p :: p in s.passes ==> Justified(s, p))
    && Distinct(Spent(s.passes)) && (forall id :: id in Spent(s.passes) ==> id in s.burned)
  }

  /** The store only grows: ids and bindings stay, audits and histories are never cut. */
  ghost predicate Grows(s: State, t: State) {
    && |s.actions| <= |t.actions|
    && (forall i :: 0 <= i < |s.actions| ==> t.actions[i].id == s.actions[i].id && t.actions[i].binding == s.actions[i].binding)
    && (forall id :: id in s.audits ==> id in t.audits && t.audits[id] == s.audits[id])
    && s.approvals <= t.approvals && s.burned <= t.burned && s.passes <= t.passes
  }

  lemma GrowsOn(s: State, t: State, u: State)
    requires Grows(s, t) && Grows(t, u)
    ensures Grows(s, u)
  {
  }

  lemma Lengths(s: State, t: State)
    requires Grows(s, t)
    ensures |s.passes| <= |t.passes| && |s.burned| <= |t.burned| && |s.approvals| <= |t.approvals|
  {
  }

  lemma DistinctAt(actions: seq<Action>, i: nat, j: nat)
    requires Distinct(Ids(actions)) && i < |actions| && j < |actions| && i != j
    ensures actions[i].id != actions[j].id
  {
    assert Ids(actions)[i] == actions[i].id && Ids(actions)[j] == actions[j].id;
  }

  lemma CreateKeeps(s: State, id: string, binding: Binding, expires: bool)
    requires Inv(s)
    ensures Inv(Apply(s, Create(id, binding, expires))) && Grows(s, Apply(s, Create(id, binding, expires)))
  {
    var t := Apply(s, Create(id, binding, expires));
    if t != s {
      assert forall j :: 0 <= j < |s.actions| ==> Ids(s.actions)[j] == s.actions[j].id != id;
      assert Ids(t.actions) == Ids(s.actions) + [id];
      PassesStay(s, t);
    }
  }

  lemma PassesStay(s: State, t: State)
    requires Grows(s, t) && t.passes == s.passes && forall p :: p in s.passes ==> Justified(s, p)
    ensures forall p :: p in t.passes ==> Justified(t, p)
  {
  }

  /** Changing one action's status, with the histories that go with it. */
  lemma StatusKeeps(s: State, t: State, i: nat, status: Status)
    requires Inv(s) && i < |s.actions| && t.actions == SetStatus(s.actions, i, status)
    requires t.audits == s.audits && t.passes == s.passes && Filed(t, t.actions[i])
    requires t.approvals == s.approvals || (t.approvals == s.approvals + [s.actions[i].id] && s.actions[i].id !in s.approvals)
    requires t.burned == s.burned || (t.burned == s.burned + [s.actions[i].id] && s.actions[i].id !in s.burned)
    ensures Inv(t) && Grows(s, t)
  {
    assert Ids(t.actions) == Ids(s.actions);
    assert Ids(s.actions)[i] == s.actions[i].id;
    forall j | 0 <= j < |t.actions|
      ensures Filed(t, t.actions[j])
    {
      if j != i {
        DistinctAt(s.actions, i, j);
        assert Filed(s, s.actions[j]);
      }
    }
    PassesStay(s, t);
  }

  lemma CallKeeps(s: State, binding: Binding, bound: bool, verdict: Verdict, lost: bool)
    requires Inv(s)
    ensures var t := Apply(s, Call(binding, bound, verdict, lost)); Inv(t) && Grows(s, t)
  {
    var t := Apply(s, Call(binding, bound, verdict, lost));
    if t != s {
      var i := if bound then FirstUsable(s.actions, binding) else |s.actions|;
      var mid := t.(passes := s.passes);
      if i < |s.actions| {
        assert Filed(s, s.actions[i]);
        StatusKeeps(s, mid, i, Consumed);
      }
      if t.passes != s.passes {
        PassAdded(s, mid, t, i);
      }
    }
  }

  /** The new pass is justified and spends an approval nobody spent before. */
  lemma PassAdded(s: State, mid: State, t: State, i: nat)
    requires Inv(s) && Inv(mid) && Grows(s, mid) && mid.passes == s.passes && i <= |s.actions|
    requires |t.passes| == |s.passes| + 1 && t == mid.(passes := s.passes + [t.passes[|s.passes|]])
    requires var p := t.passes[|s.passes|];
             && !p.verdict.Deny?
             && (p.verdict.BreakGlass? ==> p.verdict.audit in s.audits && s.audits[p.verdict.audit] == Audited(p.binding))
             && (p.verdict.Hold? ==> p.burned.Some?)
             && (p.burned.Some? ==> i < |s.actions| && p.burned.value == s.actions[i].id && s.actions[i].binding == p.binding &&
                                    s.actions[i].id !in s.burned && s.actions[i].id in mid.burned)
    ensures Inv(t) && Grows(s, t)
  {
  }

  lemma InvKept(s: State, a: Act)
    requires Inv(s)
    ensures Inv(Apply(s, a)) && Grows(s, Apply(s, a))
  {
    var t := Apply(s, a);
    match a {
      case Create(id, binding, expires) => CreateKeeps(s, id, binding, expires);
      case Approve(id, verdict, late) =>
        if t != s {
          assert Filed(s, s.actions[Find(s.actions, id)]);
          StatusKeeps(s, t, Find(s.actions, id), Approved);
        }
      case DenyAction(id) =>
        if t != s {
          assert Filed(s, s.actions[Find(s.actions, id)]);
          StatusKeeps(s, t, Find(s.actions, id), Denied);
        }
      case Expire(id) =>
        if t != s {
          assert Filed(s, s.actions[Find(s.actions, id)]);
          StatusKeeps(s, t, Find(s.actions, id), Denied);
        }
      case Audit(id, binding) => PassesStay(s, t);
      case Call(binding, bound, verdict, lost) => CallKeeps(s, binding, bound, verdict, lost);
    }
  }

  lemma {:induction false} InvAlways(s: State, acts: seq<Act>)
    requires Inv(s)
    ensures Inv(Play(s, acts))
    decreases acts
  {
    if acts != [] {
      InvKept(s, acts[0]);
      InvAlways(Apply(s, acts[0]), acts[1..]);
    }
  }

  // ----- One call per approval -----

  /** A call let through although the policy held it back; `binding` narrows it to one kind of call. */
  predicate Counted(p: Pass, binding: Option<Binding>) {
    p.verdict.Hold? && (binding.None? || binding.value == p.binding)
  }

  function HeldPasses(passes: seq<Pass>, binding: Option<Binding>): nat {
    if passes == [] then 0
    else HeldPasses(passes[..|passes| - 1], binding) + (if Counted(passes[|passes| - 1], binding) then 1 else 0)
  }

  ghost function HeldIds(passes: seq<Pass>, binding: Option<Binding>): set<string> {
    set p | p in passes && Counted(p, binding) && p.burned.Some? :: p.burned.value
  }

  ghost function ApprovalsFor(s: State, binding: Option<Binding>): set<string> {
    set id | id in s.approvals && (binding.None? || BoundTo(s, id, binding.value))
  }

  lemma {:induction false} SpentIds(passes: seq<Pass>, binding: Option<Binding>)
    requires forall p :: p in passes && p.verdict.Hold? ==> p.burned.Some?
    requires Distinct(Spent(passes))
    ensures HeldPasses(passes, binding) == |HeldIds(passes, binding)|
    ensures forall id :: id in HeldIds(passes, binding) ==> id in Spent(passes)
    decreases passes
  {
    if passes != [] {
      var front, last := passes[..|passes| - 1], passes[|passes| - 1];
      assert passes == front + [last];
      assert Spent(front) <= Spent(passes);
      SpentIds(front, binding);
      if Counted(last, binding) {
        var id := last.burned.value;
        assert Spent(passes)[|Spent(front)|] == id;
        assert id !in HeldIds(front, binding);
        assert HeldIds(passes, binding) == HeldIds(front, binding) + {id};
      } else {
        assert HeldIds(passes, binding) == HeldIds(front, binding);
      }
    }
  }

  /**
   * Over every history of calls, approvals, denials, expiries and policy
   * changes: calls let through on a held-back verdict never outnumber the
   * approvals, in all and for each binding; and every pass is justified.
   */
  lemma OneCallPerApproval(acts: seq<Act>, binding: Option<Binding>)
    ensures var s := Play(EMPTY, acts);
            && HeldPasses(s.passes, binding) <= |ApprovalsFor(s, binding)| <= |s.approvals|
            && forall p :: p in s.passes ==> Justified(s, p)
  {
    InvAlways(EMPTY, acts);
    var s := Play(EMPTY, acts);
    SpentIds(s.passes, binding);
    forall id | id in HeldIds(s.passes, binding)
      ensures id in ApprovalsFor(s, binding)
    {
      var p :| p in s.passes && Counted(p, binding) && p.burned.Some? && p.burned.value == id;
      assert Justified(s, p);
      BurnedWasApproved(s, id);
    }
    SubsetSize(HeldIds(s.passes, binding), ApprovalsFor(s, binding));
    ListedSize(s.approvals, ApprovalsFor(s, binding));
  }

  /** What an administrator approved, and what a call was let through on, over every
      history: an action bound to its arguments, issued under the current scheme, and for
      a call one without a deadline. */
  lemma ApprovedIsBound(acts: seq<Act>, i: nat)
    ensures var s := Play(EMPTY, acts);
            i < |s.actions| ==>
              && (s.actions[i].id in s.approvals ==> s.actions[i].binding.digest != "" && "pending-v2-" <= s.actions[i].id)
              && (s.actions[i].id in s.burned ==> s.actions[i].id in s.approvals && !s.actions[i].expires)
  {
    InvAlways(EMPTY, acts);
    var s := Play(EMPTY, acts);
    if i < |s.actions| {
      assert Filed(s, s.actions[i]);
    }
  }

  /** Somebody decides on this action. */
  predicate Decides(a: Act, id: string) { (a.Approve? || a.DenyAction?) && a.id == id }

  /** An action without a deadline waits for as long as nobody decides on it. */
  lemma {:induction false} WaitsForDecision(s: State, acts: seq<Act>, i: nat)
    requires i < |s.actions| && s.actions[i].status == Waiting && !s.actions[i].expires
    requires forall a <- acts :: !Decides(a, s.actions[i].id)
    ensures i < |Play(s, acts).actions| && Play(s, acts).actions[i] == s.actions[i]
    decreases acts
  {
    if acts != [] {
      WaitStep(s, acts[0], i);
      WaitsForDecision(Apply(s, acts[0]), acts[1..], i);
    }
  }

  lemma WaitStep(s: State, a: Act, i: nat)
    requires i < |s.actions| && s.actions[i].status == Waiting && !s.actions[i].expires && !Decides(a, s.actions[i].id)
    ensures i < |Apply(s, a).actions| && Apply(s, a).actions[i] == s.actions[i]
  {
  }

  /** Nothing of this binding is waiting or can be burned. */
  predicate Settled(actions: seq<Action>, binding: Binding) {
    forall i :: 0 <= i < |actions| && actions[i].binding == binding ==> actions[i].status == Denied || actions[i].status == Consumed
  }

  /** Without an approval a held call of this binding stays held. */
  lemma HeldBack(s: State, binding: Binding)
    requires forall i :: 0 <= i < |s.actions| && s.actions[i].binding == binding ==> s.actions[i].status != Approved
    ensures Apply(s, Call(binding, true, Hold, false)) == s
  {
  }

  lemma IssuedNew(s: State, id: string, binding: Binding)
    requires Fresh(s, id) && Settled(s.actions, binding)
    ensures Apply(s, Create(id, binding, false)) == s.(actions := s.actions + [Action(id, binding, Waiting, false)])
  {
  }

  lemma ApprovedNew(s: State, id: string, binding: Binding, decision: Verdict)
    requires Fresh(s, id) && "pending-v2-" <= id && binding.digest != "" && (decision.Allow? || decision.Hold?)
    ensures var issued := s.(actions := s.actions + [Action(id, binding, Waiting, false)]);
            Apply(issued, Approve(id, decision, false)) ==
            s.(actions := s.actions + [Action(id, binding, Approved, false)], approvals := s.approvals + [id])
  {
    OnlyAt(s.actions, id, |s.actions|, s.actions + [Action(id, binding, Waiting, false)]);
  }

  lemma BurnedNew(s: State, actions: seq<Action>, id: string, binding: Binding)
    requires s.actions == actions + [Action(id, binding, Approved, false)] && Settled(actions, binding) && binding.digest != ""
    ensures Apply(s, Call(binding, true, Hold, false)) ==
            s.(actions := actions + [Action(id, binding, Consumed, false)], burned := s.burned + [id], passes := s.passes + [Pass(binding, Hold, Some(id))])
  {
    assert Usable(s.actions[|actions|], binding);
    assert forall i :: 0 <= i < |actions| ==> !Usable(s.actions[i], binding);
    assert FirstUsable(s.actions, binding) == |actions|;
  }

  /** The whole way of a held call: it is held, its action is approved, and then exactly
      one call of the same binding goes through and the next is held again. */
  lemma ApprovedOnceThenHeld(s: State, id: string, binding: Binding, decision: Verdict)
    requires Fresh(s, id) && "pending-v2-" <= id && binding.digest != "" && (decision.Allow? || decision.Hold?)
    requires Settled(s.actions, binding)
    ensures var call := Call(binding, true, Hold, false);
            var issued := Apply(Apply(s, call), Create(id, binding, false));
            var approved := Apply(issued, Approve(id, decision, false));
            var used := Apply(approved, call);
            && issued.passes == s.passes && Apply(issued, call) == issued
            && used.passes == s.passes + [Pass(binding, Hold, Some(id))]
            && Apply(used, call) == used
  {
    HeldBack(s, binding);
    IssuedNew(s, id, binding);
    var issued := Apply(s, Create(id, binding, false));
    HeldBack(issued, binding);
    ApprovedNew(s, id, binding, decision);
    var approved := Apply(issued, Approve(id, decision, false));
    BurnedNew(approved, s.actions, id, binding);
    HeldBack(Apply(approved, Call(binding, true, Hold, false)), binding);
    hide Apply;
  }

  lemma OnlyAt(before: seq<Action>, id: string, n: nat, after: seq<Action>)
    requires Find(before, id) == |before| == n && |after| == n + 1 && after[..n] == before && after[n].id == id
    ensures Find(after, id) == n
  {
    assert forall j :: 0 <= j < n ==> after[j] == before[j];
  }

  lemma BurnedWasApproved(s: State, id: string)
    requires Inv(s) && id in s.burned
    ensures id in s.approvals
  {
  }

  /** A denied or expired action stays so, and nothing is ever let through on it. */
  lemma {:induction false} DeniedIsFinal(s: State, acts: seq<Act>, i: nat)
    requires Inv(s) && i < |s.actions| && s.actions[i].status == Denied
    ensures var t := Play(s, acts); i < |t.actions| && t.actions[i] == s.actions[i] && s.actions[i].id !in t.burned
    decreases acts
  {
    if acts == [] {
      assert Filed(s, s.actions[i]);
    } else {
      InvKept(s, acts[0]);
      DeniedStep(s, acts[0], i);
      DeniedIsFinal(Apply(s, acts[0]), acts[1..], i);
    }
  }

  lemma DeniedStep(s: State, a: Act, i: nat)
    requires i < |s.actions| && s.actions[i].status == Denied
    ensures var t := Apply(s, a); i < |t.actions| && t.actions[i] == s.actions[i]
  {
  }

  // ----- The gate -----

  datatype Reply = Forwarded | AwaitingApproval(id: string) | Refused

  /** How a store call ends. */
  datatype Outcome = Ok | Lost | Err

  /** How the next call ends. */
  function Next(outcomes: seq<Outcome>): Outcome { if outcomes == [] then Ok else outcomes[0] }

  /**
   * A server answering tool calls against the shared store.  `others` is what
   * everybody else does before each of its store calls, `outcomes` how those
   * calls end.
   */
  class Gate {
    var s: State
    var others: seq<seq<Act>>
    var outcomes: seq<Outcome>

    /** Nobody else acts and nothing fails. */
    predicate Quiet()
      reads this`others, this`outcomes
    {
      others == [] && outcomes == []
    }

    method Interfere()
      requires Inv(s)
      modifies this`s, this`others
      ensures Inv(s) && Grows(old(s), s)
      ensures old(Quiet()) ==> Quiet() && s == old(s)
      ensures s == if old(others) == [] then old(s) else Play(old(s), old(others)[0])
      ensures others == if old(others) == [] then [] else old(others)[1..]
    {
      GrowsSelf(s);
      if others != [] {
        var script := others[0];
        others := others[1..];
        var i := 0;
        while i < |script|
          invariant 0 <= i <= |script| && others == old(others)[1..]
          invariant Inv(s) && Grows(old(s), s) && Play(s, script[i..]) == Play(old(s), script)
        {
          assert script[i..][1..] == script[i + 1..];
          InvKept(s, script[i]);
          s := Apply(s, script[i]);
          i := i + 1;
        }
      }
    }

    /** One store operation after whatever the others did. */
    method Do(ghost start: State, a: Act)
      requires Inv(s) && Grows(start, s)
      modifies this`s
      ensures Inv(s) && Grows(start, s) && s == Apply(old(s), a)
    {
      InvKept(s, a);
      GrowsOn(start, s, Apply(s, a));
      s := Apply(s, a);
    }

    method NextOutcome() returns (outcome: Outcome)
      modifies this`outcomes
      ensures old(Quiet()) ==> Quiet() && outcome == Ok
      ensures outcome == Next(old(outcomes)) && outcomes == if old(outcomes) == [] then [] else old(outcomes)[1..]
    {
      outcome := Ok;
      if outcomes != [] {
        outcome, outcomes := outcomes[0], outcomes[1..];
      }
    }

    /** An active window counts only once its audit row is durably written. */
    method TryBreakGlassBypass(binding: Binding, window: bool, audit: string) returns (bypass: bool)
      requires Inv(s)
      modifies this
      ensures Inv(s) && Grows(old(s), s)
      ensures bypass ==> window && audit in s.audits && s.audits[audit] == Audited(binding)
      ensures old(Quiet()) ==> Quiet() && (bypass <==> window && audit !in old(s).audits) && (!bypass ==> s == old(s))
      ensures old(Quiet()) && bypass ==> s == old(s).(audits := old(s).audits[audit := Audited(binding)])
      // a write that failed or was not confirmed opens nothing
      ensures window && !Next(old(outcomes)).Ok? ==> !bypass
      ensures window && Next(old(outcomes)).Err? && old(others) == [] ==> s == old(s)
    {
      bypass := false;
      if !window {
        return;
      }
      Interfere();
      var outcome := NextOutcome();
      if outcome.Err? || audit in s.audits {
        return;
      }
      InvKept(s, Audit(audit, binding));
      s := Apply(s, Audit(audit, binding));
      bypass := outcome.Ok?;
    }

    method CheckConnectorPolicy(binding: Binding, enabled: bool, window: bool, audit: string, decision: Verdict) returns (verdict: Verdict)
      requires Inv(s) && (decision.Allow? || decision.Hold? || decision.Deny?)
      modifies this
      ensures Inv(s) && Grows(old(s), s)
      ensures verdict == Disabled <==> !enabled
      ensures verdict.BreakGlass? ==> window && verdict.audit == audit && audit in s.audits && s.audits[audit] == Audited(binding)
      ensures enabled && !verdict.BreakGlass? ==> verdict == decision
      ensures old(Quiet()) ==> Quiet() && (verdict.BreakGlass? <==> enabled && window && audit !in old(s).audits)
      ensures old(Quiet()) && !verdict.BreakGlass? ==> s == old(s)
      ensures old(Quiet()) && verdict.BreakGlass? ==> s == old(s).(audits := old(s).audits[audit := Audited(binding)])
    {
      if !enabled {
        return Disabled;
      }
      var bypass := TryBreakGlassBypass(binding, window, audit);
      verdict := if bypass then BreakGlass(audit) else decision;
    }

    /**
     * Burn an approval for this call if there is one, and forward the call if
     * its verdict lets it through or the approval makes up for a hold.
     */
    method Settle(binding: Binding, bound: bool, verdict: Verdict) returns (forwarded: bool)
      requires Inv(s) && !verdict.Deny?
      requires verdict.BreakGlass? ==> verdict.audit in s.audits && s.audits[verdict.audit] == Audited(binding)
      modifies this
      ensures Inv(s) && Grows(old(s), s)
      ensures !verdict.Hold? ==> forwarded
      ensures forwarded ==> |s.passes| > |old(s).passes| && Newest(s, binding, verdict)
      ensures forwarded && verdict.Hold? ==> |s.burned| > |old(s).burned|
      ensures old(Quiet()) ==> Quiet() && s == Apply(old(s), Call(binding, bound, verdict, false)) &&
                               (forwarded <==> !verdict.Hold? || (bound && HasUsable(old(s), binding)))
      // a held call is let through only by an approval that it knows to have burned
      ensures verdict.Hold? && (!bound || !Next(old(outcomes)).Ok?) ==> !forwarded
      ensures Next(old(outcomes)).Err? && verdict.Hold? && old(others) == [] ==> s.burned == old(s).burned && s.passes == old(s).passes
    {
      NothingTried(s, binding, verdict);
      hide Inv, Grows, Apply, Newest;
      Interfere();
      ghost var start := s;
      Lengths(old(s), s);
      AuditsStay(old(s), s, verdict, binding);
      var outcome := NextOutcome();
      var tried := bound && !outcome.Err?;
      var hit := tried && FirstUsable(s.actions, binding) < |s.actions|;
      forwarded := !verdict.Hold? || (hit && outcome.Ok?);
      CallEffect(s, binding, tried, verdict, outcome.Lost?);
      Do(old(s), Call(binding, tried, verdict, outcome.Lost?));
    }

    /** Store a pending action for this binding, or reuse the open one. */
    method PersistPendingAction(binding: Binding, bound: bool, id: string) returns (reply: Reply)
      requires Inv(s)
      modifies this
      ensures Inv(s) && Grows(old(s), s)
      ensures !reply.Forwarded?
      ensures reply.AwaitingApproval? ==> bound && BoundTo(s, reply.id, Digested(binding))
      ensures old(Quiet()) && bound && Fresh(old(s), id) ==>
                reply.AwaitingApproval? && s == Apply(old(s), Create(id, Digested(binding), false))
      // it names the open action of the binding, waiting for a decision
      ensures reply.AwaitingApproval? ==> Waits(s, reply.id, Digested(binding))
      ensures old(Quiet()) && bound && !Fresh(old(s), id) && (forall a <- old(s).actions :: !Open(a, Digested(binding), false)) ==> reply == Refused
      ensures old(Quiet()) && bound && (exists a <- old(s).actions :: Open(a, Digested(binding), false)) ==> reply.AwaitingApproval? && s == old(s)
      ensures bound && !Next(old(outcomes)).Ok? ==> reply == Refused
      ensures (bound ==> Next(old(outcomes)).Err? && old(others) == []) ==> s == old(s)
    {
      GrowsSelf(s);
      if !bound {
        return Refused;
      }
      Interfere();
      var outcome := NextOutcome();
      if outcome.Err? {
        return Refused;
      }
      var key := Digested(binding);
      var i := FirstOpen(s.actions, key, false);
      if i == |s.actions| && Find(s.actions, id) < |s.actions| {
        return Refused;
      }
      var issued := if i < |s.actions| then s.actions[i].id else id;
      Do(old(s), Create(id, key, false));
      assert s.actions[i].id == issued && s.actions[i].binding == key;
      reply := if outcome.Ok? then AwaitingApproval(issued) else Refused;
    }

    /**
     * One tool call.  A deny burns nothing and is never forwarded; a held call
     * is forwarded only by burning an approval of its own binding, and is
     * otherwise answered with the pending action that could release it.
     */
    method HandleToolCall(binding: Binding, bound: bool, enabled: bool, window: bool, audit: string, decision: Verdict, id: string)
      returns (reply: Reply)
      requires Inv(s) && (decision.Allow? || decision.Hold? || decision.Deny?)
      modifies this
      ensures Inv(s) && Grows(old(s), s)
      ensures !enabled || decision.Allow? ==> reply == Forwarded
      ensures enabled && !window && decision.Deny? ==> reply == Refused
      ensures reply.Forwarded? ==> |s.passes| > |old(s).passes| && s.passes[|s.passes| - 1].binding == binding
      ensures reply.Forwarded? && enabled && !window && decision.Hold? ==>
                |s.burned| > |old(s).burned| && Newest(s, binding, Hold)
      ensures reply.AwaitingApproval? ==> decision.Hold? && bound && BoundTo(s, reply.id, Digested(binding))
      // undisturbed, a held call goes through exactly when an approval of its binding is there to burn,
      // and otherwise is told which action to wait for
      ensures old(Quiet()) && enabled && !window && decision.Hold? ==>
                (reply == Forwarded <==> bound && HasUsable(old(s), binding))
      ensures old(Quiet()) && enabled && !window && decision.Hold? && bound && !HasUsable(old(s), binding) && Fresh(old(s), id) ==>
                reply.AwaitingApproval? && Waits(s, reply.id, Digested(binding)) && s == Apply(old(s), Create(id, Digested(binding), false))
      ensures old(Quiet()) && enabled && !window && decision.Deny? ==> s == old(s)
      ensures old(Quiet()) && enabled && window && audit !in old(s).audits ==>
                reply == Forwarded && s.passes == old(s).passes + [s.passes[|s.passes| - 1]] && s.passes[|s.passes| - 1].verdict == BreakGlass(audit)
      ensures old(Quiet()) && (!enabled || (!window && decision.Allow?)) ==> s == Apply(old(s), Call(binding, bound, if enabled then Allow else Disabled, false))
      ensures old(Quiet()) && enabled && !window && decision.Hold? && reply == Forwarded ==> s == Apply(old(s), Call(binding, bound, Hold, false))
    {
      hide Inv, Grows, Apply, HasUsable, Fresh;
      var verdict := CheckConnectorPolicy(binding, enabled, window, audit, decision);
      ghost var start := s;
      Lengths(old(s), start);
      if !verdict.Deny? {
        CallAppends(s, binding, bound, verdict);
        var forwarded := Settle(binding, bound, verdict);
        GrowsOn(old(s), start, s);
        if forwarded {
          return Forwarded;
        }
        NothingToBurn(start, binding, bound, verdict);
      }
      if !verdict.Hold? {
        return Refused;
      }
      ghost var settled := s;
      reply := PersistPendingAction(binding, bound, id);
      GrowsOn(old(s), settled, s);
    }

    /** Approve: only a waiting action of the current binding that the policy does not deny now. */
    method ApprovePendingAction(id: string, enabled: bool, decision: Verdict, late: bool) returns (ok: bool)
      requires Inv(s)
      modifies this
      ensures Inv(s) && Grows(old(s), s)
      ensures ok ==> enabled && !decision.Deny? && id in s.approvals && |s.approvals| > |old(s).approvals|
      ensures old(Quiet()) ==> (ok <==> enabled && Approvable(old(s), id, decision, late))
      ensures old(Quiet()) ==> s == if ok then Apply(old(s), Approve(id, decision, late)) else old(s)
      ensures !Next(old(outcomes)).Ok? ==> !ok
      ensures Next(old(outcomes)).Err? && old(others) == [] ==> s == old(s)
    {
      NotApproved(s, id, decision, late);
      ok := false;
      GrowsSelf(s);
      hide Inv, Grows, Apply;
      if !enabled {
        return;
      }
      Interfere();
      ghost var start := s;
      var i := Find(s.actions, id);
      if i == |s.actions| || s.actions[i].status != Waiting || !CurrentBinding(s.actions[i]) {
        return;
      }
      if !decision.Allow? && !decision.Hold? {
        return;
      }
      Interfere();
      GrowsOn(old(s), start, s);
      var outcome := NextOutcome();
      if outcome.Err? {
        return;
      }
      Lengths(old(s), s);
      var before := |s.approvals|;
      ApproveEffect(s, id, decision, late);
      Do(old(s), Approve(id, decision, late));
      ok := outcome.Ok? && |s.approvals| > before;
    }

    /** Deny: only a waiting action. */
    method DenyPendingAction(id: string) returns (ok: bool)
      requires Inv(s)
      modifies this
      ensures Inv(s) && Grows(old(s), s)
      ensures ok ==> exists i :: 0 <= i < |s.actions| && s.actions[i].id == id && s.actions[i].status == Denied
      ensures old(Quiet()) ==> (ok <==> Awaits(old(s), id)) && s == if ok then Apply(old(s), DenyAction(id)) else old(s)
    {
      hide Inv, Grows;
      Interfere();
      ghost var start := s;
      var i := Find(s.actions, id);
      if i == |s.actions| || s.actions[i].status != Waiting {
        return false;
      }
      Interfere();
      GrowsOn(old(s), start, s);
      i := Find(s.actions, id);
      ok := i < |s.actions| && s.actions[i].status == Waiting;
      Do(old(s), DenyAction(id));
      assert ok ==> s.actions[i].id == id && s.actions[i].status == Denied;
    }
  }

  lemma AuditsStay(s: State, t: State, verdict: Verdict, binding: Binding)
    requires Grows(s, t)
    requires verdict.BreakGlass? ==> verdict.audit in s.audits && s.audits[verdict.audit] == Audited(binding)
    ensures verdict.BreakGlass? ==> verdict.audit in t.audits && t.audits[verdict.audit] == Audited(binding)
  {
  }

  /** Some approval can be burned for a call with this binding. */
  predicate HasUsable(s: State, binding: Binding) {
    FirstUsable(s.actions, binding) < |s.actions|
  }

  predicate Fresh(s: State, id: string) {
    Find(s.actions, id) == |s.actions|
  }

  lemma NothingTried(s: State, binding: Binding, verdict: Verdict)
    ensures verdict.Hold? ==> forall lost: bool :: Apply(s, Call(binding, false, verdict, lost)) == s
  {
  }

  /** A held call that finds no approval leaves the store as it was. */
  lemma NothingToBurn(s: State, binding: Binding, bound: bool, verdict: Verdict)
    ensures verdict.Hold? && !(bound && HasUsable(s, binding)) ==> Apply(s, Call(binding, bound, verdict, false)) == s
  {
  }

  /** The action exists and is waiting for a decision. */
  predicate Awaits(s: State, id: string) {
    var i := Find(s.actions, id); i < |s.actions| && s.actions[i].status == Waiting
  }

  /** It may be approved now: current binding, not past its deadline, and the policy does not deny. */
  predicate Approvable(s: State, id: string, decision: Verdict, late: bool) {
    Awaits(s, id) && (decision.Allow? || decision.Hold?) &&
    var a := s.actions[Find(s.actions, id)]; CurrentBinding(a) && !(a.expires && late)
  }

  lemma CallAppends(s: State, binding: Binding, bound: bool, verdict: Verdict)
    ensures var t := Apply(s, Call(binding, bound, verdict, false));
            && !verdict.Deny? && !verdict.Hold? && (verdict.BreakGlass? ==> verdict.audit in s.audits && s.audits[verdict.audit] == Audited(binding)) ==>
                 t.passes != [] && t.passes == s.passes + [t.passes[|t.passes| - 1]] && t.passes[|t.passes| - 1].verdict == verdict
  {
  }

  /** What one call does, seen from outside. */
  lemma CallEffect(s: State, binding: Binding, tried: bool, verdict: Verdict, lost: bool)
    requires Inv(s) && !verdict.Deny?
    requires verdict.BreakGlass? ==> verdict.audit in s.audits && s.audits[verdict.audit] == Audited(binding)
    ensures var t := Apply(s, Call(binding, tried, verdict, lost));
            var hit := tried && FirstUsable(s.actions, binding) < |s.actions|;
            && ((!verdict.Hold? || (hit && !lost)) ==> |t.passes| > |s.passes| && Newest(t, binding, verdict))
            && (hit ==> |t.burned| > |s.burned|)
  {
    var t := Apply(s, Call(binding, tried, verdict, lost));
    var i := FirstUsable(s.actions, binding);
    if tried && i < |s.actions| {
      assert t.actions[i].id == s.actions[i].id && t.actions[i].binding == binding;
    }
  }

  lemma NotApproved(s: State, id: string, verdict: Verdict, late: bool)
    ensures !Approvable(s, id, verdict, late) ==> Apply(s, Approve(id, verdict, late)) == s
  {
  }

  lemma ApproveEffect(s: State, id: string, verdict: Verdict, late: bool)
    ensures var t := Apply(s, Approve(id, verdict, late)); |t.approvals| > |s.approvals| ==> id in t.approvals
    ensures var t := Apply(s, Approve(id, verdict, late)); |t.approvals| > |s.approvals| <==> Approvable(s, id, verdict, late)
  {
  }

  /** An action of this binding that waits for a decision. */
  ghost predicate Waits(s: State, id: string, binding: Binding) {
    exists i :: 0 <= i < |s.actions| && s.actions[i].id == id && Open(s.actions[i], binding, false)
  }

  lemma GrowsSelf(s: State)
    ensures Grows(s, s)
  {
  }

  /** The newest pass is this call's; on a hold it spent the newest burned approval, which is bound to it. */
  ghost predicate Newest(s: State, binding: Binding, verdict: Verdict) {
    && s.passes != [] && s.passes[|s.passes| - 1].binding == binding && s.passes[|s.passes| - 1].verdict == verdict
    && (verdict.Hold? ==>
          && s.burned != [] && s.passes[|s.passes| - 1].burned == Some(s.burned[|s.burned| - 1])
          && BoundTo(s, s.burned[|s.burned| - 1], binding))
  }

  const ABSENT_ARGUMENTS := "digest of absent arguments"

  /** A call without a digest is stored under the digest of absent arguments. */
  function Digested(binding: Binding): (bound: Binding)
    ensures bound.digest != "" && bound.(digest := binding.digest) == binding && (binding.digest != "" ==> bound == binding)
  {
    if binding.digest == "" then binding.(digest := ABSENT_ARGUMENTS) else binding
  }
}
