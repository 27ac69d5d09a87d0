/**
 * The cron scheduler (cmd/cron.go): which fire is due, where a fresh schedule
 * starts, and how several replicas share the claims so that a fire is
 * dispatched at most once.  Times are integers in any unit.
 */
module Cron {
  import opened Common

  // ----- Which fire is due -----

  /** `next` gives the least fire strictly after a time. */
  ghost predicate LeastNext(next: int -> int) {
    forall t :: next(t) > t && forall u :: t <= u < next(t) ==> next(u) == next(t)
  }

  ghost predicate Fires(next: int -> int, t: int) {
    next(t - 1) == t
  }

  /** `t` is the latest fire in (last, now]. */
  ghost predicate LatestFire(next: int -> int, last: int, now: int, t: int) {
    Fires(next, t) && last < t <= now && forall u :: t < u <= now ==> !Fires(next, u)
  }

  lemma NextFires(next: int -> int, t: int)
    requires LeastNext(next)
    ensures Fires(next, next(t)) && forall u :: t < u < next(t) ==> !Fires(next, u)
  {
  }

  /** Terminates with the latest fire after `last` and not after `now`, if there is one. */
  method CheckSchedule(next: int -> int, last: int, now: int) returns (due: bool, fireTime: int)
    requires LeastNext(next)
    ensures due <==> exists t :: last < t <= now && Fires(next, t)
    ensures due ==> LatestFire(next, last, now, fireTime)
  {
    fireTime := 0;
    var first := next(last);
    NextFires(next, last);
    if first > now {
      return false, 0;
    }
    fireTime := first;
    while true
      invariant Fires(next, fireTime) && last < fireTime <= now
      decreases now - fireTime
    {
      var n := next(fireTime);
      NextFires(next, fireTime);
      if n > now {
        break;
      }
      fireTime := n;
    }
    due := true;
  }

  // ----- The shared claims -----

  /** Schedule names are unique only within a tenant. */
  datatype Key = Key(tenant: string, name: string)

  datatype Slot = Slot(key: Key, fire: int)

  /**
   * `held` says which replica has claimed a fire and not yet decided it,
   * `queued` lists the jobs the queue has taken, and `dispatched` the fires
   * whose replica heard that it did.
   */
  datatype State = State(claims: set<Slot>, held: map<Slot, nat>, queued: seq<Slot>, dispatched: seq<Slot>)

  /** `ran`: the queue took the job although the dispatch reported an error. */
  datatype Act =
    | Claim(owner: nat, slot: Slot)
    | Dispatch(owner: nat, slot: Slot)
    | Release(owner: nat, slot: Slot, ran: bool)
    | Keep(owner: nat, slot: Slot, ran: bool) // conflict, lost reply, failed release or crash: the claim stays

  const EMPTY := State({}, map[], [], [])

  predicate Holds(s: State, owner: nat, slot: Slot) {
    slot in s.held && s.held[slot] == owner
  }

  function Queue(s: State, slot: Slot, ran: bool): State {
    if ran then s.(queued := s.queued + [slot]) else s
  }

  function Apply(s: State, a: Act): State {
    match a
    case Claim(owner, slot) =>
      if slot in s.claims then s else s.(claims := s.claims + {slot}, held := s.held[slot := owner])
    case Dispatch(owner, slot) =>
      if Holds(s, owner, slot) then Queue(s, slot, true).(held := s.held - {slot}, dispatched := s.dispatched + [slot]) else s
    case Release(owner, slot, ran) =>
      if Holds(s, owner, slot) then Queue(s, slot, ran).(held := s.held - {slot}, claims := s.claims - {slot}) else s
    case Keep(owner, slot, ran) =>
      if Holds(s, owner, slot) then Queue(s, slot, ran).(held := s.held - {slot}) else s
  }

  function Play(s: State, acts: seq<Act>): State
    decreases acts
  {
    if acts == [] then s else Play(Apply(s, acts[0]), acts[1..])
  }

  ghost predicate Distinct(slots: seq<Slot>) {
    forall i, j :: 0 <= i < j < |slots| ==> slots[i] != slots[j]
  }

  ghost predicate Inv(s: State) {
    && (forall slot :: slot in s.held ==> slot in s.claims && slot !in s.dispatched)
    && (forall slot :: slot in s.dispatched ==> slot in s.claims && slot in s.queued)
    && Distinct(s.dispatched)
  }

  lemma InvKept(s: State, a: Act)
    requires Inv(s)
    ensures Inv(Apply(s, a))
    ensures forall slot :: slot in s.dispatched ==> slot in Apply(s, a).dispatched
  {
  }

  /** Whatever the replicas do, each (tenant, schedule, fire) is dispatched at most once. */
  lemma {:induction false} DispatchedAtMostOnce(s: State, acts: seq<Act>)
    requires Inv(s)
    ensures Inv(Play(s, acts))
    decreases acts
  {
    if acts != [] {
      InvKept(s, acts[0]);
      DispatchedAtMostOnce(Apply(s, acts[0]), acts[1..]);
    }
  }

  // ----- Fires that are lost -----

  /** A fire that is claimed, held by nobody, and whose job no queue has. */
  predicate Abandoned(s: State, slot: Slot) {
    slot in s.claims && slot !in s.held && slot !in s.queued
  }

  /** Not exactly once: a claim that is kept without a job shuts its fire out for good. */
  lemma {:induction false} AbandonedFireIsLost(s: State, acts: seq<Act>, slot: Slot)
    requires Abandoned(s, slot)
    ensures Abandoned(Play(s, acts), slot)
    decreases acts
  {
    if acts != [] {
      AbandonedFireIsLost(Apply(s, acts[0]), acts[1..], slot);
    }
  }

  /** The holder of a fire whose job was never queued keeps its claim and gives up. */
  predicate GivesUp(s: State, a: Act, slot: Slot) {
    a.Keep? && a.slot == slot && !a.ran && Holds(s, a.owner, slot) && slot !in s.queued
  }

  predicate GivenUp(s: State, acts: seq<Act>, slot: Slot)
    decreases acts
  {
    acts != [] && (GivesUp(s, acts[0], slot) || GivenUp(Apply(s, acts[0]), acts[1..], slot))
  }

  /** A claimed fire is held, or its job was queued, or somebody gave it up. */
  predicate Accounted(s: State, slot: Slot) {
    slot in s.claims ==> slot in s.held || slot in s.queued
  }

  lemma {:induction false} LostOnlyIfGivenUp(s: State, acts: seq<Act>, slot: Slot)
    requires Inv(s) && Accounted(s, slot)
    ensures Abandoned(Play(s, acts), slot) <==> GivenUp(s, acts, slot)
    decreases acts
  {
    if acts != [] {
      var t := Apply(s, acts[0]);
      InvKept(s, acts[0]);
      if GivesUp(s, acts[0], slot) {
        AbandonedFireIsLost(t, acts[1..], slot);
      } else {
        LostOnlyIfGivenUp(t, acts[1..], slot);
      }
    }
  }

  /** Over every history, a fire is lost exactly when its holder gave it up. */
  lemma LostIff(acts: seq<Act>, slot: Slot)
    ensures Abandoned(Play(EMPTY, acts), slot) <==> GivenUp(EMPTY, acts, slot)
  {
    LostOnlyIfGivenUp(EMPTY, acts, slot);
  }

  /** It happens: a claim whose reply is lost, or whose dispatch meets a busy thread, then anything. */
  lemma KeptClaimLosesFire(owner: nat, slot: Slot, rest: seq<Act>)
    ensures Abandoned(Play(EMPTY, [Claim(owner, slot), Keep(owner, slot, false)] + rest), slot)
  {
    var acts := [Claim(owner, slot), Keep(owner, slot, false)] + rest;
    assert acts[1..] == [Keep(owner, slot, false)] + rest;
    assert GivenUp(Apply(EMPTY, acts[0]), acts[1..], slot);
    LostIff(acts, slot);
  }

  // ----- Fires that run twice -----

  /** No job was queued twice, and a queued fire can not be claimed again. */
  ghost predicate Once(s: State) {
    Distinct(s.queued) && forall slot :: slot in s.queued ==> slot in s.claims && slot !in s.held
  }

  /** A replica releases a fire whose job the queue took. */
  predicate FreesQueued(s: State, a: Act) {
    a.Release? && Holds(s, a.owner, a.slot) && a.ran
  }

  /** Only that step lets a fire run again. */
  lemma OnceKeptIff(s: State, a: Act)
    requires Inv(s) && Once(s)
    ensures Once(Apply(s, a)) <==> !FreesQueued(s, a)
  {
    if FreesQueued(s, a) {
      var t := Apply(s, a);
      assert t.queued[|s.queued|] == a.slot && a.slot in t.queued;
    }
  }

  predicate NeverFreesQueued(s: State, acts: seq<Act>)
    decreases acts
  {
    acts == [] || (!FreesQueued(s, acts[0]) && NeverFreesQueued(Apply(s, acts[0]), acts[1..]))
  }

  /** If no dispatch loses its reply before a release, each fire's job is queued at most once. */
  lemma {:induction false} QueuedAtMostOnce(s: State, acts: seq<Act>)
    requires Inv(s) && Once(s) && NeverFreesQueued(s, acts)
    ensures Once(Play(s, acts))
    decreases acts
  {
    if acts != [] {
      InvKept(s, acts[0]);
      OnceKeptIff(s, acts[0]);
      QueuedAtMostOnce(Apply(s, acts[0]), acts[1..]);
    }
  }

  /** A state is one from which no fire runs again, as long as no queued job is freed, exactly when it is in this order. */
  lemma OnceIff(s: State)
    requires Inv(s)
    ensures Once(s) <==> forall more :: NeverFreesQueued(s, more) ==> Distinct(Play(s, more).queued)
  {
    if Once(s) {
      forall more | NeverFreesQueued(s, more) ensures Distinct(Play(s, more).queued) {
        QueuedAtMostOnce(s, more);
      }
    } else if !Distinct(s.queued) {
      var none: seq<Act> := [];
      assert Play(s, none) == s;
      assert NeverFreesQueued(s, none) && !Distinct(Play(s, none).queued);
    } else {
      var slot :| slot in s.queued && (slot !in s.claims || slot in s.held);
      RunsAgain(s, slot);
    }
  }

  /** A queued fire that is held, or free to be claimed, can be queued once more. */
  lemma RunsAgain(s: State, slot: Slot)
    requires Inv(s) && slot in s.queued && (slot !in s.claims || slot in s.held)
    ensures exists more :: NeverFreesQueued(s, more) && !Distinct(Play(s, more).queued)
  {
    var owner := if slot in s.held then s.held[slot] else 0;
    var claim, dispatch := Claim(owner, slot), Dispatch(owner, slot);
    var held := Apply(s, claim);
    var end := Apply(held, dispatch);
    assert Holds(held, owner, slot) && end.queued == s.queued + [slot];
    var k :| 0 <= k < |s.queued| && s.queued[k] == slot;
    assert end.queued[k] == end.queued[|s.queued|];
    assert Play(end, []) == end && Play(held, [dispatch]) == end && [claim, dispatch][1..] == [dispatch];
    assert NeverFreesQueued(end, []) && NeverFreesQueued(held, [dispatch]) && NeverFreesQueued(s, [claim, dispatch]);
    assert Play(s, [claim, dispatch]) == end;
  }

  /** Otherwise it can be queued twice: the reply of the dispatch is lost, the claim released, the fire retried. */
  lemma LostDispatchReplyQueuesTwice(owner: nat, slot: Slot)
    ensures Play(EMPTY, [Claim(owner, slot), Release(owner, slot, true), Claim(owner, slot), Dispatch(owner, slot)]).queued == [slot, slot]
  {
    var acts := [Claim(owner, slot), Release(owner, slot, true), Claim(owner, slot), Dispatch(owner, slot)];
    var s1 := Apply(EMPTY, acts[0]);
    var s2 := Apply(s1, acts[1]);
    var s3 := Apply(s2, acts[2]);
    var s4 := Apply(s3, acts[3]);
    assert s2.claims == {} && s2.queued == [slot] && s4.queued == [slot, slot];
    assert acts[1..][1..] == acts[2..] && acts[2..][1..] == [acts[3]];
    assert Play(s4, []) == s4 && Play(s3, [acts[3]]) == s4 && Play(s2, acts[2..]) == s4;
  }

  // ----- One replica -----

  datatype Schedule = Schedule(key: Key, enabled: bool, spec: string)

  /** How a store call or a dispatch ends. */
  datatype Outcome = Ok | Conflict | Lost | Err

  /** The script's answer to the `i`-th call from here. */
  function Nth(outcomes: seq<Outcome>, i: nat): Outcome { if i < |outcomes| then outcomes[i] else Ok }

  datatype Compiled = Compiled(spec: string, next: int -> int)

  /**
   * One replica's scheduler.  `parse` turns an expression and timezone into
   * its `next`, `others` is what the other replicas do before each of its
   * calls, `outcomes` how its calls end, `waits` how its clock advances.
   * `mine` lists the fires it has dispatched.
   */
  class Scheduler {
    const me: nat
    const parse: string -> Option<int -> int>
    var s: State
    var compiled: map<Key, Compiled>
    var lastChecked: map<Key, int>
    var clock: int
    var mine: seq<Slot>
    var others: seq<seq<Act>>
    var outcomes: seq<Outcome>
    var waits: seq<nat>

    /** The scripts speak of other replicas only. */
    ghost predicate Foreign()
      reads this
    {
      forall script :: script in others ==> forall a :: a in script ==> a.owner != me
    }

    ghost predicate Valid()
      reads this
    {
      && Inv(s) && Foreign()
      && (forall spec :: parse(spec).Some? ==> LeastNext(parse(spec).value))
      && Local(compiled, lastChecked, clock, mine)
      && (forall key :: key in compiled ==> parse(compiled[key].spec) == Some(compiled[key].next))
      && (forall slot :: slot in mine ==> slot in s.dispatched)
    }

    /** Nobody else acts and nothing fails. */
    predicate Quiet()
      reads this
    {
      others == [] && outcomes == []
    }

    /** A replica joins with empty memory, whatever the others have claimed so far. */
    constructor (me: nat, parse: string -> Option<int -> int>, s: State, clock: int, others: seq<seq<Act>>, outcomes: seq<Outcome>, waits: seq<nat>)
      requires Inv(s) && forall spec :: parse(spec).Some? ==> LeastNext(parse(spec).value)
      requires forall script :: script in others ==> forall a :: a in script ==> a.owner != me
      ensures Valid() && this.me == me && this.s == s && this.clock == clock && mine == []
      ensures this.others == others && this.outcomes == outcomes && this.waits == waits
    {
      this.me := me;
      this.parse := parse;
      this.s := s;
      compiled := map[];
      lastChecked := map[];
      this.clock := clock;
      mine := [];
      this.others := others;
      this.outcomes := outcomes;
      this.waits := waits;
    }

    /** Between calls the others act; nothing local changes. */
    method Interfere()
      requires Valid()
      modifies this`s, this`others
      ensures Valid()
      ensures forall slot :: slot in old(s.dispatched) ==> slot in s.dispatched
      ensures old(Quiet()) ==> Quiet() && s == old(s)
      ensures old(others) == [] ==> s == old(s) && others == []
      ensures old(others) != [] ==> s == Play(old(s), old(others)[0]) && others == old(others)[1..]
      ensures forall slot :: slot in old(s.held) && old(s.held)[slot] == me ==> Holds(s, me, slot)
      ensures outcomes == old(outcomes)
    {
      if others != [] {
        var script := others[0];
        others := others[1..];
        assert script in old(others);
        assert forall x :: x in others ==> x in old(others);
        var i := 0;
        while i < |script|
          invariant 0 <= i <= |script|
          invariant Valid() && others == old(others)[1..] && Play(s, script[i..]) == Play(old(s), script)
          invariant forall slot :: slot in old(s.dispatched) ==> slot in s.dispatched
          invariant forall slot :: slot in old(s.held) && old(s.held)[slot] == me ==> Holds(s, me, slot)
        {
          assert script[i] in script && script[i..][1..] == script[i + 1..];
          InvKept(s, script[i]);
          s := Apply(s, script[i]);
          i := i + 1;
        }
      }
    }

    method Now() returns (now: int)
      requires Valid()
      modifies this`clock, this`waits
      ensures Valid() && now == clock
      ensures clock == old(clock) + (if old(waits) == [] then 0 else old(waits)[0]) && waits == old(waits)[if old(waits) == [] then 0 else 1..]
    {
      assert forall slot :: slot in mine ==> Behind(lastChecked, clock, slot);
      if waits != [] {
        clock, waits := clock + waits[0], waits[1..];
      }
      now := clock;
    }

    method NextOutcome() returns (outcome: Outcome)
      requires Valid()
      modifies this`outcomes
      ensures Valid()
      ensures outcome == Nth(old(outcomes), 0) && outcomes == old(outcomes)[if old(outcomes) == [] then 0 else 1..]
      ensures old(Quiet()) ==> Quiet() && outcome == Ok
    {
      outcome := Ok;
      if outcomes != [] {
        outcome, outcomes := outcomes[0], outcomes[1..];
      }
    }

    /** The latest claimed fire of a schedule, as the store would answer. */
    method LastFireTime(key: Key) returns (found: bool, last: int)
      ensures found ==> Slot(key, last) in s.claims
      ensures forall slot :: slot in s.claims && slot.key == key ==> found && slot.fire <= last
    {
      found, last := false, 0;
      var rest := s.claims;
      while rest != {}
        invariant rest <= s.claims
        invariant found ==> Slot(key, last) in s.claims
        invariant forall slot :: slot in s.claims - rest && slot.key == key ==> found && slot.fire <= last
        decreases rest
      {
        var slot :| slot in rest;
        if slot.key == key && (!found || slot.fire > last) {
          found, last := true, slot.fire;
        }
        rest := rest - {slot};
      }
    }

    /** Start from the last claimed fire, or from now when there is none or it cannot be read. */
    method InitialAnchor(key: Key, now: int) returns (anchor: int)
      requires Valid() && now == clock
      modifies this`s, this`others, this`outcomes
      ensures Valid()
      ensures forall slot :: slot in mine && slot.key == key ==> slot.fire <= anchor
      ensures !Nth(old(outcomes), 0).Ok? ==> anchor == now
      ensures old(Quiet()) ==> Quiet() && s == old(s) && Anchors(s.claims, key, now, anchor)
    {
      Interfere();
      var outcome := NextOutcome();
      assert forall slot :: slot in mine ==> Behind(lastChecked, clock, slot);
      if !outcome.Ok? {
        return now;
      }
      var found, last := LastFireTime(key);
      anchor := if found then last else now;
    }

    /** Try to claim; with a lost reply the claim stays behind, held by nobody. */
    method TryClaim(slot: Slot) returns (outcome: Outcome, won: bool)
      requires Valid()
      modifies this`s, this`others, this`outcomes
      ensures Valid()
      ensures outcome == Nth(old(outcomes), 0) && outcomes == old(outcomes)[if old(outcomes) == [] then 0 else 1..]
      ensures outcome.Ok? && won ==> Holds(s, me, slot)
      ensures outcome.Ok? || outcome.Lost? ==> slot in s.claims
      // with the others at rest a failed call changes nothing and a lost reply leaves the claim to nobody
      ensures old(others) == [] && (outcome.Conflict? || outcome.Err?) ==> s == old(s)
      ensures old(others) == [] && outcome.Lost? && slot !in old(s).claims ==>
                s == old(s).(claims := old(s).claims + {slot}, held := old(s).held - {slot})
      ensures old(Quiet()) ==> Quiet() && outcome.Ok? && won == (slot !in old(s).claims) && s == Apply(old(s), Claim(me, slot))
    {
      Interfere();
      outcome := NextOutcome();
      won := slot !in s.claims;
      if outcome.Ok? || outcome.Lost? {
        InvKept(s, Claim(me, slot));
        s := Apply(s, Claim(me, slot));
        if outcome.Lost? && won {
          InvKept(s, Keep(me, slot, false));
          s := Apply(s, Keep(me, slot, false));
        }
      }
    }

    /** Create and enqueue the run, then give the claim its fate. */
    method DispatchHeld(slot: Slot) returns (outcome: Outcome)
      requires Valid() && Holds(s, me, slot)
      modifies this`s, this`others, this`outcomes
      ensures Valid()
      ensures outcome == Nth(old(outcomes), 0)
      // a success is recorded, a conflict keeps the claim, and another failure releases it unless that fails too
      ensures slot !in s.held && (outcome.Ok? <==> slot in s.dispatched)
      ensures slot in s.claims <==> outcome.Ok? || outcome.Conflict? || Nth(old(outcomes), 1).Err?
      // a lost reply leaves the job in the queue
      ensures outcome.Ok? || outcome.Lost? ==> slot in s.queued
      ensures old(Quiet()) ==> Quiet() && outcome.Ok? && s == Apply(old(s), Dispatch(me, slot))
    {
      Interfere();
      outcome := NextOutcome();
      var step := Keep(me, slot, outcome.Lost?);
      match outcome {
        case Ok => step := Dispatch(me, slot);
        case Conflict =>
        case _ =>
          var released := NextOutcome();
          if !released.Err? {
            step := Release(me, slot, outcome.Lost?);
          }
      }
      InvKept(s, step);
      s := Apply(s, step);
    }

    /** Compile a new or changed schedule; its first due-check is the next tick. */
    method Compile(sched: Schedule)
      requires Valid()
      modifies this`s, this`others, this`outcomes, this`waits, this`clock, this`compiled, this`lastChecked
      ensures Valid() && clock >= old(clock)
      ensures parse(sched.spec).None? ==> compiled == old(compiled) && lastChecked == old(lastChecked)
      ensures parse(sched.spec).Some? ==> compiled == old(compiled)[sched.key := Compiled(sched.spec, parse(sched.spec).value)]
      ensures parse(sched.spec).Some? ==>
                sched.key in lastChecked && lastChecked == old(lastChecked)[sched.key := lastChecked[sched.key]]
      ensures old(Quiet()) ==> Quiet() && s == old(s)
      ensures old(Quiet()) && parse(sched.spec).Some? ==> Anchors(s.claims, sched.key, clock, lastChecked[sched.key])
    {
      var parsed := parse(sched.spec);
      if parsed.Some? {
        var now := Now();
        var anchor := InitialAnchor(sched.key, now);
        Moved(compiled, lastChecked, clock, mine, Compiled(sched.spec, parsed.value), sched.key, anchor);
        compiled := compiled[sched.key := Compiled(sched.spec, parsed.value)];
        lastChecked := lastChecked[sched.key := anchor];
      }
    }

    /** Nothing is left to do for this schedule up to now. */
    method Look(key: Key)
      requires Valid() && key in compiled
      modifies this`lastChecked
      ensures Valid() && lastChecked == old(lastChecked)[key := clock]
    {
      assert forall slot :: slot in mine ==> Behind(lastChecked, clock, slot);
      Moved(compiled, lastChecked, clock, mine, compiled[key], key, clock);
      assert compiled[key := compiled[key]] == compiled;
      lastChecked := lastChecked[key := clock];
    }

    /** Claim a due fire and dispatch it; after a conflict or another's claim it counts as looked at. */
    method Fire(slot: Slot) returns (fired: bool, ghost won: bool)
      requires Valid() && slot.key in compiled && lastChecked[slot.key] < slot.fire <= clock
      modifies this`s, this`others, this`outcomes, this`lastChecked, this`mine
      ensures Valid()
      ensures mine == old(mine) + (if fired then [slot] else [])
      // it is looked at again after a failed claim or dispatch, and not after a success, a conflict or another's claim
      ensures won ==> Nth(old(outcomes), 0).Ok?
      ensures fired <==> won && Nth(old(outcomes), 1).Ok?
      ensures lastChecked == if Nth(old(outcomes), 0).Ok? && (won ==> Nth(old(outcomes), 1).Ok? || Nth(old(outcomes), 1).Conflict?)
                             then old(lastChecked)[slot.key := clock] else old(lastChecked)
      ensures old(Quiet()) ==> s == if fired then Apply(Apply(old(s), Claim(me, slot)), Dispatch(me, slot)) else old(s)
      // undisturbed, exactly an unclaimed fire is dispatched, and either way it has been looked at
      ensures old(Quiet()) ==> Quiet() && (fired <==> slot !in old(s).claims) && lastChecked == old(lastChecked)[slot.key := clock]
    {
      hide Inv, LeastNext;
      fired, won := false, false;
      var claimed, free := TryClaim(slot);
      if !claimed.Ok? {
        return;
      }
      won := free;
      if !free {
        Look(slot.key);
        return;
      }
      var outcome := DispatchHeld(slot);
      if outcome.Ok? {
        Advanced(compiled, lastChecked, clock, mine, slot);
        mine := mine + [slot];
        lastChecked := lastChecked[slot.key := clock];
        fired := true;
      } else if outcome.Conflict? {
        Look(slot.key);
      }
    }

    lemma Looks(key: Key)
      ensures Valid() && key in compiled ==> key in lastChecked && LeastNext(compiled[key].next)
    {}

    /** Check a compiled schedule and fire it if due. */
    method CheckAndFire(key: Key) returns (fired: Option<int>)
      requires Valid() && key in compiled
      modifies this`s, this`others, this`outcomes, this`waits, this`clock, this`lastChecked, this`mine
      ensures Valid() && clock >= old(clock)
      ensures mine == old(mine) + (if fired.Some? then [Slot(key, fired.value)] else [])
      ensures fired.Some? ==> LatestFire(compiled[key].next, old(lastChecked)[key], clock, fired.value)
      ensures old(Quiet()) && fired.Some? ==> Slot(key, fired.value) !in old(s).claims
      // undisturbed, the latest fire since the last look is dispatched unless it was claimed
      ensures lastChecked == old(lastChecked)[key := lastChecked[key]]
      ensures old(Quiet()) ==> Quiet() && lastChecked == old(lastChecked)[key := clock]
      ensures old(Quiet()) ==> s == if fired.Some? then Apply(Apply(old(s), Claim(me, Slot(key, fired.value))), Dispatch(me, Slot(key, fired.value))) else old(s)
      ensures old(Quiet()) ==> forall t :: LatestFire(compiled[key].next, old(lastChecked)[key], clock, t) ==>
                fired == if Slot(key, t) in old(s).claims then None else Some(t)
    {
      hide Inv, Apply, Local, Distinct;
      Looks(key);
      fired := None;
      var now := Now();
      var due, fireTime := CheckSchedule(compiled[key].next, lastChecked[key], now);
      if !due {
        Look(key);
        return;
      }
      var done; ghost var won;
      done, won := Fire(Slot(key, fireTime));
      if done {
        fired := Some(fireTime);
      }
      forall t | LatestFire(compiled[key].next, old(lastChecked)[key], clock, t)
        ensures t == fireTime
      {
        LatestIsUnique(compiled[key].next, old(lastChecked)[key], clock, t, fireTime);
      }
    }

    /** The replica's books beside the claims. */
    ghost function Kept(): Books
      reads this
    {
      Books(s.claims, compiled, lastChecked, clock, mine)
    }

    /** The body of a tick for one schedule. */
    method Consider(sched: Schedule) returns (ghost fired: Option<int>)
      requires Valid()
      modifies this`s, this`others, this`outcomes, this`waits, this`clock, this`compiled, this`lastChecked, this`mine
      ensures Valid() && clock >= old(clock)
      // a disabled schedule is passed over
      ensures !sched.enabled ==> s == old(s) && Kept() == old(Kept()) && others == old(others) && outcomes == old(outcomes) && waits == old(waits)
      // only a due fire of an enabled schedule is dispatched, and no other schedule is touched
      ensures mine == old(mine) + (if fired.Some? then [Slot(sched.key, fired.value)] else [])
      ensures fired.Some? ==> && sched.enabled && Current(old(compiled), sched) && parse(sched.spec).Some? && sched.key in old(lastChecked)
                              && LatestFire(parse(sched.spec).value, old(lastChecked)[sched.key], clock, fired.value)
      ensures compiled - {sched.key} == old(compiled) - {sched.key} && lastChecked - {sched.key} == old(lastChecked) - {sched.key}
      // a new or changed one is compiled and looked at from the next tick on
      ensures sched.enabled && !Current(old(compiled), sched) && parse(sched.spec).Some? ==> Current(compiled, sched)
      ensures Current(old(compiled), sched) ==> compiled == old(compiled)
      ensures old(Quiet()) ==> Quiet() && Served(parse, old(Kept()), Kept(), sched)
      ensures old(Quiet()) ==> forall key :: key != sched.key ==> Untouched(old(Kept()), Kept(), key)
    {
      hide Inv, LeastNext, Anchors, Served, Untouched, LatestFire, Local, Apply;
      ghost var b := Kept();
      fired := None;
      Looks(sched.key);
      UntouchedSelf(b);
      if sched.enabled {
        if sched.key !in compiled || compiled[sched.key].spec != sched.spec {
          Compile(sched);
          if old(Quiet()) { CompiledIsServed(parse, b, Kept(), sched); }
        } else {
          fired := CheckAndFire(sched.key);
          if old(Quiet()) {
            FireClaims(old(s), me, Slot(sched.key, if fired.Some? then fired.value else 0));
            CheckedIsServed(parse, b, Kept(), sched, fired);
          }
        }
      } else {
        PassedIsServed(parse, b, sched);
      }
    }

    /** One tick over the schedules that the store lists. */
    method Tick(schedules: seq<Schedule>)
      requires Valid()
      modifies this`s, this`others, this`outcomes, this`waits, this`clock, this`compiled, this`lastChecked, this`mine
      ensures Valid() && clock >= old(clock) && old(mine) <= mine
      ensures forall i :: |old(mine)| <= i < |mine| ==> Due(parse, mine[i], schedules)
      ensures old(Quiet()) ==> Quiet()
      ensures old(Quiet()) ==> forall k :: 0 <= k < |schedules| && Alone(schedules, k) ==> Served(parse, old(Kept()), Kept(), schedules[k])
    {
      hide Inv, LeastNext, Served, Untouched, LatestFire;
      ghost var b := Kept();
      UntouchedSelf(b);
      for j := 0 to |schedules|
        invariant Valid() && clock >= old(clock) && old(mine) <= mine
        invariant forall i :: |old(mine)| <= i < |mine| ==> Due(parse, mine[i], schedules)
        invariant old(Quiet()) ==> Quiet() && forall key :: (forall k :: 0 <= k < j ==> schedules[k].key != key) ==> Untouched(b, Kept(), key)
        invariant old(Quiet()) ==> forall k :: 0 <= k < j && Alone(schedules, k) ==> Served(parse, b, Kept(), schedules[k])
      {
        ghost var m, fired := Kept(), None;
        fired := Consider(schedules[j]);
        if fired.Some? { DueHere(parse, schedules, j, m.lastChecked[schedules[j].key], clock, fired.value); }
        if old(Quiet()) { TickStep(parse, b, m, Kept(), schedules, j); }
      }
    }

    /** Any number of ticks, each over the schedules the store lists then. */
    method Run(ticks: seq<seq<Schedule>>, ghost sched: Schedule)
      requires Valid()
      modifies this`s, this`others, this`outcomes, this`waits, this`clock, this`compiled, this`lastChecked, this`mine
      // whatever the others do, only due fires of schedules that were listed as enabled are dispatched, in rising order
      ensures Valid() && old(mine) <= mine
      ensures AllDue(parse, mine, |old(mine)|, ticks)
      // undisturbed, a compiled schedule that every tick lists, last looked at no later than now, has had its latest fire claimed whenever it is looked at
      ensures old(Quiet()) && Current(old(compiled), sched) && old(lastChecked)[sched.key] <= old(clock) && (forall tick <- ticks :: Lists(tick, sched)) ==>
                && sched.key in compiled && sched.key in lastChecked && compiled[sched.key] == old(compiled)[sched.key] && (ticks != [] ==> lastChecked[sched.key] >= old(clock))
                && CaughtUp(s.claims, sched.key, compiled[sched.key].next, old(lastChecked)[sched.key], lastChecked[sched.key])
    {
      hide Inv, LeastNext, Served, CaughtUp, Due;
      ghost var steady := Quiet() && Current(compiled, sched) && lastChecked[sched.key] <= clock && forall tick <- ticks :: Lists(tick, sched);
      if steady { CaughtUpAtFirst(s.claims, sched.key, compiled[sched.key].next, lastChecked[sched.key]); }
      for i := 0 to |ticks|
        invariant Valid() && old(mine) <= mine && clock >= old(clock)
        invariant AllDue(parse, mine, |old(mine)|, ticks)
        invariant steady ==>
                    && Quiet() && sched.key in compiled && compiled[sched.key] == old(compiled)[sched.key] && sched.key in lastChecked
                    && lastChecked[sched.key] <= clock
                    && (if i == 0 then lastChecked[sched.key] == old(lastChecked)[sched.key] else lastChecked[sched.key] >= old(clock))
                    && CaughtUp(s.claims, sched.key, compiled[sched.key].next, old(lastChecked)[sched.key], lastChecked[sched.key])
      {
        ghost var m := Kept();
        assert ticks[i] in ticks;
        Tick(ticks[i]);
        AllDueSo(parse, m.mine, mine, |old(mine)|, ticks, ticks[i]);
        if steady { StaysCaughtUp(parse, m, Kept(), ticks[i], sched, old(lastChecked)[sched.key]); }
      }
    }
  }

  // ----- What a tick does for each schedule -----

  /** A replica's books beside the claims. */
  datatype Books = Books(claims: set<Slot>, compiled: map<Key, Compiled>, lastChecked: map<Key, int>, clock: int, mine: seq<Slot>)

  /** The schedule is compiled as the store lists it now. */
  predicate Current(compiled: map<Key, Compiled>, sched: Schedule) {
    sched.key in compiled && compiled[sched.key].spec == sched.spec
  }

  /** Nothing has changed for this schedule. */
  ghost predicate Untouched(b: Books, a: Books, key: Key) {
    && b.clock <= a.clock && b.mine <= a.mine
    && (key in a.compiled <==> key in b.compiled) && (key in a.lastChecked <==> key in b.lastChecked)
    && (key in a.compiled ==> a.compiled[key] == b.compiled[key])
    && (key in a.lastChecked ==> a.lastChecked[key] == b.lastChecked[key])
    && (forall fire :: Slot(key, fire) in a.claims <==> Slot(key, fire) in b.claims)
    && (forall i :: |b.mine| <= i < |a.mine| ==> a.mine[i].key != key)
  }

  /** A schedule has been served: nothing is done for a disabled one or one that does
      not parse, a new or changed one is compiled from its last claimed fire on, and
      of a compiled one the latest fire since the last look is dispatched unless it
      was claimed already. */
  ghost predicate Served(parse: string -> Option<int -> int>, b: Books, a: Books, sched: Schedule) {
    && b.clock <= a.clock && b.mine <= a.mine
    && (forall fire :: Slot(sched.key, fire) in b.claims ==> Slot(sched.key, fire) in a.claims)
    && if !sched.enabled || (!Current(b.compiled, sched) && parse(sched.spec).None?) then Untouched(b, a, sched.key)
       else
         && sched.key in a.lastChecked && parse(sched.spec).Some? && sched.key in a.compiled
         && if !Current(b.compiled, sched) then
              && a.compiled[sched.key] == Compiled(sched.spec, parse(sched.spec).value)
              && exists now :: b.clock <= now <= a.clock && Anchors(b.claims, sched.key, now, a.lastChecked[sched.key])
            else
              && a.compiled[sched.key] == b.compiled[sched.key] && sched.key in b.lastChecked
              && b.clock <= a.lastChecked[sched.key] <= a.clock
              && forall t :: LatestFire(b.compiled[sched.key].next, b.lastChecked[sched.key], a.lastChecked[sched.key], t) ==>
                   && Slot(sched.key, t) in a.claims
                   && (Slot(sched.key, t) in a.mine[|b.mine|..] <==> Slot(sched.key, t) !in b.claims)
  }

  lemma PassedIsServed(parse: string -> Option<int -> int>, b: Books, sched: Schedule)
    requires !sched.enabled
    ensures Served(parse, b, b, sched)
  {}

  lemma CompiledIsServed(parse: string -> Option<int -> int>, b: Books, a: Books, sched: Schedule)
    requires sched.enabled && !Current(b.compiled, sched) && b.clock <= a.clock && a.mine == b.mine && a.claims == b.claims
    requires parse(sched.spec).None? ==> a.compiled == b.compiled && a.lastChecked == b.lastChecked
    requires parse(sched.spec).Some? ==>
               && a.compiled == b.compiled[sched.key := Compiled(sched.spec, parse(sched.spec).value)]
               && sched.key in a.lastChecked && a.lastChecked == b.lastChecked[sched.key := a.lastChecked[sched.key]]
               && Anchors(b.claims, sched.key, a.clock, a.lastChecked[sched.key])
    ensures Served(parse, b, a, sched)
    ensures forall key :: key != sched.key ==> Untouched(b, a, key)
  {
    hide Anchors;
  }

  /** What claiming and dispatching a free fire does to the claims. */
  lemma FireClaims(s: State, me: nat, slot: Slot)
    ensures slot !in s.claims ==> Apply(Apply(s, Claim(me, slot)), Dispatch(me, slot)).claims == s.claims + {slot}
  {}

  lemma CheckedIsServed(parse: string -> Option<int -> int>, b: Books, a: Books, sched: Schedule, fired: Option<int>)
    requires sched.enabled && Current(b.compiled, sched) && sched.key in b.lastChecked && parse(sched.spec).Some?
    requires b.clock <= a.clock && a.compiled == b.compiled && a.lastChecked == b.lastChecked[sched.key := a.clock]
    requires a.mine == b.mine + (if fired.Some? then [Slot(sched.key, fired.value)] else [])
    requires a.claims == if fired.Some? then b.claims + {Slot(sched.key, fired.value)} else b.claims
    requires forall t :: LatestFire(b.compiled[sched.key].next, b.lastChecked[sched.key], a.clock, t) ==>
               fired == if Slot(sched.key, t) in b.claims then None else Some(t)
    ensures Served(parse, b, a, sched)
    ensures forall key :: key != sched.key ==> Untouched(b, a, key)
  {
    hide LatestFire;
    assert a.mine[|b.mine|..] == if fired.Some? then [Slot(sched.key, fired.value)] else [];
  }

  lemma UntouchedSelf(b: Books)
    ensures forall key :: Untouched(b, b, key)
  {}

  lemma UntouchedThenUntouched(b: Books, m: Books, a: Books, key: Key)
    requires Untouched(b, m, key) && Untouched(m, a, key)
    ensures Untouched(b, a, key)
  {
    forall i | |b.mine| <= i < |a.mine| ensures a.mine[i].key != key {
      if i < |m.mine| { assert a.mine[i] == m.mine[i]; }
    }
  }

  lemma NoneGained(b: Books, a: Books, key: Key, t: int)
    requires Untouched(b, a, key)
    ensures Slot(key, t) !in a.mine[|b.mine|..]
  {}

  lemma UntouchedThenServed(parse: string -> Option<int -> int>, b: Books, m: Books, a: Books, sched: Schedule)
    requires Untouched(b, m, sched.key) && Served(parse, m, a, sched)
    ensures Served(parse, b, a, sched)
  {
    hide LatestFire, Anchors;
    var key := sched.key;
    if Untouched(m, a, key) { UntouchedThenUntouched(b, m, a, key); }
    assert a.mine[|b.mine|..] == m.mine[|b.mine|..] + a.mine[|m.mine|..];
    forall t ensures Slot(key, t) in a.mine[|b.mine|..] <==> Slot(key, t) in a.mine[|m.mine|..] {
      NoneGained(b, m, key, t);
    }
    if sched.enabled && !Current(b.compiled, sched) && parse(sched.spec).Some? { AnchorsSame(b.claims, m.claims, key); }
  }

  lemma AnchorsSame(b: set<Slot>, m: set<Slot>, key: Key)
    requires forall fire :: Slot(key, fire) in m <==> Slot(key, fire) in b
    ensures forall now, anchor :: Anchors(m, key, now, anchor) <==> Anchors(b, key, now, anchor)
  {
    forall slot: Slot | slot.key == key ensures slot in m <==> slot in b {
      assert slot == Slot(key, slot.fire);
    }
  }

  lemma ServedThenUntouched(parse: string -> Option<int -> int>, b: Books, m: Books, a: Books, sched: Schedule)
    requires Served(parse, b, m, sched) && Untouched(m, a, sched.key)
    ensures Served(parse, b, a, sched)
  {
    hide LatestFire, Anchors;
    var key := sched.key;
    if Untouched(b, m, key) { UntouchedThenUntouched(b, m, a, key); }
    assert a.mine[|b.mine|..] == m.mine[|b.mine|..] + a.mine[|m.mine|..];
    forall t ensures Slot(key, t) in a.mine[|b.mine|..] <==> Slot(key, t) in m.mine[|b.mine|..] {
      NoneGained(m, a, key, t);
    }
  }

  /** No other listed schedule has this one's name. */
  predicate Alone(schedules: seq<Schedule>, k: nat)
    requires k < |schedules|
  {
    forall i :: 0 <= i < |schedules| && i != k ==> schedules[i].key != schedules[k].key
  }

  lemma TickStep(parse: string -> Option<int -> int>, b: Books, m: Books, a: Books, schedules: seq<Schedule>, j: nat)
    requires j < |schedules| && Served(parse, m, a, schedules[j]) && (forall key :: key != schedules[j].key ==> Untouched(m, a, key))
    requires forall key :: (forall k :: 0 <= k < j ==> schedules[k].key != key) ==> Untouched(b, m, key)
    requires forall k :: 0 <= k < j && Alone(schedules, k) ==> Served(parse, b, m, schedules[k])
    ensures forall key :: (forall k :: 0 <= k < j + 1 ==> schedules[k].key != key) ==> Untouched(b, a, key)
    ensures forall k :: 0 <= k < j + 1 && Alone(schedules, k) ==> Served(parse, b, a, schedules[k])
  {
    hide Served, Untouched;
    forall key | forall k :: 0 <= k < j + 1 ==> schedules[k].key != key ensures Untouched(b, a, key) {
      assert schedules[j].key != key;
      UntouchedThenUntouched(b, m, a, key);
    }
    forall k | 0 <= k < j + 1 && Alone(schedules, k) ensures Served(parse, b, a, schedules[k]) {
      if k == j {
        UntouchedThenServed(parse, b, m, a, schedules[j]);
      } else {
        ServedThenUntouched(parse, b, m, a, schedules[k]);
      }
    }
  }

  /** A fire of an enabled schedule of the list. */
  ghost predicate Due(parse: string -> Option<int -> int>, slot: Slot, schedules: seq<Schedule>) {
    exists sched :: sched in schedules && sched.enabled && sched.key == slot.key && parse(sched.spec).Some? && Fires(parse(sched.spec).value, slot.fire)
  }

  /** Every fire from the `n`-th on is one of an enabled schedule that some tick listed. */
  ghost predicate AllDue(parse: string -> Option<int -> int>, mine: seq<Slot>, n: nat, ticks: seq<seq<Schedule>>) {
    forall i :: n <= i < |mine| ==> exists tick :: tick in ticks && Due(parse, mine[i], tick)
  }

  lemma AllDueSo(parse: string -> Option<int -> int>, before: seq<Slot>, after: seq<Slot>, n: nat, ticks: seq<seq<Schedule>>, tick: seq<Schedule>)
    requires AllDue(parse, before, n, ticks) && before <= after && tick in ticks
    requires forall i :: |before| <= i < |after| ==> Due(parse, after[i], tick)
    ensures AllDue(parse, after, n, ticks)
  {
    forall i | n <= i < |after| ensures exists listed :: listed in ticks && Due(parse, after[i], listed) {
      if i < |before| { assert after[i] == before[i]; }
    }
  }

  lemma DueHere(parse: string -> Option<int -> int>, schedules: seq<Schedule>, j: nat, last: int, now: int, fire: int)
    requires j < |schedules| && schedules[j].enabled && parse(schedules[j].spec).Some? && LatestFire(parse(schedules[j].spec).value, last, now, fire)
    ensures Due(parse, Slot(schedules[j].key, fire), schedules)
  {
    assert schedules[j] in schedules;
  }

  /** The list has this schedule, enabled, and no other of its name. */
  ghost predicate Lists(schedules: seq<Schedule>, sched: Schedule) {
    sched.enabled && exists k :: 0 <= k < |schedules| && schedules[k] == sched && Alone(schedules, k)
  }

  /** The latest fire in (first, last] has been claimed. */
  ghost predicate CaughtUp(claims: set<Slot>, key: Key, next: int -> int, first: int, last: int) {
    forall t :: LatestFire(next, first, last, t) ==> Slot(key, t) in claims
  }

  lemma CaughtUpAtFirst(claims: set<Slot>, key: Key, next: int -> int, first: int)
    ensures CaughtUp(claims, key, next, first, first)
  {}

  lemma StaysCaughtUp(parse: string -> Option<int -> int>, m: Books, a: Books, schedules: seq<Schedule>, sched: Schedule, first: int)
    requires Lists(schedules, sched) && Current(m.compiled, sched) && sched.key in m.lastChecked && m.lastChecked[sched.key] <= m.clock
    requires forall k :: 0 <= k < |schedules| && Alone(schedules, k) ==> Served(parse, m, a, schedules[k])
    requires CaughtUp(m.claims, sched.key, m.compiled[sched.key].next, first, m.lastChecked[sched.key])
    ensures sched.key in a.compiled && a.compiled[sched.key] == m.compiled[sched.key]
    ensures sched.key in a.lastChecked && m.clock <= a.lastChecked[sched.key] <= a.clock
    ensures CaughtUp(a.claims, sched.key, a.compiled[sched.key].next, first, a.lastChecked[sched.key])
  {
    var k :| 0 <= k < |schedules| && schedules[k] == sched && Alone(schedules, k);
    assert Served(parse, m, a, sched);
    var key, next := sched.key, a.compiled[sched.key].next;
    forall t | LatestFire(next, first, a.lastChecked[key], t) ensures Slot(key, t) in a.claims {
      if t > m.lastChecked[key] {
        assert LatestFire(next, m.lastChecked[key], a.lastChecked[key], t);
      } else {
        LatestEarlier(next, first, m.lastChecked[key], a.lastChecked[key], t);
      }
    }
  }

  /** A fire that is the latest later on is the latest up to any earlier moment that it does not follow. */
  lemma LatestEarlier(next: int -> int, first: int, last: int, now: int, t: int)
    requires LatestFire(next, first, now, t) && t <= last
    ensures last <= now ==> LatestFire(next, first, last, t)
  {}

  /** The latest claimed fire of the schedule, or `now` when none was claimed. */
  ghost predicate Anchors(claims: set<Slot>, key: Key, now: int, anchor: int) {
    && (forall slot :: slot in claims && slot.key == key ==> slot.fire <= anchor && Slot(key, anchor) in claims)
    && ((forall slot :: slot in claims ==> slot.key != key) ==> anchor == now)
  }

  lemma LatestIsUnique(next: int -> int, last: int, now: int, t: int, u: int)
    requires LatestFire(next, last, now, t) && LatestFire(next, last, now, u)
    ensures t == u
  {
  }

  /** A replica's own books: what it dispatched for a schedule lies behind where it looks next. */
  ghost predicate Local(compiled: map<Key, Compiled>, lastChecked: map<Key, int>, clock: int, mine: seq<Slot>) {
    && compiled.Keys == lastChecked.Keys
    && (forall key :: key in compiled ==> LeastNext(compiled[key].next))
    && (forall slot :: slot in mine ==> Behind(lastChecked, clock, slot))
    && Rising(mine)
  }

  predicate Behind(lastChecked: map<Key, int>, clock: int, slot: Slot) {
    slot.fire <= clock && (slot.key in lastChecked ==> slot.fire <= lastChecked[slot.key])
  }

  /** Looking next from `at` keeps the books when everything dispatched for that schedule lies behind it. */
  lemma Moved(compiled: map<Key, Compiled>, lastChecked: map<Key, int>, clock: int, mine: seq<Slot>, c: Compiled, key: Key, at: int)
    requires Local(compiled, lastChecked, clock, mine) && LeastNext(c.next)
    requires forall slot :: slot in mine && slot.key == key ==> slot.fire <= at
    ensures Local(compiled[key := c], lastChecked[key := at], clock, mine)
  {
  }

  /** A fire beyond where the replica last looked comes after all it dispatched before. */
  lemma Advanced(compiled: map<Key, Compiled>, lastChecked: map<Key, int>, clock: int, mine: seq<Slot>, slot: Slot)
    requires Local(compiled, lastChecked, clock, mine)
    requires slot.key in lastChecked && lastChecked[slot.key] < slot.fire <= clock
    ensures Local(compiled, lastChecked[slot.key := clock], clock, mine + [slot])
  {
    forall x | x in mine
      ensures Behind(lastChecked[slot.key := clock], clock, x) && (x.key == slot.key ==> x.fire < slot.fire)
    {
      assert Behind(lastChecked, clock, x);
    }
  }

  /** Fires of one schedule appear in strictly increasing order. */
  ghost predicate Rising(slots: seq<Slot>) {
    forall i, j :: 0 <= i < j < |slots| && slots[i].key == slots[j].key ==> slots[i].fire < slots[j].fire
  }
}
