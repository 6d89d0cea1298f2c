/** Exactly when the sweep of detached claims refuses a claim that somebody else is
    detaching, and that a sweep nobody overlaps never does. */
module LockRefusals {
  import opened Wrappers
  import opened LockDirectory
  import opened CheckoutLock
  import opened LockInvariant
  import opened LockSteps
  import opened LockPreserved
  import opened LockTheorems

  // ----- what lasts over the calls of others -----

  /** Nothing here is a call of thread `t`. */
  predicate Others(events: seq<Event>, t: Tid) {
    forall i :: 0 <= i < |events| ==> !(events[i].Act? && events[i].tid == t)
  }

  ghost predicate Slotless(w: World, c: ClaimId) { c in w.filled && NoSlot(w.dir, c) }

  lemma FilledStays(s: State, ev: Event)
    requires Inv(s)
    ensures s.world.filled <= Next(s, ev).world.filled
  {
  }

  /** A claim that lost its owner directory never gets one again. */
  lemma SlotlessStep(s: State, ev: Event, c: ClaimId)
    requires Inv(s) && Slotless(s.world, c)
    ensures Slotless(Next(s, ev).world, c)
  {
    if Enabled(s, ev) && ev.Act? {
      ActKeeps(s.world, ev.tid, s.pcs[ev.tid], ev.choice);
    }
  }

  lemma {:induction false} SlotlessRun(s: State, events: seq<Event>, c: ClaimId)
    requires Inv(s) && Slotless(s.world, c)
    ensures Inv(Run(s, events)) && Slotless(Run(s, events).world, c)
    decreases |events|
  {
    if events != [] {
      var front := events[..|events| - 1];
      SlotlessRun(s, front, c);
      NextKeeps(Run(s, front), events[|events| - 1]);
      SlotlessStep(Run(s, front), events[|events| - 1], c);
    }
  }

  lemma {:induction false} OthersLeave(s: State, events: seq<Event>, t: Tid)
    requires Inv(s) && t in s.pcs && Others(events, t)
    ensures Inv(Run(s, events)) && t in Run(s, events).pcs && Run(s, events).pcs[t] == s.pcs[t]
    ensures s.world.filled <= Run(s, events).world.filled
    decreases |events|
  {
    if events != [] {
      var front := events[..|events| - 1];
      OthersLeave(s, front, t);
      NextKeeps(Run(s, front), events[|events| - 1]);
      FilledStays(Run(s, front), events[|events| - 1]);
    }
  }

  // ----- the sweep -----

  /** The claim was not detached yet when the sweep looked for its tombstone. */
  ghost predicate Undetached(w: World, c: ClaimId) { w.dir.canonical == Link(c.owner) }

  /** A visit faults when the owner directory is gone, or at the third check of a
      claim that is not detached yet; a fault fails only if the owner directory is
      there at its third check. */
  lemma VisitCall(w: World, t: Tid, pc: Pc, ch: Choice)
    requires DirOk(w) && Live(w, t) && Role(w, t, pc) && pc.SweepVisit?
    ensures var pc' := SweepStep(w.dir, w.crashed, pc, ch).pc;
      && !pc'.Failed?
      && (pc'.SweepFault? ==>
            && pc' == SweepFault(pc.cursor, pc.claim, 0) && pc.claim in w.filled
            && (NoSlot(w.dir, pc.claim) || (pc.k == 3 && Undetached(w, pc.claim))))
      && (pc.k == 3 && Undetached(w, pc.claim) ==> pc'.SweepFault?)
      && (pc.k == 3 && !pc'.SweepFault? ==> pc' == SweepVisit(pc.cursor, pc.claim, 4, pc.holder))
      && (4 <= pc.k <= 5 && !pc'.SweepFault? ==> pc' == SweepVisit(pc.cursor, pc.claim, pc.k + 1, pc.holder))
      && (pc.k >= 6 ==> pc'.Retire? || pc'.Sweep?)
  {
    if HasOwnerSlot(w.dir, pc.claim) { assert ClaimOk(w, pc.claim); }
  }

  /** The three checks of a fault. */
  lemma FaultCall(d: Dir, crashed: set<Pid>, pc: Pc, ch: Choice)
    requires pc.SweepFault?
    ensures var pc' := SweepStep(d, crashed, pc, ch).pc;
      && (pc.k == 0 ==> pc' == if d.canonical.Absent? then SweepFault(pc.cursor, pc.claim, 1) else Wait)
      && (pc.k == 1 ==> pc' == if pc.claim in d.claims then SweepFault(pc.cursor, pc.claim, 2) else Wait)
      && (pc.k >= 2 ==> pc' == if HasOwnerSlot(d, pc.claim) then Failed(MalformedSweep) else Wait)
  {
  }

  lemma FailsFromAFaultOnly(d: Dir, me: Pid, crashed: set<Pid>, pc: Pc, ch: Choice)
    requires !Transfers(pc) && StepOf(d, me, crashed, pc, ch).pc == Failed(MalformedSweep)
    ensures pc == Failed(MalformedSweep) || (pc.SweepFault? && pc.k >= 2 && HasOwnerSlot(d, pc.claim))
  {
  }

  lemma FailsFromAFault(d: Dir, me: Pid, crashed: set<Pid>, pc: Pc, ch: Choice)
    requires StepOf(d, me, crashed, pc, ch).pc == Failed(MalformedSweep)
    ensures pc == Failed(MalformedSweep) || (pc.SweepFault? && pc.k >= 2 && HasOwnerSlot(d, pc.claim))
  {
    if Transfers(pc) { TransferLeadsTo(d, me, crashed, pc, ch); } else { FailsFromAFaultOnly(d, me, crashed, pc, ch); }
  }

  lemma FaultsInTheSweep(d: Dir, me: Pid, crashed: set<Pid>, pc: Pc, ch: Choice)
    requires !Transfers(pc) && StepOf(d, me, crashed, pc, ch).pc.SweepFault?
    ensures var pc' := StepOf(d, me, crashed, pc, ch).pc;
      && (pc.SweepVisit? || pc.SweepFault?) && pc'.claim == pc.claim
      && if pc.SweepVisit? then pc'.k == 0 else pc'.k == pc.k + 1 <= 2 && (pc.k == 0 ==> d.canonical.Absent?)
  {
  }

  lemma FaultsInOrder(d: Dir, me: Pid, crashed: set<Pid>, pc: Pc, ch: Choice)
    requires StepOf(d, me, crashed, pc, ch).pc.SweepFault?
    ensures var pc' := StepOf(d, me, crashed, pc, ch).pc;
      if pc'.k > 0 then
        && pc.SweepFault? && pc.k == pc'.k - 1 <= 1 && pc'.claim == pc.claim && (pc.k == 0 ==> d.canonical.Absent?)
      else
        (pc.SweepVisit? || ((pc.Retire? || pc.Leaf? || pc.DropEmpty? || pc.Detach?) && pc.ctx.Sweeping?))
        && pc'.claim == pc.claim
  {
    if Transfers(pc) { TransferLeadsTo(d, me, crashed, pc, ch); } else { FaultsInTheSweep(d, me, crashed, pc, ch); }
  }

  /** A call of the thread and then calls of others. */
  function After(s: State, t: Tid, ch: Choice, es: seq<Event>): State { Run(Next(s, Act(t, ch)), es) }

  lemma AfterCall(s: State, t: Tid, ch: Choice, es: seq<Event>)
    requires Inv(s) && Enabled(s, Act(t, ch)) && Others(es, t)
    ensures var s' := After(s, t, ch, es);
      && Inv(s') && t in s'.pcs && s'.pcs[t] == EffectOf(s, t, ch).pc
      && s.world.filled <= s'.world.filled
  {
    NextKeeps(s, Act(t, ch));
    FilledStays(s, Act(t, ch));
    OthersLeave(Next(s, Act(t, ch)), es, t);
  }

  lemma SlotlessAfter(s: State, t: Tid, ch: Choice, es: seq<Event>, c: ClaimId)
    requires Inv(s) && Enabled(s, Act(t, ch)) && Slotless(s.world, c)
    ensures Slotless(After(s, t, ch, es).world, c)
  {
    NextKeeps(s, Act(t, ch));
    SlotlessStep(s, Act(t, ch), c);
    SlotlessRun(Next(s, Act(t, ch)), es, c);
  }

  // One call and what comes between it and the next.

  lemma FirstFaultCall(s: State, t: Tid, ch: Choice, es: seq<Event>)
    requires Inv(s) && Enabled(s, Act(t, ch)) && Others(es, t) && s.pcs[t].SweepFault? && s.pcs[t].k == 0
    ensures var s', pc := After(s, t, ch, es), s.pcs[t];
      && Inv(s') && t in s'.pcs && pc.claim in s'.world.filled
      && s'.pcs[t] == if s.world.dir.canonical.Absent? then SweepFault(pc.cursor, pc.claim, 1) else Wait
  {
    assert Role(s.world, t, s.pcs[t]);
    AfterCall(s, t, ch, es);
    FaultCall(s.world.dir, s.world.crashed, s.pcs[t], ch);
  }

  lemma SecondFaultCall(s: State, t: Tid, ch: Choice, es: seq<Event>)
    requires Inv(s) && Enabled(s, Act(t, ch)) && Others(es, t) && s.pcs[t].SweepFault? && s.pcs[t].k == 1
    requires s.pcs[t].claim in s.world.filled
    ensures var s', pc := After(s, t, ch, es), s.pcs[t];
      && t in s'.pcs
      && (s'.pcs[t] == SweepFault(pc.cursor, pc.claim, 2) || (s'.pcs[t] == Wait && !HasOwnerSlot(s'.world.dir, pc.claim)))
  {
    AfterCall(s, t, ch, es);
    FaultCall(s.world.dir, s.world.crashed, s.pcs[t], ch);
    if s.pcs[t].claim !in s.world.dir.claims { SlotlessAfter(s, t, ch, es, s.pcs[t].claim); }
  }

  lemma LastFaultCall(s: State, t: Tid, ch: Choice)
    requires Enabled(s, Act(t, ch)) && s.pcs[t].SweepFault? && s.pcs[t].k == 2
    ensures Next(s, Act(t, ch)).pcs[t] == Failed(MalformedSweep) <==> HasOwnerSlot(s.world.dir, s.pcs[t].claim)
  {
    FaultCall(s.world.dir, s.world.crashed, s.pcs[t], ch);
  }

  /** Places from which one call does not reach the refusal. */
  predicate FarFromRefusal(pc: Pc, calls: nat) {
    pc != Failed(MalformedSweep) && (pc.SweepFault? ==> pc.k + calls <= 2)
  }

  lemma FarCall(s: State, t: Tid, ch: Choice)
    requires Enabled(s, Act(t, ch)) && FarFromRefusal(s.pcs[t], 1)
    ensures Next(s, Act(t, ch)).pcs[t] != Failed(MalformedSweep)
  {
    if Next(s, Act(t, ch)).pcs[t] == Failed(MalformedSweep) {
      FailsFromAFault(s.world.dir, s.world.pids[t], s.world.crashed, s.pcs[t], ch);
    }
  }

  lemma FarLeg(s: State, t: Tid, ch: Choice, es: seq<Event>, calls: nat)
    requires Inv(s) && Enabled(s, Act(t, ch)) && Others(es, t) && FarFromRefusal(s.pcs[t], calls + 1) && calls <= 2
    ensures var s' := After(s, t, ch, es); Inv(s') && t in s'.pcs && FarFromRefusal(s'.pcs[t], calls)
  {
    AfterCall(s, t, ch, es);
    FarCall(s, t, ch);
    if EffectOf(s, t, ch).pc.SweepFault? {
      FaultsInOrder(s.world.dir, s.world.pids[t], s.world.crashed, s.pcs[t], ch);
    }
  }

  lemma TwoFarCalls(s: State, t: Tid, c: Choice, es: seq<Event>, d: Choice)
    requires Inv(s) && Enabled(s, Act(t, c)) && Others(es, t) && FarFromRefusal(s.pcs[t], 2)
    requires Enabled(After(s, t, c, es), Act(t, d))
    ensures Next(After(s, t, c, es), Act(t, d)).pcs[t] != Failed(MalformedSweep)
  {
    FarLeg(s, t, c, es, 1);
    FarCall(After(s, t, c, es), t, d);
  }

  lemma ThreeFarCalls(s: State, t: Tid, b: Choice, es: seq<Event>, c: Choice, fs: seq<Event>, d: Choice)
    requires Inv(s) && Enabled(s, Act(t, b)) && Others(es, t) && Others(fs, t) && FarFromRefusal(s.pcs[t], 3)
    requires Enabled(After(s, t, b, es), Act(t, c))
    requires Enabled(After(After(s, t, b, es), t, c, fs), Act(t, d))
    ensures Next(After(After(s, t, b, es), t, c, fs), Act(t, d)).pcs[t] != Failed(MalformedSweep)
  {
    FarLeg(s, t, b, es, 2);
    TwoFarCalls(After(s, t, b, es), t, c, fs, d);
  }

  lemma SecondFaultFailsExactly(s: State, t: Tid, c: Choice, es: seq<Event>, d: Choice)
    requires Inv(s) && Enabled(s, Act(t, c)) && Others(es, t) && s.pcs[t].SweepFault? && s.pcs[t].k == 1
    requires s.pcs[t].claim in s.world.filled && Enabled(After(s, t, c, es), Act(t, d))
    ensures var s' := After(s, t, c, es);
      Next(s', Act(t, d)).pcs[t] == Failed(MalformedSweep) <==> HasOwnerSlot(s'.world.dir, s.pcs[t].claim)
  {
    SecondFaultCall(s, t, c, es);
    var s' := After(s, t, c, es);
    if s'.pcs[t] == Wait { FarCall(s', t, d); } else { LastFaultCall(s', t, d); }
  }

  /** A fault fails exactly when the name was absent at its first check and the owner
      directory is there at its last. */
  lemma FaultFailsExactly(s1: State, t: Tid, b: Choice, es1: seq<Event>, c: Choice, es2: seq<Event>, d: Choice)
    requires Inv(s1) && Enabled(s1, Act(t, b)) && s1.pcs[t].SweepFault? && s1.pcs[t].k == 0
    requires Others(es1, t) && Others(es2, t)
    requires Enabled(After(s1, t, b, es1), Act(t, c))
    requires Enabled(After(After(s1, t, b, es1), t, c, es2), Act(t, d))
    ensures var s3 := After(After(s1, t, b, es1), t, c, es2);
      (Next(s3, Act(t, d)).pcs[t] == Failed(MalformedSweep))
        <==> (s1.world.dir.canonical.Absent? && HasOwnerSlot(s3.world.dir, s1.pcs[t].claim))
  {
    FirstFaultCall(s1, t, b, es1);
    if s1.world.dir.canonical.Absent? {
      SecondFaultFailsExactly(After(s1, t, b, es1), t, c, es2, d);
    } else {
      TwoFarCalls(After(s1, t, b, es1), t, c, es2, d);
    }
  }

  lemma ThirdCheck(s: State, t: Tid, ch: Choice, es: seq<Event>)
    requires Inv(s) && Enabled(s, Act(t, ch)) && Others(es, t) && s.pcs[t].SweepVisit? && s.pcs[t].k == 3
    ensures var s', pc := After(s, t, ch, es), s.pcs[t];
      && Inv(s') && t in s'.pcs
      && (Undetached(s.world, pc.claim) ==> s'.pcs[t] == SweepFault(pc.cursor, pc.claim, 0))
      && (!Undetached(s.world, pc.claim) ==>
            FarFromRefusal(s'.pcs[t], 3)
            || (s'.pcs[t] == SweepFault(pc.cursor, pc.claim, 0) && Slotless(s'.world, pc.claim)))
  {
    VisitCall(s.world, t, s.pcs[t], ch);
    AfterCall(s, t, ch, es);
    if EffectOf(s, t, ch).pc.SweepFault? && !Undetached(s.world, s.pcs[t].claim) {
      SlotlessAfter(s, t, ch, es, s.pcs[t].claim);
    }
  }

  lemma SlotlessTwice(s: State, t: Tid, b: Choice, es: seq<Event>, c: Choice, fs: seq<Event>, cl: ClaimId)
    requires Inv(s) && Enabled(s, Act(t, b)) && Others(es, t) && Slotless(s.world, cl)
    requires Enabled(After(s, t, b, es), Act(t, c))
    ensures !HasOwnerSlot(After(After(s, t, b, es), t, c, fs).world.dir, cl)
  {
    AfterCall(s, t, b, es);
    SlotlessAfter(s, t, b, es, cl);
    SlotlessAfter(After(s, t, b, es), t, c, fs, cl);
  }

  /** From the third check of a visit, whatever the others do between the calls, the
      thread fails with a malformed claim if and only if the canonical name was
      still the owner's link at that check, the name was absent at the first check
      of the fault, and the claim still has its owner directory at the last. */
  lemma SweepFailsExactly(s0: State, t: Tid, a: Choice, es0: seq<Event>, b: Choice, es1: seq<Event>,
                          c: Choice, es2: seq<Event>, d: Choice)
    requires Reachable(s0) && Enabled(s0, Act(t, a)) && s0.pcs[t].SweepVisit? && s0.pcs[t].k == 3
    requires Others(es0, t) && Others(es1, t) && Others(es2, t)
    requires Enabled(After(s0, t, a, es0), Act(t, b))
    requires Enabled(After(After(s0, t, a, es0), t, b, es1), Act(t, c))
    requires Enabled(After(After(After(s0, t, a, es0), t, b, es1), t, c, es2), Act(t, d))
    ensures var s1 := After(s0, t, a, es0);
      var s3 := After(After(s1, t, b, es1), t, c, es2);
      var cl := s0.pcs[t].claim;
      (Next(s3, Act(t, d)).pcs[t] == Failed(MalformedSweep))
        <==> (s0.world.dir.canonical == Link(cl.owner) && s1.world.dir.canonical.Absent? && HasOwnerSlot(s3.world.dir, cl))
  {
    ReachableInv(s0);
    ThirdCheck(s0, t, a, es0);
    var s1 := After(s0, t, a, es0);
    if s1.pcs[t] == SweepFault(s0.pcs[t].cursor, s0.pcs[t].claim, 0) {
      FaultFailsExactly(s1, t, b, es1, c, es2, d);
      if !Undetached(s0.world, s0.pcs[t].claim) && !FarFromRefusal(s1.pcs[t], 3) {
        SlotlessTwice(s1, t, b, es1, c, es2, s0.pcs[t].claim);
      }
    } else {
      ThreeFarCalls(s1, t, b, es1, c, es2, d);
    }
  }

  /** A sweep that gives up on a claim as malformed is wrong about it: the claim
      and its detached owner pass every check the sweep makes. */
  lemma SweepRefusesAWholeClaim(s: State, t: Tid, ch: Choice)
    requires Reachable(s) && Enabled(s, Act(t, ch)) && s.pcs[t].SweepFault?
    requires Next(s, Act(t, ch)).pcs[t] == Failed(MalformedSweep)
    ensures var d, c := s.world.dir, s.pcs[t].claim;
      Bears(d, c) && SlotTombstoned(d, c) && TombNames(d, c)
  {
    ReachableInv(s);
    assert Role(s.world, t, s.pcs[t]) && ClaimOk(s.world, s.pcs[t].claim);
  }

  // ----- a sweep that nobody overlaps -----

  /** The call is the rename that detaches a generation. */
  predicate Detaches(s: State, ev: Event) {
    Enabled(s, ev) && ev.Act? && s.pcs[ev.tid].Detach? && s.pcs[ev.tid].k == 6
  }

  /** No other thread than `t` detaches a generation during the run. */
  predicate QuietFor(s: State, events: seq<Event>, t: Tid) {
    forall i :: 0 <= i < |events| && Detaches(Run(s, events[..i]), events[i]) ==> events[i].tid == t
  }

  /** What a quiet sweep knows at a fault: the owner directory is gone for good, or
      the name it is about to read is still the owner's link. */
  ghost predicate CalmAt(w: World, pc: Pc) {
    && pc != Failed(MalformedSweep)
    && (pc.SweepFault? ==> Slotless(w, pc.claim) || (pc.k == 0 && Undetached(w, pc.claim)))
  }

  lemma UndetachedStays(s: State, ev: Event, c: ClaimId)
    requires Inv(s) && Undetached(s.world, c) && !Detaches(s, ev)
    ensures Undetached(Next(s, ev).world, c)
  {
    if Enabled(s, ev) && ev.Act? {
      var t, w := ev.tid, s.world;
      StepDir(w.dir, w.pids[t], w.crashed, s.pcs[t], ev.choice);
      CanonicalAfter(w, t, s.pcs[t], ev.choice);
    }
  }

  /** A sweep retires a claim it found detached; it faults only if somebody else
      retired it first. */
  lemma RetireFaultsSlotless(w: World, t: Tid, pc: Pc)
    requires DirOk(w) && Role(w, t, pc) && (pc.Retire? || pc.Leaf?) && pc.ctx.Sweeping?
    ensures var pc' := (if pc.Retire? then DetachStep(w.dir, pc) else LeafStep(w.dir, pc)).pc;
      pc'.SweepFault? ==> Slotless(w, pc.claim)
  {
    if HasOwnerSlot(w.dir, pc.claim) { assert ClaimOk(w, pc.claim); }
  }

  lemma FaultIsCalm(w: World, t: Tid, pc: Pc, ch: Choice)
    requires DirOk(w) && Live(w, t) && Role(w, t, pc)
    ensures var pc' := StepOf(w.dir, w.pids[t], w.crashed, pc, ch).pc;
      pc'.SweepFault? && pc'.k == 0 ==> Slotless(w, pc'.claim) || Undetached(w, pc'.claim)
  {
    var pc' := StepOf(w.dir, w.pids[t], w.crashed, pc, ch).pc;
    if pc'.SweepFault? && pc'.k == 0 {
      FaultsInOrder(w.dir, w.pids[t], w.crashed, pc, ch);
      if pc.SweepVisit? { VisitCall(w, t, pc, ch); } else { RetireFaultsSlotless(w, t, pc); }
    }
  }

  lemma CalmFault(s: State, t: Tid, ch: Choice)
    requires Inv(s) && Enabled(s, Act(t, ch)) && CalmAt(s.world, s.pcs[t])
    ensures var pc' := EffectOf(s, t, ch).pc;
      pc'.SweepFault? ==>
        Slotless(s.world, pc'.claim) || (pc'.k == 0 && Undetached(s.world, pc'.claim) && !s.pcs[t].Detach?)
  {
    var w, pc := s.world, s.pcs[t];
    if EffectOf(s, t, ch).pc.SweepFault? {
      FaultsInOrder(w.dir, w.pids[t], w.crashed, pc, ch);
      FaultIsCalm(w, t, pc, ch);
      assert Role(w, t, pc);
    }
  }

  lemma CalmCall(s: State, t: Tid, ch: Choice)
    requires Inv(s) && Enabled(s, Act(t, ch)) && CalmAt(s.world, s.pcs[t])
    ensures var s' := Next(s, Act(t, ch)); CalmAt(s'.world, s'.pcs[t])
  {
    var s' := Next(s, Act(t, ch));
    if s'.pcs[t] == Failed(MalformedSweep) {
      FailsFromAFault(s.world.dir, s.world.pids[t], s.world.crashed, s.pcs[t], ch);
    } else if s'.pcs[t].SweepFault? {
      CalmFault(s, t, ch);
      if Slotless(s.world, s'.pcs[t].claim) {
        SlotlessStep(s, Act(t, ch), s'.pcs[t].claim);
      } else {
        UndetachedStays(s, Act(t, ch), s'.pcs[t].claim);
      }
    }
  }

  lemma CalmStep(s: State, ev: Event, t: Tid)
    requires Inv(s) && t in s.pcs && CalmAt(s.world, s.pcs[t]) && (Detaches(s, ev) ==> ev.tid == t)
    ensures var s' := Next(s, ev); t in s'.pcs && CalmAt(s'.world, s'.pcs[t])
  {
    var pc := s.pcs[t];
    if Enabled(s, ev) && ev.Act? && ev.tid == t {
      CalmCall(s, t, ev.choice);
    } else if pc.SweepFault? {
      assert Next(s, ev).pcs[t] == pc;
      if Slotless(s.world, pc.claim) { SlotlessStep(s, ev, pc.claim); } else { UndetachedStays(s, ev, pc.claim); }
    }
  }

  lemma {:induction false} CalmRun(s: State, events: seq<Event>, t: Tid)
    requires Inv(s) && t in s.pcs && CalmAt(s.world, s.pcs[t]) && QuietFor(s, events, t)
    ensures var e := Run(s, events); Inv(e) && t in e.pcs && CalmAt(e.world, e.pcs[t])
    decreases |events|
  {
    if events != [] {
      var front, last := events[..|events| - 1], events[|events| - 1];
      assert forall i :: 0 <= i < |front| ==> front[..i] == events[..i];
      CalmRun(s, front, t);
      NextKeeps(Run(s, front), last);
      CalmStep(Run(s, front), last, t);
    }
  }

  /** A thread never fails with a malformed claim in a sweep during which no other
      thread detaches a generation, however its calls interleave with the rest. */
  lemma QuietSweepNeverFails(s: State, events: seq<Event>, t: Tid)
    requires Reachable(s) && t in s.pcs && !s.pcs[t].SweepFault? && s.pcs[t] != Failed(MalformedSweep)
    requires QuietFor(s, events, t)
    ensures var e := Run(s, events); t in e.pcs && e.pcs[t] != Failed(MalformedSweep)
  {
    ReachableInv(s);
    CalmRun(s, events, t);
  }
}
