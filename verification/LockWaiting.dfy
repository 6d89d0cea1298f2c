/** What a waiting acquirer does: it gives up only at its deadline, keeps its place
    until then, and leaves a live holder alone. */
module LockWaiting {
  import opened Wrappers
  import opened LockDirectory
  import opened CheckoutLock
  import opened LockInvariant
  import opened LockSteps
  import opened LockPreserved
  import opened LockTheorems
  import opened LockScans

  // ----- the deadline -----

  lemma TimeoutComesFromWait(d: Dir, me: Pid, crashed: set<Pid>, pc: Pc, ch: Choice)
    requires !Transfers(pc) && StepOf(d, me, crashed, pc, ch).pc == Failed(TimedOut)
    ensures pc == Failed(TimedOut) || (pc.Wait? && !ch.go)
  {
  }

  /** A call times out exactly when it is the deadline check and the deadline has
      passed. */
  lemma TimesOutExactly(s: State, t: Tid, ch: Choice)
    requires Enabled(s, Act(t, ch)) && s.pcs[t] != Failed(TimedOut)
    ensures Next(s, Act(t, ch)).pcs[t] == Failed(TimedOut) <==> s.pcs[t].Wait? && !ch.go
  {
    var d, me, crashed, pc := s.world.dir, s.world.pids[t], s.world.crashed, s.pcs[t];
    if Transfers(pc) {
      TransferLeadsTo(d, me, crashed, pc, ch);
    } else if StepOf(d, me, crashed, pc, ch).pc == Failed(TimedOut) {
      TimeoutComesFromWait(d, me, crashed, pc, ch);
    }
  }

  /** If this is the thread's deadline check, the deadline has not passed. */
  predicate InTime(s: State, ev: Event, t: Tid) {
    ev.Act? && ev.tid == t && t in s.pcs && s.pcs[t].Wait? ==> ev.choice.go
  }

  /** Whenever the thread checks its deadline, it has not passed. */
  predicate Patient(s: State, events: seq<Event>, t: Tid) {
    forall i :: 0 <= i < |events| ==> InTime(At(s, events, i), events[i], t)
  }

  /** With time left no thread ever times out, whatever it meets and whatever the
      others do. */
  lemma {:induction false} PatientNeverTimesOut(s: State, events: seq<Event>, t: Tid, j: nat)
    requires t in s.pcs && s.pcs[t] != Failed(TimedOut) && Patient(s, events, t) && j <= |events|
    ensures t in At(s, events, j).pcs && At(s, events, j).pcs[t] != Failed(TimedOut)
    decreases j
  {
    if j == 0 {
      AtStart(s, events);
    } else {
      PatientNeverTimesOut(s, events, t, j - 1);
      AtNext(s, events, j - 1);
      var u, ev := At(s, events, j - 1), events[j - 1];
      if Enabled(u, ev) && ev.Act? && ev.tid == t { TimesOutExactly(u, t, ev.choice); }
    }
  }

  lemma LookComesFromTransfer(d: Dir, me: Pid, crashed: set<Pid>, pc: Pc, ch: Choice)
    requires Transfers(pc)
    ensures StepOf(d, me, crashed, pc, ch).pc.Look? <==>
      pc.Leaf? && pc.ctx.Recovering? && pc.k >= 5 && RemoveClaimDir(d, pc.claim).Some?
  {
  }

  lemma LookComesFromLoop(d: Dir, me: Pid, crashed: set<Pid>, pc: Pc, ch: Choice)
    requires !Transfers(pc)
    ensures StepOf(d, me, crashed, pc, ch).pc.Look? <==> (pc.Idle? || pc.Wait?) && ch.go
  {
  }

  /** A thread looks at the name at the start of an attempt, after a deadline check
      in time, and without one only after it has recovered a generation to the last
      directory. */
  lemma LooksAgainExactly(s: State, t: Tid, ch: Choice)
    requires Enabled(s, Act(t, ch))
    ensures var pc := s.pcs[t];
      Next(s, Act(t, ch)).pcs[t].Look? <==>
        || ((pc.Idle? || pc.Wait?) && ch.go)
        || (pc.Leaf? && pc.ctx.Recovering? && pc.k >= 5 && RemoveClaimDir(s.world.dir, pc.claim).Some?)
  {
    var d, me, crashed, pc := s.world.dir, s.world.pids[t], s.world.crashed, s.pcs[t];
    if Transfers(pc) {
      LookComesFromTransfer(d, me, crashed, pc, ch);
    } else {
      LookComesFromLoop(d, me, crashed, pc, ch);
    }
  }

  // ----- an attempt ends with the lock or an error -----

  /** The thread is inside the acquire loop. */
  predicate Acquiring(pc: Pc) {
    match pc
    case Idle | InOp(_) | Failed(_) | Release(_, _) => false
    case PublishClaim(_, _, ctx) => !ctx.Releasing?
    case Fill(_, _, ctx, _) => !ctx.Releasing?
    case DropEmpty(_, ctx, _) => !ctx.Releasing?
    case Detach(_, ctx, _) => !ctx.Releasing?
    case Retire(_, ctx, _) => !ctx.Releasing?
    case Leaf(_, ctx, _) => !ctx.Releasing?
    case _ => true
  }

  lemma TransferStaysIn(d: Dir, me: Pid, crashed: set<Pid>, pc: Pc, ch: Choice)
    requires Transfers(pc) && Acquiring(pc)
    ensures Acquiring(StepOf(d, me, crashed, pc, ch).pc)
  {
  }

  lemma LoopStaysIn(d: Dir, me: Pid, crashed: set<Pid>, pc: Pc, ch: Choice)
    requires !Transfers(pc) && Acquiring(pc)
    ensures var pc' := StepOf(d, me, crashed, pc, ch).pc;
      Acquiring(pc') || pc'.Failed? || (pc'.InOp? && pc.Verify? && pc'.gen == pc.gen)
  {
  }

  /** An attempt is never given up silently: it goes on until the thread is inside
      the operation, from the last check of its own generation, or has failed. */
  lemma AttemptGoesOn(s: State, t: Tid, ch: Choice)
    requires Enabled(s, Act(t, ch)) && Acquiring(s.pcs[t])
    ensures var pc, pc' := s.pcs[t], Next(s, Act(t, ch)).pcs[t];
      Acquiring(pc') || pc'.Failed? || (pc'.InOp? && pc.Verify? && pc'.gen == pc.gen)
  {
    var d, me, crashed, pc := s.world.dir, s.world.pids[t], s.world.crashed, s.pcs[t];
    if Transfers(pc) { TransferStaysIn(d, me, crashed, pc, ch); } else { LoopStaysIn(d, me, crashed, pc, ch); }
  }

  // ----- a live holder -----

  /** What a thread does that finds the name held by generation `n`: the calls left
      until it waits. */
  function CallsToWait(pc: Pc, n: Nonce): Option<nat> {
    match pc
    case Look => Some(6)
    case ReadTarget => Some(5)
    case ProbeOwner(m, k, _) => if m == n && k <= 3 then Some(4 - k) else None
    case Wait => Some(0)
    case _ => None
  }

  /** Thread `u` lives and is inside the operation with generation `n`. */
  ghost predicate HoldsLive(s: State, u: Tid, n: Nonce) {
    u in s.pcs && Live(s.world, u) && s.pcs[u] == InOp(n)
  }

  lemma HolderIsVisible(s: State, u: Tid, n: Nonce)
    requires Inv(s) && HoldsLive(s, u, n)
    ensures s.world.dir.canonical == Link(n) && OwnerRecorded(s.world.dir, n)
    ensures s.world.dir.owners[n].record == Some(s.world.pids[u]) && s.world.pids[u] !in s.world.crashed
    ensures forall h :: Wrote(s.world, n, h) ==> h == s.world.pids[u]
  {
    assert Role(s.world, u, s.pcs[u]);
  }

  lemma ProbedHolder(s: State, t: Tid, u: Tid, n: Nonce)
    requires Inv(s) && HoldsLive(s, u, n) && t in s.pcs && Live(s.world, t) && s.pcs[t].ProbeOwner?
    ensures s.pcs[t].k == 3 && s.pcs[t].gen == n ==> s.pcs[t].holder == s.world.pids[u]
  {
    HolderIsVisible(s, u, n);
    assert Role(s.world, t, s.pcs[t]);
  }

  lemma QuietNext(s: State, t: Tid, ch: Choice)
    requires Enabled(s, Act(t, ch)) && EffectOf(s, t, ch) == Go(s.world.dir, EffectOf(s, t, ch).pc)
    ensures Next(s, Act(t, ch)).world == s.world
  {
    assert Apply(s.world, t, Go(s.world.dir, EffectOf(s, t, ch).pc)) == s.world;
  }

  lemma LiveHolderStep(d: Dir, me: Pid, crashed: set<Pid>, pc: Pc, ch: Choice, n: Nonce, holder: Pid)
    requires d.canonical == Link(n) && OwnerRecorded(d, n) && d.owners[n].record == Some(holder) && holder !in crashed
    requires CallsToWait(pc, n).Some? && (pc.ProbeOwner? && pc.k == 3 ==> pc.holder == holder)
    ensures var e := StepOf(d, me, crashed, pc, ch);
      && e == Go(d, e.pc)
      && if pc.Wait? then e.pc == (if ch.go then Look else Failed(TimedOut))
         else CallsToWait(e.pc, n) == Some(CallsToWait(pc, n).value - 1)
  {
  }

  /** One call of a thread that meets a live holder brings it nearer to its deadline
      check, changes nothing on disk, and never steps past it. */
  lemma LiveHolderCall(s: State, t: Tid, ch: Choice, u: Tid, n: Nonce)
    requires Inv(s) && Enabled(s, Act(t, ch)) && HoldsLive(s, u, n) && CallsToWait(s.pcs[t], n).Some?
    ensures var s' := Next(s, Act(t, ch));
      && s'.world == s.world
      && if s.pcs[t].Wait? then s'.pcs[t] == (if ch.go then Look else Failed(TimedOut))
         else CallsToWait(s'.pcs[t], n) == Some(CallsToWait(s.pcs[t], n).value - 1)
  {
    var w, pc := s.world, s.pcs[t];
    HolderIsVisible(s, u, n);
    if pc.ProbeOwner? { ProbedHolder(s, t, u, n); }
    LiveHolderStep(w.dir, w.pids[t], w.crashed, pc, ch, n, w.pids[u]);
    QuietNext(s, t, ch);
  }

  lemma LiveHolderEvent(s: State, ev: Event, t: Tid, u: Tid, n: Nonce)
    requires Inv(s) && t in s.pcs && HoldsLive(s, u, n) && CallsToWait(s.pcs[t], n).Some? && InTime(s, ev, t)
    ensures t in Next(s, ev).pcs && CallsToWait(Next(s, ev).pcs[t], n).Some?
  {
    if Enabled(s, ev) && ev.Act? && ev.tid == t { LiveHolderCall(s, t, ev.choice, u, n); }
  }

  /** As long as a live thread holds the lock, whatever else happens, an acquirer is
      between its look at the name and its deadline check; with time left it is
      still there. */
  lemma {:induction false} LiveHolderIsWaitedFor(s: State, events: seq<Event>, t: Tid, u: Tid, n: Nonce, j: nat)
    requires Reachable(s) && t in s.pcs && CallsToWait(s.pcs[t], n).Some? && j <= |events|
    requires Patient(s, events, t) && forall i :: 0 <= i <= |events| ==> HoldsLive(At(s, events, i), u, n)
    ensures t in At(s, events, j).pcs && CallsToWait(At(s, events, j).pcs[t], n).Some?
    decreases j
  {
    if j == 0 {
      AtStart(s, events);
    } else {
      LiveHolderIsWaitedFor(s, events, t, u, n, j - 1);
      ReachableInv(s);
      AtInv(s, events, j - 1);
      AtNext(s, events, j - 1);
      assert InTime(At(s, events, j - 1), events[j - 1], t);
      LiveHolderEvent(At(s, events, j - 1), events[j - 1], t, u, n);
    }
  }

  // ----- a live claimant -----

  /** Claim `c` holds the generation on the name, and its claimant `p` lives. */
  ghost predicate ClaimedLive(w: World, c: ClaimId, p: Pid) {
    w.dir.canonical == Link(c.owner) && HasOwnerSlot(w.dir, c) && w.dir.claims[c].record == Some(p) && p !in w.crashed
  }

  /** The scan has accepted this claim at most, and found it alive. */
  predicate FoundAlive(found: seq<Found>, c: ClaimId, seen: set<ClaimId>) {
    |found| <= 1 && forall f :: f in found ==> f == Found(c, false) && c in seen
  }

  /** Between the look at the name and the deadline check, searching for the claim. */
  predicate Searching(pc: Pc, c: ClaimId, p: Pid) {
    match pc
    case Look | ReadTarget | Wait => true
    case ProbeOwner(n, k, _) => n == c.owner && k == 0
    case OpenScan(n) => n == c.owner
    case Scan(n, cursor, found) => n == c.owner && FoundAlive(found, c, cursor.seen)
    case Visit(n, cursor, found, e, k, h) =>
      && n == c.owner == e.owner && k <= 5 && FoundAlive(found, c, cursor.seen - {e})
      && e in cursor.seen && (k >= 1 ==> e == c) && (k >= 3 ==> h == p)
    case Settle(n, found) => n == c.owner && |found| <= 1 && forall f :: f in found ==> !f.dead
    case _ => false
  }

  lemma SearchingVisit(w: World, pc: Pc, ch: Choice, c: ClaimId, p: Pid)
    requires DirOk(w) && ClaimedLive(w, c, p) && Searching(pc, c, p) && pc.Visit?
    ensures Searching(VisitStep(w.dir, w.crashed, pc, ch).pc, c, p)
  {
    assert ClaimOk(w, c);
    if HasOwnerSlot(w.dir, pc.claim) { HolderIsUnique(w, pc.claim, c); }
    assert pc.found == [] || pc.found[0] in pc.found;
  }

  lemma SearchingCall(w: World, pc: Pc, ch: Choice, c: ClaimId, p: Pid)
    requires DirOk(w) && ClaimedLive(w, c, p) && Searching(pc, c, p) && !pc.Visit? && !pc.Wait?
    ensures Searching(ClassifyStep(w.dir, w.crashed, pc, ch).pc, c, p)
  {
    assert ClaimOk(w, c);
    if pc.Scan? && Returns(w.dir, pc.cursor, ch.pick) {
      assert Mark(pc.cursor, ch.pick).seen - {ch.pick} == pc.cursor.seen;
    }
    if pc.Settle? && pc.found != [] { assert pc.found[0] in pc.found; }
  }

  lemma SearchingEvent(s: State, ev: Event, t: Tid, c: ClaimId, p: Pid)
    requires Inv(s) && t in s.pcs && ClaimedLive(s.world, c, p) && Searching(s.pcs[t], c, p) && InTime(s, ev, t)
    ensures t in Next(s, ev).pcs && Searching(Next(s, ev).pcs[t], c, p)
  {
    if Enabled(s, ev) && ev.Act? && ev.tid == t && !s.pcs[t].Wait? {
      if s.pcs[t].Visit? {
        SearchingVisit(s.world, s.pcs[t], ev.choice, c, p);
      } else {
        SearchingCall(s.world, s.pcs[t], ev.choice, c, p);
      }
    }
  }

  /** As long as a live claimant holds the generation on the name, an acquirer with
      time left searches and waits; it never takes the claim over nor fails. */
  lemma {:induction false} LiveClaimIsWaitedFor(s: State, events: seq<Event>, t: Tid, c: ClaimId, p: Pid, j: nat)
    requires Reachable(s) && t in s.pcs && Searching(s.pcs[t], c, p) && j <= |events|
    requires Patient(s, events, t) && forall i :: 0 <= i <= |events| ==> ClaimedLive(At(s, events, i).world, c, p)
    ensures t in At(s, events, j).pcs && Searching(At(s, events, j).pcs[t], c, p)
    decreases j
  {
    if j == 0 {
      AtStart(s, events);
    } else {
      LiveClaimIsWaitedFor(s, events, t, c, p, j - 1);
      ReachableInv(s);
      AtInv(s, events, j - 1);
      AtNext(s, events, j - 1);
      assert InTime(At(s, events, j - 1), events[j - 1], t);
      SearchingEvent(At(s, events, j - 1), events[j - 1], t, c, p);
    }
  }

  // ----- a legacy lock -----

  /** The same while a legacy directory holds the name: one look, one check. */
  lemma LegacyIsWaitedFor(s: State, t: Tid, ch: Choice)
    requires Enabled(s, Act(t, ch)) && s.world.dir.canonical.Legacy?
    requires s.pcs[t].Look? || s.pcs[t].ReadTarget? || s.pcs[t].Wait?
    ensures var s' := Next(s, Act(t, ch));
      && s'.world.dir == s.world.dir
      && s'.pcs[t] == if !s.pcs[t].Wait? then Wait else if ch.go then Look else Failed(TimedOut)
  {
  }
}
