/** The converse of the roles: a live thread that is not inside a transfer or
    the operation has left nothing of its own on the canonical path or in a
    claim. */
module LockClean {
  import opened Wrappers
  import opened LockDirectory
  import opened CheckoutLock
  import opened LockInvariant
  import opened LockSteps
  import opened LockPreserved

  /** The generation this thread has on the canonical path. */
  function GenAt(pc: Pc): Option<Nonce> {
    match pc
    case Verify(n, _) => Some(n)
    case InOp(n) => Some(n)
    case Release(n, _) => Some(n)
    case PublishClaim(n, _, Releasing) => Some(n)
    case Fill(c, _, Releasing, _) => Some(c.owner)
    case DropOld(_, c, _) => Some(c.owner)
    case Detach(c, _, _) => Some(c.owner)
    case _ => None
  }

  /** The claim through which this thread holds an owner directory. */
  function ClaimAt(pc: Pc): Option<ClaimId> {
    match pc
    case DropOld(_, c, _) => Some(c)
    case Detach(c, _, _) => Some(c)
    case Retire(c, ctx, _) => if ctx.Sweeping? then None else Some(c)
    case _ => None
  }

  ghost predicate Clean(w: World, t: Tid, pc: Pc) {
    && (forall n: Nonce :: Mine(w, t, n) && w.dir.canonical == Link(n) ==> GenAt(pc) == Some(n))
    && (forall c: ClaimId :: Mine(w, t, c.nonce) && HasOwnerSlot(w.dir, c) ==> ClaimAt(pc) == Some(c))
  }

  ghost predicate CleanAfter(w: World, t: Tid, e: Effect) { Clean(Apply(w, t, e), t, e.pc) }

  lemma QuietClean(w: World, t: Tid, pc: Pc, e: Effect)
    requires Clean(w, t, pc) && e == Go(w.dir, e.pc)
    requires GenAt(pc).Some? ==> GenAt(e.pc) == GenAt(pc) || w.dir.canonical != Link(GenAt(pc).value)
    requires ClaimAt(pc).Some? ==> ClaimAt(e.pc) == ClaimAt(pc) || !HasOwnerSlot(w.dir, ClaimAt(pc).value)
    ensures CleanAfter(w, t, e)
  {
    assert Apply(w, t, e) == w;
  }

  lemma ScanClean(w: World, t: Tid, pc: Pc, ch: Choice)
    requires Scans(pc) && Clean(w, t, pc) && Live(w, t)
    ensures CleanAfter(w, t, StepOf(w.dir, w.pids[t], w.crashed, pc, ch))
  {
    QuietClean(w, t, pc, StepOf(w.dir, w.pids[t], w.crashed, pc, ch));
  }

  lemma PublishOwnerClean(w: World, t: Tid, pc: Pc, ch: Choice)
    requires pc.PublishOwner? && Ready(w, t, pc, ch) && Clean(w, t, pc)
    ensures CleanAfter(w, t, AcquireStep(w.dir, w.pids[t], pc, ch))
  {
  }

  lemma PublishClean(w: World, t: Tid, pc: Pc, ch: Choice)
    requires pc.Publish? && Ready(w, t, pc, ch) && Clean(w, t, pc)
    ensures CleanAfter(w, t, AcquireStep(w.dir, w.pids[t], pc, ch))
  {
  }

  lemma DiscardClean(w: World, t: Tid, pc: Pc, ch: Choice)
    requires pc.Discard? && Ready(w, t, pc, ch) && Clean(w, t, pc)
    ensures CleanAfter(w, t, AcquireStep(w.dir, w.pids[t], pc, ch))
  {
  }

  lemma HolderClean(w: World, t: Tid, pc: Pc, ch: Choice)
    requires pc.Idle? || pc.Verify? || pc.InOp? || pc.Release? || pc.Wait? || pc.Failed?
    requires Ready(w, t, pc, ch) && Clean(w, t, pc)
    ensures CleanAfter(w, t, AcquireStep(w.dir, w.pids[t], pc, ch))
  {
    QuietClean(w, t, pc, AcquireStep(w.dir, w.pids[t], pc, ch));
  }

  lemma SweepClean(w: World, t: Tid, pc: Pc, ch: Choice)
    requires pc.SweepBegin? || pc.SweepOpen? || pc.Sweep? || pc.SweepVisit? || pc.SweepFault? || pc.SweepEnd?
    requires Clean(w, t, pc)
    ensures CleanAfter(w, t, SweepStep(w.dir, w.crashed, pc, ch))
  {
    QuietClean(w, t, pc, SweepStep(w.dir, w.crashed, pc, ch));
  }

  lemma PublishClaimClean(w: World, t: Tid, pc: Pc, ch: Choice)
    requires pc.PublishClaim? && Ready(w, t, pc, ch) && Clean(w, t, pc)
    ensures CleanAfter(w, t, ClaimStep(w.dir, w.pids[t], pc, ch))
  {
  }

  /** The filled claim is the thread's own; no other claim of its own gains an
      owner directory. */
  lemma FillClean(w: World, t: Tid, pc: Pc, ch: Choice)
    requires pc.Fill? && Ready(w, t, pc, ch) && Clean(w, t, pc)
    ensures CleanAfter(w, t, ClaimStep(w.dir, w.pids[t], pc, ch))
  {
    var e := ClaimStep(w.dir, w.pids[t], pc, ch);
    assert Apply(w, t, e).makers == w.makers;
    assert e.dir.canonical == w.dir.canonical;
    assert forall c :: HasOwnerSlot(e.dir, c) && c != pc.claim ==> HasOwnerSlot(w.dir, c);
  }

  /** A call after which no further claim has an owner directory. */
  lemma ShrinkClean(w: World, t: Tid, pc: Pc, e: Effect)
    requires Clean(w, t, pc) && e.drawn == {}
    requires e.dir.canonical == w.dir.canonical || e.dir.canonical.Absent?
    requires forall c :: HasOwnerSlot(e.dir, c) ==> HasOwnerSlot(w.dir, c)
    requires GenAt(pc).Some? ==> GenAt(e.pc) == GenAt(pc) || e.dir.canonical != Link(GenAt(pc).value)
    requires ClaimAt(pc).Some? ==> ClaimAt(e.pc) == ClaimAt(pc) || !HasOwnerSlot(e.dir, ClaimAt(pc).value)
    ensures CleanAfter(w, t, e)
  {
    assert Apply(w, t, e).makers == w.makers;
  }

  lemma DropClean(w: World, t: Tid, pc: Pc, ch: Choice)
    requires pc.DropEmpty? || pc.DropOld?
    requires Ready(w, t, pc, ch) && Clean(w, t, pc)
    ensures CleanAfter(w, t, ClaimStep(w.dir, w.pids[t], pc, ch))
  {
    ShrinkClean(w, t, pc, ClaimStep(w.dir, w.pids[t], pc, ch));
  }

  lemma DetachClean(w: World, t: Tid, pc: Pc, ch: Choice)
    requires pc.Detach? && Ready(w, t, pc, ch) && Clean(w, t, pc)
    ensures CleanAfter(w, t, DetachStep(w.dir, pc))
  {
    assert ClaimOk(w, pc.claim);
    ShrinkClean(w, t, pc, DetachStep(w.dir, pc));
  }

  lemma RetireClean(w: World, t: Tid, pc: Pc, ch: Choice)
    requires pc.Retire? && Ready(w, t, pc, ch) && Clean(w, t, pc)
    ensures CleanAfter(w, t, DetachStep(w.dir, pc))
  {
    if HasOwnerSlot(w.dir, pc.claim) { assert ClaimOk(w, pc.claim); }
    ShrinkClean(w, t, pc, DetachStep(w.dir, pc));
  }

  lemma LeafClean(w: World, t: Tid, pc: Pc, ch: Choice)
    requires pc.Leaf? && Ready(w, t, pc, ch) && Clean(w, t, pc)
    ensures CleanAfter(w, t, LeafStep(w.dir, pc))
  {
    ShrinkClean(w, t, pc, LeafStep(w.dir, pc));
  }

  lemma ClaimingClean(w: World, t: Tid, pc: Pc, ch: Choice)
    requires pc.PublishClaim? || pc.Fill? || pc.DropEmpty? || pc.DropOld?
    requires Ready(w, t, pc, ch) && Clean(w, t, pc)
    ensures CleanAfter(w, t, StepOf(w.dir, w.pids[t], w.crashed, pc, ch))
  {
    assert StepOf(w.dir, w.pids[t], w.crashed, pc, ch) == ClaimStep(w.dir, w.pids[t], pc, ch);
    if pc.PublishClaim? {
      PublishClaimClean(w, t, pc, ch);
    } else if pc.Fill? {
      FillClean(w, t, pc, ch);
    } else {
      DropClean(w, t, pc, ch);
    }
  }

  lemma DetachingClean(w: World, t: Tid, pc: Pc, ch: Choice)
    requires pc.Detach? || pc.Retire? || pc.Leaf?
    requires Ready(w, t, pc, ch) && Clean(w, t, pc)
    ensures CleanAfter(w, t, StepOf(w.dir, w.pids[t], w.crashed, pc, ch))
  {
    var e := StepOf(w.dir, w.pids[t], w.crashed, pc, ch);
    if pc.Detach? {
      assert e == DetachStep(w.dir, pc);
      DetachClean(w, t, pc, ch);
    } else if pc.Retire? {
      assert e == DetachStep(w.dir, pc);
      RetireClean(w, t, pc, ch);
    } else {
      assert e == LeafStep(w.dir, pc);
      LeafClean(w, t, pc, ch);
    }
  }

  lemma ActClean(w: World, t: Tid, pc: Pc, ch: Choice)
    requires Ready(w, t, pc, ch) && Clean(w, t, pc)
    ensures CleanAfter(w, t, StepOf(w.dir, w.pids[t], w.crashed, pc, ch))
  {
    if pc.Detach? || pc.Retire? || pc.Leaf? {
      DetachingClean(w, t, pc, ch);
    } else if Transfers(pc) {
      ClaimingClean(w, t, pc, ch);
    } else if Scans(pc) {
      ScanClean(w, t, pc, ch);
    } else {
      match pc
      case SweepBegin | SweepOpen | Sweep(_) | SweepVisit(_, _, _, _) | SweepFault(_, _, _) | SweepEnd =>
        SweepClean(w, t, pc, ch);
      case PublishOwner => PublishOwnerClean(w, t, pc, ch);
      case Publish(_) => PublishClean(w, t, pc, ch);
      case Discard(_, _) => DiscardClean(w, t, pc, ch);
      case _ => HolderClean(w, t, pc, ch);
    }
  }

  ghost predicate AllClean(s: State) {
    Inv(s) && forall t :: t in s.pcs && Live(s.world, t) ==> Clean(s.world, t, s.pcs[t])
  }

  lemma SparedClean(w: World, v: World, u: Tid, pc: Pc)
    requires Clean(w, u, pc) && Spares(w, v, u)
    ensures Clean(v, u, pc)
  {
  }

  lemma ActAllClean(s: State, t: Tid, ch: Choice)
    requires AllClean(s) && Enabled(s, Act(t, ch))
    ensures AllClean(Next(s, Act(t, ch)))
  {
    var w, s' := s.world, Next(s, Act(t, ch));
    NextKeeps(s, Act(t, ch));
    ActKeeps(w, t, s.pcs[t], ch);
    ActClean(w, t, s.pcs[t], ch);
    forall u | u in s'.pcs && Live(s'.world, u) ensures Clean(s'.world, u, s'.pcs[u]) {
      if u != t { SparedClean(w, s'.world, u, s.pcs[u]); }
    }
  }

  lemma NextClean(s: State, ev: Event)
    requires AllClean(s)
    ensures AllClean(Next(s, ev))
  {
    NextKeeps(s, ev);
    if Enabled(s, ev) && ev.Act? { ActAllClean(s, ev.tid, ev.choice); }
  }

  lemma {:induction false} RunClean(s: State, events: seq<Event>)
    requires AllClean(s)
    ensures AllClean(Run(s, events))
    decreases |events|
  {
    if events == [] {
    } else {
      RunClean(s, events[..|events| - 1]);
      NextClean(Run(s, events[..|events| - 1]), events[|events| - 1]);
    }
  }

  lemma ReachableClean(s: State)
    requires Reachable(s)
    ensures AllClean(s)
  {
    var pids: map<Tid, Pid>, events: seq<Event> :| s == Run(Start(pids), events);
    RunClean(Start(pids), events);
  }
}
