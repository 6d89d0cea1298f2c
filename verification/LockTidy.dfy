/** Nothing is left lying about: every owner directory and claim directory that a
    live thread made is the one it is at work on, so a thread that waits, rests or
    has failed has none. */
module LockTidy {
  import opened Wrappers
  import opened LockDirectory
  import opened CheckoutLock
  import opened LockInvariant
  import opened LockSteps
  import opened LockPreserved

  /** The claim directory of its own that a thread is at work on. */
  function ClaimOf(pc: Pc): Option<ClaimId> {
    match pc
    case Fill(c, _, _, _) => Some(c)
    case DropEmpty(c, _, _) => Some(c)
    case DropOld(_, c, _) => Some(c)
    case Detach(c, _, _) => Some(c)
    case Retire(c, ctx, _) => if ctx.Sweeping? then None else Some(c)
    case Leaf(c, ctx, _) => if ctx.Sweeping? then None else Some(c)
    case _ => None
  }

  /** The owner directory of its own that a thread is at work on. */
  function OwnerOf(pc: Pc): Option<Nonce> {
    match pc
    case Publish(n) => Some(n)
    case Discard(n, _) => Some(n)
    case Verify(n, _) => Some(n)
    case InOp(n) => Some(n)
    case Release(n, _) => Some(n)
    case PublishClaim(n, _, Releasing) => Some(n)
    case Fill(c, _, Releasing, _) => Some(c.owner)
    case _ => None
  }

  ghost predicate Tidy(w: World, t: Tid, pc: Pc) {
    && (forall c: ClaimId :: c in w.dir.claims && Mine(w, t, c.nonce) ==> ClaimOf(pc) == Some(c))
    && (forall n :: n in w.dir.owners && Mine(w, t, n) ==> OwnerOf(pc) == Some(n))
  }

  ghost predicate TidyAfter(w: World, t: Tid, e: Effect) { Tidy(Apply(w, t, e), t, e.pc) }

  /** A call that makes no directory, and drops what it leaves. */
  lemma ShrinkTidy(w: World, t: Tid, pc: Pc, e: Effect)
    requires Tidy(w, t, pc) && e.drawn == {}
    requires e.dir.claims.Keys <= w.dir.claims.Keys && e.dir.owners.Keys <= w.dir.owners.Keys
    requires ClaimOf(pc).Some? ==> ClaimOf(e.pc) == ClaimOf(pc) || ClaimOf(pc).value !in e.dir.claims
    requires OwnerOf(pc).Some? ==> OwnerOf(e.pc) == OwnerOf(pc) || OwnerOf(pc).value !in e.dir.owners
    ensures TidyAfter(w, t, e)
  {
    assert Apply(w, t, e).makers == w.makers;
  }

  lemma ScanTidy(w: World, t: Tid, pc: Pc, ch: Choice)
    requires Scans(pc) && Tidy(w, t, pc) && Live(w, t)
    ensures TidyAfter(w, t, StepOf(w.dir, w.pids[t], w.crashed, pc, ch))
  {
    ShrinkTidy(w, t, pc, StepOf(w.dir, w.pids[t], w.crashed, pc, ch));
  }

  lemma SweepTidy(w: World, t: Tid, pc: Pc, ch: Choice)
    requires pc.SweepBegin? || pc.SweepOpen? || pc.Sweep? || pc.SweepVisit? || pc.SweepFault? || pc.SweepEnd?
    requires Tidy(w, t, pc)
    ensures TidyAfter(w, t, SweepStep(w.dir, w.crashed, pc, ch))
  {
    ShrinkTidy(w, t, pc, SweepStep(w.dir, w.crashed, pc, ch));
  }

  lemma PublishOwnerTidy(w: World, t: Tid, pc: Pc, ch: Choice)
    requires pc.PublishOwner? && Ready(w, t, pc, ch) && Tidy(w, t, pc)
    ensures TidyAfter(w, t, AcquireStep(w.dir, w.pids[t], pc, ch))
  {
  }

  lemma PublishTidy(w: World, t: Tid, pc: Pc, ch: Choice)
    requires (pc.Publish? || pc.Discard?) && Ready(w, t, pc, ch) && Tidy(w, t, pc)
    ensures TidyAfter(w, t, AcquireStep(w.dir, w.pids[t], pc, ch))
  {
    ShrinkTidy(w, t, pc, AcquireStep(w.dir, w.pids[t], pc, ch));
  }

  lemma HolderTidy(w: World, t: Tid, pc: Pc, ch: Choice)
    requires pc.Idle? || pc.Verify? || pc.InOp? || pc.Release? || pc.Wait? || pc.Failed?
    requires Ready(w, t, pc, ch) && Tidy(w, t, pc)
    ensures TidyAfter(w, t, AcquireStep(w.dir, w.pids[t], pc, ch))
  {
    ShrinkTidy(w, t, pc, AcquireStep(w.dir, w.pids[t], pc, ch));
  }

  lemma PublishClaimTidy(w: World, t: Tid, pc: Pc, ch: Choice)
    requires pc.PublishClaim? && Ready(w, t, pc, ch) && Tidy(w, t, pc)
    ensures TidyAfter(w, t, ClaimStep(w.dir, w.pids[t], pc, ch))
  {
  }

  lemma FillTidy(w: World, t: Tid, pc: Pc, ch: Choice)
    requires pc.Fill? && Ready(w, t, pc, ch) && Tidy(w, t, pc)
    ensures TidyAfter(w, t, ClaimStep(w.dir, w.pids[t], pc, ch))
  {
    ShrinkTidy(w, t, pc, ClaimStep(w.dir, w.pids[t], pc, ch));
  }

  lemma DropTidy(w: World, t: Tid, pc: Pc, ch: Choice)
    requires (pc.DropEmpty? || pc.DropOld?) && Ready(w, t, pc, ch) && Tidy(w, t, pc)
    ensures TidyAfter(w, t, ClaimStep(w.dir, w.pids[t], pc, ch))
  {
    ShrinkTidy(w, t, pc, ClaimStep(w.dir, w.pids[t], pc, ch));
  }

  lemma DetachTidy(w: World, t: Tid, pc: Pc, ch: Choice)
    requires pc.Detach? && Ready(w, t, pc, ch) && Tidy(w, t, pc)
    ensures TidyAfter(w, t, DetachStep(w.dir, pc))
  {
    ShrinkTidy(w, t, pc, DetachStep(w.dir, pc));
  }

  lemma RetireTidy(w: World, t: Tid, pc: Pc, ch: Choice)
    requires pc.Retire? && Ready(w, t, pc, ch) && Tidy(w, t, pc)
    ensures TidyAfter(w, t, DetachStep(w.dir, pc))
  {
    if HasOwnerSlot(w.dir, pc.claim) { assert ClaimOk(w, pc.claim); }
    ShrinkTidy(w, t, pc, DetachStep(w.dir, pc));
  }

  lemma LeafTidy(w: World, t: Tid, pc: Pc, ch: Choice)
    requires pc.Leaf? && Ready(w, t, pc, ch) && Tidy(w, t, pc)
    ensures TidyAfter(w, t, LeafStep(w.dir, pc))
  {
    ShrinkTidy(w, t, pc, LeafStep(w.dir, pc));
  }

  lemma TransferTidy(w: World, t: Tid, pc: Pc, ch: Choice)
    requires Transfers(pc) && Ready(w, t, pc, ch) && Tidy(w, t, pc)
    ensures TidyAfter(w, t, StepOf(w.dir, w.pids[t], w.crashed, pc, ch))
  {
    var e := StepOf(w.dir, w.pids[t], w.crashed, pc, ch);
    if pc.Detach? {
      assert e == DetachStep(w.dir, pc);
      DetachTidy(w, t, pc, ch);
    } else if pc.Retire? {
      assert e == DetachStep(w.dir, pc);
      RetireTidy(w, t, pc, ch);
    } else if pc.Leaf? {
      assert e == LeafStep(w.dir, pc);
      LeafTidy(w, t, pc, ch);
    } else if pc.PublishClaim? {
      PublishClaimTidy(w, t, pc, ch);
    } else if pc.Fill? {
      FillTidy(w, t, pc, ch);
    } else {
      assert e == ClaimStep(w.dir, w.pids[t], pc, ch);
      DropTidy(w, t, pc, ch);
    }
  }

  lemma ActTidy(w: World, t: Tid, pc: Pc, ch: Choice)
    requires Ready(w, t, pc, ch) && Tidy(w, t, pc)
    ensures TidyAfter(w, t, StepOf(w.dir, w.pids[t], w.crashed, pc, ch))
  {
    if Transfers(pc) {
      TransferTidy(w, t, pc, ch);
    } else if Scans(pc) {
      ScanTidy(w, t, pc, ch);
    } else if pc.PublishOwner? {
      PublishOwnerTidy(w, t, pc, ch);
    } else if pc.Publish? || pc.Discard? {
      PublishTidy(w, t, pc, ch);
    } else if pc.Idle? || pc.Verify? || pc.InOp? || pc.Release? || pc.Wait? || pc.Failed? {
      HolderTidy(w, t, pc, ch);
    } else {
      SweepTidy(w, t, pc, ch);
    }
  }

  // ----- every reachable state -----

  ghost predicate AllTidy(s: State) {
    Inv(s) && forall t :: t in s.pcs && Live(s.world, t) ==> Tidy(s.world, t, s.pcs[t])
  }

  lemma SparedTidy(w: World, v: World, u: Tid, pc: Pc)
    requires DirOk(w) && Tidy(w, u, pc) && Stable(w, v) && Spares(w, v, u)
    ensures Tidy(v, u, pc)
  {
  }

  lemma ActAllTidy(s: State, t: Tid, ch: Choice)
    requires AllTidy(s) && Enabled(s, Act(t, ch))
    ensures AllTidy(Next(s, Act(t, ch)))
  {
    var w, s' := s.world, Next(s, Act(t, ch));
    NextKeeps(s, Act(t, ch));
    ActKeeps(w, t, s.pcs[t], ch);
    ActTidy(w, t, s.pcs[t], ch);
    forall u | u in s'.pcs && Live(s'.world, u) ensures Tidy(s'.world, u, s'.pcs[u]) {
      if u != t { SparedTidy(w, s'.world, u, s.pcs[u]); }
    }
  }

  lemma NextTidy(s: State, ev: Event)
    requires AllTidy(s)
    ensures AllTidy(Next(s, ev))
  {
    NextKeeps(s, ev);
    if Enabled(s, ev) && ev.Act? { ActAllTidy(s, ev.tid, ev.choice); }
  }

  lemma {:induction false} RunTidy(s: State, events: seq<Event>)
    requires AllTidy(s)
    ensures AllTidy(Run(s, events))
    decreases |events|
  {
    if events != [] {
      RunTidy(s, events[..|events| - 1]);
      NextTidy(Run(s, events[..|events| - 1]), events[|events| - 1]);
    }
  }

  /** In every reachable state a live thread has made no owner directory and no claim
      directory that is still there, except those it is at work on; a thread that is
      idle, waits, looks, scans, sweeps or has failed is at work on none. */
  lemma ReachableTidy(s: State, t: Tid)
    requires Reachable(s) && t in s.pcs && Live(s.world, t)
    ensures Tidy(s.world, t, s.pcs[t])
  {
    var pids: map<Tid, Pid>, events: seq<Event> :| s == Run(Start(pids), events);
    RunTidy(Start(pids), events);
  }
}
