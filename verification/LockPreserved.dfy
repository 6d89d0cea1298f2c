/** Every event of the lock machine keeps the invariant, so it holds in every
    reachable state. */
module LockPreserved {
  import opened Wrappers
  import opened LockDirectory
  import opened CheckoutLock
  import opened LockInvariant
  import opened LockSteps

  /** The effect keeps the directory, the role of its thread and everybody
      else's. */
  ghost predicate Keeps(w: World, t: Tid, e: Effect) {
    var v := Apply(w, t, e);
    DirOk(v) && RelyAll(w, v, t) && Role(v, t, e.pc)
  }

  ghost predicate Ready(w: World, t: Tid, pc: Pc, ch: Choice) {
    && DirOk(w) && Live(w, t) && Role(w, t, pc)
    && (pc.PublishOwner? || pc.PublishClaim? ==> ch.nonce !in w.makers)
  }

  /** A call that only reads. */
  lemma QuietKeeps(w: World, t: Tid, e: Effect)
    requires DirOk(w) && e == Go(w.dir, e.pc) && Role(w, t, e.pc)
    ensures Keeps(w, t, e)
  {
    assert Apply(w, t, e) == w;
  }

  /** A call that moves or removes names without drawing an identifier. */
  lemma MoveKeeps(w: World, t: Tid, e: Effect, v: World)
    requires e.drawn == {} && v == Changed(w, t, e.dir, {}, e.fills)
    requires DirOk(v) && RelyAll(w, v, t) && Role(v, t, e.pc)
    ensures Keeps(w, t, e)
  {
    assert Apply(w, t, e) == v;
  }

  lemma RemovalKeeps(w: World, t: Tid, e: Effect, c: ClaimId)
    requires DirOk(w) && MayRetire(w, t, c)
    requires e == Go(e.dir, e.pc) && Sheds(w.dir, e.dir, c) && Role(w.(dir := e.dir), t, e.pc)
    ensures Keeps(w, t, e)
  {
    ShedKeepsDir(w, t, c, e.dir);
    ShedKeepsRely(w, t, c, e.dir);
    assert Changed(w, t, e.dir, {}, {}) == w.(dir := e.dir);
  }

  lemma ProbeRole(w: World, t: Tid, pc: Pc, ch: Choice)
    requires pc.ProbeOwner? && Ready(w, t, pc, ch)
    ensures var e := ClassifyStep(w.dir, w.crashed, pc, ch); e == Go(w.dir, e.pc) && Role(w, t, e.pc)
  {
    if pc.gen in w.dir.owners { assert OwnerOk(w, pc.gen); }
  }

  lemma ClassifyRole(w: World, t: Tid, pc: Pc, ch: Choice)
    requires pc.Look? || pc.ReadTarget? || pc.OpenScan? || pc.Scan? || pc.Settle?
    requires Ready(w, t, pc, ch)
    ensures var e := ClassifyStep(w.dir, w.crashed, pc, ch); e == Go(w.dir, e.pc) && Role(w, t, e.pc)
  {
  }

  lemma ClassifyKeeps(w: World, t: Tid, pc: Pc, ch: Choice)
    requires pc.Look? || pc.ReadTarget? || pc.ProbeOwner? || pc.OpenScan? || pc.Scan? || pc.Settle?
    requires Ready(w, t, pc, ch)
    ensures Keeps(w, t, ClassifyStep(w.dir, w.crashed, pc, ch))
  {
    if pc.ProbeOwner? { ProbeRole(w, t, pc, ch); } else { ClassifyRole(w, t, pc, ch); }
    QuietKeeps(w, t, ClassifyStep(w.dir, w.crashed, pc, ch));
  }

  lemma VisitKeeps(w: World, t: Tid, pc: Pc, ch: Choice)
    requires pc.Visit? && Ready(w, t, pc, ch)
    ensures Keeps(w, t, VisitStep(w.dir, w.crashed, pc, ch))
  {
    QuietKeeps(w, t, VisitStep(w.dir, w.crashed, pc, ch));
  }

  lemma RecheckOwnerKeeps(w: World, t: Tid, pc: Pc, ch: Choice)
    requires pc.RecheckOwner? && Ready(w, t, pc, ch)
    ensures Keeps(w, t, RecheckStep(w.dir, w.crashed, pc, ch))
  {
    QuietKeeps(w, t, RecheckStep(w.dir, w.crashed, pc, ch));
  }

  lemma RecheckClaimKeeps(w: World, t: Tid, pc: Pc, ch: Choice)
    requires pc.RecheckClaim? && Ready(w, t, pc, ch)
    ensures Keeps(w, t, RecheckStep(w.dir, w.crashed, pc, ch))
  {
    QuietKeeps(w, t, RecheckStep(w.dir, w.crashed, pc, ch));
  }

  lemma SweepVisitRole(w: World, t: Tid, pc: Pc, ch: Choice)
    requires pc.SweepVisit? && Ready(w, t, pc, ch)
    ensures var e := SweepStep(w.dir, w.crashed, pc, ch); e == Go(w.dir, e.pc) && Role(w, t, e.pc)
  {
  }

  lemma SweepVisitKeeps(w: World, t: Tid, pc: Pc, ch: Choice)
    requires pc.SweepVisit? && Ready(w, t, pc, ch)
    ensures Keeps(w, t, SweepStep(w.dir, w.crashed, pc, ch))
  {
    SweepVisitRole(w, t, pc, ch);
    QuietKeeps(w, t, SweepStep(w.dir, w.crashed, pc, ch));
  }

  lemma SweepKeeps(w: World, t: Tid, pc: Pc, ch: Choice)
    requires pc.SweepBegin? || pc.SweepOpen? || pc.Sweep? || pc.SweepFault? || pc.SweepEnd?
    requires Ready(w, t, pc, ch)
    ensures Keeps(w, t, SweepStep(w.dir, w.crashed, pc, ch))
  {
    QuietKeeps(w, t, SweepStep(w.dir, w.crashed, pc, ch));
  }

  lemma PublishClaimKeeps(w: World, t: Tid, pc: Pc, ch: Choice)
    requires pc.PublishClaim? && Ready(w, t, pc, ch)
    ensures Keeps(w, t, ClaimStep(w.dir, w.pids[t], pc, ch))
  {
    var c := ClaimId(pc.gen, ch.nonce);
    DrawClaimKeepsDir(w, t, c);
    DrawClaimKeepsRely(w, t, c);
  }

  lemma FillOwnerKeeps(w: World, t: Tid, pc: Pc, ch: Choice)
    requires pc.Fill? && pc.k != 0 && pc.source.FromOwner? && Ready(w, t, pc, ch)
    ensures Keeps(w, t, ClaimStep(w.dir, w.pids[t], pc, ch))
  {
    var c, e := pc.claim, ClaimStep(w.dir, w.pids[t], pc, ch);
    if c.owner in w.dir.owners {
      ClaimOwnerKeepsDir(w, t, c, pc.ctx);
      ClaimOwnerKeepsRely(w, t, c, pc.ctx);
      MoveKeeps(w, t, e, Changed(w, t, e.dir, {}, {c}));
    } else {
      QuietKeeps(w, t, e);
    }
  }

  lemma TakeOverKeeps(w: World, t: Tid, prior: ClaimId, c: ClaimId, e: Effect)
    requires DirOk(w) && Live(w, t) && OwnEmpty(w, t, c, true) && SourceOk(w, t, c.owner, FromClaim(prior), Recovering)
    requires HasOwnerSlot(w.dir, prior) && RenameClaimToClaim(w.dir, prior, c) == Some(e.dir)
    requires e == Effect(e.dir, DropOld(prior, c, 0), {}, {c})
    ensures Keeps(w, t, e)
  {
    TakeOverKeepsDir(w, t, prior, c);
    TakeOverKeepsRely(w, t, prior, c);
    MoveKeeps(w, t, e, Changed(w, t, e.dir, {}, {c}));
  }

  lemma FillClaimKeeps(w: World, t: Tid, pc: Pc, ch: Choice)
    requires pc.Fill? && pc.k != 0 && pc.source.FromClaim? && Ready(w, t, pc, ch)
    ensures Keeps(w, t, ClaimStep(w.dir, w.pids[t], pc, ch))
  {
    var prior, e := pc.source.prior, ClaimStep(w.dir, w.pids[t], pc, ch);
    if HasOwnerSlot(w.dir, prior) {
      TakeOverKeeps(w, t, prior, pc.claim, e);
    } else {
      QuietKeeps(w, t, e);
    }
  }

  lemma FillKeeps(w: World, t: Tid, pc: Pc, ch: Choice)
    requires pc.Fill? && Ready(w, t, pc, ch)
    ensures Keeps(w, t, ClaimStep(w.dir, w.pids[t], pc, ch))
  {
    if pc.k == 0 {
      QuietKeeps(w, t, ClaimStep(w.dir, w.pids[t], pc, ch));
    } else if pc.source.FromOwner? {
      FillOwnerKeeps(w, t, pc, ch);
    } else {
      FillClaimKeeps(w, t, pc, ch);
    }
  }

  lemma DropEmptyKeeps(w: World, t: Tid, pc: Pc, ch: Choice)
    requires pc.DropEmpty? && Ready(w, t, pc, ch)
    ensures Keeps(w, t, ClaimStep(w.dir, w.pids[t], pc, ch))
  {
    var e := ClaimStep(w.dir, w.pids[t], pc, ch);
    if pc.k < 2 { QuietKeeps(w, t, e); } else { RemovalKeeps(w, t, e, pc.claim); }
  }

  lemma DropOldKeeps(w: World, t: Tid, pc: Pc, ch: Choice)
    requires pc.DropOld? && Ready(w, t, pc, ch)
    ensures Keeps(w, t, ClaimStep(w.dir, w.pids[t], pc, ch))
  {
    var e := ClaimStep(w.dir, w.pids[t], pc, ch);
    if e.dir == w.dir { QuietKeeps(w, t, e); } else { RemovalKeeps(w, t, e, pc.prior); }
  }

  lemma DetachCheckRole(w: World, t: Tid, pc: Pc)
    requires DirOk(w) && pc.Detach? && Role(w, t, pc) && pc.k != 6
    ensures var e := DetachStep(w.dir, pc); e == Go(w.dir, e.pc) && Role(w, t, e.pc)
  {
    assert ClaimOk(w, pc.claim);
  }

  lemma DetachMoveKeeps(w: World, t: Tid, c: ClaimId, ctx: Ctx, e: Effect)
    requires DirOk(w) && Live(w, t) && Role(w, t, Detach(c, ctx, 6))
    requires e == Go(e.dir, Detach(c, ctx, 7)) && RenameCanonicalToTomb(w.dir, c) == Some(e.dir)
    ensures Keeps(w, t, e)
  {
    DetachKeepsDir(w, t, c);
    DetachKeepsRely(w, t, c);
    MoveKeeps(w, t, e, Changed(w, t, e.dir, {}, {}));
  }

  lemma DetachMoves(w: World, t: Tid, pc: Pc)
    requires DirOk(w) && Live(w, t) && pc.Detach? && pc.k == 6 && Role(w, t, pc)
    ensures var e := DetachStep(w.dir, pc);
      e == Go(e.dir, Detach(pc.claim, pc.ctx, 7)) && RenameCanonicalToTomb(w.dir, pc.claim) == Some(e.dir)
  {
    DetachKeepsDir(w, t, pc.claim);
  }

  lemma DetachStepKeeps(w: World, t: Tid, pc: Pc, ch: Choice)
    requires pc.Detach? && Ready(w, t, pc, ch)
    ensures Keeps(w, t, DetachStep(w.dir, pc))
  {
    var e := DetachStep(w.dir, pc);
    if pc.k == 6 {
      DetachMoves(w, t, pc);
      DetachMoveKeeps(w, t, pc.claim, pc.ctx, e);
    } else {
      DetachCheckRole(w, t, pc);
      QuietKeeps(w, t, e);
    }
  }

  lemma RetireRole(w: World, t: Tid, c: ClaimId, ctx: Ctx)
    requires DirOk(w) && Role(w, t, Retire(c, ctx, 6)) && HasOwnerSlot(w.dir, c)
    ensures MayRetire(w, t, c) && SlotTombstoned(w.dir, c)
    ensures var d := RenameOwnerToRetired(w.dir, c); d.Some? && Role(w.(dir := d.value), t, Leaf(c, ctx, 0))
  {
    assert ClaimOk(w, c);
  }

  lemma RetireMoveKeeps(w: World, t: Tid, c: ClaimId, ctx: Ctx, e: Effect)
    requires DirOk(w) && Live(w, t) && Role(w, t, Retire(c, ctx, 6)) && HasOwnerSlot(w.dir, c)
    requires e == Go(e.dir, Leaf(c, ctx, 0)) && RenameOwnerToRetired(w.dir, c) == Some(e.dir)
    ensures Keeps(w, t, e)
  {
    RetireRole(w, t, c, ctx);
    RetireKeepsDir(w, t, c);
    RetireKeepsRely(w, t, c);
    assert Changed(w, t, e.dir, {}, {}) == w.(dir := e.dir);
    MoveKeeps(w, t, e, w.(dir := e.dir));
  }

  lemma RetireCheckRole(w: World, t: Tid, pc: Pc)
    requires DirOk(w) && pc.Retire? && Role(w, t, pc) && !(pc.k == 6 && HasOwnerSlot(w.dir, pc.claim))
    ensures var e := DetachStep(w.dir, pc); e == Go(w.dir, e.pc) && Role(w, t, e.pc)
  {
  }

  lemma RetireStepKeeps(w: World, t: Tid, pc: Pc, ch: Choice)
    requires pc.Retire? && Ready(w, t, pc, ch)
    ensures Keeps(w, t, DetachStep(w.dir, pc))
  {
    if pc.k == 6 && HasOwnerSlot(w.dir, pc.claim) {
      RetireMoveKeeps(w, t, pc.claim, pc.ctx, DetachStep(w.dir, pc));
    } else {
      RetireCheckRole(w, t, pc);
      QuietKeeps(w, t, DetachStep(w.dir, pc));
    }
  }

  lemma LeafRole(w: World, t: Tid, pc: Pc)
    requires pc.Leaf? && Live(w, t) && Role(w, t, pc)
    ensures var e := LeafStep(w.dir, pc);
      && e == Go(e.dir, e.pc)
      && (e.dir == w.dir || Sheds(w.dir, e.dir, pc.claim))
      && Role(w.(dir := e.dir), t, e.pc)
  {
  }

  lemma LeafKeeps(w: World, t: Tid, pc: Pc, ch: Choice)
    requires pc.Leaf? && Ready(w, t, pc, ch)
    ensures Keeps(w, t, LeafStep(w.dir, pc))
  {
    var e := LeafStep(w.dir, pc);
    LeafRole(w, t, pc);
    if e.dir == w.dir { QuietKeeps(w, t, e); } else { RemovalKeeps(w, t, e, pc.claim); }
  }

  lemma PublishKeeps(w: World, t: Tid, pc: Pc, ch: Choice)
    requires pc.PublishOwner? || pc.Publish?
    requires Ready(w, t, pc, ch)
    ensures Keeps(w, t, AcquireStep(w.dir, w.pids[t], pc, ch))
  {
    var e := AcquireStep(w.dir, w.pids[t], pc, ch);
    if pc.PublishOwner? {
      DrawOwnerKeepsDir(w, t, ch.nonce);
      DrawOwnerKeepsRely(w, t, ch.nonce);
    } else if w.dir.canonical.Absent? {
      SymlinkKeepsDir(w, t, pc.gen);
      SymlinkKeepsRely(w, t, pc.gen);
      MoveKeeps(w, t, e, Changed(w, t, e.dir, {}, {}));
    } else {
      QuietKeeps(w, t, e);
    }
  }

  lemma DiscardStepKeeps(w: World, t: Tid, pc: Pc, ch: Choice)
    requires pc.Discard? && Ready(w, t, pc, ch)
    ensures Keeps(w, t, AcquireStep(w.dir, w.pids[t], pc, ch))
  {
    var e := AcquireStep(w.dir, w.pids[t], pc, ch);
    if pc.k >= 2 {
      DiscardKeepsDir(w, t, pc.gen, pc.k == 2);
      DiscardKeepsRely(w, t, pc.gen, pc.k == 2);
      MoveKeeps(w, t, e, Changed(w, t, e.dir, {}, {}));
    } else {
      QuietKeeps(w, t, e);
    }
  }

  lemma HolderRole(w: World, t: Tid, pc: Pc, ch: Choice)
    requires pc.Verify? || pc.InOp?
    requires Ready(w, t, pc, ch)
    ensures var e := AcquireStep(w.dir, w.pids[t], pc, ch); e == Go(w.dir, e.pc) && Role(w, t, e.pc)
  {
  }

  lemma ReleaseRole(w: World, t: Tid, pc: Pc, ch: Choice)
    requires pc.Release? && Ready(w, t, pc, ch)
    ensures var e := AcquireStep(w.dir, w.pids[t], pc, ch); e == Go(w.dir, e.pc) && Role(w, t, e.pc)
  {
  }

  lemma OutsideRole(w: World, t: Tid, pc: Pc, ch: Choice)
    requires pc.Idle? || pc.Wait? || pc.Failed?
    requires Ready(w, t, pc, ch)
    ensures var e := AcquireStep(w.dir, w.pids[t], pc, ch); e == Go(w.dir, e.pc) && Role(w, t, e.pc)
  {
  }

  lemma HolderKeeps(w: World, t: Tid, pc: Pc, ch: Choice)
    requires pc.Idle? || pc.Verify? || pc.InOp? || pc.Release? || pc.Wait? || pc.Failed?
    requires Ready(w, t, pc, ch)
    ensures Keeps(w, t, AcquireStep(w.dir, w.pids[t], pc, ch))
  {
    if pc.Verify? || pc.InOp? {
      HolderRole(w, t, pc, ch);
    } else if pc.Release? {
      ReleaseRole(w, t, pc, ch);
    } else {
      OutsideRole(w, t, pc, ch);
    }
    QuietKeeps(w, t, AcquireStep(w.dir, w.pids[t], pc, ch));
  }

  /** The calls that scan and check, and those that transfer a claim. */
  ghost predicate Transfers(pc: Pc) {
    pc.PublishClaim? || pc.Fill? || pc.DropEmpty? || pc.DropOld? || pc.Detach? || pc.Retire? || pc.Leaf?
  }

  lemma ClaimingKeeps(w: World, t: Tid, pc: Pc, ch: Choice)
    requires pc.PublishClaim? || pc.Fill? || pc.DropEmpty? || pc.DropOld?
    requires Ready(w, t, pc, ch)
    ensures Keeps(w, t, ClaimStep(w.dir, w.pids[t], pc, ch))
  {
    if pc.PublishClaim? {
      PublishClaimKeeps(w, t, pc, ch);
    } else if pc.Fill? {
      FillKeeps(w, t, pc, ch);
    } else if pc.DropEmpty? {
      DropEmptyKeeps(w, t, pc, ch);
    } else {
      DropOldKeeps(w, t, pc, ch);
    }
  }

  lemma DetachingKeeps(w: World, t: Tid, pc: Pc, ch: Choice)
    requires pc.Detach? || pc.Retire?
    requires Ready(w, t, pc, ch)
    ensures Keeps(w, t, DetachStep(w.dir, pc))
  {
    if pc.Detach? { DetachStepKeeps(w, t, pc, ch); } else { RetireStepKeeps(w, t, pc, ch); }
  }

  lemma TransferKeeps(w: World, t: Tid, pc: Pc, ch: Choice)
    requires Transfers(pc) && Ready(w, t, pc, ch)
    ensures Keeps(w, t, StepOf(w.dir, w.pids[t], w.crashed, pc, ch))
  {
    var e := StepOf(w.dir, w.pids[t], w.crashed, pc, ch);
    if pc.Detach? || pc.Retire? {
      assert e == DetachStep(w.dir, pc);
      DetachingKeeps(w, t, pc, ch);
    } else if pc.Leaf? {
      assert e == LeafStep(w.dir, pc);
      LeafKeeps(w, t, pc, ch);
    } else {
      assert e == ClaimStep(w.dir, w.pids[t], pc, ch);
      ClaimingKeeps(w, t, pc, ch);
    }
  }

  ghost predicate Scans(pc: Pc) {
    || pc.Look? || pc.ReadTarget? || pc.ProbeOwner? || pc.OpenScan? || pc.Scan? || pc.Settle? || pc.Visit?
    || pc.RecheckOwner? || pc.RecheckClaim?
  }

  lemma ScanKeeps(w: World, t: Tid, pc: Pc, ch: Choice)
    requires Scans(pc) && Ready(w, t, pc, ch)
    ensures Keeps(w, t, StepOf(w.dir, w.pids[t], w.crashed, pc, ch))
  {
    match pc
    case Visit(_, _, _, _, _, _) => VisitKeeps(w, t, pc, ch);
    case RecheckOwner(_, _, _) => RecheckOwnerKeeps(w, t, pc, ch);
    case RecheckClaim(_, _, _) => RecheckClaimKeeps(w, t, pc, ch);
    case _ => ClassifyKeeps(w, t, pc, ch);
  }

  lemma OtherKeeps(w: World, t: Tid, pc: Pc, ch: Choice)
    requires !Transfers(pc) && !Scans(pc) && Ready(w, t, pc, ch)
    ensures Keeps(w, t, StepOf(w.dir, w.pids[t], w.crashed, pc, ch))
  {
    match pc
    case SweepVisit(_, _, _, _) => SweepVisitKeeps(w, t, pc, ch);
    case SweepBegin | SweepOpen | Sweep(_) | SweepFault(_, _, _) | SweepEnd => SweepKeeps(w, t, pc, ch);
    case PublishOwner | Publish(_) => PublishKeeps(w, t, pc, ch);
    case Discard(_, _) => DiscardStepKeeps(w, t, pc, ch);
    case _ => HolderKeeps(w, t, pc, ch);
  }

  lemma ActKeeps(w: World, t: Tid, pc: Pc, ch: Choice)
    requires Ready(w, t, pc, ch)
    ensures Keeps(w, t, StepOf(w.dir, w.pids[t], w.crashed, pc, ch))
  {
    if Transfers(pc) {
      TransferKeeps(w, t, pc, ch);
    } else if Scans(pc) {
      ScanKeeps(w, t, pc, ch);
    } else {
      OtherKeeps(w, t, pc, ch);
    }
  }

  /** A legacy installer moves the canonical name between absent and its own
      directory; no v1 generation is involved. */
  lemma LegacyKeeps(w: World, canonical: Canon)
    requires DirOk(w) && !w.dir.canonical.Link? && !canonical.Link?
    ensures var v := SetCanonical(w, canonical); DirOk(v) && forall u :: Rely(w, v, u)
  {
  }

  lemma CrashKeeps(w: World, p: Pid)
    requires DirOk(w)
    ensures DirOk(w.(crashed := w.crashed + {p}))
  {
  }

  lemma CrashRole(w: World, p: Pid, t: Tid, pc: Pc)
    requires Role(w, t, pc)
    ensures Role(w.(crashed := w.crashed + {p}), t, pc)
  {
  }

  lemma ActInv(s: State, t: Tid, ch: Choice)
    requires Inv(s) && Enabled(s, Act(t, ch))
    ensures Inv(Next(s, Act(t, ch)))
  {
    var w, s' := s.world, Next(s, Act(t, ch));
    ActKeeps(w, t, s.pcs[t], ch);
    forall u | u in s'.pcs && Live(s'.world, u) ensures Role(s'.world, u, s'.pcs[u]) {
      if u != t { RoleKept(w, s'.world, u, s.pcs[u]); }
    }
  }

  lemma NextKeeps(s: State, ev: Event)
    requires Inv(s)
    ensures Inv(Next(s, ev))
  {
    var w, s' := s.world, Next(s, ev);
    if !Enabled(s, ev) { return; }
    match ev
    case Act(t, ch) => ActInv(s, t, ch);
    case Crash(p) =>
      CrashKeeps(w, p);
      forall u | u in s.pcs && Live(s'.world, u) ensures Role(s'.world, u, s.pcs[u]) { CrashRole(w, p, u, s.pcs[u]); }
    case LegacyTake | LegacyDrop =>
      if s'.world != w {
        LegacyKeeps(w, s'.world.dir.canonical);
        forall u | u in s.pcs && Live(w, u) ensures Role(s'.world, u, s.pcs[u]) { RoleKept(w, s'.world, u, s.pcs[u]); }
      }
  }

  lemma {:induction false} RunKeeps(s: State, events: seq<Event>)
    requires Inv(s)
    ensures Inv(Run(s, events))
    decreases |events|
  {
    if events == [] {
    } else {
      RunKeeps(s, events[..|events| - 1]);
      NextKeeps(Run(s, events[..|events| - 1]), events[|events| - 1]);
    }
  }

  /** The invariant holds in every reachable state. */
  lemma ReachableInv(s: State)
    requires Reachable(s)
    ensures Inv(s)
  {
    var pids: map<Tid, Pid>, events: seq<Event> :| s == Run(Start(pids), events);
    RunKeeps(Start(pids), events);
  }
}
