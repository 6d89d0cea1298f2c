/** Crash recovery: a thread that makes calls while the others pause, none of them
    alive with its generation on the name, acquires the lock within two passes of
    the acquire loop, and so even with a timeout of zero -- it never reaches the
    deadline check or an error. */
module LockRecovery {
  import opened Wrappers
  import opened LockDirectory
  import opened CheckoutLock
  import opened LockInvariant
  import opened LockSteps
  import opened LockPreserved
  import opened LockClean
  import opened LockTheorems

  /** Nobody else alive has the name: the generation on it, and the claim that holds
      that generation, are this thread's or a dead one's. */
  ghost predicate Unopposed(w: World, t: Tid) {
    && Live(w, t)
    && (forall n :: w.dir.canonical == Link(n) ==> Mine(w, t, n) || Dead(w, n))
    && (forall c :: HasOwnerSlot(w.dir, c) && w.dir.canonical == Link(c.owner) ==> Mine(w, t, c.nonce) || Dead(w, c.nonce))
  }

  function Entries(d: Dir, n: Nonce): set<ClaimId> { set c | c in d.claims && c.owner == n }

  predicate BearsOf(d: Dir, n: Nonce, c: ClaimId) { HasOwnerSlot(d, c) && c.owner == n }

  /** The scan so far accepted exactly the owner-bearing claims it passed. */
  ghost predicate ScanExact(d: Dir, n: Nonce, seen: set<ClaimId>, found: seq<Found>) {
    && |found| <= 1
    && (forall f :: f in found ==> BearsOf(d, n, f.claim) && f.claim in seen && f.dead)
    && (forall c :: c in seen && BearsOf(d, n, c) ==> |found| == 1)
  }

  ghost predicate Dangling(d: Dir, n: Nonce) { d.canonical == Link(n) && n !in d.owners }

  ghost predicate SourceThere(d: Dir, n: Nonce, source: Source, ctx: Ctx) {
    && ctx.Recovering? && d.canonical == Link(n)
    && match source case FromOwner => n in d.owners case FromClaim(prior) => HasOwnerSlot(d, prior)
  }

  /** None of these claims of dead claimants still has an owner directory. */
  ghost predicate Swept(w: World, claims: set<ClaimId>) {
    forall c :: c in claims && HasOwnerSlot(w.dir, c) ==> !Dead(w, c.nonce)
  }

  ghost predicate AllSwept(w: World) { forall c :: HasOwnerSlot(w.dir, c) ==> !Dead(w, c.nonce) }

  /** What a lone thread knows on top of its role: every check it is about to
      make will pass. */
  ghost predicate OnCourse(w: World, t: Tid, pc: Pc) {
    var d := w.dir;
    match pc
    case Look => !d.canonical.Legacy?
    case ReadTarget => d.canonical.Link?
    case ProbeOwner(n, k, _) => d.canonical == Link(n) && k <= 3 && (k >= 1 ==> n in d.owners)
    case OpenScan(n) => Dangling(d, n)
    case Scan(n, cursor, found) =>
      Dangling(d, n) && cursor.snapshot == Entries(d, n) && ScanExact(d, n, cursor.seen, found)
    case Visit(n, cursor, found, c, k, h) =>
      && Dangling(d, n) && cursor.snapshot == Entries(d, n) && ScanExact(d, n, cursor.seen - {c}, found)
      && c in cursor.seen && k <= 5 && (k >= 1 ==> BearsOf(d, n, c)) && (k >= 3 ==> Wrote(w, c.nonce, h))
    case Settle(n, found) => Dangling(d, n) && |found| == 1 && BearsOf(d, n, found[0].claim) && found[0].dead
    case RecheckOwner(n, k, _) => d.canonical == Link(n) && n in d.owners && k <= 2
    case RecheckClaim(c, k, _) => d.canonical == Link(c.owner) && HasOwnerSlot(d, c) && k <= 5
    case PublishClaim(n, source, ctx) => SourceThere(d, n, source, ctx)
    case Fill(c, source, ctx, _) => SourceThere(d, c.owner, source, ctx)
    case DropOld(_, _, _) => true
    case Detach(_, ctx, k) => ctx.Recovering? && (k == 7 ==> d.canonical.Absent?)
    case Retire(c, ctx, _) =>
      && d.canonical.Absent? && !ctx.Releasing?
      && (ctx.Sweeping? ==>
            d.claims.Keys <= ctx.cursor.snapshot && HasOwnerSlot(d, c) && Swept(w, ctx.cursor.seen - {c}))
    case Leaf(c, ctx, k) =>
      && d.canonical.Absent? && !ctx.Releasing?
      && (ctx.Sweeping? ==> d.claims.Keys <= ctx.cursor.snapshot && LeafShape(d, c, k) && Swept(w, ctx.cursor.seen))
    case Sweep(cursor) => d.canonical.Absent? && d.claims.Keys <= cursor.snapshot && Swept(w, cursor.seen)
    case SweepVisit(cursor, c, k, _) =>
      && d.canonical.Absent? && d.claims.Keys <= cursor.snapshot && Swept(w, cursor.seen - {c})
      && k <= 6 && (k >= 1 ==> HasOwnerSlot(d, c))
    case SweepBegin | SweepOpen => d.canonical.Absent?
    case SweepEnd | PublishOwner | Publish(_) => d.canonical.Absent? && AllSwept(w)
    case Verify(_, k) => k <= 1 && AllSwept(w)
    case InOp(_) => AllSwept(w)
    case _ => false
  }

  function Left(cursor: Cursor): nat { |cursor.snapshot - cursor.seen| }

  /** A bound on the calls a lone thread makes before it holds the lock. */
  function Rank(d: Dir, pc: Pc): nat {
    var size := |d.claims|;
    match pc
    case Look => if d.canonical.Link? then 35 * size + 240 else 25 * size + 13
    case ReadTarget => 35 * size + 239
    case ProbeOwner(_, k, _) => if k <= 3 then 35 * size + 238 - k else 0
    case OpenScan(_) => 35 * size + 231
    case Scan(_, cursor, _) => 25 * size + 10 * Left(cursor) + 230
    case Visit(_, cursor, _, _, k, _) => if k <= 5 then 25 * size + 10 * Left(cursor) + 239 - k else 0
    case Settle(_, _) => 25 * size + 229
    case RecheckOwner(_, k, _) => if k <= 2 then 25 * size + 228 - k else 0
    case RecheckClaim(_, k, _) => if k <= 5 then 25 * size + 228 - k else 0
    case PublishClaim(_, _, _) => 25 * size + 222
    case Fill(_, _, _, k) => if k <= 1 then 25 * size + 190 - k else 0
    case DropOld(_, _, k) => if k <= 3 then 25 * size + 180 - k else 25 * size + 176
    case Detach(_, _, k) => if k <= 7 then 25 * size + 170 - k else 0
    case Retire(_, Sweeping(cursor), k) => if k <= 6 then 25 * Left(cursor) + 26 - k else 0
    case Retire(_, _, k) => if k <= 6 then 25 * size + 160 - k else 0
    case Leaf(_, Sweeping(cursor), k) => if k <= 5 then 25 * Left(cursor) + 19 - k else 0
    case Leaf(_, _, k) => if k <= 5 then 25 * size + 150 - k else 0
    case SweepBegin => 25 * size + 12
    case SweepOpen => 25 * size + 11
    case Sweep(cursor) => 25 * Left(cursor) + 10
    case SweepVisit(cursor, _, k, _) => if k <= 6 then 25 * Left(cursor) + 34 - k else 0
    case SweepEnd => 9
    case PublishOwner => 8
    case Publish(_) => 7
    case Verify(_, k) => if k <= 1 then 6 - k else 0
    case _ => 0
  }

  /** The passes of the acquire loop still to begin. */
  function Passes(d: Dir, pc: Pc): nat {
    match pc
    case Look => if d.canonical.Link? then 2 else 1
    case SweepBegin | SweepOpen | Sweep(_) | SweepVisit(_, _, _, _) | SweepEnd | PublishOwner | Publish(_) | Verify(_, _)
       | InOp(_) => 0
    case Retire(_, Sweeping(_), _) => 0
    case Leaf(_, Sweeping(_), _) => 0
    case _ => 1
  }

  /** The call returns: liveness probes see the dead, and an open directory
      stream returns a name or its end. */
  predicate Answers(d: Dir, pc: Pc, ch: Choice) {
    && ch.dead
    && (pc.Scan? ==> pc.cursor.snapshot <= pc.cursor.seen || (ch.pick.owner == pc.gen && Returns(d, pc.cursor, ch.pick)))
    && (pc.Sweep? ==> pc.cursor.snapshot <= pc.cursor.seen || Returns(d, pc.cursor, ch.pick))
  }

  ghost predicate Solo(w: World, t: Tid, pc: Pc) {
    DirOk(w) && Unopposed(w, t) && Role(w, t, pc) && Clean(w, t, pc) && OnCourse(w, t, pc)
  }

  ghost predicate Fresh(w: World, pc: Pc, ch: Choice) {
    pc.PublishOwner? || pc.PublishClaim? ==> ch.nonce !in w.makers
  }

  ghost predicate Descends(d: Dir, pc: Pc, e: Dir, pc': Pc) {
    && Rank(e, pc') < Rank(d, pc)
    && Passes(e, pc') + (if pc.Look? then 1 else 0) <= Passes(d, pc)
  }

  /** One call of the lone thread stays on course, uses up some rank, and begins
      a pass of the loop only when one was left. */
  ghost predicate Advances(w: World, t: Tid, pc: Pc, e: Effect) {
    OnCourse(Apply(w, t, e), t, e.pc) && Descends(w.dir, pc, e.dir, e.pc)
  }

  lemma QuietAdvances(w: World, t: Tid, pc: Pc, e: Effect)
    requires e == Go(w.dir, e.pc) && OnCourse(w, t, e.pc) && Descends(w.dir, pc, w.dir, e.pc)
    ensures Advances(w, t, pc, e)
  {
    assert Apply(w, t, e) == w;
  }

  lemma MarkLeft(cursor: Cursor, c: ClaimId)
    requires c in cursor.snapshot && c !in cursor.seen
    ensures Left(Mark(cursor, c)) == Left(cursor) - 1
  {
    assert cursor.snapshot - (cursor.seen + {c}) == (cursor.snapshot - cursor.seen) - {c};
  }

  lemma SubsetSize<T>(a: set<T>, b: set<T>)
    requires a <= b
    ensures |a| <= |b|
  {
    assert |b| == |a| + |b - a| by { assert b == a + (b - a); }
  }

  /** A rename changes what a claim holds, not how many claims there are. */
  lemma SameSize(d: Dir, e: Dir)
    requires e.claims.Keys == d.claims.Keys
    ensures |e.claims| == |d.claims|
  {
    assert |e.claims| == |e.claims.Keys| && |d.claims| == |d.claims.Keys|;
  }

  lemma LookAdvances(w: World, t: Tid, pc: Pc, ch: Choice)
    requires pc.Look? || pc.ReadTarget? || pc.OpenScan?
    requires Solo(w, t, pc)
    ensures Advances(w, t, pc, ClassifyStep(w.dir, w.crashed, pc, ch))
  {
    if pc.OpenScan? {
      SubsetSize(Entries(w.dir, pc.gen), w.dir.claims.Keys);
      assert Cursor(Entries(w.dir, pc.gen), {}).snapshot - {} == Entries(w.dir, pc.gen);
    }
    QuietAdvances(w, t, pc, ClassifyStep(w.dir, w.crashed, pc, ch));
  }

  lemma ProbeAdvances(w: World, t: Tid, pc: Pc, ch: Choice)
    requires pc.ProbeOwner? && Solo(w, t, pc) && ch.dead
    ensures Advances(w, t, pc, ClassifyStep(w.dir, w.crashed, pc, ch))
  {
    if pc.gen in w.dir.owners { assert OwnerOk(w, pc.gen); }
    QuietAdvances(w, t, pc, ClassifyStep(w.dir, w.crashed, pc, ch));
  }

  lemma ScanAdvances(w: World, t: Tid, pc: Pc, ch: Choice)
    requires pc.Scan? && Solo(w, t, pc) && Answers(w.dir, pc, ch)
    ensures Advances(w, t, pc, ClassifyStep(w.dir, w.crashed, pc, ch))
  {
    var n, cursor := pc.gen, pc.cursor;
    if ch.pick.owner == n && Returns(w.dir, cursor, ch.pick) {
      MarkLeft(cursor, ch.pick);
      assert Mark(cursor, ch.pick).seen - {ch.pick} == cursor.seen;
    } else {
      var c :| HasOwnerSlot(w.dir, c) && c.owner == n;
      assert c in cursor.seen && BearsOf(w.dir, n, c);
      assert pc.found[0] in pc.found;
    }
    QuietAdvances(w, t, pc, ClassifyStep(w.dir, w.crashed, pc, ch));
  }

  /** While one claim bears the generation, the scan has accepted no other. */
  lemma OnlyBearer(w: World, n: Nonce, seen: set<ClaimId>, found: seq<Found>, c: ClaimId)
    requires DirOk(w) && ScanExact(w.dir, n, seen, found) && BearsOf(w.dir, n, c) && c !in seen
    ensures found == []
  {
    assert found == [] || found[0] in found;
    assert Holds(w.dir, c);
    assert forall f :: f in found ==> Holds(w.dir, f.claim) && f.claim.owner == c.owner && f.claim != c;
  }

  /** The visited claim passes every check that the scan makes. */
  lemma VisitPasses(w: World, t: Tid, pc: Pc, ch: Choice)
    requires pc.Visit? && pc.k <= 5 && DirOk(w) && Unopposed(w, t) && ch.dead && BearsOf(w.dir, pc.gen, pc.claim)
    requires w.dir.canonical == Link(pc.gen) && (pc.k >= 3 ==> Wrote(w, pc.claim.nonce, pc.holder))
    requires Mine(w, t, pc.claim.nonce) ==> Clean(w, t, pc)
    ensures var pc' := VisitStep(w.dir, w.crashed, pc, ch).pc;
      if pc.k <= 4 then
        && pc'.Visit? && pc' == Visit(pc.gen, pc.cursor, pc.found, pc.claim, pc.k + 1, pc'.holder)
        && (pc.k >= 2 ==> Wrote(w, pc.claim.nonce, pc'.holder))
      else pc' == Scan(pc.gen, pc.cursor, pc.found + [Found(pc.claim, true)])
  {
    assert ClaimOk(w, pc.claim);
  }

  lemma VisitAdvances(w: World, t: Tid, pc: Pc, ch: Choice)
    requires pc.Visit? && Solo(w, t, pc) && ch.dead
    ensures Advances(w, t, pc, VisitStep(w.dir, w.crashed, pc, ch))
  {
    var c, seen := pc.claim, pc.cursor.seen;
    assert seen == (seen - {c}) + {c};
    if BearsOf(w.dir, pc.gen, c) {
      VisitPasses(w, t, pc, ch);
      OnlyBearer(w, pc.gen, seen - {c}, pc.found, c);
    }
    QuietAdvances(w, t, pc, VisitStep(w.dir, w.crashed, pc, ch));
  }

  lemma SettleAdvances(w: World, t: Tid, pc: Pc, ch: Choice)
    requires pc.Settle? && Solo(w, t, pc)
    ensures Advances(w, t, pc, ClassifyStep(w.dir, w.crashed, pc, ch))
  {
    QuietAdvances(w, t, pc, ClassifyStep(w.dir, w.crashed, pc, ch));
  }

  lemma RecheckOwnerPasses(w: World, t: Tid, pc: Pc, ch: Choice)
    requires pc.RecheckOwner? && Solo(w, t, pc) && ch.dead
    ensures var pc' := RecheckStep(w.dir, w.crashed, pc, ch).pc;
      if pc.k < 2 then pc'.RecheckOwner? && pc'.gen == pc.gen && pc'.k == pc.k + 1
      else pc' == PublishClaim(pc.gen, FromOwner, Recovering)
  {
    assert OwnerOk(w, pc.gen);
  }

  lemma RecheckClaimPasses(w: World, t: Tid, pc: Pc, ch: Choice)
    requires pc.RecheckClaim? && Solo(w, t, pc) && ch.dead
    ensures var pc' := RecheckStep(w.dir, w.crashed, pc, ch).pc;
      if pc.k < 5 then pc'.RecheckClaim? && pc'.claim == pc.claim && pc'.k == pc.k + 1
      else pc' == PublishClaim(pc.claim.owner, FromClaim(pc.claim), Recovering)
  {
    assert ClaimOk(w, pc.claim);
  }

  lemma RecheckAdvances(w: World, t: Tid, pc: Pc, ch: Choice)
    requires pc.RecheckOwner? || pc.RecheckClaim?
    requires Solo(w, t, pc) && ch.dead
    ensures Advances(w, t, pc, RecheckStep(w.dir, w.crashed, pc, ch))
  {
    if pc.RecheckOwner? { RecheckOwnerPasses(w, t, pc, ch); } else { RecheckClaimPasses(w, t, pc, ch); }
    QuietAdvances(w, t, pc, RecheckStep(w.dir, w.crashed, pc, ch));
  }

  lemma PublishClaimAdvances(w: World, t: Tid, pc: Pc, ch: Choice)
    requires pc.PublishClaim? && Solo(w, t, pc) && Fresh(w, pc, ch)
    ensures Advances(w, t, pc, ClaimStep(w.dir, w.pids[t], pc, ch))
  {
    assert ClaimId(pc.gen, ch.nonce) !in w.dir.claims;
  }

  lemma FillPasses(w: World, t: Tid, pc: Pc, ch: Choice)
    requires pc.Fill? && Solo(w, t, pc)
    ensures var e := ClaimStep(w.dir, w.pids[t], pc, ch);
      if pc.k == 0 then e == Go(w.dir, Fill(pc.claim, pc.source, pc.ctx, 1))
      else
        && e.dir.claims.Keys == w.dir.claims.Keys
        && e.pc == if pc.source.FromOwner? then Detach(pc.claim, pc.ctx, 0) else DropOld(pc.source.prior, pc.claim, 0)
  {
  }

  /** The claim is filled: the thread detaches it or drops the claim it took from. */
  lemma FilledAdvances(w: World, t: Tid, pc: Pc, e: Effect)
    requires pc.Fill? && pc.k == 1 && pc.ctx.Recovering? && e.dir.claims.Keys == w.dir.claims.Keys
    requires e.pc == Detach(pc.claim, pc.ctx, 0) || (e.pc.DropOld? && e.pc.k == 0)
    ensures Advances(w, t, pc, e)
  {
    SameSize(w.dir, e.dir);
  }

  lemma FillBegins(w: World, t: Tid, pc: Pc)
    requires pc.Fill? && pc.k == 0 && OnCourse(w, t, pc)
    ensures Advances(w, t, pc, Go(w.dir, Fill(pc.claim, pc.source, pc.ctx, 1)))
  {
    QuietAdvances(w, t, pc, Go(w.dir, Fill(pc.claim, pc.source, pc.ctx, 1)));
  }

  lemma FillAdvances(w: World, t: Tid, pc: Pc, ch: Choice)
    requires pc.Fill? && Solo(w, t, pc)
    ensures Advances(w, t, pc, ClaimStep(w.dir, w.pids[t], pc, ch))
  {
    FillPasses(w, t, pc, ch);
    var e := ClaimStep(w.dir, w.pids[t], pc, ch);
    if pc.k == 0 { FillBegins(w, t, pc); } else { FilledAdvances(w, t, pc, e); }
  }

  lemma DropOldShrinks(d: Dir, me: Pid, pc: Pc, ch: Choice)
    requires pc.DropOld?
    ensures var e := ClaimStep(d, me, pc, ch);
      && e.dir.claims.Keys <= d.claims.Keys
      && (e.pc == Detach(pc.claim, Recovering, 0) || (e.pc == DropOld(pc.prior, pc.claim, pc.k + 1) && pc.k <= 2))
  {
  }

  lemma RankAfterDrop(d: Dir, pc: Pc, e: Dir, pc': Pc)
    requires pc.DropOld? && e.claims.Keys <= d.claims.Keys
    requires pc' == Detach(pc.claim, Recovering, 0) || (pc' == DropOld(pc.prior, pc.claim, pc.k + 1) && pc.k <= 2)
    ensures Descends(d, pc, e, pc')
  {
    SubsetSize(e.claims.Keys, d.claims.Keys);
    assert |e.claims| == |e.claims.Keys| <= |d.claims.Keys| == |d.claims|;
  }

  lemma DropOldAdvances(w: World, t: Tid, pc: Pc, ch: Choice)
    requires pc.DropOld? && t in w.pids
    ensures Advances(w, t, pc, ClaimStep(w.dir, w.pids[t], pc, ch))
  {
    var e := ClaimStep(w.dir, w.pids[t], pc, ch);
    DropOldShrinks(w.dir, w.pids[t], pc, ch);
    RankAfterDrop(w.dir, pc, e.dir, e.pc);
  }

  lemma DetachPasses(w: World, t: Tid, pc: Pc)
    requires pc.Detach? && DirOk(w) && Role(w, t, pc)
    ensures var e := DetachStep(w.dir, pc);
      if pc.k < 6 then e == Go(w.dir, Detach(pc.claim, pc.ctx, pc.k + 1))
      else if pc.k == 6 then
        && e == Go(e.dir, Detach(pc.claim, pc.ctx, 7))
        && e.dir.canonical.Absent? && e.dir.claims.Keys == w.dir.claims.Keys
      else e == Go(w.dir, Retire(pc.claim, pc.ctx, 0))
  {
    assert ClaimOk(w, pc.claim);
  }

  lemma DetachAdvances(w: World, t: Tid, pc: Pc, ch: Choice)
    requires pc.Detach? && Solo(w, t, pc)
    ensures Advances(w, t, pc, DetachStep(w.dir, pc))
  {
    DetachPasses(w, t, pc);
    var e := DetachStep(w.dir, pc);
    if pc.k == 6 { SameSize(w.dir, e.dir); } else { QuietAdvances(w, t, pc, e); }
  }

  lemma RetirePasses(w: World, t: Tid, pc: Pc)
    requires pc.Retire? && DirOk(w) && Role(w, t, pc) && OnCourse(w, t, pc)
    ensures var e := DetachStep(w.dir, pc);
      if pc.k < 6 then e == Go(w.dir, Retire(pc.claim, pc.ctx, pc.k + 1))
      else
        && e == Go(e.dir, Leaf(pc.claim, pc.ctx, 0))
        && e.dir.canonical.Absent? && e.dir.claims.Keys == w.dir.claims.Keys && LeafShape(e.dir, pc.claim, 0)
  {
    assert ClaimOk(w, pc.claim);
  }

  lemma RetireAdvances(w: World, t: Tid, pc: Pc, ch: Choice)
    requires pc.Retire? && Solo(w, t, pc)
    ensures Advances(w, t, pc, DetachStep(w.dir, pc))
  {
    RetirePasses(w, t, pc);
    var e := DetachStep(w.dir, pc);
    if pc.k == 6 { SameSize(w.dir, e.dir); } else { QuietAdvances(w, t, pc, e); }
  }

  lemma LeafShapeNext(d: Dir, pc: Pc)
    requires pc.Leaf? && pc.k <= 5 && LeafShape(d, pc.claim, pc.k)
    ensures var e := LeafStep(d, pc);
      && e == Go(e.dir, if pc.k < 5 then Leaf(pc.claim, pc.ctx, pc.k + 1) else Done(pc.ctx))
      && e.dir.canonical == d.canonical
      && e.dir.claims.Keys <= d.claims.Keys
      && (forall c :: HasOwnerSlot(e.dir, c) ==> HasOwnerSlot(d, c) && c != pc.claim)
      && (pc.k < 5 ==> LeafShape(e.dir, pc.claim, pc.k + 1))
  {
  }

  lemma LeafRank(d: Dir, pc: Pc, e: Dir)
    requires pc.Leaf? && pc.k <= 5 && !pc.ctx.Releasing? && e.claims.Keys <= d.claims.Keys && e.canonical.Absent?
    ensures Descends(d, pc, e, if pc.k < 5 then Leaf(pc.claim, pc.ctx, pc.k + 1) else Done(pc.ctx))
  {
    SubsetSize(e.claims.Keys, d.claims.Keys);
    assert |e.claims| == |e.claims.Keys| && |d.claims| == |d.claims.Keys|;
  }

  lemma LeafCourse(w: World, t: Tid, pc: Pc, v: World)
    requires pc.Leaf? && Role(w, t, pc) && OnCourse(w, t, pc)
    requires v.dir.canonical == w.dir.canonical && v.dir.claims.Keys <= w.dir.claims.Keys
    requires v.makers == w.makers && v.pids == w.pids && v.crashed == w.crashed
    requires forall c :: HasOwnerSlot(v.dir, c) ==> HasOwnerSlot(w.dir, c)
    requires pc.k < 5 ==> LeafShape(v.dir, pc.claim, pc.k + 1)
    ensures OnCourse(v, t, if pc.k < 5 then Leaf(pc.claim, pc.ctx, pc.k + 1) else Done(pc.ctx))
  {
  }

  lemma LeafAdvances(w: World, t: Tid, pc: Pc, ch: Choice)
    requires pc.Leaf? && Solo(w, t, pc)
    ensures Advances(w, t, pc, LeafStep(w.dir, pc))
  {
    var e := LeafStep(w.dir, pc);
    LeafShapeNext(w.dir, pc);
    assert Apply(w, t, e).makers == w.makers;
    LeafCourse(w, t, pc, Apply(w, t, e));
    LeafRank(w.dir, pc, e.dir);
  }

  lemma SweepReadAdvances(w: World, t: Tid, pc: Pc, ch: Choice)
    requires pc.Sweep? && Solo(w, t, pc) && Answers(w.dir, pc, ch)
    ensures Advances(w, t, pc, SweepStep(w.dir, w.crashed, pc, ch))
  {
    if Returns(w.dir, pc.cursor, ch.pick) { MarkLeft(pc.cursor, ch.pick); }
    QuietAdvances(w, t, pc, SweepStep(w.dir, w.crashed, pc, ch));
  }

  lemma SweepAdvances(w: World, t: Tid, pc: Pc, ch: Choice)
    requires pc.SweepBegin? || pc.SweepOpen? || pc.SweepEnd?
    requires Solo(w, t, pc)
    ensures Advances(w, t, pc, SweepStep(w.dir, w.crashed, pc, ch))
  {
    if pc.SweepOpen? { assert w.dir.claims.Keys - {} == w.dir.claims.Keys; }
    QuietAdvances(w, t, pc, SweepStep(w.dir, w.crashed, pc, ch));
  }

  /** A detached claim passes every check that the sweep makes, and is then retired
      if its claimant is dead and passed over if not. */
  lemma SweepVisitPasses(w: World, t: Tid, pc: Pc, ch: Choice)
    requires pc.SweepVisit? && pc.k <= 6 && DirOk(w) && Role(w, t, pc)
    requires HasOwnerSlot(w.dir, pc.claim) && w.dir.canonical.Absent?
    ensures var pc' := SweepStep(w.dir, w.crashed, pc, ch).pc;
      if pc.k <= 5 then pc'.SweepVisit? && pc' == SweepVisit(pc.cursor, pc.claim, pc.k + 1, pc'.holder)
      else pc' == if ch.dead && Dead(w, pc.claim.nonce) then Retire(pc.claim, Sweeping(pc.cursor), 0) else Sweep(pc.cursor)
  {
    assert ClaimOk(w, pc.claim);
  }

  lemma SweepVisitAdvances(w: World, t: Tid, pc: Pc, ch: Choice)
    requires pc.SweepVisit? && Solo(w, t, pc) && ch.dead
    ensures Advances(w, t, pc, SweepStep(w.dir, w.crashed, pc, ch))
  {
    if HasOwnerSlot(w.dir, pc.claim) { SweepVisitPasses(w, t, pc, ch); }
    QuietAdvances(w, t, pc, SweepStep(w.dir, w.crashed, pc, ch));
  }

  /** A call that leaves the claims alone. */
  lemma AllSweptStays(w: World, t: Tid, e: Effect)
    requires DirOk(w) && AllSwept(w) && Live(w, t) && e.dir.claims == w.dir.claims
    ensures AllSwept(Apply(w, t, e))
  {
    forall c | HasOwnerSlot(e.dir, c) ensures !Dead(Apply(w, t, e), c.nonce) { assert ClaimOk(w, c); }
  }

  lemma PublishOwnerAdvances(w: World, t: Tid, pc: Pc, ch: Choice)
    requires pc.PublishOwner? && Solo(w, t, pc)
    ensures Advances(w, t, pc, AcquireStep(w.dir, w.pids[t], pc, ch))
  {
    AllSweptStays(w, t, AcquireStep(w.dir, w.pids[t], pc, ch));
  }

  lemma PublishAdvances(w: World, t: Tid, pc: Pc, ch: Choice)
    requires pc.Publish? && Solo(w, t, pc)
    ensures Advances(w, t, pc, AcquireStep(w.dir, w.pids[t], pc, ch))
  {
    AllSweptStays(w, t, AcquireStep(w.dir, w.pids[t], pc, ch));
  }

  lemma VerifyAdvances(w: World, t: Tid, pc: Pc, ch: Choice)
    requires pc.Verify? && Solo(w, t, pc)
    ensures Advances(w, t, pc, AcquireStep(w.dir, w.pids[t], pc, ch))
  {
    QuietAdvances(w, t, pc, AcquireStep(w.dir, w.pids[t], pc, ch));
  }

  lemma ScanPartAdvances(w: World, t: Tid, pc: Pc, ch: Choice)
    requires Scans(pc) && Solo(w, t, pc) && Answers(w.dir, pc, ch)
    ensures Advances(w, t, pc, StepOf(w.dir, w.pids[t], w.crashed, pc, ch))
  {
    match pc
    case Look | ReadTarget | OpenScan(_) => LookAdvances(w, t, pc, ch);
    case ProbeOwner(_, _, _) => ProbeAdvances(w, t, pc, ch);
    case Scan(_, _, _) => ScanAdvances(w, t, pc, ch);
    case Visit(_, _, _, _, _, _) => VisitAdvances(w, t, pc, ch);
    case Settle(_, _) => SettleAdvances(w, t, pc, ch);
    case RecheckOwner(_, _, _) | RecheckClaim(_, _, _) => RecheckAdvances(w, t, pc, ch);
  }

  lemma ClaimingAdvances(w: World, t: Tid, pc: Pc, ch: Choice)
    requires pc.PublishClaim? || pc.Fill? || pc.DropOld?
    requires Solo(w, t, pc) && Fresh(w, pc, ch)
    ensures Advances(w, t, pc, StepOf(w.dir, w.pids[t], w.crashed, pc, ch))
  {
    assert StepOf(w.dir, w.pids[t], w.crashed, pc, ch) == ClaimStep(w.dir, w.pids[t], pc, ch);
    if pc.PublishClaim? {
      PublishClaimAdvances(w, t, pc, ch);
    } else if pc.Fill? {
      FillAdvances(w, t, pc, ch);
    } else {
      DropOldAdvances(w, t, pc, ch);
    }
  }

  lemma DetachingAdvances(w: World, t: Tid, pc: Pc, ch: Choice)
    requires pc.Detach? || pc.Retire?
    requires Solo(w, t, pc)
    ensures Advances(w, t, pc, StepOf(w.dir, w.pids[t], w.crashed, pc, ch))
  {
    assert StepOf(w.dir, w.pids[t], w.crashed, pc, ch) == DetachStep(w.dir, pc);
    if pc.Detach? { DetachAdvances(w, t, pc, ch); } else { RetireAdvances(w, t, pc, ch); }
  }

  /** A lone thread never removes a claim it failed to fill. */
  lemma NeverDropsEmpty(w: World, t: Tid, pc: Pc)
    requires pc.DropEmpty?
    ensures !OnCourse(w, t, pc)
  {
  }

  lemma TransferPartAdvances(w: World, t: Tid, pc: Pc, ch: Choice)
    requires Transfers(pc) && Solo(w, t, pc) && Fresh(w, pc, ch)
    ensures Advances(w, t, pc, StepOf(w.dir, w.pids[t], w.crashed, pc, ch))
  {
    if pc.DropEmpty? {
      NeverDropsEmpty(w, t, pc);
    } else if pc.Detach? || pc.Retire? {
      DetachingAdvances(w, t, pc, ch);
    } else if pc.Leaf? {
      assert StepOf(w.dir, w.pids[t], w.crashed, pc, ch) == LeafStep(w.dir, pc);
      LeafAdvances(w, t, pc, ch);
    } else {
      ClaimingAdvances(w, t, pc, ch);
    }
  }

  lemma RestAdvances(w: World, t: Tid, pc: Pc, ch: Choice)
    requires !Scans(pc) && !Transfers(pc) && !pc.InOp?
    requires Solo(w, t, pc) && Answers(w.dir, pc, ch)
    ensures Advances(w, t, pc, StepOf(w.dir, w.pids[t], w.crashed, pc, ch))
  {
    match pc
    case SweepVisit(_, _, _, _) => SweepVisitAdvances(w, t, pc, ch);
    case Sweep(_) => SweepReadAdvances(w, t, pc, ch);
    case SweepBegin | SweepOpen | SweepEnd => SweepAdvances(w, t, pc, ch);
    case PublishOwner => PublishOwnerAdvances(w, t, pc, ch);
    case Publish(_) => PublishAdvances(w, t, pc, ch);
    case Verify(_, _) => VerifyAdvances(w, t, pc, ch);
  }

  lemma ActAdvances(w: World, t: Tid, pc: Pc, ch: Choice)
    requires Solo(w, t, pc) && !pc.InOp? && Fresh(w, pc, ch) && Answers(w.dir, pc, ch)
    ensures Advances(w, t, pc, StepOf(w.dir, w.pids[t], w.crashed, pc, ch))
  {
    if Scans(pc) {
      ScanPartAdvances(w, t, pc, ch);
    } else if Transfers(pc) {
      TransferPartAdvances(w, t, pc, ch);
    } else {
      RestAdvances(w, t, pc, ch);
    }
  }

  // ----- whole solo runs -----

  ghost predicate SoloState(s: State, t: Tid) {
    && AllClean(s) && t in s.pcs && Unopposed(s.world, t) && OnCourse(s.world, t, s.pcs[t])
  }

  lemma NameStaysUnopposed(w: World, v: World, t: Tid, pc: Pc, ch: Choice, n: Nonce)
    requires DirOk(w) && Role(w, t, pc) && Unopposed(w, t)
    requires SubMap(w.makers, v.makers) && v.pids == w.pids && v.crashed == w.crashed
    requires v.dir == DirAfter(w.dir, w.pids[t], pc, ch) && v.dir.canonical == Link(n)
    ensures Mine(v, t, n) || Dead(v, n)
  {
    CanonicalAfter(w, t, pc, ch);
  }

  /** The generation on the name was there before, unless the thread put it there;
      then no claim holds it. */
  lemma HolderStaysUnopposed(w: World, v: World, t: Tid, pc: Pc, ch: Choice, c: ClaimId)
    requires DirOk(w) && Role(w, t, pc) && Unopposed(w, t) && HasOwnerSlot(w.dir, c)
    requires SubMap(w.makers, v.makers) && v.pids == w.pids && v.crashed == w.crashed
    requires v.dir == DirAfter(w.dir, w.pids[t], pc, ch) && v.dir.canonical == Link(c.owner)
    ensures Mine(v, t, c.nonce) || Dead(v, c.nonce)
  {
    assert ClaimOk(w, c);
    CanonicalAfter(w, t, pc, ch);
  }

  lemma NewHolderIsMine(w: World, v: World, t: Tid, pc: Pc, ch: Choice, c: ClaimId)
    requires DirOk(w) && Role(w, t, pc) && t in w.pids && !HasOwnerSlot(w.dir, c) && SubMap(w.makers, v.makers)
    requires v.dir == DirAfter(w.dir, w.pids[t], pc, ch) && HasOwnerSlot(v.dir, c)
    ensures Mine(v, t, c.nonce)
  {
    SlotComesFromFill(w.dir, w.pids[t], pc, ch, c);
  }

  /** The thread's own calls bring nobody else to the name. */
  lemma UnopposedKept(s: State, t: Tid, ch: Choice)
    requires Inv(s) && Unopposed(s.world, t) && Enabled(s, Act(t, ch))
    ensures Unopposed(Next(s, Act(t, ch)).world, t)
  {
    var w, v, pc := s.world, Next(s, Act(t, ch)).world, s.pcs[t];
    StepDir(w.dir, w.pids[t], w.crashed, pc, ch);
    assert SubMap(w.makers, v.makers) by { ActKeeps(w, t, pc, ch); }
    assert Role(w, t, pc);
    if v.dir.canonical.Link? { NameStaysUnopposed(w, v, t, pc, ch, v.dir.canonical.nonce); }
    forall c | HasOwnerSlot(v.dir, c) && v.dir.canonical == Link(c.owner) ensures Mine(v, t, c.nonce) || Dead(v, c.nonce) {
      if HasOwnerSlot(w.dir, c) {
        HolderStaysUnopposed(w, v, t, pc, ch, c);
      } else {
        NewHolderIsMine(w, v, t, pc, ch, c);
      }
    }
  }

  lemma SoloNext(s: State, t: Tid, ch: Choice)
    requires SoloState(s, t) && !s.pcs[t].InOp?
    requires Enabled(s, Act(t, ch)) && Answers(s.world.dir, s.pcs[t], ch)
    ensures var s' := Next(s, Act(t, ch));
      SoloState(s', t) && Descends(s.world.dir, s.pcs[t], s'.world.dir, s'.pcs[t])
  {
    NextClean(s, Act(t, ch));
    UnopposedKept(s, t, ch);
    ActAdvances(s.world, t, s.pcs[t], ch);
  }

  function SoloRun(s: State, t: Tid, choices: seq<Choice>): State
    decreases |choices|
  {
    if choices == [] then s else SoloRun(Next(s, Act(t, choices[0])), t, choices[1..])
  }

  /** Until the thread holds the lock, each of its calls is made and returns. */
  ghost predicate Answered(s: State, t: Tid, choices: seq<Choice>)
    decreases |choices|
  {
    choices == [] || t !in s.pcs || s.pcs[t].InOp? ||
      (&& Enabled(s, Act(t, choices[0]))
       && Answers(s.world.dir, s.pcs[t], choices[0])
       && Answered(Next(s, Act(t, choices[0])), t, choices[1..]))
  }

  /** How many times the run begins a pass of the acquire loop. */
  function Looks(s: State, t: Tid, choices: seq<Choice>): nat
    decreases |choices|
  {
    if choices == [] then 0
    else (if t in s.pcs && s.pcs[t].Look? then 1 else 0) + Looks(Next(s, Act(t, choices[0])), t, choices[1..])
  }

  /** The run is inside the operation after these choices, having begun at most
      `passes` passes of the loop, and no owner directory is left in a claim of the
      dead. */
  ghost predicate Holding(s: State, t: Tid, choices: seq<Choice>, passes: nat) {
    var end := SoloRun(s, t, choices);
    t in end.pcs && end.pcs[t].InOp? && Looks(s, t, choices) <= passes && AllSwept(end.world)
  }

  lemma RankPositive(w: World, t: Tid, pc: Pc)
    requires Role(w, t, pc) && OnCourse(w, t, pc) && !pc.InOp?
    ensures 0 < Rank(w.dir, pc)
  {
  }

  /** One more call in front of a run that holds. */
  lemma HoldingAfter(s: State, t: Tid, choices: seq<Choice>, j: nat, passes: nat, more: nat) returns (i: nat)
    requires j < |choices|
    requires Holding(Next(s, Act(t, choices[0])), t, choices[1..][..j], more)
    requires more + (if t in s.pcs && s.pcs[t].Look? then 1 else 0) <= passes
    ensures i == j + 1 && Holding(s, t, choices[..i], passes)
  {
    i := j + 1;
    var front := choices[..i];
    assert front[0] == choices[0] && front[1..] == choices[1..][..j];
  }

  lemma HoldingNow(s: State, t: Tid, choices: seq<Choice>, passes: nat)
    requires SoloState(s, t) && s.pcs[t].InOp?
    ensures Holding(s, t, choices[..0], passes)
  {
  }

  /** The first of enough answered calls leaves enough for the rest. */
  lemma SoloFirst(s: State, t: Tid, choices: seq<Choice>)
    requires SoloState(s, t) && Answered(s, t, choices) && !s.pcs[t].InOp?
    requires Rank(s.world.dir, s.pcs[t]) <= |choices|
    ensures 0 < |choices|
    ensures var s' := Next(s, Act(t, choices[0]));
      && SoloState(s', t) && Answered(s', t, choices[1..])
      && Rank(s'.world.dir, s'.pcs[t]) <= |choices[1..]|
      && Passes(s'.world.dir, s'.pcs[t]) + (if s.pcs[t].Look? then 1 else 0) <= Passes(s.world.dir, s.pcs[t])
  {
    RankPositive(s.world, t, s.pcs[t]);
    SoloNext(s, t, choices[0]);
  }

  lemma {:induction false} SoloReaches(s: State, t: Tid, choices: seq<Choice>) returns (i: nat)
    requires SoloState(s, t) && Answered(s, t, choices)
    requires Rank(s.world.dir, s.pcs[t]) <= |choices|
    ensures i <= |choices| && Holding(s, t, choices[..i], Passes(s.world.dir, s.pcs[t]))
    decreases |choices|
  {
    if s.pcs[t].InOp? {
      i := 0;
      HoldingNow(s, t, choices, Passes(s.world.dir, s.pcs[t]));
    } else {
      SoloFirst(s, t, choices);
      var s' := Next(s, Act(t, choices[0]));
      var j := SoloReaches(s', t, choices[1..]);
      i := HoldingAfter(s, t, choices, j, Passes(s.world.dir, s.pcs[t]), Passes(s'.world.dir, s'.pcs[t]));
    }
  }

  /** Whoever lives and has nothing on the name opposes nobody. */
  lemma OthersAreOff(s: State, t: Tid)
    requires AllClean(s) && t in s.pcs && Live(s.world, t)
    requires forall u :: u in s.pcs && u != t && Live(s.world, u) ==> GenAt(s.pcs[u]).None?
    ensures Unopposed(s.world, t)
  {
    var w := s.world;
    forall n | w.dir.canonical == Link(n) ensures Mine(w, t, n) || Dead(w, n) {
      assert Live(w, w.makers[n]) ==> Clean(w, w.makers[n], s.pcs[w.makers[n]]);
    }
    forall c | HasOwnerSlot(w.dir, c) && w.dir.canonical == Link(c.owner) ensures Mine(w, t, c.nonce) || Dead(w, c.nonce) {
      ClaimantIsOff(s, t, c);
    }
  }

  lemma OffTheName(w: World, u: Tid, pc: Pc, c: ClaimId)
    requires DirOk(w) && Role(w, u, pc) && Clean(w, u, pc) && GenAt(pc).None?
    requires HasOwnerSlot(w.dir, c) && w.dir.canonical == Link(c.owner)
    ensures !Mine(w, u, c.nonce)
  {
    assert ClaimOk(w, c);
  }

  lemma ClaimantIsOff(s: State, t: Tid, c: ClaimId)
    requires AllClean(s) && t in s.pcs && Live(s.world, t)
    requires forall u :: u in s.pcs && u != t && Live(s.world, u) ==> GenAt(s.pcs[u]).None?
    requires HasOwnerSlot(s.world.dir, c) && s.world.dir.canonical == Link(c.owner)
    ensures Mine(s.world, t, c.nonce) || Dead(s.world, c.nonce)
  {
    var w := s.world;
    assert ClaimOk(w, c);
    var u := w.makers[c.nonce];
    if u != t && Live(w, u) { OffTheName(w, u, s.pcs[u], c); }
  }

  /** From every reachable state in which no other live thread is between publishing
      its generation and detaching it, and no legacy directory holds the name, a
      thread about to classify holds the lock after at most `Rank` calls of its own
      and two passes of the loop: whatever half-done transfers the dead left behind,
      wherever in an acquisition, a retirement or a sweep the living pause.  It has
      then retired every owner directory that the dead had left in a claim. */
  lemma SoloAcquires(s: State, t: Tid, choices: seq<Choice>) returns (i: nat)
    requires Reachable(s) && t in s.pcs && Live(s.world, t)
    requires forall u :: u in s.pcs && u != t && Live(s.world, u) ==> GenAt(s.pcs[u]).None?
    requires s.pcs[t].Look? && !s.world.dir.canonical.Legacy?
    requires Answered(s, t, choices) && Rank(s.world.dir, Look) <= |choices|
    ensures i <= |choices| && Holding(s, t, choices[..i], 2)
  {
    ReachableClean(s);
    OthersAreOff(s, t);
    i := SoloReaches(s, t, choices);
  }

  ghost function Above(xs: set<nat>): (n: nat)
    ensures forall x :: x in xs ==> x < n
  {
    if xs == {} then 0
    else
      var x :| x in xs;
      var n := Above(xs - {x});
      assert forall y :: y in xs ==> y == x || y in xs - {x};
      if x < n then n else x + 1
  }

  /** The lone thread always has a next call that is made and returns. */
  lemma SoloNeverBlocks(s: State, t: Tid) returns (ch: Choice)
    requires SoloState(s, t)
    ensures Enabled(s, Act(t, ch)) && Answers(s.world.dir, s.pcs[t], ch)
  {
    var pc := s.pcs[t];
    var pick := ClaimId(0, 0);
    if (pc.Scan? || pc.Sweep?) && !(pc.cursor.snapshot <= pc.cursor.seen) {
      pick :| pick in pc.cursor.snapshot && pick !in pc.cursor.seen;
    }
    ch := Choice(Above(s.world.makers.Keys), pick, true, true);
  }
}
