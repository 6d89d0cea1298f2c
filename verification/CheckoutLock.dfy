/** The checkout mutation lock as a machine of filesystem calls.  Every thread
    runs the acquire, recover, release and cleanup code one call at a time; any
    process may die between two calls, and legacy installers may take and drop
    the canonical name with a directory of their own. */
module CheckoutLock {
  import opened Wrappers
  import opened LockDirectory

  type Tid = nat

  datatype Error = TimedOut | MalformedOwner | MalformedClaims | MalformedSweep
                 | Unverified | DiscardFailed | ReleaseFailed

  /** An open directory stream: the names present when it was opened, and the
      names it has returned.  Names of the snapshot are returned unless removed;
      names created later may be returned too. */
  datatype Cursor = Cursor(snapshot: set<ClaimId>, seen: set<ClaimId>)

  /** One owner-bearing claim accepted by a scan, with its liveness verdict. */
  datatype Found = Found(claim: ClaimId, dead: bool)

  /** Who asked for a transfer: the release of a held lock, the recovery inside
      an acquire loop, or the sweep of detached claims. */
  datatype Ctx = Releasing | Recovering | Sweeping(cursor: Cursor)

  datatype Source = FromOwner | FromClaim(prior: ClaimId)

  /** The next call of a thread.  `k` counts the calls of one straight run of
      checks; `holder` is the process named by the record read last. */
  datatype Pc =
    | Idle
    // classify
    | Look
    | ReadTarget
    | ProbeOwner(gen: Nonce, k: nat, holder: Pid)
    | OpenScan(gen: Nonce)
    | Scan(gen: Nonce, cursor: Cursor, found: seq<Found>)
    | Visit(gen: Nonce, cursor: Cursor, found: seq<Found>, claim: ClaimId, k: nat, holder: Pid)
    | Settle(gen: Nonce, found: seq<Found>)
    // recover_dead_owner, recover_dead_claim, claim_and_detach
    | RecheckOwner(gen: Nonce, k: nat, holder: Pid)
    | RecheckClaim(claim: ClaimId, k: nat, holder: Pid)
    | PublishClaim(gen: Nonce, source: Source, ctx: Ctx)
    | Fill(claim: ClaimId, source: Source, ctx: Ctx, k: nat)
    | DropEmpty(claim: ClaimId, ctx: Ctx, k: nat)
    | DropOld(prior: ClaimId, claim: ClaimId, k: nat)
    | Detach(claim: ClaimId, ctx: Ctx, k: nat)
    | Retire(claim: ClaimId, ctx: Ctx, k: nat)
    | Leaf(claim: ClaimId, ctx: Ctx, k: nat)
    // cleanup_detached_claims
    | SweepBegin
    | SweepOpen
    | Sweep(cursor: Cursor)
    | SweepVisit(cursor: Cursor, claim: ClaimId, k: nat, holder: Pid)
    | SweepFault(cursor: Cursor, claim: ClaimId, k: nat)
    | SweepEnd
    // acquire, the operation, release
    | PublishOwner
    | Publish(gen: Nonce)
    | Discard(gen: Nonce, k: nat)
    | Verify(gen: Nonce, k: nat)
    | InOp(gen: Nonce)
    | Release(gen: Nonce, k: nat)
    | Wait
    | Failed(error: Error)

  /** What the environment decides at one step: a fresh identifier, the name a
      directory stream returns, whether a liveness probe finds positive evidence
      of death, and whether a free choice (start, wait, finish) is taken. */
  datatype Choice = Choice(nonce: Nonce, pick: ClaimId, dead: bool, go: bool)

  /** Everything but the program counters: the shared directory, the process of
      each thread, the dead processes, and two histories -- which thread drew an
      identifier, and which claims ever received an owner directory. */
  datatype World = World(
    dir: Dir,
    pids: map<Tid, Pid>,
    crashed: set<Pid>,
    makers: map<Nonce, Tid>,
    filled: set<ClaimId>)

  datatype State = State(world: World, pcs: map<Tid, Pc>)

  datatype Event = Act(tid: Tid, choice: Choice) | Crash(pid: Pid) | LegacyTake | LegacyDrop

  /** The result of one call: the directory, the next call, the identifiers it
      drew and the claims it filled. */
  datatype Effect = Effect(dir: Dir, pc: Pc, drawn: set<Nonce>, fills: set<ClaimId>)

  function Go(d: Dir, pc: Pc): Effect { Effect(d, pc, {}, {}) }

  function Move(d: Option<Dir>, orElse: Dir, next: Pc, failed: Pc): Effect {
    if d.Some? then Go(d.value, next) else Go(orElse, failed)
  }

  function Test(d: Dir, passed: bool, next: Pc, failed: Pc): Effect { Go(d, if passed then next else failed) }

  function Done(ctx: Ctx): Pc {
    match ctx
    case Releasing => Idle
    case Recovering => Look
    case Sweeping(cursor) => Sweep(cursor)
  }

  function Fault(ctx: Ctx, c: ClaimId): Pc {
    match ctx
    case Releasing => Failed(ReleaseFailed)
    case Recovering => Wait
    case Sweeping(cursor) => SweepFault(cursor, c, 0)
  }

  /** Whether a directory stream may return this name now. */
  predicate Returns(d: Dir, cursor: Cursor, c: ClaimId) {
    c !in cursor.seen && (c in cursor.snapshot || c in d.claims)
  }

  function Mark(cursor: Cursor, c: ClaimId): Cursor { cursor.(seen := cursor.seen + {c}) }

  function ClassifyStep(d: Dir, crashed: set<Pid>, pc: Pc, ch: Choice): Effect
    requires pc.Look? || pc.ReadTarget? || pc.ProbeOwner? || pc.OpenScan? || pc.Scan? || pc.Settle?
  {
    match pc
    case Look => Go(d, match d.canonical case Absent => SweepBegin case Legacy => Wait case Link(_) => ReadTarget)
    case ReadTarget => Go(d, if d.canonical.Link? then ProbeOwner(d.canonical.nonce, 0, 0) else Wait)
    case ProbeOwner(n, k, holder) =>
      if k == 0 then Test(d, n in d.owners, ProbeOwner(n, 1, 0), OpenScan(n))
      else if k == 1 then Test(d, OwnerRecorded(d, n), ProbeOwner(n, 2, 0), ProbeOwner(n, 4, 0))
      else if k == 2 then
        if n in d.owners && d.owners[n].record.Some? then Go(d, ProbeOwner(n, 3, d.owners[n].record.value))
        else Go(d, ProbeOwner(n, 4, 0))
      else if k == 3 then Test(d, ch.dead && holder in crashed, RecheckOwner(n, 0, 0), Wait)
      else if k == 4 then Test(d, n in d.owners, ProbeOwner(n, 5, 0), Wait)
      else Test(d, d.canonical == Link(n), Failed(MalformedOwner), Wait)
    case OpenScan(n) => Go(d, Scan(n, Cursor(set c | c in d.claims && c.owner == n, {}), []))
    case Scan(n, cursor, found) =>
      if ch.pick.owner == n && Returns(d, cursor, ch.pick) then
        Go(d, Visit(n, Mark(cursor, ch.pick), found, ch.pick, 0, 0))
      else Go(d, if cursor.snapshot <= cursor.seen then Settle(n, found) else pc)
    case Settle(n, found) =>
      if d.canonical != Link(n) || |found| == 0 then Go(d, Wait)
      else if |found| > 1 then Go(d, Failed(MalformedClaims))
      else Go(d, if found[0].dead then RecheckClaim(found[0].claim, 0, 0) else Wait)
  }

  /** One owner-bearing candidate of the scan in `find_claimed_owner`. */
  function VisitStep(d: Dir, crashed: set<Pid>, pc: Pc, ch: Choice): Effect
    requires pc.Visit?
  {
    var Visit(n, cursor, found, c, k, holder) := pc;
    var fail := Visit(n, cursor, found, c, 6, 0);
    if k == 0 then Test(d, HasOwnerSlot(d, c), Visit(n, cursor, found, c, 1, 0), Scan(n, cursor, found))
    else if k == 1 then Test(d, Bears(d, c), Visit(n, cursor, found, c, 2, 0), fail)
    else if k == 2 then
      if c in d.claims && d.claims[c].record.Some? then Go(d, Visit(n, cursor, found, c, 3, d.claims[c].record.value))
      else Go(d, fail)
    else if k == 3 then Test(d, SlotRecorded(d, c), Visit(n, cursor, found, c, 4, holder), fail)
    else if k == 4 then
      Test(d, HasOwnerSlot(d, c) && d.claims[c].owner.value.record.Some?, Visit(n, cursor, found, c, 5, holder), fail)
    else if k == 5 then Go(d, Scan(n, cursor, found + [Found(c, ch.dead && holder in crashed)]))
    else if k == 6 then Test(d, d.canonical == Link(n), Visit(n, cursor, found, c, 7, 0), Wait)
    else if k == 7 then Test(d, c in d.claims, Visit(n, cursor, found, c, 8, 0), Wait)
    else Test(d, HasOwnerSlot(d, c), Failed(MalformedClaims), Wait)
  }

  function RecheckStep(d: Dir, crashed: set<Pid>, pc: Pc, ch: Choice): Effect
    requires pc.RecheckOwner? || pc.RecheckClaim?
  {
    match pc
    case RecheckOwner(n, k, holder) =>
      if k == 0 then Test(d, OwnerRecorded(d, n), RecheckOwner(n, 1, 0), Wait)
      else if k == 1 then
        if n in d.owners && d.owners[n].record.Some? then Go(d, RecheckOwner(n, 2, d.owners[n].record.value))
        else Go(d, Wait)
      else Test(d, ch.dead && holder in crashed, PublishClaim(n, FromOwner, Recovering), Wait)
    case RecheckClaim(c, k, holder) =>
      if k == 0 then Test(d, Bears(d, c), RecheckClaim(c, 1, 0), Wait)
      else if k == 1 then
        if c in d.claims && d.claims[c].record.Some? then Go(d, RecheckClaim(c, 2, d.claims[c].record.value))
        else Go(d, Wait)
      else if k == 2 then Test(d, ch.dead && holder in crashed, RecheckClaim(c, 3, holder), Wait)
      else if k == 3 then Test(d, SlotRecorded(d, c), RecheckClaim(c, 4, holder), Wait)
      else if k == 4 then
        Test(d, HasOwnerSlot(d, c) && d.claims[c].owner.value.record.Some?, RecheckClaim(c, 5, holder), Wait)
      else Test(d, d.canonical == Link(c.owner), PublishClaim(c.owner, FromClaim(c), Recovering), Wait)
  }

  /** `prepare_claim`, the ownership transfer, and the removal of empty claims. */
  function ClaimStep(d: Dir, me: Pid, pc: Pc, ch: Choice): Effect
    requires pc.PublishClaim? || pc.Fill? || pc.DropEmpty? || pc.DropOld?
  {
    match pc
    case PublishClaim(n, source, ctx) =>
      var c := ClaimId(n, ch.nonce);
      Effect(AddClaim(d, c, me), Fill(c, source, ctx, if source.FromOwner? then 0 else 1), {ch.nonce}, {})
    case Fill(c, source, ctx, k) =>
      if k == 0 then Test(d, HasOwnerSlot(d, c), DropEmpty(c, ctx, 0), Fill(c, source, ctx, 1))
      else
        var moved := match source
          case FromOwner => RenameOwnerToClaim(d, c.owner, c)
          case FromClaim(prior) => RenameClaimToClaim(d, prior, c);
        if moved.None? then Go(d, DropEmpty(c, ctx, 0))
        else Effect(moved.value, if source.FromOwner? then Detach(c, ctx, 0) else DropOld(source.prior, c, 0), {}, {c})
    case DropEmpty(c, ctx, k) =>
      if k == 0 then Test(d, Bare(d, c), DropEmpty(c, ctx, 1), Fault(ctx, c))
      else if k == 1 then Test(d, c in d.claims && d.claims[c].record.Some?, DropEmpty(c, ctx, 2), Fault(ctx, c))
      else if k == 2 then Move(RemoveClaimRecord(d, c), d, DropEmpty(c, ctx, 3), Fault(ctx, c))
      else Move(RemoveClaimDir(d, c), d, Fault(ctx, c), Fault(ctx, c))
    case DropOld(prior, c, k) =>
      var next := Detach(c, Recovering, 0);
      if k == 0 then Test(d, Bare(d, prior), DropOld(prior, c, 1), next)
      else if k == 1 then Test(d, prior in d.claims && d.claims[prior].record.Some?, DropOld(prior, c, 2), next)
      else if k == 2 then Move(RemoveClaimRecord(d, prior), d, DropOld(prior, c, 3), next)
      else Move(RemoveClaimDir(d, prior), d, next, next)
  }

  /** `detach_claimed_owner` and the checks of `retire_and_cleanup_claim`. */
  function DetachStep(d: Dir, pc: Pc): Effect
    requires pc.Detach? || pc.Retire?
  {
    var c, ctx, k := pc.claim, pc.ctx, pc.k;
    var fail := Fault(ctx, c);
    if pc.Detach? then
      if k == 0 then Test(d, Bears(d, c), Detach(c, ctx, 1), fail)
      else if k == 1 then Test(d, c in d.claims && d.claims[c].record.Some?, Detach(c, ctx, 2), fail)
      else if k == 2 then Test(d, SlotRecorded(d, c), Detach(c, ctx, 3), fail)
      else if k == 3 then
        Test(d, HasOwnerSlot(d, c) && d.claims[c].owner.value.record.Some?, Detach(c, ctx, 4), fail)
      else if k == 4 then Test(d, d.canonical == Link(c.owner), Detach(c, ctx, 5), fail)
      else if k == 5 then
        Test(d, HasOwnerSlot(d, c) && !d.claims[c].owner.value.tomb.Absent?, fail, Detach(c, ctx, 6))
      else if k == 6 then Move(RenameCanonicalToTomb(d, c), d, Detach(c, ctx, 7), fail)
      else Test(d, TombNames(d, c), Retire(c, ctx, 0), fail)
    else
      if k == 0 then Test(d, Bears(d, c), Retire(c, ctx, 1), fail)
      else if k == 1 then Test(d, c in d.claims && d.claims[c].record.Some?, Retire(c, ctx, 2), fail)
      else if k == 2 then Test(d, SlotTombstoned(d, c), Retire(c, ctx, 3), fail)
      else if k == 3 then
        Test(d, HasOwnerSlot(d, c) && d.claims[c].owner.value.record.Some?, Retire(c, ctx, 4), fail)
      else if k == 4 then Test(d, TombNames(d, c), Retire(c, ctx, 5), fail)
      else if k == 5 then Test(d, c in d.claims && d.claims[c].retired.Some?, fail, Retire(c, ctx, 6))
      else Move(RenameOwnerToRetired(d, c), d, Leaf(c, ctx, 0), fail)
  }

  /** The leaf removals after retirement, which never read the canonical path. */
  function LeafStep(d: Dir, pc: Pc): Effect
    requires pc.Leaf?
  {
    var Leaf(c, ctx, k) := pc;
    var fail := Fault(ctx, c);
    var next := Leaf(c, ctx, k + 1);
    if k == 0 then Test(d, RetiredWhole(d, c), next, fail)
    else if k == 1 then Move(RemoveRetiredTomb(d, c), d, next, fail)
    else if k == 2 then Move(RemoveRetiredRecord(d, c), d, next, fail)
    else if k == 3 then Move(RemoveRetiredDir(d, c), d, next, fail)
    else if k == 4 then Move(RemoveClaimRecord(d, c), d, next, fail)
    else Move(RemoveClaimDir(d, c), d, Done(ctx), fail)
  }

  function SweepStep(d: Dir, crashed: set<Pid>, pc: Pc, ch: Choice): Effect
    requires pc.SweepBegin? || pc.SweepOpen? || pc.Sweep? || pc.SweepVisit? || pc.SweepFault? || pc.SweepEnd?
  {
    match pc
    case SweepBegin => Test(d, d.canonical.Absent?, SweepOpen, Wait)
    case SweepOpen => Go(d, Sweep(Cursor(d.claims.Keys, {})))
    case Sweep(cursor) =>
      if Returns(d, cursor, ch.pick) then Go(d, SweepVisit(Mark(cursor, ch.pick), ch.pick, 0, 0))
      else Go(d, if cursor.snapshot <= cursor.seen then SweepEnd else pc)
    case SweepVisit(cursor, c, k, holder) =>
      var fail := SweepFault(cursor, c, 0);
      if k == 0 then Test(d, HasOwnerSlot(d, c), SweepVisit(cursor, c, 1, 0), Sweep(cursor))
      else if k == 1 then Test(d, Bears(d, c), SweepVisit(cursor, c, 2, 0), fail)
      else if k == 2 then
        if c in d.claims && d.claims[c].record.Some? then Go(d, SweepVisit(cursor, c, 3, d.claims[c].record.value))
        else Go(d, fail)
      else if k == 3 then Test(d, SlotTombstoned(d, c), SweepVisit(cursor, c, 4, holder), fail)
      else if k == 4 then
        Test(d, HasOwnerSlot(d, c) && d.claims[c].owner.value.record.Some?, SweepVisit(cursor, c, 5, holder), fail)
      else if k == 5 then Test(d, TombNames(d, c), SweepVisit(cursor, c, 6, holder), fail)
      else Test(d, ch.dead && holder in crashed, Retire(c, Sweeping(cursor), 0), Sweep(cursor))
    case SweepFault(cursor, c, k) =>
      if k == 0 then Test(d, d.canonical.Absent?, SweepFault(cursor, c, 1), Wait)
      else if k == 1 then Test(d, c in d.claims, SweepFault(cursor, c, 2), Wait)
      else Test(d, HasOwnerSlot(d, c), Failed(MalformedSweep), Wait)
    case SweepEnd => Test(d, d.canonical.Absent?, PublishOwner, Wait)
  }

  function AcquireStep(d: Dir, me: Pid, pc: Pc, ch: Choice): Effect
    requires pc.Idle? || pc.PublishOwner? || pc.Publish? || pc.Discard? || pc.Verify? || pc.InOp? || pc.Release?
          || pc.Wait? || pc.Failed?
  {
    match pc
    case Idle => Go(d, if ch.go then Look else pc)
    case PublishOwner => Effect(AddOwner(d, ch.nonce, me), Publish(ch.nonce), {ch.nonce}, {})
    case Publish(n) => Move(SymlinkCanonical(d, n), d, Verify(n, 0), Discard(n, 0))
    case Discard(n, k) =>
      var fail := Failed(DiscardFailed);
      if k == 0 then Test(d, n in d.owners, Discard(n, 1), Wait)
      else if k == 1 then Test(d, OwnerRecorded(d, n), Discard(n, 2), fail)
      else if k == 2 then Move(RemoveOwnerRecord(d, n), d, Discard(n, 3), fail)
      else Move(RemoveOwnerDir(d, n), d, Wait, fail)
    case Verify(n, k) =>
      if k == 0 then Test(d, d.canonical == Link(n), Verify(n, 1), Failed(Unverified))
      else Test(d, n in d.owners && d.owners[n].record.Some?, InOp(n), Failed(Unverified))
    case InOp(n) => Go(d, if ch.go then Release(n, 0) else pc)
    case Release(n, k) =>
      var fail := Failed(ReleaseFailed);
      if k == 0 then Test(d, d.canonical == Link(n), Release(n, 1), fail)
      else if k == 1 then Test(d, OwnerRecorded(d, n), Release(n, 2), fail)
      else Test(d, n in d.owners && d.owners[n].record.Some?, PublishClaim(n, FromOwner, Releasing), fail)
    case Wait => Go(d, if ch.go then Look else Failed(TimedOut))
    case Failed(_) => Go(d, if ch.go then Idle else pc)
  }

  function StepOf(d: Dir, me: Pid, crashed: set<Pid>, pc: Pc, ch: Choice): Effect {
    match pc
    case Look | ReadTarget | ProbeOwner(_, _, _) | OpenScan(_) | Scan(_, _, _) | Settle(_, _) =>
      ClassifyStep(d, crashed, pc, ch)
    case Visit(_, _, _, _, _, _) => VisitStep(d, crashed, pc, ch)
    case RecheckOwner(_, _, _) | RecheckClaim(_, _, _) => RecheckStep(d, crashed, pc, ch)
    case PublishClaim(_, _, _) | Fill(_, _, _, _) | DropEmpty(_, _, _) | DropOld(_, _, _) => ClaimStep(d, me, pc, ch)
    case Detach(_, _, _) | Retire(_, _, _) => DetachStep(d, pc)
    case Leaf(_, _, _) => LeafStep(d, pc)
    case SweepBegin | SweepOpen | Sweep(_) | SweepVisit(_, _, _, _) | SweepFault(_, _, _) | SweepEnd =>
      SweepStep(d, crashed, pc, ch)
    case _ => AcquireStep(d, me, pc, ch)
  }

  predicate Live(w: World, t: Tid) { t in w.pids && w.pids[t] !in w.crashed }

  function Apply(w: World, t: Tid, e: Effect): World {
    World(e.dir, w.pids, w.crashed, w.makers + (map n | n in e.drawn :: t), w.filled + e.fills)
  }

  /** Only live threads act, and an identifier is drawn at most once. */
  predicate Enabled(s: State, ev: Event) {
    ev.Act? ==>
      && ev.tid in s.pcs
      && Live(s.world, ev.tid)
      && (s.pcs[ev.tid].PublishOwner? || s.pcs[ev.tid].PublishClaim? ==> ev.choice.nonce !in s.world.makers)
  }

  function EffectOf(s: State, t: Tid, ch: Choice): Effect
    requires Enabled(s, Act(t, ch))
  {
    StepOf(s.world.dir, s.world.pids[t], s.world.crashed, s.pcs[t], ch)
  }

  function SetCanonical(w: World, canonical: Canon): World { w.(dir := w.dir.(canonical := canonical)) }

  function Next(s: State, ev: Event): State {
    if !Enabled(s, ev) then s else
    match ev
    case Act(t, ch) => var e := EffectOf(s, t, ch); State(Apply(s.world, t, e), s.pcs[t := e.pc])
    case Crash(p) => s.(world := s.world.(crashed := s.world.crashed + {p}))
    case LegacyTake => if s.world.dir.canonical.Absent? then s.(world := SetCanonical(s.world, Legacy)) else s
    case LegacyDrop => if s.world.dir.canonical.Legacy? then s.(world := SetCanonical(s.world, Absent)) else s
  }

  function Run(s: State, events: seq<Event>): State
    decreases |events|
  {
    if events == [] then s else Next(Run(s, events[..|events| - 1]), events[|events| - 1])
  }

  /** Any number of threads in any processes, all outside the lock. */
  function Start(pids: map<Tid, Pid>): State {
    State(World(EmptyDir, pids, {}, map[], {}), map t | t in pids :: Idle)
  }

  ghost predicate Reachable(s: State) {
    exists pids: map<Tid, Pid>, events: seq<Event> :: s == Run(Start(pids), events)
  }
}
