/** What every interleaving of the lock machine keeps.  `DirOk` speaks about the
    directory alone, `Role` says what each live thread may count on, and `Rely`
    is the one interface between a thread's step and everybody else's role. */
module LockInvariant {
  import opened Wrappers
  import opened LockDirectory
  import opened CheckoutLock

  ghost predicate Mine(w: World, t: Tid, x: Nonce) { x in w.makers && w.makers[x] == t }

  /** The record of identifier `x` was written by process `p`. */
  ghost predicate Wrote(w: World, x: Nonce, p: Pid) {
    x in w.makers && w.makers[x] in w.pids && w.pids[w.makers[x]] == p
  }

  /** The process that drew `x` takes no more steps. */
  ghost predicate Dead(w: World, x: Nonce) {
    x in w.makers && w.makers[x] in w.pids && w.pids[w.makers[x]] in w.crashed
  }

  ghost predicate SameMaker(w: World, x: Nonce, y: Nonce) {
    x in w.makers && y in w.makers && w.makers[x] == w.makers[y]
  }

  // ----- the directory -----

  ghost predicate OwnerOk(w: World, n: Nonce)
    requires n in w.dir.owners
  {
    var slot := w.dir.owners[n];
    && n in w.makers
    && slot.tomb.Absent?
    && (slot.record.Some? ==> Wrote(w, n, slot.record.value))
    && (w.dir.canonical == Link(n) ==> slot.record.Some?)
  }

  /** An owner slot holds a complete record.  Either the canonical link still
      names its generation, or the slot holds that link as its tombstone. */
  ghost predicate OwnerSlotOk(w: World, c: ClaimId)
    requires HasOwnerSlot(w.dir, c)
  {
    var slot := w.dir.claims[c].owner.value;
    && c in w.filled
    && w.dir.claims[c].record.Some?
    && w.dir.claims[c].retired.None?
    && c.owner !in w.dir.owners
    && slot.record.Some? && Wrote(w, c.owner, slot.record.value)
    && (slot.tomb.Absent? <==> w.dir.canonical == Link(c.owner))
    && (!slot.tomb.Absent? ==> slot.tomb == Link(c.owner))
    && (SameMaker(w, c.owner, c.nonce) || Dead(w, c.owner))
  }

  ghost predicate ClaimOk(w: World, c: ClaimId)
    requires c in w.dir.claims
  {
    var cd := w.dir.claims[c];
    && c.owner in w.makers && c.nonce in w.makers
    && (cd.record.Some? ==> Wrote(w, c.nonce, cd.record.value))
    && (cd.owner.Some? ==> OwnerSlotOk(w, c))
    && (cd.retired.Some? ==> c in w.filled && c.owner !in w.dir.owners && w.dir.canonical != Link(c.owner))
  }

  ghost predicate Holds(d: Dir, c: ClaimId) { c in d.claims && (d.claims[c].owner.Some? || d.claims[c].retired.Some?) }

  /** At most one claim holds a generation. */
  ghost predicate OneHolder(d: Dir) {
    forall c, e :: Holds(d, c) && Holds(d, e) && c.owner == e.owner ==> c == e
  }

  ghost predicate CanonicalOk(w: World) {
    w.dir.canonical.Link? ==>
      var n := w.dir.canonical.nonce;
      n in w.makers && (n in w.dir.owners || exists c :: HasOwnerSlot(w.dir, c) && c.owner == n)
  }

  ghost predicate DirOk(w: World) {
    && (forall x :: x in w.makers ==> w.makers[x] in w.pids)
    && (forall n :: n in w.dir.owners ==> OwnerOk(w, n))
    && (forall c :: c in w.dir.claims ==> ClaimOk(w, c))
    && OneHolder(w.dir)
    && CanonicalOk(w)
    && (forall c :: c in w.filled ==> c.nonce in w.makers && c.owner in w.makers && c.owner !in w.dir.owners)
  }

  // ----- the threads -----

  /** The generation was named by the canonical link when the thread looked. */
  ghost predicate Seen(w: World, n: Nonce) {
    n in w.makers && (n in w.dir.owners ==> w.dir.canonical == Link(n))
  }

  /** The generation has left the canonical path for good. */
  ghost predicate Passed(w: World, n: Nonce) {
    n in w.makers && w.dir.canonical != Link(n) && n !in w.dir.owners
  }

  ghost predicate NoSlot(d: Dir, c: ClaimId) { c in d.claims ==> d.claims[c].owner.None? }

  ghost predicate TombFree(d: Dir, c: ClaimId) { HasOwnerSlot(d, c) ==> d.claims[c].owner.value.tomb.Absent? }

  ghost predicate TombIfAny(d: Dir, c: ClaimId) { HasOwnerSlot(d, c) ==> !d.claims[c].owner.value.tomb.Absent? }

  ghost predicate OwnGen(w: World, t: Tid, n: Nonce, recorded: bool) {
    && t in w.pids && Mine(w, t, n) && n in w.dir.owners
    && w.dir.owners[n] == Slot(if recorded then Some(w.pids[t]) else None, Absent)
  }

  ghost predicate Unpublished(w: World, t: Tid, n: Nonce, recorded: bool) {
    OwnGen(w, t, n, recorded) && w.dir.canonical != Link(n)
  }

  ghost predicate Held(w: World, t: Tid, n: Nonce) { OwnGen(w, t, n, true) && w.dir.canonical == Link(n) }

  ghost predicate OwnEmpty(w: World, t: Tid, c: ClaimId, recorded: bool) {
    && t in w.pids && Mine(w, t, c.nonce) && c.owner in w.makers && c !in w.filled && c in w.dir.claims
    && w.dir.claims[c] == ClaimDir(if recorded then Some(w.pids[t]) else None, None, None)
  }

  ghost predicate OwnLoaded(w: World, t: Tid, c: ClaimId, detached: bool) {
    && Mine(w, t, c.nonce) && HasOwnerSlot(w.dir, c)
    && (detached <==> !w.dir.claims[c].owner.value.tomb.Absent?)
  }

  /** The claim directory before leaf removal `k`. */
  ghost predicate LeafShape(d: Dir, c: ClaimId, k: nat) {
    && c in d.claims && d.claims[c].owner.None?
    && (d.claims[c].record.Some? <==> k <= 4)
    && match d.claims[c].retired
       case None => k >= 4
       case Some(slot) =>
         k <= 3 && (slot.record.Some? <==> k <= 2) && (if k <= 1 then slot.tomb.Link? else slot.tomb.Absent?)
  }

  ghost predicate SourceOk(w: World, t: Tid, n: Nonce, source: Source, ctx: Ctx) {
    match source
    case FromOwner => (ctx.Releasing? && Held(w, t, n)) || (ctx.Recovering? && Seen(w, n) && Dead(w, n))
    case FromClaim(prior) =>
      && ctx.Recovering? && prior.owner == n && prior in w.filled
      && Dead(w, prior.nonce) && TombFree(w.dir, prior)
  }

  /** A claim of a dead process that a sweep is retiring. */
  ghost predicate Sweepable(w: World, c: ClaimId) { c in w.filled && Dead(w, c.nonce) && TombIfAny(w.dir, c) }

  ghost predicate Role(w: World, t: Tid, pc: Pc) {
    match pc
    case ProbeOwner(n, k, h) =>
      Seen(w, n) && (k == 3 ==> Wrote(w, n, h)) && (k >= 4 ==> n !in w.dir.owners) && k <= 4
    case Visit(n, _, _, c, k, _) =>
      && c.owner == n
      && (k >= 1 ==> c in w.filled)
      && (k >= 6 ==> NoSlot(w.dir, c) || Passed(w, n))
      && (k >= 7 ==> NoSlot(w.dir, c))
    case RecheckOwner(n, k, h) => Seen(w, n) && (k >= 2 ==> Wrote(w, n, h))
    case RecheckClaim(c, k, h) =>
      && (k >= 1 ==> c in w.filled)
      && (k == 2 ==> Wrote(w, c.nonce, h))
      && (k >= 3 ==> Dead(w, c.nonce))
      && (k >= 4 ==> TombFree(w.dir, c))
    case PublishClaim(n, source, ctx) => SourceOk(w, t, n, source, ctx)
    case Fill(c, source, ctx, k) => k <= 1 && SourceOk(w, t, c.owner, source, ctx) && OwnEmpty(w, t, c, true)
    case DropEmpty(c, ctx, k) => ctx.Recovering? && OwnEmpty(w, t, c, k <= 2)
    case DropOld(prior, c, _) =>
      OwnLoaded(w, t, c, false) && prior in w.filled && Dead(w, prior.nonce) && NoSlot(w.dir, prior)
    case Detach(c, ctx, k) => k <= 7 && !ctx.Sweeping? && OwnLoaded(w, t, c, k >= 7)
    case Retire(c, ctx, k) => k <= 6 && if ctx.Sweeping? then Sweepable(w, c) else OwnLoaded(w, t, c, true)
    case Leaf(c, ctx, k) =>
      && k <= 5 && c in w.filled
      && (if ctx.Sweeping? then Dead(w, c.nonce) && NoSlot(w.dir, c)
          else Mine(w, t, c.nonce) && LeafShape(w.dir, c, k))
    case SweepVisit(_, c, k, h) =>
      && (k >= 1 ==> c in w.filled)
      && (k >= 3 ==> Wrote(w, c.nonce, h))
      && (k >= 4 ==> TombIfAny(w.dir, c))
    case SweepFault(_, c, k) => c in w.filled && (k >= 1 ==> Passed(w, c.owner))
    case Publish(n) => Unpublished(w, t, n, true)
    case Discard(n, k) => Unpublished(w, t, n, k <= 2)
    case Verify(n, _) => Held(w, t, n)
    case InOp(n) => Held(w, t, n)
    case Release(n, k) => k <= 2 && Held(w, t, n)
    case Failed(e) => e.TimedOut? || e.MalformedClaims? || e.MalformedSweep?
    case _ => true
  }

  ghost predicate Inv(s: State) {
    && s.pcs.Keys == s.world.pids.Keys
    && DirOk(s.world)
    && forall t :: t in s.pcs && Live(s.world, t) ==> Role(s.world, t, s.pcs[t])
  }

  // ----- what one step guarantees to every other live thread -----

  ghost predicate SubMap<K, V>(m: map<K, V>, m': map<K, V>) { forall k :: k in m ==> k in m' && m'[k] == m[k] }

  /** Facts about identifiers and claims that no step takes back. */
  ghost predicate Stable(w: World, v: World) {
    && v.pids == w.pids && w.crashed <= v.crashed && w.filled <= v.filled
    && SubMap(w.makers, v.makers)
    && (forall n :: n in w.makers && n !in w.dir.owners ==> n !in v.dir.owners)
    && (forall n :: Seen(w, n) ==> Seen(v, n))
    && (forall n :: Passed(w, n) ==> Passed(v, n))
    && (forall c :: c in w.filled && NoSlot(w.dir, c) ==> NoSlot(v.dir, c))
    && (forall c :: c in w.filled && TombIfAny(w.dir, c) ==> TombIfAny(v.dir, c))
    && (forall c: ClaimId :: c in w.filled && Dead(w, c.nonce) && TombFree(w.dir, c) ==> TombFree(v.dir, c))
  }

  /** The generations and claims of thread `u` are left alone. */
  ghost predicate Spares(w: World, v: World, u: Tid) {
    && (forall n :: Mine(w, u, n) && n in w.dir.owners ==>
          && n in v.dir.owners && v.dir.owners[n] == w.dir.owners[n]
          && (w.dir.canonical == Link(n) <==> v.dir.canonical == Link(n)))
    && (forall n :: Mine(w, u, n) && v.dir.canonical == Link(n) ==> w.dir.canonical == Link(n))
    && (forall n :: Mine(v, u, n) ==> Mine(w, u, n))
    && (forall c: ClaimId :: Mine(w, u, c.nonce) ==>
          && (c in w.filled <==> c in v.filled)
          && (c in w.dir.claims <==> c in v.dir.claims)
          && (c in w.dir.claims ==> v.dir.claims[c] == w.dir.claims[c]))
  }

  ghost predicate Rely(w: World, v: World, u: Tid) { Stable(w, v) && Spares(w, v, u) }

  lemma RoleKept(w: World, v: World, u: Tid, pc: Pc)
    requires Rely(w, v, u) && Role(w, u, pc)
    ensures Role(v, u, pc)
  {
  }
}
