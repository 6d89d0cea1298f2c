/** Each call that changes the directory keeps `DirOk`, and keeps what every
    other live thread counts on. */
module LockSteps {
  import opened Wrappers
  import opened LockDirectory
  import opened CheckoutLock
  import opened LockInvariant

  function OrElse(d: Option<Dir>, orElse: Dir): Dir { if d.Some? then d.value else orElse }

  /** The directory after one call, by program counter: the calls not listed
      only read. */
  function DirAfter(d: Dir, me: Pid, pc: Pc, ch: Choice): Dir {
    match pc
    case PublishClaim(n, _, _) => AddClaim(d, ClaimId(n, ch.nonce), me)
    case Fill(c, source, _, k) =>
      if k == 0 then d
      else if source.FromOwner? then OrElse(RenameOwnerToClaim(d, c.owner, c), d)
      else OrElse(RenameClaimToClaim(d, source.prior, c), d)
    case DropEmpty(c, _, k) =>
      if k < 2 then d else OrElse(if k == 2 then RemoveClaimRecord(d, c) else RemoveClaimDir(d, c), d)
    case DropOld(c, _, k) =>
      if k < 2 then d else OrElse(if k == 2 then RemoveClaimRecord(d, c) else RemoveClaimDir(d, c), d)
    case Detach(c, _, k) => if k == 6 then OrElse(RenameCanonicalToTomb(d, c), d) else d
    case Retire(c, _, k) => if k >= 6 then OrElse(RenameOwnerToRetired(d, c), d) else d
    case Leaf(c, _, k) =>
      if k == 0 then d
      else OrElse(
        if k == 1 then RemoveRetiredTomb(d, c) else if k == 2 then RemoveRetiredRecord(d, c)
        else if k == 3 then RemoveRetiredDir(d, c) else if k == 4 then RemoveClaimRecord(d, c)
        else RemoveClaimDir(d, c), d)
    case PublishOwner => AddOwner(d, ch.nonce, me)
    case Publish(n) => OrElse(SymlinkCanonical(d, n), d)
    case Discard(n, k) =>
      if k < 2 then d else OrElse(if k == 2 then RemoveOwnerRecord(d, n) else RemoveOwnerDir(d, n), d)
    case _ => d
  }

  lemma StepDir(d: Dir, me: Pid, crashed: set<Pid>, pc: Pc, ch: Choice)
    ensures StepOf(d, me, crashed, pc, ch).dir == DirAfter(d, me, pc, ch)
  {
  }

  /** What one step of `t` owes everybody else. */
  ghost predicate RelyAll(w: World, v: World, t: Tid) {
    Stable(w, v) && forall u :: u != t && Live(w, u) ==> Spares(w, v, u)
  }

  function Changed(w: World, t: Tid, d: Dir, drawn: set<Nonce>, fills: set<ClaimId>): World {
    Apply(w, t, Effect(d, Idle, drawn, fills))
  }

  lemma DrawOwnerStable(w: World, t: Tid, n: Nonce)
    requires DirOk(w) && Live(w, t) && n !in w.makers
    ensures Stable(w, Changed(w, t, AddOwner(w.dir, n, w.pids[t]), {n}, {}))
  {
  }

  lemma DrawOwnerSpares(w: World, t: Tid, n: Nonce)
    requires DirOk(w) && Live(w, t) && n !in w.makers
    ensures forall u :: u != t && Live(w, u) ==> Spares(w, Changed(w, t, AddOwner(w.dir, n, w.pids[t]), {n}, {}), u)
  {
  }

  lemma DrawOwnerKeepsRely(w: World, t: Tid, n: Nonce)
    requires DirOk(w) && Live(w, t) && n !in w.makers
    ensures RelyAll(w, Changed(w, t, AddOwner(w.dir, n, w.pids[t]), {n}, {}), t)
  {
    DrawOwnerStable(w, t, n);
    DrawOwnerSpares(w, t, n);
  }

  lemma DrawOwnerKeepsDir(w: World, t: Tid, n: Nonce)
    requires DirOk(w) && Live(w, t) && n !in w.makers
    ensures DirOk(Changed(w, t, AddOwner(w.dir, n, w.pids[t]), {n}, {}))
  {
  }

  lemma DrawClaimStable(w: World, t: Tid, c: ClaimId)
    requires DirOk(w) && Live(w, t) && c.owner in w.makers && c.nonce !in w.makers
    ensures Stable(w, Changed(w, t, AddClaim(w.dir, c, w.pids[t]), {c.nonce}, {}))
  {
  }

  lemma DrawClaimSpares(w: World, t: Tid, c: ClaimId)
    requires DirOk(w) && Live(w, t) && c.owner in w.makers && c.nonce !in w.makers
    ensures forall u :: u != t && Live(w, u) ==> Spares(w, Changed(w, t, AddClaim(w.dir, c, w.pids[t]), {c.nonce}, {}), u)
  {
  }

  lemma DrawClaimKeepsRely(w: World, t: Tid, c: ClaimId)
    requires DirOk(w) && Live(w, t) && c.owner in w.makers && c.nonce !in w.makers
    ensures RelyAll(w, Changed(w, t, AddClaim(w.dir, c, w.pids[t]), {c.nonce}, {}), t)
  {
    DrawClaimStable(w, t, c);
    DrawClaimSpares(w, t, c);
  }

  lemma DrawClaimKeepsDir(w: World, t: Tid, c: ClaimId)
    requires DirOk(w) && Live(w, t) && c.owner in w.makers && c.nonce !in w.makers
    ensures DirOk(Changed(w, t, AddClaim(w.dir, c, w.pids[t]), {c.nonce}, {}))
  {
  }

  lemma SymlinkStable(w: World, t: Tid, n: Nonce)
    requires DirOk(w) && Unpublished(w, t, n, true) && w.dir.canonical.Absent?
    ensures Stable(w, Changed(w, t, SymlinkCanonical(w.dir, n).value, {}, {}))
  {
  }

  lemma SymlinkSpares(w: World, t: Tid, n: Nonce)
    requires DirOk(w) && Unpublished(w, t, n, true) && w.dir.canonical.Absent?
    ensures forall u :: u != t && Live(w, u) ==> Spares(w, Changed(w, t, SymlinkCanonical(w.dir, n).value, {}, {}), u)
  {
  }

  lemma SymlinkKeepsRely(w: World, t: Tid, n: Nonce)
    requires DirOk(w) && Unpublished(w, t, n, true) && w.dir.canonical.Absent?
    ensures RelyAll(w, Changed(w, t, SymlinkCanonical(w.dir, n).value, {}, {}), t)
  {
    SymlinkStable(w, t, n);
    SymlinkSpares(w, t, n);
  }

  lemma SymlinkKeepsDir(w: World, t: Tid, n: Nonce)
    requires DirOk(w) && Unpublished(w, t, n, true) && w.dir.canonical.Absent?
    ensures DirOk(Changed(w, t, SymlinkCanonical(w.dir, n).value, {}, {}))
  {
  }

  lemma DiscardStable(w: World, t: Tid, n: Nonce, recorded: bool)
    requires DirOk(w) && Unpublished(w, t, n, recorded)
    ensures var d := if recorded then RemoveOwnerRecord(w.dir, n) else RemoveOwnerDir(w.dir, n);
      d.Some? && Stable(w, Changed(w, t, d.value, {}, {}))
  {
  }

  lemma DiscardSpares(w: World, t: Tid, n: Nonce, recorded: bool)
    requires DirOk(w) && Unpublished(w, t, n, recorded)
    ensures var d := if recorded then RemoveOwnerRecord(w.dir, n) else RemoveOwnerDir(w.dir, n);
      d.Some? && forall u :: u != t && Live(w, u) ==> Spares(w, Changed(w, t, d.value, {}, {}), u)
  {
  }

  lemma DiscardKeepsRely(w: World, t: Tid, n: Nonce, recorded: bool)
    requires DirOk(w) && Unpublished(w, t, n, recorded)
    ensures var d := if recorded then RemoveOwnerRecord(w.dir, n) else RemoveOwnerDir(w.dir, n);
      d.Some? && RelyAll(w, Changed(w, t, d.value, {}, {}), t)
  {
    DiscardStable(w, t, n, recorded);
    DiscardSpares(w, t, n, recorded);
  }

  /** Dropping the record or the directory of an unpublished owner touches no
      other owner and no claim. */
  lemma DiscardOwnersOk(w: World, n: Nonce, v: World)
    requires DirOk(w) && w.dir.canonical != Link(n) && v.dir.canonical == w.dir.canonical
    requires v.makers == w.makers && v.pids == w.pids && v.crashed == w.crashed && v.filled == w.filled
    requires v.dir.claims == w.dir.claims && n in w.dir.owners
    requires v.dir.owners == w.dir.owners - {n} || v.dir.owners == w.dir.owners[n := Slot(None, Absent)]
    ensures DirOk(v)
  {
    forall x | x in v.dir.owners ensures OwnerOk(v, x) { assert OwnerOk(w, x); }
    forall c | c in v.dir.claims ensures ClaimOk(v, c) { assert ClaimOk(w, c); }
  }

  lemma DiscardKeepsDir(w: World, t: Tid, n: Nonce, recorded: bool)
    requires DirOk(w) && Unpublished(w, t, n, recorded)
    ensures var d := if recorded then RemoveOwnerRecord(w.dir, n) else RemoveOwnerDir(w.dir, n);
      d.Some? && DirOk(Changed(w, t, d.value, {}, {}))
  {
    var d := if recorded then RemoveOwnerRecord(w.dir, n) else RemoveOwnerDir(w.dir, n);
    var v := Changed(w, t, d.value, {}, {});
    assert v.makers == w.makers && v.filled == w.filled;
    DiscardOwnersOk(w, n, v);
  }

  lemma ClaimOwnerStable(w: World, t: Tid, c: ClaimId, ctx: Ctx)
    requires DirOk(w) && Live(w, t) && OwnEmpty(w, t, c, true) && SourceOk(w, t, c.owner, FromOwner, ctx)
    requires c.owner in w.dir.owners
    ensures var d := RenameOwnerToClaim(w.dir, c.owner, c);
      d.Some? && Stable(w, Changed(w, t, d.value, {}, {c}))
  {
  }

  lemma ClaimOwnerSpares(w: World, t: Tid, c: ClaimId, ctx: Ctx)
    requires DirOk(w) && Live(w, t) && OwnEmpty(w, t, c, true) && SourceOk(w, t, c.owner, FromOwner, ctx)
    requires c.owner in w.dir.owners
    ensures var d := RenameOwnerToClaim(w.dir, c.owner, c);
      d.Some? && forall u :: u != t && Live(w, u) ==> Spares(w, Changed(w, t, d.value, {}, {c}), u)
  {
  }

  lemma ClaimOwnerKeepsRely(w: World, t: Tid, c: ClaimId, ctx: Ctx)
    requires DirOk(w) && Live(w, t) && OwnEmpty(w, t, c, true) && SourceOk(w, t, c.owner, FromOwner, ctx)
    requires c.owner in w.dir.owners
    ensures var d := RenameOwnerToClaim(w.dir, c.owner, c);
      d.Some? && RelyAll(w, Changed(w, t, d.value, {}, {c}), t)
  {
    ClaimOwnerStable(w, t, c, ctx);
    ClaimOwnerSpares(w, t, c, ctx);
  }

  lemma ClaimOwnerKeepsDir(w: World, t: Tid, c: ClaimId, ctx: Ctx)
    requires DirOk(w) && Live(w, t) && OwnEmpty(w, t, c, true) && SourceOk(w, t, c.owner, FromOwner, ctx)
    requires c.owner in w.dir.owners
    ensures var d := RenameOwnerToClaim(w.dir, c.owner, c);
      d.Some? && DirOk(Changed(w, t, d.value, {}, {c}))
  {
  }

  lemma TakeOverStable(w: World, t: Tid, prior: ClaimId, c: ClaimId)
    requires DirOk(w) && Live(w, t) && OwnEmpty(w, t, c, true) && SourceOk(w, t, c.owner, FromClaim(prior), Recovering)
    requires HasOwnerSlot(w.dir, prior)
    ensures var d := RenameClaimToClaim(w.dir, prior, c);
      d.Some? && Stable(w, Changed(w, t, d.value, {}, {c}))
  {
  }

  lemma TakeOverSpares(w: World, t: Tid, prior: ClaimId, c: ClaimId)
    requires DirOk(w) && Live(w, t) && OwnEmpty(w, t, c, true) && SourceOk(w, t, c.owner, FromClaim(prior), Recovering)
    requires HasOwnerSlot(w.dir, prior)
    ensures var d := RenameClaimToClaim(w.dir, prior, c);
      d.Some? && forall u :: u != t && Live(w, u) ==> Spares(w, Changed(w, t, d.value, {}, {c}), u)
  {
  }

  lemma TakeOverKeepsRely(w: World, t: Tid, prior: ClaimId, c: ClaimId)
    requires DirOk(w) && Live(w, t) && OwnEmpty(w, t, c, true) && SourceOk(w, t, c.owner, FromClaim(prior), Recovering)
    requires HasOwnerSlot(w.dir, prior)
    ensures var d := RenameClaimToClaim(w.dir, prior, c);
      d.Some? && RelyAll(w, Changed(w, t, d.value, {}, {c}), t)
  {
    TakeOverStable(w, t, prior, c);
    TakeOverSpares(w, t, prior, c);
  }

  lemma TakeOverKeepsDir(w: World, t: Tid, prior: ClaimId, c: ClaimId)
    requires DirOk(w) && Live(w, t) && OwnEmpty(w, t, c, true) && SourceOk(w, t, c.owner, FromClaim(prior), Recovering)
    requires HasOwnerSlot(w.dir, prior)
    ensures var d := RenameClaimToClaim(w.dir, prior, c);
      d.Some? && DirOk(Changed(w, t, d.value, {}, {c}))
  {
  }

  lemma DetachStable(w: World, t: Tid, c: ClaimId)
    requires DirOk(w) && Live(w, t) && OwnLoaded(w, t, c, false)
    ensures w.dir.canonical == Link(c.owner)
    ensures var d := RenameCanonicalToTomb(w.dir, c);
      d.Some? && Stable(w, Changed(w, t, d.value, {}, {}))
  {
  }

  lemma DetachSpares(w: World, t: Tid, c: ClaimId)
    requires DirOk(w) && Live(w, t) && OwnLoaded(w, t, c, false)
    ensures w.dir.canonical == Link(c.owner)
    ensures var d := RenameCanonicalToTomb(w.dir, c);
      d.Some? && forall u :: u != t && Live(w, u) ==> Spares(w, Changed(w, t, d.value, {}, {}), u)
  {
  }

  lemma DetachKeepsRely(w: World, t: Tid, c: ClaimId)
    requires DirOk(w) && Live(w, t) && OwnLoaded(w, t, c, false)
    ensures w.dir.canonical == Link(c.owner)
    ensures var d := RenameCanonicalToTomb(w.dir, c);
      d.Some? && RelyAll(w, Changed(w, t, d.value, {}, {}), t)
  {
    DetachStable(w, t, c);
    DetachSpares(w, t, c);
  }

  lemma DetachKeepsDir(w: World, t: Tid, c: ClaimId)
    requires DirOk(w) && Live(w, t) && OwnLoaded(w, t, c, false)
    ensures w.dir.canonical == Link(c.owner)
    ensures var d := RenameCanonicalToTomb(w.dir, c);
      d.Some? && DirOk(Changed(w, t, d.value, {}, {}))
  {
  }

  ghost predicate MayRetire(w: World, t: Tid, c: ClaimId) { Mine(w, t, c.nonce) || Dead(w, c.nonce) }

  lemma RetireStable(w: World, t: Tid, c: ClaimId)
    requires DirOk(w) && MayRetire(w, t, c) && SlotTombstoned(w.dir, c)
    ensures var d := RenameOwnerToRetired(w.dir, c);
      d.Some? && Stable(w, Changed(w, t, d.value, {}, {}))
  {
    var v := Changed(w, t, RenameOwnerToRetired(w.dir, c).value, {}, {});
    assert v.makers == w.makers && v.filled == w.filled;
  }

  lemma RetireSpares(w: World, t: Tid, c: ClaimId)
    requires DirOk(w) && MayRetire(w, t, c) && SlotTombstoned(w.dir, c)
    ensures var d := RenameOwnerToRetired(w.dir, c);
      d.Some? && forall u :: u != t && Live(w, u) ==> Spares(w, Changed(w, t, d.value, {}, {}), u)
  {
    var v := Changed(w, t, RenameOwnerToRetired(w.dir, c).value, {}, {});
    assert v.makers == w.makers && v.filled == w.filled;
  }

  lemma RetireKeepsRely(w: World, t: Tid, c: ClaimId)
    requires DirOk(w) && MayRetire(w, t, c) && SlotTombstoned(w.dir, c)
    ensures var d := RenameOwnerToRetired(w.dir, c);
      d.Some? && RelyAll(w, Changed(w, t, d.value, {}, {}), t)
  {
    RetireStable(w, t, c);
    RetireSpares(w, t, c);
  }

  lemma RetireKeepsDir(w: World, t: Tid, c: ClaimId)
    requires DirOk(w) && MayRetire(w, t, c) && SlotTombstoned(w.dir, c)
    ensures var d := RenameOwnerToRetired(w.dir, c);
      d.Some? && DirOk(Changed(w, t, d.value, {}, {}))
  {
  }

  /** Leaf removals and the removal of an empty claim touch no owner slot. */
  ghost predicate Sheds(d: Dir, e: Dir, c: ClaimId) {
    && e.canonical == d.canonical && e.owners == d.owners
    && c in d.claims && d.claims[c].owner.None?
    && (c in e.claims ==>
          && e.claims[c].owner.None?
          && (e.claims[c].record.Some? ==> e.claims[c].record == d.claims[c].record)
          && (e.claims[c].retired.Some? ==> d.claims[c].retired.Some?))
    && (forall x :: x != c ==> (x in e.claims <==> x in d.claims))
    && (forall x :: x != c && x in e.claims ==> e.claims[x] == d.claims[x])
  }

  lemma ShedStable(w: World, t: Tid, c: ClaimId, d: Dir)
    requires DirOk(w) && MayRetire(w, t, c) && Sheds(w.dir, d, c)
    ensures Stable(w, Changed(w, t, d, {}, {}))
  {
    var v := Changed(w, t, d, {}, {});
    assert v.makers == w.makers && v.filled == w.filled;
  }

  lemma ShedSpares(w: World, t: Tid, c: ClaimId, d: Dir)
    requires DirOk(w) && MayRetire(w, t, c) && Sheds(w.dir, d, c)
    ensures forall u :: u != t && Live(w, u) ==> Spares(w, Changed(w, t, d, {}, {}), u)
  {
    var v := Changed(w, t, d, {}, {});
    assert v.makers == w.makers && v.filled == w.filled;
  }

  lemma ShedKeepsRely(w: World, t: Tid, c: ClaimId, d: Dir)
    requires DirOk(w) && MayRetire(w, t, c) && Sheds(w.dir, d, c)
    ensures RelyAll(w, Changed(w, t, d, {}, {}), t)
  {
    ShedStable(w, t, c, d);
    ShedSpares(w, t, c, d);
  }

  lemma ShedKeepsDir(w: World, t: Tid, c: ClaimId, d: Dir)
    requires DirOk(w) && MayRetire(w, t, c) && Sheds(w.dir, d, c)
    ensures DirOk(Changed(w, t, d, {}, {}))
  {
    var v := Changed(w, t, d, {}, {});
    assert v.makers == w.makers && v.filled == w.filled && v.dir == d;
    forall x | x in d.claims ensures ClaimOk(v, x) { assert ClaimOk(w, x); }
    forall n | n in d.owners ensures OwnerOk(v, n) { assert OwnerOk(w, n); }
    assert forall x :: Holds(d, x) ==> Holds(w.dir, x);
    assert forall x :: HasOwnerSlot(w.dir, x) ==> HasOwnerSlot(d, x);
  }
}
