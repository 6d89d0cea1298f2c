/** What a transfer does when nobody gets in its way, on any directory it may begin
    in: the claim, the detachment, the retirement and the removals leave nothing of
    the generation and touch nothing else. */
module LockTransfers {
  import opened Wrappers
  import opened LockDirectory
  import opened CheckoutLock
  import opened LockSteps
  import opened LockConformance

  /** Where a thread is after some calls of its own. */
  datatype At = At(dir: Dir, pc: Pc)

  function Calls(at: At, me: Pid, crashed: set<Pid>, ch: Choice, n: nat): At
    decreases n
  {
    if n == 0 then at
    else
      var e := StepOf(at.dir, me, crashed, at.pc, ch);
      Calls(At(e.dir, e.pc), me, crashed, ch, n - 1)
  }

  lemma OneCall(at: At, me: Pid, crashed: set<Pid>, ch: Choice, next: At, n: nat)
    requires var e := StepOf(at.dir, me, crashed, at.pc, ch); e.dir == next.dir && e.pc == next.pc
    ensures Calls(at, me, crashed, ch, n + 1) == Calls(next, me, crashed, ch, n)
  {
  }

  lemma LeafCall(at: At, me: Pid, crashed: set<Pid>, ch: Choice, next: At, n: nat)
    requires at.pc.Leaf? && LeafStep(at.dir, at.pc) == Go(next.dir, next.pc)
    ensures Calls(at, me, crashed, ch, n + 1) == Calls(next, me, crashed, ch, n)
  {
    OneCall(at, me, crashed, ch, next, n);
  }

  lemma DetachCall(at: At, me: Pid, crashed: set<Pid>, ch: Choice, next: At, n: nat)
    requires (at.pc.Detach? || at.pc.Retire?) && DetachStep(at.dir, at.pc) == Go(next.dir, next.pc)
    ensures Calls(at, me, crashed, ch, n + 1) == Calls(next, me, crashed, ch, n)
  {
    OneCall(at, me, crashed, ch, next, n);
  }

  lemma ClaimCall(at: At, me: Pid, crashed: set<Pid>, ch: Choice, next: At, n: nat)
    requires at.pc.PublishClaim? || at.pc.Fill? || at.pc.DropOld? || at.pc.DropEmpty?
    requires var e := ClaimStep(at.dir, me, at.pc, ch); e.dir == next.dir && e.pc == next.pc
    ensures Calls(at, me, crashed, ch, n + 1) == Calls(next, me, crashed, ch, n)
  {
    OneCall(at, me, crashed, ch, next, n);
  }

  lemma AcquireCall(at: At, me: Pid, crashed: set<Pid>, ch: Choice, next: At, n: nat)
    requires at.pc.PublishOwner? || at.pc.Publish? || at.pc.Discard? || at.pc.Verify?
    requires var e := AcquireStep(at.dir, me, at.pc, ch); e.dir == next.dir && e.pc == next.pc
    ensures Calls(at, me, crashed, ch, n + 1) == Calls(next, me, crashed, ch, n)
  {
    OneCall(at, me, crashed, ch, next, n);
  }

  // ----- the phases -----

  function WithClaim(d: Dir, c: ClaimId, dir: ClaimDir): Dir { d.(claims := d.claims[c := dir]) }

  function WithoutClaim(d: Dir, c: ClaimId): Dir { d.(claims := d.claims - {c}) }

  lemma Rewritten(d: Dir, c: ClaimId, x: ClaimDir, y: ClaimDir)
    ensures WithClaim(WithClaim(d, c, x), c, y) == WithClaim(d, c, y)
    ensures WithoutClaim(WithClaim(d, c, x), c) == WithoutClaim(d, c)
    ensures c in d.claims && d.claims[c] == x ==> WithClaim(d, c, x) == d
  {
  }

  /** A retired claim before call `k` of its removal. */
  function Emptied(p: Pid, slot: Slot, k: nat): ClaimDir {
    if k <= 1 then ClaimDir(Some(p), None, Some(slot))
    else if k == 2 then ClaimDir(Some(p), None, Some(Slot(slot.record, Absent)))
    else if k == 3 then ClaimDir(Some(p), None, Some(Slot(None, Absent)))
    else if k == 4 then ClaimDir(Some(p), None, None)
    else ClaimDir(None, None, None)
  }

  lemma LeafAt(d: Dir, c: ClaimId, ctx: Ctx, p: Pid, slot: Slot, k: nat)
    requires slot.record.Some? && slot.tomb.Link? && k <= 4
    ensures LeafStep(WithClaim(d, c, Emptied(p, slot, k)), Leaf(c, ctx, k))
      == Go(WithClaim(d, c, Emptied(p, slot, k + 1)), Leaf(c, ctx, k + 1))
  {
    Rewritten(d, c, Emptied(p, slot, k), Emptied(p, slot, k + 1));
  }

  lemma LeafLast(d: Dir, c: ClaimId, ctx: Ctx, p: Pid, slot: Slot)
    ensures LeafStep(WithClaim(d, c, Emptied(p, slot, 5)), Leaf(c, ctx, 5)) == Go(WithoutClaim(d, c), Done(ctx))
  {
    Rewritten(d, c, Emptied(p, slot, 5), Emptied(p, slot, 5));
  }

  lemma {:induction false} LeafCalls(d: Dir, me: Pid, crashed: set<Pid>, ch: Choice, c: ClaimId, ctx: Ctx,
                                     p: Pid, slot: Slot, k: nat, n: nat)
    requires slot.record.Some? && slot.tomb.Link? && k <= 5
    ensures Calls(At(WithClaim(d, c, Emptied(p, slot, k)), Leaf(c, ctx, k)), me, crashed, ch, 6 - k + n)
      == Calls(At(WithoutClaim(d, c), Done(ctx)), me, crashed, ch, n)
    decreases 5 - k
  {
    var at := At(WithClaim(d, c, Emptied(p, slot, k)), Leaf(c, ctx, k));
    if k == 5 {
      LeafLast(d, c, ctx, p, slot);
      LeafCall(at, me, crashed, ch, At(WithoutClaim(d, c), Done(ctx)), n);
    } else {
      LeafAt(d, c, ctx, p, slot, k);
      LeafCall(at, me, crashed, ch, At(WithClaim(d, c, Emptied(p, slot, k + 1)), Leaf(c, ctx, k + 1)), 5 - k + n);
      LeafCalls(d, me, crashed, ch, c, ctx, p, slot, k + 1, n);
    }
  }

  lemma {:induction false} RetireChecks(d: Dir, me: Pid, crashed: set<Pid>, ch: Choice, c: ClaimId, ctx: Ctx, k: nat, n: nat)
    requires Detached(d, c) && k <= 6
    ensures Calls(At(d, Retire(c, ctx, k)), me, crashed, ch, 6 - k + n) == Calls(At(d, Retire(c, ctx, 6)), me, crashed, ch, n)
    decreases 6 - k
  {
    if k < 6 {
      DetachCall(At(d, Retire(c, ctx, k)), me, crashed, ch, At(d, Retire(c, ctx, k + 1)), 5 - k + n);
      RetireChecks(d, me, crashed, ch, c, ctx, k + 1, n);
    }
  }

  lemma RetireRenames(d: Dir, c: ClaimId, ctx: Ctx, p: Pid, slot: Slot)
    requires c in d.claims && d.claims[c] == ClaimDir(Some(p), Some(slot), None)
    ensures DetachStep(d, Retire(c, ctx, 6)) == Go(WithClaim(d, c, Emptied(p, slot, 0)), Leaf(c, ctx, 0))
  {
  }

  /** The retirement of a whole detached claim leaves nothing of it. */
  lemma RetireCalls(d: Dir, me: Pid, crashed: set<Pid>, ch: Choice, c: ClaimId, ctx: Ctx, n: nat)
    requires Detached(d, c)
    ensures Calls(At(d, Retire(c, ctx, 0)), me, crashed, ch, 13 + n)
      == Calls(At(WithoutClaim(d, c), Done(ctx)), me, crashed, ch, n)
  {
    var slot, p := d.claims[c].owner.value, d.claims[c].record.value;
    RetireChecks(d, me, crashed, ch, c, ctx, 0, n + 7);
    RetireRenames(d, c, ctx, p, slot);
    DetachCall(At(d, Retire(c, ctx, 6)), me, crashed, ch, At(WithClaim(d, c, Emptied(p, slot, 0)), Leaf(c, ctx, 0)), n + 6);
    LeafCalls(d, me, crashed, ch, c, ctx, p, slot, 0, n);
  }

  lemma {:induction false} DetachChecks(d: Dir, me: Pid, crashed: set<Pid>, ch: Choice, c: ClaimId, ctx: Ctx, k: nat, n: nat)
    requires Whole(d, c) && d.canonical == Link(c.owner) && k <= 6
    ensures Calls(At(d, Detach(c, ctx, k)), me, crashed, ch, 6 - k + n) == Calls(At(d, Detach(c, ctx, 6)), me, crashed, ch, n)
    decreases 6 - k
  {
    if k < 6 {
      DetachCall(At(d, Detach(c, ctx, k)), me, crashed, ch, At(d, Detach(c, ctx, k + 1)), 5 - k + n);
      DetachChecks(d, me, crashed, ch, c, ctx, k + 1, n);
    }
  }

  lemma DetachRenames(d: Dir, c: ClaimId, ctx: Ctx, d': Dir)
    requires Whole(d, c) && d.canonical == Link(c.owner)
    requires d' == WithClaim(d.(canonical := Absent), c,
                             d.claims[c].(owner := Some(Slot(d.claims[c].owner.value.record, Link(c.owner)))))
    ensures DetachStep(d, Detach(c, ctx, 6)) == Go(d', Detach(c, ctx, 7))
    ensures DetachStep(d', Detach(c, ctx, 7)) == Go(d', Retire(c, ctx, 0))
    ensures Detached(d', c) && WithoutClaim(d', c) == Dir(Absent, d.owners, d.claims - {c})
  {
    Rewritten(d.(canonical := Absent), c, d'.claims[c], d'.claims[c]);
  }

  /** The detachment of a whole claim frees the name and leaves nothing of the claim. */
  lemma DetachCalls(d: Dir, me: Pid, crashed: set<Pid>, ch: Choice, c: ClaimId, ctx: Ctx, n: nat)
    requires Whole(d, c) && d.canonical == Link(c.owner)
    ensures Calls(At(d, Detach(c, ctx, 0)), me, crashed, ch, 21 + n)
      == Calls(At(Dir(Absent, d.owners, d.claims - {c}), Done(ctx)), me, crashed, ch, n)
  {
    var d' := WithClaim(d.(canonical := Absent), c,
                        d.claims[c].(owner := Some(Slot(d.claims[c].owner.value.record, Link(c.owner)))));
    DetachChecks(d, me, crashed, ch, c, ctx, 0, n + 15);
    DetachRenames(d, c, ctx, d');
    DetachCall(At(d, Detach(c, ctx, 6)), me, crashed, ch, At(d', Detach(c, ctx, 7)), n + 14);
    DetachCall(At(d', Detach(c, ctx, 7)), me, crashed, ch, At(d', Retire(c, ctx, 0)), n + 13);
    RetireCalls(d', me, crashed, ch, c, ctx, n);
  }

  /** The claim taken over before call `k` of its removal. */
  function Dropped(p: Pid, k: nat): ClaimDir { ClaimDir(if k <= 2 then Some(p) else None, None, None) }

  function Dropping(d: Dir, prior: ClaimId, c: ClaimId, p: Pid, k: nat): At {
    if k <= 3 then At(WithClaim(d, prior, Dropped(p, k)), DropOld(prior, c, k))
    else At(WithoutClaim(d, prior), Detach(c, Recovering, 0))
  }

  lemma DropCall(d: Dir, me: Pid, crashed: set<Pid>, ch: Choice, prior: ClaimId, c: ClaimId, p: Pid, k: nat, n: nat)
    requires k <= 3
    ensures Calls(Dropping(d, prior, c, p, k), me, crashed, ch, n + 1) == Calls(Dropping(d, prior, c, p, k + 1), me, crashed, ch, n)
  {
    Rewritten(d, prior, Dropped(p, k), Dropped(p, k + 1));
    ClaimCall(Dropping(d, prior, c, p, k), me, crashed, ch, Dropping(d, prior, c, p, k + 1), n);
  }

  /** The removal of the claim taken over, empty now. */
  lemma DropCalls(d: Dir, me: Pid, crashed: set<Pid>, ch: Choice, prior: ClaimId, c: ClaimId, p: Pid, n: nat)
    ensures Calls(Dropping(d, prior, c, p, 0), me, crashed, ch, 4 + n) == Calls(Dropping(d, prior, c, p, 4), me, crashed, ch, n)
  {
    DropCall(d, me, crashed, ch, prior, c, p, 0, n + 3);
    DropCall(d, me, crashed, ch, prior, c, p, 1, n + 2);
    DropCall(d, me, crashed, ch, prior, c, p, 2, n + 1);
    DropCall(d, me, crashed, ch, prior, c, p, 3, n);
  }

  function Undoing(d: Dir, c: ClaimId, ctx: Ctx, p: Pid, k: nat): At {
    if k <= 3 then At(WithClaim(d, c, Dropped(p, k)), DropEmpty(c, ctx, k)) else At(WithoutClaim(d, c), Fault(ctx, c))
  }

  lemma UndoCall(d: Dir, me: Pid, crashed: set<Pid>, ch: Choice, c: ClaimId, ctx: Ctx, p: Pid, k: nat, n: nat)
    requires k <= 3
    ensures Calls(Undoing(d, c, ctx, p, k), me, crashed, ch, n + 1) == Calls(Undoing(d, c, ctx, p, k + 1), me, crashed, ch, n)
  {
    Rewritten(d, c, Dropped(p, k), Dropped(p, k + 1));
    ClaimCall(Undoing(d, c, ctx, p, k), me, crashed, ch, Undoing(d, c, ctx, p, k + 1), n);
  }

  /** The removal of a claim of one's own that came too late. */
  lemma UndoCalls(d: Dir, me: Pid, crashed: set<Pid>, ch: Choice, c: ClaimId, ctx: Ctx, p: Pid, n: nat)
    ensures Calls(Undoing(d, c, ctx, p, 0), me, crashed, ch, 4 + n) == Calls(Undoing(d, c, ctx, p, 4), me, crashed, ch, n)
  {
    UndoCall(d, me, crashed, ch, c, ctx, p, 0, n + 3);
    UndoCall(d, me, crashed, ch, c, ctx, p, 1, n + 2);
    UndoCall(d, me, crashed, ch, c, ctx, p, 2, n + 1);
    UndoCall(d, me, crashed, ch, c, ctx, p, 3, n);
  }

  // ----- whole transfers -----

  lemma FillsFromOwner(d: Dir, me: Pid, ch: Choice, c: ClaimId, ctx: Ctx, d1: Dir, d2: Dir)
    requires OwnerRecorded(d, c.owner) && c == ClaimId(c.owner, ch.nonce) && c !in d.claims
    requires d1 == WithClaim(d, c, ClaimDir(Some(me), None, None))
    requires d2 == WithClaim(d.(owners := d.owners - {c.owner}), c, ClaimDir(Some(me), Some(d.owners[c.owner]), None))
    ensures var e := ClaimStep(d, me, PublishClaim(c.owner, FromOwner, ctx), ch); e.dir == d1 && e.pc == Fill(c, FromOwner, ctx, 0)
    ensures ClaimStep(d1, me, Fill(c, FromOwner, ctx, 0), ch) == Go(d1, Fill(c, FromOwner, ctx, 1))
    ensures var e := ClaimStep(d1, me, Fill(c, FromOwner, ctx, 1), ch); e.dir == d2 && e.pc == Detach(c, ctx, 0)
    ensures Whole(d2, c) && d2.canonical == d.canonical && d2.claims - {c} == d.claims
  {
    Rewritten(d.(owners := d.owners - {c.owner}), c, d1.claims[c], d2.claims[c]);
  }

  /** A release, or the recovery of a dead owner, that nobody disturbs: after 24 calls
      the name is free, the owner directory is gone, and nothing else has changed. */
  lemma OwnerTransfer(d: Dir, me: Pid, crashed: set<Pid>, ch: Choice, gen: Nonce, ctx: Ctx, n: nat)
    requires d.canonical == Link(gen) && OwnerRecorded(d, gen) && ClaimId(gen, ch.nonce) !in d.claims
    ensures Calls(At(d, PublishClaim(gen, FromOwner, ctx)), me, crashed, ch, 24 + n)
      == Calls(At(Dir(Absent, d.owners - {gen}, d.claims), Done(ctx)), me, crashed, ch, n)
  {
    var c := ClaimId(gen, ch.nonce);
    var d1 := WithClaim(d, c, ClaimDir(Some(me), None, None));
    var d2 := WithClaim(d.(owners := d.owners - {gen}), c, ClaimDir(Some(me), Some(d.owners[gen]), None));
    FillsFromOwner(d, me, ch, c, ctx, d1, d2);
    ClaimCall(At(d, PublishClaim(gen, FromOwner, ctx)), me, crashed, ch, At(d1, Fill(c, FromOwner, ctx, 0)), n + 23);
    ClaimCall(At(d1, Fill(c, FromOwner, ctx, 0)), me, crashed, ch, At(d1, Fill(c, FromOwner, ctx, 1)), n + 22);
    ClaimCall(At(d1, Fill(c, FromOwner, ctx, 1)), me, crashed, ch, At(d2, Detach(c, ctx, 0)), n + 21);
    DetachCalls(d2, me, crashed, ch, c, ctx, n);
  }

  lemma FillsFromClaim(d: Dir, me: Pid, ch: Choice, prior: ClaimId, c: ClaimId, d1: Dir, d2: Dir, p: Pid)
    requires Whole(d, prior) && c == ClaimId(prior.owner, ch.nonce) && c !in d.claims && d.claims[prior].record == Some(p)
    requires d1 == WithClaim(d, c, ClaimDir(Some(me), None, None))
    requires d2 == WithClaim(d, c, ClaimDir(Some(me), d.claims[prior].owner, None))
    ensures var e := ClaimStep(d, me, PublishClaim(prior.owner, FromClaim(prior), Recovering), ch);
      e.dir == d1 && e.pc == Fill(c, FromClaim(prior), Recovering, 1)
    ensures var e := ClaimStep(d1, me, Fill(c, FromClaim(prior), Recovering, 1), ch);
      e.dir == WithClaim(d2, prior, Dropped(p, 0)) && e.pc == DropOld(prior, c, 0)
  {
    Rewritten(d, c, d1.claims[c], d2.claims[c]);
  }

  lemma PriorGone(d: Dir, prior: ClaimId, c: ClaimId, dir: ClaimDir, d3: Dir)
    requires c !in d.claims && Whole(d, prior) && dir.record.Some? && dir.owner == d.claims[prior].owner && dir.retired.None?
    requires d3 == WithoutClaim(WithClaim(d, c, dir), prior)
    ensures Whole(d3, c) && d3.canonical == d.canonical && d3.owners == d.owners && d3.claims - {c} == d.claims - {prior}
  {
  }

  /** A takeover of a dead claim that nobody disturbs: after 27 calls the name is free,
      the dead claim and its owner directory are gone, and nothing else has changed. */
  lemma ClaimTransfer(d: Dir, me: Pid, crashed: set<Pid>, ch: Choice, prior: ClaimId, n: nat)
    requires d.canonical == Link(prior.owner) && Whole(d, prior) && ClaimId(prior.owner, ch.nonce) !in d.claims
    ensures Calls(At(d, PublishClaim(prior.owner, FromClaim(prior), Recovering)), me, crashed, ch, 27 + n)
      == Calls(At(Dir(Absent, d.owners, d.claims - {prior}), Look), me, crashed, ch, n)
  {
    var c, p := ClaimId(prior.owner, ch.nonce), d.claims[prior].record.value;
    var d1 := WithClaim(d, c, ClaimDir(Some(me), None, None));
    var d2 := WithClaim(d, c, ClaimDir(Some(me), d.claims[prior].owner, None));
    var taken, d3 := At(WithClaim(d2, prior, Dropped(p, 0)), DropOld(prior, c, 0)), WithoutClaim(d2, prior);
    FillsFromClaim(d, me, ch, prior, c, d1, d2, p);
    ClaimCall(At(d, PublishClaim(prior.owner, FromClaim(prior), Recovering)), me, crashed, ch,
              At(d1, Fill(c, FromClaim(prior), Recovering, 1)), n + 26);
    ClaimCall(At(d1, Fill(c, FromClaim(prior), Recovering, 1)), me, crashed, ch, taken, n + 25);
    DropCalls(d2, me, crashed, ch, prior, c, p, n + 21);
    PriorGone(d, prior, c, d2.claims[c], d3);
    DetachCalls(d3, me, crashed, ch, c, Recovering, n);
  }

  lemma FillsNothing(d: Dir, me: Pid, ch: Choice, c: ClaimId, ctx: Ctx, d1: Dir)
    requires c == ClaimId(c.owner, ch.nonce) && c !in d.claims && c.owner !in d.owners
    requires d1 == WithClaim(d, c, Dropped(me, 0))
    ensures var e := ClaimStep(d, me, PublishClaim(c.owner, FromOwner, ctx), ch); e.dir == d1 && e.pc == Fill(c, FromOwner, ctx, 0)
    ensures ClaimStep(d1, me, Fill(c, FromOwner, ctx, 0), ch) == Go(d1, Fill(c, FromOwner, ctx, 1))
    ensures ClaimStep(d1, me, Fill(c, FromOwner, ctx, 1), ch) == Go(d1, DropEmpty(c, ctx, 0))
    ensures WithoutClaim(d, c) == d
  {
    assert d.claims - {c} == d.claims;
  }

  /** Whoever comes too late for an owner directory leaves the directory as it was. */
  lemma LateTransfer(d: Dir, me: Pid, crashed: set<Pid>, ch: Choice, gen: Nonce, ctx: Ctx, n: nat)
    requires gen !in d.owners && ClaimId(gen, ch.nonce) !in d.claims
    ensures Calls(At(d, PublishClaim(gen, FromOwner, ctx)), me, crashed, ch, 7 + n)
      == Calls(At(d, Fault(ctx, ClaimId(gen, ch.nonce))), me, crashed, ch, n)
  {
    var c := ClaimId(gen, ch.nonce);
    var d1 := WithClaim(d, c, Dropped(me, 0));
    FillsNothing(d, me, ch, c, ctx, d1);
    ClaimCall(At(d, PublishClaim(gen, FromOwner, ctx)), me, crashed, ch, At(d1, Fill(c, FromOwner, ctx, 0)), n + 6);
    ClaimCall(At(d1, Fill(c, FromOwner, ctx, 0)), me, crashed, ch, At(d1, Fill(c, FromOwner, ctx, 1)), n + 5);
    ClaimCall(At(d1, Fill(c, FromOwner, ctx, 1)), me, crashed, ch, At(d1, DropEmpty(c, ctx, 0)), n + 4);
    UndoCalls(d, me, crashed, ch, c, ctx, me, n);
  }

  // ----- publication -----

  /** An owner directory before call `k` of its removal. */
  function WithOwner(d: Dir, gen: Nonce, p: Pid, k: nat): Dir {
    d.(owners := d.owners[gen := Slot(if k <= 2 then Some(p) else None, Absent)])
  }

  function Discarding(d: Dir, gen: Nonce, p: Pid, k: nat): At {
    if k <= 3 then At(WithOwner(d, gen, p, k), Discard(gen, k)) else At(d.(owners := d.owners - {gen}), Wait)
  }

  lemma DiscardCall(d: Dir, me: Pid, crashed: set<Pid>, ch: Choice, gen: Nonce, p: Pid, k: nat, n: nat)
    requires k <= 3
    ensures Calls(Discarding(d, gen, p, k), me, crashed, ch, n + 1) == Calls(Discarding(d, gen, p, k + 1), me, crashed, ch, n)
  {
    var now := WithOwner(d, gen, p, k);
    assert now.owners[gen := Slot(None, Absent)] == d.owners[gen := Slot(None, Absent)];
    assert now.owners - {gen} == d.owners - {gen};
    AcquireCall(Discarding(d, gen, p, k), me, crashed, ch, Discarding(d, gen, p, k + 1), n);
  }

  /** Discarding a generation that was never published leaves nothing of it. */
  lemma DiscardCalls(d: Dir, me: Pid, crashed: set<Pid>, ch: Choice, gen: Nonce, p: Pid, n: nat)
    ensures Calls(Discarding(d, gen, p, 0), me, crashed, ch, 4 + n) == Calls(Discarding(d, gen, p, 4), me, crashed, ch, n)
  {
    DiscardCall(d, me, crashed, ch, gen, p, 0, n + 3);
    DiscardCall(d, me, crashed, ch, gen, p, 1, n + 2);
    DiscardCall(d, me, crashed, ch, gen, p, 2, n + 1);
    DiscardCall(d, me, crashed, ch, gen, p, 3, n);
  }

  lemma Publishes(d: Dir, me: Pid, ch: Choice, d1: Dir, d2: Dir)
    requires d1 == d.(owners := d.owners[ch.nonce := Slot(Some(me), Absent)]) && d2 == d1.(canonical := Link(ch.nonce))
    ensures var e := AcquireStep(d, me, PublishOwner, ch); e.dir == d1 && e.pc == Publish(ch.nonce)
    ensures AcquireStep(d1, me, Publish(ch.nonce), ch)
      == if d.canonical.Absent? then Go(d2, Verify(ch.nonce, 0)) else Go(d1, Discard(ch.nonce, 0))
    ensures AcquireStep(d2, me, Verify(ch.nonce, 0), ch) == Go(d2, Verify(ch.nonce, 1))
    ensures AcquireStep(d2, me, Verify(ch.nonce, 1), ch) == Go(d2, InOp(ch.nonce))
  {
  }

  /** A free name is taken in four calls, and the directory is as it was but for the
      new owner directory and the link to it. */
  lemma TakesTheName(d: Dir, me: Pid, crashed: set<Pid>, ch: Choice, n: nat)
    requires d.canonical.Absent?
    ensures Calls(At(d, PublishOwner), me, crashed, ch, 4 + n)
      == Calls(At(Dir(Link(ch.nonce), d.owners[ch.nonce := Slot(Some(me), Absent)], d.claims), InOp(ch.nonce)),
               me, crashed, ch, n)
  {
    var gen := ch.nonce;
    var d1 := d.(owners := d.owners[gen := Slot(Some(me), Absent)]);
    var d2 := d1.(canonical := Link(gen));
    Publishes(d, me, ch, d1, d2);
    AcquireCall(At(d, PublishOwner), me, crashed, ch, At(d1, Publish(gen)), n + 3);
    AcquireCall(At(d1, Publish(gen)), me, crashed, ch, At(d2, Verify(gen, 0)), n + 2);
    AcquireCall(At(d2, Verify(gen, 0)), me, crashed, ch, At(d2, Verify(gen, 1)), n + 1);
    AcquireCall(At(d2, Verify(gen, 1)), me, crashed, ch, At(d2, InOp(gen)), n);
  }

  lemma FindsItTaken(d: Dir, me: Pid, ch: Choice, d1: Dir)
    requires d1 == WithOwner(d, ch.nonce, me, 0) && !d.canonical.Absent? && ch.nonce !in d.owners
    ensures var e := AcquireStep(d, me, PublishOwner, ch); e.dir == d1 && e.pc == Publish(ch.nonce)
    ensures AcquireStep(d1, me, Publish(ch.nonce), ch) == Go(d1, Discard(ch.nonce, 0))
    ensures d.(owners := d.owners - {ch.nonce}) == d
  {
    assert d.owners - {ch.nonce} == d.owners;
  }

  /** A taken name costs six calls, and the directory is as it was. */
  lemma LeavesTheName(d: Dir, me: Pid, crashed: set<Pid>, ch: Choice, n: nat)
    requires !d.canonical.Absent? && ch.nonce !in d.owners
    ensures Calls(At(d, PublishOwner), me, crashed, ch, 6 + n) == Calls(At(d, Wait), me, crashed, ch, n)
  {
    var gen, d1 := ch.nonce, WithOwner(d, ch.nonce, me, 0);
    FindsItTaken(d, me, ch, d1);
    AcquireCall(At(d, PublishOwner), me, crashed, ch, At(d1, Publish(gen)), n + 5);
    AcquireCall(At(d1, Publish(gen)), me, crashed, ch, At(d1, Discard(gen, 0)), n + 4);
    DiscardCalls(d, me, crashed, ch, gen, me, n);
  }

  // ----- nothing is destroyed unseen -----

  ghost predicate InSomeClaim(d: Dir, slot: Slot) { exists e :: HasOwnerSlot(d, e) && d.claims[e].owner.value == slot }

  /** No claim directory goes unless it is empty, and no owner directory unless it is
      empty or now stands in a claim. */
  ghost predicate OnlyEmptyGoes(d: Dir, d': Dir) {
    && (forall c :: c in d.claims && c !in d'.claims ==> d.claims[c] == ClaimDir(None, None, None))
    && (forall n :: n in d.owners && n !in d'.owners ==> d.owners[n] == Slot(None, Absent) || InSomeClaim(d', d.owners[n]))
  }

  /** What stood in the owner slot of a claim was empty, or stands in a claim now, be it
      with the link it was detached from, or is retired in the same claim. */
  ghost predicate StaysSomewhere(d: Dir, d': Dir, c: ClaimId)
    requires HasOwnerSlot(d, c)
  {
    var slot := d.claims[c].owner.value;
    || slot == Slot(None, Absent)
    || InSomeClaim(d', slot) || InSomeClaim(d', slot.(tomb := d.canonical))
    || (c in d'.claims && d'.claims[c].retired == Some(slot))
  }

  ghost predicate Conserves(d: Dir, d': Dir) {
    OnlyEmptyGoes(d, d') && forall c :: HasOwnerSlot(d, c) ==> StaysSomewhere(d, d', c)
  }

  /** A slot that stays where it is. */
  lemma StaysPut(d: Dir, d': Dir, c: ClaimId)
    requires HasOwnerSlot(d, c) && HasOwnerSlot(d', c) && d'.claims[c].owner == d.claims[c].owner
    ensures StaysSomewhere(d, d', c)
  {
  }

  lemma OwnSlotsStay(d: Dir, d': Dir)
    requires d.owners.Keys <= d'.owners.Keys && d.claims.Keys <= d'.claims.Keys
    requires forall c :: HasOwnerSlot(d, c) ==> d'.claims[c].owner == d.claims[c].owner
    ensures Conserves(d, d')
  {
    forall c | HasOwnerSlot(d, c) ensures StaysSomewhere(d, d', c) { StaysPut(d, d', c); }
  }

  lemma RemovalConserves(d: Dir, me: Pid, pc: Pc, ch: Choice)
    requires pc.DropEmpty? || pc.DropOld? || pc.Leaf? || pc.Discard? || pc.Publish?
    ensures Conserves(d, DirAfter(d, me, pc, ch))
  {
    var d' := DirAfter(d, me, pc, ch);
    forall c | HasOwnerSlot(d, c) ensures StaysSomewhere(d, d', c) { StaysPut(d, d', c); }
  }

  lemma AdditionConserves(d: Dir, me: Pid, pc: Pc, ch: Choice)
    requires pc.PublishOwner? || (pc.PublishClaim? && ClaimId(pc.gen, ch.nonce) !in d.claims)
    ensures Conserves(d, DirAfter(d, me, pc, ch))
  {
    OwnSlotsStay(d, DirAfter(d, me, pc, ch));
  }

  lemma FillConserves(d: Dir, me: Pid, pc: Pc, ch: Choice)
    requires pc.Fill?
    ensures Conserves(d, DirAfter(d, me, pc, ch))
  {
    var d' := DirAfter(d, me, pc, ch);
    if d' != d {
      assert HasOwnerSlot(d', pc.claim);
      forall c | HasOwnerSlot(d, c) ensures StaysSomewhere(d, d', c) {
        if c != pc.claim && !(pc.source.FromClaim? && c == pc.source.prior) { StaysPut(d, d', c); }
      }
    } else {
      OwnSlotsStay(d, d');
    }
  }

  lemma RenameConserves(d: Dir, me: Pid, pc: Pc, ch: Choice)
    requires pc.Detach? || pc.Retire?
    ensures Conserves(d, DirAfter(d, me, pc, ch))
  {
    var d' := DirAfter(d, me, pc, ch);
    forall c | HasOwnerSlot(d, c) ensures StaysSomewhere(d, d', c) {
      if c != pc.claim || d' == d {
        StaysPut(d, d', c);
      } else if pc.Detach? {
        assert HasOwnerSlot(d', c) && d'.claims[c].owner.value == d.claims[c].owner.value.(tomb := d.canonical);
      }
    }
  }

  /** Whatever a directory holds and however a thread came to its next call, the call
      destroys no owner directory that has anything in it and no claim directory that
      does: what is removed is empty, and everything else is moved whole. */
  lemma CallConserves(d: Dir, me: Pid, crashed: set<Pid>, pc: Pc, ch: Choice)
    requires pc.PublishClaim? ==> ClaimId(pc.gen, ch.nonce) !in d.claims
    ensures Conserves(d, StepOf(d, me, crashed, pc, ch).dir)
  {
    StepDir(d, me, crashed, pc, ch);
    match pc
    case DropEmpty(_, _, _) | DropOld(_, _, _) | Leaf(_, _, _) | Discard(_, _) | Publish(_) => RemovalConserves(d, me, pc, ch);
    case PublishOwner | PublishClaim(_, _, _) => AdditionConserves(d, me, pc, ch);
    case Fill(_, _, _, _) => FillConserves(d, me, pc, ch);
    case Detach(_, _, _) | Retire(_, _, _) => RenameConserves(d, me, pc, ch);
    case _ => OwnSlotsStay(d, d);
  }
}
