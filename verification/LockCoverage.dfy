/** What a directory scan cannot miss while other threads and processes go on: a
    claim that bears its owner throughout is found by every scan that comes to an
    end, and no acquisition gets past a dead claimant's claim that stays. */
module LockCoverage {
  import opened Wrappers
  import opened LockDirectory
  import opened CheckoutLock

  // ----- the search for a claimed owner -----

  predicate Listed(found: seq<Found>, c: ClaimId) { exists i :: 0 <= i < |found| && found[i].claim == c }

  /** The scan of this generation has accepted the claim, is at it, or has it ahead. */
  predicate Finds(pc: Pc, c: ClaimId) {
    match pc
    case Scan(n, cursor, found) => n == c.owner ==> c in cursor.snapshot && (c in cursor.seen ==> Listed(found, c))
    case Visit(n, cursor, found, e, _, _) =>
      n == c.owner ==> c in cursor.snapshot && (c in cursor.seen ==> e == c || Listed(found, c))
    case Settle(n, found) => n == c.owner ==> Listed(found, c)
    case _ => true
  }

  lemma ListedMore(found: seq<Found>, f: Found, c: ClaimId)
    requires f.claim == c || Listed(found, c)
    ensures Listed(found + [f], c)
  {
    if f.claim == c {
      assert (found + [f])[|found|] == f;
    } else {
      var i :| 0 <= i < |found| && found[i].claim == c;
      assert (found + [f])[i] == found[i];
    }
  }

  lemma FindsVisiting(d: Dir, crashed: set<Pid>, pc: Pc, ch: Choice, c: ClaimId)
    requires pc.Visit? && HasOwnerSlot(d, c) && Finds(pc, c)
    ensures Finds(VisitStep(d, crashed, pc, ch).pc, c)
  {
    if pc.k == 5 && pc.gen == c.owner && c in pc.cursor.seen {
      ListedMore(pc.found, Found(pc.claim, ch.dead && pc.holder in crashed), c);
    }
  }

  lemma FindsScanning(d: Dir, crashed: set<Pid>, pc: Pc, ch: Choice, c: ClaimId)
    requires pc.Look? || pc.ReadTarget? || pc.ProbeOwner? || pc.OpenScan? || pc.Scan? || pc.Settle?
    requires HasOwnerSlot(d, c) && Finds(pc, c)
    ensures Finds(ClassifyStep(d, crashed, pc, ch).pc, c)
  {
  }

  predicate Transferring(pc: Pc) {
    pc.RecheckOwner? || pc.RecheckClaim? || pc.PublishClaim? || pc.Fill? || pc.DropEmpty? || pc.DropOld?
    || pc.Detach? || pc.Retire? || pc.Leaf?
  }

  lemma FindsTransferring(d: Dir, me: Pid, crashed: set<Pid>, pc: Pc, ch: Choice, c: ClaimId)
    requires Transferring(pc)
    ensures Finds(StepOf(d, me, crashed, pc, ch).pc, c)
  {
  }

  lemma FindsElsewhere(d: Dir, me: Pid, crashed: set<Pid>, pc: Pc, ch: Choice, c: ClaimId)
    requires !pc.Look? && !pc.ReadTarget? && !pc.ProbeOwner? && !pc.OpenScan? && !pc.Scan? && !pc.Settle? && !pc.Visit?
    requires !Transferring(pc)
    ensures Finds(StepOf(d, me, crashed, pc, ch).pc, c)
  {
  }

  lemma FindsCall(d: Dir, me: Pid, crashed: set<Pid>, pc: Pc, ch: Choice, c: ClaimId)
    requires HasOwnerSlot(d, c) && Finds(pc, c)
    ensures Finds(StepOf(d, me, crashed, pc, ch).pc, c)
  {
    if pc.Visit? {
      FindsVisiting(d, crashed, pc, ch, c);
    } else if pc.Look? || pc.ReadTarget? || pc.ProbeOwner? || pc.OpenScan? || pc.Scan? || pc.Settle? {
      FindsScanning(d, crashed, pc, ch, c);
    } else if Transferring(pc) {
      FindsTransferring(d, me, crashed, pc, ch, c);
    } else {
      FindsElsewhere(d, me, crashed, pc, ch, c);
    }
  }

  /** At every moment of the run the claim directory holds an owner directory. */
  ghost predicate Bearing(s: State, events: seq<Event>, c: ClaimId) {
    forall i :: 0 <= i <= |events| ==> HasOwnerSlot(Run(s, events[..i]).world.dir, c)
  }

  lemma {:induction false} FindsRun(s: State, events: seq<Event>, t: Tid, c: ClaimId)
    requires t in s.pcs && Finds(s.pcs[t], c) && Bearing(s, events, c)
    ensures t in Run(s, events).pcs && Finds(Run(s, events).pcs[t], c)
    decreases |events|
  {
    if events != [] {
      var n := |events| - 1;
      var front, last := events[..n], events[n];
      forall i | 0 <= i <= n ensures HasOwnerSlot(Run(s, front[..i]).world.dir, c) {
        assert front[..i] == events[..i];
      }
      FindsRun(s, front, t, c);
      var now := Run(s, front);
      assert front[..n] == front && Run(s, events[..n]) == now;
      if Enabled(now, last) && last.Act? && last.tid == t {
        FindsCall(now.world.dir, now.world.pids[t], now.world.crashed, now.pcs[t], last.choice, c);
      }
    }
  }

  /** A scan that comes to its end has accepted every claim on its generation that has
      borne the owner directory since the thread was last outside a scan. */
  lemma HeldClaimIsFound(s: State, events: seq<Event>, t: Tid, c: ClaimId)
    requires t in s.pcs && !s.pcs[t].Scan? && !s.pcs[t].Visit? && !s.pcs[t].Settle? && Bearing(s, events, c)
    ensures t in Run(s, events).pcs
    ensures var pc := Run(s, events).pcs[t]; pc.Settle? && pc.gen == c.owner ==> Listed(pc.found, c)
  {
    FindsRun(s, events, t, c);
  }

  // ----- the sweep before an acquisition -----

  predicate AheadOf(cursor: Cursor, c: ClaimId) { c in cursor.snapshot && c !in cursor.seen }

  /** No acquisition is past its sweep, and a sweep under way has the claim ahead or
      is at it. */
  predicate Short(pc: Pc, c: ClaimId, p: Pid) {
    match pc
    case Sweep(cursor) => AheadOf(cursor, c)
    case SweepVisit(cursor, e, k, h) => AheadOf(cursor, c) || (e == c && (k >= 3 ==> h == p))
    case SweepFault(cursor, e, _) => AheadOf(cursor, c) || e == c
    case Retire(e, ctx, _) => ctx.Sweeping? ==> AheadOf(ctx.cursor, c) || e == c
    case Leaf(_, ctx, _) => ctx.Sweeping? ==> AheadOf(ctx.cursor, c)
    case Detach(_, ctx, _) => !ctx.Sweeping?
    case PublishClaim(_, _, ctx) => !ctx.Sweeping?
    case Fill(_, _, ctx, _) => !ctx.Sweeping?
    case DropEmpty(_, ctx, _) => !ctx.Sweeping?
    case SweepEnd | PublishOwner | Publish(_) | Verify(_, _) | InOp(_) => false
    case _ => true
  }

  /** What a dead claimant left: its claim directory with its record and an owner. */
  predicate Remains(d: Dir, c: ClaimId, p: Pid) { HasOwnerSlot(d, c) && d.claims[c].record == Some(p) }

  lemma ShortSweeping(d: Dir, crashed: set<Pid>, pc: Pc, ch: Choice, c: ClaimId, p: Pid)
    requires pc.SweepBegin? || pc.SweepOpen? || pc.Sweep? || pc.SweepVisit? || pc.SweepFault? || pc.SweepEnd?
    requires Remains(d, c, p) && p in crashed && ch.dead && Short(pc, c, p)
    ensures Short(SweepStep(d, crashed, pc, ch).pc, c, p)
  {
  }

  lemma ShortDetaching(d: Dir, pc: Pc, c: ClaimId, p: Pid)
    requires pc.Detach? && Short(pc, c, p)
    ensures Short(DetachStep(d, pc).pc, c, p)
  {
  }

  lemma ShortRetiring(d: Dir, pc: Pc, c: ClaimId, p: Pid)
    requires pc.Retire? && Short(pc, c, p)
    ensures var e := DetachStep(d, pc); Remains(e.dir, c, p) ==> Short(e.pc, c, p)
  {
  }

  lemma ShortRemoving(d: Dir, pc: Pc, c: ClaimId, p: Pid)
    requires pc.Leaf? && Short(pc, c, p)
    ensures Short(LeafStep(d, pc).pc, c, p)
  {
  }

  lemma ShortClaiming(d: Dir, me: Pid, pc: Pc, ch: Choice, c: ClaimId, p: Pid)
    requires pc.PublishClaim? || pc.Fill? || pc.DropEmpty? || pc.DropOld?
    requires Short(pc, c, p)
    ensures Short(ClaimStep(d, me, pc, ch).pc, c, p)
  {
  }

  lemma ShortAcquiring(d: Dir, me: Pid, pc: Pc, ch: Choice, c: ClaimId, p: Pid)
    requires pc.Idle? || pc.PublishOwner? || pc.Publish? || pc.Discard? || pc.Verify? || pc.InOp? || pc.Release?
          || pc.Wait? || pc.Failed?
    requires Short(pc, c, p)
    ensures Short(AcquireStep(d, me, pc, ch).pc, c, p)
  {
  }

  lemma ShortClassifying(d: Dir, me: Pid, crashed: set<Pid>, pc: Pc, ch: Choice, c: ClaimId, p: Pid)
    requires pc.Look? || pc.ReadTarget? || pc.ProbeOwner? || pc.OpenScan? || pc.Scan? || pc.Settle? || pc.Visit?
          || pc.RecheckOwner? || pc.RecheckClaim?
    ensures Short(StepOf(d, me, crashed, pc, ch).pc, c, p)
  {
  }

  lemma ShortCall(d: Dir, me: Pid, crashed: set<Pid>, pc: Pc, ch: Choice, c: ClaimId, p: Pid)
    requires Remains(d, c, p) && p in crashed && ch.dead && Short(pc, c, p)
    ensures var e := StepOf(d, me, crashed, pc, ch); Remains(e.dir, c, p) ==> Short(e.pc, c, p)
  {
    match pc
    case Look | ReadTarget | ProbeOwner(_, _, _) | OpenScan(_) | Scan(_, _, _) | Settle(_, _) | Visit(_, _, _, _, _, _)
       | RecheckOwner(_, _, _) | RecheckClaim(_, _, _) => ShortClassifying(d, me, crashed, pc, ch, c, p);
    case PublishClaim(_, _, _) | Fill(_, _, _, _) | DropEmpty(_, _, _) | DropOld(_, _, _) =>
      ShortClaiming(d, me, pc, ch, c, p);
    case Detach(_, _, _) => ShortDetaching(d, pc, c, p);
    case Retire(_, _, _) => ShortRetiring(d, pc, c, p);
    case Leaf(_, _, _) => ShortRemoving(d, pc, c, p);
    case SweepBegin | SweepOpen | Sweep(_) | SweepVisit(_, _, _, _) | SweepFault(_, _, _) | SweepEnd =>
      ShortSweeping(d, crashed, pc, ch, c, p);
    case _ => ShortAcquiring(d, me, pc, ch, c, p);
  }

  /** At every moment of the run the remains are there, and whatever the thread probes
      it finds the evidence of death that there is. */
  ghost predicate Remaining(s: State, events: seq<Event>, t: Tid, c: ClaimId, p: Pid) {
    && (forall i :: 0 <= i <= |events| ==> Remains(Run(s, events[..i]).world.dir, c, p))
    && (forall i :: 0 <= i < |events| && events[i].Act? && events[i].tid == t ==> events[i].choice.dead)
  }

  lemma CrashedStays(s: State, ev: Event)
    ensures s.world.crashed <= Next(s, ev).world.crashed
  {
  }

  lemma {:induction false} ShortRun(s: State, events: seq<Event>, t: Tid, c: ClaimId, p: Pid)
    requires t in s.pcs && Short(s.pcs[t], c, p) && p in s.world.crashed && Remaining(s, events, t, c, p)
    ensures var e := Run(s, events); t in e.pcs && Short(e.pcs[t], c, p) && p in e.world.crashed
    decreases |events|
  {
    if events != [] {
      var n := |events| - 1;
      var front, last := events[..n], events[n];
      forall i | 0 <= i <= n ensures Remains(Run(s, front[..i]).world.dir, c, p) {
        assert front[..i] == events[..i];
      }
      ShortRun(s, front, t, c, p);
      var now := Run(s, front);
      assert front[..n] == front && events[..n + 1] == events && Run(s, events[..n]) == now;
      CrashedStays(now, last);
      if Enabled(now, last) && last.Act? && last.tid == t {
        ShortCall(now.world.dir, now.world.pids[t], now.world.crashed, now.pcs[t], last.choice, c, p);
      }
    }
  }

  /** As long as a dead claimant's claim keeps its owner directory, no attempt to take
      the lock gets past its sweep, whatever other threads and processes do. */
  lemma NobodyPassesADeadClaim(s: State, events: seq<Event>, t: Tid, c: ClaimId, p: Pid)
    requires t in s.pcs && (s.pcs[t].Idle? || s.pcs[t].Look? || s.pcs[t].Wait?)
    requires p in s.world.crashed && Remaining(s, events, t, c, p)
    ensures t in Run(s, events).pcs
    ensures var pc := Run(s, events).pcs[t]; !pc.SweepEnd? && !pc.PublishOwner? && !pc.Publish? && !pc.Verify? && !pc.InOp?
  {
    ShortRun(s, events, t, c, p);
  }
}
