/** What the lock promises in every reachable state of every interleaving. */
module LockTheorems {
  import opened Wrappers
  import opened LockDirectory
  import opened CheckoutLock
  import opened LockInvariant
  import opened LockSteps
  import opened LockPreserved

  // ----- mutual exclusion -----

  /** At most one live thread is inside the operation, and while one is, the
      canonical name is its own generation, not a legacy directory. */
  lemma MutualExclusion(s: State, t: Tid, u: Tid)
    requires Reachable(s)
    requires t in s.pcs && Live(s.world, t) && s.pcs[t].InOp?
    requires u in s.pcs && Live(s.world, u) && s.pcs[u].InOp?
    ensures t == u
    ensures s.world.dir.canonical == Link(s.pcs[t].gen)
  {
    ReachableInv(s);
    assert Role(s.world, t, s.pcs[t]) && Role(s.world, u, s.pcs[u]);
  }

  // ----- the canonical name -----

  /** The detaching rename of a claimant: always of the generation it holds,
      although the check and the rename are two calls. */
  lemma DetachMovesHeldGeneration(s: State, t: Tid, ch: Choice)
    requires Reachable(s) && Enabled(s, Act(t, ch))
    requires s.pcs[t].Detach? && s.pcs[t].k == 6
    ensures var c, d, d' := s.pcs[t].claim, s.world.dir, Next(s, Act(t, ch)).world.dir;
      && d.canonical == Link(c.owner)
      && SlotRecorded(d, c)
      && d'.canonical.Absent?
      && TombNames(d', c)
      && Next(s, Act(t, ch)).pcs[t] == Detach(c, s.pcs[t].ctx, 7)
  {
    ReachableInv(s);
    assert Role(s.world, t, s.pcs[t]);
  }

  /** Who may change the canonical name, and how.  In particular no retirement,
      leaf removal or sweep of an old generation ever does. */
  lemma CanonicalChanges(s: State, ev: Event)
    requires Reachable(s)
    requires Next(s, ev).world.dir.canonical != s.world.dir.canonical
    ensures var d, d' := s.world.dir, Next(s, ev).world.dir;
      match ev
      case Act(t, _) =>
        t in s.pcs &&
        (if s.pcs[t].Publish? then d.canonical.Absent? && d'.canonical == Link(s.pcs[t].gen)
         else s.pcs[t].Detach? && d.canonical == Link(s.pcs[t].claim.owner) && d'.canonical.Absent?)
      case Crash(_) => false
      case LegacyTake => d.canonical.Absent? && d'.canonical.Legacy?
      case LegacyDrop => d.canonical.Legacy? && d'.canonical.Absent?
  {
    if ev.Act? {
      var t := ev.tid;
      StepDir(s.world.dir, s.world.pids[t], s.world.crashed, s.pcs[t], ev.choice);
      if s.pcs[t].Detach? { DetachMovesHeldGeneration(s, t, ev.choice); }
    }
  }

  // ----- one place for every generation -----

  datatype Place = AtOwner | InClaim(claim: ClaimId) | InRetired(claim: ClaimId)

  /** Where the directory tree holds the owner record of generation `n`. */
  ghost predicate Lies(d: Dir, n: Nonce, place: Place) {
    match place
    case AtOwner => n in d.owners
    case InClaim(c) => c.owner == n && c in d.claims && d.claims[c].owner.Some?
    case InRetired(c) => c.owner == n && c in d.claims && d.claims[c].retired.Some?
  }

  /** A generation is in at most one place, so a scan taken at one instant never
      finds two owner-bearing claims of it. */
  lemma OnePlace(s: State, n: Nonce, p: Place, q: Place)
    requires Reachable(s) && Lies(s.world.dir, n, p) && Lies(s.world.dir, n, q)
    ensures p == q
  {
    ReachableInv(s);
    if !p.AtOwner? && !q.AtOwner? {
      assert Holds(s.world.dir, p.claim) && Holds(s.world.dir, q.claim);
    }
  }

  ghost predicate Claimed(d: Dir, n: Nonce) { exists c :: Lies(d, n, InClaim(c)) }

  ghost predicate Retired(d: Dir, n: Nonce) { exists c :: Lies(d, n, InRetired(c)) }

  /** How far a generation has moved: 0 undrawn, 1 owner directory, 2 claimed,
      3 detached, 4 retired, 5 gone. */
  ghost function Stage(w: World, n: Nonce): nat {
    if n !in w.makers then 0
    else if n in w.dir.owners then 1
    else if Claimed(w.dir, n) && w.dir.canonical == Link(n) then 2
    else if Claimed(w.dir, n) then 3
    else if Retired(w.dir, n) then 4
    else 5
  }

  /** A claim gets an owner directory in the second call of its own `Fill` only. */
  lemma SlotComesFromFill(d: Dir, me: Pid, pc: Pc, ch: Choice, c: ClaimId)
    requires !HasOwnerSlot(d, c) && HasOwnerSlot(DirAfter(d, me, pc, ch), c)
    ensures pc.Fill? && pc.k != 0 && pc.claim == c
    ensures if pc.source.FromOwner? then c.owner in d.owners else RenameClaimToClaim(d, pc.source.prior, c).Some?
  {
  }

  lemma OwnerComesFromDraw(d: Dir, me: Pid, pc: Pc, ch: Choice, n: Nonce)
    requires n !in d.owners && n in DirAfter(d, me, pc, ch).owners
    ensures pc.PublishOwner? && n == ch.nonce
  {
  }

  lemma RetiredComesFromRetire(d: Dir, me: Pid, pc: Pc, ch: Choice, c: ClaimId)
    requires c in DirAfter(d, me, pc, ch).claims && DirAfter(d, me, pc, ch).claims[c].retired.Some?
    requires !(c in d.claims && d.claims[c].retired.Some?)
    ensures pc.Retire? && pc.claim == c && HasOwnerSlot(d, c)
  {
  }

  /** A slot appears only where one of the same generation was a place before. */
  lemma NewSlots(w: World, t: Tid, pc: Pc, ch: Choice, n: Nonce, p: Place)
    requires DirOk(w) && Live(w, t) && Role(w, t, pc) && n in w.makers
    requires pc.PublishOwner? || pc.PublishClaim? ==> ch.nonce !in w.makers
    requires Lies(DirAfter(w.dir, w.pids[t], pc, ch), n, p)
    ensures p.AtOwner? ==> n in w.dir.owners
    ensures p.InClaim? ==> n in w.dir.owners || Claimed(w.dir, n)
    ensures p.InRetired? ==> Retired(w.dir, n) || Claimed(w.dir, n)
  {
    if Lies(w.dir, n, p) { return; }
    match p
    case AtOwner => OwnerComesFromDraw(w.dir, w.pids[t], pc, ch, n);
    case InClaim(c) =>
      SlotComesFromFill(w.dir, w.pids[t], pc, ch, c);
      if pc.source.FromClaim? { assert Lies(w.dir, n, InClaim(pc.source.prior)); }
    case InRetired(c) =>
      RetiredComesFromRetire(w.dir, w.pids[t], pc, ch, c);
      assert Lies(w.dir, n, InClaim(c));
  }

  lemma ClaimedBefore(w: World, t: Tid, pc: Pc, ch: Choice, n: Nonce)
    requires DirOk(w) && Live(w, t) && Role(w, t, pc) && n in w.makers
    requires pc.PublishOwner? || pc.PublishClaim? ==> ch.nonce !in w.makers
    ensures Claimed(DirAfter(w.dir, w.pids[t], pc, ch), n) ==> n in w.dir.owners || Claimed(w.dir, n)
  {
    var d := DirAfter(w.dir, w.pids[t], pc, ch);
    if Claimed(d, n) {
      var c :| Lies(d, n, InClaim(c));
      NewSlots(w, t, pc, ch, n, InClaim(c));
    }
  }

  lemma RetiredBefore(w: World, t: Tid, pc: Pc, ch: Choice, n: Nonce)
    requires DirOk(w) && Live(w, t) && Role(w, t, pc) && n in w.makers
    requires pc.PublishOwner? || pc.PublishClaim? ==> ch.nonce !in w.makers
    ensures Retired(DirAfter(w.dir, w.pids[t], pc, ch), n) ==> Retired(w.dir, n) || Claimed(w.dir, n)
  {
    var d := DirAfter(w.dir, w.pids[t], pc, ch);
    if Retired(d, n) {
      var c :| Lies(d, n, InRetired(c));
      NewSlots(w, t, pc, ch, n, InRetired(c));
    }
  }

  lemma StageAct(w: World, v: World, t: Tid, pc: Pc, ch: Choice, n: Nonce)
    requires DirOk(w) && Live(w, t) && Role(w, t, pc) && n in w.makers
    requires pc.PublishOwner? || pc.PublishClaim? ==> ch.nonce !in w.makers
    requires Stable(w, v) && v.dir == DirAfter(w.dir, w.pids[t], pc, ch)
    ensures Stage(w, n) <= Stage(v, n)
  {
    if n !in w.dir.owners && w.dir.canonical != Link(n) { assert Passed(w, n); }
    ClaimedBefore(w, t, pc, ch, n);
    RetiredBefore(w, t, pc, ch, n);
  }

  /** A generation only moves forward through its places. */
  lemma OnlyForward(s: State, ev: Event, n: Nonce)
    requires Reachable(s)
    ensures Stage(s.world, n) <= Stage(Next(s, ev).world, n)
  {
    ReachableInv(s);
    NextKeeps(s, ev);
    var w, v := s.world, Next(s, ev).world;
    if n !in w.makers || !Enabled(s, ev) || v == w { return; }
    match ev
    case Act(t, ch) =>
      ActKeeps(w, t, s.pcs[t], ch);
      StepDir(w.dir, w.pids[t], w.crashed, s.pcs[t], ch);
      StageAct(w, v, t, s.pcs[t], ch, n);
    case Crash(_) => assert v.dir == w.dir;
    case LegacyTake | LegacyDrop => assert v.dir.claims == w.dir.claims;
  }

  // ----- refinement of an abstract lock -----

  datatype Holder = Free | Taken(tid: Tid) | LegacyTaken

  datatype Lock = Lock(holder: Holder, dead: set<Pid>)

  datatype Action = Silent | Acquire(tid: Tid) | Work(tid: Tid) | Release(tid: Tid) | Break(tid: Tid)
                 | Die(pid: Pid) | TakeLegacy | DropLegacy

  /** The lock as its callers see it: one holder at a time, who alone works and
      releases; only a dead holder can be broken. */
  function Locked(a: Lock, pids: map<Tid, Pid>, act: Action): Option<Lock> {
    match act
    case Silent => Some(a)
    case Acquire(t) =>
      if a.holder.Free? && t in pids && pids[t] !in a.dead then Some(a.(holder := Taken(t))) else None
    case Work(t) => if a.holder == Taken(t) && t in pids && pids[t] !in a.dead then Some(a) else None
    case Release(t) =>
      if a.holder == Taken(t) && t in pids && pids[t] !in a.dead then Some(a.(holder := Free)) else None
    case Break(t) =>
      if a.holder == Taken(t) && t in pids && pids[t] in a.dead then Some(a.(holder := Free)) else None
    case Die(p) => Some(a.(dead := a.dead + {p}))
    case TakeLegacy => if a.holder.Free? then Some(a.(holder := LegacyTaken)) else None
    case DropLegacy => if a.holder.LegacyTaken? then Some(a.(holder := Free)) else None
  }

  ghost function Abstract(w: World): Lock {
    Lock(match w.dir.canonical
         case Absent => Free
         case Legacy => LegacyTaken
         case Link(n) => if n in w.makers then Taken(w.makers[n]) else Free,
         w.crashed)
  }

  /** The calls the abstract lock sees: the exclusive `symlink`, the detaching
      rename, and the steps of the operation. */
  ghost function LabelOf(s: State, ev: Event): Action {
    if !Enabled(s, ev) then Silent else
    match ev
    case Crash(p) => Die(p)
    case LegacyTake => if s.world.dir.canonical.Absent? then TakeLegacy else Silent
    case LegacyDrop => if s.world.dir.canonical.Legacy? then DropLegacy else Silent
    case Act(t, _) =>
      var pc := s.pcs[t];
      if pc.Publish? && s.world.dir.canonical.Absent? then Acquire(t)
      else if pc.InOp? then Work(t)
      else if pc.Detach? && pc.k == 6 then
        if Mine(s.world, t, pc.claim.owner) then Action.Release(t)
        else if pc.claim.owner in s.world.makers then Break(s.world.makers[pc.claim.owner])
        else Silent
      else Silent
  }

  /** The canonical name after a call, with what its role knows about it. */
  lemma CanonicalAfter(w: World, t: Tid, pc: Pc, ch: Choice)
    requires DirOk(w) && Live(w, t) && Role(w, t, pc)
    ensures var d := DirAfter(w.dir, w.pids[t], pc, ch);
      if pc.Publish? && w.dir.canonical.Absent? then d.canonical == Link(pc.gen) && Mine(w, t, pc.gen)
      else if pc.Detach? && pc.k == 6 then
        && w.dir.canonical == Link(pc.claim.owner) && d.canonical.Absent?
        && (Mine(w, t, pc.claim.owner) || Dead(w, pc.claim.owner))
      else d.canonical == w.dir.canonical
    ensures pc.InOp? ==> Mine(w, t, pc.gen) && w.dir.canonical == Link(pc.gen)
  {
    if pc.Detach? && pc.k == 6 { assert ClaimOk(w, pc.claim); }
  }

  /** The abstract lock after one call of thread `t`. */
  ghost function LockAfter(w: World, t: Tid, pc: Pc): Lock {
    var a := Abstract(w);
    if pc.Publish? && w.dir.canonical.Absent? then a.(holder := Taken(t))
    else if pc.Detach? && pc.k == 6 then a.(holder := Free)
    else a
  }

  lemma AbstractAfter(w: World, v: World, t: Tid, pc: Pc)
    requires DirOk(w) && Live(w, t) && Role(w, t, pc)
    requires SubMap(w.makers, v.makers) && v.crashed == w.crashed
    requires if pc.Publish? && w.dir.canonical.Absent? then v.dir.canonical == Link(pc.gen) && Mine(w, t, pc.gen)
             else if pc.Detach? && pc.k == 6 then w.dir.canonical == Link(pc.claim.owner) && v.dir.canonical.Absent?
             else v.dir.canonical == w.dir.canonical
    ensures Abstract(v) == LockAfter(w, t, pc)
  {
  }

  lemma ActAbstract(s: State, t: Tid, ch: Choice)
    requires Inv(s) && Enabled(s, Act(t, ch))
    ensures Abstract(Next(s, Act(t, ch)).world) == LockAfter(s.world, t, s.pcs[t])
  {
    var w, pc, v := s.world, s.pcs[t], Next(s, Act(t, ch)).world;
    StepDir(w.dir, w.pids[t], w.crashed, pc, ch);
    CanonicalAfter(w, t, pc, ch);
    assert SubMap(w.makers, v.makers) by { ActKeeps(w, t, pc, ch); }
    AbstractAfter(w, v, t, pc);
  }

  lemma LabelAllowed(s: State, t: Tid, ch: Choice)
    requires Inv(s) && Enabled(s, Act(t, ch))
    ensures Locked(Abstract(s.world), s.world.pids, LabelOf(s, Act(t, ch))) == Some(LockAfter(s.world, t, s.pcs[t]))
  {
    CanonicalAfter(s.world, t, s.pcs[t], ch);
  }

  lemma ActRefines(s: State, t: Tid, ch: Choice)
    requires Inv(s) && Enabled(s, Act(t, ch))
    ensures Locked(Abstract(s.world), s.world.pids, LabelOf(s, Act(t, ch))) == Some(Abstract(Next(s, Act(t, ch)).world))
  {
    LabelAllowed(s, t, ch);
    ActAbstract(s, t, ch);
  }

  /** One step of the machine is the step of the abstract lock its label names. */
  lemma StepRefines(s: State, ev: Event)
    requires Inv(s)
    ensures Locked(Abstract(s.world), s.world.pids, LabelOf(s, ev)) == Some(Abstract(Next(s, ev).world))
  {
    if Enabled(s, ev) && ev.Act? { ActRefines(s, ev.tid, ev.choice); }
  }

  /** The labels of a run, oldest first. */
  ghost function Trace(s: State, events: seq<Event>): seq<Action>
    decreases |events|
  {
    if events == [] then []
    else
      var front := events[..|events| - 1];
      Trace(s, front) + [LabelOf(Run(s, front), events[|events| - 1])]
  }

  ghost function LockedRun(a: Lock, pids: map<Tid, Pid>, labels: seq<Action>): Option<Lock>
    decreases |labels|
  {
    if labels == [] then Some(a)
    else
      var before := LockedRun(a, pids, labels[..|labels| - 1]);
      if before.None? then None else Locked(before.value, pids, labels[|labels| - 1])
  }

  /** Every run of the machine is a run of the abstract lock: taken only when
      free, worked in and released only by its holder, broken only when dead. */
  lemma {:induction false} RunRefines(s: State, events: seq<Event>)
    requires Inv(s)
    ensures Run(s, events).world.pids == s.world.pids
    ensures LockedRun(Abstract(s.world), s.world.pids, Trace(s, events)) == Some(Abstract(Run(s, events).world))
    decreases |events|
  {
    if events == [] {
    } else {
      var front, last := events[..|events| - 1], events[|events| - 1];
      RunRefines(s, front);
      RunKeeps(s, front);
      StepRefines(Run(s, front), last);
      var trace := Trace(s, events);
      assert trace[..|trace| - 1] == Trace(s, front);
    }
  }

  // ----- legacy locks -----

  /** The operation is entered from the last verification only. */
  lemma EntersFromVerify(d: Dir, me: Pid, crashed: set<Pid>, pc: Pc, ch: Choice)
    requires StepOf(d, me, crashed, pc, ch).pc.InOp?
    ensures pc.Verify? || pc.InOp?
  {
  }

  lemma LegacyStep(s: State, ev: Event)
    requires Inv(s) && s.world.dir.canonical.Legacy? && !ev.LegacyDrop?
    ensures Next(s, ev).world.dir.canonical.Legacy?
  {
    if Enabled(s, ev) && ev.Act? {
      var t, w := ev.tid, s.world;
      StepDir(w.dir, w.pids[t], w.crashed, s.pcs[t], ev.choice);
      CanonicalAfter(w, t, s.pcs[t], ev.choice);
    }
  }

  lemma LegacyEntry(s: State, ev: Event, t: Tid)
    requires Inv(s) && s.world.dir.canonical.Legacy? && t in s.pcs && Next(s, ev).pcs[t].InOp?
    ensures s.pcs[t].InOp?
  {
    if Enabled(s, ev) && ev.Act? && ev.tid == t {
      assert Role(s.world, t, s.pcs[t]);
      EntersFromVerify(s.world.dir, s.world.pids[t], s.world.crashed, s.pcs[t], ev.choice);
    }
  }

  lemma {:induction false} LegacyRun(s: State, events: seq<Event>, t: Tid)
    requires Inv(s) && s.world.dir.canonical.Legacy? && t in s.pcs
    requires forall i :: 0 <= i < |events| ==> !events[i].LegacyDrop?
    ensures var e := Run(s, events);
      Inv(e) && e.world.dir.canonical.Legacy? && t in e.pcs && (e.pcs[t].InOp? ==> s.pcs[t].InOp?)
    decreases |events|
  {
    if events != [] {
      var front, last := events[..|events| - 1], events[|events| - 1];
      LegacyRun(s, front, t);
      NextKeeps(Run(s, front), last);
      LegacyStep(Run(s, front), last);
      if Run(s, events).pcs[t].InOp? { LegacyEntry(Run(s, front), last, t); }
    }
  }

  /** While a legacy directory holds the name nobody takes the name from it, no
      thread enters the operation, and no live one is inside, whatever happens. */
  lemma LegacyBlocks(s: State, events: seq<Event>, t: Tid)
    requires Reachable(s) && s.world.dir.canonical.Legacy? && t in s.pcs
    requires forall i :: 0 <= i < |events| ==> !events[i].LegacyDrop?
    ensures var e := Run(s, events);
      && e.world.dir.canonical.Legacy? && t in e.pcs
      && (e.pcs[t].InOp? ==> s.pcs[t].InOp?)
      && (Live(e.world, t) ==> !e.pcs[t].InOp?)
  {
    ReachableInv(s);
    LegacyRun(s, events, t);
    assert Live(Run(s, events).world, t) ==> Role(Run(s, events).world, t, Run(s, events).pcs[t]);
  }

  // ----- which failures can happen -----

  /** A live thread never loses a held lock, never fails a release or a discard,
      and never finds a published owner malformed.  What is left is the timeout
      and the two refusals of a scan that overlapped a transfer. */
  lemma OnlyScanFailures(s: State, t: Tid)
    requires Reachable(s) && t in s.pcs && Live(s.world, t) && s.pcs[t].Failed?
    ensures s.pcs[t].error in {TimedOut, MalformedClaims, MalformedSweep}
  {
    ReachableInv(s);
    assert Role(s.world, t, s.pcs[t]);
  }

  /** Where the calls of a transfer lead: never into a scan, and into a failure or a
      fault only as its context says. */
  lemma TransferLeadsTo(d: Dir, me: Pid, crashed: set<Pid>, pc: Pc, ch: Choice)
    requires Transfers(pc)
    ensures var pc' := StepOf(d, me, crashed, pc, ch).pc;
      && !pc'.Scan? && !pc'.Visit? && !pc'.Settle?
      && (pc'.Failed? ==> pc' == Failed(ReleaseFailed))
      && (pc'.SweepFault? ==>
            pc'.k == 0 && !pc.PublishClaim? && !pc.DropOld? && pc.ctx.Sweeping? && pc'.claim == pc.claim)
  {
  }

  /** The calls a releasing thread still has to make. */
  function CallsToRelease(pc: Pc): nat {
    match pc
    case Release(_, k) => if k <= 2 then 27 - k else 0
    case PublishClaim(_, _, Releasing) => 24
    case Fill(_, _, Releasing, k) => if k <= 1 then 23 - k else 0
    case Detach(_, Releasing, k) => if k <= 7 then 21 - k else 0
    case Retire(_, Releasing, k) => if k <= 6 then 13 - k else 0
    case Leaf(_, Releasing, k) => if k <= 5 then 6 - k else 0
    case _ => 0
  }

  /** Before the name is moved away, and after. */
  lemma ReleaseClaims(w: World, t: Tid, pc: Pc, ch: Choice)
    requires DirOk(w) && Live(w, t) && Role(w, t, pc) && 0 < CallsToRelease(pc)
    requires pc.Release? || pc.PublishClaim? || pc.Fill?
    ensures CallsToRelease(StepOf(w.dir, w.pids[t], w.crashed, pc, ch).pc) == CallsToRelease(pc) - 1
  {
  }

  lemma ReleaseDetaches(w: World, t: Tid, pc: Pc, ch: Choice)
    requires DirOk(w) && Live(w, t) && Role(w, t, pc) && 0 < CallsToRelease(pc)
    requires pc.Detach? || pc.Retire? || pc.Leaf?
    ensures var pc' := StepOf(w.dir, w.pids[t], w.crashed, pc, ch).pc;
      CallsToRelease(pc') == CallsToRelease(pc) - 1 && (CallsToRelease(pc') == 0 ==> pc'.Idle?)
  {
    if pc.Detach? || pc.Retire? { assert ClaimOk(w, pc.claim); }
  }

  lemma ReleaseStep(w: World, t: Tid, pc: Pc, ch: Choice)
    requires DirOk(w) && Live(w, t) && Role(w, t, pc) && 0 < CallsToRelease(pc)
    ensures var pc' := StepOf(w.dir, w.pids[t], w.crashed, pc, ch).pc;
      CallsToRelease(pc') == CallsToRelease(pc) - 1 && (CallsToRelease(pc') == 0 ==> pc'.Idle?)
  {
    if pc.Release? || pc.PublishClaim? || pc.Fill? {
      ReleaseClaims(w, t, pc, ch);
    } else {
      ReleaseDetaches(w, t, pc, ch);
    }
  }

  /** Release is wait-free and never fails: whatever the other threads do, each
      call of a live releasing thread succeeds, and the 27th ends the release. */
  lemma ReleaseIsWaitFree(s: State, t: Tid, ch: Choice)
    requires Reachable(s) && Enabled(s, Act(t, ch)) && 0 < CallsToRelease(s.pcs[t])
    ensures var pc' := Next(s, Act(t, ch)).pcs[t];
      CallsToRelease(pc') == CallsToRelease(s.pcs[t]) - 1 && (CallsToRelease(pc') == 0 ==> pc'.Idle?)
  {
    ReachableInv(s);
    ReleaseStep(s.world, t, s.pcs[t], ch);
  }
}
