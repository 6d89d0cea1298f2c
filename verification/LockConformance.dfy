/** What an acquirer makes of a directory that stays as it is, whatever it holds --
    well formed or not, reachable by the protocol or not: the verdict of the
    classification, of the second look before a recovery, of one claim in the sweep,
    and of the checks before each rename. */
module LockConformance {
  import opened Wrappers
  import opened LockDirectory
  import opened CheckoutLock
  import opened LockInvariant
  import opened LockPreserved
  import opened LockRecovery

  // ----- the verdicts -----

  predicate Bearer(d: Dir, n: Nonce, c: ClaimId) { c in d.claims && c.owner == n && d.claims[c].owner.Some? }

  /** The claim directory holds its record and the owner directory, and that its own
      record, and nothing else. */
  predicate Whole(d: Dir, c: ClaimId) {
    && c in d.claims && d.claims[c].record.Some? && d.claims[c].retired.None?
    && d.claims[c].owner.Some? && d.claims[c].owner.value.record.Some? && d.claims[c].owner.value.tomb.Absent?
  }

  predicate DeadClaimant(d: Dir, crashed: set<Pid>, c: ClaimId) {
    c in d.claims && d.claims[c].record.Some? && d.claims[c].record.value in crashed
  }

  /** Missing: acquire.  Legacy: wait.  A live owner: wait; a dead one: recover; a
      malformed one: fail.  A dangling link: fail if a claim that bears the owner is
      malformed or several do, wait if none does or its claimant lives, and else take
      that claim over. */
  ghost predicate Verdict(d: Dir, crashed: set<Pid>, pc: Pc) {
    match d.canonical
    case Absent => pc == SweepBegin
    case Legacy => pc == Wait
    case Link(n) =>
      if n in d.owners then
        var slot := d.owners[n];
        if slot.record.None? || !slot.tomb.Absent? then pc == Failed(MalformedOwner)
        else pc == if slot.record.value in crashed then RecheckOwner(n, 0, 0) else Wait
      else if exists c :: Bearer(d, n, c) && !Whole(d, c) then pc == Failed(MalformedClaims)
      else if exists c, e :: c != e && Bearer(d, n, c) && Bearer(d, n, e) then pc == Failed(MalformedClaims)
      else if c :| Bearer(d, n, c) then pc == if DeadClaimant(d, crashed, c) then RecheckClaim(c, 0, 0) else Wait
      else pc == Wait
  }

  // ----- the way there -----

  predicate Classifying(pc: Pc) {
    pc.Look? || pc.ReadTarget? || pc.ProbeOwner? || pc.OpenScan? || pc.Scan? || pc.Visit? || pc.Settle?
  }

  /** The scan has accepted exactly the claims that bear the owner, of those it has
      passed, all of them whole. */
  ghost predicate Accepts(d: Dir, crashed: set<Pid>, n: Nonce, seen: set<ClaimId>, found: seq<Found>) {
    && (forall i :: 0 <= i < |found| ==>
          && Bearer(d, n, found[i].claim) && found[i].claim in seen
          && found[i].dead == DeadClaimant(d, crashed, found[i].claim))
    && (forall i, j :: 0 <= i < j < |found| ==> found[i].claim != found[j].claim)
    && (forall c :: c in seen && Bearer(d, n, c) ==> Whole(d, c) && exists i :: 0 <= i < |found| && found[i].claim == c)
  }

  ghost predicate Heading(d: Dir, crashed: set<Pid>, pc: Pc) {
    match pc
    case Look => true
    case ReadTarget => d.canonical.Link?
    case ProbeOwner(n, k, h) =>
      && d.canonical == Link(n) && k <= 5
      && (k >= 1 ==> n in d.owners)
      && (2 <= k <= 3 ==> OwnerRecorded(d, n))
      && (k == 3 ==> d.owners[n].record == Some(h))
      && (k >= 4 ==> !OwnerRecorded(d, n))
    case OpenScan(n) => d.canonical == Link(n) && n !in d.owners
    case Scan(n, cursor, found) =>
      && d.canonical == Link(n) && n !in d.owners && cursor.snapshot == Entries(d, n)
      && Accepts(d, crashed, n, cursor.seen, found)
    case Visit(n, cursor, found, c, k, h) =>
      && d.canonical == Link(n) && n !in d.owners && cursor.snapshot == Entries(d, n)
      && c.owner == n && c in cursor.seen && Accepts(d, crashed, n, cursor.seen - {c}, found)
      && k <= 8
      && (k >= 1 ==> Bearer(d, n, c))
      && (2 <= k <= 5 ==> Bears(d, c))
      && (3 <= k <= 5 ==> d.claims[c].record == Some(h))
      && (4 <= k <= 5 ==> Whole(d, c))
      && (k >= 6 ==> !Whole(d, c))
    case Settle(n, found) =>
      && d.canonical == Link(n) && n !in d.owners
      && Accepts(d, crashed, n, Entries(d, n), found)
    case _ => false
  }

  lemma LookHeads(d: Dir, crashed: set<Pid>, pc: Pc, ch: Choice)
    requires pc.Look? || pc.ReadTarget? || pc.ProbeOwner? || pc.OpenScan?
    requires Heading(d, crashed, pc) && ch.dead
    ensures var e := ClassifyStep(d, crashed, pc, ch);
      e == Go(d, e.pc) && if Classifying(e.pc) then Heading(d, crashed, e.pc) else Verdict(d, crashed, e.pc)
  {
  }

  lemma ScanHeads(d: Dir, crashed: set<Pid>, pc: Pc, ch: Choice)
    requires pc.Scan? && Heading(d, crashed, pc) && Answers(d, pc, ch)
    ensures var e := ClassifyStep(d, crashed, pc, ch); e == Go(d, e.pc) && Classifying(e.pc) && Heading(d, crashed, e.pc)
  {
    if ch.pick.owner == pc.gen && Returns(d, pc.cursor, ch.pick) {
      assert Mark(pc.cursor, ch.pick).seen - {ch.pick} == pc.cursor.seen;
    } else {
      assert forall c :: Bearer(d, pc.gen, c) ==> c in Entries(d, pc.gen);
      assert forall c :: c in Entries(d, pc.gen) ==> c in pc.cursor.seen;
      AcceptsAll(d, crashed, pc.gen, pc.cursor.seen, pc.found);
    }
  }

  lemma AcceptsAll(d: Dir, crashed: set<Pid>, n: Nonce, seen: set<ClaimId>, found: seq<Found>)
    requires Accepts(d, crashed, n, seen, found) && Entries(d, n) <= seen
    ensures Accepts(d, crashed, n, Entries(d, n), found)
  {
  }

  /** One more claim is accepted, or passed over. */
  lemma AcceptsMore(d: Dir, crashed: set<Pid>, n: Nonce, seen: set<ClaimId>, found: seq<Found>, c: ClaimId)
    requires Accepts(d, crashed, n, seen - {c}, found) && c in seen
    ensures !Bearer(d, n, c) ==> Accepts(d, crashed, n, seen, found)
    ensures Bearer(d, n, c) && Whole(d, c) ==>
      Accepts(d, crashed, n, seen, found + [Found(c, DeadClaimant(d, crashed, c))])
  {
    var more := found + [Found(c, DeadClaimant(d, crashed, c))];
    assert forall i :: 0 <= i < |found| ==> more[i] == found[i];
    assert more[|found|].claim == c;
  }

  lemma VisitHeads(d: Dir, crashed: set<Pid>, pc: Pc, ch: Choice)
    requires pc.Visit? && Heading(d, crashed, pc) && ch.dead
    ensures var e := VisitStep(d, crashed, pc, ch);
      e == Go(d, e.pc) && if Classifying(e.pc) then Heading(d, crashed, e.pc) else Verdict(d, crashed, e.pc)
  {
    AcceptsMore(d, crashed, pc.gen, pc.cursor.seen, pc.found, pc.claim);
  }

  lemma SettleHeads(d: Dir, crashed: set<Pid>, pc: Pc, ch: Choice)
    requires pc.Settle? && Heading(d, crashed, pc)
    ensures var e := ClassifyStep(d, crashed, pc, ch); e == Go(d, e.pc) && Verdict(d, crashed, e.pc)
  {
    var n, found := pc.gen, pc.found;
    assert forall c :: Bearer(d, n, c) ==> c in Entries(d, n) && Whole(d, c);
    if |found| > 1 { assert Bearer(d, n, found[0].claim) && Bearer(d, n, found[1].claim); }
  }

  /** A call of a classification of a directory that stays as it is changes nothing and
      heads for the verdict; what it ends with is the verdict. */
  lemma ClassifiesByTheTable(d: Dir, me: Pid, crashed: set<Pid>, pc: Pc, ch: Choice)
    requires Classifying(pc) && Heading(d, crashed, pc) && Answers(d, pc, ch)
    ensures var e := StepOf(d, me, crashed, pc, ch);
      e == Go(d, e.pc) && if Classifying(e.pc) then Heading(d, crashed, e.pc) else Verdict(d, crashed, e.pc)
  {
    if pc.Visit? {
      VisitHeads(d, crashed, pc, ch);
    } else if pc.Scan? {
      ScanHeads(d, crashed, pc, ch);
    } else if pc.Settle? {
      SettleHeads(d, crashed, pc, ch);
    } else {
      LookHeads(d, crashed, pc, ch);
    }
  }

  // ----- whole classifications -----

  /** The calls left, at most. */
  function CallsLeft(d: Dir, pc: Pc): nat {
    match pc
    case Look => 10 * |d.claims| + 20
    case ReadTarget => 10 * |d.claims| + 19
    case ProbeOwner(_, k, _) => if k <= 5 then 10 * |d.claims| + 18 - k else 0
    case OpenScan(_) => 10 * |d.claims| + 12
    case Scan(_, cursor, _) => 10 * Left(cursor) + 2
    case Visit(_, cursor, _, _, k, _) => if k <= 8 then 10 * Left(cursor) + 11 - k else 0
    case Settle(_, _) => 1
    case _ => 0
  }

  lemma OpenScanDescends(d: Dir, n: Nonce)
    ensures CallsLeft(d, Scan(n, Cursor(Entries(d, n), {}), [])) < CallsLeft(d, OpenScan(n))
  {
    SubsetSize(Entries(d, n), d.claims.Keys);
    assert Entries(d, n) - {} == Entries(d, n);
    assert |d.claims| == |d.claims.Keys|;
  }

  lemma PickDescends(d: Dir, n: Nonce, cursor: Cursor, found: seq<Found>, c: ClaimId)
    requires c in cursor.snapshot && c !in cursor.seen
    ensures CallsLeft(d, Visit(n, Mark(cursor, c), found, c, 0, 0)) < CallsLeft(d, Scan(n, cursor, found))
  {
    MarkLeft(cursor, c);
  }

  lemma ScanDescends(d: Dir, crashed: set<Pid>, n: Nonce, cursor: Cursor, found: seq<Found>, ch: Choice)
    requires cursor.snapshot == Entries(d, n) && Answers(d, Scan(n, cursor, found), ch)
    ensures CallsLeft(d, ClassifyStep(d, crashed, Scan(n, cursor, found), ch).pc) < CallsLeft(d, Scan(n, cursor, found))
  {
    if ch.pick.owner == n && Returns(d, cursor, ch.pick) {
      assert ch.pick in Entries(d, n);
      PickDescends(d, n, cursor, found, ch.pick);
    }
  }

  lemma VisitDescends(d: Dir, crashed: set<Pid>, pc: Pc, ch: Choice)
    requires pc.Visit? && pc.k <= 8
    ensures CallsLeft(d, VisitStep(d, crashed, pc, ch).pc) < CallsLeft(d, pc)
  {
  }

  lemma ReadingDescends(d: Dir, me: Pid, crashed: set<Pid>, pc: Pc, ch: Choice)
    requires Classifying(pc) && Heading(d, crashed, pc) && Answers(d, pc, ch)
    ensures CallsLeft(d, StepOf(d, me, crashed, pc, ch).pc) < CallsLeft(d, pc)
  {
    match pc
    case Scan(n, cursor, found) => ScanDescends(d, crashed, n, cursor, found, ch);
    case OpenScan(n) => OpenScanDescends(d, n);
    case Visit(_, _, _, _, _, _) => VisitDescends(d, crashed, pc, ch);
    case _ =>
  }

  /** Where these calls lead, as long as they classify. */
  function Classified(d: Dir, me: Pid, crashed: set<Pid>, pc: Pc, choices: seq<Choice>): Pc
    decreases |choices|
  {
    if choices == [] || !Classifying(pc) then pc
    else Classified(d, me, crashed, StepOf(d, me, crashed, pc, choices[0]).pc, choices[1..])
  }

  predicate AllAnswered(d: Dir, me: Pid, crashed: set<Pid>, pc: Pc, choices: seq<Choice>)
    decreases |choices|
  {
    choices == [] || !Classifying(pc) ||
      (Answers(d, pc, choices[0])
       && AllAnswered(d, me, crashed, StepOf(d, me, crashed, pc, choices[0]).pc, choices[1..]))
  }

  /** Enough answered calls on a directory that stays as it is end with its verdict,
      in whatever order the directory stream returns the claims. */
  lemma {:induction false} ClassificationEnds(d: Dir, me: Pid, crashed: set<Pid>, pc: Pc, choices: seq<Choice>)
    requires Classifying(pc) && Heading(d, crashed, pc) && AllAnswered(d, me, crashed, pc, choices)
    requires CallsLeft(d, pc) <= |choices|
    ensures var end := Classified(d, me, crashed, pc, choices); !Classifying(end) && Verdict(d, crashed, end)
    decreases |choices|
  {
    assert 0 < CallsLeft(d, pc);
    ReadingDescends(d, me, crashed, pc, choices[0]);
    ClassifiesByTheTable(d, me, crashed, pc, choices[0]);
    var next := StepOf(d, me, crashed, pc, choices[0]).pc;
    if Classifying(next) { ClassificationEnds(d, me, crashed, next, choices[1..]); }
  }

  // ----- one claim in the sweep -----

  /** The claim is whole and its owner directory holds the link of its generation. */
  predicate Detached(d: Dir, c: ClaimId) {
    && c in d.claims && d.claims[c].record.Some? && d.claims[c].retired.None? && d.claims[c].owner.Some?
    && d.claims[c].owner.value.record.Some? && d.claims[c].owner.value.tomb == Link(c.owner)
  }

  /** What the sweep makes of one claim: pass over what bears no owner and over the
      living, retire the dead, and give up on what is malformed, unless the name has
      been taken meanwhile. */
  predicate SweepVerdict(d: Dir, crashed: set<Pid>, cursor: Cursor, c: ClaimId, pc: Pc) {
    if !(c in d.claims && d.claims[c].owner.Some?) then pc == Sweep(cursor)
    else if Detached(d, c) then
      pc == if DeadClaimant(d, crashed, c) then Retire(c, Sweeping(cursor), 0) else Sweep(cursor)
    else pc == if d.canonical.Absent? then Failed(MalformedSweep) else Wait
  }

  predicate Sweeps(d: Dir, cursor: Cursor, c: ClaimId, pc: Pc) {
    match pc
    case SweepVisit(cur, e, k, h) =>
      && cur == cursor && e == c && k <= 6
      && (k >= 1 ==> HasOwnerSlot(d, c)) && (k >= 2 ==> Bears(d, c)) && (k >= 3 ==> d.claims[c].record == Some(h))
      && (k >= 4 ==> SlotTombstoned(d, c)) && (k >= 6 ==> TombNames(d, c))
    case SweepFault(cur, e, k) =>
      && cur == cursor && e == c && k <= 2 && HasOwnerSlot(d, c) && !Detached(d, c)
      && (k >= 1 ==> d.canonical.Absent?)
    case _ => false
  }

  /** A call of the sweep at one claim, in a directory that stays as it is. */
  lemma SweepsByTheTable(d: Dir, crashed: set<Pid>, pc: Pc, ch: Choice, cursor: Cursor, c: ClaimId)
    requires Sweeps(d, cursor, c, pc) && ch.dead
    ensures var e := SweepStep(d, crashed, pc, ch);
      e == Go(d, e.pc) && (Sweeps(d, cursor, c, e.pc) || SweepVerdict(d, crashed, cursor, c, e.pc))
    ensures var e := SweepStep(d, crashed, pc, ch);
      Sweeps(d, cursor, c, e.pc) ==> (if pc.SweepVisit? then e.pc.SweepFault? || e.pc.k == pc.k + 1 else e.pc.k == pc.k + 1)
  {
  }

  // ----- the checks before a recovery and before each rename -----

  /** What the checks of a straight run lead to on this directory. */
  ghost predicate ChecksOut(d: Dir, crashed: set<Pid>, pc: Pc, end: Pc) {
    match pc
    case RecheckOwner(n, k, h) =>
      end == (if OwnerRecorded(d, n) && d.owners[n].record.value in crashed then PublishClaim(n, FromOwner, Recovering) else Wait)
      && k <= 2 && (k >= 1 ==> OwnerRecorded(d, n)) && (k == 2 ==> d.owners[n].record == Some(h))
    case RecheckClaim(c, k, h) =>
      end == (if Whole(d, c) && DeadClaimant(d, crashed, c) && d.canonical == Link(c.owner)
              then PublishClaim(c.owner, FromClaim(c), Recovering) else Wait)
      && k <= 5 && (k >= 1 ==> Bears(d, c)) && (2 <= k ==> d.claims[c].record.Some?)
      && (k == 2 ==> d.claims[c].record == Some(h)) && (k >= 3 ==> DeadClaimant(d, crashed, c)) && (k >= 4 ==> Whole(d, c))
    case Release(n, k) =>
      end == (if d.canonical == Link(n) && OwnerRecorded(d, n) then PublishClaim(n, FromOwner, Releasing)
              else Failed(ReleaseFailed))
      && k <= 2 && (k >= 1 ==> d.canonical == Link(n)) && (k == 2 ==> OwnerRecorded(d, n))
    case Verify(n, k) =>
      end == (if d.canonical == Link(n) && n in d.owners && d.owners[n].record.Some? then InOp(n) else Failed(Unverified))
      && k <= 1 && (k == 1 ==> d.canonical == Link(n))
    case Detach(c, ctx, k) =>
      end == (if Whole(d, c) && d.canonical == Link(c.owner) then Detach(c, ctx, 6) else Fault(ctx, c))
      && k <= 5 && (k >= 1 ==> Bears(d, c)) && (k >= 3 ==> Whole(d, c)) && (k == 5 ==> d.canonical == Link(c.owner))
    case Retire(c, ctx, k) =>
      end == (if Detached(d, c) then Retire(c, ctx, 6) else Fault(ctx, c))
      && k <= 5 && (k >= 1 ==> Bears(d, c)) && (k >= 3 ==> SlotTombstoned(d, c)) && (k == 5 ==> Detached(d, c))
    case _ => false
  }

  /** A check on a directory that stays as it is brings the run one check on, or to
      its end: before a recovery, before a release, after a publication, and before
      the renames that detach and retire, nothing is checked in vain or left out. */
  lemma ChecksByTheTable(d: Dir, me: Pid, crashed: set<Pid>, pc: Pc, ch: Choice, end: Pc)
    requires ChecksOut(d, crashed, pc, end) && ch.dead
    ensures var e := StepOf(d, me, crashed, pc, ch);
      e == Go(d, e.pc) && (e.pc == end || (ChecksOut(d, crashed, e.pc, end) && e.pc.k == pc.k + 1))
  {
  }

  // ----- around the sweep -----

  lemma SweepStepsAround(d: Dir, crashed: set<Pid>, pc: Pc, ch: Choice)
    requires pc.SweepBegin? || pc.SweepOpen? || pc.Sweep? || pc.SweepVisit? || pc.SweepFault? || pc.SweepEnd?
    ensures var e := SweepStep(d, crashed, pc, ch);
      && (e.pc.SweepOpen? <==> pc.SweepBegin? && d.canonical.Absent?)
      && (e.pc.PublishOwner? <==> pc.SweepEnd? && d.canonical.Absent?)
  {
  }

  lemma OthersAround(d: Dir, me: Pid, crashed: set<Pid>, pc: Pc, ch: Choice)
    requires !(pc.SweepBegin? || pc.SweepOpen? || pc.Sweep? || pc.SweepVisit? || pc.SweepFault? || pc.SweepEnd?)
    ensures var e := StepOf(d, me, crashed, pc, ch); !e.pc.SweepOpen? && !e.pc.PublishOwner?
  {
  }

  /** A sweep opens the directory, and an acquisition goes on from it to prepare a
      generation of its own, exactly when it has just found the name free. */
  lemma SweepsAFreeName(d: Dir, me: Pid, crashed: set<Pid>, pc: Pc, ch: Choice)
    ensures var e := StepOf(d, me, crashed, pc, ch);
      && (e.pc.SweepOpen? <==> pc.SweepBegin? && d.canonical.Absent?)
      && (e.pc.PublishOwner? <==> pc.SweepEnd? && d.canonical.Absent?)
  {
    if pc.SweepBegin? || pc.SweepOpen? || pc.Sweep? || pc.SweepVisit? || pc.SweepFault? || pc.SweepEnd? {
      SweepStepsAround(d, crashed, pc, ch);
      assert StepOf(d, me, crashed, pc, ch) == SweepStep(d, crashed, pc, ch);
    } else {
      OthersAround(d, me, crashed, pc, ch);
    }
  }
}
