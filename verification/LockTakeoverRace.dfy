/** A run that reaches the other refusal: a claimant dies before it detaches, one
    thread takes its claim over, and a second one, scanning meanwhile, sees the
    owner directory in both claims and gives up. */
module LockTakeoverRace {
  import opened Wrappers
  import opened LockDirectory
  import opened CheckoutLock
  import opened LockScenes

  const TAKER := ClaimId(7, 9)
  const LEFT := CLAIMED.(crashed := {1})
  const STOPPED := IDLE[1 := Detach(CLAIM, Releasing, 0)]

  lemma FirstDies() returns (es: seq<Event>)
    ensures Leads(es, LEFT, STOPPED)
  {
    assert Start(PIDS).pcs == IDLE == IDLE[1 := Idle];
    es := FirstClaims([], IDLE);
    LeadsOn(es, Crash(1));
    es := es + [Crash(1)];
  }

  // ----- a scan accepts a claim -----

  /** A claim directory that passes every check of a visit. */
  predicate Sound(d: Dir, c: ClaimId, holder: Pid) {
    Bears(d, c) && SlotRecorded(d, c) && d.claims[c].record == Some(holder)
  }

  lemma VisitsHolder(es: seq<Event>, w: World, pcs: map<Tid, Pc>, t: Tid, cursor: Cursor, found: seq<Found>, c: ClaimId,
                     holder: Pid) returns (fs: seq<Event>)
    requires Live(w, t) && Sound(w.dir, c, holder) && Leads(es, w, pcs[t := Visit(7, cursor, found, c, 0, 0)])
    ensures Leads(fs, w, pcs[t := Visit(7, cursor, found, c, 3, holder)])
  {
    fs := Reads(es, w, pcs, t, Visit(7, cursor, found, c, 0, 0), c, Visit(7, cursor, found, c, 1, 0));
    fs := Reads(fs, w, pcs, t, Visit(7, cursor, found, c, 1, 0), c, Visit(7, cursor, found, c, 2, 0));
    fs := Reads(fs, w, pcs, t, Visit(7, cursor, found, c, 2, 0), c, Visit(7, cursor, found, c, 3, holder));
  }

  lemma Accepts(es: seq<Event>, w: World, pcs: map<Tid, Pc>, t: Tid, cursor: Cursor, found: seq<Found>, c: ClaimId,
                holder: Pid) returns (fs: seq<Event>)
    requires Live(w, t) && Sound(w.dir, c, holder) && Leads(es, w, pcs[t := Visit(7, cursor, found, c, 0, 0)])
    ensures Leads(fs, w, pcs[t := Scan(7, cursor, found + [Found(c, holder in w.crashed)])])
  {
    fs := VisitsHolder(es, w, pcs, t, cursor, found, c, holder);
    fs := Reads(fs, w, pcs, t, Visit(7, cursor, found, c, 3, holder), c, Visit(7, cursor, found, c, 4, holder));
    fs := Reads(fs, w, pcs, t, Visit(7, cursor, found, c, 4, holder), c, Visit(7, cursor, found, c, 5, holder));
    var next := Scan(7, cursor, found + [Found(c, holder in w.crashed)]);
    fs := Reads(fs, w, pcs, t, Visit(7, cursor, found, c, 5, holder), c, next);
  }

  const UNREAD := Cursor({CLAIM}, {})
  const MET := Cursor({CLAIM}, {CLAIM})
  const DEAD := [Found(CLAIM, true)]

  lemma Probes(es: seq<Event>, pcs: map<Tid, Pc>, t: Tid) returns (fs: seq<Event>)
    requires 2 <= t <= 3 && Leads(es, LEFT, pcs[t := Idle])
    ensures Leads(fs, LEFT, pcs[t := ProbeOwner(7, 0, 0)])
  {
    fs := Reads(es, LEFT, pcs, t, Idle, CLAIM, Look);
    fs := Reads(fs, LEFT, pcs, t, Look, CLAIM, ReadTarget);
    fs := Reads(fs, LEFT, pcs, t, ReadTarget, CLAIM, ProbeOwner(7, 0, 0));
  }

  lemma Scans(es: seq<Event>, pcs: map<Tid, Pc>, t: Tid) returns (fs: seq<Event>)
    requires 2 <= t <= 3 && Leads(es, LEFT, pcs[t := Idle])
    ensures Leads(fs, LEFT, pcs[t := Scan(7, UNREAD, [])])
  {
    fs := Probes(es, pcs, t);
    fs := Reads(fs, LEFT, pcs, t, ProbeOwner(7, 0, 0), CLAIM, OpenScan(7));
    assert (set c | c in LEFT.dir.claims && c.owner == 7) == {CLAIM};
    fs := Reads(fs, LEFT, pcs, t, OpenScan(7), CLAIM, Scan(7, UNREAD, []));
  }

  /** A thread that starts now finds the claim of the dead claimant. */
  lemma FindsTheDead(es: seq<Event>, pcs: map<Tid, Pc>, t: Tid) returns (fs: seq<Event>)
    requires 2 <= t <= 3 && Leads(es, LEFT, pcs[t := Idle])
    ensures Leads(fs, LEFT, pcs[t := Scan(7, MET, DEAD)])
  {
    fs := Scans(es, pcs, t);
    assert Mark(UNREAD, CLAIM) == MET;
    fs := Reads(fs, LEFT, pcs, t, Scan(7, UNREAD, []), CLAIM, Visit(7, MET, [], CLAIM, 0, 0));
    fs := Accepts(fs, LEFT, pcs, t, MET, [], CLAIM, 1);
    assert [] + [Found(CLAIM, true)] == DEAD;
  }

  // ----- the second thread takes the claim over while the third one scans -----

  const WATCHED := STOPPED[3 := Scan(7, MET, DEAD)]

  lemma ThirdFindsTheDead() returns (es: seq<Event>)
    ensures Leads(es, LEFT, WATCHED)
  {
    es := FirstDies();
    assert STOPPED[3 := Idle] == STOPPED;
    es := FindsTheDead(es, STOPPED, 3);
  }

  lemma SecondFindsTheDead() returns (es: seq<Event>)
    ensures Leads(es, LEFT, WATCHED[2 := Scan(7, MET, DEAD)])
  {
    es := ThirdFindsTheDead();
    assert WATCHED[2 := Idle] == WATCHED;
    es := FindsTheDead(es, WATCHED, 2);
  }

  lemma SecondSettles() returns (es: seq<Event>)
    ensures Leads(es, LEFT, WATCHED[2 := RecheckClaim(CLAIM, 0, 0)])
  {
    es := SecondFindsTheDead();
    es := Reads(es, LEFT, WATCHED, 2, Scan(7, MET, DEAD), CLAIM, Settle(7, DEAD));
    es := Reads(es, LEFT, WATCHED, 2, Settle(7, DEAD), CLAIM, RecheckClaim(CLAIM, 0, 0));
  }

  lemma SecondRechecks() returns (es: seq<Event>)
    ensures Leads(es, LEFT, WATCHED[2 := RecheckClaim(CLAIM, 3, 1)])
  {
    es := SecondSettles();
    es := Reads(es, LEFT, WATCHED, 2, RecheckClaim(CLAIM, 0, 0), CLAIM, RecheckClaim(CLAIM, 1, 0));
    es := Reads(es, LEFT, WATCHED, 2, RecheckClaim(CLAIM, 1, 0), CLAIM, RecheckClaim(CLAIM, 2, 1));
    es := Reads(es, LEFT, WATCHED, 2, RecheckClaim(CLAIM, 2, 1), CLAIM, RecheckClaim(CLAIM, 3, 1));
  }

  lemma SecondDecides() returns (es: seq<Event>)
    ensures Leads(es, LEFT, WATCHED[2 := PublishClaim(7, FromClaim(CLAIM), Recovering)])
  {
    es := SecondRechecks();
    es := Reads(es, LEFT, WATCHED, 2, RecheckClaim(CLAIM, 3, 1), CLAIM, RecheckClaim(CLAIM, 4, 1));
    es := Reads(es, LEFT, WATCHED, 2, RecheckClaim(CLAIM, 4, 1), CLAIM, RecheckClaim(CLAIM, 5, 1));
    es := Reads(es, LEFT, WATCHED, 2, RecheckClaim(CLAIM, 5, 1), CLAIM, PublishClaim(7, FromClaim(CLAIM), Recovering));
  }

  const MAKERS: map<Nonce, Tid> := map[7 := 1, 8 := 1, 9 := 2]
  const TAKING :=
    Site(Link(7), map[],
         map[CLAIM := ClaimDir(Some(1), Some(MINE), None), TAKER := ClaimDir(Some(2), None, None)], {1}, MAKERS, {CLAIM})
  const TAKEN :=
    Site(Link(7), map[],
         map[CLAIM := ClaimDir(Some(1), None, None), TAKER := ClaimDir(Some(2), Some(MINE), None)], {1}, MAKERS,
         {CLAIM, TAKER})

  lemma SecondPublishesItsClaim() returns (es: seq<Event>)
    ensures Leads(es, TAKING, WATCHED[2 := Fill(TAKER, FromClaim(CLAIM), Recovering, 1)])
  {
    es := SecondDecides();
    var next := Fill(TAKER, FromClaim(CLAIM), Recovering, 1);
    es := Writes(es, LEFT, WATCHED, 2, PublishClaim(7, FromClaim(CLAIM), Recovering), 9, TAKING, next);
  }

  lemma SecondTakesOver() returns (es: seq<Event>)
    ensures Leads(es, TAKEN, WATCHED[2 := DropOld(CLAIM, TAKER, 0)])
  {
    es := SecondPublishesItsClaim();
    es := Writes(es, TAKING, WATCHED, 2, Fill(TAKER, FromClaim(CLAIM), Recovering, 1), 0, TAKEN, DropOld(CLAIM, TAKER, 0));
  }

  // ----- the third thread goes on with its scan -----

  const BOTH := Cursor({CLAIM}, {CLAIM, TAKER})
  const TWICE := [Found(CLAIM, true), Found(TAKER, false)]
  const TOOK := STOPPED[2 := DropOld(CLAIM, TAKER, 0)]

  lemma ThirdMeetsTheTaker() returns (es: seq<Event>)
    ensures Leads(es, TAKEN, TOOK[3 := Visit(7, BOTH, DEAD, TAKER, 0, 0)])
  {
    es := SecondTakesOver();
    assert WATCHED[2 := DropOld(CLAIM, TAKER, 0)] == TOOK[3 := Scan(7, MET, DEAD)];
    assert Mark(MET, TAKER) == BOTH;
    es := Reads(es, TAKEN, TOOK, 3, Scan(7, MET, DEAD), TAKER, Visit(7, BOTH, DEAD, TAKER, 0, 0));
  }

  lemma ThirdFindsBoth() returns (es: seq<Event>)
    ensures Leads(es, TAKEN, TOOK[3 := Scan(7, BOTH, TWICE)])
  {
    es := ThirdMeetsTheTaker();
    es := Accepts(es, TAKEN, TOOK, 3, BOTH, DEAD, TAKER, 2);
    assert DEAD + [Found(TAKER, false)] == TWICE;
  }

  /** Of three threads one has died; the second has taken its claim over, and the
      third fails with malformed claims, having seen one owner directory twice. */
  lemma OverlappedScanFails() returns (es: seq<Event>)
    ensures Leads(es, TAKEN, TOOK[3 := Failed(MalformedClaims)])
    ensures Reachable(State(TAKEN, TOOK[3 := Failed(MalformedClaims)]))
  {
    es := ThirdFindsBoth();
    es := Reads(es, TAKEN, TOOK, 3, Scan(7, BOTH, TWICE), CLAIM, Settle(7, TWICE));
    es := Reads(es, TAKEN, TOOK, 3, Settle(7, TWICE), CLAIM, Failed(MalformedClaims));
  }
}
