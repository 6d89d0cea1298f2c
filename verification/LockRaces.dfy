/** The one way the lock protocol lets a healthy thread fail, in a run without any
    crash: a sweep that overlaps somebody else's release refuses the claim. */
module LockRaces {
  import opened Wrappers
  import opened LockDirectory
  import opened CheckoutLock
  import opened LockScenes

  // Thread 1 acquires and releases while thread 2 sweeps; thread 3 never starts.

  const MET := Cursor({}, {CLAIM})
  const SWEPT := IDLE[2 := Sweep(NOTHING)]
  const DETACHING := IDLE[1 := Detach(CLAIM, Releasing, 0)]

  lemma FirstClaimsMeanwhile() returns (es: seq<Event>)
    ensures Leads(es, CLAIMED, DETACHING[2 := Sweep(NOTHING)])
  {
    assert Start(PIDS).pcs == IDLE == IDLE[2 := Idle] && SWEPT[1 := Idle] == SWEPT;
    es := OpensItsSweep([], IDLE, 2);
    es := FirstClaims(es, SWEPT);
    assert SWEPT[1 := Detach(CLAIM, Releasing, 0)] == DETACHING[2 := Sweep(NOTHING)];
  }

  lemma SecondMeetsTheClaim() returns (es: seq<Event>)
    ensures Leads(es, CLAIMED, DETACHING[2 := SweepVisit(MET, CLAIM, 0, 0)])
  {
    es := FirstClaimsMeanwhile();
    assert Mark(NOTHING, CLAIM) == MET;
    es := Reads(es, CLAIMED, DETACHING, 2, Sweep(NOTHING), CLAIM, SweepVisit(MET, CLAIM, 0, 0));
  }

  lemma SecondVisitsTheClaim() returns (es: seq<Event>)
    ensures Leads(es, CLAIMED, DETACHING[2 := SweepVisit(MET, CLAIM, 2, 0)])
  {
    es := SecondMeetsTheClaim();
    es := Reads(es, CLAIMED, DETACHING, 2, SweepVisit(MET, CLAIM, 0, 0), CLAIM, SweepVisit(MET, CLAIM, 1, 0));
    es := Reads(es, CLAIMED, DETACHING, 2, SweepVisit(MET, CLAIM, 1, 0), CLAIM, SweepVisit(MET, CLAIM, 2, 0));
  }

  const REFUSED := IDLE[2 := SweepFault(MET, CLAIM, 0)]

  lemma SecondRefusesTheClaim() returns (es: seq<Event>)
    ensures Leads(es, CLAIMED, REFUSED[1 := Detach(CLAIM, Releasing, 0)])
  {
    es := SecondVisitsTheClaim();
    es := Reads(es, CLAIMED, DETACHING, 2, SweepVisit(MET, CLAIM, 2, 0), CLAIM, SweepVisit(MET, CLAIM, 3, 1));
    es := Reads(es, CLAIMED, DETACHING, 2, SweepVisit(MET, CLAIM, 3, 1), CLAIM, SweepFault(MET, CLAIM, 0));
    assert DETACHING[2 := SweepFault(MET, CLAIM, 0)] == REFUSED[1 := Detach(CLAIM, Releasing, 0)];
  }

  const DETACHED :=
    Site(Absent, map[], map[CLAIM := ClaimDir(Some(1), Some(Slot(Some(1), Link(7))), None)], {}, map[7 := 1, 8 := 1],
         {CLAIM})

  lemma FirstChecks() returns (es: seq<Event>)
    ensures Leads(es, CLAIMED, REFUSED[1 := Detach(CLAIM, Releasing, 6)])
  {
    es := SecondRefusesTheClaim();
    for k := 0 to 6
      invariant Leads(es, CLAIMED, REFUSED[1 := Detach(CLAIM, Releasing, k)])
    {
      es := First(es, CLAIMED, REFUSED, Detach(CLAIM, Releasing, k), Detach(CLAIM, Releasing, k + 1));
    }
  }

  const NEXT := Detach(CLAIM, Releasing, 7)
  const RELEASED := IDLE[1 := NEXT]

  lemma FirstDetaches() returns (es: seq<Event>)
    ensures Leads(es, DETACHED, REFUSED[1 := NEXT])
  {
    es := FirstChecks();
    es := Writes(es, CLAIMED, REFUSED, 1, Detach(CLAIM, Releasing, 6), 0, DETACHED, NEXT);
  }

  lemma SecondReadsTheName() returns (es: seq<Event>)
    ensures Leads(es, DETACHED, RELEASED[2 := SweepFault(MET, CLAIM, 1)])
  {
    es := FirstDetaches();
    assert REFUSED[1 := NEXT] == RELEASED[2 := SweepFault(MET, CLAIM, 0)];
    es := Reads(es, DETACHED, RELEASED, 2, SweepFault(MET, CLAIM, 0), CLAIM, SweepFault(MET, CLAIM, 1));
  }

  /** No crash: one thread releases, and the acquisition of another fails with a
      malformed-claim error instead of retrying. */
  lemma HealthyAcquirerFails() returns (es: seq<Event>)
    ensures Leads(es, DETACHED, RELEASED[2 := Failed(MalformedSweep)])
    ensures Reachable(State(DETACHED, RELEASED[2 := Failed(MalformedSweep)]))
  {
    es := SecondReadsTheName();
    es := Reads(es, DETACHED, RELEASED, 2, SweepFault(MET, CLAIM, 1), CLAIM, SweepFault(MET, CLAIM, 2));
    es := Reads(es, DETACHED, RELEASED, 2, SweepFault(MET, CLAIM, 2), CLAIM, Failed(MalformedSweep));
  }
}
