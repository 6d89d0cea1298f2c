/** Exactly when the search for a claimed owner reports several claims: when a
    takeover fell between two of its visits. */
module LockScans {
  import opened Wrappers
  import opened LockDirectory
  import opened CheckoutLock
  import opened LockInvariant
  import opened LockSteps
  import opened LockPreserved
  import opened LockTheorems

  // ----- takeovers -----

  /** The state before event `i` of a run, or after the run. */
  function At(s: State, events: seq<Event>, i: nat): State
    requires i <= |events|
  {
    Run(s, events[..i])
  }

  lemma AtNext(s: State, events: seq<Event>, i: nat)
    requires i < |events|
    ensures At(s, events, i + 1) == Next(At(s, events, i), events[i])
  {
    assert events[..i + 1][..i] == events[..i];
  }

  lemma AtInv(s: State, events: seq<Event>, i: nat)
    requires Inv(s) && i <= |events|
    ensures Inv(At(s, events, i))
  {
    RunKeeps(s, events[..i]);
  }

  /** The call moves the owner directory of generation `n` from one claim to the
      next. */
  predicate TakesOver(s: State, ev: Event, n: Nonce) {
    Enabled(s, ev) && ev.Act? &&
    var pc := s.pcs[ev.tid];
    && pc.Fill? && pc.k != 0 && pc.source.FromClaim? && pc.claim.owner == n
    && RenameClaimToClaim(s.world.dir, pc.source.prior, pc.claim).Some?
  }

  lemma SlotArrives(s: State, ev: Event, c: ClaimId)
    requires !HasOwnerSlot(s.world.dir, c) && HasOwnerSlot(Next(s, ev).world.dir, c)
    ensures TakesOver(s, ev, c.owner) || c.owner in s.world.dir.owners
  {
    if Enabled(s, ev) && ev.Act? {
      StepDir(s.world.dir, s.world.pids[ev.tid], s.world.crashed, s.pcs[ev.tid], ev.choice);
      SlotComesFromFill(s.world.dir, s.world.pids[ev.tid], s.pcs[ev.tid], ev.choice, c);
    }
  }

  lemma FilledStays(s: State, events: seq<Event>, i: nat, j: nat, c: ClaimId)
    requires Inv(s) && i <= j <= |events| && c in At(s, events, i).world.filled
    ensures c in At(s, events, j).world.filled
  {
    if i < j {
      FilledStays(s, events, i, j - 1, c);
      AtNext(s, events, j - 1);
    }
  }

  lemma HolderIsFilled(w: World, c: ClaimId)
    requires DirOk(w) && HasOwnerSlot(w.dir, c)
    ensures c in w.filled
  {
    assert ClaimOk(w, c);
  }

  lemma HolderIsUnique(w: World, c: ClaimId, e: ClaimId)
    requires DirOk(w) && HasOwnerSlot(w.dir, c) && HasOwnerSlot(w.dir, e) && c.owner == e.owner
    ensures c == e
  {
    assert Holds(w.dir, c) && Holds(w.dir, e);
  }

  /** Once one claim of a generation was filled, another gets the owner directory
      only by a takeover. */
  lemma NextHolder(s: State, ev: Event, c: ClaimId, e: ClaimId)
    requires DirOk(s.world) && c in s.world.filled && c.owner == e.owner
    requires !HasOwnerSlot(s.world.dir, e) && HasOwnerSlot(Next(s, ev).world.dir, e)
    ensures TakesOver(s, ev, c.owner)
  {
    SlotArrives(s, ev, e);
  }

  lemma HolderIsFilledLater(s: State, events: seq<Event>, i: nat, j: nat, c: ClaimId)
    requires Inv(s) && i <= j <= |events| && HasOwnerSlot(At(s, events, i).world.dir, c)
    ensures DirOk(At(s, events, j).world) && c in At(s, events, j).world.filled
  {
    AtInv(s, events, i);
    HolderIsFilled(At(s, events, i).world, c);
    FilledStays(s, events, i, j, c);
    AtInv(s, events, j);
  }

  /** Between two claims of one generation that hold its owner directory at
      different times lies a takeover. */
  lemma {:induction false} TakeoverBetween(s: State, events: seq<Event>, i: nat, j: nat, c: ClaimId, e: ClaimId)
    returns (m: nat)
    requires Inv(s) && i <= j <= |events| && c != e && c.owner == e.owner
    requires HasOwnerSlot(At(s, events, i).world.dir, c) && HasOwnerSlot(At(s, events, j).world.dir, e)
    ensures i <= m < j && TakesOver(At(s, events, m), events[m], c.owner)
    decreases j
  {
    assert i < j by {
      if i == j { HolderIsFilledLater(s, events, i, i, c); HolderIsUnique(At(s, events, i).world, c, e); }
    }
    if HasOwnerSlot(At(s, events, j - 1).world.dir, e) {
      m := TakeoverBetween(s, events, i, j - 1, c, e);
    } else {
      m := j - 1;
      HolderIsFilledLater(s, events, i, m, c);
      AtNext(s, events, m);
      NextHolder(At(s, events, m), events[m], c, e);
    }
  }

  // ----- one scan -----

  predicate Scanning(pc: Pc) { pc.Scan? || pc.Visit? || pc.Settle? }

  /** The visit's check that accepts the claim it looks at. */
  predicate Sights(s: State, ev: Event, t: Tid) {
    && Enabled(s, ev) && ev.Act? && ev.tid == t && s.pcs[t].Visit? && s.pcs[t].k == 4
    && HasOwnerSlot(s.world.dir, s.pcs[t].claim) && s.world.dir.claims[s.pcs[t].claim].owner.value.record.Some?
  }

  function Claims(found: seq<Found>): (cs: seq<ClaimId>) { seq(|found|, i requires 0 <= i < |found| => found[i].claim) }

  /** The claims the scan has accepted so far, in order. */
  function Accepted(pc: Pc): seq<ClaimId>
    requires Scanning(pc)
  {
    Claims(pc.found) + if pc.Visit? && pc.k == 5 then [pc.claim] else []
  }

  /** No claim is accepted twice: a directory stream returns a name once. */
  ghost predicate Orderly(pc: Pc) {
    Scanning(pc) &&
    var cs := Accepted(pc);
    && (forall i, j :: 0 <= i < j < |cs| ==> cs[i] != cs[j])
    && (forall i :: 0 <= i < |cs| ==> cs[i].owner == pc.gen)
    && (!pc.Settle? ==> forall i :: 0 <= i < |cs| ==> cs[i] in pc.cursor.seen)
    && (pc.Visit? ==> pc.claim.owner == pc.gen && pc.claim in pc.cursor.seen && (pc.k != 5 ==> pc.claim !in cs))
  }

  lemma ClaimsOfMore(found: seq<Found>, f: Found)
    ensures Claims(found + [f]) == Claims(found) + [f.claim]
  {
  }

  /** One call of a scan that goes on. */
  lemma ScanCall(s: State, t: Tid, ch: Choice)
    requires Enabled(s, Act(t, ch)) && Scanning(s.pcs[t]) && Scanning(EffectOf(s, t, ch).pc)
    ensures var pc, pc' := s.pcs[t], EffectOf(s, t, ch).pc;
      && pc'.gen == pc.gen
      && Accepted(pc') == Accepted(pc) + if Sights(s, Act(t, ch), t) then [pc.claim] else []
  {
    var pc := s.pcs[t];
    if pc.Visit? && pc.k == 5 {
      ClaimsOfMore(pc.found, Found(pc.claim, ch.dead && pc.holder in s.world.crashed));
    }
  }

  lemma OrderlyCall(s: State, t: Tid, ch: Choice)
    requires Enabled(s, Act(t, ch)) && Orderly(s.pcs[t]) && Scanning(EffectOf(s, t, ch).pc)
    ensures Orderly(EffectOf(s, t, ch).pc)
  {
    ScanCall(s, t, ch);
  }

  /** The thread is at one scan from the first state of the run to the last. */
  ghost predicate InScan(s: State, events: seq<Event>, t: Tid) {
    forall i :: 0 <= i <= |events| ==> t in At(s, events, i).pcs && Scanning(At(s, events, i).pcs[t])
  }

  predicate SightsAt(s: State, events: seq<Event>, t: Tid, i: nat) {
    i < |events| && Sights(At(s, events, i), events[i], t)
  }

  predicate TakesOverAt(s: State, events: seq<Event>, n: Nonce, m: nat) {
    m < |events| && TakesOver(At(s, events, m), events[m], n)
  }

  /** One event of a run, as the scan of thread `t` sees it. */
  lemma ScanEvent(s: State, events: seq<Event>, t: Tid, i: nat)
    requires InScan(s, events, t) && i < |events|
    ensures var pc, pc' := At(s, events, i).pcs[t], At(s, events, i + 1).pcs[t];
      && pc'.gen == pc.gen
      && Accepted(pc') == Accepted(pc) + (if SightsAt(s, events, t, i) then [pc.claim] else [])
      && (Orderly(pc) ==> Orderly(pc'))
  {
    var u, ev := At(s, events, i), events[i];
    AtNext(s, events, i);
    if Enabled(u, ev) && ev.Act? && ev.tid == t {
      ScanCall(u, t, ev.choice);
      if Orderly(u.pcs[t]) { OrderlyCall(u, t, ev.choice); }
    }
  }

  lemma AtStart(s: State, events: seq<Event>)
    ensures At(s, events, 0) == s
  {
  }

  lemma {:induction false} StaysOrderly(s: State, events: seq<Event>, t: Tid, j: nat)
    requires InScan(s, events, t) && Accepted(At(s, events, 0).pcs[t]) == [] && At(s, events, 0).pcs[t].Scan?
    requires j <= |events|
    ensures Orderly(At(s, events, j).pcs[t]) && At(s, events, j).pcs[t].gen == At(s, events, 0).pcs[t].gen
    decreases j
  {
    if j > 0 {
      StaysOrderly(s, events, t, j - 1);
      ScanEvent(s, events, t, j - 1);
    }
  }

  /** Every accepted claim was sighted in the scan. */
  lemma {:induction false} SightingOf(s: State, events: seq<Event>, t: Tid, j: nat, x: nat) returns (i: nat)
    requires InScan(s, events, t) && Accepted(At(s, events, 0).pcs[t]) == [] && j <= |events|
    requires x < |Accepted(At(s, events, j).pcs[t])|
    ensures i < j && SightsAt(s, events, t, i)
    ensures At(s, events, i).pcs[t].claim == Accepted(At(s, events, j).pcs[t])[x]
    decreases j
  {
    if j > 0 {
      ScanEvent(s, events, t, j - 1);
      if x < |Accepted(At(s, events, j - 1).pcs[t])| {
        i := SightingOf(s, events, t, j - 1, x);
      } else {
        i := j - 1;
      }
    }
  }

  lemma {:induction false} AcceptedGrows(s: State, events: seq<Event>, t: Tid, i: nat, j: nat)
    requires InScan(s, events, t) && i <= j <= |events|
    ensures |Accepted(At(s, events, i).pcs[t])| <= |Accepted(At(s, events, j).pcs[t])|
    decreases j
  {
    if i < j {
      AcceptedGrows(s, events, t, i, j - 1);
      ScanEvent(s, events, t, j - 1);
    }
  }

  /** Two claims are sighted in one scan only if a takeover lies between. */
  lemma TakeoverSplits(s: State, events: seq<Event>, t: Tid, i: nat, j: nat) returns (m: nat)
    requires Inv(s) && i < j < |events| && SightsAt(s, events, t, i) && SightsAt(s, events, t, j)
    requires At(s, events, i).pcs[t].claim != At(s, events, j).pcs[t].claim
    requires At(s, events, i).pcs[t].claim.owner == At(s, events, j).pcs[t].claim.owner
    ensures i < m < j && TakesOverAt(s, events, At(s, events, i).pcs[t].claim.owner, m)
  {
    m := TakeoverBetween(s, events, i, j, At(s, events, i).pcs[t].claim, At(s, events, j).pcs[t].claim);
  }

  /** A takeover of generation `n` fell between two sightings of the scan. */
  ghost predicate TakeoverWithin(s: State, events: seq<Event>, t: Tid, n: Nonce) {
    exists i: nat, m: nat, j: nat ::
      i < m < j && SightsAt(s, events, t, i) && TakesOverAt(s, events, n, m) && SightsAt(s, events, t, j)
  }

  lemma SeveralMeanTakeover(s: State, events: seq<Event>, t: Tid)
    requires Inv(s) && InScan(s, events, t) && At(s, events, 0).pcs[t].Scan? && Accepted(At(s, events, 0).pcs[t]) == []
    requires 1 < |Accepted(At(s, events, |events|).pcs[t])|
    ensures TakeoverWithin(s, events, t, At(s, events, 0).pcs[t].gen)
  {
    var i := SightingOf(s, events, t, |events|, 0);
    var j := SightingOf(s, events, t, |events|, 1);
    StaysOrderly(s, events, t, |events|);
    if i < j {
      var m := TakeoverSplits(s, events, t, i, j);
    } else {
      var m := TakeoverSplits(s, events, t, j, i);
    }
  }

  lemma SightingCounts(s: State, events: seq<Event>, t: Tid, i: nat, j: nat)
    requires InScan(s, events, t) && SightsAt(s, events, t, i) && i < j <= |events|
    ensures |Accepted(At(s, events, i).pcs[t])| < |Accepted(At(s, events, j).pcs[t])|
  {
    ScanEvent(s, events, t, i);
    AcceptedGrows(s, events, t, i + 1, j);
  }

  lemma TakeoverMeansSeveral(s: State, events: seq<Event>, t: Tid, n: Nonce)
    requires InScan(s, events, t) && TakeoverWithin(s, events, t, n)
    ensures 1 < |Accepted(At(s, events, |events|).pcs[t])|
  {
    var i: nat, m: nat, j: nat :|
      i < m < j && SightsAt(s, events, t, i) && TakesOverAt(s, events, n, m) && SightsAt(s, events, t, j);
    SightingCounts(s, events, t, i, j);
    SightingCounts(s, events, t, j, |events|);
  }

  /** A scan settles with several claims if and only if a takeover of the generation
      fell between two of its sightings. */
  lemma SeveralFoundExactly(s: State, events: seq<Event>, t: Tid)
    requires Reachable(s) && InScan(s, events, t) && t in s.pcs && s.pcs[t].Scan? && s.pcs[t].found == []
    requires t in Run(s, events).pcs && Run(s, events).pcs[t].Settle?
    ensures 1 < |Run(s, events).pcs[t].found| <==> TakeoverWithin(s, events, t, s.pcs[t].gen)
  {
    ReachableInv(s);
    AtStart(s, events);
    assert events[..|events|] == events;
    var pc := At(s, events, |events|).pcs[t];
    assert |Accepted(pc)| == |pc.found|;
    if 1 < |pc.found| { SeveralMeanTakeover(s, events, t); }
    if TakeoverWithin(s, events, t, s.pcs[t].gen) { TakeoverMeansSeveral(s, events, t, s.pcs[t].gen); }
  }

  lemma RefusingScan(d: Dir, me: Pid, crashed: set<Pid>, pc: Pc, ch: Choice)
    requires Scans(pc) && StepOf(d, me, crashed, pc, ch).pc == Failed(MalformedClaims)
    ensures (pc.Visit? && pc.k >= 7 && HasOwnerSlot(d, pc.claim)) || pc.Settle?
  {
  }

  lemma RefusingOther(d: Dir, me: Pid, crashed: set<Pid>, pc: Pc, ch: Choice)
    requires !Scans(pc) && !Transfers(pc) && StepOf(d, me, crashed, pc, ch).pc == Failed(MalformedClaims)
    ensures pc == Failed(MalformedClaims)
  {
  }

  lemma RefusingCall(d: Dir, me: Pid, crashed: set<Pid>, pc: Pc, ch: Choice)
    requires StepOf(d, me, crashed, pc, ch).pc == Failed(MalformedClaims)
    ensures pc == Failed(MalformedClaims) || (pc.Visit? && pc.k >= 7 && HasOwnerSlot(d, pc.claim)) || pc.Settle?
  {
    if Transfers(pc) {
      TransferLeadsTo(d, me, crashed, pc, ch);
    } else if Scans(pc) {
      RefusingScan(d, me, crashed, pc, ch);
    } else {
      RefusingOther(d, me, crashed, pc, ch);
    }
  }

  lemma SettleCall(d: Dir, me: Pid, crashed: set<Pid>, pc: Pc, ch: Choice)
    requires pc.Settle?
    ensures StepOf(d, me, crashed, pc, ch).pc == Failed(MalformedClaims)
      <==> d.canonical == Link(pc.gen) && 1 < |pc.found|
  {
  }

  lemma LateVisitIsEmpty(s: State, t: Tid)
    requires Inv(s) && t in s.pcs && Live(s.world, t) && s.pcs[t].Visit? && s.pcs[t].k >= 7
    ensures !HasOwnerSlot(s.world.dir, s.pcs[t].claim)
  {
    assert Role(s.world, t, s.pcs[t]);
  }

  /** The refusal comes from the end of a scan alone, never from a visit. */
  lemma RefusesAtSettle(s: State, t: Tid, ch: Choice)
    requires Inv(s) && Enabled(s, Act(t, ch)) && s.pcs[t] != Failed(MalformedClaims)
    ensures Next(s, Act(t, ch)).pcs[t] == Failed(MalformedClaims)
      <==> s.pcs[t].Settle? && s.world.dir.canonical == Link(s.pcs[t].gen) && 1 < |s.pcs[t].found|
  {
    var d, me, crashed, pc := s.world.dir, s.world.pids[t], s.world.crashed, s.pcs[t];
    if pc.Settle? { SettleCall(d, me, crashed, pc, ch); }
    if StepOf(d, me, crashed, pc, ch).pc == Failed(MalformedClaims) {
      RefusingCall(d, me, crashed, pc, ch);
      if pc.Visit? && pc.k >= 7 { LateVisitIsEmpty(s, t); }
    }
  }

  lemma SettleFailsExactly(s: State, t: Tid, ch: Choice)
    requires Enabled(s, Act(t, ch)) && s.pcs[t].Settle?
    ensures Next(s, Act(t, ch)).pcs[t] == Failed(MalformedClaims)
      <==> s.world.dir.canonical == Link(s.pcs[t].gen) && 1 < |s.pcs[t].found|
  {
    SettleCall(s.world.dir, s.world.pids[t], s.world.crashed, s.pcs[t], ch);
  }

  lemma SameGeneration(s: State, events: seq<Event>, t: Tid)
    requires InScan(s, events, t) && t in s.pcs && s.pcs[t].Scan? && s.pcs[t].found == []
    ensures t in Run(s, events).pcs && Scanning(Run(s, events).pcs[t]) && Run(s, events).pcs[t].gen == s.pcs[t].gen
  {
    AtStart(s, events);
    assert events[..|events|] == events;
    StaysOrderly(s, events, t, |events|);
  }

  /** A scan fails with malformed claims if and only if a takeover of the generation
      fell between two of its sightings and the canonical name is still the
      generation's link at the last call. */
  lemma ScanFailsExactly(s: State, events: seq<Event>, t: Tid, ch: Choice)
    requires Reachable(s) && InScan(s, events, t) && t in s.pcs && s.pcs[t].Scan? && s.pcs[t].found == []
    requires t in Run(s, events).pcs && Run(s, events).pcs[t].Settle? && Enabled(Run(s, events), Act(t, ch))
    ensures var e := Run(s, events);
      (Next(e, Act(t, ch)).pcs[t] == Failed(MalformedClaims))
        <==> (e.world.dir.canonical == Link(s.pcs[t].gen) && TakeoverWithin(s, events, t, s.pcs[t].gen))
  {
    SameGeneration(s, events, t);
    SeveralFoundExactly(s, events, t);
    SettleFailsExactly(Run(s, events), t, ch);
  }

  /** A scan that reports several owner-bearing claims is out of date: at most
      one claim bears the generation, and it is whole. */
  lemma ScanRefusesOneClaim(s: State, t: Tid, ch: Choice, c: ClaimId, e: ClaimId)
    requires Reachable(s) && Enabled(s, Act(t, ch)) && !s.pcs[t].Failed?
    requires Next(s, Act(t, ch)).pcs[t] == Failed(MalformedClaims)
    requires s.pcs[t].Settle? || s.pcs[t].Visit?
    requires HasOwnerSlot(s.world.dir, c) && HasOwnerSlot(s.world.dir, e) && c.owner == e.owner == s.pcs[t].gen
    ensures s.pcs[t].Settle? && 1 < |s.pcs[t].found|
    ensures c == e && Bears(s.world.dir, c) && SlotRecorded(s.world.dir, c)
  {
    ReachableInv(s);
    assert Role(s.world, t, s.pcs[t]) && ClaimOk(s.world, c);
    assert Holds(s.world.dir, c) && Holds(s.world.dir, e);
  }

  // ----- a scan that no takeover overlaps -----

  /** No takeover happens during the run. */
  ghost predicate NoTakeover(s: State, events: seq<Event>) {
    forall i, n :: 0 <= i < |events| ==> !TakesOver(At(s, events, i), events[i], n)
  }

  /** No claim but `c` holds the owner directory of its generation, now or later
      unless somebody takes it over. */
  ghost predicate SoleHolder(w: World, c: ClaimId) {
    c in w.filled && forall e: ClaimId :: e.owner == c.owner && e != c ==> !HasOwnerSlot(w.dir, e)
  }

  lemma SoleHolderStays(s: State, ev: Event, c: ClaimId)
    requires Inv(s) && SoleHolder(s.world, c) && !TakesOver(s, ev, c.owner)
    ensures SoleHolder(Next(s, ev).world, c)
  {
    forall e: ClaimId | e.owner == c.owner && e != c ensures !HasOwnerSlot(Next(s, ev).world.dir, e) {
      if HasOwnerSlot(Next(s, ev).world.dir, e) { NextHolder(s, ev, c, e); }
    }
  }

  lemma SightedIsSole(w: World, c: ClaimId)
    requires DirOk(w) && HasOwnerSlot(w.dir, c)
    ensures SoleHolder(w, c)
  {
    HolderIsFilled(w, c);
    forall e: ClaimId | e.owner == c.owner && HasOwnerSlot(w.dir, e) ensures e == c { HolderIsUnique(w, c, e); }
  }

  /** What a scan knows as long as no takeover happens. */
  ghost predicate Alone(w: World, pc: Pc) {
    && pc != Failed(MalformedClaims)
    && (Scanning(pc) ==>
          && Orderly(pc) && |Accepted(pc)| <= 1
          && (|Accepted(pc)| == 1 ==> SoleHolder(w, Accepted(pc)[0])))
  }

  lemma ScanBegins(d: Dir, me: Pid, crashed: set<Pid>, pc: Pc, ch: Choice)
    requires !Transfers(pc) && !Scanning(pc) && Scanning(StepOf(d, me, crashed, pc, ch).pc)
    ensures var pc' := StepOf(d, me, crashed, pc, ch).pc; pc'.Scan? && pc'.found == []
  {
  }

  lemma SightedFirst(w: World, pc: Pc)
    requires Alone(w, pc) && pc.Visit? && pc.k == 4 && HasOwnerSlot(w.dir, pc.claim)
    ensures Accepted(pc) == []
  {
  }

  lemma AloneAfter(w: World, pc: Pc, sighted: bool, pc': Pc)
    requires DirOk(w) && Alone(w, pc) && Scanning(pc) && Orderly(pc')
    requires sighted ==> pc.Visit? && pc.k == 4 && HasOwnerSlot(w.dir, pc.claim)
    requires Accepted(pc') == Accepted(pc) + if sighted then [pc.claim] else []
    ensures Alone(w, pc')
  {
    if sighted {
      SightedFirst(w, pc);
      SightedIsSole(w, pc.claim);
    }
  }

  lemma AloneInScan(s: State, t: Tid, ch: Choice)
    requires Inv(s) && Enabled(s, Act(t, ch)) && Alone(s.world, s.pcs[t])
    requires Scanning(s.pcs[t]) && Scanning(EffectOf(s, t, ch).pc)
    ensures Alone(s.world, EffectOf(s, t, ch).pc)
  {
    ScanCall(s, t, ch);
    OrderlyCall(s, t, ch);
    AloneAfter(s.world, s.pcs[t], Sights(s, Act(t, ch), t), EffectOf(s, t, ch).pc);
  }

  lemma AloneCall(s: State, t: Tid, ch: Choice)
    requires Inv(s) && Enabled(s, Act(t, ch)) && Alone(s.world, s.pcs[t])
    ensures Alone(s.world, EffectOf(s, t, ch).pc)
  {
    RefusesAtSettle(s, t, ch);
    if Scanning(EffectOf(s, t, ch).pc) {
      if Scanning(s.pcs[t]) {
        AloneInScan(s, t, ch);
      } else {
        if Transfers(s.pcs[t]) { TransferLeadsTo(s.world.dir, s.world.pids[t], s.world.crashed, s.pcs[t], ch); }
        ScanBegins(s.world.dir, s.world.pids[t], s.world.crashed, s.pcs[t], ch);
      }
    }
  }

  lemma AloneLasts(s: State, ev: Event, pc: Pc)
    requires Inv(s) && Alone(s.world, pc) && forall n :: !TakesOver(s, ev, n)
    ensures Alone(Next(s, ev).world, pc)
  {
    if Scanning(pc) && |Accepted(pc)| == 1 { SoleHolderStays(s, ev, Accepted(pc)[0]); }
  }

  lemma AloneStep(s: State, ev: Event, t: Tid)
    requires Inv(s) && t in s.pcs && Alone(s.world, s.pcs[t]) && forall n :: !TakesOver(s, ev, n)
    ensures t in Next(s, ev).pcs && Alone(Next(s, ev).world, Next(s, ev).pcs[t])
  {
    var mine := Enabled(s, ev) && ev.Act? && ev.tid == t;
    if mine { AloneCall(s, t, ev.choice); }
    var pc := if mine then EffectOf(s, t, ev.choice).pc else s.pcs[t];
    assert Next(s, ev).pcs[t] == pc;
    AloneLasts(s, ev, pc);
  }

  lemma {:induction false} AloneRun(s: State, events: seq<Event>, t: Tid, j: nat)
    requires Inv(s) && t in s.pcs && Alone(s.world, s.pcs[t]) && NoTakeover(s, events) && j <= |events|
    ensures var e := At(s, events, j); t in e.pcs && Alone(e.world, e.pcs[t])
    decreases j
  {
    if j == 0 {
      AtStart(s, events);
    } else {
      AloneRun(s, events, t, j - 1);
      AtInv(s, events, j - 1);
      AtNext(s, events, j - 1);
      AloneStep(At(s, events, j - 1), events[j - 1], t);
    }
  }

  /** In a run without a takeover no scan fails, however many scans the thread makes
      and whatever else the others do. */
  lemma QuietScansNeverFail(s: State, events: seq<Event>, t: Tid)
    requires Reachable(s) && t in s.pcs && !Scanning(s.pcs[t]) && s.pcs[t] != Failed(MalformedClaims)
    requires NoTakeover(s, events)
    ensures var e := Run(s, events); t in e.pcs && e.pcs[t] != Failed(MalformedClaims)
  {
    ReachableInv(s);
    AloneRun(s, events, t, |events|);
    assert events[..|events|] == events;
  }
}
