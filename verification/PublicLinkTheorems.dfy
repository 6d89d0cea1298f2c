/** What every interleaving of withdrawals, publications and outside writes keeps. */
module PublicLinkTheorems {
  import opened Wrappers
  import opened PublicLinks

  // ----- the one fate of every entry -----

  datatype Place = AtPublic | AtHidden(name: Hidden) | AmongLost(index: nat)

  function Find(site: Site, lost: seq<Loss>, p: Place): Option<Entry> {
    match p
    case AtPublic => site.public
    case AtHidden(h) => if h in site.hidden then Some(site.hidden[h]) else None
    case AmongLost(i) => if i < |lost| then Some(lost[i].entry) else None
  }

  function At(s: State, p: Place): Option<Entry> { Find(s.site, s.lost, p) }

  /** Identities are unique, and every entry there ever was is in one place. */
  ghost predicate Fates(s: State) {
    && (forall e, f :: e in s.placed && f in s.placed && e.id == f.id ==> e == f)
    && (forall p :: At(s, p).Some? ==> At(s, p).value in s.placed)
    && (forall p, q :: At(s, p).Some? && At(s, p) == At(s, q) ==> p == q)
    && (forall e :: e in s.placed ==> exists p :: At(s, p) == Some(e))
  }

  // ----- what each worker may count on -----

  function Held(pc: Pc): Option<Hidden> {
    match pc
    case Judge(_, h) => Some(h)
    case Remove(_, h) => Some(h)
    case Restore(_, h) => Some(h)
    case Examine(_, h, _) => Some(h)
    case Drop(_, h, _) => Some(h)
    case Stage(h) => Some(h)
    case Publish(h) => Some(h)
    case Failed(Preserved(h)) => Some(h)
    case _ => None
  }

  ghost predicate Foreign(s: Site, t: Worker, h: Hidden) { h in s.hidden && !Owns(t, s.hidden[h]) }

  ghost predicate Role(s: Site, t: Worker, pc: Pc) {
    match pc
    case Claim(_, k) => k < ATTEMPTS
    case Judge(_, h) => h in s.hidden
    case Remove(_, h) => h in s.hidden && Owns(t, s.hidden[h])
    case Restore(_, h) => Foreign(s, t, h)
    case Examine(_, h, winner) => Foreign(s, t, h) && winner != s.hidden[h]
    case Drop(_, h, winner) => Foreign(s, t, h) && winner != s.hidden[h] && s.hidden[h].Link?
    case Stage(h) => h !in s.hidden
    case Publish(h) => h in s.hidden && Owns(t, s.hidden[h])
    case Failed(e) => e.NoQuarantine? || (e.Preserved? && e.at in s.hidden && s.hidden[e.at].File?)
    case _ => true
  }

  /** No two workers hold one hidden name, and held names have been drawn. */
  ghost predicate Names(s: State) {
    && (forall t, u :: t in s.pcs && u in s.pcs && Held(s.pcs[t]).Some? && Held(s.pcs[t]) == Held(s.pcs[u]) ==> t == u)
    && (forall t :: t in s.pcs && Held(s.pcs[t]).Some? ==> Held(s.pcs[t]).value.nonce in s.drawn)
  }

  // ----- what quarantines destroyed -----

  /** The call has not yet decided what to do with the name. */
  predicate Deciding(pc: Pc) {
    pc.Check? || pc.Claim? || pc.Judge? || pc.Remove? || pc.Restore? || pc.Examine? || pc.Drop?
  }

  predicate ByQuarantine(l: Loss) { l.reason.Owned? || l.reason.Superseded? }

  ghost predicate LossOk(s: State, l: Loss) {
    && (ByQuarantine(l) ==> l.worker in s.pcs && l.worker in s.calls && l.call <= s.calls[l.worker])
    && (ByQuarantine(l) && l.call == s.calls[l.worker] ==> !Deciding(s.pcs[l.worker]))
    && (l.reason.Owned? ==> Owns(l.worker, l.entry))
    && (l.reason.Superseded? ==> l.entry.Link? && !Owns(l.worker, l.entry) && l.reason.winner != l.entry)
  }

  /** Two entries removed by one quarantine call. */
  predicate SameCall(l: Loss, m: Loss) {
    ByQuarantine(l) && ByQuarantine(m) && l.worker == m.worker && l.call == m.call
  }

  ghost predicate Losses(s: State) {
    && (forall i :: 0 <= i < |s.lost| ==> LossOk(s, s.lost[i]))
    && (forall i, j :: 0 <= i < j < |s.lost| ==> !SameCall(s.lost[i], s.lost[j]))
  }

  ghost predicate Inv(s: State) {
    && s.pcs.Keys == s.calls.Keys
    && Fates(s) && Names(s) && Losses(s)
    && forall t :: t in s.pcs ==> Role(s.site, t, s.pcs[t])
  }

  // ----- one call -----

  /** The hidden name a call works on. */
  function Touched(pc: Pc, ch: Choice): Option<Hidden> {
    if pc.Claim? then Some(Quarantine(ch.nonce)) else if pc.Clear? then Some(Staging(ch.nonce)) else Held(pc)
  }

  lemma TouchesOne(s: Site, t: Worker, pc: Pc, ch: Choice, h: Hidden)
    requires Some(h) != Touched(pc, ch)
    ensures var s' := StepOf(s, t, pc, ch).site;
      (h in s'.hidden <==> h in s.hidden) && (h in s.hidden ==> s'.hidden[h] == s.hidden[h])
  {
  }

  lemma RoleAfter(s: Site, t: Worker, pc: Pc, ch: Choice)
    requires Role(s, t, pc)
    requires pc.Restore? && s.public.Some? ==> s.public.value != s.hidden[pc.held]
    ensures var e := StepOf(s, t, pc, ch); Role(e.site, t, e.pc)
    ensures var e := StepOf(s, t, pc, ch); Held(e.pc).Some? ==> Held(e.pc) == Touched(pc, ch) && !Resting(pc)
  {
  }

  lemma OthersKeepRoles(s: State, t: Worker, ch: Choice, u: Worker)
    requires Inv(s) && Enabled(s, Act(t, ch)) && u in s.pcs && u != t
    ensures Role(Next(s, Act(t, ch)).site, u, s.pcs[u])
  {
    if Held(s.pcs[u]).Some? {
      var h := Held(s.pcs[u]).value;
      assert h.nonce in s.drawn;
      TouchesOne(s.site, t, s.pcs[t], ch, h);
    }
  }

  lemma RolesKept(s: State, t: Worker, ch: Choice)
    requires Inv(s) && Enabled(s, Act(t, ch))
    ensures var s' := Next(s, Act(t, ch)); forall u :: u in s'.pcs ==> Role(s'.site, u, s'.pcs[u])
  {
    var pc := s.pcs[t];
    if pc.Restore? { assert At(s, AtHidden(pc.held)).Some? && At(s, AtPublic) != At(s, AtHidden(pc.held)); }
    RoleAfter(s.site, t, pc, ch);
    forall u | u in s.pcs && u != t ensures Role(Next(s, Act(t, ch)).site, u, s.pcs[u]) { OthersKeepRoles(s, t, ch, u); }
  }

  lemma NamesKept(s: State, t: Worker, ch: Choice)
    requires Inv(s) && Enabled(s, Act(t, ch))
    ensures Names(Next(s, Act(t, ch)))
  {
    var pc := s.pcs[t];
    if pc.Restore? { assert At(s, AtHidden(pc.held)).Some? && At(s, AtPublic) != At(s, AtHidden(pc.held)); }
    RoleAfter(s.site, t, pc, ch);
  }

  /** A removing call of a quarantine: whose entry, which, and that it ends the
      quarantine. */
  lemma RemovalEnds(s: Site, t: Worker, pc: Pc, ch: Choice)
    requires Role(s, t, pc) && StepOf(s, t, pc, ch).loss.Some?
    ensures var (e, why) := StepOf(s, t, pc, ch).loss.value;
      && (why.Owned? ==> Owns(t, e))
      && (why.Superseded? ==> e.Link? && !Owns(t, e) && why.winner != e)
      && (why.Owned? || why.Superseded? <==> Deciding(pc))
    ensures !Deciding(StepOf(s, t, pc, ch).pc) && !Resting(pc)
  {
  }

  lemma OldLossKept(s: State, t: Worker, ch: Choice, l: Loss)
    requires Inv(s) && Enabled(s, Act(t, ch)) && LossOk(s, l)
    ensures LossOk(Next(s, Act(t, ch)), l)
  {
    var s' := Next(s, Act(t, ch));
    assert Deciding(s'.pcs[t]) ==> Deciding(s.pcs[t]) || s'.calls[t] == s.calls[t] + 1;
  }

  lemma LossesKept(s: State, t: Worker, ch: Choice)
    requires Inv(s) && Enabled(s, Act(t, ch))
    ensures Losses(Next(s, Act(t, ch)))
  {
    var s' := Next(s, Act(t, ch));
    assert Role(s.site, t, s.pcs[t]);
    forall i | 0 <= i < |s.lost| ensures LossOk(s', s'.lost[i]) { OldLossKept(s, t, ch, s.lost[i]); }
    if StepOf(s.site, t, s.pcs[t], ch).loss.Some? {
      RemovalEnds(s.site, t, s.pcs[t], ch);
      var n := |s.lost|;
      assert s'.lost[..n] == s.lost && s'.lost[n].worker == t && s'.lost[n].call == s.calls[t];
      forall i | 0 <= i < n ensures !SameCall(s.lost[i], s'.lost[n]) { assert LossOk(s, s.lost[i]); }
    }
  }

  // ----- fates -----

  /** Where an entry goes in one call when `n` entries are lost so far. */
  function Moved(s: Site, n: nat, pc: Pc, ch: Choice, p: Place): Place {
    match pc
    case Claim(_, _) => if p.AtPublic? && Quarantine(ch.nonce) !in s.hidden then AtHidden(Quarantine(ch.nonce)) else p
    case Remove(_, h) => if p == AtHidden(h) then AmongLost(n) else p
    case Drop(_, h, _) => if p == AtHidden(h) then AmongLost(n) else p
    case Restore(_, h) => if p == AtHidden(h) && s.public.None? then AtPublic else p
    case Clear => if p == AtHidden(Staging(ch.nonce)) then AmongLost(n) else p
    case Publish(h) => if p == AtHidden(h) then AtPublic else if p.AtPublic? then AmongLost(n) else p
    case _ => p
  }

  /** Where the entry at a place was before the call. */
  function Origin(s: Site, n: nat, pc: Pc, ch: Choice, q: Place): Place {
    match pc
    case Claim(_, _) =>
      if q == AtHidden(Quarantine(ch.nonce)) && Quarantine(ch.nonce) !in s.hidden then AtPublic else q
    case Remove(_, h) => if q == AmongLost(n) then AtHidden(h) else q
    case Drop(_, h, _) => if q == AmongLost(n) then AtHidden(h) else q
    case Restore(_, h) => if q.AtPublic? && s.public.None? then AtHidden(h) else q
    case Clear => if q == AmongLost(n) then AtHidden(Staging(ch.nonce)) else q
    case Publish(h) => if q.AtPublic? then AtHidden(h) else if q == AmongLost(n) then AtPublic else q
    case _ => q
  }

  function LostAfter(lost: seq<Loss>, t: Worker, call: nat, e: Effect): seq<Loss> {
    if e.loss.None? then lost else lost + [Loss(e.loss.value.0, t, call, e.loss.value.1)]
  }

  /** Every entry moves as described. */
  lemma EntriesMove(s: Site, lost: seq<Loss>, t: Worker, call: nat, pc: Pc, ch: Choice, p: Place)
    requires Role(s, t, pc) && Find(s, lost, p).Some?
    ensures var e := StepOf(s, t, pc, ch);
      Find(e.site, LostAfter(lost, t, call, e), Moved(s, |lost|, pc, ch, p)) == Find(s, lost, p)
  {
  }

  /** An entry that moved came from its origin; any other was made by the call. */
  lemma EntriesComeFrom(s: Site, lost: seq<Loss>, t: Worker, call: nat, pc: Pc, ch: Choice, q: Place)
    requires Role(s, t, pc)
    requires var e := StepOf(s, t, pc, ch); Find(e.site, LostAfter(lost, t, call, e), q).Some?
    ensures var e, p := StepOf(s, t, pc, ch), Origin(s, |lost|, pc, ch, q);
      var x := Find(e.site, LostAfter(lost, t, call, e), q);
      (Find(s, lost, p) == x && Moved(s, |lost|, pc, ch, p) == q) || (x.value in e.made && q == MadeAt(pc))
  {
  }

  function MadeAt(pc: Pc): Place { if pc.Stage? then AtHidden(pc.held) else AtPublic }

  lemma MadeIsPlaced(s: Site, lost: seq<Loss>, t: Worker, call: nat, pc: Pc, ch: Choice)
    requires Role(s, t, pc)
    ensures var e := StepOf(s, t, pc, ch); forall x :: x in e.made ==>
      x == Link(t, ch.id) && Find(e.site, LostAfter(lost, t, call, e), MadeAt(pc)) == Some(x)
  {
  }

  lemma PlacesKept(s: State, t: Worker, ch: Choice, q: Place)
    requires Inv(s) && Enabled(s, Act(t, ch)) && At(Next(s, Act(t, ch)), q).Some?
    ensures var s', pc := Next(s, Act(t, ch)), s.pcs[t];
      var x, p := At(s', q).value, Origin(s.site, |s.lost|, pc, ch, q);
      if x in s.placed then At(s, p) == Some(x) && Moved(s.site, |s.lost|, pc, ch, p) == q
      else x in s'.placed && q == MadeAt(pc)
  {
    var pc := s.pcs[t];
    assert Role(s.site, t, pc);
    MadeIsPlaced(s.site, s.lost, t, s.calls[t], pc, ch);
    EntriesComeFrom(s.site, s.lost, t, s.calls[t], pc, ch, q);
    var p := Origin(s.site, |s.lost|, pc, ch, q);
    assert At(s, p) == Find(s.site, s.lost, p);
  }

  lemma EveryEntryPlaced(s: State, t: Worker, ch: Choice, x: Entry)
    requires Inv(s) && Enabled(s, Act(t, ch)) && x in Next(s, Act(t, ch)).placed
    ensures exists p :: At(Next(s, Act(t, ch)), p) == Some(x)
  {
    var s', pc := Next(s, Act(t, ch)), s.pcs[t];
    assert Role(s.site, t, pc);
    if x in s.placed {
      var p :| At(s, p) == Some(x);
      EntriesMove(s.site, s.lost, t, s.calls[t], pc, ch, p);
      assert At(s', Moved(s.site, |s.lost|, pc, ch, p)) == Some(x);
    } else {
      MadeIsPlaced(s.site, s.lost, t, s.calls[t], pc, ch);
      assert At(s', MadeAt(pc)) == Some(x);
    }
  }

  lemma FatesKept(s: State, t: Worker, ch: Choice)
    requires Inv(s) && Enabled(s, Act(t, ch))
    ensures Fates(Next(s, Act(t, ch)))
  {
    var s' := Next(s, Act(t, ch));
    assert Role(s.site, t, s.pcs[t]);
    MadeIsPlaced(s.site, s.lost, t, s.calls[t], s.pcs[t], ch);
    forall q | At(s', q).Some? ensures At(s', q).value in s'.placed { PlacesKept(s, t, ch, q); }
    forall q, r | At(s', q).Some? && At(s', q) == At(s', r) ensures q == r {
      PlacesKept(s, t, ch, q);
      PlacesKept(s, t, ch, r);
    }
    forall x | x in s'.placed ensures exists p :: At(s', p) == Some(x) { EveryEntryPlaced(s, t, ch, x); }
  }

  // ----- outside writes and whole runs -----

  lemma WriteFates(s: State, e: Option<Entry>)
    requires Inv(s) && Enabled(s, Write(e))
    ensures Fates(Next(s, Write(e)))
  {
    var s', n := Next(s, Write(e)), |s.lost|;
    forall q | At(s', q).Some?
      ensures At(s', q).value in s'.placed
      ensures if e == At(s', q) then q.AtPublic? else At(s, if q == AmongLost(n) then AtPublic else q) == At(s', q)
    {
      assert At(s, q) == Find(s.site, s.lost, q) && At(s, AtPublic) == s.site.public;
    }
    forall x | x in s'.placed ensures exists p :: At(s', p) == Some(x) {
      if Some(x) == e {
        assert At(s', AtPublic) == Some(x);
      } else {
        var p :| At(s, p) == Some(x);
        assert At(s', if p.AtPublic? then AmongLost(n) else p) == Some(x);
      }
    }
  }

  lemma WriteLosses(s: State, e: Option<Entry>)
    requires Inv(s) && Enabled(s, Write(e))
    ensures Losses(Next(s, Write(e)))
  {
    var s' := Next(s, Write(e));
    forall i | 0 <= i < |s.lost| ensures LossOk(s', s'.lost[i]) { assert LossOk(s, s.lost[i]); }
  }

  lemma NextKeeps(s: State, ev: Event)
    requires Inv(s)
    ensures Inv(Next(s, ev))
  {
    if Enabled(s, ev) {
      match ev
      case Act(t, ch) =>
        RolesKept(s, t, ch);
        NamesKept(s, t, ch);
        LossesKept(s, t, ch);
        FatesKept(s, t, ch);
      case Write(e) =>
        WriteFates(s, e);
        WriteLosses(s, e);
    }
  }

  lemma StartInv(site: Site, workers: set<Worker>)
    requires Leftover(site)
    ensures Inv(Start(site, workers))
  {
    var s := Start(site, workers);
    forall x | x in s.placed ensures exists p :: At(s, p) == Some(x) {
      if site.public == Some(x) {
        assert At(s, AtPublic) == Some(x);
      } else {
        var h :| h in site.hidden && site.hidden[h] == x;
        assert At(s, AtHidden(h)) == Some(x);
      }
    }
  }

  lemma {:induction false} RunKeeps(s: State, events: seq<Event>)
    requires Inv(s)
    ensures Inv(Run(s, events))
    decreases |events|
  {
    if events != [] {
      RunKeeps(s, events[..|events| - 1]);
      NextKeeps(Run(s, events[..|events| - 1]), events[|events| - 1]);
    }
  }
}
