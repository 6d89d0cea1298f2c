/** What withdrawals and publications of one shared public name promise over
    whole runs: to other writers, and to each other. */
module PublicLinkRuns {
  import opened Wrappers
  import opened PublicLinks
  import opened PublicLinkTheorems

  ghost predicate Reachable(s: State) {
    exists site, workers, events :: Leftover(site) && s == Run(Start(site, workers), events)
  }

  lemma ReachableInv(s: State)
    requires Reachable(s)
    ensures Inv(s)
  {
    var site, workers, events :| Leftover(site) && s == Run(Start(site, workers), events);
    StartInv(site, workers);
    RunKeeps(Start(site, workers), events);
  }

  // ----- arbitrary writers -----

  /** Every entry ever seen is in exactly one place: on the public name, under one
      hidden name, or lost once.  A quarantine is never what a regular file is
      lost to. */
  lemma OneFate(s: State, e: Entry) returns (p: Place)
    requires Reachable(s) && e in s.placed
    ensures At(s, p) == Some(e) && forall q :: At(s, q) == Some(e) ==> q == p
    ensures e.File? && p.AmongLost? ==> !ByQuarantine(s.lost[p.index])
  {
    ReachableInv(s);
    p :| At(s, p) == Some(e);
    if p.AmongLost? { assert LossOk(s, s.lost[p.index]); }
  }

  /** A worker fails in two ways only: all sixteen quarantine names were taken by
      leftovers, or the regular file it displaced could not be put back and is
      kept under the name the error gives. */
  lemma OnlyTwoFailures(s: State, t: Worker)
    requires Reachable(s) && t in s.pcs && s.pcs[t].Failed?
    ensures var e := s.pcs[t].error;
      e.NoQuarantine? || (e.Preserved? && e.at in s.site.hidden && s.site.hidden[e.at].File?)
  {
    ReachableInv(s);
    assert Role(s.site, t, s.pcs[t]);
  }

  /** The one call that destroys a regular file on the public name: the renaming
      of a staged link over whatever is there by then. */
  lemma OnlyPublishLosesPublicFiles(s: State, t: Worker, ch: Choice)
    requires Reachable(s) && Enabled(s, Act(t, ch))
    requires s.site.public.Some? && s.site.public.value.File?
    ensures var s', f := Next(s, Act(t, ch)), s.site.public.value;
      (exists i :: At(s', AmongLost(i)) == Some(f)) <==> s.pcs[t].Publish?
  {
    ReachableInv(s);
    NextKeeps(s, Act(t, ch));
    var s', f := Next(s, Act(t, ch)), s.site.public.value;
    assert Role(s.site, t, s.pcs[t]) && At(s, AtPublic) == Some(f);
    EntriesMove(s.site, s.lost, t, s.calls[t], s.pcs[t], ch, AtPublic);
    var p := Moved(s.site, |s.lost|, s.pcs[t], ch, AtPublic);
    assert At(s', p) == Some(f);
  }

  lemma LateFile(s: State, t: Worker, f: Entry, ch: Choice)
    requires Inv(s) && t in s.pcs && s.pcs[t].Publish?
    requires Enabled(s, Write(Some(f))) && Enabled(Next(s, Write(Some(f))), Act(t, ch))
    ensures var s' := Next(Next(s, Write(Some(f))), Act(t, ch));
      && s'.pcs[t] == Done(true) && |s'.lost| > 0
      && s'.lost[|s'.lost| - 1] == Loss(f, t, s.calls[t], Overwritten)
  {
    assert Role(s.site, t, s.pcs[t]);
  }

  /** The documented loss is real: a regular file that takes the name of a link
      after a publication has staged its own is destroyed, and the publication
      reports success. */
  lemma PublishLosesALateFile(s: State, t: Worker, f: Entry, ch: Choice)
    requires Reachable(s) && t in s.pcs && s.pcs[t].Publish? && f.File?
    requires Enabled(s, Write(Some(f))) && Enabled(Next(s, Write(Some(f))), Act(t, ch))
    ensures var s' := Next(Next(s, Write(Some(f))), Act(t, ch));
      s'.pcs[t] == Done(true) && exists i :: 0 <= i < |s'.lost| && s'.lost[i] == Loss(f, t, s.calls[t], Overwritten)
  {
    ReachableInv(s);
    LateFile(s, t, f, ch);
  }

  function Thrice(s: State, ev: Event): State { Next(Next(Next(s, ev), ev), ev) }

  lemma RestoreRefused(s: State, b: Worker, ch: Choice)
    requires Enabled(s, Act(b, ch)) && s.pcs[b].Restore? && s.site.public.Some? && s.pcs[b].held in s.site.hidden
    ensures Next(s, Act(b, ch))
      == s.(pcs := s.pcs[b := Examine(s.pcs[b].job, s.pcs[b].held, s.site.public.value)])
  {
  }

  lemma LinkExamined(s: State, b: Worker, ch: Choice)
    requires Enabled(s, Act(b, ch)) && s.pcs[b].Examine? && s.pcs[b].held in s.site.hidden
    requires s.site.hidden[s.pcs[b].held].Link?
    ensures Next(s, Act(b, ch)) == s.(pcs := s.pcs[b := Drop(s.pcs[b].job, s.pcs[b].held, s.pcs[b].winner)])
  {
  }

  lemma RestoreLoses(s: State, b: Worker, ch: Choice)
    requires Enabled(s, Act(b, ch)) && s.pcs[b].Restore? && s.site.public.Some?
    requires s.pcs[b].held in s.site.hidden && s.site.hidden[s.pcs[b].held].Link?
    ensures var y, s' := s.site.hidden[s.pcs[b].held], Thrice(s, Act(b, ch));
      && s'.site.public == s.site.public
      && s'.lost == s.lost + [Loss(y, b, s.calls[b], Superseded(s.site.public.value))]
  {
    RestoreRefused(s, b, ch);
    var s1 := Next(s, Act(b, ch));
    LinkExamined(s1, b, ch);
  }

  /** A displaced link counts as superseded as soon as the name is taken again: of
      two workers that both displaced a link, the first to put its own back has the
      other's destroyed. */
  lemma FirstRestoreWins(s: State, a: Worker, b: Worker, ch: Choice)
    requires Reachable(s) && a != b && s.site.public.None?
    requires Enabled(s, Act(a, ch)) && s.pcs[a].Restore? && Enabled(s, Act(b, ch)) && s.pcs[b].Restore?
    ensures s.pcs[a].held in s.site.hidden && s.pcs[b].held in s.site.hidden
    ensures var x, y := s.site.hidden[s.pcs[a].held], s.site.hidden[s.pcs[b].held];
      var s' := Thrice(Next(s, Act(a, ch)), Act(b, ch));
      y.Link? ==>
        && s'.site.public == Some(x)
        && s'.lost == s.lost + [Loss(y, b, s.calls[b], Superseded(x))]
  {
    ReachableInv(s);
    assert Role(s.site, a, s.pcs[a]) && Role(s.site, b, s.pcs[b]);
    NextKeeps(s, Act(a, ch));
    var s1 := Next(s, Act(a, ch));
    assert Held(s.pcs[a]) != Held(s.pcs[b]);
    if s1.site.hidden[s.pcs[b].held].Link? { RestoreLoses(s1, b, ch); }
  }

  /** The calls a worker still makes before it rests, at most. */
  function CallsLeft(pc: Pc): nat {
    match pc
    case Check(_) => 28
    case Claim(_, k) => if k < ATTEMPTS then 27 - k else 0
    case Judge(_, _) => 11
    case Remove(_, _) => 10
    case Restore(_, _) => 9
    case Examine(_, _, _) => 8
    case Drop(_, _, _) => 7
    case Look => 6
    case Create => 5
    case LookAgain => 4
    case Clear => 3
    case Stage(_) => 2
    case Publish(_) => 1
    case _ => 0
  }

  lemma StepDescends(s: Site, t: Worker, pc: Pc, ch: Choice)
    requires Role(s, t, pc) && !Resting(pc)
    ensures var pc' := StepOf(s, t, pc, ch).pc; CallsLeft(pc') < CallsLeft(pc) && (CallsLeft(pc') == 0 ==> Resting(pc'))
  {
  }

  /** Every call of a worker brings it closer to rest, whatever the others do. */
  lemma WorkersAreWaitFree(s: State, t: Worker, ch: Choice)
    requires Reachable(s) && Enabled(s, Act(t, ch)) && !Resting(s.pcs[t])
    ensures var pc' := Next(s, Act(t, ch)).pcs[t];
      CallsLeft(pc') < CallsLeft(s.pcs[t]) && (CallsLeft(pc') == 0 ==> Resting(pc'))
  {
    ReachableInv(s);
    StepDescends(s.site, t, s.pcs[t], ch);
  }

  // ----- dependencies that share the name -----

  predicate JobOf(pc: Pc, job: Job) {
    match pc
    case Check(j) => j == job
    case Claim(j, _) => j == job
    case Judge(j, _) => j == job
    case Remove(j, _) => j == job
    case Restore(j, _) => j == job
    case Examine(j, _, _) => j == job
    case Drop(j, _, _) => j == job
    case _ => true
  }

  ghost predicate NoFiles(site: Site) {
    && (site.public.Some? ==> site.public.value.Link?)
    && forall h :: h in site.hidden ==> site.hidden[h].Link?
  }

  ghost predicate AllDone(s: State) { forall t :: t in s.pcs ==> s.pcs[t].Done? }

  /** Nothing hidden that nobody holds. */
  ghost predicate Accounted(s: State) {
    forall h :: h in s.site.hidden ==> exists t :: t in s.pcs && Held(s.pcs[t]) == Some(h)
  }

  /** A relink that has not failed and did not decline. */
  predicate Relinking(pc: Pc) { !pc.Failed? && JobOf(pc, Relink) && pc != Done(false) }

  ghost predicate Sharing(s: State) {
    && Inv(s) && NoFiles(s.site) && Accounted(s)
    && (forall t :: t in s.pcs ==> Relinking(s.pcs[t]))
    && (AllDone(s) ==> s.site.public.Some? && s.site.public.value.root in s.pcs)
  }

  /** A relink by one of the sharing dependencies. */
  predicate Relinks(ev: Event) { ev.Act? && ev.choice.job.Relink? }

  lemma AccountedKept(s: State, t: Worker, ch: Choice)
    requires Accounted(s) && Enabled(s, Act(t, ch)) && Role(s.site, t, s.pcs[t]) && !s.pcs[t].Failed?
    requires Quarantine(ch.nonce) !in s.site.hidden && Staging(ch.nonce) !in s.site.hidden
    ensures Accounted(Next(s, Act(t, ch)))
  {
    var s', pc := Next(s, Act(t, ch)), s.pcs[t];
    forall h | h in s'.site.hidden
      ensures exists u :: u in s'.pcs && Held(s'.pcs[u]) == Some(h)
    {
      if Some(h) == Touched(pc, ch) {
        assert Held(s'.pcs[t]) == Some(h);
      } else {
        TouchesOne(s.site, t, pc, ch, h);
        var u :| u in s.pcs && Held(s.pcs[u]) == Some(h);
        assert u != t && s'.pcs[u] == s.pcs[u];
      }
    }
  }

  /** A drawn name meets no hidden entry. */
  lemma DrawnIsFree(s: State, ch: Choice, h: Hidden)
    requires Sharing(s) && ch.nonce !in s.drawn && h.nonce == ch.nonce
    ensures h !in s.site.hidden
  {
    forall g | g in s.site.hidden ensures g.nonce in s.drawn {
      var u :| u in s.pcs && Held(s.pcs[u]) == Some(g);
    }
  }

  lemma SharingStep(s: Site, t: Worker, pc: Pc, ch: Choice)
    requires Role(s, t, pc) && NoFiles(s) && ch.job.Relink?
    requires Quarantine(ch.nonce) !in s.hidden && Staging(ch.nonce) !in s.hidden
    requires Relinking(pc)
    ensures var e := StepOf(s, t, pc, ch);
      && NoFiles(e.site) && Relinking(e.pc)
      && (e.pc.Done? ==> e.site.public.Some? && e.site.public.value.root == t)
  {
  }

  lemma RelinkersKept(s: State, t: Worker, ch: Choice)
    requires Sharing(s) && Enabled(s, Act(t, ch)) && ch.job.Relink?
    ensures var s' := Next(s, Act(t, ch));
      && NoFiles(s'.site) && Accounted(s') && Relinking(s'.pcs[t])
      && (s'.pcs[t].Done? ==> s'.site.public.Some? && s'.site.public.value.root == t)
  {
    assert Role(s.site, t, s.pcs[t]);
    DrawnIsFree(s, ch, Quarantine(ch.nonce));
    DrawnIsFree(s, ch, Staging(ch.nonce));
    SharingStep(s.site, t, s.pcs[t], ch);
    AccountedKept(s, t, ch);
  }

  lemma SharingKept(s: State, ev: Event)
    requires Sharing(s) && Relinks(ev)
    ensures Sharing(Next(s, ev))
  {
    if Enabled(s, ev) {
      NextKeeps(s, ev);
      RelinkersKept(s, ev.worker, ev.choice);
      var s' := Next(s, ev);
      assert ev.worker in s'.pcs && forall t :: t in s'.pcs && t != ev.worker ==> s'.pcs[t] == s.pcs[t];
    }
  }

  lemma {:induction false} SharingRun(s: State, events: seq<Event>)
    requires Sharing(s) && forall i :: 0 <= i < |events| ==> Relinks(events[i])
    ensures Sharing(Run(s, events)) && Run(s, events).pcs.Keys == s.pcs.Keys
    decreases |events|
  {
    if events != [] {
      SharingRun(s, events[..|events| - 1]);
      SharingKept(Run(s, events[..|events| - 1]), events[|events| - 1]);
    }
  }

  lemma SharingStart(public: Option<Entry>, workers: set<Worker>)
    requires workers != {} && (public.Some? ==> public.value.Link?)
    ensures Sharing(Start(Site(public, map[]), workers))
  {
    var s := Start(Site(public, map[]), workers);
    StartInv(Site(public, map[]), workers);
    var t :| t in workers;
    assert s.pcs[t].Idle?;
  }

  lemma SharingEnds(s: State)
    requires Sharing(s) && AllDone(s)
    ensures s.site.hidden == map[]
  {
    assert forall t :: t in s.pcs ==> Held(s.pcs[t]).None?;
    assert s.site.hidden.Keys == {};
  }

  /** Any number of dependencies relink one name at once, each as often as it
      likes, with no regular file there: no caller fails or declines, and whenever
      all are done the name leads into one of their roots and nothing hidden is
      left. */
  lemma SharedName(public: Option<Entry>, workers: set<Worker>, events: seq<Event>)
    requires public.Some? ==> public.value.Link?
    requires workers != {} && forall i :: 0 <= i < |events| ==> Relinks(events[i])
    ensures var s := Run(Start(Site(public, map[]), workers), events);
      && s.pcs.Keys == workers
      && (forall t :: t in s.pcs ==> Relinking(s.pcs[t]))
      && (AllDone(s) ==>
            && s.site.public.Some? && s.site.public.value.Link? && s.site.public.value.root in workers
            && s.site.hidden == map[])
  {
    var s0 := Start(Site(public, map[]), workers);
    SharingStart(public, workers);
    assert s0.pcs.Keys == workers;
    SharingRun(s0, events);
    var s := Run(s0, events);
    if AllDone(s) { SharingEnds(s); }
  }
}
