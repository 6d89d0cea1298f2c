/** What withdrawals and publications do to the entry they find: regular files that
    are there when a worker looks stay, and a job that nobody disturbs has exactly
    the effect it is for. */
module PublicLinkFiles {
  import opened Wrappers
  import opened PublicLinks
  import opened PublicLinkTheorems
  import opened PublicLinkRuns

  // ----- a regular file that is there -----

  /** The worker is at rest, or has not yet looked at the name to publish. */
  predicate BeforeLook(pc: Pc) { Resting(pc) || pc.Check? || pc.Look? }

  lemma FileCall(s: State, t: Worker, ch: Choice)
    requires Enabled(s, Act(t, ch)) && BeforeLook(s.pcs[t]) && s.site.public.Some? && s.site.public.value.File?
    ensures var s', pc := Next(s, Act(t, ch)), s.pcs[t];
      && s'.site == s.site && s'.lost == s.lost
      && s'.calls == s.calls[t := s.calls[t] + if Resting(pc) then 1 else 0]
      && s'.pcs == s.pcs[t := if Resting(pc) then Check(ch.job) else if pc == Check(Relink) then Look else Done(false)]
  {
  }

  /** What a worker that had not looked is at later, with a file on the name. */
  predicate Declined(s: State, e: State, t: Worker)
    requires t in s.pcs && t in s.calls && t in e.pcs && t in e.calls
  {
    || (e.pcs[t] == s.pcs[t] && e.calls[t] == s.calls[t])
    || e.pcs[t].Check? || e.pcs[t].Look? || e.pcs[t] == Done(false)
  }

  lemma {:induction false} FileRun(s: State, events: seq<Event>)
    requires s.pcs.Keys == s.calls.Keys && s.site.public.Some? && s.site.public.value.File?
    requires forall t :: t in s.pcs ==> BeforeLook(s.pcs[t])
    requires forall ev :: ev in events ==> ev.Act?
    ensures var e := Run(s, events);
      && e.site == s.site && e.lost == s.lost && e.pcs.Keys == s.pcs.Keys == e.calls.Keys
      && forall t :: t in e.pcs ==> Declined(s, e, t)
    decreases |events|
  {
    if events != [] {
      var front, last := events[..|events| - 1], events[|events| - 1];
      FileRun(s, front);
      assert last in events;
      if Enabled(Run(s, front), last) { FileCall(Run(s, front), last.worker, last.choice); }
    }
  }

  lemma PublicIsNotLost(s: State, i: nat)
    requires Inv(s) && s.site.public.Some? && i < |s.lost|
    ensures s.lost[i].entry != s.site.public.value
  {
    assert At(s, AmongLost(i)) == Some(s.lost[i].entry) && At(s, AtPublic) == s.site.public;
  }

  /** Whatever any number of workers do that had not yet looked, a regular file on
      the public name stays there and is not lost, nothing on disk changes, and
      whoever ends a relink reports that it linked nothing. */
  lemma FileStays(s: State, events: seq<Event>)
    requires Reachable(s) && s.site.public.Some? && s.site.public.value.File?
    requires forall t :: t in s.pcs ==> BeforeLook(s.pcs[t])
    requires forall ev :: ev in events ==> ev.Act?
    ensures var e := Run(s, events);
      && e.site == s.site && e.lost == s.lost && e.pcs.Keys == s.pcs.Keys == s.calls.Keys == e.calls.Keys
      && (forall i :: 0 <= i < |e.lost| ==> e.lost[i].entry != s.site.public.value)
      && forall t :: t in e.pcs ==> Declined(s, e, t)
  {
    ReachableInv(s);
    FileRun(s, events);
    forall i | 0 <= i < |s.lost| ensures s.lost[i].entry != s.site.public.value { PublicIsNotLost(s, i); }
  }

  // ----- a regular file that comes later -----

  predicate Publishing(pc: Pc) { pc.Create? || pc.LookAgain? || pc.Clear? || pc.Stage? || pc.Publish? }

  /** Event `k` is a call by which the worker looks at the name to publish. */
  ghost predicate LooksAt(s0: State, events: seq<Event>, k: nat, t: Worker) {
    && k < |events| && events[k].Act? && events[k].worker == t
    && var s := Run(s0, events[..k]);
       Enabled(s, events[k]) && (s.pcs[t].Look? || s.pcs[t].LookAgain?)
  }

  predicate NoFile(site: Site) { site.public.Some? ==> site.public.value.Link? }

  lemma PublishingComesFromALook(s: Site, t: Worker, pc: Pc, ch: Choice)
    requires Publishing(StepOf(s, t, pc, ch).pc)
    ensures pc.Look? || Publishing(pc)
    ensures pc.Look? || pc.LookAgain? ==> NoFile(s)
  {
  }

  /** Whoever is about to publish has looked, and its last look found no regular
      file. */
  lemma {:induction false} PublisherLooked(s0: State, events: seq<Event>, t: Worker) returns (k: nat)
    requires t in s0.pcs && !Publishing(s0.pcs[t])
    requires t in Run(s0, events).pcs && Publishing(Run(s0, events).pcs[t])
    ensures LooksAt(s0, events, k, t) && NoFile(Run(s0, events[..k]).site)
    ensures forall j: nat :: k < j ==> !LooksAt(s0, events, j, t)
    decreases |events|
  {
    var n := |events| - 1;
    var front, last := events[..n], events[n];
    var s := Run(s0, front);
    if Enabled(s, last) && last.Act? && last.worker == t { PublishingComesFromALook(s.site, t, s.pcs[t], last.choice); }
    if LooksAt(s0, events, n, t) {
      k := n;
    } else {
      k := PublisherLooked(s0, front, t);
      assert forall j :: 0 <= j <= n ==> front[..j] == events[..j];
      forall j: nat | k < j ensures !LooksAt(s0, events, j, t) {
        if j < n { assert !LooksAt(s0, front, j, t); }
      }
    }
  }

  /** A regular file is lost to a publication only if it was not on the name when
      that worker last looked. */
  lemma OnlyLateFilesAreLost(site: Site, workers: set<Worker>, events: seq<Event>, t: Worker, ch: Choice) returns (k: nat)
    requires Leftover(site) && Enabled(Run(Start(site, workers), events), Act(t, ch))
    requires var s := Run(Start(site, workers), events);
      && s.site.public.Some? && s.site.public.value.File?
      && exists i :: At(Next(s, Act(t, ch)), AmongLost(i)) == s.site.public
    ensures LooksAt(Start(site, workers), events, k, t)
    ensures forall j: nat :: k < j ==> !LooksAt(Start(site, workers), events, j, t)
    ensures NoFile(Run(Start(site, workers), events[..k]).site)
  {
    var s0 := Start(site, workers);
    var s := Run(s0, events);
    OnlyPublishLosesPublicFiles(s, t, ch);
    WorkersStay(s0, events, t);
    k := PublisherLooked(s0, events, t);
  }

  lemma {:induction false} WorkersStay(s: State, events: seq<Event>, t: Worker)
    ensures t in Run(s, events).pcs ==> t in s.pcs
    decreases |events|
  {
    if events != [] { WorkersStay(s, events[..|events| - 1], t); }
  }

  // ----- a job that nobody disturbs -----

  /** The site without this worker's link on the public name. */
  function Withdrawn(was: Site, t: Worker): Site {
    if was.public.Some? && Owns(t, was.public.value) then was.(public := None) else was
  }

  /** Where a withdrawal stands that began at `was`. */
  ghost predicate Withdrawing(was: Site, s: Site, t: Worker, pc: Pc, job: Job) {
    match pc
    case Check(j) => j == job && s == was
    case Claim(j, _) => j == job && s == was && was != Withdrawn(was, t)
    case Judge(j, h) =>
      j == job && h !in was.hidden && was != Withdrawn(was, t) && s == Site(None, was.hidden[h := was.public.value])
    case Remove(j, h) =>
      j == job && h !in was.hidden && was != Withdrawn(was, t) && s == Site(None, was.hidden[h := was.public.value])
    case Failed(e) => e.NoQuarantine? && s == was && was != Withdrawn(was, t)
    case _ => false
  }

  /** Where a publication stands: leftovers of its staging name may be gone. */
  ghost predicate Linking(was: Site, s: Site, t: Worker, pc: Pc) {
    var w := Withdrawn(was, t);
    match pc
    case Look => s == w
    case Create => s == w && w.public.None?
    case Clear => s == w && w.public.Some? && w.public.value.Link?
    case Stage(h) => h.Staging? && s == Site(w.public, w.hidden - {h}) && w.public.Some? && w.public.value.Link?
    case Publish(h) =>
      && w.public.Some? && w.public.value.Link? && h.Staging?
      && h in s.hidden && Owns(t, s.hidden[h]) && s == Site(w.public, w.hidden[h := s.hidden[h]])
    case Done(linked) =>
      if linked then
        && NoFile(w) && s.public.Some? && Owns(t, s.public.value)
        && (s.hidden == w.hidden || exists n :: s.hidden == w.hidden - {Staging(n)})
      else s == w && !NoFile(w)
    case _ => false
  }

  ghost predicate Undisturbed(was: Site, s: Site, t: Worker, pc: Pc, job: Job) {
    || Withdrawing(was, s, t, pc, job)
    || (if job.Relink? then Linking(was, s, t, pc) else pc == Done(false) && s == Withdrawn(was, t))
  }

  lemma WithdrawingCall(was: Site, s: Site, t: Worker, pc: Pc, ch: Choice, job: Job)
    requires Withdrawing(was, s, t, pc, job) && !Resting(pc)
    ensures var e := StepOf(s, t, pc, ch); Undisturbed(was, e.site, t, e.pc, job)
  {
    if pc.Remove? { assert was.hidden[pc.held := was.public.value] - {pc.held} == was.hidden; }
  }

  lemma LinkingCall(was: Site, s: Site, t: Worker, pc: Pc, ch: Choice)
    requires Linking(was, s, t, pc) && !Resting(pc)
    ensures var e := StepOf(s, t, pc, ch); Linking(was, e.site, t, e.pc)
  {
  }

  lemma UndisturbedCall(was: Site, s: State, t: Worker, ch: Choice, job: Job)
    requires Enabled(s, Act(t, ch)) && Undisturbed(was, s.site, t, s.pcs[t], job) && !Resting(s.pcs[t])
    ensures var s' := Next(s, Act(t, ch)); Undisturbed(was, s'.site, t, s'.pcs[t], job) && s'.calls == s.calls
  {
    if Withdrawing(was, s.site, t, s.pcs[t], job) {
      WithdrawingCall(was, s.site, t, s.pcs[t], ch, job);
    } else {
      LinkingCall(was, s.site, t, s.pcs[t], ch);
    }
  }

  lemma {:induction false} UndisturbedRun(s: State, events: seq<Event>, t: Worker, job: Job)
    requires t in s.pcs && t in s.calls && s.pcs[t] == Check(job) && forall ev :: ev in events ==> ev.Act? && ev.worker == t
    requires t in Run(s, events).calls && Run(s, events).calls[t] == s.calls[t]
    ensures t in Run(s, events).pcs && Undisturbed(s.site, Run(s, events).site, t, Run(s, events).pcs[t], job)
    decreases |events|
  {
    if events != [] {
      var front, last := events[..|events| - 1], events[|events| - 1];
      CallsGrow(s, front, t);
      assert last in events;
      UndisturbedRun(s, front, t, job);
      if Enabled(Run(s, front), last) && !Resting(Run(s, front).pcs[t]) {
        UndisturbedCall(s.site, Run(s, front), t, last.choice, job);
      }
    }
  }

  lemma {:induction false} CallsGrow(s: State, events: seq<Event>, t: Worker)
    requires t in s.calls
    ensures t in Run(s, events).calls && s.calls[t] <= Run(s, events).calls[t]
    decreases |events|
  {
    if events != [] { CallsGrow(s, events[..|events| - 1], t); }
  }

  /** A job that nobody disturbs.  A retirement takes away the worker's own link and
      nothing else.  A relink leaves a regular file alone and says so; otherwise the
      name holds the worker's link, and at most a leftover of its staging name is
      gone.  Either fails only if it has a link to withdraw and finds no quarantine
      name, and then changes nothing. */
  lemma UndisturbedJob(s: State, events: seq<Event>, t: Worker, job: Job)
    requires t in s.pcs && t in s.calls && s.pcs[t] == Check(job) && forall ev :: ev in events ==> ev.Act? && ev.worker == t
    requires t in Run(s, events).calls && Run(s, events).calls[t] == s.calls[t]
    requires t in Run(s, events).pcs && Resting(Run(s, events).pcs[t])
    ensures var was, e := s.site, Run(s, events);
      var own := was.public.Some? && Owns(t, was.public.value);
      match e.pcs[t]
      case Failed(error) => error.NoQuarantine? && own && e.site == was
      case Done(linked) =>
        if job.Retire? then !linked && e.site == (if own then was.(public := None) else was)
        else if linked then
          && NoFile(was) && e.site.public.Some? && Owns(t, e.site.public.value)
          && (e.site.hidden == was.hidden || exists n :: e.site.hidden == was.hidden - {Staging(n)})
        else e.site == was && was.public.Some? && was.public.value.File?
      case _ => false
  {
    UndisturbedRun(s, events, t, job);
  }

  /** The quarantine gives up at its sixteenth taken name, and at none before. */
  lemma SixteenNames(s: State, t: Worker, ch: Choice)
    requires Reachable(s) && Enabled(s, Act(t, ch)) && s.pcs[t].Claim?
    ensures Next(s, Act(t, ch)).pcs[t].Failed?
      <==> s.pcs[t].attempt == 15 && s.site.public.Some? && Quarantine(ch.nonce) in s.site.hidden
    ensures s.site.public.Some? && Quarantine(ch.nonce) in s.site.hidden && s.pcs[t].attempt < 15 ==>
      Next(s, Act(t, ch)).pcs[t] == Claim(s.pcs[t].job, s.pcs[t].attempt + 1)
  {
    ReachableInv(s);
    assert Role(s.site, t, s.pcs[t]);
  }
}
