/** One shared public name and its hidden siblings.  Workers withdraw their own
    link by quarantine and publish a new one by staging, one filesystem call at a
    time, while outside writers may put anything on the public name at any time. */
module PublicLinks {
  import opened Wrappers

  type Worker = nat

  /** What the public name or a hidden sibling can hold.  `id` tells one entry from
      an equal-looking one; a link leads into the install root of one dependency. */
  datatype Entry = Link(root: Worker, id: nat) | File(id: nat)

  /** Hidden names carry a process number and a counter, so none is drawn twice. */
  datatype Hidden = Quarantine(nonce: nat) | Staging(nonce: nat)

  /** A relink withdraws the worker's link and publishes a new one; a retirement
      only withdraws. */
  datatype Job = Relink | Retire

  datatype Error = NoQuarantine | Preserved(at: Hidden) | Vanished | StagingTaken | RenameFailed

  datatype Pc =
    | Idle
    // unlink_owned_symlink, quarantine_matching_with
    | Check(job: Job)
    | Claim(job: Job, attempt: nat)
    | Judge(job: Job, held: Hidden)
    | Remove(job: Job, held: Hidden)
    | Restore(job: Job, held: Hidden)
    | Examine(job: Job, held: Hidden, winner: Entry)
    | Drop(job: Job, held: Hidden, winner: Entry)
    // replace_symlink_with
    | Look
    | Create
    | LookAgain
    | Clear
    | Stage(held: Hidden)
    | Publish(held: Hidden)
    | Done(linked: bool)
    | Failed(error: Error)

  /** Why an entry is gone: its own root removed it, a newer entry held the name
      when it was to be put back, a stale sibling was cleared, a publication
      renamed over it, or an outside writer replaced it. */
  datatype Reason = Owned | Superseded(winner: Entry) | Cleared | Overwritten | Outside

  /** An entry that no longer exists, and the quarantine call that removed it. */
  datatype Loss = Loss(entry: Entry, worker: Worker, call: nat, reason: Reason)

  datatype Choice = Choice(nonce: nat, id: nat, job: Job)

  datatype Site = Site(public: Option<Entry>, hidden: map<Hidden, Entry>)

  /** `calls` numbers the runs of each worker; `placed`, `lost` and `drawn` are
      histories: every entry there ever was, every entry gone, every name drawn. */
  datatype State = State(site: Site, pcs: map<Worker, Pc>, calls: map<Worker, nat>,
                         placed: set<Entry>, lost: seq<Loss>, drawn: set<nat>)

  datatype Event = Act(worker: Worker, choice: Choice) | Write(entry: Option<Entry>)

  const ATTEMPTS := 16

  /** `symlink_targets_any_root`: a readable symlink into this worker's root. */
  predicate Owns(t: Worker, e: Entry) { e.Link? && e.root == t }

  function After(job: Job): Pc { if job.Relink? then Look else Done(false) }

  /** One call: the new site, the next call, what it made and what it lost. */
  datatype Effect = Effect(site: Site, pc: Pc, made: set<Entry>, loss: Option<(Entry, Reason)>)

  function Go(s: Site, pc: Pc): Effect { Effect(s, pc, {}, None) }

  function Lose(s: Site, pc: Pc, e: Entry, why: Reason): Effect { Effect(s, pc, {}, Some((e, why))) }

  function UnlinkStep(s: Site, t: Worker, pc: Pc, ch: Choice): Effect
    requires pc.Check? || pc.Claim? || pc.Judge? || pc.Remove? || pc.Restore? || pc.Examine? || pc.Drop?
  {
    match pc
    case Check(job) => Go(s, if s.public.Some? && Owns(t, s.public.value) then Claim(job, 0) else After(job))
    case Claim(job, k) =>
      var q := Quarantine(ch.nonce);
      if s.public.None? then Go(s, After(job))
      else if q in s.hidden then Go(s, if k + 1 == ATTEMPTS then Failed(NoQuarantine) else Claim(job, k + 1))
      else Go(Site(None, s.hidden[q := s.public.value]), Judge(job, q))
    case Judge(job, q) => Go(s, if q in s.hidden && Owns(t, s.hidden[q]) then Remove(job, q) else Restore(job, q))
    case Remove(job, q) =>
      if q in s.hidden then Lose(s.(hidden := s.hidden - {q}), After(job), s.hidden[q], Owned) else Go(s, Failed(Vanished))
    case Restore(job, q) =>
      if q !in s.hidden then Go(s, Failed(Preserved(q)))
      else if s.public.Some? then Go(s, Examine(job, q, s.public.value))
      else Go(Site(Some(s.hidden[q]), s.hidden - {q}), After(job))
    case Examine(job, q, winner) =>
      Go(s, if q in s.hidden && s.hidden[q].Link? then Drop(job, q, winner) else Failed(Preserved(q)))
    case Drop(job, q, winner) =>
      if q in s.hidden then Lose(s.(hidden := s.hidden - {q}), After(job), s.hidden[q], Superseded(winner))
      else Go(s, Failed(Vanished))
  }

  function ReplaceStep(s: Site, t: Worker, pc: Pc, ch: Choice): Effect
    requires pc.Look? || pc.Create? || pc.LookAgain? || pc.Clear? || pc.Stage? || pc.Publish?
  {
    var link := Link(t, ch.id);
    match pc
    case Look => Go(s, if s.public.None? then Create else if s.public.value.File? then Done(false) else Clear)
    case Create =>
      if s.public.None? then Effect(s.(public := Some(link)), Done(true), {link}, None) else Go(s, LookAgain)
    case LookAgain => Go(s, if s.public.Some? && s.public.value.File? then Done(false) else Clear)
    case Clear =>
      var n := Staging(ch.nonce);
      if n in s.hidden then Lose(s.(hidden := s.hidden - {n}), Stage(n), s.hidden[n], Cleared) else Go(s, Stage(n))
    case Stage(n) =>
      if n in s.hidden then Go(s, Failed(StagingTaken))
      else Effect(s.(hidden := s.hidden[n := link]), Publish(n), {link}, None)
    case Publish(n) =>
      if n !in s.hidden then Go(s, Failed(RenameFailed))
      else
        var s' := Site(Some(s.hidden[n]), s.hidden - {n});
        if s.public.None? then Go(s', Done(true)) else Lose(s', Done(true), s.public.value, Overwritten)
  }

  predicate Resting(pc: Pc) { pc.Idle? || pc.Done? || pc.Failed? }

  function StepOf(s: Site, t: Worker, pc: Pc, ch: Choice): Effect {
    match pc
    case Idle | Done(_) | Failed(_) => Go(s, Check(ch.job))
    case Check(_) | Claim(_, _) | Judge(_, _) | Remove(_, _) | Restore(_, _) | Examine(_, _, _) | Drop(_, _, _) =>
      UnlinkStep(s, t, pc, ch)
    case _ => ReplaceStep(s, t, pc, ch)
  }

  predicate Fresh(placed: set<Entry>, id: nat) { forall e :: e in placed ==> e.id != id }

  /** Draws are fresh, and an outside writer brings entries of its own. */
  predicate Enabled(s: State, ev: Event) {
    match ev
    case Act(t, ch) => t in s.pcs && t in s.calls && ch.nonce !in s.drawn && Fresh(s.placed, ch.id)
    case Write(e) => e.Some? ==> Fresh(s.placed, e.value.id)
  }

  function Next(s: State, ev: Event): State {
    if !Enabled(s, ev) then s else
    match ev
    case Act(t, ch) =>
      var pc := s.pcs[t];
      var e := StepOf(s.site, t, pc, ch);
      var calls := if Resting(pc) then s.calls[t := s.calls[t] + 1] else s.calls;
      var lost := if e.loss.None? then s.lost else s.lost + [Loss(e.loss.value.0, t, s.calls[t], e.loss.value.1)];
      State(e.site, s.pcs[t := e.pc], calls, s.placed + e.made, lost,
            if pc.Claim? || pc.Clear? then s.drawn + {ch.nonce} else s.drawn)
    case Write(e) =>
      var lost := if s.site.public.None? then s.lost else s.lost + [Loss(s.site.public.value, 0, 0, Outside)];
      s.(site := s.site.(public := e), placed := s.placed + (if e.Some? then {e.value} else {}), lost := lost)
  }

  function Run(s: State, events: seq<Event>): State
    decreases |events|
  {
    if events == [] then s else Next(Run(s, events[..|events| - 1]), events[|events| - 1])
  }

  /** Hidden siblings that a crashed process left behind, no two entries alike. */
  predicate Leftover(site: Site) {
    && (forall h, g :: h in site.hidden && g in site.hidden && site.hidden[h].id == site.hidden[g].id ==> h == g)
    && (site.public.Some? ==> forall h :: h in site.hidden ==> site.hidden[h].id != site.public.value.id)
  }

  function Start(site: Site, workers: set<Worker>): State {
    State(site, map t | t in workers :: Idle, map t | t in workers :: 0,
          (if site.public.Some? then {site.public.value} else {}) + (set h | h in site.hidden :: site.hidden[h]), [], {})
  }
}
