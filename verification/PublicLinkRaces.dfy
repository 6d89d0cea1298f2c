/** A run without any outside writer in which a published link is destroyed in
    favour of an older one, and a retired dependency keeps the name.  Worker 1
    retires, worker 2 relinks and then retires, worker 3 relinks. */
module PublicLinkRaces {
  import opened Wrappers
  import opened PublicLinks
  import opened PublicLinkTheorems
  import opened PublicLinkRuns
  import opened PublicLinkHistory

  const OLD := Link(1, 0)
  const MIDDLE := Link(2, 1)
  const NEW := Link(3, 2)
  const FIRST := Quarantine(11)
  const SECOND := Quarantine(12)
  const STAGED := Staging(10)
  const SITE := Site(Some(OLD), map[])
  const WORKERS: set<Worker> := {1, 2, 3}

  datatype Scene = Scene(site: Site, one: Pc, two: Pc, three: Pc, calls: map<Worker, nat>,
                         placed: set<Entry>, lost: seq<Loss>, drawn: set<nat>, log: Log)

  function StateOf(c: Scene): State {
    State(c.site, map[1 := c.one, 2 := c.two, 3 := c.three], c.calls, c.placed, c.lost, c.drawn)
  }

  /** These calls of the workers lead from the start to this scene. */
  ghost predicate Leads(es: seq<Event>, c: Scene) {
    && Run(Start(SITE, WORKERS), es) == StateOf(c) && History(SITE, WORKERS, es) == c.log
    && forall ev :: ev in es ==> ev.Act?
  }

  lemma Extend(es: seq<Event>, c: Scene, ev: Event, d: Scene) returns (fs: seq<Event>)
    requires Leads(es, c) && ev.Act? && Next(StateOf(c), ev) == StateOf(d) && Record(c.log, StateOf(c), ev) == d.log
    ensures Leads(fs, d)
  {
    fs := es + [ev];
    assert fs[..|fs| - 1] == es;
  }

  /** A call that changes nothing but the caller's place. */
  lemma Reads(es: seq<Event>, c: Scene, t: Worker, job: Job, d: Scene) returns (fs: seq<Event>)
    requires Leads(es, c) && 1 <= t <= 3 && c.calls.Keys == WORKERS
    requires 9 !in c.drawn && forall e :: e in c.placed ==> e.id != 9
    requires var pc := StateOf(c).pcs[t];
      && !Resting(pc) && !pc.Restore? && !pc.Drop? && !pc.Create? && !pc.Publish? && !pc.Claim? && !pc.Clear?
      && StepOf(c.site, t, pc, Choice(9, 9, job)) == Go(c.site, StateOf(d).pcs[t])
    requires StateOf(d) == StateOf(c).(pcs := StateOf(c).pcs[t := StateOf(d).pcs[t]]) && d.log == c.log
    ensures Leads(fs, d)
  {
    fs := Extend(es, c, Act(t, Choice(9, 9, job)), d);
  }

  lemma BeginCall(s: State, t: Worker, ch: Choice)
    requires t in s.pcs && t in s.calls && ch.nonce !in s.drawn && Fresh(s.placed, ch.id) && Resting(s.pcs[t])
    ensures Next(s, Act(t, ch)) == s.(pcs := s.pcs[t := Check(ch.job)], calls := s.calls[t := s.calls[t] + 1])
  {
    assert s.placed + {} == s.placed;
  }

  /** A resting worker begins its next job. */
  lemma Begins(es: seq<Event>, c: Scene, t: Worker, job: Job, d: Scene) returns (fs: seq<Event>)
    requires Leads(es, c) && 1 <= t <= 3 && c.calls.Keys == WORKERS
    requires 9 !in c.drawn && Fresh(c.placed, 9)
    requires Resting(StateOf(c).pcs[t])
    requires StateOf(d) == StateOf(c).(pcs := StateOf(c).pcs[t := Check(job)], calls := c.calls[t := c.calls[t] + 1])
    requires d.log == c.log
    ensures Leads(fs, d)
  {
    BeginCall(StateOf(c), t, Choice(9, 9, job));
    fs := Extend(es, c, Act(t, Choice(9, 9, job)), d);
  }

  /** A worker hides the entry it finds on the public name. */
  lemma DisplaceCall(s: State, t: Worker, ch: Choice)
    requires t in s.pcs && t in s.calls && ch.nonce !in s.drawn && Fresh(s.placed, ch.id)
    requires s.pcs[t].Claim? && s.site.public.Some? && Quarantine(ch.nonce) !in s.site.hidden
    ensures var q := Quarantine(ch.nonce);
      Next(s, Act(t, ch)) == s.(site := Site(None, s.site.hidden[q := s.site.public.value]),
                                pcs := s.pcs[t := Judge(s.pcs[t].job, q)], drawn := s.drawn + {ch.nonce})
  {
    assert s.placed + {} == s.placed;
  }

  function Calls(one: nat, two: nat, three: nat): map<Worker, nat> { map[1 := one, 2 := two, 3 := three] }

  const OPEN := Log([Arrival(OLD, None)], map[], map[], map[])
  const C0 := Scene(SITE, Idle, Idle, Idle, Calls(0, 0, 0), {OLD}, [], {}, OPEN)

  lemma OneBegins() returns (es: seq<Event>)
    ensures Leads(es, C0.(one := Check(Retire), calls := Calls(1, 0, 0)))
  {
    es := [];
    assert Start(SITE, WORKERS) == StateOf(C0);
    es := Begins(es, C0, 1, Retire, C0.(one := Check(Retire), calls := Calls(1, 0, 0)));
  }

  lemma OneSeesItsLink() returns (es: seq<Event>)
    ensures Leads(es, C0.(one := Claim(Retire, 0), calls := Calls(1, 0, 0)))
  {
    es := OneBegins();
    var d := C0.(one := Check(Retire), calls := Calls(1, 0, 0));
    es := Reads(es, d, 1, Retire, d.(one := Claim(Retire, 0)));
  }

  const C1 := C0.(one := Claim(Retire, 0), calls := Calls(1, 1, 0))

  lemma TwoLooks() returns (es: seq<Event>)
    ensures Leads(es, C1.(two := Look))
  {
    es := OneSeesItsLink();
    es := Begins(es, C1.(calls := Calls(1, 0, 0)), 2, Relink, C1.(two := Check(Relink)));
    es := Reads(es, C1.(two := Check(Relink)), 2, Relink, C1.(two := Look));
  }

  lemma TwoSeesALink() returns (es: seq<Event>)
    ensures Leads(es, C1.(two := Clear))
  {
    es := TwoLooks();
    es := Reads(es, C1.(two := Look), 2, Relink, C1.(two := Clear));
  }

  lemma TwoClears() returns (es: seq<Event>)
    ensures Leads(es, C1.(two := Stage(STAGED), drawn := {10}))
  {
    es := TwoSeesALink();
    es := Extend(es, C1.(two := Clear), Act(2, Choice(10, 9, Relink)), C1.(two := Stage(STAGED), drawn := {10}));
  }

  const STAGING := Site(Some(OLD), map[STAGED := MIDDLE])

  lemma TwoStages() returns (es: seq<Event>)
    ensures Leads(es, C1.(two := Publish(STAGED), drawn := {10}, site := STAGING, placed := {OLD, MIDDLE}))
  {
    es := TwoClears();
    es := Extend(es, C1.(two := Stage(STAGED), drawn := {10}), Act(2, Choice(9, 1, Relink)),
                 C1.(two := Publish(STAGED), drawn := {10}, site := STAGING, placed := {OLD, MIDDLE}));
  }

  const TWICE := Log([Arrival(OLD, None), Arrival(MIDDLE, None)], map[], map[], map[])
  const C2 := Scene(Site(Some(MIDDLE), map[]), Claim(Retire, 0), Done(true), Idle, Calls(1, 1, 0),
                    {OLD, MIDDLE}, [Loss(OLD, 2, 1, Overwritten)], {10}, TWICE)

  lemma TwoPublishes() returns (es: seq<Event>)
    ensures Leads(es, C2)
  {
    es := TwoStages();
    var c := C1.(two := Publish(STAGED), drawn := {10}, site := STAGING, placed := {OLD, MIDDLE});
    assert STAGING.hidden - {STAGED} == map[];
    es := Extend(es, c, Act(2, Choice(9, 9, Relink)), C2);
  }

  const C3 := C2.(two := Claim(Retire, 0), calls := Calls(1, 2, 0))

  lemma TwoSeesItsLink() returns (es: seq<Event>)
    ensures Leads(es, C3)
  {
    es := TwoPublishes();
    var d := C2.(two := Check(Retire), calls := Calls(1, 2, 0));
    es := Begins(es, C2, 2, Retire, d);
    es := Reads(es, d, 2, Retire, C3);
  }

  const C4 := C3.(site := Site(None, map[FIRST := MIDDLE]), one := Judge(Retire, FIRST), drawn := {10, 11},
                  log := TWICE.(taken := map[FIRST := 1]))

  lemma OneDisplaces() returns (es: seq<Event>)
    ensures Leads(es, C4)
  {
    es := TwoSeesItsLink();
    DisplaceCall(StateOf(C3), 1, Choice(11, 9, Retire));
    es := Extend(es, C3, Act(1, Choice(11, 9, Retire)), C4);
  }

  const C5 := C4.(calls := Calls(1, 2, 1))

  lemma ThreeBegins() returns (es: seq<Event>)
    ensures Leads(es, C5.(three := Check(Relink)))
  {
    es := OneDisplaces();
    es := Begins(es, C4, 3, Relink, C5.(three := Check(Relink)));
  }

  lemma ThreeLooks() returns (es: seq<Event>)
    ensures Leads(es, C5.(three := Create))
  {
    es := ThreeBegins();
    es := Reads(es, C5.(three := Check(Relink)), 3, Relink, C5.(three := Look));
    es := Reads(es, C5.(three := Look), 3, Relink, C5.(three := Create));
  }

  const THRICE := TWICE.(arrivals := TWICE.arrivals + [Arrival(NEW, None)], taken := map[FIRST := 1])
  const C6 := C5.(three := Done(true), site := Site(Some(NEW), map[FIRST := MIDDLE]), placed := {OLD, MIDDLE, NEW},
                  log := THRICE)

  lemma ThreePublishes() returns (es: seq<Event>)
    ensures Leads(es, C6)
  {
    es := ThreeLooks();
    es := Extend(es, C5.(three := Create), Act(3, Choice(9, 2, Relink)), C6);
  }

  const C7 := C6.(two := Judge(Retire, SECOND), site := Site(None, map[FIRST := MIDDLE, SECOND := NEW]),
                  drawn := {10, 11, 12}, log := THRICE.(taken := map[FIRST := 1, SECOND := 2]))

  lemma TwoDisplaces() returns (es: seq<Event>)
    ensures Leads(es, C7)
  {
    es := ThreePublishes();
    DisplaceCall(StateOf(C6), 2, Choice(12, 9, Retire));
    es := Extend(es, C6, Act(2, Choice(12, 9, Retire)), C7);
  }

  const BACK := C7.log.(arrivals := THRICE.arrivals + [Arrival(MIDDLE, Some(1))])
  const C8 := C7.(one := Done(false), site := Site(Some(MIDDLE), map[SECOND := NEW]), log := BACK)

  lemma OneJudges() returns (es: seq<Event>)
    ensures Leads(es, C7.(one := Restore(Retire, FIRST)))
  {
    es := TwoDisplaces();
    es := Reads(es, C7, 1, Retire, C7.(one := Restore(Retire, FIRST)));
  }

  const C7B := C7.(one := Restore(Retire, FIRST))

  /** A worker puts an entry back on the empty public name. */
  lemma RestoreCall(s: State, t: Worker, ch: Choice)
    requires t in s.pcs && t in s.calls && ch.nonce !in s.drawn && Fresh(s.placed, ch.id)
    requires s.pcs[t].Restore? && s.site.public.None? && s.pcs[t].held in s.site.hidden
    ensures var q := s.pcs[t].held;
      Next(s, Act(t, ch)) ==
        s.(site := Site(Some(s.site.hidden[q]), s.site.hidden - {q}), pcs := s.pcs[t := After(s.pcs[t].job)])
  {
    assert s.placed + {} == s.placed;
  }

  lemma OnePutsBack() returns (es: seq<Event>)
    ensures Leads(es, C8)
  {
    es := OneJudges();
    assert C7.site.hidden - {FIRST} == map[SECOND := NEW];
    RestoreCall(StateOf(C7B), 1, Choice(9, 9, Retire));
    es := Extend(es, C7B, Act(1, Choice(9, 9, Retire)), C8);
  }

  const C9 := C8.(two := Examine(Retire, SECOND, MIDDLE), log := BACK.(refused := map[SECOND := 3]))

  lemma TwoJudges() returns (es: seq<Event>)
    ensures Leads(es, C8.(two := Restore(Retire, SECOND)))
  {
    es := OnePutsBack();
    es := Reads(es, C8, 2, Retire, C8.(two := Restore(Retire, SECOND)));
  }

  lemma TwoIsRefused() returns (es: seq<Event>)
    ensures Leads(es, C9)
  {
    es := TwoJudges();
    es := Extend(es, C8.(two := Restore(Retire, SECOND)), Act(2, Choice(9, 9, Retire)), C9);
  }

  const LOST := Loss(NEW, 2, 2, Superseded(MIDDLE))
  const END := C9.(two := Done(false), site := Site(Some(MIDDLE), map[]), lost := C2.lost + [LOST],
                   log := C9.log.(verdicts := map[1 := Verdict(2, 3)]))

  lemma TwoExamines() returns (es: seq<Event>)
    ensures Leads(es, C9.(two := Drop(Retire, SECOND, MIDDLE)))
  {
    es := TwoIsRefused();
    es := Reads(es, C9, 2, Retire, C9.(two := Drop(Retire, SECOND, MIDDLE)));
  }

  const CA := C9.(two := Drop(Retire, SECOND, MIDDLE))

  lemma DropEffect()
    ensures StepOf(CA.site, 2, CA.two, Choice(9, 9, Retire)) == Lose(END.site, Done(false), NEW, Superseded(MIDDLE))
  {
    assert CA.site.hidden - {SECOND} == map[];
  }

  lemma DropRecord()
    ensures Record(CA.log, StateOf(CA), Act(2, Choice(9, 9, Retire))) == END.log
  {
  }

  lemma TwoDrops() returns (es: seq<Event>)
    ensures Leads(es, END)
  {
    es := TwoExamines();
    DropEffect();
    DropRecord();
    es := Extend(es, CA, Act(2, Choice(9, 9, Retire)), END);
  }

  /** All are done, worker 3 with success, and no outside writer took part; yet the
      name holds the link of the retired worker 2, which is older than the link of
      worker 3 that was published last and is destroyed. */
  lemma NewestLinkLostToAnOlderOne() returns (es: seq<Event>)
    ensures forall ev :: ev in es ==> ev.Act?
    ensures var s := Run(Start(SITE, WORKERS), es);
      && s.pcs == map[1 := Done(false), 2 := Done(false), 3 := Done(true)] && s.site == Site(Some(MIDDLE), map[])
      && s.lost == [Loss(OLD, 2, 1, Overwritten), LOST]
    ensures var a := History(SITE, WORKERS, es).arrivals;
      && a == [Arrival(OLD, None), Arrival(MIDDLE, None), Arrival(NEW, None), Arrival(MIDDLE, Some(1))]
      && Older(a, MIDDLE, NEW)
  {
    es := TwoDrops();
    var a := END.log.arrivals;
    assert a == [Arrival(OLD, None), Arrival(MIDDLE, None), Arrival(NEW, None), Arrival(MIDDLE, Some(1))];
    assert a[1].entry == MIDDLE && forall j :: 0 <= j <= 1 ==> a[j].entry != NEW;
  }
}
