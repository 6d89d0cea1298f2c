/** Concrete runs of the lock machine, one call at a time: three threads of three
    processes, and how the first of them acquires the lock and begins to release it. */
module LockScenes {
  import opened Wrappers
  import opened LockDirectory
  import opened CheckoutLock

  const PIDS: map<Tid, Pid> := map[1 := 1, 2 := 2, 3 := 3]
  const IDLE: map<Tid, Pc> := map[1 := Idle, 2 := Idle, 3 := Idle]
  const CLAIM := ClaimId(7, 8)

  /** The environment draws `n`, lets a stream return `pick`, and tells the truth
      about the dead. */
  function Env(n: Nonce, pick: ClaimId): Choice { Choice(n, pick, true, true) }

  function Site(canonical: Canon, owners: map<Nonce, Slot>, claims: map<ClaimId, ClaimDir>, crashed: set<Pid>,
                makers: map<Nonce, Tid>, filled: set<ClaimId>): World
  {
    World(Dir(canonical, owners, claims), PIDS, crashed, makers, filled)
  }

  ghost predicate Leads(events: seq<Event>, w: World, pcs: map<Tid, Pc>) {
    Run(Start(PIDS), events) == State(w, pcs)
  }

  lemma LeadsOn(events: seq<Event>, ev: Event)
    ensures Run(Start(PIDS), events + [ev]) == Next(Run(Start(PIDS), events), ev)
  {
    var more := events + [ev];
    assert more[..|more| - 1] == events;
  }

  predicate Draws(pc: Pc) { pc.PublishOwner? || pc.PublishClaim? }

  /** One call of thread `t`. */
  lemma Calls(es: seq<Event>, w: World, pcs: map<Tid, Pc>, t: Tid, ch: Choice, v: World, pc: Pc) returns (fs: seq<Event>)
    requires Leads(es, w, pcs) && t in pcs && Live(w, t) && (Draws(pcs[t]) ==> ch.nonce !in w.makers)
    requires var e := StepOf(w.dir, w.pids[t], w.crashed, pcs[t], ch); Apply(w, t, e) == v && e.pc == pc
    ensures Leads(fs, v, pcs[t := pc])
  {
    var s, ev := State(w, pcs), Act(t, ch);
    fs := es + [ev];
    LeadsOn(es, ev);
    assert Enabled(s, ev) && EffectOf(s, t, ch) == StepOf(w.dir, w.pids[t], w.crashed, pcs[t], ch);
  }

  lemma Reads(es: seq<Event>, w: World, pcs: map<Tid, Pc>, t: Tid, now: Pc, pick: ClaimId, pc: Pc) returns (fs: seq<Event>)
    requires Leads(es, w, pcs[t := now]) && Live(w, t) && !Draws(now)
    requires StepOf(w.dir, w.pids[t], w.crashed, now, Env(0, pick)) == Go(w.dir, pc)
    ensures Leads(fs, w, pcs[t := pc])
  {
    assert Apply(w, t, Go(w.dir, pc)) == w;
    fs := Calls(es, w, pcs[t := now], t, Env(0, pick), w, pc);
    assert pcs[t := now][t := pc] == pcs[t := pc];
  }

  lemma Writes(es: seq<Event>, w: World, pcs: map<Tid, Pc>, t: Tid, now: Pc, n: Nonce, v: World, pc: Pc)
    returns (fs: seq<Event>)
    requires Leads(es, w, pcs[t := now]) && Live(w, t) && (Draws(now) ==> n !in w.makers)
    requires var e := StepOf(w.dir, w.pids[t], w.crashed, now, Env(n, CLAIM)); Apply(w, t, e) == v && e.pc == pc
    ensures Leads(fs, v, pcs[t := pc])
  {
    fs := Calls(es, w, pcs[t := now], t, Env(n, CLAIM), v, pc);
    assert pcs[t := now][t := pc] == pcs[t := pc];
  }

  // ----- the first thread acquires and begins its release -----

  const NOTHING := Cursor({}, {})
  const MINE := Slot(Some(1), Absent)
  const EMPTY := Site(Absent, map[], map[], {}, map[], {})
  const PREPARED := Site(Absent, map[7 := MINE], map[], {}, map[7 := 1], {})
  const LOCKED := Site(Link(7), map[7 := MINE], map[], {}, map[7 := 1], {})
  const CLAIMING := Site(Link(7), map[7 := MINE], map[CLAIM := ClaimDir(Some(1), None, None)], {}, map[7 := 1, 8 := 1], {})
  const CLAIMED :=
    Site(Link(7), map[], map[CLAIM := ClaimDir(Some(1), Some(MINE), None)], {}, map[7 := 1, 8 := 1], {CLAIM})

  /** A thread that starts in the empty directory opens its sweep. */
  lemma Looks(es: seq<Event>, pcs: map<Tid, Pc>, t: Tid) returns (fs: seq<Event>)
    requires 1 <= t <= 3 && Leads(es, EMPTY, pcs[t := Idle])
    ensures Leads(fs, EMPTY, pcs[t := SweepBegin])
  {
    fs := Reads(es, EMPTY, pcs, t, Idle, CLAIM, Look);
    fs := Reads(fs, EMPTY, pcs, t, Look, CLAIM, SweepBegin);
  }

  lemma OpensItsSweep(es: seq<Event>, pcs: map<Tid, Pc>, t: Tid) returns (fs: seq<Event>)
    requires 1 <= t <= 3 && Leads(es, EMPTY, pcs[t := Idle])
    ensures Leads(fs, EMPTY, pcs[t := Sweep(NOTHING)])
  {
    fs := Looks(es, pcs, t);
    fs := Reads(fs, EMPTY, pcs, t, SweepBegin, CLAIM, SweepOpen);
    assert EMPTY.dir.claims.Keys == {};
    fs := Reads(fs, EMPTY, pcs, t, SweepOpen, CLAIM, Sweep(NOTHING));
  }

  lemma First(es: seq<Event>, w: World, pcs: map<Tid, Pc>, now: Pc, pc: Pc) returns (fs: seq<Event>)
    requires Leads(es, w, pcs[1 := now]) && Live(w, 1) && !Draws(now)
    requires StepOf(w.dir, w.pids[1], w.crashed, now, Env(0, CLAIM)) == Go(w.dir, pc)
    ensures Leads(fs, w, pcs[1 := pc])
  {
    fs := Reads(es, w, pcs, 1, now, CLAIM, pc);
  }

  lemma FirstFindsNothing(es: seq<Event>, pcs: map<Tid, Pc>) returns (fs: seq<Event>)
    requires Leads(es, EMPTY, pcs[1 := Idle])
    ensures Leads(fs, EMPTY, pcs[1 := PublishOwner])
  {
    fs := OpensItsSweep(es, pcs, 1);
    fs := First(fs, EMPTY, pcs, Sweep(NOTHING), SweepEnd);
    fs := First(fs, EMPTY, pcs, SweepEnd, PublishOwner);
  }

  lemma FirstPrepares(es: seq<Event>, pcs: map<Tid, Pc>) returns (fs: seq<Event>)
    requires Leads(es, EMPTY, pcs[1 := Idle])
    ensures Leads(fs, PREPARED, pcs[1 := Publish(7)])
  {
    fs := FirstFindsNothing(es, pcs);
    fs := Writes(fs, EMPTY, pcs, 1, PublishOwner, 7, PREPARED, Publish(7));
  }

  lemma FirstPublishes(es: seq<Event>, pcs: map<Tid, Pc>) returns (fs: seq<Event>)
    requires Leads(es, EMPTY, pcs[1 := Idle])
    ensures Leads(fs, LOCKED, pcs[1 := Verify(7, 0)])
  {
    fs := FirstPrepares(es, pcs);
    fs := Writes(fs, PREPARED, pcs, 1, Publish(7), 0, LOCKED, Verify(7, 0));
  }

  lemma FirstEnters(es: seq<Event>, pcs: map<Tid, Pc>) returns (fs: seq<Event>)
    requires Leads(es, EMPTY, pcs[1 := Idle])
    ensures Leads(fs, LOCKED, pcs[1 := InOp(7)])
  {
    fs := FirstPublishes(es, pcs);
    fs := First(fs, LOCKED, pcs, Verify(7, 0), Verify(7, 1));
    fs := First(fs, LOCKED, pcs, Verify(7, 1), InOp(7));
  }

  lemma FirstLeaves(es: seq<Event>, pcs: map<Tid, Pc>) returns (fs: seq<Event>)
    requires Leads(es, EMPTY, pcs[1 := Idle])
    ensures Leads(fs, LOCKED, pcs[1 := Release(7, 1)])
  {
    fs := FirstEnters(es, pcs);
    fs := First(fs, LOCKED, pcs, InOp(7), Release(7, 0));
    fs := First(fs, LOCKED, pcs, Release(7, 0), Release(7, 1));
  }

  lemma FirstReleases(es: seq<Event>, pcs: map<Tid, Pc>) returns (fs: seq<Event>)
    requires Leads(es, EMPTY, pcs[1 := Idle])
    ensures Leads(fs, LOCKED, pcs[1 := PublishClaim(7, FromOwner, Releasing)])
  {
    fs := FirstLeaves(es, pcs);
    fs := First(fs, LOCKED, pcs, Release(7, 1), Release(7, 2));
    fs := First(fs, LOCKED, pcs, Release(7, 2), PublishClaim(7, FromOwner, Releasing));
  }

  lemma FirstPublishesItsClaim(es: seq<Event>, pcs: map<Tid, Pc>) returns (fs: seq<Event>)
    requires Leads(es, EMPTY, pcs[1 := Idle])
    ensures Leads(fs, CLAIMING, pcs[1 := Fill(CLAIM, FromOwner, Releasing, 0)])
  {
    fs := FirstReleases(es, pcs);
    var next := Fill(CLAIM, FromOwner, Releasing, 0);
    fs := Writes(fs, LOCKED, pcs, 1, PublishClaim(7, FromOwner, Releasing), 8, CLAIMING, next);
  }

  /** From an empty directory to a filled claim, whatever the others wait for. */
  lemma FirstClaims(es: seq<Event>, pcs: map<Tid, Pc>) returns (fs: seq<Event>)
    requires Leads(es, EMPTY, pcs[1 := Idle])
    ensures Leads(fs, CLAIMED, pcs[1 := Detach(CLAIM, Releasing, 0)])
  {
    fs := FirstPublishesItsClaim(es, pcs);
    fs := First(fs, CLAIMING, pcs, Fill(CLAIM, FromOwner, Releasing, 0), Fill(CLAIM, FromOwner, Releasing, 1));
    fs := Writes(fs, CLAIMING, pcs, 1, Fill(CLAIM, FromOwner, Releasing, 1), 0, CLAIMED, Detach(CLAIM, Releasing, 0));
  }
}
