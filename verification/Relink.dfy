/** Relinking the commands of one dependency: publish what is wanted first, keep a
    recovery plan until the ledger covers it, and only then retire what is stale.
    The process may die before any durable write; `steps` counts the writes it
    still lives to make. */
module Relink {
  import opened Wrappers

  type Path = string

  /** The text of a symlink, with the install root it leads into. */
  datatype Target = Target(root: nat, file: string)

  datatype Entry = Symlink(target: Target) | File(id: nat)

  type Directory = map<Path, Entry>

  /** The desired public commands and what each is to point at. */
  type Wanted = map<Path, Target>

  datatype Plan = Plan(prior: set<Path>, wanted: Wanted)

  // ----- what the files on disk mean -----

  predicate IsSymlink(public: Directory, p: Path) { p in public && public[p].Symlink? }

  predicate IsFile(public: Directory, p: Path) { p in public && public[p].File? }

  predicate Live(public: Directory, wanted: Wanted, p: Path) {
    p in wanted && p in public && public[p] == Symlink(wanted[p])
  }

  predicate Owned(public: Directory, root: nat, p: Path) { IsSymlink(public, p) && public[p].target.root == root }

  /** The paths that recovery takes from a pending plan: its prior paths that are
      still symlinks and its wanted paths that are exactly live. */
  predicate Recovers(public: Directory, plan: Plan, p: Path) {
    (p in plan.prior && IsSymlink(public, p)) || Live(public, plan.wanted, p)
  }

  function Recovered(public: Directory, plan: Plan): set<Path> {
    set p | p in plan.prior + plan.wanted.Keys && Recovers(public, plan, p)
  }

  /** The links the dependency answers for: what prune would find after recovery. */
  function Tracked(public: Directory, ledger: set<Path>, plan: Option<Plan>): set<Path> {
    if plan.Some? then Recovered(public, plan.value) else ledger
  }

  function Created(public: Directory, wanted: Wanted): set<Path> { set p | p in wanted && !IsFile(public, p) }

  predicate Stale(public: Directory, tracked: set<Path>, wanted: Wanted, root: nat, p: Path) {
    p in tracked && p !in Created(public, wanted) && Owned(public, root, p)
  }

  /** The directory a relink is to end at: every wanted command that no regular
      file occupies, no stale link of this root, everything else untouched. */
  function Final(public: Directory, tracked: set<Path>, wanted: Wanted, root: nat): Directory {
    map p | p in public.Keys + wanted.Keys && !Stale(public, tracked, wanted, root, p) ::
      if p in wanted && !IsFile(public, p) then Symlink(wanted[p]) else public[p]
  }

  predicate Recordable(p: Path) { '\n' !in p && '\r' !in p }

  /** `validate_paths`, over the prior ledger and every wanted link and target. */
  predicate Valid(prior: set<Path>, wanted: Wanted) {
    (forall p :: p in prior ==> Recordable(p)) && (forall p :: p in wanted ==> Recordable(p) && Recordable(wanted[p].file))
  }

  /** How a relink ends: the scan failed, the plan was refused, the process died,
      or the links now in place. */
  datatype Outcome = Unscanned | Refused | Died | Linked(created: set<Path>)

  /** One result of listing the install root's `bin` directory: an error, or an
      entry whose name may not be text. */
  datatype Scanned = Broken | Found(cmd: Option<string>, executable: bool)

  predicate Linkable(e: Scanned) { e.Found? && e.executable && e.cmd.Some? }

  /** The commands a listing asks for. */
  function AskedFor(entries: seq<Scanned>, root: nat): Wanted {
    map e | e in entries && Linkable(e) :: e.cmd.value := Target(root, e.cmd.value)
  }

  /** The commands are the executable entries whose names are text, each to lead to
      the file of its name. */
  lemma AskedForExecutables(entries: seq<Scanned>, root: nat, c: string)
    ensures c in AskedFor(entries, root) <==> Found(Some(c), true) in entries
    ensures c in AskedFor(entries, root) ==> AskedFor(entries, root)[c] == Target(root, c)
  {
    if c in AskedFor(entries, root) {
      var e :| e in entries && Linkable(e) && e.cmd.value == c;
      assert e == Found(Some(c), true);
    }
    assert Found(Some(c), true) in entries ==> Linkable(Found(Some(c), true));
  }

  /** One more entry of the listing. */
  lemma AskedForMore(entries: seq<Scanned>, root: nat, e: Scanned)
    ensures AskedFor(entries + [e], root)
      == if Linkable(e) then AskedFor(entries, root)[e.cmd.value := Target(root, e.cmd.value)] else AskedFor(entries, root)
  {
    if Linkable(e) { assert e in entries + [e]; }
  }

  /** A tracked symlink into this root. */
  predicate Withdrawable(public: Directory, tracked: set<Path>, root: nat, p: Path) {
    p in tracked && p in public && public[p].Symlink? && public[p].target.root == root
  }

  /** No ledger line can hold it. */
  predicate LineBreak(p: Path) { '\n' in p || '\r' in p }

  lemma RefusedExactly(cared: set<Path>, wanted: Wanted, root: nat)
    requires forall c :: c in wanted ==> wanted[c] == Target(root, c)
    ensures !Valid(cared, wanted) <==> exists p :: (p in cared || p in wanted) && LineBreak(p)
  {
    assert forall p :: Recordable(p) <==> !LineBreak(p);
    if !Valid(cared, wanted) {
      if p :| p in cared && !Recordable(p) {
        assert LineBreak(p);
      } else {
        var p :| p in wanted && !(Recordable(p) && Recordable(wanted[p].file));
        assert LineBreak(p);
      }
    }
  }

  /** The inventory is complete before any public path changes: nothing, if the
      listing breaks off, or exactly the executable commands. */
  method Inventory(entries: seq<Scanned>, root: nat) returns (wanted: Option<Wanted>)
    ensures wanted == if Broken in entries then None else Some(AskedFor(entries, root))
    ensures wanted.Some? ==> forall c :: c in wanted.value <==> Found(Some(c), true) in entries
    ensures wanted.Some? ==> forall c :: c in wanted.value ==> wanted.value[c] == Target(root, c)
  {
    forall c ensures c in AskedFor(entries, root) <==> Found(Some(c), true) in entries {
      AskedForExecutables(entries, root, c);
    }
    var sources: Wanted := map[];
    for i := 0 to |entries|
      invariant Broken !in entries[..i]
      invariant sources == AskedFor(entries[..i], root)
    {
      var entry := entries[i];
      assert entries[..i + 1] == entries[..i] + [entry];
      AskedForMore(entries[..i], root, entry);
      if entry.Broken? { return None; }
      if Linkable(entry) { sources := sources[entry.cmd.value := Target(root, entry.cmd.value)]; }
    }
    assert entries[..|entries|] == entries;
    return Some(sources);
  }

  /** What holds at every instant of a relink that began with directory `was` and
      answered for `cared`, when the disk shows `now` and the dependency answers
      for `tracked`. */
  ghost predicate Safe(was: Directory, cared: set<Path>, wanted: Wanted, root: nat, now: Directory, tracked: set<Path>) {
    // a link that this run put there, or that it answered for, is answered for
    && (forall p :: Live(now, wanted, p) && !Live(was, wanted, p) ==> p in tracked)
    && (forall p :: p in cared && Owned(now, root, p) ==> p in tracked)
    && tracked <= cared + wanted.Keys
    // a wanted command that existed never disappears, a regular file never changes
    && (forall p :: p in wanted && p in was ==> p in now)
    && (forall p :: IsFile(was, p) ==> p in now && now[p] == was[p])
    // everything else stays as it was, except that stale links of this root may go
    && (forall p :: p in now ==> Live(now, wanted, p) || (p in was && now[p] == was[p]))
    && (forall p :: p in was && p !in now ==> Stale(was, cared, wanted, root, p))
  }

  /** An undisturbed relink would end the same from both disks. */
  ghost predicate SameGoal(was: Directory, cared: set<Path>, wanted: Wanted, root: nat, now: Directory, tracked: set<Path>) {
    && Final(now, tracked, wanted, root) == Final(was, cared, wanted, root)
    && Created(now, wanted) == Created(was, wanted)
  }

  /** A relink under way: these wanted links are made, some stale ones are gone. */
  ghost predicate Phase(was: Directory, cared: set<Path>, wanted: Wanted, root: nat, now: Directory, tracked: set<Path>,
                        created: set<Path>)
  {
    && created <= Created(was, wanted)
    && (forall p :: p in created ==> Live(now, wanted, p) && p in tracked)
    && (forall p :: p in now && p !in created ==> p in was && now[p] == was[p])
    && (forall p :: p in was && p !in now ==> Stale(was, cared, wanted, root, p))
    && (forall p :: p in cared && Owned(now, root, p) ==> p in tracked)
    && tracked <= cared + wanted.Keys
  }

  lemma PhaseIsSafe(was: Directory, cared: set<Path>, wanted: Wanted, root: nat, now: Directory, tracked: set<Path>,
                    created: set<Path>)
    requires Phase(was, cared, wanted, root, now, tracked, created)
    ensures Safe(was, cared, wanted, root, now, tracked)
    ensures SameGoal(was, cared, wanted, root, now, tracked)
  {
    forall p ensures IsFile(now, p) <==> IsFile(was, p) {}
    assert Created(now, wanted) == Created(was, wanted);
    forall p | p in now ensures Stale(now, tracked, wanted, root, p) <==> Stale(was, cared, wanted, root, p) {}
  }

  /** A phase with every wanted link made and every stale one gone is the end. */
  lemma LastPhase(was: Directory, cared: set<Path>, wanted: Wanted, root: nat, now: Directory, tracked: set<Path>)
    requires Phase(was, cared, wanted, root, now, tracked, Created(was, wanted))
    requires forall p :: Stale(was, cared, wanted, root, p) ==> p !in now
    ensures now == Final(was, cared, wanted, root)
    ensures Phase(was, cared, wanted, root, now, Created(was, wanted), Created(was, wanted))
  {
    var final := Final(was, cared, wanted, root);
    forall p | p in Created(was, wanted) ensures p in now && p in final { assert Live(now, wanted, p); }
    forall p | p !in Created(was, wanted) ensures p in now <==> p in final {
      assert Stale(was, cared, wanted, root, p) ==> p !in now;
    }
    forall p | p in now ensures now[p] == final[p] {}
  }

  /** Making one more wanted link under the plan. */
  lemma PublishOne(was: Directory, cared: set<Path>, wanted: Wanted, root: nat, now: Directory, created: set<Path>, p: Path)
    requires Phase(was, cared, wanted, root, now, Recovered(now, Plan(cared, wanted)), created)
    requires p in wanted && wanted[p].root == root && !IsFile(now, p) && !IsFile(was, p)
    ensures var next := now[p := Symlink(wanted[p])];
      Phase(was, cared, wanted, root, next, Recovered(next, Plan(cared, wanted)), created + {p})
  {
    var next := now[p := Symlink(wanted[p])];
    var plan := Plan(cared, wanted);
    forall q | q in cared && Owned(next, root, q) ensures q in Recovered(next, plan) {}
    forall q | q in created + {p} ensures q in Recovered(next, plan) { assert Live(next, wanted, q); }
  }

  lemma PublishNone(was: Directory, cared: set<Path>, wanted: Wanted, root: nat)
    ensures Phase(was, cared, wanted, root, was, Recovered(was, Plan(cared, wanted)), {})
    ensures Phase(was, cared, wanted, root, was, cared, {})
  {
  }

  /** Removing one stale link that the dependency still owns. */
  lemma RetireOne(was: Directory, cared: set<Path>, wanted: Wanted, root: nat, now: Directory, tracked: set<Path>, p: Path)
    requires Phase(was, cared, wanted, root, now, tracked, Created(was, wanted))
    requires p in cared - Created(was, wanted) && Owned(now, root, p)
    ensures Phase(was, cared, wanted, root, now - {p}, tracked, Created(was, wanted))
  {
    assert now[p] == was[p] && Stale(was, cared, wanted, root, p);
  }

  /** What is left when prune recovers and removes every link it answers for. */
  function Pruned(now: Directory, tracked: set<Path>, root: nat): Directory {
    map p | p in now && !(p in tracked && Owned(now, root, p)) :: now[p]
  }

  /** A relink cut short anywhere, its dependency then dropped from the config:
      prune leaves nothing behind that the relink made or that was tracked before,
      and all that it leaves was there to begin with. */
  lemma PruneAfterDeath(was: Directory, cared: set<Path>, wanted: Wanted, root: nat, now: Directory, tracked: set<Path>)
    requires Safe(was, cared, wanted, root, now, tracked) && forall p :: p in wanted ==> wanted[p].root == root
    ensures forall p :: p in Pruned(now, tracked, root) ==>
      p in was && Pruned(now, tracked, root)[p] == was[p] && !(p in cared && Owned(was, root, p))
    ensures forall p :: p in was && p !in wanted && !(p in cared && Owned(was, root, p)) ==> p in Pruned(now, tracked, root)
  {
    forall p | p in Pruned(now, tracked, root) ensures p in was && now[p] == was[p] {
      if Live(now, wanted, p) && !Live(was, wanted, p) { assert p in tracked && Owned(now, root, p); }
    }
  }

  /** What became of one wanted link. */
  datatype Link = MissingSource | Preserved | Made

  class Disk {
    var public: Directory
    var ledger: set<Path>
    var plan: Option<Plan>
    var steps: nat

    // ----- durable writes: each happens whole, or the process is already dead -----

    method WriteLedger(links: set<Path>) returns (alive: bool)
      modifies this
      ensures alive == (old(steps) > 0) && steps == (if alive then old(steps) - 1 else 0)
      ensures ledger == (if alive then links else old(ledger)) && public == old(public) && plan == old(plan)
    {
      alive := steps > 0;
      if alive { ledger, steps := links, steps - 1; }
    }

    method WritePlan(p: Option<Plan>) returns (alive: bool)
      modifies this
      ensures alive == (old(steps) > 0) && steps == (if alive then old(steps) - 1 else 0)
      ensures plan == (if alive then p else old(plan)) && public == old(public) && ledger == old(ledger)
    {
      alive := steps > 0;
      if alive { plan, steps := p, steps - 1; }
    }

    /** `one`: without an executable source nothing happens, a regular file is
        preserved, anything else is replaced atomically. */
    method One(p: Path, target: Target, executable: bool) returns (alive: bool, link: Link)
      modifies this
      ensures alive == (!executable || old(steps) > 0)
      ensures steps == if executable && alive then old(steps) - 1 else old(steps)
      ensures alive ==> link == if !executable then MissingSource else if IsFile(old(public), p) then Preserved else Made
      ensures public == if alive && link.Made? then old(public)[p := Symlink(target)] else old(public)
      ensures plan == old(plan) && ledger == old(ledger)
    {
      alive, link := true, MissingSource;
      if !executable { return; }
      alive := steps > 0;
      if alive {
        steps, link := steps - 1, Preserved;
        if !IsFile(public, p) { public, link := public[p := Symlink(target)], Made; }
      }
    }

    /** `unlink_owned_symlink` removes a link only into the given root. */
    method UnlinkOwned(p: Path, root: nat) returns (alive: bool)
      modifies this
      ensures alive == (old(steps) > 0) && steps == (if alive then old(steps) - 1 else 0)
      ensures public == (if alive && Owned(old(public), root, p) then old(public) - {p} else old(public))
      ensures plan == old(plan) && ledger == old(ledger)
    {
      alive := steps > 0;
      if alive {
        steps := steps - 1;
        if Owned(public, root, p) { public := public - {p}; }
      }
    }

    // ----- recovery and planning -----

    /** `recover_reconcile`: the ledger takes over from the plan before it goes. */
    method RecoverReconcile() returns (alive: bool)
      modifies this
      ensures public == old(public)
      ensures Tracked(public, ledger, plan) == old(Tracked(public, ledger, plan))
      ensures alive ==> plan.None? && ledger == old(Tracked(public, ledger, plan)) && old(steps) <= steps + 2
      ensures alive && old(plan.None?) ==> ledger == old(ledger)
      ensures alive && old(plan.Some?) ==> forall p :: p in ledger <==>
        p in public && public[p].Symlink?
        && (p in old(plan).value.prior
            || (p in old(plan).value.wanted && public[p].target == old(plan).value.wanted[p]))
      ensures !alive ==> old(steps) < 2
    {
      if plan.None? { return true; }
      var recovered: set<Path> := {};
      var todo := plan.value.prior;
      while todo != {}
        invariant todo <= plan.value.prior
        invariant recovered == set p | p in plan.value.prior - todo && IsSymlink(public, p)
        invariant unchanged(this)
      {
        var p :| p in todo;
        if IsSymlink(public, p) { recovered := recovered + {p}; }
        todo := todo - {p};
      }
      ghost var fromPrior := recovered;
      todo := plan.value.wanted.Keys;
      while todo != {}
        invariant todo <= plan.value.wanted.Keys
        invariant recovered == fromPrior + set p | p in plan.value.wanted.Keys - todo && Live(public, plan.value.wanted, p)
        invariant unchanged(this)
      {
        var p :| p in todo;
        if Live(public, plan.value.wanted, p) { recovered := recovered + {p}; }
        todo := todo - {p};
      }
      assert recovered == Recovered(public, plan.value);
      alive := WriteLedger(recovered);
      if alive { alive := WritePlan(None); }
    }

    /** `begin_reconcile`: recover, read the ledger, and publish the plan. */
    method BeginReconcile(wanted: Wanted) returns (alive: bool, prior: Option<set<Path>>)
      modifies this
      ensures public == old(public)
      ensures !alive ==> Tracked(public, ledger, plan) == old(Tracked(public, ledger, plan)) && old(steps) < 3
      ensures alive ==> old(steps) <= steps + 3 && ledger == old(Tracked(public, ledger, plan))
      ensures alive ==> (prior.Some? <==> Valid(ledger, wanted))
      ensures alive && prior.None? ==> plan.None?
      ensures alive && prior.Some? ==>
        && prior == Some(ledger)
        && plan == if ledger == {} && wanted == map[] then None else Some(Plan(ledger, wanted))
    {
      prior := None;
      alive := RecoverReconcile();
      if !alive || !Valid(ledger, wanted) { return; }
      prior := Some(ledger);
      if ledger != {} || wanted != map[] { alive := WritePlan(Some(Plan(ledger, wanted))); }
    }

    // ----- from_dir -----

    /** The desired-first half: under the plan every made link is answered for. */
    method PublishAll(wanted: Wanted, root: nat) returns (alive: bool, created: set<Path>)
      requires forall p :: p in wanted ==> wanted[p].root == root
      requires plan == Some(Plan(ledger, wanted))
      modifies this
      ensures ledger == old(ledger) && plan == old(plan)
      ensures Phase(old(public), ledger, wanted, root, public, Recovered(public, plan.value), created)
      ensures forall p :: p in old(public) ==> p in public
      ensures alive ==> created == Created(old(public), wanted) && old(steps) <= steps + |wanted.Keys|
      ensures !alive ==> old(steps) < |wanted.Keys|
    {
      alive, created := true, {};
      var todo := wanted.Keys;
      PublishNone(public, ledger, wanted, root);
      while todo != {}
        invariant todo <= wanted.Keys
        invariant created == set p | p in wanted.Keys - todo && !IsFile(old(public), p)
        invariant old(steps) <= steps + |wanted.Keys| - |todo|
        invariant ledger == old(ledger) && plan == old(plan)
        invariant forall p :: p in old(public) ==> p in public
        invariant Phase(old(public), ledger, wanted, root, public, Recovered(public, plan.value), created)
      {
        var p :| p in todo;
        if !IsFile(public, p) { PublishOne(old(public), ledger, wanted, root, public, created, p); }
        var link;
        alive, link := One(p, wanted[p], true);
        if !alive { return; }
        if link.Made? { created := created + {p}; }
        todo := todo - {p};
      }
    }

    /** Everything up to the moment the ledger takes over from the plan. */
    method PublishAndCover(wanted: Wanted, root: nat) returns (alive: bool, created: set<Path>)
      requires forall p :: p in wanted ==> wanted[p].root == root
      requires plan == if ledger == {} && wanted == map[] then None else Some(Plan(ledger, wanted))
      modifies this
      ensures Phase(old(public), old(ledger), wanted, root, public, Tracked(public, ledger, plan), created)
      ensures alive ==>
        plan.None? && created == Created(old(public), wanted) && old(steps) <= steps + |wanted.Keys| + 2
      ensures !alive ==> old(steps) < |wanted.Keys| + 2
    {
      PublishNone(public, ledger, wanted, root);
      alive, created := true, {};
      if plan.Some? {
        alive, created := PublishAll(wanted, root);
        if !alive { return; }
      }
      alive := RecoverReconcile();
    }

    /** The retiring half: the ledger already covers what was made. */
    method RetireAll(wanted: Wanted, root: nat, stale: set<Path>, ghost was: Directory, ghost cared: set<Path>)
      returns (alive: bool)
      requires plan.None? && stale <= cared - Created(was, wanted)
      requires Phase(was, cared, wanted, root, public, ledger, Created(was, wanted))
      modifies this
      ensures ledger == old(ledger) && plan == old(plan)
      ensures Phase(was, cared, wanted, root, public, ledger, Created(was, wanted))
      ensures alive ==> (forall p :: p in stale ==> !Owned(public, root, p)) && old(steps) <= steps + |stale|
      ensures !alive ==> old(steps) < |stale|
    {
      alive := true;
      var todo := stale;
      while todo != {}
        invariant todo <= stale && ledger == old(ledger) && plan == old(plan)
        invariant Phase(was, cared, wanted, root, public, ledger, Created(was, wanted))
        invariant forall p :: p in stale - todo ==> !Owned(public, root, p)
        invariant old(steps) <= steps + |stale| - |todo|
      {
        var p :| p in todo;
        if Owned(public, root, p) { RetireOne(was, cared, wanted, root, public, ledger, p); }
        ghost var before := public;
        alive := UnlinkOwned(p, root);
        if !alive { return; }
        assert forall q :: Owned(public, root, q) ==> Owned(before, root, q) && q != p;
        todo := todo - {p};
      }
    }

    /** `from_dir`, after its scan.  At whatever write it dies, the disk is safe and
        a rerun is headed for the same end; a relink that is neither cut short nor
        refused is at that end. */
    method Reconcile(wanted: Wanted, root: nat) returns (r: Outcome)
      requires forall p :: p in wanted ==> wanted[p].root == root
      modifies this
      ensures Safe(old(public), old(Tracked(public, ledger, plan)), wanted, root, public, Tracked(public, ledger, plan))
      ensures
        SameGoal(old(public), old(Tracked(public, ledger, plan)), wanted, root, public, Tracked(public, ledger, plan))
      ensures r.Linked? ==>
        && public == Final(old(public), old(Tracked(public, ledger, plan)), wanted, root)
        && plan.None? && ledger == r.created == Created(old(public), wanted)
      ensures !r.Unscanned?
      ensures !r.Died? ==> (r.Refused? <==> !Valid(old(Tracked(public, ledger, plan)), wanted))
      ensures r.Refused? ==> public == old(public)
      ensures r.Died? ==> old(steps) < 6 + |wanted.Keys| + |old(Tracked(public, ledger, plan))|
    {
      ghost var was, cared := public, Tracked(public, ledger, plan);
      PublishNone(was, cared, wanted, root);
      PhaseIsSafe(was, cared, wanted, root, public, cared, {});
      var alive, prior := BeginReconcile(wanted);
      if !alive { return Died; }
      if prior.None? { return Refused; }
      assert ledger == cared;
      var created;
      alive, created := PublishAndCover(wanted, root);
      PhaseIsSafe(was, cared, wanted, root, public, Tracked(public, ledger, plan), created);
      if !alive { return Died; }
      alive := RetireAll(wanted, root, prior.value - created, was, cared);
      PhaseIsSafe(was, cared, wanted, root, public, ledger, created);
      if !alive { return Died; }
      forall p | Stale(was, cared, wanted, root, p) ensures p !in public {
        assert p in prior.value - created;
        if p in public { assert public[p] == was[p] && Owned(public, root, p); }
      }
      LastPhase(was, cared, wanted, root, public, ledger);
      PhaseIsSafe(was, cared, wanted, root, public, created, created);
      alive := WriteLedger(created);
      if !alive { return Died; }
      return Linked(created);
    }

    /** A failed scan changes nothing at all.  A relink that finishes has made a link
        for exactly the executable commands that no regular file occupies, has taken
        away exactly the other links into its root that it answered for, and has
        left everything else. */
    method FromDir(entries: seq<Scanned>, root: nat) returns (r: Outcome)
      modifies this
      ensures Broken in entries <==> r.Unscanned?
      ensures r.Unscanned? ==> unchanged(this)
      ensures Broken !in entries ==>
        var wanted, cared := AskedFor(entries, root), old(Tracked(public, ledger, plan));
        var tracked := Tracked(public, ledger, plan);
        && Safe(old(public), cared, wanted, root, public, tracked)
        && SameGoal(old(public), cared, wanted, root, public, tracked)
        && (!r.Died? ==> (r.Refused? <==> !Valid(cared, wanted)))
        && (r.Refused? ==> public == old(public))
        && (r.Linked? ==>
              && public == Final(old(public), cared, wanted, root)
              && plan.None? && ledger == r.created == Created(old(public), wanted))
        && (r.Died? ==> old(steps) < 6 + |wanted.Keys| + |cared|)
      ensures r.Linked? ==> forall c :: c in r.created <==>
        Found(Some(c), true) in entries && !(c in old(public) && old(public)[c].File?)
      ensures r.Linked? ==> forall p :: p in r.created ==> p in public && public[p] == Symlink(Target(root, p))
      ensures r.Linked? ==> forall p :: p !in r.created ==>
        (p in public <==> p in old(public) && !Withdrawable(old(public), old(Tracked(public, ledger, plan)), root, p))
      ensures r.Linked? ==> forall p :: p !in r.created && p in public ==> public[p] == old(public)[p]
      ensures !r.Died? && Broken !in entries ==>
        (r.Refused? <==> exists p :: (p in old(Tracked(public, ledger, plan)) || Found(Some(p), true) in entries) && LineBreak(p))
    {
      var wanted := Inventory(entries, root);
      if wanted.None? { return Unscanned; }
      ghost var was, cared := public, Tracked(public, ledger, plan);
      r := Reconcile(wanted.value, root);
      RefusedExactly(cared, wanted.value, root);
    }

    /** Reruns converge: however many relinks die, and wherever, the first one that
        finishes leaves the directory and the ledger that a single undisturbed
        relink of the original disk would have left. */
    method Reruns(wanted: Wanted, root: nat, lives: seq<nat>) returns (r: Outcome)
      requires forall p :: p in wanted ==> wanted[p].root == root
      modifies this
      ensures r.Linked? ==>
        && public == Final(old(public), old(Tracked(public, ledger, plan)), wanted, root)
        && plan.None? && ledger == r.created == Created(old(public), wanted)
      ensures
        SameGoal(old(public), old(Tracked(public, ledger, plan)), wanted, root, public, Tracked(public, ledger, plan))
    {
      r := Died;
      for i := 0 to |lives|
        invariant r.Died?
        invariant
          SameGoal(old(public), old(Tracked(public, ledger, plan)), wanted, root, public, Tracked(public, ledger, plan))
      {
        steps := lives[i];
        r := Reconcile(wanted, root);
        if !r.Died? { return; }
      }
    }
  }
}
