/** The resolver at work on the state directory: entry by entry, and as a batch that
    settles what it can locally, asks the remote about the rest side by side, and
    applies the answers in order. */
module ResolverBatch {
  import opened Wrappers
  import opened ResolverCache
  import opened Resolver

  function At(files: map<string, Files>, name: string): Files { if name in files then files[name] else NO_FILES }

  /** Only this name's files change, and they become `f`. */
  ghost predicate Becomes(was: map<string, Files>, now: map<string, Files>, name: string, f: Files) {
    At(now, name) == f && forall n :: n != name ==> At(now, n) == At(was, n)
  }

  predicate Bare(e: Entry) { e.kind.Github? }

  function Resolved(files: map<string, Files>, e: Entry, h: Host, o: Options): Entry {
    if Bare(e) then e.(kind := Resolve(At(files, e.name), e, h, o).kind) else e
  }

  /** What resolving all entries is to leave and to answer, name by name. */
  ghost predicate Outcome(was: map<string, Files>, entries: seq<Entry>, h: Host, o: Options,
                          now: map<string, Files>, resolved: seq<Entry>)
  {
    && |resolved| == |entries|
    && (forall i :: 0 <= i < |entries| ==> resolved[i] == Resolved(was, entries[i], h, o))
    && (forall i :: 0 <= i < |entries| && Bare(entries[i]) ==>
          At(now, entries[i].name) == Resolve(At(was, entries[i].name), entries[i], h, o).files)
    && (forall n :: (forall i :: 0 <= i < |entries| && Bare(entries[i]) ==> entries[i].name != n) ==> At(now, n) == At(was, n))
  }

  predicate Distinct(entries: seq<Entry>) {
    forall i, j :: 0 <= i < j < |entries| && Bare(entries[i]) && Bare(entries[j]) ==> entries[i].name != entries[j].name
  }

  /** The outcome is one: the batch and the entry-by-entry resolver agree. */
  lemma OutcomeIsUnique(was: map<string, Files>, entries: seq<Entry>, h: Host, o: Options,
                        f: map<string, Files>, r: seq<Entry>, g: map<string, Files>, s: seq<Entry>)
    requires Outcome(was, entries, h, o, f, r) && Outcome(was, entries, h, o, g, s)
    ensures r == s && forall n :: At(f, n) == At(g, n)
  {
    forall n ensures At(f, n) == At(g, n) {
      if i :| 0 <= i < |entries| && Bare(entries[i]) && entries[i].name == n {
        assert At(f, entries[i].name) == At(g, entries[i].name);
      }
    }
  }

  /** One remote check, made on a worker thread. */
  datatype Probe = Probe(current: bool, releases: Option<Releases>)

  function ProbeOf(e: Entry, h: Host, o: Options): Probe {
    if ConfirmedCurrent(e, h, o) then Probe(true, None) else Probe(false, Fetched(e, h))
  }

  class StateDir {
    var files: map<string, Files>

    // ----- single state files -----

    method WriteMethod(e: Entry, m: Marker)
      requires !m.Unreadable?
      modifies this
      ensures Becomes(old(files), files, e.name, Record(At(old(files), e.name), m, e))
    {
      files := files[e.name := At(files, e.name).(choice := Some(Print(m, e.cmd)))];
    }

    method Touch(name: string, now: Option<nat>)
      modifies this
      ensures Becomes(old(files), files, name, At(old(files), name).(stamp := now))
    {
      files := files[name := At(files, name).(stamp := now)];
    }

    method TouchRelease(name: string, now: Option<nat>)
      modifies this
      ensures Becomes(old(files), files, name, At(old(files), name).(releaseStamp := now))
    {
      files := files[name := At(files, name).(releaseStamp := now)];
    }

    method WriteReleases(name: string, list: Option<Releases>)
      modifies this
      ensures Becomes(old(files), files, name, At(old(files), name).(releases := list))
    {
      files := files[name := At(files, name).(releases := list)];
    }

    // ----- the steps of one resolution -----

    method InvalidateReleaseChecks(name: string)
      modifies this
      ensures Becomes(old(files), files, name, At(old(files), name).(stamp := None, releaseStamp := None, releases := None))
    {
      Touch(name, None);
      TouchRelease(name, None);
      WriteReleases(name, None);
    }

    method SeedFromManifest(e: Entry, h: Host, o: Options, allowRelease: bool) returns (kind: Option<Method>)
      modifies this
      ensures var d := Seed(At(old(files), e.name), e, h, o, allowRelease);
        && (kind == if d.Some? then Some(d.value.kind) else None)
        && Becomes(old(files), files, e.name, if d.Some? then d.value.files else At(old(files), e.name))
    {
      kind := None;
      if o.force || o.reinstall || !HasRow(e, h) { return; }
      var row := h.manifest[e.name];
      if row.kind.GithubRelease? && allowRelease && row.releaseVisible { return Some(GithubRelease); }
      if row.kind.GithubRepo? && row.checkoutVisible {
        WriteMethod(e, LastKnown);
        Touch(e.name, Some(o.now));
        return Some(GithubRepo);
      }
    }

    method ResolveLocal(e: Entry, h: Host, o: Options) returns (kind: Option<Method>)
      modifies this
      ensures var d := Local(At(old(files), e.name), e, h, o);
        && (kind == if d.Some? then Some(d.value.kind) else None)
        && Becomes(old(files), files, e.name, if d.Some? then d.value.files else At(old(files), e.name))
    {
      var f := At(files, e.name);
      if Fresh(f.stamp, o) {
        var marker := ReadMarker(f, e, false);
        if marker.Some? {
          kind := Usable(marker.value, e, h);
          if kind.Some? { return; }
        }
        if f.choice.Some? { return None; }
      }
      kind := SeedFromManifest(e, h, o, false);
    }

    method ResolveRemote(e: Entry, h: Host, o: Options, answer: Option<Releases>) returns (kind: Method)
      modifies this
      ensures var d := Remote(At(old(files), e.name), e, h, o, answer);
        kind == d.kind && Becomes(old(files), files, e.name, d.files)
    {
      match answer
      case Some(list) =>
        if e.cmd !in list.serves && ReleaseOwned(e, h) {
          InvalidateReleaseChecks(e.name);
          WriteMethod(e, ReleaseChosen);
          return GithubRelease;
        }
        WriteReleases(e.name, Some(list));
        WriteMethod(e, if e.cmd in list.serves then ReleaseChosen else NoAsset);
        Touch(e.name, Some(o.now));
        return if e.cmd in list.serves then GithubRelease else GithubRepo;
      case None =>
        if ReleaseOwned(e, h) { return GithubRelease; }
        var last := ReadMarker(At(files, e.name), e, true);
        if last.Some? { return Usable(last.value, e, h).GetOr(GithubRepo); }
        var seed := SeedFromManifest(e, h, o, true);
        return seed.GetOr(GithubRepo);
    }

    /** What follows a remote check: a confirmed release, or the list's verdict. */
    method ApplyProbe(e: Entry, h: Host, o: Options, probe: Probe) returns (kind: Method)
      requires probe == ProbeOf(e, h, o)
      modifies this
      ensures var d := Ask(At(old(files), e.name), e, h, o);
        kind == d.kind && Becomes(old(files), files, e.name, d.files)
    {
      if probe.current {
        WriteReleases(e.name, None);
        WriteMethod(e, ReleaseChosen);
        Touch(e.name, Some(o.now));
        TouchRelease(e.name, Some(o.now));
        return GithubRelease;
      }
      kind := ResolveRemote(e, h, o, probe.releases);
    }

    // ----- one entry after the other -----

    method ResolveMethod(e: Entry, h: Host, o: Options) returns (kind: Method)
      modifies this
      ensures var d := Resolve(At(old(files), e.name), e, h, o);
        kind == d.kind && Becomes(old(files), files, e.name, d.files)
    {
      if !Active(e, h) { return GithubRepo; }
      var found := ResolveLocal(e, h, o);
      if found.Some? { return found.value; }
      kind := ApplyProbe(e, h, o, ProbeOf(e, h, o));
    }

    method ResolveEntries(entries: seq<Entry>, h: Host, o: Options) returns (resolved: seq<Entry>)
      requires Distinct(entries)
      modifies this
      ensures Outcome(old(files), entries, h, o, files, resolved)
    {
      resolved := [];
      ghost var slots: seq<Option<Entry>> := seq(|entries|, _ => None);
      for i := 0 to |entries|
        invariant |resolved| == i && Partial(old(files), entries, h, o, files, slots)
        invariant forall j :: 0 <= j < i ==> slots[j] == Some(resolved[j])
        invariant forall j :: i <= j < |entries| ==> slots[j].None?
      {
        var e, was := entries[i], files;
        var next := e;
        if Bare(e) {
          Untouched(old(files), entries, h, o, files, slots, i);
          var kind := ResolveMethod(e, h, o);
          next := e.(kind := kind);
        }
        SettleOne(old(files), entries, i, h, o, was, files, slots, next);
        slots := slots[i := Some(next)];
        resolved := resolved + [next];
      }
      AllSettled(old(files), entries, h, o, files, slots, resolved);
    }

    // ----- the batch -----

    /** The first pass: entries that need no remote answer are settled, in order;
        the rest are candidates, their files untouched. */
    method SettleLocally(entries: seq<Entry>, h: Host, o: Options) returns (slots: seq<Option<Entry>>, remote: seq<nat>)
      requires Distinct(entries)
      modifies this
      ensures Partial(old(files), entries, h, o, files, slots)
      ensures Candidates(old(files), entries, h, o, slots, remote)
    {
      slots, remote := seq(|entries|, _ => None), [];
      for i := 0 to |entries|
        invariant Partial(old(files), entries, h, o, files, slots)
        invariant Candidates(old(files), entries[..i], h, o, slots[..i], remote)
        invariant |slots| == |entries| && forall j :: i <= j < |entries| ==> slots[j].None?
      {
        var e, was := entries[i], files;
        assert entries[..i + 1] == entries[..i] + [e];
        var found := Some(e.kind);
        if Bare(e) {
          assert At(files, e.name) == At(old(files), e.name) by { Untouched(old(files), entries, h, o, files, slots, i); }
          found := Some(GithubRepo);
          if Active(e, h) { found := ResolveLocal(e, h, o); }
        }
        if found.Some? {
          SettleOne(old(files), entries, i, h, o, was, files, slots, e.(kind := found.value));
          slots := slots[i := Some(e.(kind := found.value))];
        } else {
          Unsettled(old(files), entries, h, o, was, files, slots);
          remote := remote + [i];
        }
        assert slots[..i + 1] == slots[..i] + [slots[i]];
      }
      assert entries[..|entries|] == entries && slots[..|entries|] == slots;
    }

    /** The answers are applied in order, each to its own entry. */
    method ApplyAnswers(entries: seq<Entry>, h: Host, o: Options, settled: seq<Option<Entry>>, remote: seq<nat>,
                        probes: map<nat, Probe>, ghost start: map<string, Files>)
      returns (slots: seq<Option<Entry>>)
      requires Distinct(entries) && Partial(start, entries, h, o, files, settled)
      requires Candidates(start, entries, h, o, settled, remote)
      requires forall i :: i in remote ==> i < |entries| && i in probes && probes[i] == ProbeOf(entries[i], h, o)
      modifies this
      ensures Partial(start, entries, h, o, files, slots)
      ensures forall i :: 0 <= i < |slots| ==> slots[i].Some?
    {
      slots := settled;
      for k := 0 to |remote|
        invariant Partial(start, entries, h, o, files, slots)
        invariant forall i :: 0 <= i < |slots| ==> (slots[i].Some? <==> settled[i].Some? || i in remote[..k])
      {
        var i := remote[k];
        var e, was := entries[i], files;
        assert i !in remote[..k];
        Untouched(start, entries, h, o, files, slots, i);
        var kind := ApplyProbe(e, h, o, probes[i]);
        SettleOne(start, entries, i, h, o, was, files, slots, e.(kind := kind));
        slots := slots[i := Some(e.(kind := kind))];
        assert remote[..k + 1] == remote[..k] + [i];
      }
      assert remote[..|remote|] == remote;
    }

    /** `resolve_entries_with_progress`: worker threads check the candidates in any
        order, and the outcome is that of `ResolveEntries`. */
    method ResolveBatch(entries: seq<Entry>, h: Host, o: Options) returns (resolved: seq<Entry>)
      requires Distinct(entries)
      modifies this
      ensures Outcome(old(files), entries, h, o, files, resolved)
    {
      if forall i :: 0 <= i < |entries| ==> !Bare(entries[i]) || !Active(entries[i], h) {
        resolved := ResolveEntries(entries, h, o);
        return;
      }
      var slots, remote := SettleLocally(entries, h, o);
      var probes: map<nat, Probe> := map[];
      var todo := set i | i in remote;
      while todo != {}
        invariant todo <= set i | i in remote
        invariant forall i :: i in remote && i !in todo ==> i in probes && probes[i] == ProbeOf(entries[i], h, o)
      {
        var i :| i in todo;
        probes := probes[i := ProbeOf(entries[i], h, o)];
        todo := todo - {i};
      }
      slots := ApplyAnswers(entries, h, o, slots, remote, probes, old(files));
      resolved := seq(|slots|, i requires 0 <= i < |slots| && slots[i].Some? => slots[i].value);
      AllSettled(old(files), entries, h, o, files, slots, resolved);
    }
  }

  /** Some entries are settled: answered, and their files final; no other name's
      files have changed. */
  ghost predicate Partial(was: map<string, Files>, entries: seq<Entry>, h: Host, o: Options,
                          now: map<string, Files>, slots: seq<Option<Entry>>)
  {
    && |slots| == |entries|
    && (forall i :: 0 <= i < |slots| && slots[i].Some? ==>
          && slots[i].value == Resolved(was, entries[i], h, o)
          && (Bare(entries[i]) ==>
                At(now, entries[i].name) == Resolve(At(was, entries[i].name), entries[i], h, o).files))
    && (forall n :: (forall i :: 0 <= i < |slots| && slots[i].Some? && Bare(entries[i]) ==> entries[i].name != n)
          ==> At(now, n) == At(was, n))
  }

  /** The candidates are exactly the unsettled entries, and each has to ask. */
  ghost predicate Candidates(was: map<string, Files>, entries: seq<Entry>, h: Host, o: Options,
                             slots: seq<Option<Entry>>, remote: seq<nat>)
  {
    && |slots| == |entries|
    && (forall i :: 0 <= i < |slots| && slots[i].None? ==> i in remote)
    && (forall k :: 0 <= k < |remote| ==>
          && remote[k] < |entries| && slots[remote[k]].None? && Bare(entries[remote[k]])
          && Asks(At(was, entries[remote[k]].name), entries[remote[k]], h, o))
    && (forall k, l :: 0 <= k < l < |remote| ==> remote[k] < remote[l])
  }

  lemma Untouched(was: map<string, Files>, entries: seq<Entry>, h: Host, o: Options,
                  now: map<string, Files>, slots: seq<Option<Entry>>, i: nat)
    requires Distinct(entries) && Partial(was, entries, h, o, now, slots)
    requires i < |entries| && slots[i].None? && Bare(entries[i])
    ensures At(now, entries[i].name) == At(was, entries[i].name)
  {
    forall j | 0 <= j < |slots| && slots[j].Some? && Bare(entries[j]) ensures entries[j].name != entries[i].name {
      assert j != i;
    }
  }

  lemma Unsettled(start: map<string, Files>, entries: seq<Entry>, h: Host, o: Options,
                  was: map<string, Files>, now: map<string, Files>, slots: seq<Option<Entry>>)
    requires Partial(start, entries, h, o, was, slots) && forall n :: At(now, n) == At(was, n)
    ensures Partial(start, entries, h, o, now, slots)
  {
  }

  lemma SettleOne(start: map<string, Files>, entries: seq<Entry>, i: nat, h: Host, o: Options,
                  was: map<string, Files>, now: map<string, Files>, slots: seq<Option<Entry>>, answer: Entry)
    requires Distinct(entries) && i < |entries| && Partial(start, entries, h, o, was, slots) && slots[i].None?
    requires answer == Resolved(start, entries[i], h, o)
    requires if Bare(entries[i])
      then Becomes(was, now, entries[i].name, Resolve(At(start, entries[i].name), entries[i], h, o).files) else now == was
    ensures Partial(start, entries, h, o, now, slots[i := Some(answer)])
  {
    var e, more := entries[i], slots[i := Some(answer)];
    forall j | 0 <= j < |more| && more[j].Some? && Bare(entries[j])
      ensures At(now, entries[j].name) == Resolve(At(start, entries[j].name), entries[j], h, o).files
    {
      if j != i { assert slots[j] == more[j] && (Bare(e) ==> e.name != entries[j].name); }
    }
    forall n | forall j :: 0 <= j < |more| && more[j].Some? && Bare(entries[j]) ==> entries[j].name != n
      ensures At(now, n) == At(start, n)
    {
      assert more[i].Some?;
      forall j | 0 <= j < |slots| && slots[j].Some? && Bare(entries[j]) ensures entries[j].name != n {
        assert more[j].Some?;
      }
    }
  }

  /** When all are settled, that is the outcome. */
  lemma AllSettled(was: map<string, Files>, entries: seq<Entry>, h: Host, o: Options,
                   now: map<string, Files>, slots: seq<Option<Entry>>, resolved: seq<Entry>)
    requires Partial(was, entries, h, o, now, slots) && |resolved| == |slots|
    requires forall i :: 0 <= i < |slots| ==> slots[i] == Some(resolved[i])
    ensures Outcome(was, entries, h, o, now, resolved)
  {
    forall i | 0 <= i < |entries|
      ensures resolved[i] == Resolved(was, entries[i], h, o)
      ensures Bare(entries[i]) ==> At(now, entries[i].name) == Resolve(At(was, entries[i].name), entries[i], h, o).files
    {
      assert slots[i].Some?;
    }
  }
}
