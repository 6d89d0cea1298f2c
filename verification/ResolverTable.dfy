/** The resolver's decision as one table of rules in order of priority, in terms of
    the clock, the manifest row, the remote answer and the text of the cache file;
    the staged decision of `Resolver` agrees with it on every input. */
module ResolverTable {
  import opened Wrappers
  import opened ResolverCache
  import opened Resolver
  import opened ResolverBatch

  // ----- the cache file and the clock -----

  /** The text a decision is filed as. */
  lemma FiledText(cmd: string)
    ensures Print(ReleaseChosen, cmd) == "github:release\ncmd=" + cmd + "\n"
    ensures Print(NoAsset, cmd) == "github:repo:no-compatible-release\ncmd=" + cmd + "\n"
    ensures Print(LastKnown, cmd) == "github:repo:last-known\ncmd=" + cmd + "\n"
  {
    Glued("github:release", cmd);
    Glued("github:repo:no-compatible-release", cmd);
    Glued("github:repo:last-known", cmd);
  }

  lemma Glued(marker: string, cmd: string)
    ensures marker + "\n" + (CMD + cmd + "\n") == marker + "\ncmd=" + cmd + "\n"
  {
    assert "\n" + CMD == "\ncmd=";
    assert marker + "\n" + (CMD + cmd + "\n") == marker + ("\n" + CMD) + cmd + "\n";
  }

  /** An unforced run trusts a stamp from the second it is written, or five minutes
      earlier by a clock that was turned back, up to the time to live after it. */
  lemma StampCounts(stamp: nat, o: Options)
    requires stamp <= MAX_U64
    ensures Fresh(Some(stamp), o) <==>
      !o.force && !o.reinstall && stamp <= o.now + 300 && o.now < stamp + o.ttl && 0 < o.ttl
  {
  }

  /** Without a stamp that is a 64-bit number, or forced, nothing is trusted. */
  predicate Trusts(f: Files, o: Options) {
    && !o.force && !o.reinstall && f.stamp.Some? && f.stamp.value < 0x1_0000_0000_0000_0000 && 0 < o.ttl
    && f.stamp.value <= o.now + 300 && o.now < f.stamp.value + o.ttl
  }

  /** The first line of the cache file, if a line for this command follows. */
  function CachedFor(f: Files, cmd: string): Option<Marker> {
    if f.choice.None? then None
    else
      var cached := Parse(f.choice.value);
      if cached.cmd == Some(cmd) then Some(cached.marker) else None
  }

  // ----- the table -----

  predicate RowIs(e: Entry, h: Host, kind: Method) {
    e.name in h.manifest && h.manifest[e.name].cmd == e.cmd && h.manifest[e.name].kind == kind
  }

  predicate CheckoutOnPath(e: Entry, h: Host) { RowIs(e, h, GithubRepo) && h.manifest[e.name].checkoutVisible }

  predicate Unforced(o: Options) { !o.force && !o.reinstall }

  /** The rule that applies, the first in this order. */
  function Expected(f: Files, e: Entry, h: Host, o: Options): Decision {
    var owned := RowIs(e, h, GithubRelease);
    var cached := CachedFor(f, e.cmd);
    var release := "github:release\ncmd=" + e.cmd + "\n";
    var noAsset := "github:repo:no-compatible-release\ncmd=" + e.cmd + "\n";
    var lastKnown := "github:repo:last-known\ncmd=" + e.cmd + "\n";
    // a dependency of other hosts is never looked up
    if e.filter !in h.matching then Decision(GithubRepo, f)
    // a trusted answer for this command
    else if Trusts(f, o) && cached == Some(ReleaseChosen) then Decision(GithubRelease, f)
    else if Trusts(f, o) && cached == Some(NoAsset) && !owned then Decision(GithubRepo, f)
    else if Trusts(f, o) && cached == Some(LastKnown) && CheckoutOnPath(e, h) then Decision(GithubRepo, f)
    // the installed checkout, unless a trusted cache file could not be used
    else if Unforced(o) && CheckoutOnPath(e, h) && !(Trusts(f, o) && f.choice.Some?) then
      Decision(GithubRepo, Files(Some(lastKnown), Some(o.now), f.releaseStamp, f.releases))
    // the installed release is the latest one
    else if owned && !o.reinstall && h.manifest[e.name].versionKnown && e.name in h.confirmed then
      Decision(GithubRelease, Files(Some(release), Some(o.now), Some(o.now), None))
    // the remote answered
    else if e.name in h.published && e.cmd in h.published[e.name].serves then
      Decision(GithubRelease, Files(Some(release), Some(o.now), f.releaseStamp, Some(h.published[e.name])))
    else if e.name in h.published && owned then
      Decision(GithubRelease, Files(Some(release), None, None, None))
    else if e.name in h.published then
      Decision(GithubRepo, Files(Some(noAsset), Some(o.now), f.releaseStamp, Some(h.published[e.name])))
    // it did not: what is owned or was answered last, however old
    else if owned || cached == Some(ReleaseChosen) then Decision(GithubRelease, f)
    else if cached == Some(NoAsset) || cached == Some(LastKnown) then Decision(GithubRepo, f)
    else if f.choice.Some? && Parse(f.choice.value).marker.LegacyRepo? then Decision(GithubRepo, f)
    // and with no signal at all the checkout, or its bare default
    else if Unforced(o) && CheckoutOnPath(e, h) then
      Decision(GithubRepo, Files(Some(lastKnown), Some(o.now), f.releaseStamp, f.releases))
    else Decision(GithubRepo, f)
  }

  lemma TrustsIsFresh(f: Files, o: Options)
    ensures Trusts(f, o) <==> Fresh(f.stamp, o)
  {
    if f.stamp.Some? && f.stamp.value <= MAX_U64 { StampCounts(f.stamp.value, o); }
  }

  lemma MarkerIsCached(f: Files, e: Entry, allowLegacy: bool)
    ensures var m := ReadMarker(f, e, allowLegacy);
      && (m == Some(ReleaseChosen) <==> CachedFor(f, e.cmd) == Some(ReleaseChosen))
      && (m == Some(NoAsset) <==> CachedFor(f, e.cmd) == Some(NoAsset))
      && (m == Some(LastKnown) <==> CachedFor(f, e.cmd) == Some(LastKnown))
      && (m == Some(LegacyRepo) <==> allowLegacy && f.choice.Some? && Parse(f.choice.value).marker.LegacyRepo?)
      && m != Some(Unreadable)
  {
  }

  /** For all files, entries, hosts, remote answers, clocks and options, the resolver
      decides and leaves the files as the table says. */
  lemma ResolvesByTheTable(f: Files, e: Entry, h: Host, o: Options)
    ensures Resolve(f, e, h, o) == Expected(f, e, h, o)
  {
    FiledText(e.cmd);
    TrustsIsFresh(f, o);
    MarkerIsCached(f, e, false);
    MarkerIsCached(f, e, true);
  }

  /** An answer of the remote decides: the release exactly when it is served or owned,
      and the files say what was answered, except that an owned release without an
      asset leaves neither stamp nor list. */
  lemma AnswerDecides(f: Files, e: Entry, h: Host, o: Options)
    requires Asks(f, e, h, o) && !ConfirmedCurrent(e, h, o) && e.name in h.published
    ensures var d, list := Resolve(f, e, h, o), h.published[e.name];
      && d.kind == (if e.cmd in list.serves || RowIs(e, h, GithubRelease) then GithubRelease else GithubRepo)
      && (e.cmd in list.serves || !RowIs(e, h, GithubRelease) ==>
            d.files.releases == Some(list) && d.files.stamp == Some(o.now) && d.files.releaseStamp == f.releaseStamp)
      && (e.cmd !in list.serves && RowIs(e, h, GithubRelease) ==>
            d.files.releases.None? && d.files.stamp.None? && d.files.releaseStamp.None?)
      && (d.kind.GithubRelease? ==> d.files.choice == Some("github:release\ncmd=" + e.cmd + "\n"))
      && (d.kind.GithubRepo? ==> d.files.choice == Some("github:repo:no-compatible-release\ncmd=" + e.cmd + "\n"))
  {
    FiledText(e.cmd);
  }

  /** What both ways of resolving a list of entries leave and answer: a bare `github`
      entry by the table, over its own name's files; any other entry, and the files
      of any other name, as they were. */
  lemma EntriesByTheTable(was: map<string, Files>, entries: seq<Entry>, h: Host, o: Options,
                          now: map<string, Files>, resolved: seq<Entry>, i: nat)
    requires Outcome(was, entries, h, o, now, resolved) && i < |entries|
    ensures |resolved| == |entries|
    ensures var e := entries[i];
      if e.kind == Github then
        var d := Expected(if e.name in was then was[e.name] else Files(None, None, None, None), e, h, o);
        && resolved[i] == Entry(e.name, d.kind, e.cmd, e.filter)
        && (if e.name in now then now[e.name] else Files(None, None, None, None)) == d.files
      else resolved[i] == e
  {
    if entries[i].kind == Github { ResolvesByTheTable(At(was, entries[i].name), entries[i], h, o); }
  }

  lemma OthersStay(was: map<string, Files>, entries: seq<Entry>, h: Host, o: Options,
                   now: map<string, Files>, resolved: seq<Entry>, name: string)
    requires Outcome(was, entries, h, o, now, resolved)
    requires forall i :: 0 <= i < |entries| && entries[i].kind == Github ==> entries[i].name != name
    ensures At(now, name) == At(was, name)
  {
  }
}
