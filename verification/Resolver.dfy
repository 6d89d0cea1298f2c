/** Resolving bare `github` entries to a concrete install method, from the cache,
    the manifest, or the remote answer; one entry after the other, or in a batch
    whose remote checks run side by side. */
module Resolver {
  import opened Wrappers
  import opened ResolverCache

  datatype Method = Github | GithubRelease | GithubRepo | Other(text: string)

  datatype Entry = Entry(name: string, kind: Method, cmd: string, filter: string)

  /** One manifest row, with what the host's probes say about it: whether the
      checkout's command is the one on the path, whether the release's file is
      executable, and whether its public command can be run and names its version. */
  datatype Row = Row(kind: Method, cmd: string, checkoutVisible: bool, releaseVisible: bool, versionKnown: bool)

  /** A releases answer: which commands have an asset for this host. */
  datatype Releases = Releases(id: nat, serves: set<string>)

  /** One run: the manifest and the filters that match this host, and what the
      remote says per URL -- the tags the latest-release redirects confirm, and
      the release lists that can be fetched. */
  datatype Host = Host(manifest: map<string, Row>, matching: set<string>,
                       confirmed: set<string>, published: map<string, Releases>)

  datatype Options = Options(force: bool, reinstall: bool, now: nat, ttl: nat)

  /** The state files of one dependency name. */
  datatype Files = Files(choice: Option<string>, stamp: Option<nat>, releaseStamp: Option<nat>, releases: Option<Releases>)

  const NO_FILES := Files(None, None, None, None)

  /** A method, and the files after deciding it. */
  datatype Decision = Decision(kind: Method, files: Files)

  const TOLERANCE := 300
  const MAX_U64 := 0xFFFF_FFFF_FFFF_FFFF

  /** `remote_fresh`, with its saturating arithmetic. */
  predicate Fresh(stamp: Option<nat>, o: Options) {
    && !o.force && !o.reinstall && stamp.Some?
    && stamp.value <= (if o.now + TOLERANCE > MAX_U64 then MAX_U64 else o.now + TOLERANCE)
    && (if o.now < stamp.value then 0 else o.now - stamp.value) < o.ttl
  }

  predicate Active(e: Entry, h: Host) { e.filter in h.matching }

  predicate HasRow(e: Entry, h: Host) { e.name in h.manifest && h.manifest[e.name].cmd == e.cmd }

  predicate ReleaseOwned(e: Entry, h: Host) { HasRow(e, h) && h.manifest[e.name].kind.GithubRelease? }

  /** The row is a checkout whose command is visible. */
  predicate VisibleCheckout(e: Entry, h: Host) {
    HasRow(e, h) && h.manifest[e.name].kind.GithubRepo? && h.manifest[e.name].checkoutVisible
  }

  // ----- the cache -----

  /** `read_method_file`: the marker, if it counts for this command. */
  function ReadMarker(f: Files, e: Entry, allowLegacy: bool): Option<Marker> {
    if f.choice.None? then None
    else
      var cached := Parse(f.choice.value);
      match cached.marker
      case LegacyRepo => if allowLegacy then Some(LegacyRepo) else None
      case Unreadable => None
      case _ => if cached.cmd == Some(e.cmd) then Some(cached.marker) else None
  }

  /** `usable_cached_method`. */
  function Usable(m: Marker, e: Entry, h: Host): Option<Method> {
    match m
    case ReleaseChosen => Some(GithubRelease)
    case LastKnown => if VisibleCheckout(e, h) then Some(GithubRepo) else None
    case _ => if ReleaseOwned(e, h) then None else Some(GithubRepo)
  }

  function Record(f: Files, m: Marker, e: Entry): Files
    requires !m.Unreadable?
  {
    f.(choice := Some(Print(m, e.cmd)))
  }

  // ----- the decision for one entry -----

  /** `seed_method_from_manifest`. */
  function Seed(f: Files, e: Entry, h: Host, o: Options, allowRelease: bool): Option<Decision> {
    if o.force || o.reinstall || !HasRow(e, h) then None
    else if allowRelease && ReleaseOwned(e, h) && h.manifest[e.name].releaseVisible then Some(Decision(GithubRelease, f))
    else if VisibleCheckout(e, h) then Some(Decision(GithubRepo, Record(f, LastKnown, e).(stamp := Some(o.now))))
    else None
  }

  /** `resolve_local_method`: a fresh usable cache, else the manifest -- unless a
      fresh cache file exists that cannot be used. */
  function Local(f: Files, e: Entry, h: Host, o: Options): Option<Decision> {
    if Fresh(f.stamp, o) then
      var marker := ReadMarker(f, e, false);
      if marker.Some? && Usable(marker.value, e, h).Some? then Some(Decision(Usable(marker.value, e, h).value, f))
      else if f.choice.Some? then None
      else Seed(f, e, h, o, false)
    else Seed(f, e, h, o, false)
  }

  /** `confirmed_current_release`: the installed release is the latest one. */
  predicate ConfirmedCurrent(e: Entry, h: Host, o: Options) {
    !o.reinstall && ReleaseOwned(e, h) && h.manifest[e.name].versionKnown && e.name in h.confirmed
  }

  function Fetched(e: Entry, h: Host): Option<Releases> {
    if e.name in h.published then Some(h.published[e.name]) else None
  }

  /** `resolve_remote_method`. */
  function Remote(f: Files, e: Entry, h: Host, o: Options, answer: Option<Releases>): Decision {
    match answer
    case Some(list) =>
      var known := f.(releases := Some(list), stamp := Some(o.now));
      if e.cmd in list.serves then Decision(GithubRelease, Record(known, ReleaseChosen, e))
      else if ReleaseOwned(e, h) then
        Decision(GithubRelease, Record(f.(stamp := None, releaseStamp := None, releases := None), ReleaseChosen, e))
      else Decision(GithubRepo, Record(known, NoAsset, e))
    case None =>
      if ReleaseOwned(e, h) then Decision(GithubRelease, f)
      else
        var last, seed := ReadMarker(f, e, true), Seed(f, e, h, o, true);
        if last.Some? then Decision(Usable(last.value, e, h).GetOr(GithubRepo), f)
        else if seed.Some? then seed.value
        else Decision(GithubRepo, f)
  }

  /** The remote half: a confirmed release needs no list. */
  function Ask(f: Files, e: Entry, h: Host, o: Options): Decision {
    if ConfirmedCurrent(e, h, o) then
      Decision(GithubRelease,
               Record(f.(releases := None), ReleaseChosen, e).(stamp := Some(o.now), releaseStamp := Some(o.now)))
    else Remote(f, e, h, o, Fetched(e, h))
  }

  /** `resolve_method`. */
  function Resolve(f: Files, e: Entry, h: Host, o: Options): Decision {
    if !Active(e, h) then Decision(GithubRepo, f)
    else if Local(f, e, h, o).Some? then Local(f, e, h, o).value
    else Ask(f, e, h, o)
  }

  predicate Asks(f: Files, e: Entry, h: Host, o: Options) { Active(e, h) && Local(f, e, h, o).None? }

  // ----- ownership -----

  /** An owned release of an active entry never turns into a checkout: whatever the
      options, the cache and stamp files and the remote answer. */
  lemma OwnershipHolds(f: Files, e: Entry, h: Host, o: Options)
    requires Active(e, h) && ReleaseOwned(e, h)
    ensures Resolve(f, e, h, o).kind == GithubRelease
  {
  }

  /** The run kept an owned release although its list has no asset for this host. */
  predicate KeptWithoutAsset(f: Files, e: Entry, h: Host, o: Options) {
    Asks(f, e, h, o) && ReleaseOwned(e, h) && !ConfirmedCurrent(e, h, o)
    && e.name in h.published && e.cmd !in h.published[e.name].serves
  }

  /** After such a run the next one asks again, however soon it comes. */
  lemma KeptReleaseIsAskedAgain(f: Files, e: Entry, h: Host, o: Options, h': Host, o': Options)
    requires KeptWithoutAsset(f, e, h, o)
    requires Active(e, h') && ReleaseOwned(e, h')
    ensures Asks(Resolve(f, e, h, o).files, e, h', o')
    ensures Resolve(f, e, h, o).files.releases.None? && Resolve(f, e, h, o).files.releaseStamp.None?
  {
  }

  /** A run that was answered leaves a cached list only if it is the list it just
      decided by: a confirmed tag or an incomplete release drops any older one. */
  lemma CachedListIsTheAnswer(f: Files, e: Entry, h: Host, o: Options)
    requires Asks(f, e, h, o) && (ConfirmedCurrent(e, h, o) || e.name in h.published)
    ensures var d := Resolve(f, e, h, o);
      d.files.releases.Some? ==>
        && !ConfirmedCurrent(e, h, o) && e.name in h.published && d.files.releases == Some(h.published[e.name])
        && (d.kind == GithubRelease <==> e.cmd in h.published[e.name].serves)
        && (d.kind == GithubRepo ==> !ReleaseOwned(e, h))
  {
  }

  // ----- agreement of the cache -----

  /** A remote answer that was written and stamped. */
  predicate Answered(f: Files, e: Entry, h: Host, o: Options) {
    Asks(f, e, h, o) && (ConfirmedCurrent(e, h, o) || e.name in h.published) && !KeptWithoutAsset(f, e, h, o)
  }

  /** A later unforced run within the time to live, for the same command and with
      the same ownership. */
  predicate Within(e: Entry, was: Host, o: Options, e': Entry, h': Host, o': Options) {
    && !o'.force && !o'.reinstall && Fresh(Some(o.now), o')
    && e'.name == e.name && e'.cmd == e.cmd && Active(e', h') && (ReleaseOwned(e', h') <==> ReleaseOwned(e, was))
  }

  function MarkerOfAnswer(kind: Method): Marker { if kind.GithubRelease? then ReleaseChosen else NoAsset }

  lemma AnswerIsFiled(f: Files, e: Entry, h: Host, o: Options)
    requires Answered(f, e, h, o)
    ensures var d := Resolve(f, e, h, o);
      && d.files.stamp == Some(o.now) && d.files.choice == Some(Print(MarkerOfAnswer(d.kind), e.cmd))
      && (d.kind == GithubRelease || (d.kind == GithubRepo && !ReleaseOwned(e, h)))
  {
  }

  lemma FiledAnswerReads(f: Files, m: Marker, e: Entry, allowLegacy: bool)
    requires (m.ReleaseChosen? || m.NoAsset? || m.LastKnown?) && f.choice == Some(Print(m, e.cmd))
    ensures ReadMarker(f, e, allowLegacy) == if Recordable(e.cmd) then Some(m) else None
  {
    WrittenIsParsed(m, e.cmd);
  }

  /** Within the time to live the answer is repeated without asking, and without
      touching a file, exactly when the command survives the cache file. */
  lemma CacheAgrees(f: Files, e: Entry, h: Host, o: Options, e': Entry, h': Host, o': Options)
    requires Answered(f, e, h, o) && Within(e, h, o, e', h', o')
    ensures var d := Resolve(f, e, h, o);
      !Asks(d.files, e', h', o') <==> Recordable(e.cmd)
    ensures var d := Resolve(f, e, h, o);
      Recordable(e.cmd) ==> Resolve(d.files, e', h', o') == d
  {
    var d := Resolve(f, e, h, o);
    AnswerIsFiled(f, e, h, o);
    FiledAnswerReads(d.files, MarkerOfAnswer(d.kind), e', false);
  }

  /** One resolution of an entry in a later run. */
  datatype Run = Run(entry: Entry, host: Host, options: Options)

  function FilesAfter(f: Files, runs: seq<Run>): Files
    decreases |runs|
  {
    if runs == [] then f
    else
      var last := runs[|runs| - 1];
      Resolve(FilesAfter(f, runs[..|runs| - 1]), last.entry, last.host, last.options).files
  }

  /** The manifest row of the next run: the same identity as before, or what this
      run's method installed. */
  predicate Follows(e: Entry, h: Host, kind: Method, h': Host) {
    && e.name in h'.manifest
    && var row := h'.manifest[e.name];
       || (row.kind == kind && row.cmd == e.cmd)
       || (e.name in h.manifest && row.kind == h.manifest[e.name].kind && row.cmd == h.manifest[e.name].cmd)
  }

  /** Once a release is owned, it stays owned and every run resolves to it, through
      any options, clocks, remote answers and failed or repeated installs. */
  lemma {:induction false} OwnershipIsNeverLost(f: Files, e: Entry, runs: seq<Run>)
    requires runs != [] && ReleaseOwned(e, runs[0].host)
    requires forall i :: 0 <= i < |runs| ==> runs[i].entry == e && Active(e, runs[i].host)
    requires forall i :: 0 <= i < |runs| - 1 ==>
      Follows(e, runs[i].host, Resolve(FilesAfter(f, runs[..i]), e, runs[i].host, runs[i].options).kind, runs[i + 1].host)
    ensures var last := runs[|runs| - 1];
      && ReleaseOwned(e, last.host)
      && Resolve(FilesAfter(f, runs[..|runs| - 1]), e, last.host, last.options).kind == GithubRelease
    decreases |runs|
  {
    var n := |runs| - 1;
    var last, front := runs[n], runs[..n];
    if front != [] {
      forall i | 0 <= i < n - 1
        ensures Follows(e, front[i].host, Resolve(FilesAfter(f, front[..i]), e, front[i].host, front[i].options).kind,
                        front[i + 1].host)
      {
        assert front[..i] == runs[..i];
      }
      OwnershipIsNeverLost(f, e, front);
      assert front[..n - 1] == runs[..n - 1];
      assert Follows(e, runs[n - 1].host,
                     Resolve(FilesAfter(f, runs[..n - 1]), e, runs[n - 1].host, runs[n - 1].options).kind, runs[n].host);
    }
    OwnershipHolds(FilesAfter(f, front), e, last.host, last.options);
  }

  /** Any number of such runs repeat the answer, and the last one still finds the
      files the first one left. */
  lemma {:induction false} CacheAgreesOverRuns(f: Files, e: Entry, h: Host, o: Options, runs: seq<Run>)
    requires Answered(f, e, h, o) && Recordable(e.cmd)
    requires forall i :: 0 <= i < |runs| ==> Within(e, h, o, runs[i].entry, runs[i].host, runs[i].options)
    ensures FilesAfter(Resolve(f, e, h, o).files, runs) == Resolve(f, e, h, o).files
    ensures runs != [] ==>
      var last, before := runs[|runs| - 1], FilesAfter(Resolve(f, e, h, o).files, runs[..|runs| - 1]);
      && Resolve(before, last.entry, last.host, last.options).kind == Resolve(f, e, h, o).kind
      && !Asks(before, last.entry, last.host, last.options)
    decreases |runs|
  {
    if runs != [] {
      var last := runs[|runs| - 1];
      CacheAgreesOverRuns(f, e, h, o, runs[..|runs| - 1]);
      CacheAgrees(f, e, h, o, last.entry, last.host, last.options);
    }
  }

  /** A run that asks in vain repeats the last remote answer, however old, and
      leaves the files as they are. */
  lemma OutageRepeatsTheAnswer(f: Files, e: Entry, h: Host, o: Options, h': Host, o': Options)
    requires Answered(f, e, h, o) && Recordable(e.cmd)
    requires Asks(Resolve(f, e, h, o).files, e, h', o') && e.name !in h'.published && !ConfirmedCurrent(e, h', o')
    requires ReleaseOwned(e, h') <==> ReleaseOwned(e, h)
    ensures Resolve(Resolve(f, e, h, o).files, e, h', o') == Resolve(f, e, h, o)
  {
    var d := Resolve(f, e, h, o);
    AnswerIsFiled(f, e, h, o);
    FiledAnswerReads(d.files, MarkerOfAnswer(d.kind), e, true);
  }

  // ----- when a run asks -----

  /** A stale run asks exactly when it is forced, or a reinstall, or no checkout is
      visible.  Whatever was cached: a visible checkout is taken from the manifest
      and its stamp renewed. */
  lemma StaleRunAsks(f: Files, e: Entry, h: Host, o: Options)
    requires Active(e, h) && !Fresh(f.stamp, o)
    ensures Asks(f, e, h, o) <==> o.force || o.reinstall || !VisibleCheckout(e, h)
    ensures !Asks(f, e, h, o) ==>
      Resolve(f, e, h, o) == Decision(GithubRepo, f.(choice := Some(Print(LastKnown, e.cmd)), stamp := Some(o.now)))
  {
  }

  /** A fresh run asks exactly when its cache file holds no usable answer, or there is
      none and no checkout is visible. */
  lemma FreshRunAsks(f: Files, e: Entry, h: Host, o: Options)
    requires Active(e, h) && Fresh(f.stamp, o)
    ensures var m := ReadMarker(f, e, false);
      Asks(f, e, h, o) <==>
        if f.choice.Some? then m.None? || Usable(m.value, e, h).None? else !VisibleCheckout(e, h)
  {
  }

  /** The cache was seeded from the manifest row of a checkout. */
  predicate Seeded(f: Files, e: Entry) { f.choice == Some(Print(LastKnown, e.cmd)) }

  lemma SeededRun(f: Files, e: Entry, h: Host, o: Options)
    requires Active(e, h) && VisibleCheckout(e, h) && !o.force && !o.reinstall && Recordable(e.cmd)
    requires Seeded(f, e) || !Fresh(f.stamp, o)
    ensures !Asks(f, e, h, o) && Resolve(f, e, h, o).kind == GithubRepo && Seeded(Resolve(f, e, h, o).files, e)
  {
    if Fresh(f.stamp, o) { FiledAnswerReads(f, LastKnown, e, false); } else { StaleRunAsks(f, e, h, o); }
  }

  /** So over any number of unforced runs from a stale start, at any times, whatever
      was cached and whatever the remote has to say by then, a visible checkout is
      kept and nobody asks. */
  lemma {:induction false} CheckoutIsNeverAskedAbout(f: Files, e: Entry, runs: seq<Run>)
    requires runs != [] && (Seeded(f, e) || !Fresh(f.stamp, runs[0].options)) && Recordable(e.cmd)
    requires forall i :: 0 <= i < |runs| ==>
      && runs[i].entry == e && Active(e, runs[i].host) && VisibleCheckout(e, runs[i].host)
      && !runs[i].options.force && !runs[i].options.reinstall
    ensures var last, before := runs[|runs| - 1], FilesAfter(f, runs[..|runs| - 1]);
      !Asks(before, e, last.host, last.options) && Resolve(before, e, last.host, last.options).kind == GithubRepo
    ensures Seeded(FilesAfter(f, runs), e)
    decreases |runs|
  {
    var last, front := runs[|runs| - 1], runs[..|runs| - 1];
    if front != [] { CheckoutIsNeverAskedAbout(f, e, front); }
    SeededRun(FilesAfter(f, front), e, last.host, last.options);
  }

  // ----- the offline forecast -----

  /** `offline_method`: what a read-only caller expects an update to choose. */
  function Offline(f: Files, e: Entry, h: Host): Method {
    var cached := ReadMarker(f, e, true);
    if ReleaseOwned(e, h) then GithubRelease
    else if cached.Some? then (if cached.value.ReleaseChosen? then GithubRelease else GithubRepo)
    else if e.name in h.manifest && h.manifest[e.name].kind.GithubRelease? then GithubRelease
    else GithubRepo
  }

  /** A visible checkout is seeded again before the stale release answer is read. */
  predicate SeededOverAnswer(f: Files, e: Entry, h: Host, o: Options) {
    ReadMarker(f, e, true) == Some(ReleaseChosen) && VisibleCheckout(e, h) && !o.force && !o.reinstall && !Fresh(f.stamp, o)
  }

  /** Nothing is cached, and the manifest has a release of this name for another
      command. */
  predicate OtherCommandsRelease(f: Files, e: Entry, h: Host) {
    && ReadMarker(f, e, true).None?
    && e.name in h.manifest && h.manifest[e.name].kind.GithubRelease? && h.manifest[e.name].cmd != e.cmd
  }

  /** The forecast is what an update chooses while the remote does not answer,
      except in exactly these two situations. */
  lemma ForecastHoldsInOutage(f: Files, e: Entry, h: Host, o: Options)
    requires Active(e, h) && e.name !in h.published && e.name !in h.confirmed
    ensures Resolve(f, e, h, o).kind == Offline(f, e, h)
      <==> !SeededOverAnswer(f, e, h, o) && !OtherCommandsRelease(f, e, h)
  {
  }
}
