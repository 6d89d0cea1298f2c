/** The comings to the public name in order, so that "newer" and "older" mean
    something: every coming has a number, a link put back keeps a reference to the
    stay it was displaced from, and every superseded link the two comings at
    issue. */
module PublicLinkHistory {
  import opened Wrappers
  import opened PublicLinks
  import opened PublicLinkTheorems
  import opened PublicLinkRuns

  /** One coming of an entry to the public name: new, by creation, publication or
      an outside write, or put back after the stay with the given number. */
  datatype Arrival = Arrival(entry: Entry, back: Option<nat>)

  /** The stay a superseded link was displaced from, and the coming of the entry
      that held the name when it was to be put back. */
  datatype Verdict = Verdict(from: nat, at: nat)

  datatype Log = Log(arrivals: seq<Arrival>, taken: map<Hidden, nat>, refused: map<Hidden, nat>, verdicts: map<nat, Verdict>)

  function Latest(log: Log): nat { if log.arrivals == [] then 0 else |log.arrivals| - 1 }

  function Come(log: Log, e: Entry, back: Option<nat>): Log { log.(arrivals := log.arrivals + [Arrival(e, back)]) }

  /** What one event adds to the history. */
  function Record(log: Log, s: State, ev: Event): Log {
    if !Enabled(s, ev) then log else
    match ev
    case Write(e) => if e.Some? then Come(log, e.value, None) else log
    case Act(t, ch) =>
      var site := s.site;
      match s.pcs[t]
      case Claim(_, _) =>
        var q := Quarantine(ch.nonce);
        if site.public.Some? && q !in site.hidden then log.(taken := log.taken[q := Latest(log)]) else log
      case Restore(_, h) =>
        if h !in site.hidden || h !in log.taken then log
        else if site.public.None? then Come(log, site.hidden[h], Some(log.taken[h]))
        else log.(refused := log.refused[h := Latest(log)])
      case Drop(_, h, _) =>
        if h !in site.hidden || h !in log.taken || h !in log.refused then log
        else log.(verdicts := log.verdicts[|s.lost| := Verdict(log.taken[h], log.refused[h])])
      case Create => if site.public.None? then Come(log, Link(t, ch.id), None) else log
      case Publish(h) => if h in site.hidden then Come(log, site.hidden[h], None) else log
      case _ => log
  }

  function Opening(site: Site): Log {
    Log(if site.public.Some? then [Arrival(site.public.value, None)] else [], map[], map[], map[])
  }

  function History(site: Site, workers: set<Worker>, events: seq<Event>): Log
    decreases |events|
  {
    if events == [] then Opening(site)
    else
      var front := events[..|events| - 1];
      Record(History(site, workers, front), Run(Start(site, workers), front), events[|events| - 1])
  }

  // ----- what the history keeps -----

  /** An entry has no coming from this number on. */
  ghost predicate AwayFrom(a: seq<Arrival>, e: Entry, i: nat) { forall m :: i <= m < |a| ==> a[m].entry != e }

  /** A coming that is new shows an entry never seen on the name; one put back
      refers to the stay of the same entry before it, with none between. */
  ghost predicate ArrivalOk(a: seq<Arrival>, i: nat)
    requires i < |a|
  {
    match a[i].back
    case None => forall m :: 0 <= m < i ==> a[m].entry != a[i].entry
    case Some(j) =>
      j < i && a[j].entry == a[i].entry && forall m :: j < m < i ==> a[m].entry != a[i].entry
  }

  /** The stay with number `i` is the last one of this entry. */
  ghost predicate LastStay(a: seq<Arrival>, i: nat, e: Entry) { i < |a| && a[i].entry == e && AwayFrom(a, e, i + 1) }

  ghost predicate Judged(a: seq<Arrival>, v: Verdict, entry: Entry, winner: Entry) {
    v.from < v.at < |a| && a[v.from].entry == entry && a[v.at].entry == winner
  }

  /** What the history knows about the entry a worker holds. */
  ghost predicate Traced(site: Site, log: Log, pc: Pc) {
    match pc
    case Judge(_, h) => h in site.hidden && h in log.taken && LastStay(log.arrivals, log.taken[h], site.hidden[h])
    case Restore(_, h) => h in site.hidden && h in log.taken && LastStay(log.arrivals, log.taken[h], site.hidden[h])
    case Examine(_, h, winner) =>
      && h in site.hidden && h in log.taken && h in log.refused
      && Judged(log.arrivals, Verdict(log.taken[h], log.refused[h]), site.hidden[h], winner)
    case Drop(_, h, winner) =>
      && h in site.hidden && h in log.taken && h in log.refused
      && Judged(log.arrivals, Verdict(log.taken[h], log.refused[h]), site.hidden[h], winner)
    case Publish(h) => h in site.hidden && AwayFrom(log.arrivals, site.hidden[h], 0)
    case _ => true
  }

  ghost predicate VerdictsOk(s: State, log: Log) {
    forall i :: 0 <= i < |s.lost| && s.lost[i].reason.Superseded? ==>
      i in log.verdicts && Judged(log.arrivals, log.verdicts[i], s.lost[i].entry, s.lost[i].reason.winner)
  }

  ghost predicate ArrivalsOk(s: State, log: Log) {
    var a := log.arrivals;
    && (forall i :: 0 <= i < |a| ==> a[i].entry in s.placed && ArrivalOk(a, i))
    && (s.site.public.Some? ==> a != [] && a[|a| - 1].entry == s.site.public.value)
  }

  ghost predicate LogOk(s: State, log: Log) {
    && ArrivalsOk(s, log) && VerdictsOk(s, log)
    && forall t :: t in s.pcs ==> Traced(s.site, log, s.pcs[t])
  }

  /** The entry an event brings to the public name. */
  function Comer(log: Log, s: State, ev: Event): Option<Arrival> {
    var log' := Record(log, s, ev);
    if |log'.arrivals| == |log.arrivals| + 1 then Some(log'.arrivals[|log.arrivals|]) else None
  }

  lemma RecordGrows(log: Log, s: State, ev: Event)
    ensures var a, x := log.arrivals, Comer(log, s, ev);
      Record(log, s, ev).arrivals == if x.Some? then a + [x.value] else a
  {
  }

  /** Only a withdrawal that displaces, or is refused, touches the notes on hidden
      names, and then only on the name of that call. */
  lemma NotesKept(log: Log, s: State, t: Worker, ch: Choice, h: Hidden)
    requires Enabled(s, Act(t, ch)) && Some(h) != Touched(s.pcs[t], ch)
    ensures var log' := Record(log, s, Act(t, ch));
      && (h in log.taken ==> h in log'.taken && log'.taken[h] == log.taken[h])
      && (h in log.refused ==> h in log'.refused && log'.refused[h] == log.refused[h])
  {
  }

  /** A new comer was never on the name; one put back stays referred to. */
  lemma ComerOk(s: State, log: Log, ev: Event)
    requires Inv(s) && LogOk(s, log) && Enabled(s, ev) && Comer(log, s, ev).Some?
    ensures var x := Comer(log, s, ev).value;
      && Next(s, ev).site.public == Some(x.entry) && x.entry in Next(s, ev).placed
      && (x.back.None? ==> AwayFrom(log.arrivals, x.entry, 0))
      && (x.back.Some? ==> LastStay(log.arrivals, x.back.value, x.entry))
  {
    if ev.Act? {
      assert Traced(s.site, log, s.pcs[ev.worker]) && Role(s.site, ev.worker, s.pcs[ev.worker]);
      if Held(s.pcs[ev.worker]).Some? { InPlaced(s, AtHidden(Held(s.pcs[ev.worker]).value)); }
    }
  }

  lemma InPlaced(s: State, p: Place)
    requires Inv(s) && At(s, p).Some?
    ensures At(s, p).value in s.placed
  {
  }

  lemma ArrivalsGrow(a: seq<Arrival>, x: Arrival)
    requires forall i :: 0 <= i < |a| ==> ArrivalOk(a, i)
    requires x.back.None? ==> AwayFrom(a, x.entry, 0)
    requires x.back.Some? ==> LastStay(a, x.back.value, x.entry)
    ensures forall i :: 0 <= i <= |a| ==> ArrivalOk(a + [x], i)
  {
    var b := a + [x];
    forall i | 0 <= i < |a| ensures ArrivalOk(b, i) { assert ArrivalOk(a, i); }
  }

  /** Between comers the name shows the last one or nothing. */
  lemma NoComer(s: State, log: Log, ev: Event)
    requires Inv(s) && LogOk(s, log) && Enabled(s, ev) && Comer(log, s, ev).None?
    ensures Next(s, ev).site.public.None? || Next(s, ev).site.public == s.site.public
  {
    if ev.Act? { assert Traced(s.site, log, s.pcs[ev.worker]) && Role(s.site, ev.worker, s.pcs[ev.worker]); }
  }

  lemma ArrivalsKept(s: State, log: Log, ev: Event)
    requires Inv(s) && LogOk(s, log) && Enabled(s, ev)
    ensures ArrivalsOk(Next(s, ev), Record(log, s, ev))
  {
    RecordGrows(log, s, ev);
    if Comer(log, s, ev).Some? {
      ComerOk(s, log, ev);
      ArrivalsGrow(log.arrivals, Comer(log, s, ev).value);
    } else {
      NoComer(s, log, ev);
    }
    assert s.placed <= Next(s, ev).placed;
  }

  /** A comer is none of the entries that stay hidden. */
  lemma ComerIsNotHidden(s: State, log: Log, ev: Event, h: Hidden)
    requires Inv(s) && LogOk(s, log) && Enabled(s, ev) && Comer(log, s, ev).Some?
    requires h in s.site.hidden && h in Next(s, ev).site.hidden && Next(s, ev).site.hidden[h] == s.site.hidden[h]
    ensures Comer(log, s, ev).value.entry != s.site.hidden[h]
  {
    ComerOk(s, log, ev);
    NextKeeps(s, ev);
    var s' := Next(s, ev);
    assert At(s', AtPublic) == Some(Comer(log, s, ev).value.entry);
    assert At(s', AtHidden(h)) == Some(s'.site.hidden[h]);
  }

  /** What is known about an entry that stays hidden survives any comer. */
  lemma TraceKept(s: State, log: Log, ev: Event, pc: Pc)
    requires Inv(s) && LogOk(s, log) && Enabled(s, ev) && Traced(s.site, log, pc) && Held(pc).Some?
    requires var h, s', log' := Held(pc).value, Next(s, ev), Record(log, s, ev);
      && (h in s'.site.hidden <==> h in s.site.hidden)
      && (h in s.site.hidden ==> s'.site.hidden[h] == s.site.hidden[h])
      && (h in log.taken ==> h in log'.taken && log'.taken[h] == log.taken[h])
      && (h in log.refused ==> h in log'.refused && log'.refused[h] == log.refused[h])
    ensures Traced(Next(s, ev).site, Record(log, s, ev), pc)
  {
    RecordGrows(log, s, ev);
    var h := Held(pc).value;
    if h in s.site.hidden && Comer(log, s, ev).Some? { ComerIsNotHidden(s, log, ev, h); }
  }

  lemma OthersTraced(s: State, log: Log, t: Worker, ch: Choice, u: Worker)
    requires Inv(s) && LogOk(s, log) && Enabled(s, Act(t, ch)) && u in s.pcs && u != t
    ensures Traced(Next(s, Act(t, ch)).site, Record(log, s, Act(t, ch)), s.pcs[u])
  {
    if Held(s.pcs[u]).Some? {
      var h := Held(s.pcs[u]).value;
      assert h.nonce in s.drawn;
      TouchesOne(s.site, t, s.pcs[t], ch, h);
      NotesKept(log, s, t, ch, h);
      TraceKept(s, log, Act(t, ch), s.pcs[u]);
    }
  }

  lemma ClaimTraced(s: State, log: Log, t: Worker, ch: Choice)
    requires Inv(s) && ArrivalsOk(s, log) && Enabled(s, Act(t, ch)) && s.pcs[t].Claim?
    ensures Traced(Next(s, Act(t, ch)).site, Record(log, s, Act(t, ch)), Next(s, Act(t, ch)).pcs[t])
  {
  }

  lemma RestoreTraced(s: State, log: Log, t: Worker, ch: Choice)
    requires Inv(s) && ArrivalsOk(s, log) && Enabled(s, Act(t, ch)) && s.pcs[t].Restore?
    requires Traced(s.site, log, s.pcs[t])
    ensures Traced(Next(s, Act(t, ch)).site, Record(log, s, Act(t, ch)), Next(s, Act(t, ch)).pcs[t])
  {
    var h := s.pcs[t].held;
    assert At(s, AtHidden(h)).Some? && At(s, AtPublic) != At(s, AtHidden(h));
  }

  lemma StageTraced(s: State, log: Log, t: Worker, ch: Choice)
    requires ArrivalsOk(s, log) && Enabled(s, Act(t, ch)) && s.pcs[t].Stage?
    ensures Traced(Next(s, Act(t, ch)).site, Record(log, s, Act(t, ch)), Next(s, Act(t, ch)).pcs[t])
  {
  }

  /** A call that makes no note of its own. */
  predicate Unnoted(pc: Pc) { !pc.Claim? && !pc.Restore? && !pc.Stage? && !pc.Create? && !pc.Publish? && !pc.Drop? }

  lemma QuietTraced(s: State, log: Log, t: Worker, ch: Choice)
    requires Enabled(s, Act(t, ch)) && Traced(s.site, log, s.pcs[t]) && Unnoted(s.pcs[t])
    ensures Traced(Next(s, Act(t, ch)).site, Record(log, s, Act(t, ch)), Next(s, Act(t, ch)).pcs[t])
  {
  }

  lemma OwnTraced(s: State, log: Log, t: Worker, ch: Choice)
    requires Inv(s) && LogOk(s, log) && Enabled(s, Act(t, ch))
    ensures Traced(Next(s, Act(t, ch)).site, Record(log, s, Act(t, ch)), Next(s, Act(t, ch)).pcs[t])
  {
    match s.pcs[t]
    case Claim(_, _) => ClaimTraced(s, log, t, ch);
    case Restore(_, _) => RestoreTraced(s, log, t, ch);
    case Stage(_) => StageTraced(s, log, t, ch);
    case Create | Publish(_) | Drop(_, _, _) =>
    case _ => QuietTraced(s, log, t, ch);
  }

  lemma OldVerdict(s: State, log: Log, ev: Event, i: nat)
    requires Enabled(s, ev) && VerdictsOk(s, log) && i < |s.lost| && s.lost[i].reason.Superseded?
    ensures var log' := Record(log, s, ev);
      i in log'.verdicts && Judged(log'.arrivals, log'.verdicts[i], s.lost[i].entry, s.lost[i].reason.winner)
  {
    RecordGrows(log, s, ev);
    assert Judged(log.arrivals, log.verdicts[i], s.lost[i].entry, s.lost[i].reason.winner);
    assert i in Record(log, s, ev).verdicts && Record(log, s, ev).verdicts[i] == log.verdicts[i];
  }

  /** Taking the two numbers from the worker's notes when its link is dropped. */
  lemma NewVerdict(s: State, log: Log, ev: Event)
    requires Enabled(s, ev) && |Next(s, ev).lost| > |s.lost|
    requires ev.Act? ==> Traced(s.site, log, s.pcs[ev.worker])
    ensures var s', log', i := Next(s, ev), Record(log, s, ev), |s.lost|;
      s'.lost[i].reason.Superseded? ==>
        i in log'.verdicts && Judged(log'.arrivals, log'.verdicts[i], s'.lost[i].entry, s'.lost[i].reason.winner)
  {
  }

  lemma VerdictsKept(s: State, log: Log, ev: Event)
    requires Inv(s) && LogOk(s, log) && Enabled(s, ev)
    ensures VerdictsOk(Next(s, ev), Record(log, s, ev))
  {
    var s' := Next(s, ev);
    assert s'.lost == s.lost || (|s'.lost| == |s.lost| + 1 && s'.lost[..|s.lost|] == s.lost);
    if |s'.lost| > |s.lost| { NewVerdict(s, log, ev); }
    forall i | 0 <= i < |s.lost| && s.lost[i].reason.Superseded?
      ensures var log' := Record(log, s, ev);
        i in log'.verdicts && Judged(log'.arrivals, log'.verdicts[i], s.lost[i].entry, s.lost[i].reason.winner)
    {
      OldVerdict(s, log, ev, i);
    }
  }

  lemma WriteTraced(s: State, log: Log, e: Option<Entry>)
    requires Inv(s) && LogOk(s, log) && Enabled(s, Write(e))
    ensures forall t :: t in s.pcs ==> Traced(Next(s, Write(e)).site, Record(log, s, Write(e)), s.pcs[t])
  {
    forall t | t in s.pcs ensures Traced(Next(s, Write(e)).site, Record(log, s, Write(e)), s.pcs[t]) {
      if Held(s.pcs[t]).Some? { TraceKept(s, log, Write(e), s.pcs[t]); }
    }
  }

  lemma LogKept(s: State, log: Log, ev: Event)
    requires Inv(s) && LogOk(s, log)
    ensures LogOk(Next(s, ev), Record(log, s, ev))
  {
    if Enabled(s, ev) {
      ArrivalsKept(s, log, ev);
      VerdictsKept(s, log, ev);
      match ev
      case Act(t, ch) =>
        OwnTraced(s, log, t, ch);
        forall u | u in s.pcs && u != t { OthersTraced(s, log, t, ch, u); }
      case Write(e) => WriteTraced(s, log, e);
    }
  }

  lemma {:induction false} HistoryOk(site: Site, workers: set<Worker>, events: seq<Event>)
    requires Leftover(site)
    ensures Inv(Run(Start(site, workers), events))
    ensures LogOk(Run(Start(site, workers), events), History(site, workers, events))
    decreases |events|
  {
    StartInv(site, workers);
    if events != [] {
      var front := events[..|events| - 1];
      HistoryOk(site, workers, front);
      NextKeeps(Run(Start(site, workers), front), events[|events| - 1]);
      LogKept(Run(Start(site, workers), front), History(site, workers, front), events[|events| - 1]);
    }
  }

  // ----- newer and older -----

  /** `e` was on the name before `f` ever was. */
  ghost predicate Older(a: seq<Arrival>, e: Entry, f: Entry) {
    exists m :: 0 <= m < |a| && a[m].entry == e && forall j :: 0 <= j <= m ==> a[j].entry != f
  }

  ghost predicate Linked(a: seq<Arrival>) { forall i :: 0 <= i < |a| ==> ArrivalOk(a, i) }

  /** The first coming of the entry of coming `i`, along the stays it was put back
      from. */
  ghost function First(a: seq<Arrival>, i: nat): (j: nat)
    requires i < |a| && Linked(a)
    ensures j <= i && a[j].entry == a[i].entry && a[j].back.None?
    decreases i
  {
    assert ArrivalOk(a, i);
    if a[i].back.None? then i else First(a, a[i].back.value)
  }

  /** The order of first comings is the order of age. */
  lemma FirstIsAge(a: seq<Arrival>, i: nat, k: nat)
    requires i < |a| && k < |a| && Linked(a) && a[i].entry != a[k].entry
    ensures Older(a, a[i].entry, a[k].entry) <==> First(a, i) < First(a, k)
  {
    var x, y := First(a, i), First(a, k);
    assert ArrivalOk(a, x) && ArrivalOk(a, y);
    assert forall m :: 0 <= m < |a| && a[m].entry == a[i].entry ==> x <= m;
    assert forall m :: 0 <= m < |a| && a[m].entry == a[k].entry ==> y <= m;
  }

  /** Every superseded link: it stayed on the name, was displaced, and the winner
      came after it was gone.  The winner is older exactly when its first coming
      was before the lost link's; so an entry that came new is never older, and
      neither is any winner but one put back. */
  lemma WinnerOlderExactly(site: Site, workers: set<Worker>, events: seq<Event>, i: nat)
    requires Leftover(site)
    requires var s := Run(Start(site, workers), events); i < |s.lost| && s.lost[i].reason.Superseded?
    ensures var s, log := Run(Start(site, workers), events), History(site, workers, events);
      && Linked(log.arrivals) && i in log.verdicts
      && var v, a, l := log.verdicts[i], log.arrivals, s.lost[i];
         && v.from < v.at < |a| && a[v.from].entry == l.entry && a[v.at].entry == l.reason.winner
         && l.reason.winner in s.placed
         && (Older(a, l.reason.winner, l.entry) <==> First(a, v.at) < First(a, v.from))
         && (Older(a, l.reason.winner, l.entry) ==> a[v.at].back.Some?)
  {
    HistoryOk(site, workers, events);
    var s, log := Run(Start(site, workers), events), History(site, workers, events);
    assert ArrivalsOk(s, log) && LossOk(s, s.lost[i]);
    var v := log.verdicts[i];
    FirstIsAge(log.arrivals, v.at, v.from);
  }

  /** The lost link was on its first stay, and the winner did not come to the name
      between the displacement and its last coming. */
  ghost predicate FirstStays(a: seq<Arrival>, v: Verdict) {
    && v.from < v.at < |a| && a[v.from].back.None?
    && forall m :: v.from < m < v.at ==> a[m].entry != a[v.at].entry
  }

  lemma PutBackIsOlder(a: seq<Arrival>, v: Verdict)
    requires Linked(a) && FirstStays(a, v) && a[v.from].entry != a[v.at].entry
    ensures First(a, v.at) < First(a, v.from) <==> a[v.at].back.Some?
  {
    assert ArrivalOk(a, v.at);
    if a[v.at].back.Some? {
      var j := a[v.at].back.value;
      assert j < v.from && First(a, v.at) == First(a, j) <= j;
    }
  }

  /** In that situation the winner is older if and only if it reached the name by
      being put back rather than by creation, publication or an outside write. */
  lemma OlderExactlyWhenPutBack(site: Site, workers: set<Worker>, events: seq<Event>, i: nat, v: Verdict)
    requires Leftover(site)
    requires var s := Run(Start(site, workers), events); i < |s.lost| && s.lost[i].reason.Superseded?
    requires var log := History(site, workers, events);
      i in log.verdicts && log.verdicts[i] == v && FirstStays(log.arrivals, v)
    ensures var l, a := Run(Start(site, workers), events).lost[i], History(site, workers, events).arrivals;
      Older(a, l.reason.winner, l.entry) <==> a[v.at].back.Some?
  {
    WinnerOlderExactly(site, workers, events, i);
    assert LossOk(Run(Start(site, workers), events), Run(Start(site, workers), events).lost[i]) by {
      HistoryOk(site, workers, events);
    }
    PutBackIsOlder(History(site, workers, events).arrivals, v);
  }

  // ----- the refused restore -----

  /** At event `k` this worker was refused: it held `entry`, and the name `winner`. */
  ghost predicate RefusedAt(s0: State, events: seq<Event>, k: nat, t: Worker, entry: Entry, winner: Entry) {
    && k < |events| && events[k].Act? && events[k].worker == t
    && var s := Run(s0, events[..k]);
       && Enabled(s, events[k]) && s.pcs[t].Restore? && s.pcs[t].held in s.site.hidden
       && s.site.hidden[s.pcs[t].held] == entry && s.site.public == Some(winner)
  }

  predicate Refused(pc: Pc) { pc.Examine? || pc.Drop? }

  lemma OwnRefusal(s: State, t: Worker, ch: Choice)
    requires Enabled(s, Act(t, ch)) && Refused(Next(s, Act(t, ch)).pcs[t]) && Role(s.site, t, s.pcs[t])
    ensures var pc, s' := s.pcs[t], Next(s, Act(t, ch));
      && s'.site == s.site && s'.pcs[t].held in s.site.hidden
      && if Refused(pc) then s'.pcs[t].winner == pc.winner && s'.pcs[t].held == pc.held
         else pc.Restore? && s'.pcs[t].held == pc.held && s.site.public == Some(s'.pcs[t].winner)
  {
  }

  lemma OthersRefusal(s: State, ev: Event, t: Worker)
    requires Inv(s) && t in s.pcs && Refused(s.pcs[t]) && Enabled(s, ev) && (ev.Act? ==> ev.worker != t)
    ensures var h, s' := s.pcs[t].held, Next(s, ev);
      h in s.site.hidden && h in s'.site.hidden && s'.site.hidden[h] == s.site.hidden[h]
  {
    assert Role(s.site, t, s.pcs[t]) && Held(s.pcs[t]) == Some(s.pcs[t].held);
    if ev.Act? { TouchesOne(s.site, ev.worker, s.pcs[ev.worker], ev.choice, s.pcs[t].held); }
  }

  lemma RefusalKept(s: State, ev: Event, t: Worker)
    requires Inv(s) && t in s.pcs && Refused(Next(s, ev).pcs[t])
    ensures var pc, pc' := s.pcs[t], Next(s, ev).pcs[t];
      if Refused(pc) then
        && pc'.winner == pc.winner && pc'.held == pc.held
        && pc.held in s.site.hidden && pc.held in Next(s, ev).site.hidden
        && Next(s, ev).site.hidden[pc.held] == s.site.hidden[pc.held]
      else
        && ev.Act? && ev.worker == t && Enabled(s, ev) && pc.Restore? && pc'.held == pc.held
        && pc.held in s.site.hidden && Next(s, ev).site == s.site && s.site.public == Some(pc'.winner)
  {
    assert Role(s.site, t, s.pcs[t]);
    if Enabled(s, ev) {
      if ev.Act? && ev.worker == t { OwnRefusal(s, t, ev.choice); } else { OthersRefusal(s, ev, t); }
    }
  }

  lemma {:induction false} RefusalOf(site: Site, workers: set<Worker>, events: seq<Event>, t: Worker) returns (k: nat)
    requires Leftover(site)
    requires var s := Run(Start(site, workers), events); t in s.pcs && Refused(s.pcs[t])
    ensures var s := Run(Start(site, workers), events);
      && s.pcs[t].held in s.site.hidden
      && RefusedAt(Start(site, workers), events, k, t, s.site.hidden[s.pcs[t].held], s.pcs[t].winner)
    decreases |events|
  {
    assert forall u :: u in Start(site, workers).pcs ==> Start(site, workers).pcs[u].Idle?;
    var n := |events| - 1;
    var front, last := events[..n], events[n];
    var s := Run(Start(site, workers), front);
    HistoryOk(site, workers, front);
    RefusalKept(s, last, t);
    if Refused(s.pcs[t]) {
      k := RefusalOf(site, workers, front, t);
      assert front[..k] == events[..k];
    } else {
      k := n;
    }
  }

  /** When a link was superseded, its winner was on the public name at the moment the
      worker, holding the link, was refused its place. */
  lemma {:induction false} SupersededAtARefusal(site: Site, workers: set<Worker>, events: seq<Event>, i: nat)
    returns (k: nat)
    requires Leftover(site)
    requires var s := Run(Start(site, workers), events); i < |s.lost| && s.lost[i].reason.Superseded?
    ensures var l := Run(Start(site, workers), events).lost[i];
      RefusedAt(Start(site, workers), events, k, l.worker, l.entry, l.reason.winner)
    decreases |events|
  {
    var n := |events| - 1;
    var front, last := events[..n], events[n];
    var s := Run(Start(site, workers), front);
    if i < |s.lost| {
      k := SupersededAtARefusal(site, workers, front, i);
    } else {
      assert last.Act? && s.pcs[last.worker].Drop?;
      k := RefusalOf(site, workers, front, last.worker);
    }
    assert front[..k] == events[..k];
  }

  /** Whatever outside writers do, one quarantine call destroys at most one entry:
      a link of its own root, or a foreign link when another entry, one that had
      come to the name, held it. */
  lemma QuarantineDestroysAtMostOne(site: Site, workers: set<Worker>, events: seq<Event>, i: nat, j: nat)
    requires Leftover(site)
    requires var lost := Run(Start(site, workers), events).lost; i < |lost| && j < |lost| && ByQuarantine(lost[i])
    ensures var s := Run(Start(site, workers), events);
      && (SameCall(s.lost[i], s.lost[j]) ==> i == j)
      && var l := s.lost[i];
         && l.entry.Link?
         && (Owns(l.worker, l.entry) <==> l.reason.Owned?)
         && (l.reason.Superseded? ==> l.reason.winner != l.entry && l.reason.winner in s.placed)
  {
    HistoryOk(site, workers, events);
    var s, log := Run(Start(site, workers), events), History(site, workers, events);
    assert LossOk(s, s.lost[i]);
    if i < j { assert !SameCall(s.lost[i], s.lost[j]); } else if j < i { assert !SameCall(s.lost[j], s.lost[i]); }
    if s.lost[i].reason.Superseded? { assert log.arrivals[log.verdicts[i].at].entry == s.lost[i].reason.winner; }
  }
}
