/** Choosing one configuration row per dependency name, and the final order. */
module Duplicates {
  import opened Sorting
  import opened Wrappers

  // ----- rows -----

  /** The text before the first bar. */
  function UpToBar(row: string): (field: string)
    ensures |field| <= |row|
  {
    if row == [] || row[0] == '|' then [] else [row[0]] + UpToBar(row[1..])
  }

  /** Field `n` of a row, empty if the row is shorter. */
  function Field(row: string, n: nat): string
    decreases n
  {
    var first := UpToBar(row);
    if n == 0 then first else if |first| == |row| then [] else Field(row[|first| + 1..], n - 1)
  }

  function Name(row: string): string { Field(row, 0) }

  function Filter(row: string): string { Field(row, 4) }

  /** What this host makes of filter texts: those that match it, and those whose
      mismatch is proven. */
  datatype Env = Env(matching: set<string>, excluded: set<string>)

  // ----- the rule -----

  /** What one pass over a group looks for. */
  datatype Want = Any | Unfiltered | Matching | NotExcluded

  predicate Meets(row: string, name: string, want: Want, env: Env) {
    && Name(row) == name
    && match want
       case Any => true
       case Unfiltered => Filter(row) == []
       case Matching => Filter(row) in env.matching
       case NotExcluded => Filter(row) !in env.excluded
  }

  /** The last of the first `n` rows that meets the want. */
  function Last(rows: seq<string>, n: nat, name: string, want: Want, env: Env): (i: Option<nat>)
    requires n <= |rows|
    ensures i.None? <==> forall j :: 0 <= j < n ==> !Meets(rows[j], name, want, env)
    ensures i.Some? ==> i.value < n && Meets(rows[i.value], name, want, env)
    ensures i.Some? ==> forall j :: i.value < j < n ==> !Meets(rows[j], name, want, env)
  {
    if n == 0 then None
    else if Meets(rows[n - 1], name, want, env) then Some(n - 1)
    else Last(rows, n - 1, name, want, env)
  }

  predicate Single(rows: seq<string>, name: string) {
    forall i, j :: 0 <= i < j < |rows| && Name(rows[i]) == name ==> Name(rows[j]) != name
  }

  /** The row that stands for a name: the last one, unless there are several and
      every one is filtered -- then the last that matches this host, else the last
      not proven excluded, else the last. */
  function Winner(rows: seq<string>, name: string, env: Env): Option<nat> {
    var n := |rows|;
    var last := Last(rows, n, name, Any, env);
    if Single(rows, name) || Last(rows, n, name, Unfiltered, env).Some? then last
    else if Last(rows, n, name, Matching, env).Some? then Last(rows, n, name, Matching, env)
    else if Last(rows, n, name, NotExcluded, env).Some? then Last(rows, n, name, NotExcluded, env)
    else last
  }

  predicate Wins(rows: seq<string>, i: nat, env: Option<Env>)
    requires i < |rows|
  {
    if env.Some? then Winner(rows, Name(rows[i]), env.value) == Some(i)
    else forall j :: i < j < |rows| ==> Name(rows[j]) != Name(rows[i])
  }

  function Winners(rows: seq<string>, env: Option<Env>): set<nat> {
    set i | 0 <= i < |rows| && Wins(rows, i, env)
  }

  function Survivors(rows: seq<string>, env: Option<Env>): seq<string> { Pick(rows, Winners(rows, env), |rows|) }

  // ----- what the rule means -----

  /** Every name that occurs has exactly one winner, and it bears the name. */
  lemma OneWinner(rows: seq<string>, k: nat, env: Option<Env>) returns (i: nat)
    requires k < |rows|
    ensures i < |rows| && Name(rows[i]) == Name(rows[k]) && Wins(rows, i, env)
    ensures forall j :: 0 <= j < |rows| && Name(rows[j]) == Name(rows[k]) && Wins(rows, j, env) ==> j == i
  {
    var name := Name(rows[k]);
    if env.Some? {
      assert Meets(rows[k], name, Any, env.value);
      i := Winner(rows, name, env.value).value;
    } else {
      i := Last(rows, |rows|, name, Any, Env({}, {})).value;
      assert forall j :: 0 <= j < |rows| ==> (Meets(rows[j], name, Any, Env({}, {})) <==> Name(rows[j]) == name);
    }
  }

  /** The survivors stand at the winners' indices, in ascending order. */
  lemma SurvivorsAt(rows: seq<string>, env: Option<Env>) returns (xs: seq<nat>)
    ensures Ascending(xs) && |xs| == |Survivors(rows, env)|
    ensures forall k :: 0 <= k < |xs| ==> xs[k] < |rows| && Wins(rows, xs[k], env) && Survivors(rows, env)[k] == rows[xs[k]]
    ensures forall i :: 0 <= i < |rows| && Wins(rows, i, env) ==> i in xs
  {
    var winners := Winners(rows, env);
    xs := Indices(winners, |rows|);
    PickIndices(rows, winners, |rows|);
  }

  ghost predicate Represented(kept: seq<string>, name: string) { exists i :: 0 <= i < |kept| && Name(kept[i]) == name }

  /** One row per name: every name that occurs survives, and no name twice. */
  lemma OneRowPerName(rows: seq<string>, env: Option<Env>, k: nat)
    requires k < |rows|
    ensures Represented(Survivors(rows, env), Name(rows[k]))
    ensures var kept := Survivors(rows, env); forall i, j :: 0 <= i < j < |kept| ==> Name(kept[i]) != Name(kept[j])
  {
    var kept := Survivors(rows, env);
    var xs := SurvivorsAt(rows, env);
    var w := OneWinner(rows, k, env);
    var at :| 0 <= at < |xs| && xs[at] == w;
    assert Name(kept[at]) == Name(rows[k]);
    forall i, j | 0 <= i < j < |kept| ensures Name(kept[i]) != Name(kept[j]) {
      var only := OneWinner(rows, xs[i], env);
      assert xs[i] < xs[j];
    }
  }

  /** A name with one row, or with an unfiltered one, goes to its last row, exactly
      as without an environment. */
  lemma UnfilteredIsLastWins(rows: seq<string>, i: nat, env: Env)
    requires i < |rows|
    requires Single(rows, Name(rows[i])) || Last(rows, |rows|, Name(rows[i]), Unfiltered, env).Some?
    ensures Wins(rows, i, Some(env)) <==> Wins(rows, i, None)
  {
    var name := Name(rows[i]);
    var last := Last(rows, |rows|, name, Any, env);
    assert forall j :: 0 <= j < |rows| ==> (Meets(rows[j], name, Any, env) <==> Name(rows[j]) == name);
    assert Winner(rows, name, env) == last;
  }

  /** Among several filtered rows the winner matches this host if any row does, and
      no later row matches. */
  lemma WinnerMatches(rows: seq<string>, i: nat, j: nat, env: Env)
    requires i < |rows| && j < |rows| && i != j && Name(rows[i]) == Name(rows[j]) && Wins(rows, i, Some(env))
    requires Last(rows, |rows|, Name(rows[i]), Unfiltered, env).None? && Filter(rows[j]) in env.matching
    ensures Filter(rows[i]) in env.matching && j < i
  {
    assert !Single(rows, Name(rows[i]));
    assert Meets(rows[j], Name(rows[i]), Matching, env);
  }

  /** Where none matches, it is one not proven excluded if there is one, and the
      last of its kind. */
  lemma WinnerIsUnproven(rows: seq<string>, i: nat, j: nat, env: Env)
    requires i < |rows| && j < |rows| && i != j && Name(rows[i]) == Name(rows[j]) && Wins(rows, i, Some(env))
    requires Last(rows, |rows|, Name(rows[i]), Unfiltered, env).None?
    requires Last(rows, |rows|, Name(rows[i]), Matching, env).None?
    ensures Filter(rows[j]) !in env.excluded ==> Filter(rows[i]) !in env.excluded && j < i
    ensures Filter(rows[i]) in env.excluded ==> j < i
  {
    var name := Name(rows[i]);
    assert !Single(rows, name);
    assert Meets(rows[j], name, Any, env);
    assert Meets(rows[j], name, NotExcluded, env) <==> Filter(rows[j]) !in env.excluded;
  }

  // ----- dedupe_last_wins -----

  method DedupeLastWins(rows: seq<string>) returns (kept: seq<string>)
    ensures kept == Survivors(rows, None)
  {
    var lastSeen: map<string, nat> := map[];
    for i := 0 to |rows|
      invariant forall j :: 0 <= j < i ==> Name(rows[j]) in lastSeen
      invariant forall name :: name in lastSeen ==>
        && lastSeen[name] < i && Name(rows[lastSeen[name]]) == name
        && forall j :: lastSeen[name] < j < i ==> Name(rows[j]) != name
    {
      lastSeen := lastSeen[Name(rows[i]) := i];
    }
    kept := [];
    for i := 0 to |rows|
      invariant kept == Pick(rows, Winners(rows, None), i)
    {
      assert lastSeen[Name(rows[i])] == i <==> i in Winners(rows, None);
      if lastSeen[Name(rows[i])] == i { kept := kept + [rows[i]]; }
    }
  }

  // ----- select_filtered_duplicates -----

  /** The indices of one name among the first `n` rows, in order. */
  ghost predicate IsGroup(rows: seq<string>, n: nat, name: string, group: seq<nat>)
    requires n <= |rows|
  {
    && Ascending(group)
    && (forall k :: 0 <= k < |group| ==> group[k] < n && Name(rows[group[k]]) == name)
    && (forall i :: 0 <= i < n && Name(rows[i]) == name ==> i in group)
  }

  /** What no member of the group beyond `k` meets, no row beyond it meets. */
  lemma BeyondMember(rows: seq<string>, name: string, group: seq<nat>, want: Want, env: Env, k: int, j: nat)
    requires IsGroup(rows, |rows|, name, group) && -1 <= k < |group| && j < |rows|
    requires forall l :: k < l < |group| ==> !Meets(rows[group[l]], name, want, env)
    requires k >= 0 ==> group[k] < j
    ensures !Meets(rows[j], name, want, env)
  {
    if Name(rows[j]) == name {
      var l :| 0 <= l < |group| && group[l] == j;
      assert k < l;
    }
  }

  /** The last member of a group that meets a want. */
  method FindLast(rows: seq<string>, name: string, group: seq<nat>, want: Want, env: Env) returns (found: Option<nat>)
    requires IsGroup(rows, |rows|, name, group)
    ensures found == Last(rows, |rows|, name, want, env)
  {
    for k := |group| downto 0
      invariant forall l :: k <= l < |group| ==> !Meets(rows[group[l]], name, want, env)
    {
      if Meets(rows[group[k]], name, want, env) {
        forall j | group[k] < j < |rows| ensures !Meets(rows[j], name, want, env) {
          BeyondMember(rows, name, group, want, env, k, j);
        }
        return Some(group[k]);
      }
    }
    forall j | 0 <= j < |rows| ensures !Meets(rows[j], name, want, env) {
      BeyondMember(rows, name, group, want, env, -1, j);
    }
    return None;
  }

  /** The row of one group. */
  method Choose(rows: seq<string>, name: string, group: seq<nat>, env: Env) returns (i: nat)
    requires IsGroup(rows, |rows|, name, group) && group != []
    ensures Winner(rows, name, env) == Some(i)
  {
    var last := FindLast(rows, name, group, Any, env);
    var unfiltered := FindLast(rows, name, group, Unfiltered, env);
    SingleGroup(rows, name, group);
    assert Meets(rows[group[0]], name, Any, env);
    if |group| == 1 || unfiltered.Some? { return last.value; }
    var matching := FindLast(rows, name, group, Matching, env);
    if matching.Some? { return matching.value; }
    var unproven := FindLast(rows, name, group, NotExcluded, env);
    return unproven.GetOr(last.value);
  }

  lemma SingleGroup(rows: seq<string>, name: string, group: seq<nat>)
    requires IsGroup(rows, |rows|, name, group) && group != []
    ensures Single(rows, name) <==> |group| == 1
  {
    if |group| == 1 {
      forall i, j | 0 <= i < j < |rows| && Name(rows[i]) == name ensures Name(rows[j]) != name {
        assert i in group && group == [i];
      }
    } else {
      assert group[0] < group[1] && Name(rows[group[0]]) == Name(rows[group[1]]) == name;
    }
  }

  /** The next row joins the group of its name and no other. */
  lemma GroupGrows(rows: seq<string>, i: nat, name: string, group: seq<nat>)
    requires i < |rows| && IsGroup(rows, i, name, group)
    ensures Name(rows[i]) == name ==> IsGroup(rows, i + 1, name, group + [i])
    ensures Name(rows[i]) != name ==> IsGroup(rows, i + 1, name, group)
  {
  }

  method Groups(rows: seq<string>) returns (groups: map<string, seq<nat>>)
    ensures forall name :: name in groups ==> groups[name] != [] && IsGroup(rows, |rows|, name, groups[name])
    ensures forall i :: 0 <= i < |rows| ==> Name(rows[i]) in groups
  {
    groups := map[];
    for i := 0 to |rows|
      invariant forall name :: name in groups ==> groups[name] != [] && IsGroup(rows, i, name, groups[name])
      invariant forall j :: 0 <= j < i ==> Name(rows[j]) in groups
    {
      var name := Name(rows[i]);
      forall other | other in groups { GroupGrows(rows, i, other, groups[other]); }
      if name !in groups { GroupGrows(rows, i, name, []); }
      groups := groups[name := (if name in groups then groups[name] else []) + [i]];
    }
  }

  /** The winners of the names no longer to do, each once. */
  ghost predicate Chosen(rows: seq<string>, env: Env, selected: seq<nat>, todo: set<string>) {
    && Distinct(selected)
    && forall i :: i in selected <==> i in Winners(rows, Some(env)) && Name(rows[i]) !in todo
  }

  lemma ChooseOne(rows: seq<string>, env: Env, selected: seq<nat>, todo: set<string>, name: string, i: nat)
    requires Chosen(rows, env, selected, todo) && name in todo && Winner(rows, name, env) == Some(i)
    ensures Chosen(rows, env, selected + [i], todo - {name})
  {
    forall j ensures j in selected + [i] <==> j in Winners(rows, Some(env)) && Name(rows[j]) !in todo - {name} {
      assert j in selected + [i] <==> j in selected || j == i;
    }
  }

  /** One choice for each group, in whatever order the map gives them out. */
  method ChooseAll(rows: seq<string>, groups: map<string, seq<nat>>, env: Env) returns (selected: seq<nat>)
    requires forall name :: name in groups ==> groups[name] != [] && IsGroup(rows, |rows|, name, groups[name])
    requires forall i :: 0 <= i < |rows| ==> Name(rows[i]) in groups
    ensures Chosen(rows, env, selected, {})
  {
    selected := [];
    var todo := groups.Keys;
    while todo != {}
      invariant todo <= groups.Keys && Chosen(rows, env, selected, todo)
    {
      var name :| name in todo;
      var i := Choose(rows, name, groups[name], env);
      ChooseOne(rows, env, selected, todo, name, i);
      selected := selected + [i];
      todo := todo - {name};
    }
  }

  /** The indices put the chosen rows back into load order. */
  method ByIndex(rows: seq<string>, selected: seq<nat>, env: Env) returns (order: seq<nat>)
    requires Chosen(rows, env, selected, {})
    ensures Ascending(order) && forall i :: i in order <==> i in Winners(rows, Some(env))
  {
    var byIndex := (a: nat, b: nat) => a <= b;
    order := Sort(selected, byIndex);
    OrderIsTheWinners(rows, selected, order, byIndex, env);
  }

  /** Rows at the winners' ascending indices are the survivors. */
  lemma OrderedWinnersSurvive(rows: seq<string>, order: seq<nat>, env: Env)
    requires Ascending(order) && forall i :: i in order <==> i in Winners(rows, Some(env))
    ensures |order| == |Survivors(rows, Some(env))|
    ensures forall k :: 0 <= k < |order| ==> order[k] < |rows| && Survivors(rows, Some(env))[k] == rows[order[k]]
  {
    var xs := SurvivorsAt(rows, Some(env));
    forall i ensures i in order <==> i in xs {
      if i in xs { assert i in Winners(rows, Some(env)); }
    }
    AscendingIsUnique(order, xs);
  }

  method RowsAt(rows: seq<string>, order: seq<nat>) returns (kept: seq<string>)
    requires forall k :: 0 <= k < |order| ==> order[k] < |rows|
    ensures |kept| == |order| && forall k :: 0 <= k < |order| ==> kept[k] == rows[order[k]]
  {
    kept := [];
    for k := 0 to |order|
      invariant |kept| == k && forall l :: 0 <= l < k ==> kept[l] == rows[order[l]]
    {
      kept := kept + [rows[order[k]]];
    }
  }

  method SelectFilteredDuplicates(rows: seq<string>, env: Env) returns (kept: seq<string>)
    ensures kept == Survivors(rows, Some(env))
  {
    var groups := Groups(rows);
    var selected := ChooseAll(rows, groups, env);
    var order := ByIndex(rows, selected, env);
    OrderedWinnersSurvive(rows, order, env);
    kept := RowsAt(rows, order);
  }

  lemma OrderIsTheWinners(rows: seq<string>, selected: seq<nat>, order: seq<nat>, byIndex: (nat, nat) -> bool, env: Env)
    requires forall a, b :: byIndex(a, b) <==> a <= b
    requires Sorted(order, byIndex) && multiset(order) == multiset(selected) && Distinct(selected)
    requires forall i :: i in selected <==> i in Winners(rows, Some(env))
    ensures Ascending(order)
    ensures forall i :: i in order <==> i in Winners(rows, Some(env))
  {
    DistinctRearranged(selected, order);
    forall i ensures i in order <==> i in selected {
      assert i in order <==> i in multiset(order);
      assert i in selected <==> i in multiset(selected);
    }
  }

  // ----- sort_entries and the loader -----

  datatype Ordering = Less | Equal | Greater {
    function Then(next: Ordering): Ordering { if Equal? then next else this }

    function Flip(): Ordering { match this case Less => Greater case Equal => Equal case Greater => Less }
  }

  function Compare(a: string, b: string): Ordering {
    if a == [] then (if b == [] then Equal else Less)
    else if b == [] then Greater
    else if a[0] < b[0] then Less
    else if b[0] < a[0] then Greater
    else Compare(a[1..], b[1..])
  }

  /** By lower-cased name, then name, then the whole row. */
  function CompareRows(lower: string -> string, a: string, b: string): Ordering {
    Compare(lower(Name(a)), lower(Name(b))).Then(Compare(Name(a), Name(b)).Then(Compare(a, b)))
  }

  function ByName(lower: string -> string): (string, string) -> bool { (a, b) => CompareRows(lower, a, b) != Greater }

  lemma {:induction false} CompareFlips(a: string, b: string)
    ensures Compare(b, a) == Compare(a, b).Flip()
    ensures Compare(a, b).Equal? <==> a == b
  {
    if a != [] && b != [] {
      CompareFlips(a[1..], b[1..]);
      assert a == [a[0]] + a[1..] && b == [b[0]] + b[1..];
    }
  }

  /** Of two steps up, a strict one makes the whole strict. */
  ghost predicate Chains(ab: Ordering, bc: Ordering, ac: Ordering) {
    !ab.Greater? && !bc.Greater? ==> !ac.Greater? && (ab.Less? || bc.Less? ==> ac.Less?)
  }

  lemma {:induction false} CompareChains(a: string, b: string, c: string)
    ensures Chains(Compare(a, b), Compare(b, c), Compare(a, c))
  {
    if a != [] && b != [] && c != [] { CompareChains(a[1..], b[1..], c[1..]); }
  }

  lemma CompareRowsChains(lower: string -> string, a: string, b: string, c: string)
    ensures Chains(CompareRows(lower, a, b), CompareRows(lower, b, c), CompareRows(lower, a, c))
  {
    var x, y, z := Name(a), Name(b), Name(c);
    CompareChains(lower(x), lower(y), lower(z));
    CompareChains(x, y, z);
    CompareChains(a, b, c);
    CompareFlips(lower(x), lower(y));
    CompareFlips(lower(y), lower(z));
    CompareFlips(x, y);
    CompareFlips(y, z);
  }

  lemma CompareRowsFlips(lower: string -> string, a: string, b: string)
    ensures CompareRows(lower, b, a) == CompareRows(lower, a, b).Flip()
    ensures CompareRows(lower, a, b).Equal? ==> a == b
  {
    CompareFlips(lower(Name(a)), lower(Name(b)));
    CompareFlips(Name(a), Name(b));
    CompareFlips(a, b);
  }

  /** The order of `sort_entries` is total, so equal rows are the only ties. */
  lemma ByNameIsTotal(lower: string -> string)
    ensures Total(ByName(lower))
  {
    forall a, b ensures ByName(lower)(a, b) || ByName(lower)(b, a) { CompareRowsFlips(lower, a, b); }
    forall a, b | ByName(lower)(a, b) && ByName(lower)(b, a) ensures a == b { CompareRowsFlips(lower, a, b); }
    forall a, b, c | ByName(lower)(a, b) && ByName(lower)(b, c) ensures ByName(lower)(a, c) {
      CompareRowsChains(lower, a, b, c);
    }
  }

  function Retained(rows: seq<string>, safe: string -> bool): seq<string> {
    if rows == [] then []
    else
      var n := |rows| - 1;
      Retained(rows[..n], safe) + if safe(Name(rows[n])) then [rows[n]] else []
  }

  method Retain(rows: seq<string>, safe: string -> bool) returns (retained: seq<string>)
    ensures retained == Retained(rows, safe)
  {
    retained := [];
    for i := 0 to |rows|
      invariant retained == Retained(rows[..i], safe)
    {
      assert rows[..i + 1][..i] == rows[..i];
      if safe(Name(rows[i])) { retained := retained + [rows[i]]; }
    }
    assert rows[..|rows|] == rows;
  }

  /** The loader: one row per name, unsafe names dropped, sorted. */
  method LoadEntries(rows: seq<string>, env: Option<Env>, lower: string -> string, safe: string -> bool)
    returns (loaded: seq<string>)
    ensures Sorted(loaded, ByName(lower)) && multiset(loaded) == multiset(Retained(Survivors(rows, env), safe))
  {
    var kept;
    if env.Some? { kept := SelectFilteredDuplicates(rows, env.value); } else { kept := DedupeLastWins(rows); }
    kept := Retain(kept, safe);
    ByNameIsTotal(lower);
    loaded := Sort(kept, ByName(lower));
  }

  /** Whatever order the rows reach the sort in, the loaded list is the same. */
  lemma LoadedListIsUnique(lower: string -> string, a: seq<string>, b: seq<string>)
    requires Sorted(a, ByName(lower)) && Sorted(b, ByName(lower)) && multiset(a) == multiset(b)
    ensures a == b
  {
    ByNameIsTotal(lower);
    SortedFormIsUnique(a, b, ByName(lower));
  }
}
