/** What the choice among configuration rows means for rows as text: which part of a
    row is its name and its filter, which row of a name survives, and in what order
    the survivors end. */
module DuplicateRows {
  import opened Sorting
  import opened Wrappers
  import opened Duplicates

  // ----- rows and fields -----

  /** Fields with bars between them. */
  function Row(fields: seq<string>): string
    requires fields != []
  {
    if |fields| == 1 then fields[0] else fields[0] + "|" + Row(fields[1..])
  }

  predicate BarFree(fields: seq<string>) { forall i :: 0 <= i < |fields| ==> '|' !in fields[i] }

  lemma {:induction false} UpToFirstBar(field: string, rest: string)
    requires '|' !in field && (rest == [] || rest[0] == '|')
    ensures UpToBar(field + rest) == field
  {
    if field == [] {
      assert field + rest == rest;
    } else {
      assert (field + rest)[1..] == field[1..] + rest;
      UpToFirstBar(field[1..], rest);
      assert field == [field[0]] + field[1..];
    }
  }

  /** Every row is fields with bars between them, in one way. */
  lemma {:induction false} EveryRowHasFields(row: string) returns (fields: seq<string>)
    ensures fields != [] && BarFree(fields) && Row(fields) == row
    decreases |row|
  {
    var first := UpToBar(row);
    UpToBarIsPrefix(row);
    if |first| == |row| {
      fields := [first];
    } else {
      var rest := EveryRowHasFields(row[|first| + 1..]);
      fields := [first] + rest;
      assert fields[1..] == rest;
      assert row == first + "|" + row[|first| + 1..];
    }
  }

  lemma {:induction false} UpToBarIsPrefix(row: string)
    ensures var n := |UpToBar(row)|;
      n <= |row| && UpToBar(row) == row[..n] && '|' !in row[..n] && (n < |row| ==> row[n] == '|')
  {
    if row != [] && row[0] != '|' {
      UpToBarIsPrefix(row[1..]);
      assert row == [row[0]] + row[1..];
    }
  }

  /** Field `n` is the one that stands `n`th between the bars, or nothing. */
  lemma {:induction false} FieldOfRow(fields: seq<string>, n: nat)
    requires fields != [] && BarFree(fields)
    ensures Field(Row(fields), n) == if n < |fields| then fields[n] else []
    decreases n
  {
    if |fields| == 1 {
      UpToFirstBar(fields[0], []);
      assert fields[0] + [] == fields[0];
    } else {
      var rest := "|" + Row(fields[1..]);
      assert Row(fields) == fields[0] + rest;
      UpToFirstBar(fields[0], rest);
      if n > 0 {
        assert Row(fields)[|fields[0]| + 1..] == Row(fields[1..]);
        FieldOfRow(fields[1..], n - 1);
      }
    }
  }

  /** The name comes first and the filter fifth. */
  lemma NameAndFilter(fields: seq<string>)
    requires fields != [] && BarFree(fields)
    ensures Name(Row(fields)) == fields[0]
    ensures Filter(Row(fields)) == if 5 <= |fields| then fields[4] else ""
  {
    FieldOfRow(fields, 0);
    FieldOfRow(fields, 4);
  }

  // ----- which row survives -----

  /** Rows `i` and `j` have one name. */
  predicate Same(rows: seq<string>, i: nat, j: nat) { i < |rows| && j < |rows| && Name(rows[i]) == Name(rows[j]) }

  /** Some row of this name, and no later one, satisfies `good`. */
  ghost predicate LastGood(rows: seq<string>, i: nat, good: string -> bool)
    requires i < |rows|
  {
    good(rows[i]) && forall j :: i < j && Same(rows, i, j) ==> !good(rows[j])
  }

  ghost predicate SomeGood(rows: seq<string>, i: nat, good: string -> bool) {
    exists j :: 0 <= j && Same(rows, i, j) && good(rows[j])
  }

  /** The rule, row by row: alone or with an unfiltered row of its name, the last one;
      else the last that matches this host; else the last not proven excluded; else
      the last. */
  ghost predicate Stands(rows: seq<string>, i: nat, env: Env)
    requires i < |rows|
  {
    var any, bare := (row: string) => true, (row: string) => Filter(row) == "";
    var matches, unproven := (row: string) => Filter(row) in env.matching, (row: string) => Filter(row) !in env.excluded;
    if SomeGood(rows, i, bare) || (forall j :: 0 <= j && Same(rows, i, j) ==> j == i) then LastGood(rows, i, any)
    else if SomeGood(rows, i, matches) then LastGood(rows, i, matches)
    else if SomeGood(rows, i, unproven) then LastGood(rows, i, unproven)
    else LastGood(rows, i, any)
  }

  /** `Last` finds the last good row of a name. */
  lemma LastIsLastGood(rows: seq<string>, i: nat, want: Want, env: Env, good: string -> bool)
    requires i < |rows|
    requires forall j :: 0 <= j < |rows| ==> (Meets(rows[j], Name(rows[i]), want, env) <==> Same(rows, i, j) && good(rows[j]))
    ensures Last(rows, |rows|, Name(rows[i]), want, env).Some? <==> SomeGood(rows, i, good)
    ensures Last(rows, |rows|, Name(rows[i]), want, env) == Some(i) <==> LastGood(rows, i, good)
  {
    var last := Last(rows, |rows|, Name(rows[i]), want, env);
    if last.Some? { assert Same(rows, i, last.value) && good(rows[last.value]); }
    if LastGood(rows, i, good) { assert Meets(rows[i], Name(rows[i]), want, env) && last.Some?; }
  }

  lemma SingleIsAlone(rows: seq<string>, i: nat)
    requires i < |rows|
    ensures Single(rows, Name(rows[i])) <==> forall j :: 0 <= j && Same(rows, i, j) ==> j == i
  {
    if !Single(rows, Name(rows[i])) {
      var a, b :| 0 <= a < b < |rows| && Name(rows[a]) == Name(rows[i]) && Name(rows[b]) == Name(rows[i]);
      assert Same(rows, i, a) && Same(rows, i, b);
    }
  }

  /** A row survives the choice exactly when the rule says so. */
  lemma WinsExactly(rows: seq<string>, i: nat, env: Env)
    requires i < |rows|
    ensures Wins(rows, i, Some(env)) <==> Stands(rows, i, env)
  {
    LastIsLastGood(rows, i, Any, env, (row: string) => true);
    LastIsLastGood(rows, i, Unfiltered, env, (row: string) => Filter(row) == "");
    LastIsLastGood(rows, i, Matching, env, (row: string) => Filter(row) in env.matching);
    LastIsLastGood(rows, i, NotExcluded, env, (row: string) => Filter(row) !in env.excluded);
    SingleIsAlone(rows, i);
  }

  // ----- the order -----

  /** By the first character in which they differ, a prefix first. */
  ghost predicate Precedes(a: string, b: string) {
    exists k :: 0 <= k <= |a| && k < |b| && a[..k] == b[..k] && (k == |a| || a[k] < b[k])
  }

  lemma {:induction false} LessIsPrecedes(a: string, b: string)
    ensures Compare(a, b).Less? ==> Precedes(a, b)
  {
    if Compare(a, b).Less? {
      if a == [] || a[0] < b[0] {
        assert a[..0] == b[..0];
      } else {
        LessIsPrecedes(a[1..], b[1..]);
        var k :| 0 <= k <= |a[1..]| && k < |b[1..]| && a[1..][..k] == b[1..][..k] && (k == |a[1..]| || a[1..][k] < b[1..][k]);
        assert a[..k + 1] == [a[0]] + a[1..][..k] && b[..k + 1] == [b[0]] + b[1..][..k];
      }
    }
  }

  lemma {:induction false} PrecedesIsLess(a: string, b: string, k: nat)
    requires k <= |a| && k < |b| && a[..k] == b[..k] && (k == |a| || a[k] < b[k])
    ensures Compare(a, b).Less?
  {
    if k > 0 {
      assert a[0] == a[..k][0] == b[..k][0] == b[0];
      assert a[1..][..k - 1] == a[..k][1..] == b[..k][1..] == b[1..][..k - 1];
      PrecedesIsLess(a[1..], b[1..], k - 1);
    }
  }

  lemma CompareIsPrecedes(a: string, b: string)
    ensures Compare(a, b).Less? <==> Precedes(a, b)
  {
    LessIsPrecedes(a, b);
    if Precedes(a, b) {
      var k :| 0 <= k <= |a| && k < |b| && a[..k] == b[..k] && (k == |a| || a[k] < b[k]);
      PrecedesIsLess(a, b, k);
    }
  }

  /** Rows ascend by lower-cased name, then by name, then as text, character by
      character. */
  lemma OrderIsByText(lower: string -> string, a: string, b: string)
    ensures ByName(lower)(a, b) <==>
      var x, y := lower(Name(a)), lower(Name(b));
      Precedes(x, y) || (x == y &&
        (Precedes(Name(a), Name(b)) || (Name(a) == Name(b) && (Precedes(a, b) || a == b))))
  {
    CompareIsPrecedes(lower(Name(a)), lower(Name(b)));
    CompareIsPrecedes(Name(a), Name(b));
    CompareIsPrecedes(a, b);
    CompareFlips(lower(Name(a)), lower(Name(b)));
    CompareFlips(Name(a), Name(b));
    CompareFlips(a, b);
  }

  // ----- the loaded list -----

  lemma {:induction false} RetainedMembers(rows: seq<string>, safe: string -> bool, r: string)
    ensures r in Retained(rows, safe) <==> r in rows && safe(Name(r))
    decreases |rows|
  {
    if rows != [] {
      var n := |rows| - 1;
      RetainedMembers(rows[..n], safe, r);
      assert rows == rows[..n] + [rows[n]];
    }
  }

  lemma SurvivorsAreWinners(rows: seq<string>, env: Option<Env>, r: string)
    ensures r in Survivors(rows, env) <==> exists i :: 0 <= i < |rows| && rows[i] == r && Wins(rows, i, env)
  {
    var xs := SurvivorsAt(rows, env);
    var kept := Survivors(rows, env);
    if i :| 0 <= i < |rows| && rows[i] == r && Wins(rows, i, env) {
      var k :| 0 <= k < |xs| && xs[k] == i;
      assert kept[k] == r;
    }
  }

  /** The loaded list holds a row exactly when it stands in the files, wins its name
      and the name is safe; and it is in order. */
  lemma LoadedRows(rows: seq<string>, env: Option<Env>, lower: string -> string, safe: string -> bool, loaded: seq<string>,
                   r: string)
    requires Sorted(loaded, ByName(lower)) && multiset(loaded) == multiset(Retained(Survivors(rows, env), safe))
    ensures r in loaded <==> safe(Name(r)) && exists i :: 0 <= i < |rows| && rows[i] == r && Wins(rows, i, env)
    ensures forall i, j :: 0 <= i < j < |loaded| ==> !Precedes(lower(Name(loaded[j])), lower(Name(loaded[i])))
  {
    RetainedMembers(Survivors(rows, env), safe, r);
    SurvivorsAreWinners(rows, env, r);
    assert r in loaded <==> r in multiset(loaded);
    assert r in Retained(Survivors(rows, env), safe) <==> r in multiset(Retained(Survivors(rows, env), safe));
    forall i, j | 0 <= i < j < |loaded| ensures !Precedes(lower(Name(loaded[j])), lower(Name(loaded[i]))) {
      assert ByName(lower)(loaded[i], loaded[j]);
      CompareIsPrecedes(lower(Name(loaded[j])), lower(Name(loaded[i])));
      CompareFlips(lower(Name(loaded[i])), lower(Name(loaded[j])));
    }
  }
}
