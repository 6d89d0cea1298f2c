/** Lexical normalization of paths, and the test by which a public symlink is
    taken to belong to an install root. */
module LexicalPath {
  import opened Wrappers

  /** A path component below the root. */
  datatype Part = Cur | Up | Name(name: string)

  datatype Path = Path(absolute: bool, parts: seq<Part>)

  // ----- normalization -----

  /** One turn of the loop in `lexical_normalize`. */
  function Push(absolute: bool, normalized: seq<Part>, part: Part): seq<Part> {
    match part
    case Cur => normalized
    case Name(_) => normalized + [part]
    case Up =>
      if normalized != [] && normalized[|normalized| - 1].Name? then normalized[..|normalized| - 1]
      else if absolute then normalized
      else normalized + [Up]
  }

  function Fold(absolute: bool, normalized: seq<Part>, parts: seq<Part>): seq<Part>
    decreases |parts|
  {
    if parts == [] then normalized else Fold(absolute, Push(absolute, normalized, parts[0]), parts[1..])
  }

  function Normalize(p: Path): Path { Path(p.absolute, Fold(p.absolute, [], p.parts)) }

  lemma {:induction false} FoldConcat(absolute: bool, normalized: seq<Part>, a: seq<Part>, b: seq<Part>)
    ensures Fold(absolute, normalized, a + b) == Fold(absolute, Fold(absolute, normalized, a), b)
    decreases |a|
  {
    if a == [] {
      assert a + b == b;
    } else {
      assert (a + b)[1..] == a[1..] + b;
      FoldConcat(absolute, Push(absolute, normalized, a[0]), a[1..], b);
    }
  }

  /** The loop over the components of a path, pushing and popping a buffer. */
  method LexicalNormalize(path: Path) returns (r: Path)
    ensures r == Normalize(path)
  {
    var normalized: seq<Part> := [];
    for i := 0 to |path.parts|
      invariant Fold(path.absolute, normalized, path.parts[i..]) == Fold(path.absolute, [], path.parts)
    {
      var component := path.parts[i];
      match component {
        case Cur =>
        case Up =>
          var last := if normalized == [] then None else Some(normalized[|normalized| - 1]);
          if last.Some? && last.value.Name? {
            normalized := normalized[..|normalized| - 1];
          } else if !path.absolute {
            normalized := normalized + [component];
          }
        case Name(_) =>
          normalized := normalized + [component];
      }
      assert path.parts[i..][1..] == path.parts[i + 1..];
    }
    return Path(path.absolute, normalized);
  }

  // ----- normal forms -----

  /** No `.`; no `..` under the root, and in a relative path only in front. */
  predicate Normal(absolute: bool, parts: seq<Part>) {
    && (forall i :: 0 <= i < |parts| ==> !parts[i].Cur? && (absolute ==> parts[i].Name?))
    && (forall i, j :: 0 <= i < j < |parts| && parts[j].Up? ==> parts[i].Up?)
  }

  predicate IsNormal(p: Path) { Normal(p.absolute, p.parts) }

  lemma PushNormal(absolute: bool, normalized: seq<Part>, part: Part)
    requires Normal(absolute, normalized)
    ensures Normal(absolute, Push(absolute, normalized, part))
    ensures Normal(absolute, normalized + [part]) ==> Push(absolute, normalized, part) == normalized + [part]
  {
    var n := |normalized|;
    if Normal(absolute, normalized + [part]) && 0 < n {
      assert (normalized + [part])[n] == part && (normalized + [part])[n - 1] == normalized[n - 1];
    } else if Normal(absolute, normalized + [part]) {
      assert (normalized + [part])[0] == part;
    }
  }

  lemma {:induction false} FoldNormal(absolute: bool, normalized: seq<Part>, parts: seq<Part>)
    requires Normal(absolute, normalized)
    ensures Normal(absolute, Fold(absolute, normalized, parts))
    ensures Normal(absolute, normalized + parts) ==> Fold(absolute, normalized, parts) == normalized + parts
    decreases |parts|
  {
    if parts == [] {
      assert normalized + parts == normalized;
    } else {
      var next := Push(absolute, normalized, parts[0]);
      PushNormal(absolute, normalized, parts[0]);
      FoldNormal(absolute, next, parts[1..]);
      var all := normalized + parts;
      assert all == normalized + [parts[0]] + parts[1..];
      assert all[..|normalized| + 1] == normalized + [parts[0]];
      if Normal(absolute, all) { NormalPrefix(absolute, all, |normalized| + 1); }
    }
  }

  lemma NormalPrefix(absolute: bool, parts: seq<Part>, n: nat)
    requires n <= |parts| && Normal(absolute, parts)
    ensures Normal(absolute, parts[..n])
  {
  }

  /** The result is in normal form, and the normal forms are exactly the paths
      that normalization leaves alone. */
  lemma NormalizeYieldsNormalForm(p: Path)
    ensures IsNormal(Normalize(p))
    ensures IsNormal(p) <==> Normalize(p) == p
  {
    FoldNormal(p.absolute, [], p.parts);
    assert [] + p.parts == p.parts;
  }

  lemma NormalizeIsIdempotent(p: Path)
    ensures Normalize(Normalize(p)) == Normalize(p)
  {
    NormalizeYieldsNormalForm(p);
    NormalizeYieldsNormalForm(Normalize(p));
  }

  // ----- joining -----

  /** `Path::join`: an absolute second path replaces the first, and a leading `.`
      of a continued path is no component. */
  function Join(a: Path, b: Path): Path {
    if b.absolute then b
    else if (a.absolute || a.parts != []) && b.parts != [] && b.parts[0].Cur? then Path(a.absolute, a.parts + b.parts[1..])
    else Path(a.absolute, a.parts + b.parts)
  }

  lemma FoldOfJoin(a: Path, b: Path)
    requires !b.absolute
    ensures Normalize(Join(a, b)) == Path(a.absolute, Fold(a.absolute, Fold(a.absolute, [], a.parts), b.parts))
  {
    var more := Join(a, b).parts[|a.parts|..];
    assert Join(a, b).parts == a.parts + more;
    assert more == b.parts || (b.parts != [] && b.parts[0].Cur? && more == b.parts[1..]);
    FoldConcat(a.absolute, [], a.parts, more);
  }

  /** The base of a join may be normalized first. */
  lemma NormalizeOfJoin(a: Path, b: Path)
    ensures Normalize(Join(a, b)) == Normalize(Join(Normalize(a), b))
  {
    if !b.absolute {
      FoldOfJoin(a, b);
      FoldOfJoin(Normalize(a), b);
      NormalizeIsIdempotent(a);
    }
  }

  // ----- walking a tree without symlinks -----

  /** A directory or file, named from the root. */
  type Node = seq<string>

  function Follow(at: Node, part: Part): Node {
    match part
    case Cur => at
    case Up => if at == [] then [] else at[..|at| - 1]
    case Name(name) => at + [name]
  }

  /** The node a walk ends at, if every node on the way exists. */
  function Walk(tree: set<Node>, at: Node, parts: seq<Part>): Option<Node>
    decreases |parts|
  {
    if at !in tree then None
    else if parts == [] then Some(at)
    else Walk(tree, Follow(at, parts[0]), parts[1..])
  }

  function Reach(tree: set<Node>, cwd: Node, p: Path): Option<Node> {
    Walk(tree, if p.absolute then [] else cwd, p.parts)
  }

  lemma {:induction false} WalkAppend(tree: set<Node>, at: Node, parts: seq<Part>, last: Part)
    ensures Walk(tree, at, parts + [last])
      == match Walk(tree, at, parts)
         case None => None
         case Some(n) => if Follow(n, last) in tree then Some(Follow(n, last)) else None
    decreases |parts|
  {
    if parts == [] {
      assert (parts + [last])[1..] == [];
    } else {
      assert (parts + [last])[1..] == parts[1..] + [last];
      WalkAppend(tree, Follow(at, parts[0]), parts[1..], last);
    }
  }

  lemma PushWalks(tree: set<Node>, absolute: bool, start: Node, normalized: seq<Part>, at: Node, part: Part)
    requires Normal(absolute, normalized) && (absolute ==> start == [])
    requires Walk(tree, start, normalized) == Some(at) && Follow(at, part) in tree
    ensures Walk(tree, start, Push(absolute, normalized, part)) == Some(Follow(at, part))
  {
    WalkAppend(tree, start, normalized, part);
    if part.Up? && normalized != [] {
      var front, last := normalized[..|normalized| - 1], normalized[|normalized| - 1];
      assert normalized == front + [last];
      WalkAppend(tree, start, front, last);
    }
  }

  lemma {:induction false} FoldWalks(tree: set<Node>, absolute: bool, start: Node, normalized: seq<Part>, at: Node,
                                     parts: seq<Part>)
    requires Normal(absolute, normalized) && (absolute ==> start == [])
    requires Walk(tree, start, normalized) == Some(at) && Walk(tree, at, parts).Some?
    ensures Walk(tree, start, Fold(absolute, normalized, parts)) == Walk(tree, at, parts)
    decreases |parts|
  {
    if parts != [] {
      PushWalks(tree, absolute, start, normalized, at, parts[0]);
      PushNormal(absolute, normalized, parts[0]);
      FoldWalks(tree, absolute, start, Push(absolute, normalized, parts[0]), Follow(at, parts[0]), parts[1..]);
    }
  }

  /** A path that exists and its normal form reach the same node. */
  lemma NormalizeReachesTheSameNode(tree: set<Node>, cwd: Node, p: Path)
    requires Reach(tree, cwd, p).Some?
    ensures Reach(tree, cwd, Normalize(p)) == Reach(tree, cwd, p)
  {
    var start := if p.absolute then [] else cwd;
    FoldWalks(tree, p.absolute, start, [], start, p.parts);
  }

  function Names(node: Node): (parts: seq<Part>)
    ensures |parts| == |node| && forall i :: 0 <= i < |node| ==> parts[i] == Name(node[i])
  {
    seq(|node|, i requires 0 <= i < |node| => Name(node[i]))
  }

  /** The node a walk would end at, whether or not anything on the way exists. */
  function Spell(at: Node, parts: seq<Part>): Node
    decreases |parts|
  {
    if parts == [] then at else Spell(Follow(at, parts[0]), parts[1..])
  }

  lemma PushSpells(at: Node, part: Part)
    ensures Push(true, Names(at), part) == Names(Follow(at, part))
  {
  }

  lemma {:induction false} FoldSpells(at: Node, parts: seq<Part>)
    ensures Fold(true, Names(at), parts) == Names(Spell(at, parts))
    decreases |parts|
  {
    if parts != [] {
      PushSpells(at, parts[0]);
      FoldSpells(Follow(at, parts[0]), parts[1..]);
    }
  }

  /** The normal form of an absolute path spells out the node it names. */
  lemma AbsoluteNormalForm(p: Path)
    requires p.absolute
    ensures Normalize(p) == Path(true, Names(Spell([], p.parts)))
  {
    FoldSpells([], p.parts);
    assert Names([]) == [];
  }

  lemma {:induction false} WalkSpells(tree: set<Node>, at: Node, parts: seq<Part>)
    requires Walk(tree, at, parts).Some?
    ensures Walk(tree, at, parts) == Some(Spell(at, parts))
    decreases |parts|
  {
    if parts != [] { WalkSpells(tree, Follow(at, parts[0]), parts[1..]); }
  }

  // ----- link ownership -----

  function Parent(p: Path): Option<Path> {
    if p.parts == [] then None else Some(Path(p.absolute, p.parts[..|p.parts| - 1]))
  }

  /** `immediate_symlink_target`, for the text a symlink holds. */
  function ImmediateTarget(link: Path, text: Path): Path {
    var directory := if Parent(link).Some? then Parent(link).value else Path(false, [Cur]);
    Normalize(if text.absolute then text else Join(directory, text))
  }

  /** `Path::starts_with` compares components, the root among them. */
  predicate StartsWith(p: Path, root: Path) {
    (root.absolute ==> p.absolute) && (root.absolute || root.parts == [] || !p.absolute) && root.parts <= p.parts
  }

  predicate TargetsAnyRoot(link: Path, text: Path, roots: seq<Path>) {
    exists i :: 0 <= i < |roots| && StartsWith(ImmediateTarget(link, text), Normalize(roots[i]))
  }

  lemma NamesStartWith(n: Node, m: Node)
    ensures StartsWith(Path(true, Names(n)), Path(true, Names(m))) <==> m <= n
  {
    if Names(m) <= Names(n) {
      forall i | 0 <= i < |m| ensures m[i] == n[i] { assert Names(m)[i] == Names(n)[i]; }
    }
  }

  /** However link, target and roots are spelled, and whether or not they exist, a
      link belongs to one of the roots exactly when the node its target names lies
      at or below that root. */
  lemma OwnershipIsContainment(link: Path, text: Path, roots: seq<Path>)
    requires link.absolute && link.parts != [] && forall i :: 0 <= i < |roots| ==> roots[i].absolute
    ensures TargetsAnyRoot(link, text, roots)
      <==> exists i :: 0 <= i < |roots| && Spell([], roots[i].parts) <= Spell([], Join(Parent(link).value, text).parts)
  {
    var target := Join(Parent(link).value, text);
    AbsoluteNormalForm(target);
    var n := Spell([], target.parts);
    assert ImmediateTarget(link, text) == Path(true, Names(n));
    forall i | 0 <= i < |roots|
      ensures StartsWith(ImmediateTarget(link, text), Normalize(roots[i])) <==> Spell([], roots[i].parts) <= n
    {
      AbsoluteNormalForm(roots[i]);
      NamesStartWith(n, Spell([], roots[i].parts));
    }
  }

  /** Where target and root exist, these are the nodes that walking reaches. */
  lemma OwnershipOfReachedNodes(tree: set<Node>, link: Path, text: Path, root: Path)
    requires link.absolute && link.parts != [] && root.absolute
    requires Reach(tree, [], Join(Parent(link).value, text)).Some? && Reach(tree, [], root).Some?
    ensures TargetsAnyRoot(link, text, [root])
      <==> Reach(tree, [], root).value <= Reach(tree, [], Join(Parent(link).value, text)).value
  {
    OwnershipIsContainment(link, text, [root]);
    WalkSpells(tree, [], Join(Parent(link).value, text).parts);
    WalkSpells(tree, [], root.parts);
    assert [root][0] == root;
  }

  // ----- ownership for every spelling, relative ones too -----

  /** A place: how many directories above the start of a relative path, and the names
      below that. */
  datatype Spot = Spot(absolute: bool, ups: nat, names: Node)

  function Step(s: Spot, part: Part): Spot {
    match part
    case Cur => s
    case Name(name) => s.(names := s.names + [name])
    case Up =>
      if s.names != [] then s.(names := s.names[..|s.names| - 1])
      else if s.absolute then s
      else s.(ups := s.ups + 1)
  }

  function Roam(s: Spot, parts: seq<Part>): Spot
    decreases |parts|
  {
    if parts == [] then s else Roam(Step(s, parts[0]), parts[1..])
  }

  function Written(s: Spot): (parts: seq<Part>)
    ensures |parts| == s.ups + |s.names|
    ensures forall i :: 0 <= i < |parts| ==> parts[i] == if i < s.ups then Up else Name(s.names[i - s.ups])
  {
    seq(s.ups, i => Up) + Names(s.names)
  }

  lemma PushSteps(s: Spot, part: Part)
    requires s.absolute ==> s.ups == 0
    ensures Push(s.absolute, Written(s), part) == Written(Step(s, part))
  {
  }

  lemma {:induction false} FoldRoams(s: Spot, parts: seq<Part>)
    requires s.absolute ==> s.ups == 0
    ensures Fold(s.absolute, Written(s), parts) == Written(Roam(s, parts))
    ensures Roam(s, parts).absolute == s.absolute && (s.absolute ==> Roam(s, parts).ups == 0)
    decreases |parts|
  {
    if parts != [] {
      PushSteps(s, parts[0]);
      FoldRoams(Step(s, parts[0]), parts[1..]);
    }
  }

  /** The start of an absolute path is the root, of any other the empty place. */
  function Origin(p: Path): Spot { Spot(p.absolute, 0, []) }

  /** The place a link's text names: from the root if it is absolute, else from the
      directory the link stands in, or the current one if it stands nowhere. */
  function Named(link: Path, text: Path): Spot {
    if text.absolute then Roam(Origin(text), text.parts)
    else if link.parts == [] then Roam(Spot(false, 0, []), text.parts)
    else Roam(Roam(Origin(link), link.parts[..|link.parts| - 1]), text.parts)
  }

  /** Containment by components.  Among relative places a start further up counts as
      contained in one that is only a start, and in the empty one everything is. */
  predicate Below(s: Spot, root: Spot) {
    if root.names == [] then (root.absolute && s.absolute) || (!root.absolute && root.ups <= s.ups)
    else s.absolute == root.absolute && s.ups == root.ups && root.names <= s.names
  }

  lemma NormalizeIsWritten(p: Path)
    ensures Normalize(p) == Path(p.absolute, Written(Roam(Origin(p), p.parts)))
  {
    FoldRoams(Origin(p), p.parts);
    assert Written(Origin(p)) == [];
  }

  lemma TargetIsNamed(link: Path, text: Path)
    ensures var s := Named(link, text);
      ImmediateTarget(link, text) == Path(s.absolute, Written(s)) && (s.absolute ==> s.ups == 0)
  {
    FoldRoams(Origin(text), text.parts);
    if text.absolute {
      NormalizeIsWritten(text);
    } else {
      var base := if link.parts == [] then Path(false, [Cur]) else Parent(link).value;
      assert Roam(Spot(false, 0, []), [Cur]) == Spot(false, 0, []);
      FoldOfJoin(base, text);
      FoldRoams(Origin(base), base.parts);
      FoldRoams(Roam(Origin(base), base.parts), text.parts);
      assert Written(Origin(base)) == [];
    }
  }

  lemma BelowIsWritten(s: Spot, root: Spot)
    requires (s.absolute ==> s.ups == 0) && (root.absolute ==> root.ups == 0) && Below(s, root)
    ensures StartsWith(Path(s.absolute, Written(s)), Path(root.absolute, Written(root)))
  {
    var p, r := Written(s), Written(root);
    forall i | 0 <= i < |r| ensures i < |p| && r[i] == p[i] {
      if root.ups <= i { assert root.names[i - root.ups] == s.names[i - root.ups]; }
    }
  }

  /** Where one start is further up, the longer start meets a name. */
  lemma StartsDiffer(s: Spot, root: Spot)
    ensures s.ups < root.ups && s.ups < |Written(s)| ==> Written(s)[s.ups] != Written(root)[s.ups]
    ensures root.ups < s.ups && 0 < |root.names| ==> Written(s)[root.ups] != Written(root)[root.ups]
  {
  }

  lemma WrittenIsBelow(s: Spot, root: Spot)
    requires (s.absolute ==> s.ups == 0) && (root.absolute ==> root.ups == 0)
    requires StartsWith(Path(s.absolute, Written(s)), Path(root.absolute, Written(root)))
    ensures Below(s, root)
  {
    var p, r := Written(s), Written(root);
    assert forall i :: 0 <= i < |r| ==> i < |p| && p[i] == r[i];
    StartsDiffer(s, root);
    if s.ups == root.ups {
      forall i | 0 <= i < |root.names| ensures i < |s.names| && root.names[i] == s.names[i] {
        assert p[s.ups + i] == r[s.ups + i];
      }
    }
  }

  /** For every link, text and list of roots, absolute or relative: the link belongs to
      one of the roots exactly when the place its text names is below that root's. */
  lemma OwnershipEverywhere(link: Path, text: Path, roots: seq<Path>)
    ensures TargetsAnyRoot(link, text, roots)
      <==> exists i :: 0 <= i < |roots| && Below(Named(link, text), Roam(Origin(roots[i]), roots[i].parts))
  {
    TargetIsNamed(link, text);
    forall i | 0 <= i < |roots|
      ensures StartsWith(ImmediateTarget(link, text), Normalize(roots[i]))
        <==> Below(Named(link, text), Roam(Origin(roots[i]), roots[i].parts))
    {
      NormalizeIsWritten(roots[i]);
      FoldRoams(Origin(roots[i]), roots[i].parts);
      var place, root := Named(link, text), Roam(Origin(roots[i]), roots[i].parts);
      if Below(place, root) { BelowIsWritten(place, root); }
      if StartsWith(Path(place.absolute, Written(place)), Path(root.absolute, Written(root))) { WrittenIsBelow(place, root); }
    }
  }

  /** A relative root never owns a link that leads to an absolute target, unless it
      normalizes to the empty path, which owns every link there is. */
  lemma RelativeRootOwnsAllOrNothing(link: Path, text: Path, root: Path)
    requires !root.absolute && ImmediateTarget(link, text).absolute
    ensures TargetsAnyRoot(link, text, [root]) <==> Normalize(root).parts == []
  {
    assert [root][0] == root;
  }
}
