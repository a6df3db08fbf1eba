// Path utilities over path components. Splitting a path string into
// components is the standard library's job and is outside the model: a
// path is its component list, and collecting components back into a
// path keeps the list.

module UtilPaths {
  import opened Wrappers

  datatype Component =
    | Prefix(prefix: string)
    | RootDir
    | CurDir
    | ParentDir
    | Normal(name: string)

  type Path = seq<Component>

  predicate IsDot(c: Component)
  {
    c.CurDir? || c.ParentDir?
  }

  predicate NoDots(p: Path)
  {
    forall i | 0 <= i < |p| :: !IsDot(p[i])
  }

  /// The kept components after one more input component: `..` pops the
  /// last kept one (whatever it is), `.` is dropped, anything else is kept.
  function Step(kept: Path, c: Component): Path
  {
    match c
    case ParentDir => if |kept| > 0 then kept[..|kept| - 1] else kept
    case CurDir => kept
    case _ => kept + [c]
  }

  /// Reference definition: the components left after reading `p` in order.
  function Normalize(p: Path): (r: Path)
    ensures NoDots(r)
    ensures |r| <= |p|
  {
    if |p| == 0 then [] else Step(Normalize(p[..|p| - 1]), p[|p| - 1])
  }

  /// `normalize_path`: one pass over the components with a stack.
  method NormalizePath(path: Path) returns (normalized: Path)
    ensures normalized == Normalize(path)
  {
    var components: Path := [];
    for i := 0 to |path|
      invariant components == Normalize(path[..i])
    {
      assert path[..i + 1][..i] == path[..i];
      match path[i]
      case ParentDir =>
        if |components| > 0 {
          components := components[..|components| - 1];
        }
      case CurDir =>
      case _ =>
        components := components + [path[i]];
    }
    assert path[..|path|] == path;
    normalized := components;
  }

  /// A path without `.` or `..` is already normal.
  lemma {:induction false} NormalizeNoDots(p: Path)
    requires NoDots(p)
    ensures Normalize(p) == p
  {
    if |p| > 0 {
      NormalizeNoDots(p[..|p| - 1]);
    }
  }

  /// Normalising is idempotent.
  lemma NormalizeIdempotent(p: Path)
    ensures Normalize(Normalize(p)) == Normalize(p)
  {
    NormalizeNoDots(Normalize(p));
  }

  /// Normalising a prefix first does not change the result: kept
  /// components stay in order and later `..` pop them as before.
  lemma {:induction false} NormalizeAppend(p: Path, q: Path)
    ensures Normalize(p + q) == Normalize(Normalize(p) + q)
  {
    if |q| == 0 {
      assert p + q == p;
      assert Normalize(p) + q == Normalize(p);
      NormalizeIdempotent(p);
    } else {
      var q' := q[..|q| - 1];
      NormalizeAppend(p, q');
      assert (p + q)[..|p + q| - 1] == p + q';
      assert (Normalize(p) + q)[..|Normalize(p) + q| - 1] == Normalize(p) + q';
    }
  }

  /// Without `..`, normalising only drops the `.` components.
  lemma {:induction false} NormalizeWithoutParent(p: Path)
    requires forall i | 0 <= i < |p| :: !p[i].ParentDir?
    ensures Normalize(p) == WithoutCurDir(p)
  {
    if |p| > 0 {
      NormalizeWithoutParent(p[..|p| - 1]);
    }
  }

  function WithoutCurDir(p: Path): Path
  {
    if |p| == 0 then []
    else WithoutCurDir(p[..|p| - 1]) + (if p[|p| - 1].CurDir? then [] else [p[|p| - 1]])
  }

  /// Component-wise `starts_with`.
  predicate StartsWith(path: Path, base: Path)
  {
    |base| <= |path| && path[..|base|] == base
  }

  /// `is_descendant`: `ancestor` is a proper component-wise prefix of `path`.
  function IsDescendant(path: Path, ancestor: Path): (r: bool)
    ensures r <==> |ancestor| < |path| && path[..|ancestor|] == ancestor
  {
    StartsWith(path, ancestor) && path != ancestor
  }

  /// No path descends from itself, and descent is transitive.
  lemma DescendantOrder(a: Path, b: Path, c: Path)
    ensures !IsDescendant(a, a)
    ensures IsDescendant(a, b) && IsDescendant(b, c) ==> IsDescendant(a, c)
  {
    if IsDescendant(a, b) && IsDescendant(b, c) {
      assert a[..|c|] == a[..|b|][..|c|];
    }
  }

  /// `relative_path`: the rest of the normalised target after the
  /// normalised base, when the base is a prefix of it.
  function RelativePath(base: Path, target: Path): (r: Option<Path>)
    ensures r.Some? <==> StartsWith(Normalize(target), Normalize(base))
    ensures r.Some? ==> Normalize(base) + r.value == Normalize(target)
  {
    var b := Normalize(base);
    var t := Normalize(target);
    if StartsWith(t, b) then
      assert t[..|b|] + t[|b|..] == t;
      Some(t[|b|..])
    else None
  }

  /// The relative path from a directory to itself is empty, and from a
  /// base to one of its normal descendants it is the tail.
  lemma RelativePathOfDescendant(base: Path, target: Path)
    requires NoDots(base) && NoDots(target) && IsDescendant(target, base)
    ensures RelativePath(base, target) == Some(target[|base|..])
    ensures RelativePath(base, base) == Some([])
  {
    NormalizeNoDots(base);
    NormalizeNoDots(target);
  }
}
