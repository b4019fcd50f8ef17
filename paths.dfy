/** Unix path text as Rust's std::path sees it: a path is split into components
    (`Path::components`), `Path::parent` drops the last one, and `PathBuf::push`
    (behind `Path::join`) appends a name with one '/' between. */
module Paths {
  import opened Wrappers

  const Separator: char := '/'

  /** One piece of a path, as `std::path::Component` on Unix. */
  datatype Component = RootDir | CurDir | ParentDir | Normal(name: string)

  type Path = seq<Component>

  // ---------------------------------------------------------------------------
  // Splitting text at '/' and joining pieces back with '/'
  // ---------------------------------------------------------------------------

  /** The pieces of `s` between separators, empty pieces included:
      "a//b/" has the pieces "a", "", "b", "". */
  function Segments(s: string): (r: seq<string>)
    ensures |r| >= 1
    decreases |s|
  {
    if |s| == 0 then [""]
    else if s[0] == Separator then [""] + Segments(s[1..])
    else
      var rest := Segments(s[1..]);
      [[s[0]] + rest[0]] + rest[1..]
  }

  /** No segment contains a separator. */
  lemma {:induction false} SegmentsSeparatorFree(s: string)
    ensures forall i :: 0 <= i < |Segments(s)| ==> Separator !in Segments(s)[i]
    decreases |s|
  {
    if |s| > 0 {
      SegmentsSeparatorFree(s[1..]);
      var rest := Segments(s[1..]);
      if s[0] != Separator {
        var first := [s[0]] + rest[0];
        assert Separator !in first by {
          assert forall k :: 1 <= k < |first| ==> first[k] == rest[0][k - 1];
        }
        assert forall i :: 1 <= i < |Segments(s)| ==> Segments(s)[i] == rest[i];
      } else {
        assert forall i :: 1 <= i < |Segments(s)| ==> Segments(s)[i] == rest[i - 1];
      }
    }
  }

  /** The pieces put back together with one separator between neighbours. */
  function JoinSlash(pieces: seq<string>): string
    decreases |pieces|
  {
    if |pieces| == 0 then ""
    else if |pieces| == 1 then pieces[0]
    else pieces[0] + [Separator] + JoinSlash(pieces[1..])
  }

  lemma JoinSlashConsChar(c: char, first: string, rest: seq<string>)
    ensures JoinSlash([[c] + first] + rest) == [c] + JoinSlash([first] + rest)
  {
    if |rest| > 0 {
      assert ([[c] + first] + rest)[1..] == rest;
      assert ([first] + rest)[1..] == rest;
    }
  }

  /** Splitting and joining are inverse: joining the pieces of `s` gives `s` back. */
  lemma {:induction false} JoinSegments(s: string)
    ensures JoinSlash(Segments(s)) == s
    decreases |s|
  {
    if |s| == 0 {
    } else if s[0] == Separator {
      JoinSegments(s[1..]);
      var rest := Segments(s[1..]);
      assert ([""] + rest)[1..] == rest;
      assert JoinSlash([""] + rest) == "" + [Separator] + JoinSlash(rest);
      assert s == [s[0]] + s[1..];
    } else {
      JoinSegments(s[1..]);
      var rest := Segments(s[1..]);
      JoinSlashConsChar(s[0], rest[0], rest[1..]);
      assert [rest[0]] + rest[1..] == rest;
      assert s == [s[0]] + s[1..];
    }
  }

  /** A piece without a separator is its own single segment. */
  lemma {:induction false} SegmentsOfPiece(n: string)
    requires Separator !in n
    ensures Segments(n) == [n]
    decreases |n|
  {
    if |n| > 0 {
      assert Separator !in n[1..] by {
        forall k | 0 <= k < |n[1..]| ensures n[1..][k] != Separator { assert n[1..][k] == n[k + 1]; }
      }
      SegmentsOfPiece(n[1..]);
      assert [n[0]] + n[1..] == n;
    }
  }

  /** A separator splits the text into the pieces of either side. */
  lemma {:induction false} SegmentsAppend(a: string, b: string)
    ensures Segments(a + [Separator] + b) == Segments(a) + Segments(b)
    decreases |a|
  {
    var s := a + [Separator] + b;
    if |a| == 0 {
      assert s[1..] == b;
    } else {
      assert s[0] == a[0];
      assert s[1..] == a[1..] + [Separator] + b;
      SegmentsAppend(a[1..], b);
      var rest := Segments(s[1..]);
      var left := Segments(a[1..]);
      assert rest == left + Segments(b);
      if a[0] == Separator {
        SeqConsAppend("", left, Segments(b));
      } else {
        var first := [a[0]] + left[0];
        assert rest[0] == left[0];
        assert rest[1..] == left[1..] + Segments(b);
        SeqConsAppend(first, left[1..], Segments(b));
      }
    }
  }

  lemma SeqConsAppend(x: string, left: seq<string>, right: seq<string>)
    ensures [x] + (left + right) == ([x] + left) + right
  {
  }

  /** Joining separator-free pieces and splitting again gives the pieces back. */
  lemma {:induction false} SegmentsJoin(pieces: seq<string>)
    requires |pieces| >= 1
    requires forall i :: 0 <= i < |pieces| ==> Separator !in pieces[i]
    ensures Segments(JoinSlash(pieces)) == pieces
    decreases |pieces|
  {
    SegmentsOfPiece(pieces[0]);
    if |pieces| > 1 {
      SegmentsJoin(pieces[1..]);
      SegmentsAppend(pieces[0], JoinSlash(pieces[1..]));
      assert [pieces[0]] + pieces[1..] == pieces;
    }
  }

  // ---------------------------------------------------------------------------
  // Components
  // ---------------------------------------------------------------------------

  /** A name a `Normal` component can carry. */
  predicate ValidName(n: string) {
    n != "" && n != "." && n != ".." && Separator !in n
  }

  /** What one segment contributes: empty segments and "." vanish, except that
      "." as the very first segment of a relative path is `CurDir`. */
  function Classify(segment: string, atStart: bool): Path {
    if segment == "" then []
    else if segment == "." then (if atStart then [CurDir] else [])
    else if segment == ".." then [ParentDir]
    else [Normal(segment)]
  }

  function SegmentComponents(segments: seq<string>, atStart: bool): Path
    decreases |segments|
  {
    if |segments| == 0 then []
    else Classify(segments[0], atStart) + SegmentComponents(segments[1..], false)
  }

  predicate IsRooted(s: string) {
    |s| > 0 && s[0] == Separator
  }

  /** `Path::new(s).components()` on Unix: the root comes first exactly when
      the text starts with a separator. */
  function Components(s: string): (r: Path)
    ensures IsRooted(s) <==> |r| > 0 && r[0] == RootDir
  {
    SegmentComponentsUnrooted(Segments(s), true);
    (if IsRooted(s) then [RootDir] else []) + SegmentComponents(Segments(s), true)
  }

  /** Segments never produce the root. */
  lemma {:induction false} SegmentComponentsUnrooted(segments: seq<string>, atStart: bool)
    ensures |SegmentComponents(segments, atStart)| > 0 ==> SegmentComponents(segments, atStart)[0] != RootDir
    decreases |segments|
  {
    if |segments| > 0 {
      SegmentComponentsUnrooted(segments[1..], false);
    }
  }

  /** Which component sequences `Components` can produce: the root only first,
      `CurDir` only first, and names that are proper names. */
  predicate WellFormed(p: Path) {
    forall i :: 0 <= i < |p| ==>
      (p[i] == RootDir ==> i == 0) &&
      (p[i] == CurDir ==> i == 0) &&
      (p[i].Normal? ==> ValidName(p[i].name))
  }

  /** The components after the root (or of a relative path): no root, `CurDir`
      only first and only when `atStart`. */
  predicate TailFormed(q: Path, atStart: bool) {
    forall i :: 0 <= i < |q| ==>
      q[i] != RootDir &&
      (q[i] == CurDir ==> i == 0 && atStart) &&
      (q[i].Normal? ==> ValidName(q[i].name))
  }

  lemma ClassifyFormed(segment: string, atStart: bool)
    requires Separator !in segment
    ensures TailFormed(Classify(segment, atStart), atStart)
  {
  }

  lemma {:induction false} SegmentComponentsFormed(segments: seq<string>, atStart: bool)
    requires forall i :: 0 <= i < |segments| ==> Separator !in segments[i]
    ensures TailFormed(SegmentComponents(segments, atStart), atStart)
    decreases |segments|
  {
    if |segments| > 0 {
      ClassifyFormed(segments[0], atStart);
      SegmentComponentsFormed(segments[1..], false);
      var head := Classify(segments[0], atStart);
      var tail := SegmentComponents(segments[1..], false);
      var p := head + tail;
      forall i | 0 <= i < |p|
        ensures p[i] != RootDir && (p[i] == CurDir ==> i == 0 && atStart) && (p[i].Normal? ==> ValidName(p[i].name))
      {
        if i < |head| { assert p[i] == head[i]; } else { assert p[i] == tail[i - |head|]; }
      }
    }
  }

  /** Every path text splits into a well-formed component sequence. */
  lemma ComponentsWellFormed(s: string)
    ensures WellFormed(Components(s))
  {
    SegmentsSeparatorFree(s);
    if IsRooted(s) { SegmentsSeparatorFree(s[1..]); }
    var segments := Segments(s);
    if IsRooted(s) {
      assert segments == [""] + Segments(s[1..]);
      assert segments[1..] == Segments(s[1..]);
      assert SegmentComponents(segments, true) == SegmentComponents(Segments(s[1..]), false);
      SegmentComponentsFormed(Segments(s[1..]), false);
    } else {
      SegmentComponentsFormed(segments, true);
    }
  }

  // ---------------------------------------------------------------------------
  // Rendering components as text
  // ---------------------------------------------------------------------------

  function Text(c: Component): string {
    match c
    case RootDir => [Separator]
    case CurDir => "."
    case ParentDir => ".."
    case Normal(n) => n
  }

  function Texts(p: Path): (r: seq<string>) {
    seq(|p|, i requires 0 <= i < |p| => Text(p[i]))
  }

  /** The text of a component sequence: pieces joined by '/', a leading root
      written as a leading '/'. */
  function Render(p: Path): (r: string)
    ensures |p| > 0 && p[0] == RootDir ==> IsRooted(r)
  {
    if |p| > 0 && p[0] == RootDir then [Separator] + JoinSlash(Texts(p[1..]))
    else JoinSlash(Texts(p))
  }

  lemma ClassifyText(c: Component, atStart: bool)
    requires c != RootDir && (c == CurDir ==> atStart) && (c.Normal? ==> ValidName(c.name))
    ensures Classify(Text(c), atStart) == [c]
  {
  }

  lemma TailFormedRest(q: Path, atStart: bool)
    requires |q| > 0 && TailFormed(q, atStart)
    ensures TailFormed(q[1..], false)
  {
    forall i | 0 <= i < |q[1..]|
      ensures q[1..][i] != RootDir && q[1..][i] != CurDir && (q[1..][i].Normal? ==> ValidName(q[1..][i].name))
    {
      assert q[1..][i] == q[i + 1];
    }
  }

  lemma {:induction false} ClassifyTexts(q: Path, atStart: bool)
    requires TailFormed(q, atStart)
    ensures SegmentComponents(Texts(q), atStart) == q
    decreases |q|
  {
    if |q| > 0 {
      assert Texts(q)[1..] == Texts(q[1..]);
      ClassifyText(q[0], atStart);
      TailFormedRest(q, atStart);
      ClassifyTexts(q[1..], false);
      assert [q[0]] + q[1..] == q;
    }
  }

  lemma TextsPieces(q: Path)
    requires TailFormed(q, true)
    ensures forall i :: 0 <= i < |q| ==> Separator !in Texts(q)[i] && Texts(q)[i] != ""
  {
    forall i | 0 <= i < |q| ensures Separator !in Texts(q)[i] && Texts(q)[i] != "" {
      assert Texts(q)[i] == Text(q[i]);
    }
  }

  lemma JoinSlashStart(pieces: seq<string>)
    requires |pieces| >= 1 && pieces[0] != ""
    ensures |JoinSlash(pieces)| > 0 && JoinSlash(pieces)[0] == pieces[0][0]
  {
  }

  lemma ComponentsOfJoin(q: Path, atStart: bool)
    requires TailFormed(q, atStart)
    ensures SegmentComponents(Segments(JoinSlash(Texts(q))), atStart) == q
  {
    if |q| == 0 {
      assert Segments("") == [""];
    } else {
      assert TailFormed(q, true);
      TextsPieces(q);
      SegmentsJoin(Texts(q));
      ClassifyTexts(q, atStart);
    }
  }

  /** Rendering and splitting are inverse on well-formed component sequences. */
  lemma ComponentsRender(p: Path)
    requires WellFormed(p)
    ensures Components(Render(p)) == p
  {
    if |p| > 0 && p[0] == RootDir {
      var q := p[1..];
      assert TailFormed(q, false) by {
        forall i | 0 <= i < |q| ensures q[i] != RootDir && q[i] != CurDir && (q[i].Normal? ==> ValidName(q[i].name)) {
          assert q[i] == p[i + 1];
        }
      }
      var j := JoinSlash(Texts(q));
      var s := [Separator] + j;
      assert s[1..] == j;
      assert Segments(s) == [""] + Segments(j);
      assert ([""] + Segments(j))[1..] == Segments(j);
      ComponentsOfJoin(q, false);
      assert [p[0]] + q == p;
    } else {
      assert TailFormed(p, true);
      if |p| > 0 {
        TextsPieces(p);
        JoinSlashStart(Texts(p));
      }
      ComponentsOfJoin(p, true);
    }
  }

  // ---------------------------------------------------------------------------
  // Parent and push
  // ---------------------------------------------------------------------------

  /** `Path::parent`: everything but the last component; None for the empty path
      and for a path that ends at the root. */
  function Parent(p: Path): (r: Option<Path>)
    ensures r.Some? <==> |p| > 0 && p[|p| - 1] != RootDir
    ensures r.Some? ==> p == r.value + [p[|p| - 1]]
  {
    if |p| == 0 || p[|p| - 1] == RootDir then None else Some(p[..|p| - 1])
  }

  /** `path.parent().and_then(Path::parent)`. */
  function Grandparent(p: Path): (r: Option<Path>)
    ensures r.Some? <==> |p| >= 2 && p[|p| - 1] != RootDir && p[|p| - 2] != RootDir
    ensures r.Some? ==> p == r.value + p[|p| - 2..]
  {
    match Parent(p)
    case None => None
    case Some(q) => Parent(q)
  }

  lemma PrefixWellFormed(p: Path, k: nat)
    requires WellFormed(p) && k <= |p|
    ensures WellFormed(p[..k])
  {
    assert forall i :: 0 <= i < k ==> p[..k][i] == p[i];
  }

  /** The text `base` followed by a directory separator, unless it is empty or
      already ends in one. */
  function DirPrefix(base: string): string {
    if base == "" || base[|base| - 1] == Separator then base else base + [Separator]
  }

  /** `PathBuf::push(name)` on Unix, as used by `Path::join`: an absolute name
      replaces the buffer; otherwise a separator is added when the buffer is
      non-empty and does not already end in one, then the name. */
  function Push(base: string, name: string): (r: string)
    ensures IsRooted(name) ==> r == name
    ensures !IsRooted(name) ==> r == DirPrefix(base) + name
  {
    if IsRooted(name) then name
    else if base != "" && base[|base| - 1] != Separator then base + [Separator] + name
    else base + name
  }

  /** Pushing onto text that ends in a name character adds a separator. */
  lemma PushAfterPiece(prefix: string, piece: string, name: string)
    requires piece != "" && piece[|piece| - 1] != Separator && !IsRooted(name)
    ensures Push(prefix + piece, name) == prefix + (piece + [Separator] + name)
  {
    var base := prefix + piece;
    assert base[|base| - 1] == piece[|piece| - 1];
    assert base + [Separator] + name == prefix + (piece + [Separator] + name);
  }

  lemma {:induction false} SegmentComponentsAppend(x: seq<string>, y: seq<string>, atStart: bool)
    ensures SegmentComponents(x + y, atStart) == SegmentComponents(x, atStart) + SegmentComponents(y, atStart && |x| == 0)
    decreases |x|
  {
    if |x| > 0 {
      assert (x + y)[1..] == x[1..] + y;
      SegmentComponentsAppend(x[1..], y, false);
    } else {
      assert x + y == y;
    }
  }

  /** The components of a text with a separator in it: those of the left side
      followed by those of the right side, which is never at the start. */
  lemma ComponentsSplit(a: string, x: string)
    ensures Components(a + [Separator] + x) ==
      (if IsRooted(a + [Separator] + x) then [RootDir] else []) +
      SegmentComponents(Segments(a), true) + SegmentComponents(Segments(x), false)
  {
    SegmentsAppend(a, x);
    SegmentComponentsAppend(Segments(a), Segments(x), true);
  }

  lemma RootedSplit(a: string, x: string, y: string)
    ensures IsRooted(a + [Separator] + x) == IsRooted(a + [Separator] + y)
    ensures a != "" ==> IsRooted(a + [Separator] + x) == IsRooted(a)
  {
    assert (a + [Separator] + x)[0] == (a + [Separator] + y)[0];
    if a != "" { assert (a + [Separator] + x)[0] == a[0]; }
  }

  lemma PushOntoEmpty(name: string)
    requires ValidName(name)
    ensures Components(Push("", name)) == [Normal(name)]
  {
    SegmentsOfPiece(name);
    assert Push("", name) == name;
    assert !IsRooted(name) by { assert Separator !in name; }
    assert [name][1..] == [];
    assert SegmentComponents([name], true) == Classify(name, true) + SegmentComponents([], false);
  }

  lemma SingleSegment(name: string)
    requires ValidName(name)
    ensures SegmentComponents(Segments(name), false) == [Normal(name)]
    ensures SegmentComponents(Segments(""), false) == []
  {
    SegmentsOfPiece(name);
    assert [name][1..] == [];
    assert Segments("") == [""];
    assert [""][1..] == [];
  }

  lemma PushAfterSeparator(front: string, name: string)
    requires ValidName(name)
    ensures Components(Push(front + [Separator], name)) == Components(front + [Separator]) + [Normal(name)]
  {
    var base := front + [Separator];
    var pushed := front + [Separator] + name;
    assert base == front + [Separator] + "";
    assert Push(base, name) == pushed;
    SingleSegment(name);
    ComponentsSplit(front, "");
    ComponentsSplit(front, name);
    RootedSplit(front, "", name);
    var root := if IsRooted(pushed) then [RootDir] else [];
    var left := SegmentComponents(Segments(front), true);
    assert Components(base) == root + left + [];
    assert Components(pushed) == root + left + [Normal(name)];
  }

  lemma PushAfterName(base: string, name: string)
    requires ValidName(name) && base != "" && base[|base| - 1] != Separator
    ensures Components(Push(base, name)) == Components(base) + [Normal(name)]
  {
    assert Push(base, name) == base + [Separator] + name;
    SegmentsOfPiece(name);
    ComponentsSplit(base, name);
    RootedSplit(base, name, name);
  }

  /** Pushing a proper name adds exactly one `Normal` component. */
  lemma PushComponents(base: string, name: string)
    requires ValidName(name)
    ensures Components(Push(base, name)) == Components(base) + [Normal(name)]
  {
    if base == "" {
      PushOntoEmpty(name);
      assert Components("") == [];
    } else if base[|base| - 1] == Separator {
      var front := base[..|base| - 1];
      assert base == front + [Separator];
      PushAfterSeparator(front, name);
    } else {
      PushAfterName(base, name);
    }
  }

  /** `base.join(n1).join(n2)...`: the names pushed one after another. */
  function JoinAll(base: string, names: seq<string>): (r: string)
    ensures |names| == 0 ==> r == base
    ensures |names| > 0 && IsRooted(names[|names| - 1]) ==> r == names[|names| - 1]
    decreases |names|
  {
    if |names| == 0 then base else JoinAll(Push(base, names[0]), names[1..])
  }

  predicate ValidNames(names: seq<string>) {
    forall i :: 0 <= i < |names| ==> ValidName(names[i])
  }

  /** The components named by a list of proper names. */
  function Normals(names: seq<string>): (r: Path) {
    seq(|names|, i requires 0 <= i < |names| => Normal(names[i]))
  }

  /** Joining proper names writes them after `base` and one separator, each
      separated from the next by one separator. */
  lemma {:induction false} JoinAllText(base: string, names: seq<string>)
    requires |names| >= 1 && ValidNames(names)
    ensures JoinAll(base, names) == DirPrefix(base) + JoinSlash(names)
    decreases |names|
  {
    var n := names[0];
    assert ValidName(n);
    var pushed := Push(base, n);
    assert !IsRooted(n) by { assert Separator !in n; }
    assert pushed == DirPrefix(base) + n;
    if |names| > 1 {
      var rest := names[1..];
      ValidNamesRest(names);
      JoinAllText(pushed, rest);
      assert pushed[|pushed| - 1] == n[|n| - 1];
      assert DirPrefix(pushed) == pushed + [Separator];
      SlashRegroup(DirPrefix(base), n, JoinSlash(rest));
    }
  }

  lemma SlashRegroup(front: string, n: string, rest: string)
    ensures front + n + [Separator] + rest == front + (n + [Separator] + rest)
  {
  }

  lemma ValidNamesRest(names: seq<string>)
    requires |names| > 0 && ValidNames(names)
    ensures ValidName(names[0]) && ValidNames(names[1..])
  {
    assert forall i :: 0 <= i < |names[1..]| ==> names[1..][i] == names[i + 1];
  }

  lemma NormalsCons(x: Path, y: Path, c: Path, names: seq<string>)
    requires |names| > 0
    requires x == y + Normals(names[1..]) && y == c + [Normal(names[0])]
    ensures x == c + Normals(names)
  {
    assert Normals(names) == [Normal(names[0])] + Normals(names[1..]);
  }

  /** Joining proper names adds exactly their `Normal` components. */
  lemma {:induction false} JoinAllComponents(base: string, names: seq<string>)
    requires ValidNames(names)
    ensures Components(JoinAll(base, names)) == Components(base) + Normals(names)
    decreases |names|
  {
    if |names| > 0 {
      var pushed := Push(base, names[0]);
      ValidNamesRest(names);
      PushComponents(base, names[0]);
      JoinAllComponents(pushed, names[1..]);
      NormalsCons(Components(JoinAll(pushed, names[1..])), Components(pushed), Components(base), names);
    }
  }

  lemma WellFormedAppend(p: Path, n: string)
    requires WellFormed(p) && ValidName(n)
    ensures WellFormed(p + [Normal(n)])
  {
    var p' := p + [Normal(n)];
    assert forall i :: 0 <= i < |p| ==> p'[i] == p[i];
  }

  /** Rendering a well-formed sequence extended by names is joining those names
      onto its text. */
  lemma {:induction false} RenderJoinAll(p: Path, names: seq<string>)
    requires WellFormed(p) && ValidNames(names)
    ensures Render(p + Normals(names)) == JoinAll(Render(p), names)
    decreases |names|
  {
    if |names| == 0 {
      assert p + Normals(names) == p;
    } else {
      var p' := p + [Normal(names[0])];
      ValidNamesRest(names);
      RenderAppend(p, names[0]);
      WellFormedAppend(p, names[0]);
      RenderJoinAll(p', names[1..]);
      NormalsCons(p' + Normals(names[1..]), p', p, names);
    }
  }

  /** Joining a proper name and taking the parent gives the original components. */
  lemma ParentOfPush(base: string, name: string)
    requires ValidName(name)
    ensures Parent(Components(Push(base, name))) == Some(Components(base))
  {
    PushComponents(base, name);
  }

  lemma RenderAppendRooted(p: Path, name: string)
    requires WellFormed(p) && ValidName(name) && |p| > 0 && p[0] == RootDir
    ensures Render(p + [Normal(name)]) == Push(Render(p), name)
  {
    var q := p[1..];
    assert (p + [Normal(name)])[1..] == q + [Normal(name)];
    assert Texts(q + [Normal(name)]) == Texts(q) + [name];
    JoinSlashAppend(Texts(q), name);
    assert !IsRooted(name) by { assert Separator !in name; }
    if |q| > 0 {
      assert forall i :: 0 <= i < |q| ==> q[i] == p[i + 1];
      TextsLastNonEmpty(q);
      PushAfterPiece([Separator], JoinSlash(Texts(q)), name);
    } else {
      assert Texts(q) == [];
    }
  }

  lemma RenderAppendRelative(p: Path, name: string)
    requires WellFormed(p) && ValidName(name) && !(|p| > 0 && p[0] == RootDir)
    ensures Render(p + [Normal(name)]) == Push(Render(p), name)
  {
    var p' := p + [Normal(name)];
    assert p'[0] != RootDir;
    assert Texts(p') == Texts(p) + [name];
    JoinSlashAppend(Texts(p), name);
    assert !IsRooted(name) by { assert Separator !in name; }
    if |p| > 0 {
      TextsLastNonEmpty(p);
    }
  }

  /** Rendering a sequence with one more name is pushing that name onto its text. */
  lemma RenderAppend(p: Path, name: string)
    requires WellFormed(p) && ValidName(name)
    ensures Render(p + [Normal(name)]) == Push(Render(p), name)
  {
    if |p| > 0 && p[0] == RootDir {
      RenderAppendRooted(p, name);
    } else {
      RenderAppendRelative(p, name);
    }
  }

  lemma TextsLastNonEmpty(q: Path)
    requires |q| > 0
    requires forall i :: 0 <= i < |q| ==> q[i] != RootDir && (q[i].Normal? ==> ValidName(q[i].name))
    ensures var j := JoinSlash(Texts(q)); j != "" && j[|j| - 1] != Separator
  {
    JoinSlashEnd(Texts(q));
    assert Texts(q)[|q| - 1] == Text(q[|q| - 1]);
  }

  lemma {:induction false} JoinSlashEnd(pieces: seq<string>)
    requires |pieces| >= 1
    ensures var j := JoinSlash(pieces); |j| >= |pieces[|pieces| - 1]| && j[|j| - |pieces[|pieces| - 1]|..] == pieces[|pieces| - 1]
    decreases |pieces|
  {
    if |pieces| > 1 {
      JoinSlashEnd(pieces[1..]);
    }
  }

  lemma {:induction false} JoinSlashAppend(pieces: seq<string>, name: string)
    ensures JoinSlash(pieces + [name]) == if |pieces| == 0 then name else JoinSlash(pieces) + [Separator] + name
    decreases |pieces|
  {
    if |pieces| == 1 {
      assert (pieces + [name])[1..] == [name];
    } else if |pieces| > 1 {
      assert (pieces + [name])[1..] == pieces[1..] + [name];
      JoinSlashAppend(pieces[1..], name);
    }
  }
}
