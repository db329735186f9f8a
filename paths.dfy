/** The part of Node's `path` module (POSIX flavour) that the tool relies on:
    `join`, `dirname`, `parse(..).name`, `extname` and `relative`.

    A path is modelled as its sequence of segments, the pieces between `/`.
    `Normalize` is the lexical clean-up every `path.join` performs: empty
    and `.` segments disappear and `..` cancels the segment before it.
    All paths are relative to the working directory. */
module Paths {
  import opened Wrappers
  import opened Text

  type Path = seq<string>

  /** `s.split("/")`: always at least one piece, none containing `/`. */
  function Split(s: string): (r: seq<string>)
    ensures |r| >= 1
    ensures forall i :: 0 <= i < |r| ==> '/' !in r[i]
  {
    if s == [] then [""]
    else
      var rest := Split(s[1..]);
      if s[0] == '/' then [""] + rest
      else [[s[0]] + rest[0]] + rest[1..]
  }

  /** A segment that survives normalization. */
  predicate IsSegment(s: string)
  {
    s != "" && s != "."
  }

  /** A name a directory listing can hold: never empty, `.`, `..`, and free of `/`. */
  predicate IsName(s: string)
  {
    IsSegment(s) && s != ".." && '/' !in s
  }

  /** No segment contains a separator. */
  predicate Clean(p: Path)
  {
    forall i :: 0 <= i < |p| ==> '/' !in p[i]
  }

  /** A normalized relative path: no empty or `.` segments, and `..` only in a leading run. */
  predicate Normal(p: Path)
  {
    forall i :: 0 <= i < |p| ==> IsSegment(p[i]) && (p[i] == ".." ==> i == 0 || p[i - 1] == "..")
  }

  /** Every segment is an ordinary name (no `..`). */
  predicate AllNames(p: Path)
  {
    forall i :: 0 <= i < |p| ==> IsName(p[i])
  }

  /** One step of normalization: append `seg` to an already normalized path. */
  function Push(acc: Path, seg: string): Path
  {
    if seg == "" || seg == "." then acc
    else if seg == ".." then
      if |acc| > 0 && acc[|acc| - 1] != ".." then acc[..|acc| - 1] else acc + [".."]
    else acc + [seg]
  }

  /** `path.normalize`, on segments, folding from the left. */
  function Normalize(segs: seq<string>): Path
  {
    if |segs| == 0 then [] else Push(Normalize(segs[..|segs| - 1]), segs[|segs| - 1])
  }

  /** A path string, read as normalized segments. */
  function Parse(s: string): Path
  {
    Normalize(Split(s))
  }

  /** The string form of a normalized path; the empty path is `.`. */
  function Render(p: Path): string
  {
    if |p| == 0 then "." else JoinWith(p, "/")
  }

  /** `path.join(a, b)` for two path strings. */
  function JoinStr(a: string, b: string): Path
  {
    Normalize(Split(a) + Split(b))
  }

  /** `path.join(a, b)` for paths already split into segments. */
  function Join(a: Path, b: Path): Path
  {
    Normalize(a + b)
  }

  /** `path.dirname` of a normalized path (the empty path stands for `.`). */
  function Dirname(p: Path): Path
  {
    if |p| == 0 then [] else p[..|p| - 1]
  }

  /** `path.basename` of a normalized path. */
  function Basename(p: Path): string
  {
    if |p| == 0 then "" else p[|p| - 1]
  }

  /** Where `path.extname` starts in a base name: at the last `.`, unless
      that dot is the first character or the name is `..`. */
  function ExtStart(base: string): (r: Option<nat>)
    ensures r.Some? ==> 0 < r.value < |base| && base[r.value] == '.' && '.' !in base[r.value + 1..]
    ensures r.None? ==> '.' !in base || base == ".." || (LastIndexOf(base, '.') == Some(0))
  {
    match LastIndexOf(base, '.')
    case None => None
    case Some(d) => if d == 0 || base == ".." then None else Some(d)
  }

  /** `path.extname` of a base name: `""` or a dot followed by no other dot. */
  function Extname(base: string): (r: string)
    ensures r == "" || (r[0] == '.' && '.' !in r[1..])
    ensures EndsWith(base, r)
  {
    match ExtStart(base)
    case None => ""
    case Some(d) => base[d..]
  }

  /** `path.parse(..).name` of a base name: the base without its extension. */
  function Stem(base: string): (r: string)
    ensures r + Extname(base) == base
  {
    match ExtStart(base)
    case None => base
    case Some(d) => base[..d]
  }

  /** Length of the longest common prefix of two paths. */
  function CommonPrefixLen(a: Path, b: Path): (k: nat)
    ensures k <= |a| && k <= |b| && a[..k] == b[..k]
    ensures k < |a| && k < |b| ==> a[k] != b[k]
  {
    if |a| == 0 || |b| == 0 || a[0] != b[0] then 0
    else
      var k := CommonPrefixLen(a[1..], b[1..]);
      assert a[..k + 1] == [a[0]] + a[1..][..k];
      assert b[..k + 1] == [b[0]] + b[1..][..k];
      k + 1
  }

  /** `path.relative(from, to)` for two normalized paths under one root. */
  function Relative(from: Path, to: Path): Path
  {
    var k := CommonPrefixLen(from, to);
    seq(|from| - k, _ => "..") + to[k..]
  }

  // ---------------------------------------------------------------------
  // Splitting and rendering

  lemma {:induction false} SplitNoSeparator(s: string)
    requires '/' !in s
    ensures Split(s) == [s]
  {
    if s != [] {
      SplitNoSeparator(s[1..]);
      assert s == [s[0]] + s[1..];
    }
  }

  /** Splitting a string that starts with an ordinary character. */
  lemma SplitCons(c: char, s: string)
    requires c != '/'
    ensures Split([c] + s) == [[c] + Split(s)[0]] + Split(s)[1..]
  {
    assert ([c] + s)[1..] == s;
  }

  lemma {:induction false} SplitConcat(a: string, b: string)
    ensures Split(a + "/" + b) == Split(a) + Split(b)
  {
    if a == [] {
      assert a + "/" + b == ['/'] + b;
      assert (['/'] + b)[1..] == b;
    } else {
      var c, a' := a[0], a[1..];
      assert a == [c] + a';
      assert a + "/" + b == [c] + (a' + "/" + b);
      SplitConcat(a', b);
      if c == '/' {
        assert ([c] + (a' + "/" + b))[1..] == a' + "/" + b;
      } else {
        SplitCons(c, a' + "/" + b);
        SplitCons(c, a');
        var ra := Split(a');
        assert Split(a' + "/" + b)[0] == ra[0];
        assert Split(a' + "/" + b)[1..] == ra[1..] + Split(b);
      }
    }
  }

  lemma {:induction false} SplitJoin(p: Path)
    requires |p| >= 1 && Clean(p)
    ensures Split(JoinWith(p, "/")) == p
  {
    if |p| == 1 {
      SplitNoSeparator(p[0]);
    } else {
      SplitJoin(p[1..]);
      SplitNoSeparator(p[0]);
      SplitConcat(p[0], JoinWith(p[1..], "/"));
      assert p == [p[0]] + p[1..];
    }
  }

  /** The rendered form of a path whose last segment ends in `suffix` ends in `suffix`. */
  lemma {:induction false} JoinWithEndsWith(p: Path, sep: string, suffix: string)
    requires |p| >= 1 && EndsWith(p[|p| - 1], suffix)
    ensures EndsWith(JoinWith(p, sep), suffix)
  {
    if |p| > 1 {
      JoinWithEndsWith(p[1..], sep, suffix);
      var r := JoinWith(p[1..], sep);
      assert JoinWith(p, sep) == (p[0] + sep) + r;
      assert (p[0] + sep + r)[|p[0] + sep + r| - |suffix|..] == r[|r| - |suffix|..];
    }
  }

  // ---------------------------------------------------------------------
  // Normalization

  lemma NormalizeSnoc(s: seq<string>, x: string)
    ensures Normalize(s + [x]) == Push(Normalize(s), x)
  {
    assert (s + [x])[..|s|] == s;
  }

  /** Normalizing always yields a normalized path, and keeps it clean. */
  lemma {:induction false} NormalizeIsNormal(segs: seq<string>)
    ensures Normal(Normalize(segs))
    ensures Clean(segs) ==> Clean(Normalize(segs))
  {
    if |segs| > 0 {
      NormalizeIsNormal(segs[..|segs| - 1]);
    }
  }

  /** Normalization leaves a normalized path alone. */
  lemma {:induction false} NormalizeNormal(p: Path)
    requires Normal(p)
    ensures Normalize(p) == p
  {
    if |p| > 0 {
      var init := p[..|p| - 1];
      assert Normal(init);
      NormalizeNormal(init);
      assert p == init + [p[|p| - 1]];
    }
  }

  /** Normalizing twice is normalizing once. */
  lemma NormalizeIdempotent(segs: seq<string>)
    ensures Normalize(Normalize(segs)) == Normalize(segs)
  {
    NormalizeIsNormal(segs);
    NormalizeNormal(Normalize(segs));
  }

  /** Appending ordinary names to a path does not disturb its normalization. */
  lemma {:induction false} NormalizeAppendNames(x: seq<string>, y: Path)
    requires AllNames(y)
    ensures Normalize(x + y) == Normalize(x) + y
  {
    if |y| > 0 {
      var init := y[..|y| - 1];
      var last := y[|y| - 1];
      assert AllNames(init);
      NormalizeAppendNames(x, init);
      assert x + y == (x + init) + [last];
      NormalizeSnoc(x + init, last);
      assert Push(Normalize(x) + init, last) == (Normalize(x) + init) + [last];
      assert y == init + [last];
    } else {
      assert x + y == x && Normalize(x) + y == Normalize(x);
    }
  }

  /** Normalizing a prefix first does not change the result. */
  lemma {:induction false} NormalizePrefix(x: seq<string>, y: seq<string>)
    ensures Normalize(Normalize(x) + y) == Normalize(x + y)
  {
    if |y| == 0 {
      assert Normalize(x) + y == Normalize(x);
      assert x + y == x;
      NormalizeIdempotent(x);
    } else {
      var init := y[..|y| - 1];
      var last := y[|y| - 1];
      NormalizePrefix(x, init);
      assert Normalize(x) + y == (Normalize(x) + init) + [last];
      assert x + y == (x + init) + [last];
      NormalizeSnoc(Normalize(x) + init, last);
      NormalizeSnoc(x + init, last);
    }
  }

  /** Reading back the rendered form of a normalized path gives the path. */
  lemma ParseRender(p: Path)
    requires Normal(p) && Clean(p)
    ensures Parse(Render(p)) == p
  {
    if |p| == 0 {
      SplitNoSeparator(".");
    } else {
      SplitJoin(p);
      NormalizeNormal(p);
    }
  }

  /** `path.join(a, b)` only depends on the normalized form of `a`. */
  lemma JoinStrParsed(a: string, b: string)
    ensures JoinStr(a, b) == Normalize(Parse(a) + Split(b))
  {
    NormalizePrefix(Split(a), Split(b));
  }

  // ---------------------------------------------------------------------
  // Names and extensions

  /** A base name that ends in a dotted extension such as `.ts` has exactly that extension. */
  lemma ExtnameOfSuffix(base: string, ext: string)
    requires |ext| >= 2 && ext[0] == '.' && '.' !in ext[1..]
    requires |base| > |ext| && EndsWith(base, ext)
    ensures Extname(base) == ext
  {
    var d := |base| - |ext|;
    assert base[d..] == ext;
    assert base[d] == '.';
    assert base[d + 1..] == ext[1..];
    var li := LastIndexOf(base, '.');
    assert li.Some?;
    assert li.value == d;
  }

  /** `relative(from, to)` of a path inside `from` is the rest of that path. */
  lemma RelativeOfDescendant(from: Path, to: Path)
    requires |from| <= |to| && to[..|from|] == from
    ensures Relative(from, to) == to[|from|..]
  {
    var k := CommonPrefixLen(from, to);
    assert k == |from|;
    assert seq(|from| - k, _ => "..") == [];
  }
}
