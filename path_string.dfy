/** The string layer under the path types: separator unification,
    collapse of repeated separators, the trailing-separator policy,
    absolute-path detection, leaf names and the joining of two strings
    with a single separator. */
module PathString {

  /** The canonical separator. */
  const Separator: char := '/'

  /** The platform separator that normalization rewrites to `Separator`. */
  const AltSeparator: char := '\\'

  predicate IsLetter(c: char) {
    'a' <= c <= 'z' || 'A' <= c <= 'Z'
  }

  /** A drive designator `<letter>:` at the start of the string, either case. */
  predicate HasDrivePrefix(s: string) {
    |s| >= 2 && IsLetter(s[0]) && s[1] == ':'
  }

  /** A path is absolute when it starts at the separator or at a drive. */
  predicate IsAbsolute(s: string) {
    (|s| > 0 && s[0] == Separator) || HasDrivePrefix(s)
  }

  /** The roots, the only paths that keep a trailing separator: `/` and `<letter>:/`. */
  predicate IsRoot(s: string) {
    s == [Separator] || (|s| == 3 && HasDrivePrefix(s) && s[2] == Separator)
  }

  predicate NoAltSeparator(s: string) {
    forall i :: 0 <= i < |s| ==> s[i] != AltSeparator
  }

  predicate NoDoubleSeparator(s: string) {
    forall i :: 0 < i < |s| ==> s[i - 1] != Separator || s[i] != Separator
  }

  /** The shape of every `FullPath`: non-empty, canonical separators only,
      never two in a row, and no trailing separator except on a root. */
  predicate IsNormalized(s: string) {
    && |s| > 0
    && NoAltSeparator(s)
    && NoDoubleSeparator(s)
    && (s[|s| - 1] != Separator || IsRoot(s))
  }

  /** A character in front of a list of segments: it starts a segment of
      its own, or, when `joins`, extends the first one. */
  function ConsSegment(c: char, joins: bool, rest: seq<string>): seq<string> {
    if joins && |rest| > 0 then [[c] + rest[0]] + rest[1..] else [[c]] + rest
  }

  /** The non-empty pieces between separators, in order: the string split
      at every separator, with the empty pieces dropped. */
  function Segments(s: string): (r: seq<string>)
    ensures forall i :: 0 <= i < |r| ==> |r[i]| > 0 && Separator !in r[i]
  {
    if |s| == 0 then []
    else if s[0] == Separator then Segments(s[1..])
    else
      ConsSegment(s[0], |s| > 1 && s[1] != Separator, Segments(s[1..]))
  }

  /** Every platform separator becomes the canonical one. */
  function Unify(s: string): (r: string)
    ensures |r| == |s| && NoAltSeparator(r)
    ensures forall i :: 0 <= i < |s| ==> r[i] == (if s[i] == AltSeparator then Separator else s[i])
  {
    seq(|s|, i requires 0 <= i < |s| => if s[i] == AltSeparator then Separator else s[i])
  }

  /** Each run of separators becomes a single separator. */
  function Collapse(s: string): (r: string)
    ensures |r| <= |s|
    ensures NoDoubleSeparator(r)
    ensures |s| > 0 ==> |r| > 0 && r[0] == s[0] && r[|r| - 1] == s[|s| - 1]
    ensures NoAltSeparator(s) ==> NoAltSeparator(r)
    ensures |s| >= 2 && s[0] != Separator ==> |r| >= 2 && r[1] == s[1]
  {
    if |s| <= 1 then s
    else if s[0] == Separator && s[1] == Separator then Collapse(s[1..])
    else [s[0]] + Collapse(s[1..])
  }

  /** A trailing separator goes, unless the string is a root. */
  function StripTrailing(s: string): string {
    if |s| > 0 && s[|s| - 1] == Separator && !IsRoot(s) then s[..|s| - 1] else s
  }

  /** The canonical form the path constructors store as `FullPath`. */
  function Normalize(s: string): (r: string)
    ensures |s| > 0 ==> IsNormalized(r)
  {
    var c := Collapse(Unify(s));
    StripTrailingNormalizes(c);
    StripTrailing(c)
  }

  /** Stripping one separator suffices once runs are collapsed. */
  lemma StripTrailingNormalizes(c: string)
    requires NoAltSeparator(c) && NoDoubleSeparator(c)
    ensures |c| > 0 ==> IsNormalized(StripTrailing(c))
  {
  }

  /** Stripping keeps the segments and the first character. */
  lemma StripTrailingKeepsSegments(c: string)
    ensures Segments(StripTrailing(c)) == Segments(c)
    ensures |c| > 0 ==> |StripTrailing(c)| > 0 && StripTrailing(c)[0] == c[0]
  {
    if |c| > 0 && c[|c| - 1] == Separator && !IsRoot(c) {
      SegmentsSplit(c[..|c| - 1], []);
      assert c[..|c| - 1] + [Separator] + [] == c;
    }
  }

  /** `r` is the final segment of `s`: a separator-free tail of `s` that is
      either all of `s` or preceded by a separator. */
  predicate IsLastSegment(s: string, r: string) {
    && Separator !in r
    && |r| <= |s|
    && s[|s| - |r|..] == r
    && (|r| == |s| || s[|s| - |r| - 1] == Separator)
  }

  /** The final segment: what follows the last separator. */
  function LeafName(s: string): (r: string)
    ensures IsLastSegment(s, r)
  {
    if |s| == 0 || s[|s| - 1] == Separator then []
    else LeafName(s[..|s| - 1]) + [s[|s| - 1]]
  }

  /** The strings that can follow a base after one separator without
      producing a run of separators or a trailing separator. */
  predicate Joinable(o: string) {
    && |o| > 0
    && NoAltSeparator(o)
    && NoDoubleSeparator(o)
    && o[0] != Separator
    && o[|o| - 1] != Separator
  }

  /** `b` and `o` with exactly one separator between them: a root already
      ends in its separator and gets none added. */
  function Join(b: string, o: string): string {
    if IsRoot(b) then b + o else b + [Separator] + o
  }

  // ---------------------------------------------------------------------
  // Properties of normalization
  // ---------------------------------------------------------------------

  /** Collapsing keeps every segment, in order. */
  lemma {:induction false} CollapseKeepsSegments(s: string)
    ensures Segments(Collapse(s)) == Segments(s)
  {
    if |s| > 1 {
      CollapseKeepsSegments(s[1..]);
      if s[0] != Separator || s[1] != Separator {
        var t := [s[0]] + Collapse(s[1..]);
        assert t[1..] == Collapse(s[1..]);
      }
    }
  }

  /** Normalizing keeps the segments of the input, reading `\\` as a
      separator, and keeps its first character, so a leading separator stays. */
  lemma NormalizeKeepsSegments(s: string)
    ensures Segments(Normalize(s)) == Segments(Unify(s))
    ensures |s| > 0 ==> Normalize(s)[0] == Unify(s)[0]
  {
    var c := Collapse(Unify(s));
    CollapseKeepsSegments(Unify(s));
    StripTrailingKeepsSegments(c);
  }

  lemma {:induction false} CollapseFixesNoDouble(s: string)
    requires NoDoubleSeparator(s)
    ensures Collapse(s) == s
  {
    if |s| > 1 {
      assert s[0] != Separator || s[1] != Separator;
      var t := s[1..];
      assert NoDoubleSeparator(t) by {
        forall i | 0 < i < |t| ensures t[i - 1] != Separator || t[i] != Separator {
          assert t[i - 1] == s[i] && t[i] == s[i + 1];
        }
      }
      CollapseFixesNoDouble(t);
      assert [s[0]] + t == s;
    }
  }

  /** A normalized string is its own normal form. */
  lemma NormalizeFixesNormalized(s: string)
    requires IsNormalized(s)
    ensures Normalize(s) == s
  {
    assert Unify(s) == s;
    CollapseFixesNoDouble(s);
  }

  /** Normalization is idempotent. */
  lemma NormalizeIdempotent(s: string)
    ensures Normalize(Normalize(s)) == Normalize(s)
  {
    if |s| > 0 {
      NormalizeFixesNormalized(Normalize(s));
    } else {
      assert Unify(s) == [];
    }
  }

  /** One more trailing separator is dropped again, unless it turns a
      bare drive `<letter>:` into its root. */
  lemma NormalizeDropsTrailingSeparator(s: string)
    requires IsNormalized(s) && !IsRoot(s + [Separator])
    ensures Normalize(s + [Separator]) == s
  {
    var t := s + [Separator];
    assert Unify(t) == t by {
      NoAltAppend(s, [Separator]);
    }
    if IsRoot(s) {
      CollapseDropsRepeat(s, []);
      assert s + [] == s;
      CollapseFixesNoDouble(s);
    } else {
      NoDoubleSeparatorAppend(s, [Separator]);
      CollapseFixesNoDouble(t);
      assert t[..|t| - 1] == s;
    }
  }

  /** Normalization reads every platform separator as the canonical one. */
  lemma NormalizeReadsAltSeparator(s: string)
    ensures Normalize(s) == Normalize(Unify(s))
  {
    assert Unify(Unify(s)) == Unify(s);
  }

  /** A separator directly after another one makes no difference. */
  lemma NormalizeCollapsesRun(x: string, y: string)
    requires |x| > 0 && x[|x| - 1] == Separator
    ensures Normalize(x + [Separator] + y) == Normalize(x + y)
  {
    assert Unify(x + [Separator] + y) == Unify(x) + [Separator] + Unify(y);
    assert Unify(x + y) == Unify(x) + Unify(y);
    CollapseDropsRepeat(Unify(x), Unify(y));
  }

  /** A drive root keeps its separator in either spelling: `c:\\` and
      `c:/` both normalize to `c:/`. */
  lemma NormalizeDriveRoot(d: char, sep: char)
    requires IsLetter(d) && (sep == Separator || sep == AltSeparator)
    ensures Normalize([d, ':', sep]) == [d, ':', Separator]
  {
    NormalizeReadsAltSeparator([d, ':', sep]);
    assert Unify([d, ':', sep]) == [d, ':', Separator];
    NormalizeFixesNormalized([d, ':', Separator]);
  }

  /** Normalization keeps whether a path is absolute, reading the platform
      separator as the canonical one. */
  lemma NormalizeKeepsAbsolute(s: string)
    ensures IsAbsolute(Normalize(s)) <==> IsAbsolute(Unify(s))
  {
  }

  // ---------------------------------------------------------------------
  // Properties of joining
  // ---------------------------------------------------------------------

  /** A normalized relative path can be appended after a separator. */
  lemma RelativeIsJoinable(o: string)
    requires IsNormalized(o) && !IsAbsolute(o)
    ensures Joinable(o)
  {
  }

  /** The leaf of a normalized path is empty exactly on a root, and a
      non-empty leaf can be appended after a separator. */
  lemma LeafIsJoinable(s: string)
    requires IsNormalized(s)
    ensures LeafName(s) == [] <==> IsRoot(s)
    ensures !IsRoot(s) ==> Joinable(LeafName(s))
  {
  }

  /** The final segment is unique. */
  lemma LastSegmentUnique(s: string, r1: string, r2: string)
    requires IsLastSegment(s, r1) && IsLastSegment(s, r2)
    ensures r1 == r2
  {
  }

  /** A final segment is the one `LeafName` computes. */
  lemma LeafNameIsLastSegment(s: string, l: string)
    requires IsLastSegment(s, l)
    ensures LeafName(s) == l
  {
    LastSegmentUnique(s, LeafName(s), l);
  }

  /** Splitting at one separator splits the segments. */
  lemma ConsSegmentAppend(c: char, joins: bool, a: seq<string>, b: seq<string>)
    requires joins ==> |a| > 0
    ensures ConsSegment(c, joins, a + b) == ConsSegment(c, joins, a) + b
  {
    if joins {
      assert (a + b)[0] == a[0] && (a + b)[1..] == a[1..] + b;
    }
  }

  /** One step of `SegmentsSplit`: a non-separator in front of both sides. */
  lemma {:induction false} SegmentsSplitStep(c: char, x: string, y: string, cx: string, s: string)
    requires c != Separator && cx == [c] + x && s == cx + [Separator] + y
    requires Segments(x + [Separator] + y) == Segments(x) + Segments(y)
    ensures Segments(s) == Segments(cx) + Segments(y)
  {
    var t := x + [Separator] + y;
    var joins := |x| > 0 && x[0] != Separator;
    assert s == [c] + t && s[1..] == t && cx[1..] == x;
    assert Segments(s) == ConsSegment(c, joins, Segments(t));
    assert Segments(cx) == ConsSegment(c, joins, Segments(x));
    ConsSegmentAppend(c, joins, Segments(x), Segments(y));
  }

  lemma {:induction false} SegmentsSplit(x: string, y: string)
    ensures Segments(x + [Separator] + y) == Segments(x) + Segments(y)
  {
    var s := x + [Separator] + y;
    if |x| == 0 {
      assert s[1..] == y;
    } else {
      var x1 := x[1..];
      SegmentsSplit(x1, y);
      assert x == [x[0]] + x1;
      if x[0] == Separator {
        assert s[1..] == x1 + [Separator] + y;
      } else {
        SegmentsSplitStep(x[0], x1, y, x, s);
      }
    }
  }

  /** The segments of a join are the base's followed by the operand's. */
  lemma JoinKeepsSegments(b: string, o: string)
    requires |b| > 0
    ensures Segments(Join(b, o)) == Segments(b) + Segments(o)
  {
    if IsRoot(b) {
      var x := b[..|b| - 1];
      assert b == x + [Separator] + [];
      assert Join(b, o) == x + [Separator] + o;
      SegmentsSplit(x, o);
      SegmentsSplit(x, []);
    } else {
      SegmentsSplit(b, o);
    }
  }

  /** Joining keeps the operand's leaf. */
  lemma JoinKeepsLeaf(b: string, o: string)
    requires |b| > 0 && Joinable(o)
    ensures LeafName(Join(b, o)) == LeafName(o)
  {
    var j := Join(b, o);
    var l := LeafName(o);
    assert j[|j| - |o|..] == o;
    assert j[|j| - |l|..] == l;
    if |l| < |o| {
      assert j[|j| - |l| - 1] == o[|o| - |l| - 1];
    } else {
      assert j[|j| - |l| - 1] == Separator || IsRoot(b);
      if IsRoot(b) { assert j[|j| - |l| - 1] == b[|b| - 1]; }
    }
    LastSegmentUnique(j, LeafName(j), l);
  }

  /** Appending a joinable operand does not change whether a normalized
      base is absolute. */
  lemma JoinKeepsAbsolute(b: string, o: string)
    requires IsNormalized(b) && Joinable(o)
    ensures IsAbsolute(Join(b, o)) <==> IsAbsolute(b)
  {
  }

  /** A joinable string is no root. */
  lemma JoinableIsNoRoot(b: string)
    requires Joinable(b)
    ensures !IsRoot(b)
  {
    if |b| == 3 { assert b[2] == b[|b| - 1]; }
  }

  /** Two joinable strings joined are joinable. */
  lemma JoinJoinable(b: string, c: string)
    requires Joinable(b) && Joinable(c)
    ensures Join(b, c) == b + [Separator] + c
    ensures Joinable(Join(b, c))
  {
    JoinableIsNoRoot(b);
    var t := [Separator] + c;
    NoDoubleSeparatorAppend([Separator], c);
    NoDoubleSeparatorAppend(b, t);
    NoAltAppend([Separator], c);
    NoAltAppend(b, t);
    assert b + [Separator] + c == b + t;
  }

  /** Joining is associative on relative operands. */
  lemma JoinAssociative(a: string, b: string, c: string)
    requires IsNormalized(a) && Joinable(b) && Joinable(c)
    ensures Joinable(Join(b, c))
    ensures Join(Join(a, b), c) == Join(a, Join(b, c))
  {
  }

  lemma NoDoubleSeparatorAppend(a: string, c: string)
    requires NoDoubleSeparator(a) && NoDoubleSeparator(c)
    requires a == [] || c == [] || a[|a| - 1] != Separator || c[0] != Separator
    ensures NoDoubleSeparator(a + c)
  {
    var t := a + c;
    forall i | 0 < i < |t| ensures t[i - 1] != Separator || t[i] != Separator {
      if i < |a| {
        assert t[i - 1] == a[i - 1] && t[i] == a[i];
      } else if i > |a| {
        assert t[i - 1] == c[i - 1 - |a|] && t[i] == c[i - |a|];
      }
    }
  }

  /** Collapsing ignores a separator that directly follows another. */
  lemma {:induction false} CollapseDropsRepeat(x: string, y: string)
    requires |x| > 0 && x[|x| - 1] == Separator
    ensures Collapse(x + [Separator] + y) == Collapse(x + y)
  {
    var s := x + [Separator] + y;
    var t := x + y;
    if |x| == 1 {
      assert s[1..] == t;
    } else {
      var x' := x[1..];
      assert s[1..] == x' + [Separator] + y;
      assert t[1..] == x' + y;
      CollapseDropsRepeat(x', y);
    }
  }

  /** Normalizing base, separator and operand is joining them with one
      separator, and the outcome is again normalized. */
  lemma JoinNormalizes(b: string, o: string)
    requires IsNormalized(b) && Joinable(o)
    ensures Normalize(b + [Separator] + o) == Join(b, o)
    ensures IsNormalized(Join(b, o))
  {
    var s := b + [Separator] + o;
    var j := Join(b, o);
    assert s == b + ([Separator] + o);
    NoDoubleSeparatorAppend([Separator], o);
    assert Unify(s) == s by {
      NoAltAppend(b, [Separator] + o);
    }
    NoAltAppend(b, o);
    NoAltAppend(b, [Separator] + o);
    if IsRoot(b) {
      CollapseDropsRepeat(b, o);
      NoDoubleSeparatorAppend(b, o);
      CollapseFixesNoDouble(b + o);
    } else {
      NoDoubleSeparatorAppend(b, [Separator] + o);
      CollapseFixesNoDouble(s);
    }
    assert j[|j| - 1] == o[|o| - 1];
    assert !IsRoot(j) by {
      if |j| == 3 { assert j[2] == o[|o| - 1]; }
    }
  }

  lemma NoAltAppend(a: string, c: string)
    requires NoAltSeparator(a) && NoAltSeparator(c)
    ensures NoAltSeparator(a + c)
  {
    var t := a + c;
    forall i | 0 <= i < |t| ensures t[i] != AltSeparator {
      if i < |a| { assert t[i] == a[i]; } else { assert t[i] == c[i - |a|]; }
    }
  }
}
