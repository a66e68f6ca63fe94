/**
 POSIX paths as text: splitting at slashes, normalising, joining and comparing by segment.
 */
module Paths {
  import opened Wrappers

  // ---------------------------------------------------------------- text and segments

  function Split(s: string): (r: seq<string>)
    ensures r != []
  {
    if s == "" then [""]
    else if s[0] == '/' then [""] + Split(s[1..])
    else
      var r := Split(s[1..]);
      [[s[0]] + r[0]] + r[1..]
  }

  function Join(ps: seq<string>): string {
    if ps == [] then ""
    else if |ps| == 1 then ps[0]
    else ps[0] + "/" + Join(ps[1..])
  }

  lemma SplitFirst(s: string)
    requires s != ""
    ensures s[0] == '/' ==> Split(s) == [""] + Split(s[1..])
    ensures s[0] != '/' ==> Split(s) == [[s[0]] + Split(s[1..])[0]] + Split(s[1..])[1..]
  {
  }

  lemma NoText()
    ensures Split("") == [""]
  {
  }

  lemma {:induction false} SplitSlash(a: string, b: string)
    ensures Split(a + "/" + b) == Split(a) + Split(b)
  {
    hide Split;
    var s := a + "/" + b;
    if a == "" {
      SplitFirst(s);
      NoText();
      assert s[0] == '/' && s[1..] == b;
    } else {
      SplitSlash(a[1..], b);
      assert s[0] == a[0] && s[1..] == a[1..] + "/" + b;
      var front, back := Split(a[1..]), Split(b);
      SplitFirst(s);
      SplitFirst(a);
      if a[0] == '/' {
        assert [""] + (front + back) == ([""] + front) + back;
      } else {
        assert (front + back)[0] == front[0] && (front + back)[1..] == front[1..] + back;
      }
    }
  }

  lemma {:induction false} JoinSplit(s: string)
    ensures Join(Split(s)) == s
  {
    if s != "" {
      JoinSplit(s[1..]);
      var r := Split(s[1..]);
      if s[0] != '/' {
        JoinHead(s[0], r);
      }
    }
  }

  lemma JoinHead(c: char, r: seq<string>)
    requires r != []
    ensures Join([[c] + r[0]] + r[1..]) == [c] + Join(r)
  {
    assert ([[c] + r[0]] + r[1..])[1..] == r[1..];
  }

  predicate NoSlash(s: string) {
    '/' !in s
  }

  lemma {:induction false} SplitWhole(s: string)
    requires NoSlash(s)
    ensures Split(s) == [s]
  {
    if s != "" {
      assert s[0] in s && [s[0]] + s[1..] == s;
      SplitWhole(s[1..]);
    }
  }

  lemma {:induction false} SplitParts(s: string)
    ensures forall i :: 0 <= i < |Split(s)| ==> NoSlash(Split(s)[i])
  {
    if s != "" {
      SplitParts(s[1..]);
    }
  }

  lemma {:induction false} SplitJoin(ps: seq<string>)
    requires ps != [] && forall i :: 0 <= i < |ps| ==> NoSlash(ps[i])
    ensures Split(Join(ps)) == ps
  {
    SplitWhole(ps[0]);
    if |ps| > 1 {
      SplitJoin(ps[1..]);
      SplitSlash(ps[0], Join(ps[1..]));
    }
  }

  lemma {:induction false} JoinConcat(a: seq<string>, b: seq<string>)
    requires a != [] && b != []
    ensures Join(a + b) == Join(a) + "/" + Join(b)
  {
    if |a| == 1 {
      assert (a + b)[1..] == b;
    } else {
      JoinConcat(a[1..], b);
      assert (a + b)[1..] == a[1..] + b;
    }
  }

  // ---------------------------------------------------------------- segments that say something

  predicate Proper(c: string) {
    c != "" && c != "."
  }

  // The segments of a path, without empty ones and dots.
  function Segments(ps: seq<string>): seq<string> {
    if ps == [] then []
    else (if Proper(ps[0]) then [ps[0]] else []) + Segments(ps[1..])
  }

  lemma SegmentsFirst(ps: seq<string>)
    requires ps != []
    ensures Segments(ps) == (if Proper(ps[0]) then [ps[0]] else []) + Segments(ps[1..])
  {
  }

  lemma NoSegments()
    ensures Segments([]) == []
  {
  }

  lemma {:induction false} SegmentsConcat(a: seq<string>, b: seq<string>)
    ensures Segments(a + b) == Segments(a) + Segments(b)
  {
    hide Segments;
    if a == [] {
      assert a + b == b;
      NoSegments();
    } else {
      SegmentsConcat(a[1..], b);
      assert (a + b)[0] == a[0] && (a + b)[1..] == a[1..] + b;
      SegmentsFirst(a);
      SegmentsFirst(a + b);
    }
  }

  lemma {:induction false} SegmentsOfProper(ps: seq<string>)
    requires forall i :: 0 <= i < |ps| ==> Proper(ps[i])
    ensures Segments(ps) == ps
  {
    if ps != [] {
      SegmentsOfProper(ps[1..]);
    }
  }

  lemma {:induction false} SegmentsProper(ps: seq<string>)
    ensures forall i :: 0 <= i < |Segments(ps)| ==> Proper(Segments(ps)[i])
    ensures forall c :: c in Segments(ps) ==> c in ps
  {
    if ps != [] {
      SegmentsProper(ps[1..]);
    }
  }

  function SegmentsOf(s: string): seq<string> {
    Segments(Split(s))
  }

  predicate Prefix(a: seq<string>, b: seq<string>) {
    |a| <= |b| && a == b[..|a|]
  }

  // Compared by segments, never by characters.
  predicate StrictlyBelow(inner: string, outer: string) {
    Prefix(SegmentsOf(outer), SegmentsOf(inner)) && |SegmentsOf(outer)| < |SegmentsOf(inner)|
  }

  predicate IsAbsolute(s: string) {
    s != "" && s[0] == '/'
  }

  lemma JoinEnds(ps: seq<string>)
    requires ps != [] && forall i :: 0 <= i < |ps| ==> Proper(ps[i]) && NoSlash(ps[i])
    ensures Join(ps) != "" && Join(ps)[0] != '/' && Join(ps)[|Join(ps)| - 1] != '/'
  {
    if |ps| == 1 {
      assert ps[0][0] in ps[0] && ps[0][|ps[0]| - 1] in ps[0];
    } else {
      JoinEnds(ps[1..]);
      assert ps[0][0] in ps[0];
    }
  }

  lemma SegmentFacts(s: string)
    ensures forall i :: 0 <= i < |SegmentsOf(s)| ==> Proper(SegmentsOf(s)[i]) && NoSlash(SegmentsOf(s)[i])
    ensures forall c :: c in SegmentsOf(s) ==> c in Split(s)
  {
    SplitParts(s);
    SegmentsProper(Split(s));
    forall i | 0 <= i < |SegmentsOf(s)| ensures NoSlash(SegmentsOf(s)[i]) {
      assert SegmentsOf(s)[i] in Split(s);
    }
  }

  lemma RootedSegments(s: string)
    ensures SegmentsOf("/" + s) == SegmentsOf(s)
  {
    SplitSlash("", s);
    assert "" + "/" + s == "/" + s;
    NoText();
    SegmentsConcat([""], Split(s));
    NoEmptySegment();
  }

  lemma NoEmptySegment()
    ensures Segments([""]) == []
  {
  }

  // What is joined from proper segments has those segments.
  lemma JoinedSegments(abs: bool, ps: seq<string>)
    requires forall i :: 0 <= i < |ps| ==> Proper(ps[i]) && NoSlash(ps[i])
    requires abs || ps != []
    ensures
      var s := (if abs then "/" else "") + Join(ps);
      SegmentsOf(s) == ps && IsAbsolute(s) == abs
  {
    hide Segments, Split, Join;
    JoinSegments(ps);
    if ps != [] {
      JoinEnds(ps);
    }
    if abs {
      RootedSegments(Join(ps));
    } else {
      assert "" + Join(ps) == Join(ps);
    }
  }

  lemma JoinSegments(ps: seq<string>)
    requires forall i :: 0 <= i < |ps| ==> Proper(ps[i]) && NoSlash(ps[i])
    ensures SegmentsOf(Join(ps)) == ps
  {
    if ps == [] {
      NoText();
      NoEmptySegment();
    } else {
      SplitJoin(ps);
      SegmentsOfProper(ps);
    }
  }

  // ---------------------------------------------------------------- normalising

  function Push(abs: bool, acc: seq<string>, c: string): seq<string> {
    if !Proper(c) then acc
    else if c != ".." || (!abs && acc == []) || (acc != [] && acc[|acc| - 1] == "..") then acc + [c]
    else if acc != [] then acc[..|acc| - 1]
    else acc
  }

  function Collapse(abs: bool, acc: seq<string>, ps: seq<string>): seq<string>
    decreases |ps|
  {
    if ps == [] then acc else Collapse(abs, Push(abs, acc, ps[0]), ps[1..])
  }

  function Render(abs: bool, ps: seq<string>): string {
    if abs then "/" + Join(ps) else if ps == [] then "." else Join(ps)
  }

  function Normpath(s: string): string {
    Render(IsAbsolute(s), Collapse(IsAbsolute(s), [], Split(s)))
  }

  // Segments no normalisation changes: parents only lead a relative path.
  predicate Clean(abs: bool, ps: seq<string>) {
    && (forall i :: 0 <= i < |ps| ==> Proper(ps[i]) && NoSlash(ps[i]))
    && (abs ==> forall i :: 0 <= i < |ps| ==> ps[i] != "..")
    && (forall i, j :: 0 <= i < j < |ps| && ps[j] == ".." ==> ps[i] == "..")
  }

  lemma PushClean(abs: bool, acc: seq<string>, c: string)
    requires Clean(abs, acc) && NoSlash(c)
    ensures Clean(abs, Push(abs, acc, c))
  {
  }

  lemma {:induction false} CollapseClean(abs: bool, acc: seq<string>, ps: seq<string>)
    requires Clean(abs, acc) && forall i :: 0 <= i < |ps| ==> NoSlash(ps[i])
    ensures Clean(abs, Collapse(abs, acc, ps))
    decreases |ps|
  {
    if ps != [] {
      PushClean(abs, acc, ps[0]);
      CollapseClean(abs, Push(abs, acc, ps[0]), ps[1..]);
    }
  }

  lemma {:induction false} CollapseFixed(abs: bool, acc: seq<string>, ps: seq<string>)
    requires Clean(abs, acc + Segments(ps))
    ensures Collapse(abs, acc, ps) == acc + Segments(ps)
    decreases |ps|
  {
    if ps != [] {
      var rest := Segments(ps[1..]);
      if Proper(ps[0]) {
        var all := acc + Segments(ps);
        assert all == (acc + [ps[0]]) + rest;
        assert all[|acc|] == ps[0];
        if ps[0] == ".." && acc != [] {
          assert all[|acc| - 1] == "..";
          assert acc[|acc| - 1] == "..";
        }
        assert Push(abs, acc, ps[0]) == acc + [ps[0]];
        CollapseFixed(abs, acc + [ps[0]], ps[1..]);
      } else {
        assert Segments(ps) == rest;
        CollapseFixed(abs, acc, ps[1..]);
      }
    }
  }

  // A normalised path is read back as its own segments.
  lemma RenderedSegments(abs: bool, ps: seq<string>)
    requires Clean(abs, ps)
    ensures SegmentsOf(Render(abs, ps)) == ps
    ensures IsAbsolute(Render(abs, ps)) == abs
  {
    hide Segments, Split, Join;
    if abs || ps != [] {
      JoinedSegments(abs, ps);
      assert "" + Join(ps) == Join(ps);
    } else {
      JustDot();
    }
  }

  lemma JustDot()
    ensures SegmentsOf(".") == []
  {
    SplitWhole(".");
  }

  function NormSegments(s: string): seq<string> {
    Collapse(IsAbsolute(s), [], Split(s))
  }

  lemma NormpathMeans(s: string)
    ensures Clean(IsAbsolute(s), NormSegments(s))
    ensures SegmentsOf(Normpath(s)) == NormSegments(s)
    ensures IsAbsolute(Normpath(s)) == IsAbsolute(s)
  {
    SplitParts(s);
    CollapseClean(IsAbsolute(s), [], Split(s));
    RenderedSegments(IsAbsolute(s), NormSegments(s));
  }

  // Normalising twice is normalising once.
  lemma NormpathIdempotent(s: string)
    ensures Normpath(Normpath(s)) == Normpath(s)
  {
    NormpathMeans(s);
    var n := Normpath(s);
    assert [] + SegmentsOf(n) == SegmentsOf(n);
    CollapseFixed(IsAbsolute(n), [], Split(n));
  }

  // ---------------------------------------------------------------- joining and comparing

  function PathJoin(a: string, b: string): string {
    if IsAbsolute(b) then b
    else if a == "" || a[|a| - 1] == '/' then a + b
    else a + "/" + b
  }

  function Shared(a: seq<string>, b: seq<string>): seq<string> {
    if a == [] || b == [] || a[0] != b[0] then [] else [a[0]] + Shared(a[1..], b[1..])
  }

  lemma PrefixHeads(a: seq<string>, b: seq<string>)
    requires Prefix(a, b) && a != []
    ensures b != [] && b[0] == a[0] && Prefix(a[1..], b[1..])
  {
    assert b[..|a|][0] == b[0] && b[1..][..|a| - 1] == b[..|a|][1..];
  }

  lemma {:induction false} SharedPrefix(a: seq<string>, b: seq<string>)
    ensures Prefix(Shared(a, b), a) && Prefix(Shared(a, b), b)
    ensures Prefix(a, b) ==> Shared(a, b) == a
  {
    if Prefix(a, b) && a != [] {
      PrefixHeads(a, b);
    }
    if a != [] && b != [] && a[0] == b[0] {
      hide Prefix;
      SharedPrefix(a[1..], b[1..]);
      PrefixUnder(Shared(a[1..], b[1..]), a);
      PrefixUnder(Shared(a[1..], b[1..]), b);
    }
  }

  lemma PrefixUnder(x: seq<string>, a: seq<string>)
    requires a != [] && Prefix(x, a[1..])
    ensures Prefix([a[0]] + x, a)
  {
    assert a[..|x| + 1] == [a[0]] + a[1..][..|x|];
  }

  // Relative and absolute paths have nothing in common.
  function Commonpath(a: string, b: string): Option<string> {
    if IsAbsolute(a) != IsAbsolute(b) then None
    else
      var common := Shared(SegmentsOf(a), SegmentsOf(b));
      Some((if IsAbsolute(a) then "/" else "") + Join(common))
  }

  function Parents(n: nat): seq<string> {
    if n == 0 then [] else [".."] + Parents(n - 1)
  }

  // Of absolute paths.
  function Relpath(path: string, start: string): string {
    var (from, to) := (NormSegments(start), NormSegments(path));
    var common := Shared(from, to);
    SharedPrefix(from, to);
    var steps := Parents(|from| - |common|) + to[|common|..];
    if steps == [] then "." else Join(steps)
  }

  lemma RelpathBelow(path: string, start: string)
    requires Prefix(NormSegments(start), NormSegments(path))
    ensures Relpath(path, start) ==
      var rest := NormSegments(path)[|NormSegments(start)|..];
      if rest == [] then "." else Join(rest)
  {
    SharedPrefix(NormSegments(start), NormSegments(path));
    assert Parents(0) + NormSegments(path)[|NormSegments(start)|..] == NormSegments(path)[|NormSegments(start)|..];
  }

  function StripLeft(s: string): string {
    if s != "" && s[0] == '/' then StripLeft(s[1..]) else s
  }

  function StripRight(s: string): string {
    if s != "" && s[|s| - 1] == '/' then StripRight(s[..|s| - 1]) else s
  }

  function StripSlashes(s: string): string {
    StripRight(StripLeft(s))
  }

  // A path written as nothing but its segments.
  predicate Spelled(s: string) {
    s == (if IsAbsolute(s) then "/" else "") + Join(SegmentsOf(s))
  }

  lemma NormpathSpelled(s: string)
    requires IsAbsolute(s) || NormSegments(s) != []
    ensures Normpath(s) == (if IsAbsolute(s) then "/" else "") + Join(NormSegments(s))
  {
  }

  // The containment test passes exactly for a spelled-out outer path strictly above.
  lemma ContainedIff(a: string, s: string)
    requires a != "" && IsAbsolute(a) == IsAbsolute(s)
    ensures Commonpath(a, Normpath(s)) == Some(a) && Normpath(s) != a <==> Spelled(a) && StrictlyBelow(Normpath(s), a)
  {
    hide SegmentsOf, Normpath, NormSegments, Join, Shared;
    NormpathMeans(s);
    var n, abs := Normpath(s), IsAbsolute(a);
    var sa, sn := SegmentsOf(a), SegmentsOf(n);
    var common := Shared(sa, sn);
    SharedPrefix(sa, sn);
    SegmentFacts(a);
    NoJoin();
    if Commonpath(a, n) == Some(a) && n != a {
      JoinedSegments(abs, common);
      if |sa| == |sn| {
        assert sa == sn;
        NormpathSpelled(s);
      }
    }
  }

  lemma NoJoin()
    ensures Join([]) == ""
  {
  }

  lemma SegmentsUnder(a: string, b: string)
    ensures SegmentsOf(a + "/" + b) == SegmentsOf(a) + SegmentsOf(b)
  {
    SplitSlash(a, b);
    SegmentsConcat(Split(a), Split(b));
  }

  lemma StripRightDone(s: string)
    requires s != "" && s[|s| - 1] != '/'
    ensures StripRight(s) == s && StripRight(s + "/") == s
  {
    assert (s + "/")[..|s + "/"| - 1] == s;
  }

  lemma {:induction false} StripLeftRelative(s: string)
    ensures !IsAbsolute(StripLeft(s))
  {
    if s != "" && s[0] == '/' {
      StripLeftRelative(s[1..]);
    }
  }

  lemma {:induction false} StripRightKeepsStart(s: string)
    requires !IsAbsolute(s)
    ensures !IsAbsolute(StripRight(s))
  {
    if s != "" && s[|s| - 1] == '/' {
      StripRightKeepsStart(s[..|s| - 1]);
    }
  }

  lemma StrippedRelative(s: string)
    ensures !IsAbsolute(StripSlashes(s))
  {
    StripLeftRelative(s);
    StripRightKeepsStart(StripLeft(s));
  }

  lemma StripNothing(s: string)
    requires s != "" && s[0] != '/' && s[|s| - 1] != '/'
    ensures StripSlashes(s) == s
  {
  }

  // ---------------------------------------------------------------- lengths

  function Length(ps: seq<string>): nat {
    if ps == [] then 0 else |ps[0]| + 1 + Length(ps[1..])
  }

  lemma {:induction false} LengthSnoc(ps: seq<string>, c: string)
    ensures Length(ps + [c]) == Length(ps) + |c| + 1
  {
    if ps == [] {
      assert ps + [c] == [c];
    } else {
      LengthSnoc(ps[1..], c);
      assert (ps + [c])[1..] == ps[1..] + [c];
    }
  }

  lemma {:induction false} CollapseShortens(abs: bool, acc: seq<string>, ps: seq<string>)
    ensures Length(Collapse(abs, acc, ps)) <= Length(acc) + Length(ps)
    decreases |ps|
  {
    if ps != [] {
      var acc' := Push(abs, acc, ps[0]);
      LengthSnoc(acc, ps[0]);
      if acc != [] {
        LengthSnoc(acc[..|acc| - 1], acc[|acc| - 1]);
        assert acc == acc[..|acc| - 1] + [acc[|acc| - 1]];
      }
      assert Length(acc') <= Length(acc) + |ps[0]| + 1;
      CollapseShortens(abs, acc', ps[1..]);
    }
  }

  lemma {:induction false} SplitLength(s: string)
    ensures Length(Split(s)) == |s| + 1
  {
    if s != "" {
      SplitLength(s[1..]);
      var r := Split(s[1..]);
      if s[0] == '/' {
        assert ([""] + r)[1..] == r;
      } else {
        assert ([[s[0]] + r[0]] + r[1..])[1..] == r[1..];
      }
    }
  }

  lemma {:induction false} JoinLength(ps: seq<string>)
    requires ps != []
    ensures |Join(ps)| == Length(ps) - 1
  {
    if |ps| > 1 {
      JoinLength(ps[1..]);
    } else {
      assert ps[1..] == [];
    }
  }

  // Normalising never lengthens an absolute path.
  lemma NormpathShortens(s: string)
    requires IsAbsolute(s)
    ensures |Normpath(s)| <= |s|
  {
    var ps, rest := Split(s), Split(s[1..]);
    assert ps == [""] + rest && ps[1..] == rest;
    assert NormSegments(s) == Collapse(true, [], rest);
    CollapseShortens(true, [], rest);
    SplitLength(s[1..]);
    if NormSegments(s) != [] {
      JoinLength(NormSegments(s));
    }
  }

  lemma StillBelow(inner: string, outer: string, path: string)
    requires StrictlyBelow(inner, outer)
    ensures StrictlyBelow(inner + "/" + path, outer)
  {
    hide SegmentsOf;
    SegmentsUnder(inner, path);
    assert (SegmentsOf(inner) + SegmentsOf(path))[..|SegmentsOf(outer)|] == SegmentsOf(inner)[..|SegmentsOf(outer)|];
  }

  lemma BelowUnder(start: string, inner: string, outer: string)
    requires StrictlyBelow(inner, outer)
    ensures StrictlyBelow(start + "/" + inner, start + "/" + outer)
  {
    hide SegmentsOf;
    SegmentsUnder(start, inner);
    SegmentsUnder(start, outer);
    var s, i, o := SegmentsOf(start), SegmentsOf(inner), SegmentsOf(outer);
    assert (s + i)[..|s + o|] == s + i[..|o|];
  }

  // ---------------------------------------------------------------- walking

  // One step of a walk: a name is entered, ".." leaves what was last entered; at the root it
  // stays, and a relative walk with nothing to leave goes above its start.
  function Go(abs: bool, here: seq<string>, c: string): seq<string> {
    if c != ".." then here + [c]
    else if here != [] && here[|here| - 1] != ".." then here[..|here| - 1]
    else if abs then here
    else here + [c]
  }

  // Where the segments of a path lead.
  function Walk(abs: bool, ps: seq<string>): seq<string> {
    if ps == [] then [] else Go(abs, Walk(abs, ps[..|ps| - 1]), ps[|ps| - 1])
  }

  function WalkOn(abs: bool, here: seq<string>, ps: seq<string>): seq<string> {
    if ps == [] then here else Go(abs, WalkOn(abs, here, ps[..|ps| - 1]), ps[|ps| - 1])
  }

  lemma {:induction false} WalkOnFirst(abs: bool, here: seq<string>, ps: seq<string>)
    requires ps != []
    ensures WalkOn(abs, here, ps) == WalkOn(abs, Go(abs, here, ps[0]), ps[1..])
  {
    if |ps| == 1 {
      assert ps[..0] == [] && ps[1..] == [];
    } else {
      WalkOnFirst(abs, here, ps[..|ps| - 1]);
      assert ps[1..][..|ps| - 2] == ps[..|ps| - 1][1..];
    }
  }

  lemma {:induction false} WalkFromNowhere(abs: bool, ps: seq<string>)
    ensures WalkOn(abs, [], ps) == Walk(abs, ps)
  {
    if ps != [] {
      WalkFromNowhere(abs, ps[..|ps| - 1]);
    }
  }

  lemma {:induction false} WalkConcat(abs: bool, a: seq<string>, b: seq<string>)
    ensures Walk(abs, a + b) == WalkOn(abs, Walk(abs, a), b)
  {
    if b == [] {
      assert a + b == a;
    } else {
      WalkConcat(abs, a, b[..|b| - 1]);
      assert (a + b)[..|a + b| - 1] == a + b[..|b| - 1];
    }
  }

  // An absolute walk never holds a parent, so pushing a segment is one step of it.
  lemma PushIsGo(abs: bool, acc: seq<string>, c: string)
    requires Clean(abs, acc) && Proper(c)
    ensures Push(abs, acc, c) == Go(abs, acc, c)
  {
  }

  // Normalising a path is walking it.
  lemma {:induction false} CollapseWalks(abs: bool, acc: seq<string>, ps: seq<string>)
    requires Clean(abs, acc) && forall i :: 0 <= i < |ps| ==> NoSlash(ps[i])
    ensures Collapse(abs, acc, ps) == WalkOn(abs, acc, Segments(ps))
    decreases |ps|
  {
    hide Clean, Push, Go;
    if ps != [] {
      SegmentsFirst(ps);
      PushClean(abs, acc, ps[0]);
      CollapseWalks(abs, Push(abs, acc, ps[0]), ps[1..]);
      if Proper(ps[0]) {
        PushIsGo(abs, acc, ps[0]);
        var all := [ps[0]] + Segments(ps[1..]);
        assert all[0] == ps[0] && all[1..] == Segments(ps[1..]);
        WalkOnFirst(abs, acc, all);
      } else {
        PushDrops(abs, acc, ps[0]);
        assert [] + Segments(ps[1..]) == Segments(ps[1..]);
      }
    }
  }

  lemma PushDrops(abs: bool, acc: seq<string>, c: string)
    requires !Proper(c)
    ensures Push(abs, acc, c) == acc
  {
  }

  // A normalised path is where the walk along its segments ends.
  lemma NormpathWalks(s: string)
    ensures NormSegments(s) == Walk(IsAbsolute(s), SegmentsOf(s))
    ensures SegmentsOf(Normpath(s)) == Walk(IsAbsolute(s), SegmentsOf(s))
  {
    SplitParts(s);
    NowhereClean(IsAbsolute(s));
    CollapseWalks(IsAbsolute(s), [], Split(s));
    WalkFromNowhere(IsAbsolute(s), SegmentsOf(s));
    NormpathMeans(s);
  }

  lemma NowhereClean(abs: bool)
    ensures Clean(abs, [])
  {
  }

  lemma SameStart(a: string, b: string)
    requires a != ""
    ensures IsAbsolute(a + b) == IsAbsolute(a)
  {
    assert (a + b)[0] == a[0];
  }

  lemma SegmentOfName(c: string)
    requires Proper(c) && NoSlash(c)
    ensures SegmentsOf(c) == [c]
  {
    SplitWhole(c);
    SegmentsOfProper([c]);
  }

  // Entering a name adds it.
  lemma NormpathEnters(a: string, c: string)
    requires IsAbsolute(a) && Proper(c) && NoSlash(c) && c != ".."
    ensures SegmentsOf(Normpath(a + "/" + c)) == SegmentsOf(Normpath(a)) + [c]
  {
    hide SegmentsOf, Normpath, NormSegments;
    var s := a + "/" + c;
    assert s == a + ("/" + c);
    SameStart(a, "/" + c);
    NormpathWalks(a);
    NormpathWalks(s);
    SegmentsUnder(a, c);
    SegmentOfName(c);
    WalkOneMore(true, SegmentsOf(a), c);
  }

  lemma WalkOneMore(abs: bool, ps: seq<string>, c: string)
    ensures Walk(abs, ps + [c]) == Go(abs, Walk(abs, ps), c)
  {
    assert (ps + [c])[..|ps + [c]| - 1] == ps;
  }

  // Entering a name and leaving it again is staying.
  lemma NormpathLeaves(a: string, c: string)
    requires IsAbsolute(a) && Proper(c) && NoSlash(c) && c != ".."
    ensures Normpath(a + "/" + c + "/..") == Normpath(a)
  {
    hide SegmentsOf, Normpath, NormSegments;
    var s := a + "/" + c;
    var t := s + "/" + "..";
    assert s == a + ("/" + c) && t == a + ("/" + c + "/..") && t == a + "/" + c + "/..";
    SameStart(a, "/" + c);
    SameStart(a, "/" + c + "/..");
    NormpathWalks(a);
    NormpathWalks(t);
    SegmentsUnder(a, c);
    SegmentsUnder(s, "..");
    SegmentOfName(c);
    SegmentOfName("..");
    WalkOneMore(true, SegmentsOf(a), c);
    WalkOneMore(true, SegmentsOf(s), "..");
    var here := Walk(true, SegmentsOf(a));
    assert (here + [c])[..|here + [c]| - 1] == here;
    NormpathSpelled(a);
    NormpathSpelled(t);
  }

  // There is nothing above the root.
  lemma NormpathAtRoot()
    ensures Normpath("/..") == "/"
  {
    hide SegmentsOf, Normpath, NormSegments;
    assert "/" + ".." == "/..";
    RootedSegments("..");
    SegmentOfName("..");
    NormpathWalks("/..");
    assert Walk(true, [".."]) == [] by { WalkOneMore(true, [], ".."); assert [] + [".."] == [".."]; }
    NormpathSpelled("/..");
    NoJoin();
  }

  lemma {:induction false} ParentsAre(n: nat)
    ensures |Parents(n)| == n && forall i :: 0 <= i < n ==> Parents(n)[i] == ".."
  {
    if n > 0 {
      ParentsAre(n - 1);
    }
  }

  lemma ParentsSnoc(n: nat)
    requires n > 0
    ensures Parents(n) == Parents(n - 1) + [".."]
    ensures n > 1 ==> Parents(n - 1)[|Parents(n - 1)| - 1] == ".."
    ensures |Parents(n - 1)| == n - 1
  {
    hide Parents;
    ParentsAre(n);
    ParentsAre(n - 1);
    var longer := Parents(n - 1) + [".."];
    assert forall i :: 0 <= i < n ==> longer[i] == "..";
  }

  // A relative path that leaves more than it entered keeps its leading parents.
  lemma {:induction false} ParentsStay(n: nat)
    ensures Walk(false, Parents(n)) == Parents(n)
  {
    if n > 0 {
      hide Parents, Walk;
      ParentsSnoc(n);
      ParentsStay(n - 1);
      WalkOneMore(false, Parents(n - 1), "..");
    }
  }

  // Names that are not parents lead straight down.
  lemma {:induction false} WalkDown(abs: bool, here: seq<string>, ps: seq<string>)
    requires forall i :: 0 <= i < |ps| ==> ps[i] != ".."
    ensures WalkOn(abs, here, ps) == here + ps
  {
    if ps != [] {
      WalkDown(abs, here, ps[..|ps| - 1]);
      assert here + ps == (here + ps[..|ps| - 1]) + [ps[|ps| - 1]];
    }
  }

  lemma {:induction false} StripLeftSegments(s: string)
    ensures SegmentsOf(StripLeft(s)) == SegmentsOf(s)
  {
    if s != "" && s[0] == '/' {
      StripLeftSegments(s[1..]);
      RootedSegments(s[1..]);
      assert "/" + s[1..] == s;
    }
  }

  lemma {:induction false} StripRightSegments(s: string)
    ensures SegmentsOf(StripRight(s)) == SegmentsOf(s)
  {
    if s != "" && s[|s| - 1] == '/' {
      var front := s[..|s| - 1];
      StripRightSegments(front);
      SegmentsUnder(front, "");
      NoText();
      NoEmptySegment();
      assert front + "/" + "" == s;
    }
  }

  lemma StripSegments(s: string)
    ensures SegmentsOf(StripSlashes(s)) == SegmentsOf(s)
  {
    StripLeftSegments(s);
    StripRightSegments(StripLeft(s));
  }

  // A spelled-out absolute path without parents is normalised already.
  lemma SpelledIsNormal(s: string)
    requires IsAbsolute(s) && Spelled(s) && ".." !in SegmentsOf(s)
    ensures Normpath(s) == s
  {
    hide SegmentsOf, NormSegments, Join;
    NormpathWalks(s);
    WalkFromNowhere(true, SegmentsOf(s));
    WalkDown(true, [], SegmentsOf(s));
    assert [] + SegmentsOf(s) == SegmentsOf(s);
    NormpathSpelled(s);
  }
}
