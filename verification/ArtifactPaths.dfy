/**
 Where a published model lives: what training writes into the artifact manifest and what
 inference reads out of it.
 */
module ArtifactPaths {
  import opened Wrappers
  import opened Paths

  datatype Kind = SharedFs | S3 | Unknown

  // What a request or a manifest says about storage.
  datatype Storage = Storage(kind: Kind, bucket: string, prefix: string)

  // The canonical location of a published Bundle, an S3 URI already split into its parts.
  datatype RawBundle = S3Uri(netloc: string, path: string) | Local(path: string)

  type Bundle = b: RawBundle | b.S3Uri? ==> NoSlash(b.netloc) witness Local("")

  // ---------------------------------------------------------------- what training accepts

  predicate Trimmed(s: string) {
    s != "" && !Space(s[0]) && !Space(s[|s| - 1])
  }

  predicate Contains(s: string, part: string) {
    |part| <= |s| && (s[..|part|] == part || (s != "" && Contains(s[1..], part)))
  }

  predicate NoParent(s: string) {
    ".." !in Split(s)
  }

  function RelativePrefix(value: string): Option<string> {
    var prefix := StripSlashes(value);
    if prefix == "" || !NoParent(prefix) then None else Some(prefix)
  }

  // The storage a training request may ask for; a prefix is as `RelativePrefix` leaves it.
  predicate RequestOk(requested: Storage) {
    && RelativePrefix(requested.prefix) == Some(requested.prefix)
    && Trimmed(requested.bucket)
    && match requested.kind
       case SharedFs => IsAbsolute(requested.bucket) && Normpath(requested.bucket) != "/" && NoParent(requested.bucket)
       case S3 => !Contains(requested.bucket, "://") && NoSlash(StripSlashes(requested.bucket))
       case Unknown => false
  }

  // The storage written to the manifest, unless the Bundle is outside what was requested.
  function ArtifactStorage(requested: Storage, bundle: Bundle): Option<Storage> {
    match requested.kind
    case S3 =>
      if !bundle.S3Uri? || bundle.netloc != requested.bucket then None
      else
        var prefix := Normpath(StripSlashes(bundle.path));
        if Commonpath(requested.prefix, prefix) != Some(requested.prefix) || prefix == requested.prefix then None
        else Some(Storage(S3, requested.bucket, prefix + "/"))
    case SharedFs =>
      if !bundle.Local? then None
      else
        var root := Normpath(requested.bucket);
        var requestedRoot, path := PathJoin(root, requested.prefix), Normpath(bundle.path);
        if Commonpath(requestedRoot, path) != Some(requestedRoot) || path == requestedRoot then None
        else Some(Storage(SharedFs, root, StripSlashes(Relpath(path, root)) + "/"))
    case Unknown => None
  }

  function ManifestPath(name: string, relative: string): string {
    PathJoin(PathJoin("artifacts", name), relative)
  }

  // ---------------------------------------------------------------- what inference resolves

  function TrimLeft(s: string): string {
    if s != "" && Space(s[0]) then TrimLeft(s[1..]) else s
  }

  function TrimRight(s: string): string {
    if s != "" && Space(s[|s| - 1]) then TrimRight(s[..|s| - 1]) else s
  }

  function Trim(s: string): string {
    TrimRight(TrimLeft(s))
  }

  predicate PlainText(s: string) {
    ':' !in s && '\\' !in s
  }

  function StorageRoot(s: Storage): Option<string> {
    var bucket := Trim(s.bucket);
    if bucket == "" || s.prefix == "" || s.prefix[|s.prefix| - 1] != '/' || s.prefix[0] == '/' || !PlainText(s.prefix) then None
    else
      var prefix := StripRight(s.prefix);
      if !NoParent(prefix) then None
      else
        match s.kind
        case SharedFs => if !IsAbsolute(bucket) then None else Some(PathJoin(Normpath(bucket), prefix))
        case S3 =>
          if Contains(bucket, "://") || !NoSlash(StripSlashes(bucket)) then None
          else Some("s3://" + StripSlashes(bucket) + (if prefix != "" then "/" + prefix else ""))
        case Unknown => None
  }

  predicate StaysBelow(path: string) {
    && path != "" && path[0] != '/' && PlainText(path)
    && forall i :: 0 <= i < |Split(path)| ==> Split(path)[i] !in {"", ".", ".."}
  }

  function JoinUri(root: string, path: string): Option<string> {
    if StaysBelow(Trim(path)) then Some(StripRight(root) + "/" + Trim(path)) else None
  }

  // Where inference looks for a file of the manifest.
  function Resolve(manifest: Storage, path: string): Option<string> {
    match StorageRoot(manifest)
    case None => None
    case Some(root) => JoinUri(root, path)
  }

  // ---------------------------------------------------------------- the same place

  // The normalised location of a Bundle.
  function Location(b: Bundle): string {
    match b
    case Local(path) => Normpath(path)
    case S3Uri(netloc, path) => "s3://" + netloc + "/" + Normpath(StripSlashes(path))
  }

  // The storage root as requested, before anything is published.
  function RequestedRoot(requested: Storage): string {
    match requested.kind
    case S3 => "s3://" + requested.bucket + "/" + requested.prefix
    case _ => PathJoin(Normpath(requested.bucket), requested.prefix)
  }

  lemma {:induction false} TrimRightShortens(s: string)
    ensures |TrimRight(s)| <= |s| && TrimRight(s) == s[..|TrimRight(s)|]
    ensures s != "" ==> (TrimRight(s) == s <==> !Space(s[|s| - 1]))
  {
    if s != "" && Space(s[|s| - 1]) {
      TrimRightShortens(s[..|s| - 1]);
    }
  }

  lemma TrimFixed(s: string)
    requires s != "" && !Space(s[0])
    ensures Trim(s) == s <==> !Space(s[|s| - 1])
    ensures |Trim(s)| <= |s| && Trim(s) == s[..|Trim(s)|]
  {
    TrimRightShortens(s);
  }

  // With the root resolved, the path decides.
  lemma ResolveUnder(manifest: Storage, root: string, path: string)
    requires StorageRoot(manifest) == Some(root) && root != "" && root[|root| - 1] != '/' && Trimmed(path)
    ensures Resolve(manifest, path) == if StaysBelow(path) then Some(root + "/" + path) else None
  {
    hide StorageRoot, StaysBelow, Trim, StripRight;
    TrimFixed(path);
    StripRightDone(root);
  }

  // A relative prefix as requests have them.
  predicate PrefixForm(prefix: string) {
    prefix != "" && prefix[0] != '/' && prefix[|prefix| - 1] != '/' && NoParent(prefix)
  }

  lemma {:induction false} StripRightEnds(s: string)
    ensures StripRight(s) == "" || StripRight(s)[|StripRight(s)| - 1] != '/'
  {
    if s != "" && s[|s| - 1] == '/' {
      StripRightEnds(s[..|s| - 1]);
    }
  }

  lemma PrefixIsForm(value: string)
    requires RelativePrefix(value).Some?
    ensures PrefixForm(RelativePrefix(value).value)
  {
    StrippedRelative(value);
    StripRightEnds(StripLeft(value));
  }

  // ---------------------------------------------------------------- S3

  lemma S3Contained(requested: Storage, bundle: Bundle)
    requires requested.kind == S3 && PrefixForm(requested.prefix) && bundle.S3Uri? && bundle.netloc == requested.bucket
    ensures ArtifactStorage(requested, bundle).Some? <==>
      Spelled(requested.prefix) && StrictlyBelow(Normpath(StripSlashes(bundle.path)), requested.prefix)
  {
    StrippedRelative(bundle.path);
    ContainedIff(requested.prefix, StripSlashes(bundle.path));
  }

  // A place properly below another, compared by segments.
  predicate LeadsBelow(place: seq<string>, outer: seq<string>) {
    Prefix(outer, place) && |outer| < |place|
  }

  // A Bundle is accepted exactly when walking its path leads strictly below a plainly spelled prefix.
  lemma S3AcceptedIff(requested: Storage, bundle: Bundle)
    requires requested.kind == S3 && PrefixForm(requested.prefix) && bundle.S3Uri? && bundle.netloc == requested.bucket
    ensures ArtifactStorage(requested, bundle).Some? <==>
      Spelled(requested.prefix) && LeadsBelow(Walk(false, SegmentsOf(bundle.path)), SegmentsOf(requested.prefix))
  {
    hide SegmentsOf, Normpath, NormSegments, ArtifactStorage, Spelled, StripSlashes;
    S3Contained(requested, bundle);
    StrippedRelative(bundle.path);
    NormpathWalks(StripSlashes(bundle.path));
    StripSegments(bundle.path);
  }

  // Below a prefix without parents nothing normalised has any.
  lemma BelowHasNoParents(inner: seq<string>, outer: string)
    requires NoParent(outer) && SegmentsOf(outer) != [] && Prefix(SegmentsOf(outer), inner) && Clean(false, inner)
    ensures ".." !in inner
  {
    SegmentFacts(outer);
    assert SegmentsOf(outer)[0] == inner[0] && inner[0] != "..";
  }

  lemma SpelledHasSegments(prefix: string)
    requires PrefixForm(prefix) && Spelled(prefix)
    ensures SegmentsOf(prefix) != []
  {
    NoJoin();
  }

  lemma S3Prefix(requested: Storage, bundle: Bundle)
    requires requested.kind == S3 && PrefixForm(requested.prefix)
    requires ArtifactStorage(requested, bundle).Some?
    ensures bundle.S3Uri? && bundle.netloc == requested.bucket
    ensures
      var prefix := Normpath(StripSlashes(bundle.path));
      && PrefixForm(prefix) && SegmentsOf(prefix) == NormSegments(StripSlashes(bundle.path))
      && ArtifactStorage(requested, bundle).value == Storage(S3, requested.bucket, prefix + "/")
      && StrictlyBelow(prefix, requested.prefix)
  {
    hide SegmentsOf, Normpath, NormSegments, Join, Clean;
    S3Contained(requested, bundle);
    SpelledHasSegments(requested.prefix);
    var s := StripSlashes(bundle.path);
    StrippedRelative(bundle.path);
    NormpathMeans(s);
    var segments := NormSegments(s);
    BelowHasNoParents(segments, requested.prefix);
    NormpathSpelled(s);
    assert "" + Join(segments) == Join(segments);
    CleanSegments(false, segments);
    JoinEnds(segments);
    SplitJoin(segments);
  }

  lemma CleanSegments(abs: bool, ps: seq<string>)
    requires Clean(abs, ps)
    ensures forall i :: 0 <= i < |ps| ==> Proper(ps[i]) && NoSlash(ps[i])
    ensures abs ==> ".." !in ps
  {
  }

  lemma PlainBucket(bucket: string)
    requires Trimmed(bucket) && NoSlash(bucket)
    ensures Trim(bucket) == bucket && StripSlashes(bucket) == bucket && !Contains(bucket, "://")
  {
    TrimFixed(bucket);
    assert bucket[0] in bucket && bucket[|bucket| - 1] in bucket;
    StripNothing(bucket);
    NoSlashNoScheme(bucket);
  }

  lemma {:induction false} NoSlashNoScheme(s: string)
    requires NoSlash(s)
    ensures !Contains(s, "://")
  {
    if |s| >= 3 {
      assert s[..3][1] == s[1] && s[1] in s;
      NoSlashNoScheme(s[1..]);
    }
  }

  lemma S3StorageRoot(bucket: string, prefix: string)
    requires Trimmed(bucket) && NoSlash(bucket) && PrefixForm(prefix)
    ensures StorageRoot(Storage(S3, bucket, prefix + "/")) ==
      if PlainText(prefix + "/") then Some("s3://" + bucket + "/" + prefix) else None
  {
    hide NoParent, PlainText, Trim, Contains, StripSlashes, StripRight;
    StripRightDone(prefix);
    PlainBucket(bucket);
    assert "s3://" + bucket + ("/" + prefix) == "s3://" + bucket + "/" + prefix;
  }

  // Whatever inference accepts of an S3 manifest resolves to the Bundle and the manifest path.
  lemma S3RoundTrip(requested: Storage, bundle: Bundle, path: string)
    requires requested.kind == S3 && PrefixForm(requested.prefix) && Trimmed(requested.bucket) && NoSlash(requested.bucket)
    requires ArtifactStorage(requested, bundle).Some? && Trimmed(path)
    ensures
      var manifest := ArtifactStorage(requested, bundle).value;
      && (Resolve(manifest, path).Some? <==> PlainText(manifest.prefix) && StaysBelow(path))
      && (Resolve(manifest, path).Some? ==>
            && Resolve(manifest, path) == Some(Location(bundle) + "/" + path)
            && StrictlyBelow(Location(bundle) + "/" + path, RequestedRoot(requested)))
  {
    hide StrictlyBelow, Normpath, ArtifactStorage, NoParent, StaysBelow, PlainText, Trim, StripRight, StripSlashes, StorageRoot;
    S3Prefix(requested, bundle);
    var prefix := Normpath(StripSlashes(bundle.path));
    var start := "s3://" + requested.bucket;
    S3StorageRoot(requested.bucket, prefix);
    if PlainText(prefix + "/") {
      ResolveUnder(ArtifactStorage(requested, bundle).value, start + "/" + prefix, path);
    }
    BelowUnder(start, prefix, requested.prefix);
    StillBelow(start + "/" + prefix, start + "/" + requested.prefix, path);
  }

  // ---------------------------------------------------------------- shared storage

  // The normalised shared root.
  lemma SharedRoot(bucket: string)
    requires IsAbsolute(bucket) && Normpath(bucket) != "/"
    ensures
      var root, segments := Normpath(bucket), NormSegments(bucket);
      && segments != [] && root == "/" + Join(segments) && IsAbsolute(root) && Normpath(root) == root
      && SegmentsOf(root) == segments && root[|root| - 1] != '/' && ".." !in segments
  {
    hide SegmentsOf, Join, Clean;
    NormpathMeans(bucket);
    NormpathIdempotent(bucket);
    NormpathSpelled(bucket);
    NoJoin();
    CleanSegments(true, NormSegments(bucket));
    JoinEnds(NormSegments(bucket));
  }

  lemma SharedContained(requested: Storage, bundle: Bundle)
    requires requested.kind == SharedFs && PrefixForm(requested.prefix) && bundle.Local?
    requires IsAbsolute(requested.bucket) && Normpath(requested.bucket) != "/"
    ensures RequestedRoot(requested) == Normpath(requested.bucket) + "/" + requested.prefix
    ensures ArtifactStorage(requested, bundle).Some? <==>
      IsAbsolute(bundle.path) && Spelled(requested.prefix) && StrictlyBelow(Normpath(bundle.path), RequestedRoot(requested))
  {
    hide SegmentsOf, Normpath, NormSegments, Join, StrictlyBelow, Spelled, Relpath;
    SharedRoot(requested.bucket);
    NormpathMeans(bundle.path);
    var root := Normpath(requested.bucket);
    var outer := root + "/" + requested.prefix;
    if IsAbsolute(bundle.path) {
      ContainedIff(outer, bundle.path);
      SpelledUnder(root, NormSegments(requested.bucket), requested.prefix);
    }
  }

  // A Bundle is accepted exactly when its path is absolute and walking it leads strictly below
  // where the bucket and a plainly spelled prefix lead.
  lemma SharedAcceptedIff(requested: Storage, bundle: Bundle)
    requires requested.kind == SharedFs && PrefixForm(requested.prefix) && bundle.Local?
    requires IsAbsolute(requested.bucket) && Normpath(requested.bucket) != "/"
    ensures ArtifactStorage(requested, bundle).Some? <==>
      && IsAbsolute(bundle.path) && Spelled(requested.prefix)
      && LeadsBelow(Walk(true, SegmentsOf(bundle.path)), Walk(true, SegmentsOf(requested.bucket)) + SegmentsOf(requested.prefix))
  {
    hide SegmentsOf, Normpath, NormSegments, ArtifactStorage, Spelled;
    SharedContained(requested, bundle);
    NormpathWalks(bundle.path);
    NormpathWalks(requested.bucket);
    SegmentsUnder(Normpath(requested.bucket), requested.prefix);
  }

  // A name of one directory.
  predicate Name(c: string) {
    Proper(c) && NoSlash(c) && c != ".."
  }

  // Leaving the requested prefix by "..", a Bundle is refused, however its path begins.
  lemma EscapeRefused(root: string, prefix: string, other: string, name: string)
    requires Name(root) && Name(prefix) && Name(other) && Name(name) && prefix != other
    ensures ArtifactStorage(Storage(SharedFs, "/" + root, prefix), Local("/" + root + "/" + prefix + "/" + ".." + "/" + other + "/" + name)) == None
  {
    hide SegmentsOf, Normpath, NormSegments, ArtifactStorage, Join;
    var bucket := "/" + root;
    var a := bucket + "/" + prefix;
    var b := a + "/" + "..";
    var c := b + "/" + other;
    var path := c + "/" + name;
    assert path[0] == '/';
    RootedSegments(root);
    SegmentOfName(root);
    SegmentOfName(prefix);
    SegmentOfName("..");
    SegmentOfName(other);
    SegmentOfName(name);
    SegmentsUnder(bucket, prefix);
    SegmentsUnder(a, "..");
    SegmentsUnder(b, other);
    SegmentsUnder(c, name);
    assert SegmentsOf(path) == [root, prefix, "..", other, name];
    EscapeWalk(root, prefix, other, name);
    NormpathWalks(bucket);
    SplitWhole(prefix);
    assert prefix[0] in prefix && prefix[|prefix| - 1] in prefix;
    RootIsNot(bucket);
    SharedAcceptedIff(Storage(SharedFs, bucket, prefix), Local(path));
    assert Walk(true, SegmentsOf(path))[1] == other && ([root] + [prefix])[1] == prefix;
  }

  lemma RootIsNot(bucket: string)
    requires SegmentsOf(Normpath(bucket)) != []
    ensures Normpath(bucket) != "/"
  {
    RootedSegments("");
    EmptySegments();
    assert "/" + "" == "/";
  }

  lemma EscapeWalk(root: string, prefix: string, other: string, name: string)
    requires Name(root) && Name(prefix) && Name(other) && Name(name)
    ensures Walk(true, [root]) == [root]
    ensures Walk(true, [root, prefix, "..", other, name]) == [root, other, name]
  {
    WalkOneMore(true, [], root);
    WalkOneMore(true, [root], prefix);
    WalkOneMore(true, [root, prefix], "..");
    WalkOneMore(true, [root, prefix, ".."], other);
    WalkOneMore(true, [root, prefix, "..", other], name);
    assert [] + [root] == [root] && [root] + [prefix] == [root, prefix] && [root, prefix] + [".."] == [root, prefix, ".."];
    assert [root, prefix, ".."] + [other] == [root, prefix, "..", other];
    assert [root, prefix, "..", other] + [name] == [root, prefix, "..", other, name];
    assert [root, prefix][..1] == [root];
  }

  lemma PrivateBundleRefused()
    ensures ArtifactStorage(Storage(SharedFs, "/srv", "models"), Local("/srv/models/../private/b")) == None
  {
    hide ArtifactStorage;
    assert "models"[0] != "private"[0];
    assert "/" + "srv" == "/srv";
    assert "/srv" + "/" + "models" + "/" + ".." + "/" + "private" + "/" + "b" == "/srv/models/../private/b";
    EscapeRefused("srv", "models", "private", "b");
  }

  // A root followed by a prefix is plainly spelled when the prefix is.
  lemma SpelledUnder(root: string, segments: seq<string>, prefix: string)
    requires segments != [] && root == "/" + Join(segments) && SegmentsOf(root) == segments
    requires prefix != "" && !IsAbsolute(prefix)
    ensures Spelled(root + "/" + prefix) <==> Spelled(prefix)
  {
    hide SegmentsOf, Join;
    SegmentsUnder(root, prefix);
    var ps := SegmentsOf(prefix);
    NoJoin();
    if ps == [] {
      assert segments + ps == segments;
      assert |root| < |root + "/" + prefix|;
    } else {
      JoinConcat(segments, ps);
      assert "/" + Join(segments + ps) == root + "/" + Join(ps);
      assert "" + Join(ps) == Join(ps);
      SameTail(root + "/", Join(ps), prefix);
    }
  }

  lemma SameTail(a: string, b: string, c: string)
    ensures a + b == a + c <==> b == c
  {
    assert (a + b)[|a|..] == b && (a + c)[|a|..] == c;
  }

  // An accepted Bundle's segments continue those of the shared root.
  lemma SharedSegments(requested: Storage, bundle: Bundle)
    requires requested.kind == SharedFs && PrefixForm(requested.prefix)
    requires IsAbsolute(requested.bucket) && Normpath(requested.bucket) != "/"
    requires ArtifactStorage(requested, bundle).Some?
    ensures bundle.Local? && IsAbsolute(bundle.path) && StrictlyBelow(Location(bundle), RequestedRoot(requested))
    ensures Prefix(NormSegments(requested.bucket), NormSegments(bundle.path))
    ensures |NormSegments(requested.bucket)| < |NormSegments(bundle.path)|
  {
    hide SegmentsOf, Normpath, NormSegments, Spelled, PrefixForm;
    SharedContained(requested, bundle);
    SharedRoot(requested.bucket);
    NormpathMeans(bundle.path);
    SegmentsUnder(Normpath(requested.bucket), requested.prefix);
    var from, more, to := NormSegments(requested.bucket), SegmentsOf(requested.prefix), NormSegments(bundle.path);
    assert from + more == to[..|from| + |more|];
    assert from == (from + more)[..|from|];
  }

  // What is written for a path below a root leads from the root to it.
  lemma WrittenBelow(bucket: string, path: string) returns (written: string)
    requires IsAbsolute(bucket) && Normpath(bucket) != "/" && IsAbsolute(path)
    requires Prefix(NormSegments(bucket), NormSegments(path)) && |NormSegments(bucket)| < |NormSegments(path)|
    ensures written == StripSlashes(Relpath(Normpath(path), Normpath(bucket)))
    ensures PrefixForm(written) && Normpath(path) == Normpath(bucket) + "/" + written
  {
    hide SegmentsOf, Normpath, NormSegments, Join, Clean, Relpath, StripSlashes, Split;
    var root, from, to := Normpath(bucket), NormSegments(bucket), NormSegments(path);
    var rest := to[|from|..];
    SharedRoot(bucket);
    NormpathMeans(path);
    NormpathIdempotent(path);
    SegmentsAgain(root);
    SegmentsAgain(Normpath(path));
    RelpathBelow(Normpath(path), root);
    assert to == from + rest;
    CleanSegments(true, to);
    JoinEnds(rest);
    SplitJoin(rest);
    StripNothing(Join(rest));
    JoinConcat(from, rest);
    NormpathSpelled(path);
    written := Join(rest);
    assert "/" + (Join(from) + "/" + written) == root + "/" + written;
  }

  lemma SharedPrefixWritten(requested: Storage, bundle: Bundle) returns (written: string)
    requires requested.kind == SharedFs && PrefixForm(requested.prefix)
    requires IsAbsolute(requested.bucket) && Normpath(requested.bucket) != "/"
    requires ArtifactStorage(requested, bundle).Some?
    ensures PrefixForm(written) && Location(bundle) == Normpath(requested.bucket) + "/" + written
    ensures ArtifactStorage(requested, bundle) == Some(Storage(SharedFs, Normpath(requested.bucket), written + "/"))
    ensures StrictlyBelow(Location(bundle), RequestedRoot(requested))
  {
    hide Normpath, NormSegments, StripSlashes, Relpath, StrictlyBelow, Commonpath, PrefixForm, Prefix;
    SharedSegments(requested, bundle);
    written := WrittenBelow(requested.bucket, bundle.path);
  }

  lemma SegmentsAgain(s: string)
    requires Normpath(s) == s
    ensures NormSegments(s) == SegmentsOf(s)
  {
    NormpathMeans(s);
  }

  // Whatever inference accepts of a shared manifest resolves to the Bundle and the manifest
  // path, exactly when normalising the bucket leaves no white space at its end.
  lemma SharedRoundTrip(requested: Storage, bundle: Bundle, path: string)
    requires requested.kind == SharedFs && PrefixForm(requested.prefix)
    requires IsAbsolute(requested.bucket) && Normpath(requested.bucket) != "/"
    requires ArtifactStorage(requested, bundle).Some? && Trimmed(path)
    ensures
      var manifest := ArtifactStorage(requested, bundle).value;
      && (Resolve(manifest, path).Some? <==> PlainText(manifest.prefix) && StaysBelow(path))
      && StrictlyBelow(Location(bundle) + "/" + path, RequestedRoot(requested))
      && (Resolve(manifest, path).Some? ==>
            (Resolve(manifest, path) == Some(Location(bundle) + "/" + path) <==> Trimmed(Normpath(requested.bucket))))
  {
    hide StrictlyBelow, Normpath, ArtifactStorage, StaysBelow, PlainText, Location, RequestedRoot, Resolve, Trimmed, PrefixForm, IsAbsolute;
    var written := SharedPrefixWritten(requested, bundle);
    SharedRoot(requested.bucket);
    StillBelow(Location(bundle), RequestedRoot(requested), path);
    SharedResolve(Normpath(requested.bucket), written, path);
  }

  // Resolving under a shared root and a prefix written for it.
  lemma SharedResolve(root: string, written: string, path: string)
    requires IsAbsolute(root) && Normpath(root) == root && root[|root| - 1] != '/' && PrefixForm(written) && Trimmed(path)
    ensures
      var manifest, place := Storage(SharedFs, root, written + "/"), root + "/" + written + "/" + path;
      && (Resolve(manifest, path).Some? <==> PlainText(manifest.prefix) && StaysBelow(path))
      && (Resolve(manifest, path).Some? ==> (Resolve(manifest, path) == Some(place) <==> Trimmed(root)))
  {
    hide Normpath, StaysBelow, PlainText, StorageRoot, PathJoin, Trim, JoinUri, PrefixForm, Trimmed;
    SharedStorageRoot(root, written);
    ResolvedRoot(root, written);
    var resolved, manifest := PathJoin(Normpath(Trim(root)), written), Storage(SharedFs, root, written + "/");
    if PlainText(manifest.prefix) {
      ResolveUnder(manifest, resolved, path);
      SameHead(resolved, root + "/" + written, "/" + path);
      assert resolved + ("/" + path) == resolved + "/" + path;
      assert (root + "/" + written) + ("/" + path) == root + "/" + written + "/" + path;
    }
  }

  lemma SameHead(a: string, b: string, c: string)
    ensures a + c == b + c <==> a == b
  {
    if a + c == b + c {
      assert |a + c| == |a| + |c| && |b + c| == |b| + |c|;
      assert (a + c)[..|a|] == a && (b + c)[..|b|] == b;
    }
  }

  lemma SharedStorageRoot(root: string, rest: string)
    requires IsAbsolute(root) && PrefixForm(rest)
    ensures StorageRoot(Storage(SharedFs, root, rest + "/")) ==
      if PlainText(rest + "/") then Some(PathJoin(Normpath(Trim(root)), rest)) else None
  {
    hide Normpath, NoParent, PlainText, PathJoin;
    StripRightDone(rest);
    assert !Space('/');
    TrimmedRoot(root);
  }

  // Inference reads the bucket without its trailing white space.
  lemma ResolvedRoot(root: string, rest: string)
    requires IsAbsolute(root) && Normpath(root) == root && root[|root| - 1] != '/' && PrefixForm(rest)
    ensures
      var resolved := PathJoin(Normpath(Trim(root)), rest);
      && resolved != "" && resolved[|resolved| - 1] != '/'
      && (resolved == root + "/" + rest <==> Trimmed(root))
  {
    hide Normpath, Trim, NoParent;
    assert !Space('/');
    TrimmedRoot(root);
    TrimFixed(root);
    var bucket := Trim(root);
    var resolved := PathJoin(Normpath(bucket), rest);
    assert resolved[|resolved| - 1] == rest[|rest| - 1];
    if bucket != root {
      NormpathShortens(bucket);
      assert |resolved| < |root + "/" + rest|;
    }
  }

  lemma TrimmedRoot(root: string)
    requires IsAbsolute(root)
    ensures IsAbsolute(Trim(root))
    ensures Trim(root) != root ==> |Trim(root)| < |root|
  {
    KeepsFirst(root);
  }

  lemma {:induction false} KeepsFirst(s: string)
    requires s != "" && !Space(s[0])
    ensures TrimRight(s) != "" && TrimRight(s)[0] == s[0]
    ensures TrimRight(s) != s ==> |TrimRight(s)| < |s|
  {
    if Space(s[|s| - 1]) {
      KeepsFirst(s[..|s| - 1]);
    }
  }

  // ---------------------------------------------------------------- published files

  // A file of an artifact lies under the artifact's own directory.
  lemma ManifestPathSegments(name: string, relative: string)
    requires Trimmed(name) && Trimmed(relative) && !IsAbsolute(name) && !IsAbsolute(relative)
    ensures Trimmed(ManifestPath(name, relative))
    ensures SegmentsOf(ManifestPath(name, relative)) == ["artifacts"] + SegmentsOf(name) + SegmentsOf(relative)
  {
    hide SegmentsOf;
    var top := "artifacts" + "/" + name;
    assert PathJoin("artifacts", name) == top;
    ArtifactsSegment();
    SegmentsUnder("artifacts", name);
    if name[|name| - 1] == '/' {
      var bare := name[..|name| - 1];
      assert name == bare + "/" + "" && top == ("artifacts" + "/" + bare) + "/" + "";
      assert top + relative == ("artifacts" + "/" + bare) + "/" + relative;
      SegmentsUnder(bare, "");
      SegmentsUnder("artifacts", bare);
      SegmentsUnder("artifacts" + "/" + bare, relative);
      EmptySegments();
    } else {
      SegmentsUnder(top, relative);
    }
    assert !Space('a');
  }

  lemma ArtifactsSegment()
    ensures SegmentsOf("artifacts") == ["artifacts"]
  {
    SplitWhole("artifacts");
  }

  lemma EmptySegments()
    ensures SegmentsOf("") == []
  {
  }

  lemma S3Netloc(requested: Storage, bundle: Bundle)
    requires requested.kind == S3 && ArtifactStorage(requested, bundle).Some?
    ensures NoSlash(requested.bucket)
  {
  }

  // Inference accepts a file of the manifest of a published Bundle.
  predicate Accepted(requested: Storage, bundle: Bundle, path: string) {
    ArtifactStorage(requested, bundle).Some? && Resolve(ArtifactStorage(requested, bundle).value, path).Some?
  }

  // Published and accepted, every model file is found where it was put, strictly below the
  // storage the request named.
  lemma PublishedFileFound(requested: Storage, bundle: Bundle, name: string, relative: string)
    requires Trimmed(name) && Trimmed(relative) && !IsAbsolute(name) && !IsAbsolute(relative)
    ensures RequestOk(requested) && (requested.kind == SharedFs ==> Trimmed(Normpath(requested.bucket)))
            && Accepted(requested, bundle, ManifestPath(name, relative)) ==>
      var uri := Resolve(ArtifactStorage(requested, bundle).value, ManifestPath(name, relative)).value;
      && uri == Location(bundle) + "/" + ManifestPath(name, relative)
      && SegmentsOf(uri) == SegmentsOf(Location(bundle)) + ["artifacts"] + SegmentsOf(name) + SegmentsOf(relative)
      && StrictlyBelow(uri, RequestedRoot(requested))
  {
    hide SegmentsOf, Resolve, ArtifactStorage, StrictlyBelow, Location, RequestedRoot, ManifestPath, Normpath, PlainText, StaysBelow;
    var path := ManifestPath(name, relative);
    ManifestPathSegments(name, relative);
    SegmentsUnder(Location(bundle), path);
    if RequestOk(requested) && (requested.kind == SharedFs ==> Trimmed(Normpath(requested.bucket))) && Accepted(requested, bundle, path) {
      PrefixIsForm(requested.prefix);
      if requested.kind == S3 {
        S3Netloc(requested, bundle);
        S3RoundTrip(requested, bundle, path);
      } else {
        SharedRoundTrip(requested, bundle, path);
      }
    }
  }

  // A prefix that is not spelled out by its segments refuses every Bundle.
  lemma UnspelledPrefixRefused(requested: Storage, bundle: Bundle)
    requires PrefixForm(requested.prefix) && !Spelled(requested.prefix)
    requires requested.kind == SharedFs ==> IsAbsolute(requested.bucket) && Normpath(requested.bucket) != "/"
    ensures ArtifactStorage(requested, bundle) == None
  {
    if requested.kind == S3 && bundle.S3Uri? && bundle.netloc == requested.bucket {
      S3Contained(requested, bundle);
    } else if requested.kind == SharedFs && bundle.Local? {
      SharedContained(requested, bundle);
    }
  }

  // The prefix "." is taken when a run is planned, and then no Bundle can be published.
  lemma DotPrefixNeverPublishes(bucket: string, bundle: Bundle)
    requires IsAbsolute(bucket) && Normpath(bucket) != "/"
    ensures RelativePrefix(".") == Some(".")
    ensures ArtifactStorage(Storage(SharedFs, bucket, "."), bundle) == None
  {
    JustDot();
    SplitWhole(".");
    StripNothing(".");
    UnspelledPrefixRefused(Storage(SharedFs, bucket, "."), bundle);
  }

  // The bucket "/d /." is one that normalises to a name ending in white space.
  lemma SpacedSegments()
    ensures SegmentsOf("/d ") == ["d "] && SegmentsOf("/d /.") == ["d "]
  {
    SpacedName();
    hide SegmentsOf;
    assert "/" + "d " == "/d ";
    assert "/d " + "/" + "." == "/d /.";
    RootedSegments("d ");
    SegmentsUnder("/d ", ".");
    JustDot();
  }

  lemma SpacedName()
    ensures SegmentsOf("d ") == ["d "]
  {
    SplitWhole("d ");
  }

  lemma SpacedNoParent()
    ensures NoParent("/d /.")
  {
    hide Split;
    SplitWhole("d ");
    SplitWhole(".");
    NoText();
    assert "" + "/" + "d " == "/d ";
    assert "/d " + "/" + "." == "/d /.";
    SplitSlash("", "d ");
    SplitSlash("/d ", ".");
  }

  lemma SpacedBucket()
    ensures Normpath("/d /.") == "/d "
  {
    hide Segments, Split;
    SpacedSegments();
    assert Clean(true, ["d "]);
    assert [] + ["d "] == ["d "];
    CollapseFixed(true, [], Split("/d /."));
  }

  lemma SpacedBundle()
    ensures Normpath("/d /m/b") == "/d /m/b"
  {
    var ps := ["d ", "m", "b"];
    assert ps[1..] == ["m", "b"] && ["m", "b"][1..] == ["b"];
    assert Join(["m", "b"]) == "m/b" && Join(ps) == "d /m/b";
    assert "/" + Join(ps) == "/d /m/b";
    assert Clean(true, ps);
    RenderedSegments(true, ps);
    assert [] + ps == ps;
    CollapseFixed(true, [], Split("/d /m/b"));
  }

  lemma SpacedBelow()
    ensures StrictlyBelow("/d /m/b", "/d /m")
  {
    SplitWhole("b");
    assert "/d /m" + "/" + "b" == "/d /m/b";
    SegmentsUnder("/d /m", "b");
    assert SegmentsOf("b") == ["b"];
  }

  lemma PlainNames()
    ensures RelativePrefix("m") == Some("m") && PrefixForm("m") && Spelled("m")
    ensures StaysBelow("f") && Trimmed("f") && PlainText("m/b/")
    ensures Trimmed("/d /.") && !Trimmed("/d ")
  {
    StripNothing("m");
    SplitWhole("m");
    SplitWhole("f");
    assert SegmentsOf("m") == ["m"];
  }

  // A request for it is accepted, and so is a Bundle, written to the manifest as "m/b/".
  lemma SpacedAccepted()
    ensures
      var requested := Storage(SharedFs, "/d /.", "m");
      RequestOk(requested) && ArtifactStorage(requested, Local("/d /m/b")) == Some(Storage(SharedFs, "/d ", "m/b/"))
  {
    hide Normpath, ArtifactStorage, StrictlyBelow, RelativePrefix, NoParent, Trimmed, PrefixForm, Spelled, Location, RequestedRoot;
    var requested, bundle := Storage(SharedFs, "/d /.", "m"), Local("/d /m/b");
    SpacedNoParent();
    SpacedBucket();
    SpacedContained();
    PlainNames();
    var written := SharedPrefixWritten(requested, bundle);
    SpacedBundle();
    SpacedWritten(written);
  }

  lemma SpacedWritten(written: string)
    requires Location(Local("/d /m/b")) == "/d " + "/" + written && Normpath("/d /m/b") == "/d /m/b"
    ensures written + "/" == "m/b/"
  {
    hide Normpath;
    assert "/d " + "/" + written == "/d /" + written && "/d /m/b" == "/d /" + "m/b";
    SameTail("/d /", written, "m/b");
  }

  lemma SpacedContained()
    ensures ArtifactStorage(Storage(SharedFs, "/d /.", "m"), Local("/d /m/b")).Some?
  {
    hide Normpath, ArtifactStorage, StrictlyBelow, RelativePrefix, NoParent, Trimmed, PrefixForm, Spelled;
    SpacedBucket();
    SpacedBundle();
    SpacedBelow();
    PlainNames();
    assert "/d " + "/" + "m" == "/d /m";
    SharedContained(Storage(SharedFs, "/d /.", "m"), Local("/d /m/b"));
  }

  // With that bucket a published and accepted file is looked for somewhere else.
  lemma SpacedBucketMisses()
    ensures
      var requested, bundle := Storage(SharedFs, "/d /.", "m"), Local("/d /m/b");
      && RequestOk(requested) && ArtifactStorage(requested, bundle).Some?
      && var found := Resolve(ArtifactStorage(requested, bundle).value, "f");
      && found.Some? && found != Some(Location(bundle) + "/" + "f")
  {
    hide Normpath, ArtifactStorage, Resolve, StrictlyBelow, StaysBelow, PlainText, Trimmed, Location, RequestedRoot;
    SpacedAccepted();
    SpacedBucket();
    PlainNames();
    PrefixIsForm("m");
    SharedRoundTrip(Storage(SharedFs, "/d /.", "m"), Local("/d /m/b"), "f");
  }

  // So does an S3 bucket written with a slash at an end, which planning takes for its name: the
  // location of a Bundle never names such a bucket.
  lemma SlashedBucketNeverPublishes(requested: Storage, bundle: Bundle)
    requires requested.kind == S3 && !NoSlash(requested.bucket)
    ensures ArtifactStorage(requested, bundle) == None
  {
  }

  lemma SlashedBucketPlanned()
    ensures RequestOk(Storage(S3, "b/", "m"))
    ensures !NoSlash("b/")
  {
    PlainNames();
    assert "b/"[1] == '/';
    assert StripRight("b/") == "b" by {
      assert "b/"[..1] == "b";
      assert StripRight("b") == "b";
    }
    assert !Contains("b/", "://");
  }

  // ---------------------------------------------------------------- staying in place

  lemma StaysBelowSegments(path: string)
    requires StaysBelow(path)
    ensures SegmentsOf(path) == Split(path) && SegmentsOf(path) != [] && ".." !in SegmentsOf(path) && path == Join(SegmentsOf(path))
  {
    SegmentsOfProper(Split(path));
    JoinSplit(path);
  }

  // Whatever a manifest says, what inference accepts of it for shared storage lies strictly below
  // the manifest's bucket, wherever its segments lead.
  lemma ManifestStaysInBucket(manifest: Storage, path: string)
    requires manifest.kind == SharedFs && Resolve(manifest, path).Some?
    ensures
      var uri := Resolve(manifest, path).value;
      IsAbsolute(uri) && LeadsBelow(Walk(true, SegmentsOf(uri)), Walk(true, SegmentsOf(Trim(manifest.bucket))))
  {
    hide SegmentsOf, Normpath, Trim, StaysBelow, NoParent, PlainText, Walk, LeadsBelow, PathJoin, StripRight;
    StripRightKeepsStart(manifest.prefix);
    ResolvedLeadsBelow(Trim(manifest.bucket), StripRight(manifest.prefix), Trim(path));
  }

  lemma ResolvedLeadsBelow(bucket: string, prefix: string, below: string)
    requires IsAbsolute(bucket) && !IsAbsolute(prefix) && NoParent(prefix) && StaysBelow(below)
    ensures
      var uri := StripRight(PathJoin(Normpath(bucket), prefix)) + "/" + below;
      IsAbsolute(uri) && LeadsBelow(Walk(true, SegmentsOf(uri)), Walk(true, SegmentsOf(bucket)))
  {
    hide SegmentsOf, Normpath, NormSegments, StaysBelow, NoParent, Walk, PathJoin, StripRight, Clean;
    var root := PathJoin(Normpath(bucket), prefix);
    NormpathMeans(bucket);
    NormpathWalks(bucket);
    CleanSegments(true, NormSegments(bucket));
    JoinedUnder(Normpath(bucket), prefix);
    StripRightSegments(root);
    SegmentsUnder(StripRight(root), below);
    StaysBelowSegments(below);
    PrefixNoParents(prefix);
    var home, names := NormSegments(bucket), SegmentsOf(prefix) + SegmentsOf(below);
    assert SegmentsOf(StripRight(root) + "/" + below) == home + names;
    DownFrom(home, names);
    assert (home + names)[..|home|] == home;
    RootStaysAbsolute(root, below);
  }

  // A walk down names from a place without parents ends at all of them.
  lemma DownFrom(home: seq<string>, names: seq<string>)
    requires ".." !in home && ".." !in names
    ensures Walk(true, home + names) == home + names
  {
    hide Walk;
    WalkConcat(true, home, names);
    WalkFromNowhere(true, home);
    WalkDown(true, [], home);
    assert [] + home == home;
    WalkDown(true, home, names);
  }

  lemma PrefixNoParents(prefix: string)
    requires NoParent(prefix)
    ensures ".." !in SegmentsOf(prefix)
  {
    SegmentFacts(prefix);
  }

  lemma JoinedUnder(root: string, prefix: string)
    requires IsAbsolute(root) && !IsAbsolute(prefix)
    ensures SegmentsOf(PathJoin(root, prefix)) == SegmentsOf(root) + SegmentsOf(prefix) && IsAbsolute(PathJoin(root, prefix))
  {
    hide SegmentsOf;
    if root[|root| - 1] == '/' {
      var front := root[..|root| - 1];
      assert root + prefix == front + "/" + prefix && root == front + "/" + "";
      SegmentsUnder(front, prefix);
      SegmentsUnder(front, "");
      EmptySegments();
    } else {
      SegmentsUnder(root, prefix);
    }
  }

  lemma RootStaysAbsolute(root: string, below: string)
    requires IsAbsolute(root)
    ensures IsAbsolute(StripRight(root) + "/" + below)
  {
    StripRightStart(root);
  }

  lemma {:induction false} StripRightStart(s: string)
    requires s != ""
    ensures StripRight(s) == "" || StripRight(s)[0] == s[0]
  {
    if s[|s| - 1] == '/' && |s| > 1 {
      StripRightStart(s[..|s| - 1]);
    } else if s[|s| - 1] == '/' {
      assert s[..|s| - 1] == "";
    }
  }

  // Where a published file of shared storage is found needs no further normalising.
  lemma FoundInPlace(bundle: Bundle, path: string)
    requires bundle.Local? && IsAbsolute(bundle.path) && SegmentsOf(Location(bundle)) != [] && StaysBelow(path)
    ensures Normpath(Location(bundle) + "/" + path) == Location(bundle) + "/" + path
  {
    hide SegmentsOf, Normpath, NormSegments, Join, StaysBelow;
    var home := Location(bundle);
    NormpathMeans(bundle.path);
    NormpathSpelled(bundle.path);
    CleanSegments(true, NormSegments(bundle.path));
    StaysBelowSegments(path);
    SegmentsUnder(home, path);
    JoinConcat(SegmentsOf(home), SegmentsOf(path));
    var uri := home + "/" + path;
    assert "/" + (Join(SegmentsOf(home)) + "/" + Join(SegmentsOf(path))) == uri;
    assert uri[0] == '/';
    SpelledIsNormal(uri);
  }
}
