// The maiden run of a workspace, guarded by a marker file, over any number of restarts.
// Git, the bootstrap and the file system decide their own outcomes.
module Setup {
  import opened Api
  import opened Paths
  import opened Validation

  const GIT_RETRIES := 5
  const MARKER_PREFIX := "initialized-"

  // ---- one repository ----

  // fetch(k): attempt k succeeds; done(k): the wait after it finds the context done.
  datatype Git = Git(fetch: nat -> bool, done: nat -> bool)

  // A success that comes before the attempts or the context run out.
  predicate Fetched(g: Git) {
    exists k :: 0 <= k < GIT_RETRIES && g.fetch(k) && forall j :: 0 <= j < k ==> !g.fetch(j) && !g.done(j)
  }

  method Retry(g: Git) returns (ok: bool, tries: nat)
    ensures 1 <= tries <= GIT_RETRIES
    ensures forall j :: 0 <= j < tries - 1 ==> !g.fetch(j) && !g.done(j)
    ensures ok <==> g.fetch(tries - 1)
    ensures ok <==> Fetched(g)
    ensures !ok ==> tries == GIT_RETRIES || g.done(tries - 1)
  {
    for attempt := 1 to GIT_RETRIES + 1
      invariant forall j :: 0 <= j < attempt - 1 ==> !g.fetch(j) && !g.done(j)
    {
      if g.fetch(attempt - 1) { return true, attempt; }
      if attempt == GIT_RETRIES { break; }
      if g.done(attempt - 1) { return false, attempt; }
    }
    return false, GIT_RETRIES;
  }

  // ---- all of them ----

  // A repository entry; None stands for a nil one, and an empty URL is skipped too.
  type Repos = seq<Option<string>>

  predicate Cloneable(r: Option<string>) {
    r.Some? && r.value != ""
  }

  function Cloned(repos: Repos, gits: nat -> Git): seq<string> {
    if repos == [] then []
    else
      var n := |repos| - 1;
      Cloned(repos[..n], gits) + if Cloneable(repos[n]) && Fetched(gits(n)) then [repos[n].value] else []
  }

  predicate AllFetched(repos: Repos, gits: nat -> Git) {
    forall i :: 0 <= i < |repos| && Cloneable(repos[i]) ==> Fetched(gits(i))
  }

  // A URL is among those cloned exactly if an entry for it was fetched.
  lemma {:induction false} ClonedAreTheFetched(repos: Repos, gits: nat -> Git, url: string)
    ensures url in Cloned(repos, gits)
            <==> url != "" && exists i :: 0 <= i < |repos| && repos[i] == Some(url) && Fetched(gits(i))
  {
    if repos != [] {
      var n := |repos| - 1;
      ClonedAreTheFetched(repos[..n], gits, url);
      assert forall i :: 0 <= i < n ==> repos[..n][i] == repos[i];
    }
  }

  // n attempts were made at one entry: none if it is skipped, and all but the last failed.
  predicate Tried(n: nat, r: Option<string>, g: Git) {
    n <= GIT_RETRIES && (n > 0 <==> Cloneable(r)) && forall k :: 0 <= k < n - 1 ==> !g.fetch(k)
  }

  predicate AllTried(tries: seq<nat>, repos: Repos, gits: nat -> Git) {
    |tries| <= |repos| && forall i :: 0 <= i < |tries| ==> Tried(tries[i], repos[i], gits(i))
  }

  lemma TriedSnoc(tries: seq<nat>, repos: Repos, gits: nat -> Git, n: nat)
    requires AllTried(tries, repos, gits) && |tries| < |repos| && Tried(n, repos[|tries|], gits(|tries|))
    ensures AllTried(tries + [n], repos, gits)
  {
  }

  // One failure does not keep the others from being tried.
  method CloneRepos(repos: Repos, gits: nat -> Git) returns (cloned: seq<string>, ok: bool, tries: seq<nat>)
    ensures cloned == Cloned(repos, gits) && (ok <==> AllFetched(repos, gits))
    ensures |tries| == |repos| && AllTried(tries, repos, gits)
  {
    cloned, ok, tries := [], true, [];
    for i := 0 to |repos|
      invariant cloned == Cloned(repos[..i], gits) && (ok <==> AllFetched(repos[..i], gits))
      invariant |tries| == i && AllTried(tries, repos, gits)
    {
      CloneSnoc(repos, gits, i);
      if !Cloneable(repos[i]) {
        TriedSnoc(tries, repos, gits, 0);
        tries := tries + [0];
        continue;
      }
      var fetched, n := Retry(gits(i));
      TriedSnoc(tries, repos, gits, n);
      tries := tries + [n];
      if !fetched {
        ok := false;
        continue;
      }
      cloned := cloned + [repos[i].value];
    }
    assert repos[..|repos|] == repos;
  }

  lemma CloneSnoc(repos: Repos, gits: nat -> Git, i: nat)
    requires i < |repos|
    ensures Cloned(repos[..i + 1], gits)
            == Cloned(repos[..i], gits) + if Cloneable(repos[i]) && Fetched(gits(i)) then [repos[i].value] else []
    ensures AllFetched(repos[..i + 1], gits) <==>
              AllFetched(repos[..i], gits) && (Cloneable(repos[i]) ==> Fetched(gits(i)))
  {
    var more := repos[..i + 1];
    assert more[..i] == repos[..i];
    assert forall j :: 0 <= j < i ==> more[j] == repos[..i][j];
    assert more[i] == repos[i];
  }

  // ---- the marker's name ----

  function OrDefault(path: string): string {
    if path == "" then DEFAULT_PATH else path
  }

  // The absolute, cleaned form of a path, from the working directory.
  function Absolute(cwd: string, path: string): string {
    var p := OrDefault(path);
    if Rooted(p) then Clean(p) else Clean(cwd + "/" + p)
  }

  function Stem(path: string): string {
    var s := TrimRight(TrimLeft(Clean(OrDefault(path))));
    if s == "" then "root" else s
  }

  function Dash(c: char): char {
    if c == '/' then '-' else c
  }

  function Dashed(s: string): (d: string)
    ensures |d| == |s| && forall i :: 0 <= i < |s| ==> d[i] == Dash(s[i])
  {
    seq(|s|, i requires 0 <= i < |s| => Dash(s[i]))
  }

  function MarkerName(path: string): string {
    MARKER_PREFIX + Dashed(Stem(path))
  }

  // The stems differ in nothing but slashes standing where the other has dashes.
  predicate Alike(p: string, q: string) {
    var a, b := Stem(p), Stem(q);
    |a| == |b| && forall i :: 0 <= i < |a| ==> a[i] == b[i] || (a[i] in "/-" && b[i] in "/-")
  }

  lemma DashedAlike(a: string, b: string)
    ensures Dashed(a) == Dashed(b)
            <==> |a| == |b| && forall i :: 0 <= i < |a| ==> a[i] == b[i] || (a[i] in "/-" && b[i] in "/-")
  {
    if Dashed(a) == Dashed(b) {
      assert forall i :: 0 <= i < |a| ==> Dashed(a)[i] == Dashed(b)[i];
    }
  }

  lemma SameAfterPrefix(a: string, b: string)
    ensures MARKER_PREFIX + a == MARKER_PREFIX + b <==> a == b
  {
    assert a == (MARKER_PREFIX + a)[|MARKER_PREFIX|..] && b == (MARKER_PREFIX + b)[|MARKER_PREFIX|..];
  }

  lemma SharedMarkerIff(p: string, q: string)
    ensures MarkerName(p) == MarkerName(q) <==> Alike(p, q)
  {
    SameAfterPrefix(Dashed(Stem(p)), Dashed(Stem(q)));
    DashedAlike(Stem(p), Stem(q));
  }

  // The stem of a rooted path is its elements: paths that clean alike share a marker.
  lemma StemIsElements(path: string)
    requires Rooted(path)
    ensures Stem(path) == (if Elements(path) == [] then "root" else Joined(Elements(path)))
    ensures Stem(Clean(path)) == Stem(path)
  {
    TrimmedCleanPath(path);
    CleanIsIdempotent(path);
    ElementsArePlain(path);
    if Elements(path) != [] { JoinedEnds(Elements(path)); }
  }

  // ---- one start ----

  // path is as the task binds it, cwd the working directory; statOk is whether an existing
  // marker can be seen.
  datatype Start = Start(cwd: string, path: string, mkdirOk: bool, statOk: bool, repos: Repos, gits: nat -> Git,
                         goal: string, modelSelected: bool, bootstrapOk: bool, write: Outcome)

  datatype Result =
    | NoDirectory
    | AlreadyInitialized
    | BootstrapIncomplete(cloned: seq<string>)
    | Ran(cloned: seq<string>, bootstrapRan: bool)

  function MarkerOf(s: Start): string {
    MarkerName(Absolute(s.cwd, s.path))
  }

  // The start does the maiden run's work: it gets past the marker.
  predicate Works(markers: set<string>, s: Start) {
    s.mkdirOk && !(MarkerOf(s) in markers && s.statOk)
  }

  predicate BootstrapSettled(s: Start) {
    s.goal == "" || !s.modelSelected || s.bootstrapOk
  }

  predicate Completes(markers: set<string>, s: Start) {
    Works(markers, s) && AllFetched(s.repos, s.gits) && BootstrapSettled(s)
  }

  predicate Marks(markers: set<string>, s: Start) {
    Completes(markers, s) && Landed(s.write)
  }

  function Step(markers: set<string>, s: Start): set<string> {
    if Marks(markers, s) then markers + {MarkerOf(s)} else markers
  }

  class Disk {
    var markers: set<string>

    constructor ()
      ensures markers == {}
    {
      markers := {};
    }

    method SetupWorkspace(s: Start) returns (r: Result)
      modifies this
      ensures markers == Step(old(markers), s)
      ensures r.NoDirectory? <==> !s.mkdirOk
      ensures r.AlreadyInitialized? <==> s.mkdirOk && !Works(old(markers), s)
      ensures r.BootstrapIncomplete? <==> Works(old(markers), s) && !BootstrapSettled(s)
      ensures r.BootstrapIncomplete? || r.Ran? ==> r.cloned == Cloned(s.repos, s.gits)
      ensures r.Ran? ==> (r.bootstrapRan <==> s.goal != "" && s.bootstrapOk)
      ensures old(markers) <= markers <= old(markers) + {MarkerOf(s)}
      ensures MarkerOf(s) in markers <==>
                || MarkerOf(s) in old(markers)
                || (&& s.mkdirOk && Landed(s.write) && (s.goal != "" && s.modelSelected ==> s.bootstrapOk)
                    && forall i :: 0 <= i < |s.repos| && s.repos[i].Some? && s.repos[i].value != "" ==>
                        Fetched(s.gits(i)))
    {
      if !s.mkdirOk { return NoDirectory; }
      var marker := MarkerOf(s);
      if marker in markers && s.statOk { return AlreadyInitialized; }
      var cloned, gitOK, tries := CloneRepos(s.repos, s.gits);
      var bootstrapRan := false;
      if s.goal != "" {
        bootstrapRan := s.bootstrapOk;
        if s.modelSelected && !bootstrapRan { return BootstrapIncomplete(cloned); }
      }
      r := Ran(cloned, bootstrapRan);
      if !gitOK { return; }
      if Landed(s.write) { markers := markers + {marker}; }
    }
  }

  // ---- any number of starts ----

  function After(markers: set<string>, starts: seq<Start>): set<string> {
    if starts == [] then markers else Step(After(markers, starts[..|starts| - 1]), starts[|starts| - 1])
  }

  // What start i finds.
  function Before(markers: set<string>, starts: seq<Start>, i: nat): set<string>
    requires i <= |starts|
  {
    After(markers, starts[..i])
  }

  // Start i leaves the marker m.
  predicate LeftBy(markers: set<string>, starts: seq<Start>, m: string, i: nat) {
    i < |starts| && MarkerOf(starts[i]) == m && Marks(Before(markers, starts, i), starts[i])
  }

  lemma LeftEarlier(markers: set<string>, starts: seq<Start>, m: string, i: nat)
    requires i < |starts| - 1
    ensures LeftBy(markers, starts, m, i) <==> LeftBy(markers, starts[..|starts| - 1], m, i)
  {
    assert starts[..|starts| - 1][..i] == starts[..i];
  }

  lemma StepAdds(markers: set<string>, s: Start, m: string)
    ensures m in Step(markers, s) <==> m in markers || (MarkerOf(s) == m && Marks(markers, s))
  {
  }

  lemma LastLeaves(markers: set<string>, starts: seq<Start>, m: string, n: nat)
    requires |starts| == n + 1
    ensures m in After(markers, starts) <==> m in After(markers, starts[..n]) || LeftBy(markers, starts, m, n)
  {
    StepAdds(After(markers, starts[..n]), starts[n], m);
  }

  // A marker is there exactly when it was at first or a complete run left it.
  lemma {:induction false} MarkersComeFromCompleteRuns(markers: set<string>, starts: seq<Start>, m: string)
    ensures m in After(markers, starts) <==> m in markers || exists i: nat :: LeftBy(markers, starts, m, i)
  {
    if starts == [] { return; }
    var n := |starts| - 1;
    LastLeaves(markers, starts, m, n);
    MarkersComeFromCompleteRuns(markers, starts[..n], m);
    forall i: nat | i < n
      ensures LeftBy(markers, starts, m, i) <==> LeftBy(markers, starts[..n], m, i)
    {
      LeftEarlier(markers, starts, m, i);
    }
    if i: nat :| LeftBy(markers, starts, m, i) { assert i == n || LeftBy(markers, starts[..n], m, i); }
  }

  lemma {:induction false} MarkersStay(markers: set<string>, starts: seq<Start>, i: nat)
    requires i <= |starts|
    ensures Before(markers, starts, i) <= After(markers, starts)
    decreases |starts|
  {
    var n := |starts|;
    if i == n {
      assert starts[..n] == starts;
    } else {
      assert starts[..n - 1][..i] == starts[..i];
      MarkersStay(markers, starts[..n - 1], i);
    }
  }

  // Once a start has left its marker, a later one for the same path works again exactly
  // when it has its directory but cannot see the marker.
  lemma WorksAgainIff(markers: set<string>, starts: seq<Start>, i: nat, j: nat)
    requires i < j < |starts| && Marks(Before(markers, starts, i), starts[i])
    requires MarkerOf(starts[j]) == MarkerOf(starts[i])
    ensures Works(Before(markers, starts, j), starts[j]) <==> starts[j].mkdirOk && !starts[j].statOk
  {
    assert starts[..j][..i + 1] == starts[..i + 1] && starts[..i + 1][..i] == starts[..i];
    MarkersStay(markers, starts[..j], i + 1);
  }

  // A workspace whose marker can always be seen is completed at most once.
  lemma CompletedAtMostOnce(markers: set<string>, starts: seq<Start>, i: nat, j: nat)
    requires i < |starts| && j < |starts| && (forall k :: 0 <= k < |starts| ==> starts[k].statOk)
    requires MarkerOf(starts[i]) == MarkerOf(starts[j])
    requires Marks(Before(markers, starts, i), starts[i]) && Marks(Before(markers, starts, j), starts[j])
    ensures i == j
  {
    if i < j { WorksAgainIff(markers, starts, i, j); }
    if j < i { WorksAgainIff(markers, starts, j, i); }
  }

  // ---- the workspaces of one task ----

  lemma BoundPathIsRooted(r: Ref)
    requires WellFormed(r)
    ensures Rooted(MountPath(r))
  {
  }

  lemma MarkerOfRooted(s: Start)
    requires Rooted(s.path)
    ensures MarkerOf(s) == MarkerName(s.path)
  {
    StemIsElements(s.path);
    CleanIsIdempotent(s.path);
  }

  // The starts are made for these bindings, in order, with their paths as bound.
  predicate StartsFor(refs: seq<Ref>, starts: seq<Start>) {
    |starts| == |refs| && forall k :: 0 <= k < |refs| ==> starts[k].path == MountPath(refs[k])
  }

  // The i-th workspace of a sound task, not set up before, is kept out exactly when an
  // earlier one whose path is alike left its marker.
  lemma KeptOutIff(markers: set<string>, refs: seq<Ref>, starts: seq<Start>, i: nat)
    requires Sound(refs) && StartsFor(refs, starts) && i < |refs|
    requires starts[i].mkdirOk && starts[i].statOk && MarkerOf(starts[i]) !in markers
    ensures !Works(Before(markers, starts, i), starts[i])
            <==> exists j: nat :: && j < i && Marks(Before(markers, starts, j), starts[j])
                                  && Alike(MountPath(refs[j]), MountPath(refs[i]))
  {
    var m := MarkerOf(starts[i]);
    MarkersComeFromCompleteRuns(markers, starts[..i], m);
    forall j: nat | j < i
      ensures LeftBy(markers, starts[..i], m, j)
              <==> Marks(Before(markers, starts, j), starts[j]) && Alike(MountPath(refs[j]), MountPath(refs[i]))
    {
      BoundPathIsRooted(refs[j]);
      BoundPathIsRooted(refs[i]);
      MarkerOfRooted(starts[j]);
      MarkerOfRooted(starts[i]);
      SharedMarkerIff(MountPath(refs[j]), MountPath(refs[i]));
      assert starts[..i][..j] == starts[..j];
    }
  }

  lemma TwoAreSound(p: string, q: string)
    requires Rooted(p) && Rooted(q) && TrimRight(p) == p && TrimRight(q) == q && p != q
    ensures Sound([Ref("x", p), Ref("y", q)])
  {
    assert Place(Ref("x", p)) == p && Place(Ref("y", q)) == q;
  }

  // Such tasks exist: a dash for a slash, or a "." element.
  lemma SoundTaskCanBindADash()
    ensures Sound([Ref("x", "/a/b"), Ref("y", "/a-b")]) && Alike("/a/b", "/a-b")
  {
    var p, q := "/a/b", "/a-b";
    assert p[3] == 'b' && q[3] == 'b' && p[2] != q[2];
    TwoAreSound(p, q);
    assert Joined(["b"]) == "b" && ["a", "b"][1..] == ["b"];
    PlainPath(["a", "b"], p, "a/b");
    PlainPath(["a-b"], q, "a-b");
  }

  lemma SoundTaskCanBindADot()
    ensures Sound([Ref("x", "/a/b"), Ref("y", "/a/./b")]) && Alike("/a/b", "/a/./b")
  {
    var p, q := "/a/b", "/a/./b";
    assert p[3] == 'b' && q[5] == 'b' && |p| != |q|;
    TwoAreSound(p, q);
    DotPathIsAlike("/a", "b", p, q);
  }

  lemma DotPathIsAlike(a: string, b: string, p: string, q: string)
    requires Rooted(a) && p == a + "/" + b && q == a + "/" + "." + "/" + b
    ensures Alike(p, q)
  {
    DotElementDropsOut(a, b);
    StemIsElements(p);
    StemIsElements(q);
  }

  lemma PlainPath(es: seq<string>, path: string, stem: string)
    requires es != [] && AllPlain(es) && stem == Joined(es) && path == "/" + stem
    ensures Stem(path) == stem
  {
    RootedPath(es);
    StemIsElements(path);
  }
}
