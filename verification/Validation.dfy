// The workspaces a task binds, where each is mounted, and the check made before a task
// is saved.
module Validation {
  import opened Api
  import opened Paths

  const DEFAULT_PATH := "/workspace"

  datatype Ref = Ref(name: string, path: string)

  datatype Problem =
    | Nameless(at: nat)
    | BoundTwice(at: nat, name: string)
    | NotAbsolute(at: nat, path: string)
    | PathTaken(at: nat, path: string, owner: string)

  // ---- bindings and their paths ----

  function Present(bound: seq<Option<Ref>>): seq<Ref> {
    if bound == [] then []
    else Present(bound[..|bound| - 1]) + if bound[|bound| - 1].Some? then [bound[|bound| - 1].value] else []
  }

  method WorkspaceRefs(bound: seq<Option<Ref>>) returns (refs: seq<Ref>)
    ensures refs == Present(bound)
  {
    refs := [];
    for i := 0 to |bound|
      invariant refs == Present(bound[..i])
    {
      assert bound[..i + 1][..i] == bound[..i];
      if bound[i].Some? { refs := refs + [bound[i].value]; }
    }
    assert bound[..|bound|] == bound;
  }

  // Every binding is kept, in order, and nothing else.
  lemma {:induction false} PresentIsInOrder(bound: seq<Option<Ref>>, refs: seq<Ref>)
    requires bound == seq(|refs|, i requires 0 <= i < |refs| => Some(refs[i]))
    ensures Present(bound) == refs
  {
    if refs != [] {
      var n := |refs| - 1;
      assert bound[..n] == seq(n, i requires 0 <= i < n => Some(refs[..n][i]));
      PresentIsInOrder(bound[..n], refs[..n]);
      assert refs == refs[..n] + [refs[n]];
    }
  }

  lemma {:induction false} NilBindingsDropOut(a: seq<Option<Ref>>, b: seq<Option<Ref>>)
    ensures Present(a + [None] + b) == Present(a + b)
    decreases |b|
  {
    if b == [] {
      assert (a + [None] + b)[..|a|] == a && a + b == a;
    } else {
      var n := |b| - 1;
      NilBindingsDropOut(a, b[..n]);
      assert (a + [None] + b)[..|a| + 1 + n] == a + [None] + b[..n];
      assert (a + b)[..|a| + n] == a + b[..n];
    }
  }

  function MountPath(r: Ref): string {
    if r.path != "" then r.path else DEFAULT_PATH + "/" + r.name
  }

  method WorkspacePaths(refs: seq<Ref>) returns (paths: seq<string>)
    ensures |paths| == |refs| && forall i :: 0 <= i < |refs| ==> paths[i] == MountPath(refs[i])
    ensures forall i :: 0 <= i < |refs| ==>
              paths[i] == if refs[i].path != "" then refs[i].path else "/workspace" + "/" + refs[i].name
  {
    paths := [];
    for i := 0 to |refs|
      invariant |paths| == i && forall j :: 0 <= j < i ==> paths[j] == MountPath(refs[j])
    {
      paths := paths + [if refs[i].path != "" then refs[i].path else DEFAULT_PATH + "/" + refs[i].name];
    }
  }

  // Paths that differ in trailing slashes are one place.
  function Place(r: Ref): string {
    var p := TrimRight(MountPath(r));
    if p == "" then "/" else p
  }

  // ---- when a task is sound ----

  predicate WellFormed(r: Ref) {
    r.name != "" && (r.path == "" || r.path[0] == '/')
  }

  predicate Apart(r: Ref, other: Ref) {
    r.name != other.name && Place(r) != Place(other)
  }

  predicate Sound(refs: seq<Ref>) {
    && (forall i :: 0 <= i < |refs| ==> WellFormed(refs[i]))
    && (forall i, j :: 0 <= i < j < |refs| ==> Apart(refs[i], refs[j]))
  }

  predicate NameUsed(refs: seq<Ref>, i: nat)
    requires i < |refs|
  {
    exists j :: 0 <= j < i && refs[j].name == refs[i].name
  }

  // What is wrong with binding i, in the order of the checks.
  predicate Explains(p: Problem, refs: seq<Ref>) {
    && p.at < |refs|
    && var r := refs[p.at];
    match p
    case Nameless(_) => r.name == ""
    case BoundTwice(i, name) => r.name != "" && name == r.name && NameUsed(refs, i)
    case NotAbsolute(i, path) => r.name != "" && !NameUsed(refs, i) && path == r.path && path != "" && path[0] != '/'
    case PathTaken(i, path, owner) =>
      && WellFormed(r) && !NameUsed(refs, i) && path == MountPath(r)
      && PlaceUsed(refs, i, owner)
  }

  // The first offending binding, and why.
  predicate Reports(p: Problem, refs: seq<Ref>) {
    Explains(p, refs) && Sound(refs[..p.at]) && !Sound(refs[..p.at + 1])
  }

  lemma SoundSnoc(refs: seq<Ref>, i: nat)
    requires i < |refs| && Sound(refs[..i])
    ensures Sound(refs[..i + 1]) <==> WellFormed(refs[i]) && forall j :: 0 <= j < i ==> Apart(refs[j], refs[i])
  {
    var more := refs[..i + 1];
    assert forall j :: 0 <= j < i ==> more[j] == refs[..i][j];
    if Sound(more) {
      forall j | 0 <= j < i
        ensures Apart(refs[j], refs[i])
      {
        assert Apart(more[j], more[i]);
      }
      assert WellFormed(more[i]);
    }
  }

  // The names bound so far, and who is mounted where.
  ghost predicate Remembers(names: set<string>, seen: map<string, string>, refs: seq<Ref>) {
    && (forall n :: n in names <==> exists j :: 0 <= j < |refs| && refs[j].name == n)
    && (forall j :: 0 <= j < |refs| ==> Place(refs[j]) in seen)
    && (forall p :: p in seen ==> exists j :: 0 <= j < |refs| && Place(refs[j]) == p && refs[j].name == seen[p])
  }

  lemma RemembersSnoc(names: set<string>, seen: map<string, string>, refs: seq<Ref>, i: nat)
    requires i < |refs| && Remembers(names, seen, refs[..i]) && Place(refs[i]) !in seen
    ensures Remembers(names + {refs[i].name}, seen[Place(refs[i]) := refs[i].name], refs[..i + 1])
  {
    var more := refs[..i + 1];
    assert more[i] == refs[i];
    assert forall j :: 0 <= j < i ==> more[j] == refs[..i][j];
  }

  predicate PlaceUsed(refs: seq<Ref>, i: nat, owner: string)
    requires i < |refs|
  {
    exists j :: 0 <= j < i && refs[j].name == owner && Place(refs[j]) == Place(refs[i])
  }

  lemma WhatIsRemembered(names: set<string>, seen: map<string, string>, refs: seq<Ref>, i: nat)
    requires i < |refs| && Remembers(names, seen, refs[..i])
    ensures refs[i].name in names <==> NameUsed(refs, i)
    ensures Place(refs[i]) in seen ==> PlaceUsed(refs, i, seen[Place(refs[i])])
    ensures Place(refs[i]) !in seen ==> forall j :: 0 <= j < i ==> Place(refs[j]) != Place(refs[i])
  {
    assert forall j :: 0 <= j < i ==> refs[j] == refs[..i][j];
  }

  // Binding i is the first to offend, if what came before is sound and it does not fit.
  lemma FirstToOffend(refs: seq<Ref>, i: nat, owner: string)
    requires i < |refs| && Sound(refs[..i])
    requires !WellFormed(refs[i]) || NameUsed(refs, i) || PlaceUsed(refs, i, owner)
    ensures !Sound(refs[..i + 1])
  {
    SoundSnoc(refs, i);
  }

  method CheckBinding(refs: seq<Ref>, path: string, i: nat, names: set<string>, seen: map<string, string>)
    returns (p: Option<Problem>)
    requires i < |refs| && Sound(refs[..i]) && Remembers(names, seen, refs[..i]) && path == MountPath(refs[i])
    ensures p.Some? ==> p.value.at == i && Reports(p.value, refs)
    ensures p.None? ==> Sound(refs[..i + 1]) && Place(refs[i]) !in seen
  {
    var r := refs[i];
    WhatIsRemembered(names, seen, refs, i);
    var place := TrimRight(path);
    if place == "" { place := "/"; }
    p := if r.name == "" then Some(Nameless(i))
      else if r.name in names then Some(BoundTwice(i, r.name))
      else if r.path != "" && r.path[0] != '/' then Some(NotAbsolute(i, r.path))
      else if place in seen then Some(PathTaken(i, path, seen[place]))
      else None;
    if p.Some? {
      FirstToOffend(refs, i, if place in seen then seen[place] else "");
    } else {
      SoundSnoc(refs, i);
    }
  }

  method ValidateTask(spec: Option<seq<Option<Ref>>>) returns (problem: Option<Problem>)
    ensures problem.None? <==> spec.None? || Sound(Present(spec.value))
    ensures problem.Some? ==> spec.Some? && Reports(problem.value, Present(spec.value))
  {
    if spec.None? { return None; }
    var refs := WorkspaceRefs(spec.value);
    problem := ValidateRefs(refs);
  }

  method ValidateRefs(refs: seq<Ref>) returns (problem: Option<Problem>)
    ensures problem.None? <==> Sound(refs)
    ensures problem.Some? ==> Reports(problem.value, refs)
  {
    var paths := WorkspacePaths(refs);
    var names: set<string>, seen: map<string, string> := {}, map[];
    for i := 0 to |refs|
      invariant Sound(refs[..i]) && Remembers(names, seen, refs[..i])
    {
      problem := CheckBinding(refs, paths[i], i, names, seen);
      if problem.Some? {
        ReportedIsUnsound(refs, problem.value);
        return;
      }
      RemembersSnoc(names, seen, refs, i);
      names := names + {refs[i].name};
      seen := seen[Place(refs[i]) := refs[i].name];
    }
    assert refs[..|refs|] == refs;
    problem := None;
  }

  lemma PrefixIsSound(refs: seq<Ref>, i: nat)
    requires i <= |refs|
    ensures Sound(refs) ==> Sound(refs[..i])
  {
  }

  lemma ReportedIsUnsound(refs: seq<Ref>, p: Problem)
    requires Reports(p, refs)
    ensures !Sound(refs)
  {
    PrefixIsSound(refs, p.at + 1);
  }

  lemma ReportedComesFirst(refs: seq<Ref>, p: Problem, i: nat)
    requires Reports(p, refs) && i <= |refs|
    ensures Sound(refs[..i]) <==> i <= p.at
  {
    if i <= p.at {
      PrefixIsSound(refs[..p.at], i);
      assert refs[..p.at][..i] == refs[..i];
    } else {
      PrefixIsSound(refs[..i], p.at + 1);
      assert refs[..i][..p.at + 1] == refs[..p.at + 1];
    }
  }

  // There is one right index: any two reports are about the same binding.
  lemma ReportedIndexIsUnique(refs: seq<Ref>, p: Problem, q: Problem)
    requires Reports(p, refs) && Reports(q, refs)
    ensures p.at == q.at
  {
    ReportedComesFirst(refs, p, q.at);
    ReportedComesFirst(refs, q, p.at);
  }

  function Slashes(n: nat): string {
    seq(n, i => '/')
  }

  lemma {:induction false} SlashesDoNotSeparate(path: string, n: nat)
    ensures TrimRight(path + Slashes(n)) == TrimRight(path)
  {
    if n == 0 {
      assert path + Slashes(0) == path;
    } else {
      var s := path + Slashes(n);
      assert s[..|s| - 1] == path + Slashes(n - 1);
      SlashesDoNotSeparate(path, n - 1);
    }
  }

  lemma {:induction false} OnlySlashesAreTrimmed(s: string) returns (n: nat)
    ensures s == TrimRight(s) + Slashes(n)
  {
    if s != "" && s[|s| - 1] == '/' {
      var shorter := s[..|s| - 1];
      var m := OnlySlashesAreTrimmed(shorter);
      n := m + 1;
      assert Slashes(n) == Slashes(m) + "/";
      assert s == shorter + "/";
    } else {
      n := 0;
    }
  }

  // Two paths trim alike exactly when slashes added at the end make them equal.
  lemma TrimmedAlikeIff(a: string, b: string)
    ensures TrimRight(a) == TrimRight(b) <==> exists n: nat, m: nat :: a + Slashes(n) == b + Slashes(m)
  {
    if TrimRight(a) == TrimRight(b) {
      var p := OnlySlashesAreTrimmed(a);
      var q := OnlySlashesAreTrimmed(b);
      assert Slashes(p) + Slashes(q) == Slashes(q) + Slashes(p);
      assert a + Slashes(q) == TrimRight(a) + (Slashes(p) + Slashes(q));
      assert b + Slashes(p) == TrimRight(b) + (Slashes(q) + Slashes(p));
    }
    if n: nat, m: nat :| a + Slashes(n) == b + Slashes(m) {
      SlashesDoNotSeparate(a, n);
      SlashesDoNotSeparate(b, m);
    }
  }
}
