// Slash-separated paths: trimming, and cleaning a path of empty, "." and ".." elements as
// Go's path/filepath does on Unix.
module Paths {
  import opened Basics

  function TrimRight(s: string): string {
    if s != "" && s[|s| - 1] == '/' then TrimRight(s[..|s| - 1]) else s
  }

  function TrimLeft(s: string): string {
    if s != "" && s[0] == '/' then TrimLeft(s[1..]) else s
  }

  predicate Rooted(path: string) {
    path != "" && path[0] == '/'
  }

  // What the slashes separate.
  function Parts(s: string): (parts: seq<string>)
    ensures |parts| > 0
  {
    if s == "" then [""]
    else
      var rest := Parts(s[1..]);
      if s[0] == '/' then [""] + rest else [[s[0]] + rest[0]] + rest[1..]
  }

  function Joined(parts: seq<string>): string {
    if parts == [] then "" else if |parts| == 1 then parts[0] else parts[0] + "/" + Joined(parts[1..])
  }

  // One more element: ".." takes back the one before it, and nothing at a root.
  function Taken(rooted: bool, done: seq<string>, e: string): seq<string> {
    if e == "" || e == "." then done
    else if e == ".." && done != [] && done[|done| - 1] != ".." then done[..|done| - 1]
    else if e == ".." && rooted then done
    else done + [e]
  }

  function Resolved(rooted: bool, parts: seq<string>): seq<string> {
    if parts == [] then [] else Taken(rooted, Resolved(rooted, parts[..|parts| - 1]), parts[|parts| - 1])
  }

  function Elements(path: string): seq<string> {
    Resolved(Rooted(path), Parts(path))
  }

  function Clean(path: string): string {
    if Rooted(path) then "/" + Joined(Elements(path))
    else if Elements(path) == [] then "." else Joined(Elements(path))
  }

  // ---- elements of a rooted path ----

  predicate NoSlash(s: string) {
    forall i :: 0 <= i < |s| ==> s[i] != '/'
  }

  predicate NoSlashes(parts: seq<string>) {
    forall i :: 0 <= i < |parts| ==> NoSlash(parts[i])
  }

  predicate Plain(e: string) {
    e != "" && e != "." && e != ".." && NoSlash(e)
  }

  predicate AllPlain(es: seq<string>) {
    forall i :: 0 <= i < |es| ==> Plain(es[i])
  }

  lemma {:induction false} PartsHaveNoSlash(s: string)
    ensures NoSlashes(Parts(s))
  {
    if s != "" {
      PartsHaveNoSlash(s[1..]);
      var rest := Parts(s[1..]);
      assert s[0] != '/' ==> NoSlash([s[0]] + rest[0]);
    }
  }

  lemma {:induction false} ResolvedIsPlain(parts: seq<string>)
    requires NoSlashes(parts)
    ensures AllPlain(Resolved(true, parts))
  {
    if parts != [] { ResolvedIsPlain(parts[..|parts| - 1]); }
  }

  lemma ElementsArePlain(path: string)
    requires Rooted(path)
    ensures AllPlain(Elements(path))
  {
    PartsHaveNoSlash(path);
    ResolvedIsPlain(Parts(path));
  }

  lemma {:induction false} PlainResolves(es: seq<string>)
    requires AllPlain(es)
    ensures Resolved(true, [""] + es) == es
  {
    if es == [] {
      assert [""] + es == [""] && Resolved(true, [""][..0]) == [];
    } else {
      var n := |es| - 1;
      PlainResolves(es[..n]);
      assert ([""] + es)[..n + 1] == [""] + es[..n] && Plain(es[n]);
    }
  }

  function Consed(c: char, parts: seq<string>): seq<string>
    requires |parts| > 0
  {
    if c == '/' then [""] + parts else [[c] + parts[0]] + parts[1..]
  }

  lemma PartsOfCons(c: char, s: string)
    ensures Parts([c] + s) == Consed(c, Parts(s))
  {
    assert ([c] + s)[1..] == s;
  }

  lemma ConsedJoin(c: char, a: seq<string>, b: seq<string>)
    requires |a| > 0
    ensures Consed(c, a + b) == Consed(c, a) + b
  {
    assert (a + b)[1..] == a[1..] + b;
  }

  lemma {:induction false} PartsOfJoin(a: string, b: string)
    ensures Parts(a + "/" + b) == Parts(a) + Parts(b)
  {
    if a == "" {
      assert a + "/" + b == ['/'] + b;
      PartsOfCons('/', b);
    } else {
      var tail := a[1..];
      PartsOfJoin(tail, b);
      PartsOfCons(a[0], tail);
      PartsOfCons(a[0], tail + "/" + b);
      assert a == [a[0]] + tail && a + "/" + b == [a[0]] + (tail + "/" + b);
      ConsedJoin(a[0], Parts(tail), Parts(b));
    }
  }

  lemma {:induction false} PartsOfElement(e: string)
    requires NoSlash(e)
    ensures Parts(e) == [e]
  {
    if e != "" {
      PartsOfElement(e[1..]);
      assert [e[0]] + e[1..] == e;
    }
  }

  lemma {:induction false} PartsOfJoined(es: seq<string>)
    requires es != [] && AllPlain(es)
    ensures Parts(Joined(es)) == es
  {
    PartsOfElement(es[0]);
    if |es| > 1 {
      PartsOfJoin(es[0], Joined(es[1..]));
      PartsOfJoined(es[1..]);
      assert [es[0]] + es[1..] == es;
    }
  }

  lemma RootedPath(es: seq<string>)
    requires AllPlain(es)
    ensures Elements("/" + Joined(es)) == es
  {
    PartsOfJoin("", Joined(es));
    assert "" + "/" + Joined(es) == "/" + Joined(es);
    PlainResolves(es);
    if es == [] {
      assert Parts(Joined(es)) == [""] && [""] + [""] == ["", ""] && ["", ""][..1] == [""];
    } else {
      PartsOfJoined(es);
    }
  }

  // Cleaning twice is cleaning once, and keeps the elements.
  lemma CleanIsIdempotent(path: string)
    requires Rooted(path)
    ensures Rooted(Clean(path)) && Elements(Clean(path)) == Elements(path) && Clean(Clean(path)) == Clean(path)
  {
    ElementsArePlain(path);
    RootedPath(Elements(path));
  }

  lemma {:induction false} JoinedEnds(es: seq<string>)
    requires es != [] && AllPlain(es)
    ensures var s := Joined(es); s != "" && s[0] != '/' && s[|s| - 1] != '/'
  {
    assert Plain(es[0]);
    if |es| > 1 { JoinedEnds(es[1..]); }
  }

  // Trimming a cleaned path of its slashes leaves the joined elements.
  lemma TrimmedCleanPath(path: string)
    requires Rooted(path)
    ensures TrimRight(TrimLeft(Clean(path))) == Joined(Elements(path))
  {
    var es := Elements(path);
    ElementsArePlain(path);
    assert Clean(path)[1..] == Joined(es);
    if es != [] { JoinedEnds(es); }
  }

  lemma ResolvedSnoc(rooted: bool, parts: seq<string>, e: string)
    ensures Resolved(rooted, parts + [e]) == Taken(rooted, Resolved(rooted, parts), e)
  {
    assert (parts + [e])[..|parts|] == parts;
  }

  lemma {:induction false} PartsDropOut(rooted: bool, a: seq<string>, gone: seq<string>, b: seq<string>)
    requires Resolved(rooted, a + gone) == Resolved(rooted, a)
    ensures Resolved(rooted, a + gone + b) == Resolved(rooted, a + b)
    decreases |b|
  {
    if b == [] {
      assert a + gone + b == a + gone && a + b == a;
    } else {
      var front, e := b[..|b| - 1], b[|b| - 1];
      PartsDropOut(rooted, a, gone, front);
      SplitLast(b, |b| - 1);
      Regroup(a + gone, front, [e]);
      Regroup(a, front, [e]);
      ResolvedSnoc(rooted, a + gone + front, e);
      ResolvedSnoc(rooted, a + front, e);
    }
  }

  lemma DotDropsOut(rooted: bool, a: seq<string>, b: seq<string>)
    ensures Resolved(rooted, a + ["."] + b) == Resolved(rooted, a + b)
  {
    ResolvedSnoc(rooted, a, ".");
    PartsDropOut(rooted, a, ["."], b);
  }

  lemma PartsWithDot(a: string, b: string)
    ensures Parts(a + "/" + "." + "/" + b) == Parts(a) + ["."] + Parts(b)
  {
    PartsOfJoin(a, ".");
    PartsOfElement(".");
    PartsOfJoin(a + "/" + ".", b);
  }

  // A "." element anywhere makes no difference.
  lemma DotElementDropsOut(a: string, b: string)
    requires Rooted(a)
    ensures Clean(a + "/" + "." + "/" + b) == Clean(a + "/" + b)
  {
    PartsWithDot(a, b);
    PartsOfJoin(a, b);
    DotDropsOut(true, Parts(a), Parts(b));
  }

  // ---- the other elements that cleaning removes ----

  lemma PartsWithParent(a: string, e: string, b: string)
    requires NoSlash(e)
    ensures Parts(a + "/" + e + "/" + ".." + "/" + b) == Parts(a) + [e, ".."] + Parts(b)
  {
    PartsOfElement(e);
    PartsOfElement("..");
    PartsOfJoin(a, e);
    PartsOfJoin(a + "/" + e, "..");
    PartsOfJoin(a + "/" + e + "/" + "..", b);
    assert Parts(a) + [e] + [".."] == Parts(a) + [e, ".."];
  }

  lemma TakenBack(p: seq<string>, e: string)
    requires Plain(e)
    ensures Resolved(true, p + [e, ".."]) == Resolved(true, p)
  {
    ResolvedSnoc(true, p, e);
    ResolvedSnoc(true, p + [e], "..");
    assert p + [e] + [".."] == p + [e, ".."];
    var done := Resolved(true, p);
    assert (done + [e])[..|done|] == done;
  }

  // ".." takes back the element before it.
  lemma ParentTakesBack(a: string, e: string, b: string)
    requires Rooted(a) && Plain(e)
    ensures Clean(a + "/" + e + "/" + ".." + "/" + b) == Clean(a + "/" + b)
  {
    PartsWithParent(a, e, b);
    PartsOfJoin(a, b);
    TakenBack(Parts(a), e);
    PartsDropOut(true, Parts(a), [e, ".."], Parts(b));
  }

  // At the root it is dropped.
  lemma RootHasNoParent(b: string)
    ensures Clean("/" + ".." + "/" + b) == Clean("/" + b)
  {
    PartsOfElement("");
    PartsOfElement("..");
    PartsOfJoin("", "..");
    PartsOfJoin("/" + "..", b);
    PartsOfJoin("", b);
    assert "" + "/" + ".." == "/" + ".." && "" + "/" + b == "/" + b;
    ResolvedSnoc(true, [], "");
    ResolvedSnoc(true, [""], "..");
    assert [] + [""] == [""];
    PartsDropOut(true, [""], [".."], Parts(b));
  }

  // Slashes in a row are one.
  lemma EmptyElementDropsOut(a: string, b: string)
    requires Rooted(a)
    ensures Clean(a + "/" + "" + "/" + b) == Clean(a + "/" + b)
  {
    PartsOfElement("");
    PartsOfJoin(a, "");
    PartsOfJoin(a + "/" + "", b);
    PartsOfJoin(a, b);
    ResolvedSnoc(true, Parts(a), "");
    PartsDropOut(true, Parts(a), [""], Parts(b));
  }

  // A path of plain elements is clean already: with the laws above this determines Clean.
  lemma PlainPathIsClean(es: seq<string>)
    requires AllPlain(es)
    ensures Clean("/" + Joined(es)) == "/" + Joined(es)
  {
    RootedPath(es);
  }
}
