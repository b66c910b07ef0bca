// Redis sorted sets: a map from member to score, read back in descending order of
// (score, member). Members compare bytewise.
module SortedSet {
  type ZSet = map<string, int>

  predicate LexLess(a: string, b: string) {
    if b == "" then false
    else if a == "" then true
    else a[0] < b[0] || (a[0] == b[0] && LexLess(a[1..], b[1..]))
  }

  // m comes before n in a newest-first listing of z.
  predicate Before(z: ZSet, m: string, n: string)
    requires m in z && n in z
  {
    z[m] > z[n] || (z[m] == z[n] && LexLess(n, m))
  }

  lemma {:induction false} LexTotal(a: string, b: string)
    ensures LexLess(a, b) || LexLess(b, a) || a == b
    ensures !(LexLess(a, b) && LexLess(b, a))
    ensures !LexLess(a, a)
  {
    if a != "" {
      LexTotal(a[1..], if b == "" then "" else b[1..]);
      if b != "" && a[0] == b[0] {
        assert a == [a[0]] + a[1..] && b == [b[0]] + b[1..];
      }
    }
  }

  lemma {:induction false} LexTransitive(a: string, b: string, c: string)
    requires LexLess(a, b) && LexLess(b, c)
    ensures LexLess(a, c)
  {
    if a != "" && a[0] == b[0] && b[0] == c[0] {
      LexTransitive(a[1..], b[1..], c[1..]);
    }
  }

  // A common prefix does not change the order: this is what lets a per-atespace
  // index and the global index break score ties alike.
  lemma {:induction false} LexPrefix(p: string, a: string, b: string)
    ensures LexLess(p + a, p + b) == LexLess(a, b)
  {
    if p == "" {
      assert p + a == a && p + b == b;
    } else {
      assert (p + a)[1..] == p[1..] + a && (p + b)[1..] == p[1..] + b;
      LexPrefix(p[1..], a, b);
    }
  }

  predicate First(z: ZSet, m: string) {
    m in z && forall k :: k in z && k != m ==> Before(z, m, k)
  }

  lemma {:induction false} FirstExists(z: ZSet)
    requires z != map[]
    ensures exists m :: First(z, m)
    decreases |z|
  {
    var pick :| pick in z;
    var rest := z - {pick};
    if rest == map[] {
      assert z.Keys == {pick} by {
        assert forall k :: k in z && k != pick ==> k in rest;
      }
      assert First(z, pick);
    } else {
      assert rest.Keys == z.Keys - {pick};
      FirstExists(rest);
      var best :| First(rest, best);
      LexTotal(pick, best);
      var m := if Before(z, pick, best) then pick else best;
      forall k | k in z && k != m
        ensures Before(z, m, k)
      {
        if k != pick {
          assert k == best || (k in rest && Before(rest, best, k));
          if m == pick && k != best && z[pick] == z[best] == z[k] { LexTransitive(k, best, pick); }
        }
      }
      assert First(z, m);
    }
  }

  lemma FirstIsUnique(z: ZSet)
    ensures forall m, n :: First(z, m) && First(z, n) ==> m == n
  {
    forall m, n | First(z, m) && First(z, n)
      ensures m == n
    {
      LexTotal(m, n);
    }
  }

  // Strictly descending and complete: what ZREVRANGE 0 -1 returns.
  ghost predicate IsNewestFirst(z: ZSet, s: seq<string>) {
    && (forall i :: 0 <= i < |s| ==> s[i] in z)
    && (forall m :: m in z ==> m in s)
    && (forall i, j :: 0 <= i < j < |s| ==> Before(z, s[i], s[j]))
  }

  lemma PrependFirst(z: ZSet, m: string, tail: seq<string>)
    requires First(z, m) && IsNewestFirst(z - {m}, tail)
    ensures IsNewestFirst(z, [m] + tail)
  {
    var s := [m] + tail;
    forall k | k in z
      ensures k in s
    {
      assert k == m || k in z - {m};
    }
    forall i, j | 0 <= i < j < |s|
      ensures Before(z, s[i], s[j])
    {
      assert i > 0 ==> Before(z - {m}, tail[i - 1], tail[j - 1]);
    }
  }

  function NewestFirst(z: ZSet): seq<string>
    decreases |z|
  {
    if z == map[] then []
    else
      FirstExists(z);
      FirstIsUnique(z);
      var m :| m in z && First(z, m);
      assert (z - {m}).Keys == z.Keys - {m};
      [m] + NewestFirst(z - {m})
  }

  lemma {:induction false} NewestFirstIsListing(z: ZSet)
    ensures IsNewestFirst(z, NewestFirst(z)) && |NewestFirst(z)| == |z|
    decreases |z|
  {
    if z != map[] {
      FirstExists(z);
      FirstIsUnique(z);
      var m :| m in z && First(z, m);
      assert (z - {m}).Keys == z.Keys - {m};
      NewestFirstIsListing(z - {m});
      PrependFirst(z, m, NewestFirst(z - {m}));
    }
  }

  lemma SameHead(z: ZSet, s: seq<string>, t: seq<string>)
    requires IsNewestFirst(z, s) && IsNewestFirst(z, t) && s != []
    ensures t != [] && s[0] == t[0]
  {
    assert s[0] in z && s[0] in t;
    assert t[0] in z && t[0] in s;
    LexTotal(s[0], t[0]);
  }

  // Only one sequence is strictly descending and complete, so the listing is determined.
  lemma {:induction false} NewestFirstIsUnique(z: ZSet, s: seq<string>, t: seq<string>)
    requires IsNewestFirst(z, s) && IsNewestFirst(z, t)
    ensures s == t
    decreases |s|
  {
    if s == [] {
      assert forall i :: 0 <= i < |t| ==> t[i] in s;
    } else {
      SameHead(z, s, t);
      DropFirst(z, s);
      DropFirst(z, t);
      NewestFirstIsUnique(z - {s[0]}, s[1..], t[1..]);
    }
  }

  lemma DropFirst(z: ZSet, s: seq<string>)
    requires IsNewestFirst(z, s) && s != []
    ensures IsNewestFirst(z - {s[0]}, s[1..])
  {
    var rest, tail := z - {s[0]}, s[1..];
    forall i | 0 <= i < |tail|
      ensures tail[i] in rest
    {
      assert Before(z, s[0], s[i + 1]);
      LexTotal(s[0], s[0]);
    }
    forall m | m in rest
      ensures m in tail
    {
      var i :| 0 <= i < |s| && s[i] == m;
      assert tail[i - 1] == m;
    }
    forall i, j | 0 <= i < j < |tail|
      ensures Before(rest, tail[i], tail[j])
    {
      assert Before(z, s[i + 1], s[j + 1]);
    }
  }

  // ZREVRANGE with Redis's inclusive, possibly negative bounds.
  function Range<T>(s: seq<T>, start: int, stop: int): seq<T> {
    var n := |s|;
    var lo := if start < 0 then (if start + n < 0 then 0 else start + n) else start;
    var up := if stop < 0 then stop + n else stop;
    if up < lo || lo >= n then []
    else s[lo..(if up >= n then n else up + 1)]
  }
}
