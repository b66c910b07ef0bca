// Per-task actor templates: how one is named, which names belong to a task, and the
// cleanup that removes them. The digest is any function to 32 bytes.
module Templates {
  import opened Api
  import opened Basics
  import opened SortedSet

  const INFIX := "-tmpl-"
  const DIGEST_BYTES := 4
  const DELETE_ATTEMPTS := 5
  const TASK_YAML := "AX_TASK_YAML"
  const WORKSPACES_YAML := "AX_WORKSPACES_YAML"

  type Byte = n: nat | n < 256

  type Digest = d: seq<Byte> | |d| == 32 witness seq(32, i => 0)

  // ---- hexadecimal ----

  function HexDigit(d: nat): char
    requires d < 16
  {
    if d < 10 then '0' + d as char else 'a' + (d - 10) as char
  }

  predicate IsHexDigit(c: char) {
    '0' <= c <= '9' || 'a' <= c <= 'f'
  }

  function DigitOf(c: char): nat
    requires IsHexDigit(c)
  {
    if c <= '9' then (c - '0') as nat else 10 + (c - 'a') as nat
  }

  function Hex(bytes: seq<Byte>): string {
    if bytes == [] then "" else [HexDigit(bytes[0] / 16), HexDigit(bytes[0] % 16)] + Hex(bytes[1..])
  }

  predicate AllHex(s: string) {
    forall i :: 0 <= i < |s| ==> IsHexDigit(s[i])
  }

  lemma {:induction false} HexIsHex(bytes: seq<Byte>)
    ensures |Hex(bytes)| == 2 * |bytes| && AllHex(Hex(bytes))
  {
    if bytes != [] { HexIsHex(bytes[1..]); }
  }

  lemma PairIsOfAByte(c: char, d: char) returns (b: Byte)
    requires IsHexDigit(c) && IsHexDigit(d)
    ensures [HexDigit(b / 16), HexDigit(b % 16)] == [c, d]
  {
    b := 16 * DigitOf(c) + DigitOf(d);
    assert b / 16 == DigitOf(c) && b % 16 == DigitOf(d);
  }

  lemma {:induction false} EveryHexIsOfBytes(s: string, n: nat) returns (bytes: seq<Byte>)
    requires |s| == 2 * n && AllHex(s)
    ensures |bytes| == n && Hex(bytes) == s
  {
    if n == 0 { return []; }
    var b := PairIsOfAByte(s[0], s[1]);
    var others := EveryHexIsOfBytes(s[2..], n - 1);
    bytes := [b] + others;
    assert bytes[0] == b && bytes[1..] == others;
    assert s == [s[0], s[1]] + s[2..];
  }

  // ---- names and the pattern for them ----

  function Named(taskName: string, digest: seq<Byte>): string {
    taskName + INFIX + Hex(digest)
  }

  // The anchored pattern: the quoted task name, the infix, eight lower-case hex digits.
  predicate Accepts(taskName: string, name: string) {
    var n := |taskName| + |INFIX|;
    && |name| == n + 2 * DIGEST_BYTES
    && name[..|taskName|] == taskName && name[|taskName|..n] == INFIX && AllHex(name[n..])
  }

  lemma NameParts(taskName: string, digest: seq<Byte>)
    ensures |Named(taskName, digest)| == |taskName| + |INFIX| + 2 * |digest|
    ensures Named(taskName, digest)[..|taskName|] == taskName
    ensures Named(taskName, digest)[|taskName|..|taskName| + |INFIX|] == INFIX
    ensures Named(taskName, digest)[|taskName| + |INFIX|..] == Hex(digest)
  {
    HexIsHex(digest);
  }

  // A task's pattern accepts a generated name exactly when it was generated for that task.
  lemma PatternAcceptsOnlyItsTask(t: string, owner: string, digest: seq<Byte>)
    requires |digest| == DIGEST_BYTES
    ensures Accepts(t, Named(owner, digest)) <==> t == owner
  {
    NameParts(owner, digest);
    HexIsHex(digest);
  }

  // The pattern accepts what some digest would generate for the task, and nothing else.
  lemma PatternIsTheNames(t: string, name: string)
    ensures Accepts(t, name) <==> exists digest: seq<Byte> :: |digest| == DIGEST_BYTES && name == Named(t, digest)
  {
    if Accepts(t, name) {
      var n := |t| + |INFIX|;
      var digest := EveryHexIsOfBytes(name[n..], DIGEST_BYTES);
      assert name == name[..|t|] + name[|t|..n] + name[n..];
      assert name == Named(t, digest);
    }
    if digest: seq<Byte> :| |digest| == DIGEST_BYTES && name == Named(t, digest) {
      PatternAcceptsOnlyItsTask(t, t, digest);
    }
  }

  // ---- what is digested ----

  predicate Ascending(keys: seq<string>) {
    forall i, j :: 0 <= i < j < |keys| ==> LexLess(keys[i], keys[j])
  }

  predicate Distinct(keys: seq<string>) {
    forall i, j :: 0 <= i < j < |keys| ==> keys[i] != keys[j]
  }

  // An iteration order of the map: every key once.
  ghost predicate Lists(order: seq<string>, keys: set<string>) {
    Distinct(order) && forall k :: k in order <==> k in keys
  }

  function Insert(k: string, keys: seq<string>): seq<string> {
    if keys == [] || LexLess(k, keys[0]) then [k] + keys else [keys[0]] + Insert(k, keys[1..])
  }

  function Sorted(keys: seq<string>): seq<string> {
    if keys == [] then [] else Insert(keys[0], Sorted(keys[1..]))
  }

  lemma {:induction false} InsertHolds(k: string, keys: seq<string>, x: string)
    ensures x in Insert(k, keys) <==> x == k || x in keys
  {
    if keys != [] && !LexLess(k, keys[0]) {
      InsertHolds(k, keys[1..], x);
      assert x in keys <==> x == keys[0] || x in keys[1..];
    }
  }

  lemma AscendingFrom(head: string, keys: seq<string>)
    requires Ascending(keys) && (keys != [] ==> LexLess(head, keys[0]))
    ensures Ascending([head] + keys)
  {
    forall j | 0 <= j < |keys|
      ensures LexLess(head, keys[j])
    {
      if j > 0 { LexTransitive(head, keys[0], keys[j]); }
    }
  }

  lemma {:induction false} InsertAscends(k: string, keys: seq<string>)
    requires Ascending(keys) && k !in keys
    ensures Ascending(Insert(k, keys))
  {
    if keys == [] || LexLess(k, keys[0]) {
      AscendingFrom(k, keys);
    } else {
      LexTotal(k, keys[0]);
      var tail := Insert(k, keys[1..]);
      InsertAscends(k, keys[1..]);
      InsertHolds(k, keys[1..], tail[0]);
      AscendingFrom(keys[0], tail);
    }
  }

  lemma {:induction false} SortedHolds(keys: seq<string>, x: string)
    ensures x in Sorted(keys) <==> x in keys
  {
    if keys != [] {
      SortedHolds(keys[1..], x);
      InsertHolds(keys[0], Sorted(keys[1..]), x);
    }
  }

  lemma {:induction false} SortedAscends(keys: seq<string>)
    requires Distinct(keys)
    ensures Ascending(Sorted(keys))
  {
    if keys != [] {
      SortedAscends(keys[1..]);
      SortedHolds(keys[1..], keys[0]);
      InsertAscends(keys[0], Sorted(keys[1..]));
    }
  }

  ghost predicate SameKeys(a: seq<string>, b: seq<string>) {
    forall k :: k in a <==> k in b
  }

  lemma HeadIsLeast(keys: seq<string>, k: string)
    requires Ascending(keys) && k in keys
    ensures k == keys[0] || LexLess(keys[0], k)
    ensures k in keys[1..] <==> k != keys[0]
  {
    LexTotal(keys[0], keys[0]);
  }

  lemma HasAKey(keys: seq<string>)
    requires keys != []
    ensures exists k :: k in keys
  {
    assert keys[0] in keys;
  }

  lemma {:induction false} AscendingIsUnique(a: seq<string>, b: seq<string>)
    requires Ascending(a) && Ascending(b) && SameKeys(a, b)
    ensures a == b
  {
    if a != [] {
      assert a[0] in b;
      assert b[0] in a;
      HeadIsLeast(a, b[0]);
      HeadIsLeast(b, a[0]);
      LexTotal(a[0], b[0]);
      forall k
        ensures k in a[1..] <==> k in b[1..]
      {
        if k in a { HeadIsLeast(a, k); HeadIsLeast(b, k); }
      }
      AscendingIsUnique(a[1..], b[1..]);
      assert a == [a[0]] + a[1..] && b == [b[0]] + b[1..];
    } else if b != [] {
      HasAKey(b);
    }
  }

  function EntryText(name: string, value: string): string {
    name + "=" + value + ";"
  }

  function Entries(keys: seq<string>, env: map<string, string>): string
    requires forall k :: k in keys ==> k in env
  {
    if keys == [] then ""
    else
      var last := keys[|keys| - 1];
      Entries(keys[..|keys| - 1], env) + EntryText(last, env[last])
  }

  lemma SortedListsToo(order: seq<string>, keys: set<string>)
    requires Lists(order, keys)
    ensures forall k :: k in Sorted(order) <==> k in keys
  {
    forall k
      ensures k in Sorted(order) <==> k in keys
    {
      SortedHolds(order, k);
    }
  }

  // What is digested; `order` is the order in which the map happened to be iterated.
  ghost function DigestedText(image: string, env: map<string, string>, order: seq<string>): string
    requires Lists(order, env.Keys)
  {
    SortedListsToo(order, env.Keys);
    image + Entries(Sorted(order), env)
  }

  ghost function TemplateName(sum: string -> Digest, taskName: string, image: string, env: map<string, string>,
                              order: seq<string>): string
    requires Lists(order, env.Keys)
  {
    Named(taskName, sum(DigestedText(image, env, order))[..DIGEST_BYTES])
  }

  method TaskTemplateName(sum: string -> Digest, taskName: string, image: string, env: map<string, string>,
                          order: seq<string>)
    returns (name: string)
    requires Lists(order, env.Keys)
    ensures name == TemplateName(sum, taskName, image, env, order)
  {
    SortedListsToo(order, env.Keys);
    var keys := Sorted(order);
    var written := image;
    assert image + "" == image;
    for i := 0 to |keys|
      invariant written == image + Entries(keys[..i], env)
    {
      assert keys[..i + 1][..i] == keys[..i];
      written := written + EntryText(keys[i], env[keys[i]]);
    }
    assert keys[..|keys|] == keys;
    name := taskName + INFIX + Hex(sum(written)[..DIGEST_BYTES]);
  }

  // However the map is iterated, the name is the same.
  lemma NameIgnoresIterationOrder(sum: string -> Digest, taskName: string, image: string, env: map<string, string>,
                                  order1: seq<string>, order2: seq<string>)
    requires Lists(order1, env.Keys) && Lists(order2, env.Keys)
    ensures TemplateName(sum, taskName, image, env, order1) == TemplateName(sum, taskName, image, env, order2)
  {
    SortedAscends(order1);
    SortedAscends(order2);
    SortedListsToo(order1, env.Keys);
    SortedListsToo(order2, env.Keys);
    AscendingIsUnique(Sorted(order1), Sorted(order2));
  }

  // ---- how much the digested text tells ----

  lemma EntriesUnfold(keys: seq<string>, env: map<string, string>, n: nat)
    requires |keys| == n + 1 && forall k :: k in keys ==> k in env
    ensures Entries(keys, env) == Entries(keys[..n], env) + EntryText(keys[n], env[keys[n]])
  {
  }

  lemma {:induction false} EntriesCons(keys: seq<string>, env: map<string, string>)
    requires keys != [] && forall k :: k in keys ==> k in env
    ensures Entries(keys, env) == EntryText(keys[0], env[keys[0]]) + Entries(keys[1..], env)
  {
    var n := |keys| - 1;
    EntriesUnfold(keys, env, n);
    if n > 0 {
      var front := keys[..n];
      EntriesCons(front, env);
      EntriesUnfold(keys[1..], env, n - 1);
      assert front[1..] == keys[1..][..n - 1] && keys[1..][n - 1] == keys[n];
      Regroup(EntryText(keys[0], env[keys[0]]), Entries(front[1..], env), EntryText(keys[n], env[keys[n]]));
    }
  }

  // The position of the first c, or the length.
  function Until(s: string, c: char): nat {
    if s == "" || s[0] == c then 0 else 1 + Until(s[1..], c)
  }

  lemma {:induction false} UntilSeparator(a: string, c: char, x: string)
    requires c !in a
    ensures Until(a + [c] + x, c) == |a|
  {
    if a != "" {
      assert (a + [c] + x)[1..] == a[1..] + [c] + x;
      UntilSeparator(a[1..], c, x);
    }
  }

  // A separator that neither part before it holds splits a text one way.
  lemma SplitsOneWay(a: string, b: string, c: char, x: string, y: string)
    requires a + [c] + x == b + [c] + y && c !in a && c !in b
    ensures a == b && x == y
  {
    var t := a + [c] + x;
    UntilSeparator(a, c, x);
    UntilSeparator(b, c, y);
    assert t[..|a|] == a && t[|a| + 1..] == x && t[..|b|] == b && t[|b| + 1..] == y;
  }

  lemma EntryParts(name: string, value: string, rest: string)
    ensures EntryText(name, value) + rest == name + "=" + (value + ";" + rest)
  {
  }

  // Names without '=' and values without ';'.
  predicate Readable(env: map<string, string>) {
    forall k :: k in env ==> '=' !in k && ';' !in env[k]
  }

  lemma HeadsAgree(keys1: seq<string>, env1: map<string, string>, keys2: seq<string>, env2: map<string, string>)
    requires keys1 != [] && keys2 != [] && Readable(env1) && Readable(env2)
    requires (forall k :: k in keys1 ==> k in env1) && (forall k :: k in keys2 ==> k in env2)
    requires Entries(keys1, env1) == Entries(keys2, env2)
    ensures keys1[0] == keys2[0] && env1[keys1[0]] == env2[keys2[0]]
    ensures Entries(keys1[1..], env1) == Entries(keys2[1..], env2)
  {
    EntriesCons(keys1, env1);
    EntriesCons(keys2, env2);
    var k1, k2, v1, v2 := keys1[0], keys2[0], env1[keys1[0]], env2[keys2[0]];
    var rest1, rest2 := Entries(keys1[1..], env1), Entries(keys2[1..], env2);
    EntryParts(k1, v1, rest1);
    EntryParts(k2, v2, rest2);
    SplitsOneWay(k1, k2, '=', v1 + ";" + rest1, v2 + ";" + rest2);
    SplitsOneWay(v1, v2, ';', rest1, rest2);
  }

  lemma EntriesOfNone(keys: seq<string>, env: map<string, string>)
    requires forall k :: k in keys ==> k in env
    ensures Entries(keys, env) == "" <==> keys == []
  {
  }

  lemma {:induction false} TextTellsEntries(keys1: seq<string>, env1: map<string, string>, keys2: seq<string>,
                                            env2: map<string, string>)
    requires Readable(env1) && Readable(env2)
    requires (forall k :: k in keys1 ==> k in env1) && (forall k :: k in keys2 ==> k in env2)
    requires Entries(keys1, env1) == Entries(keys2, env2)
    ensures keys1 == keys2 && forall k :: k in keys1 ==> env1[k] == env2[k]
  {
    EntriesOfNone(keys1, env1);
    EntriesOfNone(keys2, env2);
    if keys1 != [] {
      HeadsAgree(keys1, env1, keys2, env2);
      TextTellsEntries(keys1[1..], env1, keys2[1..], env2);
      assert keys1 == [keys1[0]] + keys1[1..] && keys2 == [keys2[0]] + keys2[1..];
    }
  }

  // For one image, readable environments are digested alike exactly when they are equal:
  // a change of the environment yields a new template, up to digest collisions.
  lemma DigestedTextTellsEnvironmentsApart(env1: map<string, string>, env2: map<string, string>, order1: seq<string>,
                                           order2: seq<string>)
    requires Lists(order1, env1.Keys) && Lists(order2, env2.Keys) && Readable(env1) && Readable(env2)
    ensures (forall k :: k in Sorted(order1) ==> k in env1) && (forall k :: k in Sorted(order2) ==> k in env2)
    ensures Entries(Sorted(order1), env1) == Entries(Sorted(order2), env2) <==> env1 == env2
  {
    SortedListsToo(order1, env1.Keys);
    SortedListsToo(order2, env2.Keys);
    if Entries(Sorted(order1), env1) == Entries(Sorted(order2), env2) {
      TextTellsEntries(Sorted(order1), env1, Sorted(order2), env2);
      assert forall k :: k in env1 <==> k in Sorted(order1);
      assert forall k :: k in env2 <==> k in Sorted(order2);
      assert env1.Keys == env2.Keys;
    }
    if env1 == env2 {
      SortedAscends(order1);
      SortedAscends(order2);
      AscendingIsUnique(Sorted(order1), Sorted(order2));
    }
  }

  // By itself, what is digested does not tell an image from the entries after it.
  lemma TextRunsImageIntoEntries(sum: string -> Digest, taskName: string)
    ensures var one: map<string, string>, none: map<string, string> := map["k" := "v"], map[];
            && Lists(["k"], one.Keys) && Lists([], none.Keys)
            && TemplateName(sum, taskName, "i", one, ["k"]) == TemplateName(sum, taskName, "ik=v;", none, [])
  {
    var one: map<string, string> := map["k" := "v"];
    assert Sorted(["k"]) == ["k"];
    assert Entries(["k"], one) == Entries([], one) + EntryText("k", "v") == "k=v;";
    assert "i" + "k=v;" == "ik=v;" + "";
  }

  // ---- the launch environment ----

  datatype Entry = Entry(name: string, value: string)

  // What the launch configuration and the surroundings contribute: the image, the task's
  // own variables, the model's or the default key's variables, the workspaces document.
  datatype Surroundings = Surroundings(image: string, own: seq<Entry>, model: map<string, string>, workspaces: string)

  // Nameless variables are skipped and a later one wins.
  function OwnVariables(own: seq<Entry>): map<string, string> {
    if own == [] then map[]
    else
      var last := own[|own| - 1];
      var before := OwnVariables(own[..|own| - 1]);
      if last.name == "" then before else before[last.name := last.value]
  }

  function LaunchTask(t: Task): Task {
    t.(spec := t.spec.(suspend := false), status := Status("", "", "", "", []))
  }

  // yaml renders a task, unless it fails.
  function LaunchEnv(t: Task, s: Surroundings, yaml: Task -> Option<string>): map<string, string> {
    var doc := yaml(LaunchTask(t));
    var env := OwnVariables(s.own) + s.model;
    var env := if doc.Some? then env[TASK_YAML := doc.value] else env;
    if s.workspaces != "" then env[WORKSPACES_YAML := s.workspaces] else env
  }

  // Own variable i is the last one of its name.
  predicate LastOwn(own: seq<Entry>, i: nat, k: string) {
    i < |own| && own[i].name == k && forall j :: i < j < |own| ==> own[j].name != k
  }

  lemma {:induction false} OwnVariablesByName(own: seq<Entry>, k: string)
    ensures k in OwnVariables(own) <==> k != "" && exists i :: 0 <= i < |own| && own[i].name == k
    ensures forall i: nat :: LastOwn(own, i, k) && k != "" ==>
              k in OwnVariables(own) && OwnVariables(own)[k] == own[i].value
  {
    if own != [] {
      var n := |own| - 1;
      OwnVariablesByName(own[..n], k);
      assert forall i :: 0 <= i < n ==> own[..n][i] == own[i];
      forall i: nat | LastOwn(own, i, k) && k != ""
        ensures k in OwnVariables(own) && OwnVariables(own)[k] == own[i].value
      {
        if i < n { assert LastOwn(own[..n], i, k); }
      }
    }
  }

  // Every name in the environment, and where its value comes from: the documents, then
  // the model's variables, then the task's own, the last one of a name.
  lemma LaunchEnvByName(t: Task, s: Surroundings, yaml: Task -> Option<string>, k: string)
    ensures var env := LaunchEnv(t, s, yaml);
            var doc := yaml(t.(spec := t.spec.(suspend := false), status := Status("", "", "", "", [])));
            var task, bound := k == "AX_TASK_YAML" && doc.Some?, k == "AX_WORKSPACES_YAML" && s.workspaces != "";
            && (k in env <==>
                task || bound || k in s.model || (k != "" && exists i :: 0 <= i < |s.own| && s.own[i].name == k))
            && (task ==> env[k] == doc.value) && (bound ==> env[k] == s.workspaces)
            && (!task && !bound && k in s.model ==> env[k] == s.model[k])
            && (!task && !bound && k !in s.model && k in env ==>
                  forall i: nat :: LastOwn(s.own, i, k) ==> env[k] == s.own[i].value)
  {
    OwnVariablesByName(s.own, k);
    assert TASK_YAML[3] != WORKSPACES_YAML[3];
  }

  method BuildEnv(t: Task, s: Surroundings, yaml: Task -> Option<string>) returns (env: map<string, string>)
    ensures env == LaunchEnv(t, s, yaml)
  {
    env := map[];
    for i := 0 to |s.own|
      invariant env == OwnVariables(s.own[..i])
    {
      assert s.own[..i + 1][..i] == s.own[..i];
      if s.own[i].name != "" { env := env[s.own[i].name := s.own[i].value]; }
    }
    assert s.own[..|s.own|] == s.own;
    env := env + s.model;
    var launch := t;
    launch := launch.(status := Status("", "", "", "", []));
    launch := launch.(spec := launch.spec.(suspend := false));
    var doc := yaml(launch);
    if doc.Some? { env := env[TASK_YAML := doc.value]; }
    if s.workspaces != "" { env := env[WORKSPACES_YAML := s.workspaces]; }
  }

  // Suspending, resuming or a new status keeps the template; the surroundings are those
  // of the launch configuration.
  lemma NameIgnoresStatusAndSuspend(sum: string -> Digest, yaml: Task -> Option<string>, t: Task, s: Surroundings,
                                    suspend: bool, status: Status, order1: seq<string>, order2: seq<string>)
    requires Lists(order1, LaunchEnv(t, s, yaml).Keys)
    requires Lists(order2, LaunchEnv(t.(spec := t.spec.(suspend := suspend), status := status), s, yaml).Keys)
    ensures var u := t.(spec := t.spec.(suspend := suspend), status := status);
            TemplateName(sum, t.meta.name, s.image, LaunchEnv(t, s, yaml), order1)
            == TemplateName(sum, u.meta.name, s.image, LaunchEnv(u, s, yaml), order2)
  {
    var u := t.(spec := t.spec.(suspend := suspend), status := status);
    assert LaunchTask(u) == LaunchTask(t);
    NameIgnoresIterationOrder(sum, t.meta.name, s.image, LaunchEnv(t, s, yaml), order1, order2);
  }

  // ---- when two launches are digested alike ----

  // The task document renders, differs between launch tasks, and covers the image; no
  // name or image holds an '=' and no value a ';'.
  ghost predicate Legible(t: Task, s: Surroundings, yaml: Task -> Option<string>, image: Task -> string) {
    && yaml(LaunchTask(t)).Some? && s.image == image(LaunchTask(t)) && '=' !in s.image
    && Readable(LaunchEnv(t, s, yaml))
  }

  ghost predicate TellsTasksApart(yaml: Task -> Option<string>) {
    forall t, u :: yaml(t).Some? && yaml(t) == yaml(u) ==> t == u
  }

  lemma TaskDocumentIsThere(t: Task, s: Surroundings, yaml: Task -> Option<string>)
    requires yaml(LaunchTask(t)).Some?
    ensures TASK_YAML in LaunchEnv(t, s, yaml) && LaunchEnv(t, s, yaml)[TASK_YAML] == yaml(LaunchTask(t)).value
  {
    assert TASK_YAML[3] != WORKSPACES_YAML[3];
  }

  // The texts split alike up to the first entry's name, which the image runs into.
  lemma TextsAgree(image1: string, keys1: seq<string>, env1: map<string, string>,
                   image2: string, keys2: seq<string>, env2: map<string, string>)
    requires keys1 != [] && keys2 != [] && Readable(env1) && Readable(env2) && '=' !in image1 && '=' !in image2
    requires (forall k :: k in keys1 ==> k in env1) && (forall k :: k in keys2 ==> k in env2)
    requires image1 + Entries(keys1, env1) == image2 + Entries(keys2, env2)
    ensures image1 + keys1[0] == image2 + keys2[0] && env1[keys1[0]] == env2[keys2[0]]
    ensures keys1[1..] == keys2[1..] && forall k :: k in keys1[1..] ==> env1[k] == env2[k]
  {
    EntriesCons(keys1, env1);
    EntriesCons(keys2, env2);
    var k1, k2, v1, v2 := keys1[0], keys2[0], env1[keys1[0]], env2[keys2[0]];
    var rest1, rest2 := Entries(keys1[1..], env1), Entries(keys2[1..], env2);
    EntryParts(k1, v1, rest1);
    EntryParts(k2, v2, rest2);
    ImageAndName(image1, k1, v1 + ";" + rest1);
    ImageAndName(image2, k2, v2 + ";" + rest2);
    SplitsOneWay(image1 + k1, image2 + k2, '=', v1 + ";" + rest1, v2 + ";" + rest2);
    SplitsOneWay(v1, v2, ';', rest1, rest2);
    TextTellsEntries(keys1[1..], env1, keys2[1..], env2);
  }

  lemma ImageAndName(image: string, name: string, rest: string)
    ensures image + (name + "=" + rest) == image + name + "=" + rest
  {
  }

  lemma InOnePlace(keys: seq<string>, k: string)
    requires Ascending(keys) && k in keys
    ensures k == keys[0] <==> k !in keys[1..]
  {
    LexTotal(k, k);
  }

  // One key is in both, with the same value, wherever it stands.
  lemma SharedKeyAgrees(keys1: seq<string>, env1: map<string, string>, keys2: seq<string>, env2: map<string, string>,
                        k: string)
    requires Ascending(keys1) && Ascending(keys2) && k in keys1 && k in keys2
    requires (forall k :: k in keys1 ==> k in env1) && (forall k :: k in keys2 ==> k in env2)
    requires env1[keys1[0]] == env2[keys2[0]] && keys1[1..] == keys2[1..]
    requires forall k :: k in keys1[1..] ==> env1[k] == env2[k]
    ensures env1[k] == env2[k]
  {
    InOnePlace(keys1, k);
    InOnePlace(keys2, k);
  }

  lemma SameEntriesSameMap(keys: seq<string>, env1: map<string, string>, env2: map<string, string>)
    requires (forall k :: k in keys <==> k in env1) && (forall k :: k in keys <==> k in env2)
    requires forall k :: k in keys ==> env1[k] == env2[k]
    ensures env1 == env2
  {
    assert forall k :: k in env1 <==> k in env2;
  }

  lemma AlikeTextsAreOneLaunch(t1: Task, s1: Surroundings, t2: Task, s2: Surroundings, yaml: Task -> Option<string>,
                               image: Task -> string,
                               keys1: seq<string>, keys2: seq<string>)
    requires TellsTasksApart(yaml) && Legible(t1, s1, yaml, image) && Legible(t2, s2, yaml, image)
    requires Ascending(keys1) && Ascending(keys2)
    requires var env1, env2 := LaunchEnv(t1, s1, yaml), LaunchEnv(t2, s2, yaml);
             && (forall k :: k in keys1 <==> k in env1) && (forall k :: k in keys2 <==> k in env2)
             && s1.image + Entries(keys1, env1) == s2.image + Entries(keys2, env2)
    ensures LaunchTask(t1) == LaunchTask(t2) && LaunchEnv(t1, s1, yaml) == LaunchEnv(t2, s2, yaml)
  {
    var env1, env2 := LaunchEnv(t1, s1, yaml), LaunchEnv(t2, s2, yaml);
    TaskDocumentIsThere(t1, s1, yaml);
    TaskDocumentIsThere(t2, s2, yaml);
    TextsAgree(s1.image, keys1, env1, s2.image, keys2, env2);
    SharedKeyAgrees(keys1, env1, keys2, env2, TASK_YAML);
    assert yaml(LaunchTask(t1)) == yaml(LaunchTask(t2));
    SameEnd(s1.image, keys1[0], keys2[0]);
    assert keys1 == [keys1[0]] + keys1[1..] && keys2 == [keys2[0]] + keys2[1..];
    assert forall k :: k in keys1 ==> k == keys1[0] || k in keys1[1..];
    SameEntriesSameMap(keys1, env1, env2);
  }

  lemma SameEnd(a: string, b: string, c: string)
    requires a + b == a + c
    ensures b == c
  {
    assert b == (a + b)[|a|..] && c == (a + c)[|a|..];
  }

  // Two launches are digested alike exactly when they are the same launch, though an
  // image runs into the first entry: the task document gives them away.
  lemma LaunchesDigestedAlikeIff(t1: Task, s1: Surroundings, t2: Task, s2: Surroundings, yaml: Task -> Option<string>,
                                 image: Task -> string,
                                 order1: seq<string>, order2: seq<string>)
    requires TellsTasksApart(yaml) && Legible(t1, s1, yaml, image) && Legible(t2, s2, yaml, image)
    requires Lists(order1, LaunchEnv(t1, s1, yaml).Keys) && Lists(order2, LaunchEnv(t2, s2, yaml).Keys)
    ensures DigestedText(s1.image, LaunchEnv(t1, s1, yaml), order1)
            == DigestedText(s2.image, LaunchEnv(t2, s2, yaml), order2)
            <==> LaunchTask(t1) == LaunchTask(t2) && LaunchEnv(t1, s1, yaml) == LaunchEnv(t2, s2, yaml)
  {
    SortedAscends(order1);
    SortedAscends(order2);
    SortedListsToo(order1, LaunchEnv(t1, s1, yaml).Keys);
    SortedListsToo(order2, LaunchEnv(t2, s2, yaml).Keys);
    if DigestedText(s1.image, LaunchEnv(t1, s1, yaml), order1)
      == DigestedText(s2.image, LaunchEnv(t2, s2, yaml), order2) {
      AlikeTextsAreOneLaunch(t1, s1, t2, s2, yaml, image, Sorted(order1), Sorted(order2));
    }
    if LaunchTask(t1) == LaunchTask(t2) && LaunchEnv(t1, s1, yaml) == LaunchEnv(t2, s2, yaml) {
      AscendingIsUnique(Sorted(order1), Sorted(order2));
    }
  }

  // ---- cleanup ----

  datatype DeleteError = CallFailed | Cancelled

  // call(k) is how attempt k went; cancelled(k), whether the wait after it found the
  // context done. Leaving that wait does not leave the loop: all attempts are still made.
  method DeleteTemplate(call: nat -> Outcome, cancelled: nat -> bool)
    returns (err: Option<DeleteError>, tries: nat, gone: bool)
    ensures 1 <= tries <= DELETE_ATTEMPTS
    ensures forall k :: 0 <= k < tries - 1 ==> !call(k).Done?
    ensures err.None? <==> call(tries - 1).Done?
    ensures err.Some? ==> tries == DELETE_ATTEMPTS && (err.value == Cancelled <==> cancelled(tries - 1))
    ensures gone <==> exists k :: 0 <= k < tries && Landed(call(k))
  {
    err, tries, gone := None, 0, false;
    while tries < DELETE_ATTEMPTS
      invariant tries <= DELETE_ATTEMPTS
      invariant forall k :: 0 <= k < tries ==> !call(k).Done?
      invariant tries > 0 ==> err == Some(if cancelled(tries - 1) then Cancelled else CallFailed)
      invariant gone <==> exists k :: 0 <= k < tries && Landed(call(k))
    {
      var outcome := call(tries);
      gone := gone || Landed(outcome);
      tries := tries + 1;
      if outcome.Done? { return None, tries, gone; }
      err := Some(if cancelled(tries - 1) then Cancelled else CallFailed);
    }
  }

  predicate Removable(call: nat -> Outcome) {
    exists k :: 0 <= k < DELETE_ATTEMPTS && call(k).Done?
  }

  // Removes the task's templates from those listed; None when listing failed. `gone` are
  // the listed templates that no longer exist afterwards: none that was generated for
  // another task, and when there is no error all that were generated for this one.
  method DeleteTaskTemplates(listed: Option<seq<string>>, taskName: string, calls: nat -> nat -> Outcome,
                             cancelled: nat -> nat -> bool)
    returns (errs: seq<DeleteError>, ok: bool, gone: set<string>)
    ensures listed.None? ==> !ok && gone == {}
    ensures listed.Some? ==>
              (ok <==> forall i :: 0 <= i < |listed.value| && Accepts(taskName, listed.value[i]) ==>
                Removable(calls(i)))
    ensures forall n :: n in gone ==> listed.Some? && n in listed.value && Accepts(taskName, n)
    ensures ok ==> forall n :: n in listed.value && Accepts(taskName, n) ==> n in gone
    ensures forall owner, digest: seq<Byte> :: |digest| == DIGEST_BYTES && Named(owner, digest) in gone ==>
              owner == taskName
    ensures ok ==> forall digest: seq<Byte> :: |digest| == DIGEST_BYTES && Named(taskName, digest) in listed.value ==>
                     Named(taskName, digest) in gone
  {
    errs, ok, gone := [], false, {};
    if listed.None? { return; }
    var names := listed.value;
    for i := 0 to |names|
      invariant errs == [] <==> forall j :: 0 <= j < i && Accepts(taskName, names[j]) ==> Removable(calls(j))
      invariant forall n :: n in gone ==> n in names && Accepts(taskName, n)
      invariant errs == [] ==> forall j :: 0 <= j < i && Accepts(taskName, names[j]) ==> names[j] in gone
    {
      if Accepts(taskName, names[i]) {
        var err, tries, went := DeleteTemplate(calls(i), cancelled(i));
        if went { gone := gone + {names[i]}; }
        if err.Some? { errs := errs + [err.value]; }
      }
    }
    ok := errs == [];
    forall owner, digest: seq<Byte> | |digest| == DIGEST_BYTES
      ensures Accepts(taskName, Named(owner, digest)) <==> taskName == owner
    {
      PatternAcceptsOnlyItsTask(taskName, owner, digest);
    }
  }
}
