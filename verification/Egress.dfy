// Compiling a gateway's egress allowlist into rules, and storing them on an actor by
// create or update. How a pattern or a CIDR matches a destination is not interpreted.
module Egress {
  import opened Api

  datatype Rule = All | Hostnames(patterns: seq<string>) | Cidrs(cidrs: seq<string>)

  datatype Policy = Policy(uid: string, version: string, rules: seq<Rule>)

  predicate IsWildcard(entry: string) {
    entry == "*" || entry == "0.0.0.0/0"
  }

  predicate IsCidr(entry: string) {
    '/' in entry
  }

  predicate IsPattern(entry: string) {
    entry != "" && '/' !in entry
  }

  function Kept(hosts: seq<string>, keep: string -> bool): seq<string> {
    if hosts == [] then []
    else Kept(hosts[..|hosts| - 1], keep) + if keep(hosts[|hosts| - 1]) then [hosts[|hosts| - 1]] else []
  }

  lemma {:induction false} KeptHolds(hosts: seq<string>, keep: string -> bool, h: string)
    ensures h in Kept(hosts, keep) <==> h in hosts && keep(h)
  {
    if hosts != [] {
      var n := |hosts| - 1;
      KeptHolds(hosts[..n], keep, h);
      assert h in hosts <==> h in hosts[..n] || h == hosts[n];
    }
  }

  function RulesFor(patterns: seq<string>, cidrs: seq<string>): seq<Rule> {
    (if patterns == [] then [] else [Hostnames(patterns)]) + (if cidrs == [] then [] else [Cidrs(cidrs)])
  }

  function Compiled(hosts: seq<string>): seq<Rule> {
    if exists h :: h in hosts && IsWildcard(h) then [All]
    else RulesFor(Kept(hosts, IsPattern), Kept(hosts, IsCidr))
  }

  method CompileRules(hosts: seq<string>) returns (rules: seq<Rule>)
    ensures rules == Compiled(hosts)
  {
    var patterns, cidrs, allowAll := [], [], false;
    for i := 0 to |hosts|
      invariant !allowAll && patterns == Kept(hosts[..i], IsPattern) && cidrs == Kept(hosts[..i], IsCidr)
      invariant forall j :: 0 <= j < i ==> !IsWildcard(hosts[j])
    {
      var h := hosts[i];
      if h == "*" || h == "0.0.0.0/0" {
        assert h in hosts && IsWildcard(h);
        allowAll := true;
        break;
      }
      assert hosts[..i + 1][..i] == hosts[..i];
      if '/' in h {
        cidrs := cidrs + [h];
      } else if h != "" {
        patterns := patterns + [h];
      }
    }
    rules := [];
    if allowAll {
      rules := rules + [All];
    } else {
      assert hosts[..|hosts|] == hosts;
      if |patterns| > 0 { rules := rules + [Hostnames(patterns)]; }
      if |cidrs| > 0 { rules := rules + [Cidrs(cidrs)]; }
    }
  }

  // ---- what the rules permit ----

  datatype Matching = Matching(host: (string, string) -> bool, cidr: (string, string) -> bool)

  // Ports are not looked at.
  predicate EntryPermits(m: Matching, entry: string, dest: string) {
    || IsWildcard(entry)
    || (IsCidr(entry) && m.cidr(entry, dest))
    || (IsPattern(entry) && m.host(entry, dest))
  }

  predicate RulePermits(m: Matching, rule: Rule, dest: string) {
    match rule
    case All => true
    case Hostnames(patterns) => exists p :: p in patterns && m.host(p, dest)
    case Cidrs(cidrs) => exists c :: c in cidrs && m.cidr(c, dest)
  }

  predicate Permits(m: Matching, rules: seq<Rule>, dest: string) {
    exists r :: r in rules && RulePermits(m, r, dest)
  }

  lemma RulesForPermit(m: Matching, patterns: seq<string>, cidrs: seq<string>, dest: string)
    ensures Permits(m, RulesFor(patterns, cidrs), dest)
            <==> (exists p :: p in patterns && m.host(p, dest)) || (exists c :: c in cidrs && m.cidr(c, dest))
  {
    var rules := RulesFor(patterns, cidrs);
    if p :| p in patterns && m.host(p, dest) {
      assert Hostnames(patterns) in rules && RulePermits(m, Hostnames(patterns), dest);
    }
    if c :| c in cidrs && m.cidr(c, dest) {
      assert Cidrs(cidrs) in rules && RulePermits(m, Cidrs(cidrs), dest);
    }
  }

  // The rules permit a destination exactly when some entry does, wherever in the list.
  lemma RulesPermitWhatEntriesDo(m: Matching, hosts: seq<string>, dest: string)
    ensures Permits(m, Compiled(hosts), dest) <==> exists h :: h in hosts && EntryPermits(m, h, dest)
  {
    if w :| w in hosts && IsWildcard(w) {
      assert EntryPermits(m, w, dest);
      assert All in [All] && RulePermits(m, All, dest);
    } else {
      var patterns, cidrs := Kept(hosts, IsPattern), Kept(hosts, IsCidr);
      RulesForPermit(m, patterns, cidrs, dest);
      forall h
        ensures h in patterns <==> h in hosts && IsPattern(h)
        ensures h in cidrs <==> h in hosts && IsCidr(h)
      {
        KeptHolds(hosts, IsPattern, h);
        KeptHolds(hosts, IsCidr, h);
      }
      if h :| h in hosts && EntryPermits(m, h, dest) {
        assert (h in patterns && m.host(h, dest)) || (h in cidrs && m.cidr(h, dest));
      }
      if p :| p in patterns && m.host(p, dest) { assert EntryPermits(m, p, dest); }
      if c :| c in cidrs && m.cidr(c, dest) { assert EntryPermits(m, c, dest); }
    }
  }

  // ---- create or update ----

  datatype Answer = Accepted | AlreadyExists | Refused

  // The actor's policy as Substrate keeps it.
  class Actor {
    var policy: Option<Policy>

    constructor ()
      ensures policy == None
    {
      policy := None;
    }

    method Create(wanted: Policy, out: Outcome) returns (a: Answer)
      modifies this
      ensures old(policy).Some? ==> policy == old(policy)
      ensures old(policy).None? ==> policy == if Landed(out) then Some(wanted) else None
      ensures a == (if out.Failed? then Refused else if old(policy).Some? then AlreadyExists else Accepted)
    {
      a := if out.Failed? then Refused else if policy.Some? then AlreadyExists else Accepted;
      if policy.None? && Landed(out) { policy := Some(wanted); }
    }

    method Update(wanted: Policy, out: Outcome) returns (ok: bool)
      modifies this
      ensures policy == (if old(policy).Some? && Landed(out) then Some(wanted) else old(policy))
      ensures ok <==> old(policy).Some? && out.Done?
    {
      ok := policy.Some? && out.Done?;
      if policy.Some? && Landed(out) { policy := Some(wanted); }
    }

    // `reachable` is whether the read in between succeeds. An absent or empty list leaves
    // whatever policy there was.
    method ApplyEgressPolicy(hosts: Option<seq<string>>, create: Outcome, reachable: bool, update: Outcome)
      returns (ok: bool)
      modifies this
      ensures hosts.None? || hosts.value == [] ==> ok && policy == old(policy)
      ensures hosts.Some? && hosts.value != [] ==>
                (ok <==> create.Done? && (old(policy).Some? ==> update.Done?))
      ensures ok && hosts.Some? && hosts.value != [] ==> policy.Some? && policy.value.rules == Compiled(hosts.value)
      ensures policy != old(policy) ==> policy.Some? && policy.value.rules == Compiled(hosts.value)
      ensures policy != old(policy) && old(policy).Some? && reachable ==>
                policy.value.uid == old(policy).value.uid && policy.value.version == old(policy).value.version
    {
      if hosts.None? || |hosts.value| == 0 { return true; }
      var rules := CompileRules(hosts.value);
      var wanted := Policy("", "", rules);
      var answer := Create(wanted, create);
      if answer == Accepted { return true; }
      if answer == AlreadyExists {
        if reachable && policy.Some? {
          wanted := wanted.(uid := policy.value.uid, version := policy.value.version);
        }
        ok := Update(wanted, update);
        return;
      }
      ok := false;
    }
  }
}
