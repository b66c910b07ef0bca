// The model-driven workspace bootstrap: a bounded loop that grows one conversation by
// an assistant message and its tool results per turn. Text is bytes.
module Bootstrap {
  import opened Api
  import opened Basics
  import opened Provider

  const MAX_TURNS: nat := 24
  const MAX_TOOL_CALLS: nat := 48
  const MAX_OUTPUT: nat := 32 * 1024
  const MAX_TRANSCRIPT: nat := 128 * 1024
  const MAX_COMMAND_SIZE: nat := 16 * 1024
  const RUN_COMMAND := "run_command"
  const ASSISTANT := "assistant"
  const TRUNCATED_NOTE := "\n[command output truncated]"

  function Concat(writes: seq<string>): string {
    if writes == [] then "" else Concat(writes[..|writes| - 1]) + writes[|writes| - 1]
  }

  // What a limited output keeps of everything written to it.
  function KeptOf(all: string, limit: int): string {
    all[..Min(Max(limit, 0), |all|)]
  }

  function Shown(all: string, limit: int): string {
    KeptOf(all, limit) + (if |all| > Max(limit, 0) then TRUNCATED_NOTE else "")
  }

  class LimitedOutput {
    var output: string
    const limit: int
    var truncated: bool
    ghost var written: string

    // Exactly the first `limit` bytes of all writes, flagged exactly when there were more.
    ghost predicate Valid()
      reads this
    {
      output == KeptOf(written, limit) && (truncated <==> |written| > Max(limit, 0))
    }

    constructor (limit: int)
      ensures Valid() && this.limit == limit && written == ""
    {
      this.limit, output, truncated, written := limit, "", false, "";
    }

    method Write(p: string) returns (n: nat)
      requires Valid()
      modifies this
      ensures Valid() && n == |p| && written == old(written) + p
    {
      var remaining := limit - |output|;
      if remaining > 0 {
        if |p| > remaining {
          output := output + p[..remaining];
          truncated := true;
        } else {
          output := output + p;
        }
      } else if |p| > 0 {
        truncated := true;
      }
      written := written + p;
      n := |p|;
    }

    method String() returns (s: string)
      requires Valid()
      ensures s == Shown(written, limit)
    {
      s := output;
      if truncated { s := s + TRUNCATED_NOTE; }
    }
  }

  // What one tool call meets: its arguments decoded (None when they do not decode), the
  // command's writes and failure, and the wording of the results that are not output:
  // the complaint about a call that cannot run, and the line put before a failed
  // command's output.
  datatype Env = Env(command: Option<string>, writes: seq<string>, fails: bool, complaint: string, failureLine: string)

  predicate Executes(call: ToolCall, env: Env) {
    call.name == RUN_COMMAND && env.command.Some? && 0 < |env.command.value| <= MAX_COMMAND_SIZE
  }

  function CommandOutput(call: ToolCall, env: Env, limit: int): string {
    if Executes(call, env) then KeptOf(Concat(env.writes), limit) else ""
  }

  function CommandResult(call: ToolCall, env: Env, limit: int): string {
    if !Executes(call, env) then env.complaint
    else (if env.fails then env.failureLine else "") + Shown(Concat(env.writes), limit)
  }

  method ExecuteWorkspaceCommand(call: ToolCall, env: Env, limit: int) returns (result: string, kept: nat)
    ensures result == CommandResult(call, env, limit)
    ensures kept == |CommandOutput(call, env, limit)|
    ensures kept <= |result| && kept <= Max(limit, 0)
  {
    if call.name != RUN_COMMAND { return env.complaint, 0; }
    if env.command.None? { return env.complaint, 0; }
    if env.command.value == "" { return env.complaint, 0; }
    if |env.command.value| > MAX_COMMAND_SIZE { return env.complaint, 0; }
    var output := new LimitedOutput(limit);
    for i := 0 to |env.writes|
      invariant output.Valid() && output.written == Concat(env.writes[..i])
    {
      assert env.writes[..i + 1][..i] == env.writes[..i];
      var n := output.Write(env.writes[i]);
    }
    assert env.writes[..|env.writes|] == env.writes;
    result := output.String();
    kept := |output.output|;
    if env.fails { result := env.failureLine + result; }
  }

  // What a call reports, in full: the complaint if it does not run; otherwise the failure
  // line if it failed, then the output up to the limit, then the note if there was more.
  lemma ResultSays(call: ToolCall, env: Env, limit: nat)
    ensures var out, result := Concat(env.writes), CommandResult(call, env, limit);
            var runs := call.name == RUN_COMMAND && env.command.Some? && 0 < |env.command.value| <= 16384;
            var line := if env.fails then env.failureLine else "";
            && (!runs ==> result == env.complaint)
            && (runs && |out| <= limit ==> result == line + out)
            && (runs && |out| > limit ==> result == line + (out[..limit] + TRUNCATED_NOTE))
  {
    assert Concat(env.writes)[..|Concat(env.writes)|] == Concat(env.writes);
    assert Concat(env.writes) + "" == Concat(env.writes);
  }

  // ---- the conversation ----

  // One completed turn: the reply's calls, the ID each result was filed under, and the results.
  datatype AnyRound = Round(content: string, calls: seq<ToolCall>, ids: seq<string>, results: seq<string>)

  type Round = r: AnyRound | |r.calls| == |r.ids| == |r.results| && r.calls != []
    witness Round("", [ToolCall("", "", "")], [""], [""])

  function ToolMessages(calls: seq<ToolCall>, ids: seq<string>, results: seq<string>): (ms: seq<Message>)
    requires |calls| == |ids| == |results|
    ensures |ms| == |calls|
    ensures forall i :: 0 <= i < |ms| ==> ms[i] == Message(TOOL, results[i], ids[i], calls[i].name, [])
  {
    seq(|calls|, i requires 0 <= i < |calls| => Message(TOOL, results[i], ids[i], calls[i].name, []))
  }

  function RoundMessages(r: Round): seq<Message> {
    [Message(ASSISTANT, r.content, "", "", r.calls)] + ToolMessages(r.calls, r.ids, r.results)
  }

  // The fixed instruction, and the goal in its fixed wording.
  function Opening(instruction: string, goal: string): seq<Message> {
    [Plain(SYSTEM, instruction), Plain(USER, goal)]
  }

  function Grown(opening: seq<Message>, rounds: seq<Round>): seq<Message> {
    if rounds == [] then opening
    else Grown(opening, rounds[..|rounds| - 1]) + RoundMessages(rounds[|rounds| - 1])
  }

  function ToolBytes(ms: seq<Message>): nat {
    if ms == [] then 0
    else ToolBytes(ms[..|ms| - 1]) + (if ms[|ms| - 1].role == TOOL then |ms[|ms| - 1].content| else 0)
  }

  // ---- the loop ----

  datatype Reply = Refused | Answer(content: string, calls: seq<ToolCall>)

  predicate Blank(s: string) {
    forall c :: c in s ==> c in " \t\n\r"
  }

  // The ID a result is filed under: the provider's, or one made from the running count.
  function FiledId(call: ToolCall, made: string): string {
    if call.id == "" then made else call.id
  }

  // How much output call number |ran| + 1 may keep, after a transcript of `used` bytes.
  function LimitAfter(used: nat): int {
    Min(MAX_OUTPUT, MAX_TRANSCRIPT - used)
  }

  function Total(results: seq<string>): nat {
    if results == [] then 0 else Total(results[..|results| - 1]) + |results[|results| - 1]|
  }

  // The results of executing the calls in `ran`, in order, from the start of the run.
  function AllResults(ran: seq<ToolCall>, envs: nat -> Env): seq<string> {
    if ran == [] then []
    else
      var n := |ran| - 1;
      var before := AllResults(ran[..n], envs);
      before + [CommandResult(ran[n], envs(n + 1), LimitAfter(Total(before)))]
  }

  // The bytes those results add to the transcript.
  function Transcript(ran: seq<ToolCall>, envs: nat -> Env): nat {
    Total(AllResults(ran, envs))
  }

  // Output that fits 32 KiB and what is left of 128 KiB comes back whole.
  lemma FittingOutputIsWhole(call: ToolCall, env: Env, used: nat)
    requires Executes(call, env) && !env.fails
    requires |Concat(env.writes)| <= 32768 && used + |Concat(env.writes)| <= 131072
    ensures CommandResult(call, env, LimitAfter(used)) == Concat(env.writes)
  {
    ResultSays(call, env, LimitAfter(used));
    assert "" + Concat(env.writes) == Concat(env.writes);
  }

  // The bytes of command output in those results.
  function Kept(ran: seq<ToolCall>, envs: nat -> Env): nat {
    if ran == [] then 0
    else
      var n := |ran| - 1;
      Kept(ran[..n], envs) + |CommandOutput(ran[n], envs(n + 1), LimitAfter(Transcript(ran[..n], envs)))|
  }

  // What the loop counts: calls executed and bytes of tool messages; and what it does not
  // count but bounds, the bytes of command output kept.
  datatype Budget = Budget(executed: nat, transcript: nat, kept: nat)

  // b is what executing the calls in `ran` costs.
  predicate Accounts(b: Budget, ran: seq<ToolCall>, envs: nat -> Env) {
    b.executed == |ran| && b.transcript == Transcript(ran, envs) && b.kept == Kept(ran, envs)
  }

  predicate InBudget(b: Budget) {
    b.executed <= MAX_TOOL_CALLS && b.kept <= b.transcript && b.kept <= MAX_TRANSCRIPT
  }

  predicate Spent(b: Budget) {
    b.executed >= MAX_TOOL_CALLS || b.transcript >= MAX_TRANSCRIPT
  }

  lemma TotalSnoc(results: seq<string>, result: string)
    ensures Total(results + [result]) == Total(results) + |result|
  {
    assert (results + [result])[..|results|] == results;
  }

  lemma RanOneMore(ran: seq<ToolCall>, call: ToolCall, envs: nat -> Env)
    ensures var env, limit := envs(|ran| + 1), LimitAfter(Transcript(ran, envs));
            && AllResults(ran + [call], envs) == AllResults(ran, envs) + [CommandResult(call, env, limit)]
            && Kept(ran + [call], envs) == Kept(ran, envs) + |CommandOutput(call, env, limit)|
  {
    assert (ran + [call])[..|ran|] == ran;
  }

  lemma Charged(b: Budget, ran: seq<ToolCall>, call: ToolCall, envs: nat -> Env)
    requires Accounts(b, ran, envs)
    ensures var env, limit := envs(b.executed + 1), LimitAfter(b.transcript);
            var result, kept := CommandResult(call, env, limit), |CommandOutput(call, env, limit)|;
            && AllResults(ran + [call], envs) == AllResults(ran, envs) + [result]
            && Accounts(Budget(b.executed + 1, b.transcript + |result|, b.kept + kept), ran + [call], envs)
  {
    RanOneMore(ran, call, envs);
    TotalSnoc(AllResults(ran, envs), CommandResult(call, envs(b.executed + 1), LimitAfter(b.transcript)));
  }

  lemma {:induction false} OneResultEach(ran: seq<ToolCall>, envs: nat -> Env)
    ensures |AllResults(ran, envs)| == |ran|
  {
    if ran != [] { OneResultEach(ran[..|ran| - 1], envs); }
  }

  // Result i of all is what call i gives at the limit the results before it leave.
  predicate IsResult(all: seq<string>, i: nat, call: ToolCall, env: Env) {
    i < |all| && all[i] == CommandResult(call, env, LimitAfter(Total(all[..i])))
  }

  lemma IsResultOfMore(all: seq<string>, more: string, i: nat, call: ToolCall, env: Env)
    requires IsResult(all, i, call, env)
    ensures IsResult(all + [more], i, call, env)
  {
    assert (all + [more])[..i] == all[..i];
  }

  lemma LastIsResult(all: seq<string>, call: ToolCall, env: Env)
    ensures IsResult(all + [CommandResult(call, env, LimitAfter(Total(all)))], |all|, call, env)
  {
    assert (all + [CommandResult(call, env, LimitAfter(Total(all)))])[..|all|] == all;
  }

  lemma {:induction false} ResultAt(ran: seq<ToolCall>, envs: nat -> Env, i: nat)
    requires i < |ran|
    ensures IsResult(AllResults(ran, envs), i, ran[i], envs(i + 1))
  {
    var n := |ran| - 1;
    var before := AllResults(ran[..n], envs);
    var last := CommandResult(ran[n], envs(n + 1), LimitAfter(Total(before)));
    if i < n {
      ResultAt(ran[..n], envs, i);
      IsResultOfMore(before, last, i, ran[i], envs(i + 1));
    } else {
      OneResultEach(ran[..n], envs);
      LastIsResult(before, ran[n], envs(n + 1));
    }
  }

  // A call that is within budget, after those in `ran`.
  method Execute(call: ToolCall, start: Budget, ghost ran: seq<ToolCall>, ghost envs: nat -> Env, env: Env)
    returns (b: Budget, result: string)
    requires InBudget(start) && !Spent(start) && Accounts(start, ran, envs) && env == envs(start.executed + 1)
    ensures InBudget(b) && AllResults(ran + [call], envs) == AllResults(ran, envs) + [result]
    ensures Accounts(b, ran + [call], envs) && b.transcript == start.transcript + |result|
  {
    var limit := MAX_OUTPUT;
    if MAX_TRANSCRIPT - start.transcript < limit { limit := MAX_TRANSCRIPT - start.transcript; }
    var kept;
    result, kept := ExecuteWorkspaceCommand(call, env, limit);
    Charged(start, ran, call, envs);
    b := Budget(start.executed + 1, start.transcript + |result|, start.kept + kept);
  }

  // Nothing happens once a budget is spent.
  method RunCall(call: ToolCall, start: Budget, ghost ran: seq<ToolCall>, ghost envs: nat -> Env, env: Env,
                 made: string)
    returns (b: Budget, within: bool, id: string, result: string)
    requires InBudget(start) && Accounts(start, ran, envs) && env == envs(start.executed + 1)
    ensures InBudget(b) && (within <==> !Spent(start))
    ensures !within ==> b == start
    ensures within ==> id == FiledId(call, made) && AllResults(ran + [call], envs) == AllResults(ran, envs) + [result]
    ensures within ==> Accounts(b, ran + [call], envs) && b.transcript == start.transcript + |result|
  {
    b, within, id, result := start, false, "", "";
    if start.executed + 1 > MAX_TOOL_CALLS { return; }
    id := if call.id == "" then made else call.id;
    if MAX_TRANSCRIPT - start.transcript <= 0 { return; }
    b, result := Execute(call, start, ran, envs, env);
    within := true;
  }

  // ---- one reply's calls ----

  // What the results of a reply's calls are filed under, `before` calls having been
  // executed earlier.
  predicate Filed(ids: seq<string>, calls: seq<ToolCall>, before: nat, made: nat -> string) {
    |ids| <= |calls| && forall j :: 0 <= j < |ids| ==> ids[j] == FiledId(calls[j], made(before + j + 1))
  }

  // The results of the calls in `ran` that come after those in `before`.
  predicate Resulted(results: seq<string>, before: seq<ToolCall>, ran: seq<ToolCall>, envs: nat -> Env) {
    AllResults(before, envs) + results == AllResults(ran, envs)
  }

  predicate Reported(ms: seq<Message>, calls: seq<ToolCall>, ids: seq<string>, results: seq<string>) {
    |ms| == |ids| == |results| <= |calls|
    && forall k :: 0 <= k < |ms| ==> ms[k] == Message(TOOL, results[k], ids[k], calls[k].name, [])
  }

  lemma PrefixSnoc<T>(a: seq<T>, s: seq<T>, n: nat)
    requires n < |s|
    ensures |a + s[..n]| == |a| + n && a + s[..n + 1] == a + s[..n] + [s[n]]
  {
  }

  // The messages for the first |ids| calls, and what they are filed under.
  predicate FiledReports(ms: seq<Message>, calls: seq<ToolCall>, ids: seq<string>, results: seq<string>, before: nat,
                         made: nat -> string) {
    Reported(ms, calls, ids, results) && Filed(ids, calls, before, made)
  }

  lemma FiledReportsSnoc(ms: seq<Message>, calls: seq<ToolCall>, ids: seq<string>, results: seq<string>, before: nat,
                         made: nat -> string,
                         id: string, result: string, number: nat)
    requires FiledReports(ms, calls, ids, results, before, made) && |ids| < |calls|
    requires number == before + |ids| + 1 && id == FiledId(calls[|ids|], made(number))
    ensures FiledReports(ms + [Message(TOOL, result, id, calls[|ids|].name, [])], calls, ids + [id],
            results + [result], before, made)
  {
  }

  lemma ResultedSnoc(results: seq<string>, before: seq<ToolCall>, ran: seq<ToolCall>, envs: nat -> Env, call: ToolCall,
                     result: string)
    requires Resulted(results, before, ran, envs) && AllResults(ran + [call], envs) == AllResults(ran, envs) + [result]
    ensures Resulted(results + [result], before, ran + [call], envs)
  {
    Regroup(AllResults(before, envs), results, [result]);
  }

  // Where a reply's calls stand: those in `ran` are executed, `before` in earlier turns.
  predicate Standing(b: Budget, start: Budget, calls: seq<ToolCall>, before: seq<ToolCall>, ran: seq<ToolCall>,
                     ids: seq<string>, results: seq<string>, reports: seq<Message>, envs: nat -> Env,
                       made: nat -> string) {
    && FiledReports(reports, calls, ids, results, |before|, made)
    && ran == before + calls[..|ids|] && |ran| == |before| + |ids| && Resulted(results, before, ran, envs)
    && InBudget(b) && Accounts(b, ran, envs) && b.transcript == start.transcript + Total(results)
  }

  // The calls of one reply, in order; stops early when a budget runs out.
  method RunCalls(calls: seq<ToolCall>, start: Budget, ghost before: seq<ToolCall>, envs: nat -> Env,
                  made: nat -> string)
    returns (b: Budget, ids: seq<string>, results: seq<string>, reports: seq<Message>)
    requires InBudget(start) && Accounts(start, before, envs)
    ensures |ids| <= |calls|
            && Standing(b, start, calls, before, before + calls[..|ids|], ids, results, reports, envs, made)
    ensures |ids| < |calls| ==> Spent(b)
  {
    b, ids, results, reports := start, [], [], [];
    ghost var ran := before;
    for j := 0 to |calls|
      invariant |ids| == j && Standing(b, start, calls, before, ran, ids, results, reports, envs, made)
    {
      var within, id, result;
      b, within, id, result, ran := NextCall(calls, j, b, start, before, ran, ids, results, reports, envs, made);
      if !within { return; }
      reports := reports + [Message(TOOL, result, id, calls[j].name, [])];
      ids, results := ids + [id], results + [result];
    }
  }

  method NextCall(calls: seq<ToolCall>, j: nat, was: Budget, ghost start: Budget, ghost before: seq<ToolCall>,
                  ghost ranBefore: seq<ToolCall>,
                  ghost ids: seq<string>, ghost results: seq<string>, ghost reports: seq<Message>, envs: nat -> Env,
                    made: nat -> string)
    returns (b: Budget, within: bool, id: string, result: string, ghost ran: seq<ToolCall>)
    requires |ids| == j < |calls| && Standing(was, start, calls, before, ranBefore, ids, results, reports, envs, made)
    ensures within <==> !Spent(was)
    ensures !within ==> b == was && ran == ranBefore
    ensures within ==> Standing(b, start, calls, before, ran, ids + [id], results + [result],
                                reports + [Message(TOOL, result, id, calls[j].name, [])], envs, made)
  {
    ran := ranBefore;
    var number := was.executed + 1;
    b, within, id, result := RunCall(calls[j], was, ran, envs, envs(number), made(number));
    if !within { return; }
    PrefixSnoc(before, calls, j);
    FiledReportsSnoc(reports, calls, ids, results, |before|, made, id, result, number);
    ResultedSnoc(results, before, ran, envs, calls[j], result);
    TotalSnoc(results, result);
    ran := ran + [calls[j]];
  }

  // ---- what the tool messages of a conversation add up to ----

  function ToolCount(ms: seq<Message>): nat {
    if ms == [] then 0 else ToolCount(ms[..|ms| - 1]) + if ms[|ms| - 1].role == TOOL then 1 else 0
  }

  lemma ToolsSnoc(ms: seq<Message>, m: Message)
    ensures ToolBytes(ms + [m]) == ToolBytes(ms) + if m.role == TOOL then |m.content| else 0
    ensures ToolCount(ms + [m]) == ToolCount(ms) + if m.role == TOOL then 1 else 0
  {
    assert (ms + [m])[..|ms|] == ms;
  }

  lemma {:induction false} ReportsCost(ms: seq<Message>, reports: seq<Message>, calls: seq<ToolCall>, ids: seq<string>,
                                       results: seq<string>)
    requires Reported(reports, calls, ids, results)
    ensures ToolBytes(ms + reports) == ToolBytes(ms) + Total(results)
    ensures ToolCount(ms + reports) == ToolCount(ms) + |ids|
    decreases |reports|
  {
    if reports == [] {
      assert ms + reports == ms;
    } else {
      var n := |reports| - 1;
      ReportsCost(ms, reports[..n], calls, ids[..n], results[..n]);
      assert ms + reports == (ms + reports[..n]) + [reports[n]];
      ToolsSnoc(ms + reports[..n], reports[n]);
    }
  }

  // The counters agree with the conversation itself.
  predicate Adds(b: Budget, ms: seq<Message>) {
    b.executed == ToolCount(ms) && b.transcript == ToolBytes(ms)
  }

  // ---- the run as a whole ----

  function AllCalls(rounds: seq<Round>): seq<ToolCall> {
    if rounds == [] then [] else AllCalls(rounds[..|rounds| - 1]) + rounds[|rounds| - 1].calls
  }

  // Every result is what its command gave at the limit it was run with, filed under its ID.
  predicate FiledInOrder(rounds: seq<Round>, envs: nat -> Env, made: nat -> string) {
    rounds == [] || (
      var last, before := rounds[|rounds| - 1], AllCalls(rounds[..|rounds| - 1]);
      && FiledInOrder(rounds[..|rounds| - 1], envs, made)
      && Filed(last.ids, last.calls, |before|, made) && Resulted(last.results, before, before + last.calls, envs))
  }

  // The completed rounds are the replies given, in order.
  predicate Follow(rounds: seq<Round>, replies: nat -> Reply) {
    forall k :: 0 <= k < |rounds| ==> replies(k) == Answer(rounds[k].content, rounds[k].calls)
  }

  // Request k was made with the opening and the first k rounds.
  predicate Asked(requests: seq<seq<Message>>, opening: seq<Message>, rounds: seq<Round>) {
    |rounds| <= |requests| <= |rounds| + 1
    && forall k :: 0 <= k < |requests| ==> requests[k] == Grown(opening, rounds[..k])
  }

  // The conversation between turns.
  datatype Talk = Talk(messages: seq<Message>, requests: seq<seq<Message>>, rounds: seq<Round>)

  // What the world answers: replies by turn, command outcomes and made-up IDs by call.
  datatype World = World(replies: nat -> Reply, envs: nat -> Env, made: nat -> string)

  predicate Consistent(t: Talk, opening: seq<Message>, w: World) {
    && t.messages == Grown(opening, t.rounds) && Asked(t.requests, opening, t.rounds)
    && Follow(t.rounds, w.replies) && FiledInOrder(t.rounds, w.envs, w.made)
  }

  lemma AskAgain(t: Talk, opening: seq<Message>, w: World)
    requires Consistent(t, opening, w) && |t.requests| == |t.rounds|
    ensures Consistent(t.(requests := t.requests + [t.messages]), opening, w)
  {
    assert t.rounds[..|t.rounds|] == t.rounds;
  }

  lemma AskedStays(requests: seq<seq<Message>>, opening: seq<Message>, rounds: seq<Round>, r: Round)
    requires Asked(requests, opening, rounds) && |requests| == |rounds| + 1
    ensures Asked(requests, opening, rounds + [r])
  {
    assert forall k :: 0 <= k <= |rounds| ==> (rounds + [r])[..k] == rounds[..k];
  }

  lemma RoundAdded(opening: seq<Message>, rounds: seq<Round>, r: Round, envs: nat -> Env, made: nat -> string)
    ensures Grown(opening, rounds + [r]) == Grown(opening, rounds) + RoundMessages(r)
    ensures AllCalls(rounds + [r]) == AllCalls(rounds) + r.calls
    ensures Filed(r.ids, r.calls, |AllCalls(rounds)|, made)
            && Resulted(r.results, AllCalls(rounds), AllCalls(rounds) + r.calls, envs) ==>
              (FiledInOrder(rounds + [r], envs, made) <==> FiledInOrder(rounds, envs, made))
  {
    assert (rounds + [r])[..|rounds|] == rounds;
  }

  lemma AddRound(t: Talk, opening: seq<Message>, w: World, r: Round, said: seq<Message>)
    requires Consistent(t, opening, w) && |t.requests| == |t.rounds| + 1
    requires w.replies(|t.rounds|) == Answer(r.content, r.calls)
    requires Filed(r.ids, r.calls, |AllCalls(t.rounds)|, w.made)
             && Resulted(r.results, AllCalls(t.rounds), AllCalls(t.rounds) + r.calls, w.envs)
    requires said == t.messages + RoundMessages(r)
    ensures Consistent(Talk(said, t.requests, t.rounds + [r]), opening, w)
    ensures AllCalls(t.rounds + [r]) == AllCalls(t.rounds) + r.calls
  {
    AskedStays(t.requests, opening, t.rounds, r);
    RoundAdded(opening, t.rounds, r, w.envs, w.made);
  }

  // A turn cut short: the assistant message, then the results of its first |ids| calls.
  ghost predicate CutShort(said: seq<Message>, messages: seq<Message>, content: string, calls: seq<ToolCall>,
                           before: seq<ToolCall>,
                     w: World, b: Budget) {
    exists ids, results, reports ::
      && Reported(reports, calls, ids, results) && |ids| < |calls| && Spent(b)
      && Filed(ids, calls, |before|, w.made) && Resulted(results, before, before + calls[..|ids|], w.envs)
      && said == messages + [Message(ASSISTANT, content, "", "", calls)] + reports
      && Accounts(b, before + calls[..|ids|], w.envs)
  }

  lemma FullReport(messages: seq<Message>, r: Round, reports: seq<Message>)
    requires Reported(reports, r.calls, r.ids, r.results)
    ensures messages + [Message(ASSISTANT, r.content, "", "", r.calls)] + reports == messages + RoundMessages(r)
  {
    assert reports == ToolMessages(r.calls, r.ids, r.results);
  }

  // One turn that asked for tools; None when a budget ran out before its last call.
  method RunTurn(content: string, calls: seq<ToolCall>, messages: seq<Message>, start: Budget,
                 ghost before: seq<ToolCall>, w: World)
    returns (b: Budget, grown: seq<Message>, round: Option<Round>)
    requires InBudget(start) && Accounts(start, before, w.envs) && Adds(start, messages) && calls != []
    ensures InBudget(b) && Adds(b, grown)
    ensures round.None? ==> CutShort(grown, messages, content, calls, before, w, b)
    ensures round.Some? ==>
              && round.value.content == content && round.value.calls == calls
                && grown == messages + RoundMessages(round.value)
              && Filed(round.value.ids, calls, |before|, w.made)
                && Resulted(round.value.results, before, before + calls, w.envs)
              && Accounts(b, before + calls, w.envs)
  {
    var assistant := Message(ASSISTANT, content, "", "", calls);
    var ids, results, reports;
    b, ids, results, reports := RunCalls(calls, start, before, w.envs, w.made);
    grown := messages + [assistant] + reports;
    ToolsSnoc(messages, assistant);
    ReportsCost(messages + [assistant], reports, calls, ids, results);
    if |ids| < |calls| { return b, grown, None; }
    assert calls[..|ids|] == calls;
    round := Some(Round(content, calls, ids, results));
    FullReport(messages, round.value, reports);
  }

  lemma OpeningHasNoTools(instruction: string, goal: string)
    ensures ToolBytes(Opening(instruction, goal)) == 0 && ToolCount(Opening(instruction, goal)) == 0
  {
    var ms := Opening(instruction, goal);
    assert ms == [] + [ms[0]] + [ms[1]];
    ToolsSnoc([], ms[0]);
    ToolsSnoc([] + [ms[0]], ms[1]);
  }

  predicate Succeeds(reply: Reply) {
    reply.Answer? && reply.calls == [] && !Blank(reply.content)
  }

  // Why the loop ended: the last reply was refused or asked for nothing, a budget ran out
  // among its calls, or the last turn was used up. There is no other way.
  ghost predicate Ended(t: Talk, spent: Budget, said: seq<Message>, w: World) {
    var ran := AllCalls(t.rounds);
    if |t.requests| == |t.rounds| then
      |t.requests| == MAX_TURNS && said == t.messages && Accounts(spent, ran, w.envs)
    else
      var reply := w.replies(|t.rounds|);
      if reply.Refused? || reply.calls == [] then said == t.messages && Accounts(spent, ran, w.envs)
      else CutShort(said, t.messages, reply.content, reply.calls, ran, w, spent)
  }

  // The budget bound, of the calls really executed: `ran` are those of the completed
  // rounds and then those of a turn cut short.
  lemma ExecutedCallsAreWithinBudget(t: Talk, spent: Budget, said: seq<Message>, w: World) returns (ran: seq<ToolCall>)
    requires InBudget(spent) && Adds(spent, said) && Ended(t, spent, said, w)
    ensures AllCalls(t.rounds) <= ran && |ran| == ToolCount(said) <= MAX_TOOL_CALLS
    ensures Total(AllResults(ran, w.envs)) == ToolBytes(said) && Kept(ran, w.envs) <= MAX_TRANSCRIPT
  {
    ran := AllCalls(t.rounds);
    if |t.requests| != |t.rounds| {
      var reply := w.replies(|t.rounds|);
      if reply.Answer? && reply.calls != [] {
        var ids, results, reports :|
          && Reported(reports, reply.calls, ids, results) && |ids| < |reply.calls| && Spent(spent)
          && Filed(ids, reply.calls, |ran|, w.made) && Resulted(results, ran, ran + reply.calls[..|ids|], w.envs)
          && said == t.messages + [Message(ASSISTANT, reply.content, "", "", reply.calls)] + reports
          && Accounts(spent, ran + reply.calls[..|ids|], w.envs);
        ran := ran + reply.calls[..|ids|];
      }
    }
  }

  // A whole run: whether it is done, the turns asked, what it cost and what was said.
  method RunModelBootstrap(instruction: string, goal: string, w: World)
    returns (done: bool, t: Talk, spent: Budget, said: seq<Message>)
    ensures 0 < |t.requests| <= MAX_TURNS && InBudget(spent) && Adds(spent, said)
    ensures Consistent(t, Opening(instruction, goal), w) && Ended(t, spent, said, w)
    ensures t.requests[0] == [Message("system", instruction, "", "", []), Message("user", goal, "", "", [])]
    ensures done <==> Succeeds(w.replies(|t.requests| - 1))
  {
    OpeningHasNoTools(instruction, goal);
    done, t, spent, said := Converse(Opening(instruction, goal), w);
  }

  method Converse(opening: seq<Message>, w: World) returns (done: bool, t: Talk, spent: Budget, said: seq<Message>)
    requires Adds(Budget(0, 0, 0), opening)
    ensures 0 < |t.requests| <= MAX_TURNS && InBudget(spent) && Adds(spent, said)
    ensures Consistent(t, opening, w) && Ended(t, spent, said, w)
    ensures done <==> Succeeds(w.replies(|t.requests| - 1))
  {
    done, t, spent, said := false, Talk(opening, [], []), Budget(0, 0, 0), opening;
    for turn := 0 to MAX_TURNS
      invariant |t.requests| == |t.rounds| == turn && !done && said == t.messages
      invariant InBudget(spent) && Adds(spent, said) && Accounts(spent, AllCalls(t.rounds), w.envs)
      invariant Consistent(t, opening, w)
      invariant turn > 0 ==> !Succeeds(w.replies(turn - 1))
    {
      var goOn;
      done, t, spent, said, goOn := TakeTurn(opening, t, spent, w);
      if !goOn { return; }
    }
  }

  // One request and what follows from its reply.
  method TakeTurn(opening: seq<Message>, before: Talk, start: Budget, w: World)
    returns (done: bool, t: Talk, spent: Budget, said: seq<Message>, goOn: bool)
    requires |before.requests| == |before.rounds| && Consistent(before, opening, w)
    requires InBudget(start) && Adds(start, before.messages) && Accounts(start, AllCalls(before.rounds), w.envs)
    ensures |t.requests| == |before.requests| + 1 && Consistent(t, opening, w)
    ensures InBudget(spent) && Adds(spent, said)
    ensures done <==> Succeeds(w.replies(|before.requests|))
    ensures goOn ==>
              !done && |t.rounds| == |t.requests| && said == t.messages && Accounts(spent, AllCalls(t.rounds), w.envs)
    ensures !goOn ==> |t.rounds| < |t.requests| && Ended(t, spent, said, w)
  {
    AskAgain(before, opening, w);
    t := before.(requests := before.requests + [before.messages]);
    done, spent, said, goOn := false, start, t.messages, false;
    var reply := w.replies(|before.requests|);
    if reply.Refused? { return; }
    if |reply.calls| == 0 {
      done := !Blank(reply.content);
      return;
    }
    t, spent, said, goOn := UseTools(opening, t, reply, start, w);
  }

  // The request just made was answered with tool calls.
  method UseTools(opening: seq<Message>, before: Talk, reply: Reply, start: Budget, w: World)
    returns (t: Talk, spent: Budget, said: seq<Message>, goOn: bool)
    requires |before.requests| == |before.rounds| + 1 && Consistent(before, opening, w)
    requires reply == w.replies(|before.rounds|) && reply.Answer? && reply.calls != []
    requires InBudget(start) && Adds(start, before.messages) && Accounts(start, AllCalls(before.rounds), w.envs)
    ensures t.requests == before.requests && Consistent(t, opening, w)
    ensures InBudget(spent) && Adds(spent, said)
    ensures goOn ==> |t.rounds| == |t.requests| && said == t.messages && Accounts(spent, AllCalls(t.rounds), w.envs)
    ensures !goOn ==> |t.rounds| < |t.requests| && Ended(t, spent, said, w)
  {
    var round;
    t, goOn := before, false;
    spent, said, round := RunTurn(reply.content, reply.calls, t.messages, start, AllCalls(t.rounds), w);
    if round.None? { return; }
    AddRound(t, opening, w, round.value, said);
    t, goOn := Talk(said, t.requests, t.rounds + [round.value]), true;
  }

  // ---- what the Anthropic format sees at each request ----

  function RoundTurns(r: Round): seq<Turn> {
    [Turn(ASSISTANT, BlocksOf(Message(ASSISTANT, r.content, "", "", r.calls))),
     Turn(USER, Results(ToolMessages(r.calls, r.ids, r.results)))]
  }

  function TurnsOf(rounds: seq<Round>): seq<Turn> {
    if rounds == [] then [] else TurnsOf(rounds[..|rounds| - 1]) + RoundTurns(rounds[|rounds| - 1])
  }

  lemma EncodedTools(ms: seq<Message>)
    requires ms != [] && ms[0].role == TOOL
    ensures AnthropicEncoded(ms) == [Turn(USER, Results(ms[..ToolRun(ms)]))] + AnthropicEncoded(ms[ToolRun(ms)..])
  {
  }

  // What the encoder takes at a time: one message, or a run of tool messages.
  predicate Part(p: seq<Message>) {
    p != [] && ((|p| == 1 && p[0].role != TOOL) || forall j :: 0 <= j < |p| ==> p[j].role == TOOL)
  }

  function PartTurns(p: seq<Message>): seq<Turn>
    requires Part(p)
  {
    if p[0].role == SYSTEM then []
    else if p[0].role == TOOL then [Turn(USER, Results(p))]
    else [Turn(p[0].role, BlocksOf(p[0]))]
  }

  predicate Follows(rest: seq<Message>, p: seq<Message>)
    requires p != []
  {
    p[0].role == TOOL && rest != [] ==> rest[0].role != TOOL
  }

  lemma EncodedMessage(m: Message, rest: seq<Message>)
    requires m.role != TOOL
    ensures AnthropicEncoded([m] + rest) == PartTurns([m]) + AnthropicEncoded(rest)
  {
    assert ([m] + rest)[1..] == rest && [] + AnthropicEncoded(rest) == AnthropicEncoded(rest);
  }

  lemma EncodedRun(p: seq<Message>, rest: seq<Message>)
    requires Part(p) && p[0].role == TOOL && Follows(rest, p)
    ensures AnthropicEncoded(p + rest) == PartTurns(p) + AnthropicEncoded(rest)
  {
    ToolRunIs(p + rest, |p|);
    assert (p + rest)[..|p|] == p && (p + rest)[|p|..] == rest;
    EncodedTools(p + rest);
  }

  lemma EncodedPart(p: seq<Message>, rest: seq<Message>)
    requires Part(p) && Follows(rest, p)
    ensures AnthropicEncoded(p + rest) == PartTurns(p) + AnthropicEncoded(rest)
  {
    if p[0].role == TOOL {
      EncodedRun(p, rest);
    } else {
      assert p == [p[0]];
      EncodedMessage(p[0], rest);
    }
  }

  lemma FirstPart(ms: seq<Message>) returns (p: seq<Message>, rest: seq<Message>)
    requires ms != []
    ensures Part(p) && Follows(rest, p) && ms == p + rest && |rest| < |ms|
  {
    var n := if ms[0].role == TOOL then ToolRun(ms) else 1;
    p, rest := ms[..n], ms[n..];
  }

  lemma PartThenBoth(p: seq<Message>, rest: seq<Message>, b: seq<Message>)
    requires Part(p) && Follows(rest, p) && Follows(rest + b, p)
    requires AnthropicEncoded(rest + b) == AnthropicEncoded(rest) + AnthropicEncoded(b)
    ensures AnthropicEncoded(p + rest + b) == AnthropicEncoded(p + rest) + AnthropicEncoded(b)
  {
    EncodedPart(p, rest);
    EncodedPart(p, rest + b);
    Regroup(p, rest, b);
    Regroup(PartTurns(p), AnthropicEncoded(rest), AnthropicEncoded(b));
  }

  // The first message of b does not continue a run of tool messages that ends a.
  lemma {:induction false} EncodingSplits(a: seq<Message>, b: seq<Message>)
    requires b == [] || b[0].role != TOOL
    ensures AnthropicEncoded(a + b) == AnthropicEncoded(a) + AnthropicEncoded(b)
    decreases |a|
  {
    if a == [] {
      assert a + b == b;
    } else {
      var p, rest := FirstPart(a);
      EncodingSplits(rest, b);
      PartThenBoth(p, rest, b);
    }
  }

  lemma RoundEncodes(r: Round)
    ensures AnthropicEncoded(RoundMessages(r)) == RoundTurns(r)
  {
    var tools := ToolMessages(r.calls, r.ids, r.results);
    ToolRunIs(tools, |tools|);
    assert tools[..|tools|] == tools && tools[|tools|..] == [];
    EncodedTools(tools);
    assert AnthropicEncoded(tools) == [Turn(USER, Results(tools))];
    assert RoundMessages(r)[1..] == tools;
  }

  lemma {:induction false} GrownEncodes(opening: seq<Message>, rounds: seq<Round>)
    ensures AnthropicEncoded(Grown(opening, rounds)) == AnthropicEncoded(opening) + TurnsOf(rounds)
  {
    if rounds == [] {
      assert AnthropicEncoded(opening) + [] == AnthropicEncoded(opening);
    } else {
      var before, last := rounds[..|rounds| - 1], rounds[|rounds| - 1];
      GrownEncodes(opening, before);
      EncodingSplits(Grown(opening, before), RoundMessages(last));
      RoundEncodes(last);
    }
  }

  lemma {:induction false} GrownIsOpeningAndMore(opening: seq<Message>, rounds: seq<Round>)
    ensures Grown(opening, rounds) == opening + Grown([], rounds)
  {
    if rounds != [] {
      GrownIsOpeningAndMore(opening, rounds[..|rounds| - 1]);
    }
  }

  // The turns a request carries: the goal, then two per completed round. The provider's
  // configured instruction, if any, only joins the system message.
  function SentTurns(instruction: string, goal: string, rounds: seq<Round>, configured: string): seq<Turn> {
    AnthropicEncoded(Effective(Request(Grown(Opening(instruction, goal), rounds), configured, "")))
  }

  lemma InstructionJoinsSystem(instruction: string, goal: string, more: seq<Message>, configured: string)
    ensures var joined := if configured == "" then instruction
            else Prefixed(Plain(SYSTEM, instruction), configured).content;
            Effective(Request(Opening(instruction, goal) + more, configured, "")) == Opening(joined, goal) + more
  {
    var ms := Opening(instruction, goal) + more;
    assert ms[0] == Plain(SYSTEM, instruction) && FirstSystem(ms) == 0;
    if configured != "" {
      var joined := Prefixed(ms[0], configured);
      assert joined == Plain(SYSTEM, joined.content);
      assert ms[0 := joined] == Opening(joined.content, goal) + more;
    }
  }

  lemma OpeningEncodes(instruction: string, goal: string)
    ensures AnthropicEncoded(Opening(instruction, goal)) == [Turn(USER, BlocksOf(Plain(USER, goal)))]
  {
    var ms := Opening(instruction, goal);
    var m := Plain(USER, goal);
    assert ms[1..] == [m] && [m][1..] == [];
    assert AnthropicEncoded([m]) == [Turn(USER, BlocksOf(m))] + AnthropicEncoded([]);
  }

  lemma SentTurnsAre(instruction: string, goal: string, rounds: seq<Round>, configured: string)
    ensures SentTurns(instruction, goal, rounds, configured)
            == [Turn(USER, BlocksOf(Plain(USER, goal)))] + TurnsOf(rounds)
  {
    var joined := if configured == "" then instruction else Prefixed(Plain(SYSTEM, instruction), configured).content;
    GrownIsOpeningAndMore(Opening(instruction, goal), rounds);
    InstructionJoinsSystem(instruction, goal, Grown([], rounds), configured);
    GrownIsOpeningAndMore(Opening(joined, goal), rounds);
    GrownEncodes(Opening(joined, goal), rounds);
    OpeningEncodes(joined, goal);
  }

  lemma {:induction false} TurnsOfAt(rounds: seq<Round>, k: nat)
    requires k < |rounds|
    ensures |TurnsOf(rounds)| == 2 * |rounds|
    ensures TurnsOf(rounds)[2 * k] == RoundTurns(rounds[k])[0] && TurnsOf(rounds)[2 * k + 1] == RoundTurns(rounds[k])[1]
  {
    var n := |rounds| - 1;
    if n > 0 { TurnsOfAt(rounds[..n], if k < n then k else 0); }
  }

  ghost predicate Alternates(ts: seq<Turn>) {
    forall i :: 0 <= i < |ts| ==> ts[i].role == if i % 2 == 0 then USER else ASSISTANT
  }

  // The turns after the first, by round.
  lemma TurnsAtRound(first: Turn, rounds: seq<Round>, k: nat)
    requires k < |rounds|
    ensures |[first] + TurnsOf(rounds)| == 2 * |rounds| + 1
    ensures ([first] + TurnsOf(rounds))[2 * k + 1] == RoundTurns(rounds[k])[0]
    ensures ([first] + TurnsOf(rounds))[2 * k + 2] == RoundTurns(rounds[k])[1]
  {
    TurnsOfAt(rounds, k);
  }

  lemma RoundsAlternate(first: Turn, rounds: seq<Round>)
    requires first.role == USER
    ensures Alternates([first] + TurnsOf(rounds)) && |[first] + TurnsOf(rounds)| == 2 * |rounds| + 1
  {
    var ts := [first] + TurnsOf(rounds);
    if rounds != [] { TurnsAtRound(first, rounds, 0); }
    forall i | 0 < i < |ts|
      ensures ts[i].role == if i % 2 == 0 then USER else ASSISTANT
    {
      var k := (i - 1) / 2;
      TurnsAtRound(first, rounds, k);
      assert i == 2 * k + 1 || i == 2 * k + 2;
    }
  }

  // Every request strictly alternates user and assistant, and ends with the user.
  lemma RequestsAlternate(instruction: string, goal: string, rounds: seq<Round>, configured: string)
    ensures Alternates(SentTurns(instruction, goal, rounds, configured))
    ensures |SentTurns(instruction, goal, rounds, configured)| == 2 * |rounds| + 1
  {
    SentTurnsAre(instruction, goal, rounds, configured);
    RoundsAlternate(Turn(USER, BlocksOf(Plain(USER, goal))), rounds);
  }

  function IdsOf(calls: seq<ToolCall>): (ids: seq<string>)
    ensures |ids| == |calls| && forall i :: 0 <= i < |ids| ==> ids[i] == calls[i].id
  {
    seq(|calls|, i requires 0 <= i < |calls| => calls[i].id)
  }

  function UseIds(t: Turn): seq<string> {
    IdsOf(CallsOf(t.blocks))
  }

  function ResultIds(blocks: seq<Block>): seq<string> {
    if blocks == [] then []
    else (if blocks[0].ToolResult? then [blocks[0].id] else []) + ResultIds(blocks[1..])
  }

  lemma {:induction false} ResultIdsOfResults(ms: seq<Message>, ids: seq<string>)
    requires |ids| == |ms| && forall i :: 0 <= i < |ms| ==> ms[i].toolCallId == ids[i]
    ensures ResultIds(Results(ms)) == ids
  {
    if ms != [] {
      assert Results(ms)[1..] == Results(ms[1..]);
      ResultIdsOfResults(ms[1..], ids[1..]);
      assert ids == [ids[0]] + ids[1..];
    }
  }

  lemma RoundIds(r: Round)
    ensures UseIds(RoundTurns(r)[0]) == IdsOf(r.calls) && ResultIds(RoundTurns(r)[1].blocks) == r.ids
  {
    var m := Message(ASSISTANT, r.content, "", "", r.calls);
    MessageTurnDecodes(m);
    assert BlocksOf(m)[0].ToolResult? == false;
    assert TurnDecoded(Turn(ASSISTANT, BlocksOf(m)))[0].toolCalls == FilledAll(r.calls);
    assert IdsOf(FilledAll(r.calls)) == IdsOf(r.calls);
    ResultIdsOfResults(ToolMessages(r.calls, r.ids, r.results), r.ids);
  }

  ghost predicate PairedAt(ts: seq<Turn>, i: nat) {
    i + 1 < |ts| && ts[i + 1].role == USER && UseIds(ts[i]) == ResultIds(ts[i + 1].blocks)
  }

  // Each assistant turn's tool uses are answered, in order, by the next user turn.
  ghost predicate Paired(ts: seq<Turn>) {
    forall i :: 0 <= i < |ts| && ts[i].role == ASSISTANT ==> PairedAt(ts, i)
  }

  ghost predicate FiledAsCalled(r: Round) {
    r.ids == IdsOf(r.calls)
  }

  lemma RoundPairedIff(first: Turn, rounds: seq<Round>, k: nat)
    requires k < |rounds|
    ensures var ts := [first] + TurnsOf(rounds);
            2 * k + 1 < |ts| && ts[2 * k + 1].role == ASSISTANT
              && (PairedAt(ts, 2 * k + 1) <==> FiledAsCalled(rounds[k]))
  {
    TurnsAtRound(first, rounds, k);
    RoundIds(rounds[k]);
  }

  lemma AssistantIsOfARound(ts: seq<Turn>, n: nat, i: nat) returns (k: nat)
    requires Alternates(ts) && |ts| == 2 * n + 1 && i < |ts| && ts[i].role == ASSISTANT
    ensures k < n && i == 2 * k + 1
  {
    k := i / 2;
  }

  lemma FiledAsCalledPairs(first: Turn, rounds: seq<Round>)
    requires first.role == USER && forall k :: 0 <= k < |rounds| ==> FiledAsCalled(rounds[k])
    ensures Paired([first] + TurnsOf(rounds))
  {
    var ts := [first] + TurnsOf(rounds);
    RoundsAlternate(first, rounds);
    forall i: nat | i < |ts| && ts[i].role == ASSISTANT
      ensures PairedAt(ts, i)
    {
      var k := AssistantIsOfARound(ts, |rounds|, i);
      RoundPairedIff(first, rounds, k);
    }
  }

  lemma PairedIsFiledAsCalled(first: Turn, rounds: seq<Round>, k: nat)
    requires Paired([first] + TurnsOf(rounds)) && k < |rounds|
    ensures FiledAsCalled(rounds[k])
  {
    RoundPairedIff(first, rounds, k);
  }

  lemma PairedIffFiledAsCalled(first: Turn, rounds: seq<Round>)
    requires first.role == USER
    ensures Paired([first] + TurnsOf(rounds)) <==> forall k :: 0 <= k < |rounds| ==> FiledAsCalled(rounds[k])
  {
    if forall k :: 0 <= k < |rounds| ==> FiledAsCalled(rounds[k]) {
      FiledAsCalledPairs(first, rounds);
    } else {
      var k :| 0 <= k < |rounds| && !FiledAsCalled(rounds[k]);
      if Paired([first] + TurnsOf(rounds)) { PairedIsFiledAsCalled(first, rounds, k); }
    }
  }

  predicate Named(r: Round) {
    forall j :: 0 <= j < |r.calls| ==> r.calls[j].id != ""
  }

  ghost predicate NeverEmpty(made: nat -> string) {
    forall n :: made(n) != ""
  }

  lemma {:induction false} FiledInOrderAt(rounds: seq<Round>, envs: nat -> Env, made: nat -> string, k: nat)
    requires FiledInOrder(rounds, envs, made) && k < |rounds|
    ensures Filed(rounds[k].ids, rounds[k].calls, |AllCalls(rounds[..k])|, made)
    ensures Resulted(rounds[k].results, AllCalls(rounds[..k]), AllCalls(rounds[..k]) + rounds[k].calls, envs)
  {
    var n := |rounds| - 1;
    if k < n {
      FiledInOrderAt(rounds[..n], envs, made, k);
      assert rounds[..n][..k] == rounds[..k];
    }
  }

  lemma InSecondPart<T>(a: seq<T>, b: seq<T>, j: nat)
    requires j < |b|
    ensures (a + b)[|a| + j] == b[j]
  {
  }

  // Result j of a reply is what its command gave, `before` calls having been executed
  // earlier, at the limit the results before it left.
  predicate GivesResult(result: string, before: seq<ToolCall>, calls: seq<ToolCall>, envs: nat -> Env, j: nat)
    requires j < |calls|
  {
    var n, all := |before| + j, AllResults(before + calls, envs);
    n < |all| && all[n] == result && IsResult(all, n, calls[j], envs(n + 1))
  }

  lemma ResultedAt(results: seq<string>, before: seq<ToolCall>, calls: seq<ToolCall>, envs: nat -> Env, j: nat)
    requires Resulted(results, before, before + calls, envs) && j < |results| == |calls|
    ensures GivesResult(results[j], before, calls, envs, j)
  {
    OneResultEach(before, envs);
    InSecondPart(AllResults(before, envs), results, j);
    InSecondPart(before, calls, j);
    ResultAt(before + calls, envs, |before| + j);
  }

  lemma ResultsAreTheCommands(rounds: seq<Round>, envs: nat -> Env, made: nat -> string, k: nat, j: nat)
    requires FiledInOrder(rounds, envs, made) && k < |rounds| && j < |rounds[k].calls|
    ensures GivesResult(rounds[k].results[j], AllCalls(rounds[..k]), rounds[k].calls, envs, j)
  {
    FiledInOrderAt(rounds, envs, made, k);
    ResultedAt(rounds[k].results, AllCalls(rounds[..k]), rounds[k].calls, envs, j);
  }

  lemma {:induction false} FiledInOrderSoFar(rounds: seq<Round>, envs: nat -> Env, made: nat -> string, k: nat)
    requires FiledInOrder(rounds, envs, made) && k <= |rounds|
    ensures FiledInOrder(rounds[..k], envs, made)
    decreases |rounds|
  {
    if k == |rounds| {
      assert rounds[..k] == rounds;
    } else {
      var n := |rounds| - 1;
      FiledInOrderSoFar(rounds[..n], envs, made, k);
      assert rounds[..n][..k] == rounds[..k];
    }
  }

  lemma FiledAsCalledIffNamed(r: Round, before: nat, made: nat -> string)
    requires Filed(r.ids, r.calls, before, made) && NeverEmpty(made)
    ensures FiledAsCalled(r) <==> Named(r)
  {
    if !Named(r) {
      var j :| 0 <= j < |r.calls| && r.calls[j].id == "";
      assert r.ids[j] != IdsOf(r.calls)[j];
    }
  }

  // A made-up ID is given to the result but not to the call it answers: the pairing
  // holds exactly when the provider named every call.
  lemma RequestsArePairedIffCallsAreNamed(instruction: string, goal: string, rounds: seq<Round>, configured: string,
                                          envs: nat -> Env, made: nat -> string)
    requires FiledInOrder(rounds, envs, made) && NeverEmpty(made)
    ensures Paired(SentTurns(instruction, goal, rounds, configured)) <==> forall k :: 0 <= k < |rounds| ==>
              Named(rounds[k])
  {
    SentTurnsAre(instruction, goal, rounds, configured);
    PairedIffFiledAsCalled(Turn(USER, BlocksOf(Plain(USER, goal))), rounds);
    forall k | 0 <= k < |rounds|
      ensures FiledAsCalled(rounds[k]) <==> Named(rounds[k])
    {
      FiledInOrderAt(rounds, envs, made, k);
      FiledAsCalledIffNamed(rounds[k], |AllCalls(rounds[..k])|, made);
    }
  }

  // What the Anthropic client sends for one request.
  function Sent(request: seq<Message>, configured: string): seq<Turn> {
    AnthropicEncoded(Effective(Request(request, configured, "")))
  }

  predicate NamedReply(reply: Reply) {
    reply.Answer? ==> forall j :: 0 <= j < |reply.calls| ==> reply.calls[j].id != ""
  }

  lemma RequestIsOfRounds(t: Talk, instruction: string, goal: string, w: World, configured: string, k: nat)
    requires Consistent(t, Opening(instruction, goal), w) && k < |t.requests|
    ensures Sent(t.requests[k], configured) == SentTurns(instruction, goal, t.rounds[..k], configured)
    ensures FiledInOrder(t.rounds[..k], w.envs, w.made)
  {
    assert t.requests[k] == Grown(Opening(instruction, goal), t.rounds[..k]);
    FiledInOrderSoFar(t.rounds, w.envs, w.made, k);
  }

  lemma NamedReplies(rounds: seq<Round>, replies: nat -> Reply, k: nat)
    requires Follow(rounds, replies) && k <= |rounds|
    ensures (forall i :: 0 <= i < k ==> Named(rounds[..k][i])) <==> forall i :: 0 <= i < k ==> NamedReply(replies(i))
  {
    forall i | 0 <= i < k
      ensures Named(rounds[..k][i]) <==> NamedReply(replies(i))
    {
      assert replies(i) == Answer(rounds[i].content, rounds[i].calls);
    }
  }

  // Of every request a run makes: it alternates, and it pairs exactly when every reply
  // before it named its calls.
  lemma EveryRequestAlternatesAndPairs(t: Talk, instruction: string, goal: string, w: World, configured: string, k: nat)
    requires Consistent(t, Opening(instruction, goal), w) && NeverEmpty(w.made) && k < |t.requests|
    ensures Alternates(Sent(t.requests[k], configured)) && |Sent(t.requests[k], configured)| == 2 * k + 1
    ensures Paired(Sent(t.requests[k], configured)) <==> forall i :: 0 <= i < k ==> NamedReply(w.replies(i))
  {
    RequestIsOfRounds(t, instruction, goal, w, configured, k);
    RequestsAlternate(instruction, goal, t.rounds[..k], configured);
    RequestsArePairedIffCallsAreNamed(instruction, goal, t.rounds[..k], configured, w.envs, w.made);
    NamedReplies(t.rounds, w.replies, k);
  }
}
