// The bridge from JSON to YAML: a token reader that builds a node tree, keeping key order
// and tagging scalars so that they read back as what they were.
module YamlNodes {
  import opened Api

  datatype Member = Member(key: string, value: Json)

  // A JSON value; numbers keep their text.
  datatype Json = Object(members: seq<Member>) | Array(elements: seq<Json>)
                | Text(text: string) | Number(literal: string) | Bool(on: bool) | Null

  // What the decoder hands out. Commas and colons are not tokens.
  datatype Token = OpenBrace | CloseBrace | OpenBracket | CloseBracket
                 | TextToken(text: string) | NumberToken(literal: string) | BoolToken(on: bool) | NullToken

  datatype Node = Mapping(content: seq<Node>) | Sequence(content: seq<Node>) | Scalar(tag: string, value: string)

  const STR := "!!str"
  const TIMESTAMP := "!!timestamp"
  const INT := "!!int"
  const FLOAT := "!!float"
  const BOOL := "!!bool"
  const NULL := "!!null"

  // ---- printing a value as tokens ----

  function Tokens(v: Json): seq<Token>
    decreases v
  {
    match v
    case Object(ms) => [OpenBrace] + MemberTokens(ms) + [CloseBrace]
    case Array(es) => [OpenBracket] + ElementTokens(es) + [CloseBracket]
    case Text(s) => [TextToken(s)]
    case Number(s) => [NumberToken(s)]
    case Bool(b) => [BoolToken(b)]
    case Null => [NullToken]
  }

  function MemberTokens(ms: seq<Member>): seq<Token>
    decreases ms
  {
    if ms == [] then [] else [TextToken(ms[0].key)] + Tokens(ms[0].value) + MemberTokens(ms[1..])
  }

  function ElementTokens(es: seq<Json>): seq<Token>
    decreases es
  {
    if es == [] then [] else Tokens(es[0]) + ElementTokens(es[1..])
  }

  // ---- the node tree of a value ----

  function Key(key: string): Node {
    Scalar(STR, key)
  }

  function TextNode(isTime: string -> bool, s: string): Node {
    Scalar(if isTime(s) then TIMESTAMP else STR, s)
  }

  predicate HasPointOrExponent(s: string) {
    '.' in s || 'e' in s || 'E' in s
  }

  function NumberNode(s: string): Node {
    Scalar(if HasPointOrExponent(s) then FLOAT else INT, s)
  }

  function BoolNode(b: bool): Node {
    Scalar(BOOL, if b then "true" else "false")
  }

  const NULL_NODE := Scalar(NULL, "null")

  function NodeOf(isTime: string -> bool, v: Json): Node
    decreases v
  {
    match v
    case Object(ms) => Mapping(PairsOf(isTime, ms))
    case Array(es) => Sequence(NodesOf(isTime, es))
    case Text(s) => TextNode(isTime, s)
    case Number(s) => NumberNode(s)
    case Bool(b) => BoolNode(b)
    case Null => NULL_NODE
  }

  function PairsOf(isTime: string -> bool, ms: seq<Member>): seq<Node>
    decreases ms
  {
    if ms == [] then [] else [Key(ms[0].key), NodeOf(isTime, ms[0].value)] + PairsOf(isTime, ms[1..])
  }

  function NodesOf(isTime: string -> bool, es: seq<Json>): seq<Node>
    decreases es
  {
    if es == [] then [] else [NodeOf(isTime, es[0])] + NodesOf(isTime, es[1..])
  }

  // ---- the reader as a function of the tokens ----

  datatype Reading = Built(node: Node, rest: seq<Token>) | Broken

  predicate More(ts: seq<Token>) {
    ts != [] && ts[0] != CloseBrace && ts[0] != CloseBracket
  }

  // A key that is not a string counts as the empty one.
  function KeyText(t: Token): string {
    if t.TextToken? then t.text else ""
  }

  function ReadValue(isTime: string -> bool, ts: seq<Token>): (r: Reading)
    ensures r.Built? ==> |r.rest| < |ts|
    decreases |ts|, 0
  {
    if ts == [] then Broken
    else match ts[0]
      case OpenBrace => ReadMembers(isTime, ts[1..], [])
      case OpenBracket => ReadElements(isTime, ts[1..], [])
      case CloseBrace => Broken
      case CloseBracket => Broken
      case TextToken(s) => Built(TextNode(isTime, s), ts[1..])
      case NumberToken(s) => Built(NumberNode(s), ts[1..])
      case BoolToken(b) => Built(BoolNode(b), ts[1..])
      case NullToken => Built(NULL_NODE, ts[1..])
  }

  function ReadMembers(isTime: string -> bool, ts: seq<Token>, content: seq<Node>): (r: Reading)
    ensures r.Built? ==> |r.rest| < |ts|
    decreases |ts|, 1
  {
    if ts == [] then Broken
    else if !More(ts) then Built(Mapping(content), ts[1..])
    else match ReadValue(isTime, ts[1..])
      case Broken => Broken
      case Built(node, rest) => ReadMembers(isTime, rest, content + [Key(KeyText(ts[0])), node])
  }

  function ReadElements(isTime: string -> bool, ts: seq<Token>, content: seq<Node>): (r: Reading)
    ensures r.Built? ==> |r.rest| < |ts|
    decreases |ts|, 1
  {
    if ts == [] then Broken
    else if !More(ts) then Built(Sequence(content), ts[1..])
    else match ReadValue(isTime, ts)
      case Broken => Broken
      case Built(node, rest) => ReadElements(isTime, rest, content + [node])
  }

  // ---- the reader as it runs ----

  class Decoder {
    var tokens: seq<Token>

    constructor (tokens: seq<Token>)
      ensures this.tokens == tokens
    {
      this.tokens := tokens;
    }

    // None at the end of the input.
    method Token() returns (t: Option<Token>)
      modifies this
      ensures old(tokens) == [] ==> t == None && tokens == []
      ensures old(tokens) != [] ==> t == Some(old(tokens)[0]) && tokens == old(tokens)[1..]
    {
      if tokens == [] { return None; }
      t, tokens := Some(tokens[0]), tokens[1..];
    }

    method ReadJSONValue(isTime: string -> bool) returns (n: Option<Node>)
      modifies this
      ensures var r := ReadValue(isTime, old(tokens));
              if r.Built? then n == Some(r.node) && tokens == r.rest else n == None
      decreases |tokens|, 0
    {
      var tok := Token();
      if tok.None? { return None; }
      match tok.value
      case OpenBrace => n := ReadMapping(isTime);
      case OpenBracket => n := ReadSequence(isTime);
      case CloseBrace => n := None;
      case CloseBracket => n := None;
      case TextToken(s) => n := Some(TextNode(isTime, s));
      case NumberToken(s) => n := Some(NumberNode(s));
      case BoolToken(b) => n := Some(BoolNode(b));
      case NullToken => n := Some(NULL_NODE);
    }

    // After an opening brace.
    method ReadMapping(isTime: string -> bool) returns (n: Option<Node>)
      modifies this
      ensures var r := ReadMembers(isTime, old(tokens), []);
              if r.Built? then n == Some(r.node) && tokens == r.rest else n == None
      decreases |tokens|, 1
    {
      var content := [];
      while More(tokens)
        invariant |tokens| <= |old(tokens)|
        invariant ReadMembers(isTime, tokens, content) == ReadMembers(isTime, old(tokens), [])
        decreases |tokens|
      {
        var keyTok := Token();
        var value := ReadJSONValue(isTime);
        if value.None? { return None; }
        content := content + [Key(KeyText(keyTok.value)), value.value];
      }
      var closing := Token();
      n := if closing.None? then None else Some(Mapping(content));
    }

    // After an opening bracket.
    method ReadSequence(isTime: string -> bool) returns (n: Option<Node>)
      modifies this
      ensures var r := ReadElements(isTime, old(tokens), []);
              if r.Built? then n == Some(r.node) && tokens == r.rest else n == None
      decreases |tokens|, 1
    {
      var content := [];
      while More(tokens)
        invariant |tokens| <= |old(tokens)|
        invariant ReadElements(isTime, tokens, content) == ReadElements(isTime, old(tokens), [])
        decreases |tokens|
      {
        var value := ReadJSONValue(isTime);
        if value.None? { return None; }
        content := content + [value.value];
      }
      var closing := Token();
      n := if closing.None? then None else Some(Sequence(content));
    }
  }

  // ---- reading undoes printing ----

  // Whatever follows a value's tokens is left alone.
  lemma {:induction false} ReaderUndoesPrinter(isTime: string -> bool, v: Json, suffix: seq<Token>)
    ensures ReadValue(isTime, Tokens(v) + suffix) == Built(NodeOf(isTime, v), suffix)
    decreases v
  {
    var ts := Tokens(v) + suffix;
    match v
    case Object(ms) =>
      assert ts[1..] == MemberTokens(ms) + [CloseBrace] + suffix;
      MembersRead(isTime, ms, [], suffix);
      assert [] + PairsOf(isTime, ms) == PairsOf(isTime, ms);
    case Array(es) =>
      assert ts[1..] == ElementTokens(es) + [CloseBracket] + suffix;
      ElementsRead(isTime, es, [], suffix);
      assert [] + NodesOf(isTime, es) == NodesOf(isTime, es);
    case Text(s) => assert ts[1..] == suffix;
    case Number(s) => assert ts[1..] == suffix;
    case Bool(b) => assert ts[1..] == suffix;
    case Null => assert ts[1..] == suffix;
  }

  lemma {:induction false} MembersRead(isTime: string -> bool, ms: seq<Member>, content: seq<Node>, suffix: seq<Token>)
    ensures ReadMembers(isTime, MemberTokens(ms) + [CloseBrace] + suffix, content)
            == Built(Mapping(content + PairsOf(isTime, ms)), suffix)
    decreases ms
  {
    var ts := MemberTokens(ms) + [CloseBrace] + suffix;
    if ms == [] {
      assert ts[1..] == suffix && content + [] == content;
    } else {
      var after := MemberTokens(ms[1..]) + [CloseBrace] + suffix;
      var pair := [Key(ms[0].key), NodeOf(isTime, ms[0].value)];
      assert ts[1..] == Tokens(ms[0].value) + after;
      ReaderUndoesPrinter(isTime, ms[0].value, after);
      MembersRead(isTime, ms[1..], content + pair, suffix);
      assert content + pair + PairsOf(isTime, ms[1..]) == content + PairsOf(isTime, ms);
    }
  }

  lemma TokensStart(v: Json)
    ensures More(Tokens(v))
  {
  }

  lemma {:induction false} ElementsRead(isTime: string -> bool, es: seq<Json>, content: seq<Node>, suffix: seq<Token>)
    ensures ReadElements(isTime, ElementTokens(es) + [CloseBracket] + suffix, content)
            == Built(Sequence(content + NodesOf(isTime, es)), suffix)
    decreases es
  {
    var ts := ElementTokens(es) + [CloseBracket] + suffix;
    if es == [] {
      assert ts[1..] == suffix && content + [] == content;
    } else {
      var after := ElementTokens(es[1..]) + [CloseBracket] + suffix;
      var node := NodeOf(isTime, es[0]);
      TokensStart(es[0]);
      assert ts == Tokens(es[0]) + after;
      ReaderUndoesPrinter(isTime, es[0], after);
      ElementsRead(isTime, es[1..], content + [node], suffix);
      assert content + [node] + NodesOf(isTime, es[1..]) == content + NodesOf(isTime, es);
    }
  }

  // Key order is kept, each key beside its value.
  lemma {:induction false} PairsKeepOrder(isTime: string -> bool, ms: seq<Member>, k: nat)
    requires k < |ms|
    ensures |PairsOf(isTime, ms)| == 2 * |ms|
    ensures PairsOf(isTime, ms)[2 * k] == Scalar("!!str", ms[k].key)
            && PairsOf(isTime, ms)[2 * k + 1] == NodeOf(isTime, ms[k].value)
  {
    if |ms| > 1 { PairsKeepOrder(isTime, ms[1..], if k > 0 then k - 1 else 0); }
  }

  // ---- what a YAML reader takes the tree for ----

  function ValueOf(n: Node): Option<Json>
    decreases n
  {
    match n
    case Mapping(content) => var ms := MembersOf(content); if ms.None? then None else Some(Object(ms.value))
    case Sequence(content) => var es := ElementsOf(content); if es.None? then None else Some(Array(es.value))
    case Scalar(tag, value) =>
      if tag == STR || tag == TIMESTAMP then Some(Text(value))
      else if tag == INT || tag == FLOAT then Some(Number(value))
      else if tag == BOOL && (value == "true" || value == "false") then Some(Bool(value == "true"))
      else if tag == NULL then Some(Null) else None
  }

  function MembersOf(content: seq<Node>): Option<seq<Member>>
    decreases content
  {
    if content == [] then Some([])
    else if |content| == 1 || !content[0].Scalar? then None
    else
      var value, others := ValueOf(content[1]), MembersOf(content[2..]);
      if value.None? || others.None? then None else Some([Member(content[0].value, value.value)] + others.value)
  }

  function ElementsOf(content: seq<Node>): Option<seq<Json>>
    decreases content
  {
    if content == [] then Some([])
    else
      var value, others := ValueOf(content[0]), ElementsOf(content[1..]);
      if value.None? || others.None? then None else Some([value.value] + others.value)
  }

  lemma {:induction false} TreeReadsBack(isTime: string -> bool, v: Json)
    ensures ValueOf(NodeOf(isTime, v)) == Some(v)
    decreases v
  {
    match v
    case Object(ms) => PairsReadBack(isTime, ms);
    case Array(es) => NodesReadBack(isTime, es);
    case Text(s) =>
    case Number(s) =>
    case Bool(b) =>
    case Null =>
  }

  lemma {:induction false} PairsReadBack(isTime: string -> bool, ms: seq<Member>)
    ensures MembersOf(PairsOf(isTime, ms)) == Some(ms)
    decreases ms
  {
    if ms != [] {
      TreeReadsBack(isTime, ms[0].value);
      PairsReadBack(isTime, ms[1..]);
      assert PairsOf(isTime, ms)[2..] == PairsOf(isTime, ms[1..]);
      assert [Member(ms[0].key, ms[0].value)] + ms[1..] == ms;
    }
  }

  lemma {:induction false} NodesReadBack(isTime: string -> bool, es: seq<Json>)
    ensures ElementsOf(NodesOf(isTime, es)) == Some(es)
    decreases es
  {
    if es != [] {
      TreeReadsBack(isTime, es[0]);
      NodesReadBack(isTime, es[1..]);
      assert NodesOf(isTime, es)[1..] == NodesOf(isTime, es[1..]);
      assert [es[0]] + es[1..] == es;
    }
  }

  // Token sequences are self-delimiting: no two documents share a stream.
  lemma DocumentsSplitOneWay(v: Json, w: Json, a: seq<Token>, b: seq<Token>)
    requires Tokens(v) + a == Tokens(w) + b
    ensures v == w && a == b
  {
    var isTime := (s: string) => false;
    ReaderUndoesPrinter(isTime, v, a);
    ReaderUndoesPrinter(isTime, w, b);
    TreeReadsBack(isTime, v);
    TreeReadsBack(isTime, w);
  }

  // ---- nothing else is ever built ----

  // The token read passes for the one printed: the reader does not look at which closing
  // delimiter it gets, nor at a key that is not a string.
  predicate PassesFor(read: Token, printed: Token) {
    || read == printed
    || (!More([read]) && !More([printed]))
    || (!read.TextToken? && printed == TextToken(""))
  }

  // What is left of ts once its start passed for `printed`.
  predicate Leaves(ts: seq<Token>, printed: seq<Token>, rest: seq<Token>) {
    |ts| == |printed| + |rest| && ts[|printed|..] == rest && forall i :: 0 <= i < |printed| ==>
        PassesFor(ts[i], printed[i])
  }

  lemma LeavesOne(ts: seq<Token>, printed: Token)
    requires ts != [] && PassesFor(ts[0], printed)
    ensures Leaves(ts, [printed], ts[1..])
  {
  }

  lemma LeavesJoins(ts: seq<Token>, p: seq<Token>, mid: seq<Token>, q: seq<Token>, rest: seq<Token>)
    requires Leaves(ts, p, mid) && Leaves(mid, q, rest)
    ensures Leaves(ts, p + q, rest)
  {
    forall i | 0 <= i < |p + q|
      ensures PassesFor(ts[i], (p + q)[i])
    {
      if i >= |p| { assert ts[i] == mid[i - |p|]; }
    }
  }

  // Every tree built is the tree of a value, and the tokens taken pass for that value's.
  lemma {:induction false} OnlyValuesAreBuilt(isTime: string -> bool, ts: seq<Token>) returns (v: Json)
    requires ReadValue(isTime, ts).Built?
    ensures var r := ReadValue(isTime, ts); r.node == NodeOf(isTime, v) && Leaves(ts, Tokens(v), r.rest)
    decreases |ts|, 0
  {
    match ts[0]
    case OpenBrace =>
      var ms := OnlyMembersAreBuilt(isTime, ts[1..], []);
      v := Object(ms);
      BracesClose(isTime, ts, ms);
    case OpenBracket =>
      var es := OnlyElementsAreBuilt(isTime, ts[1..], []);
      v := Array(es);
      BracketsClose(isTime, ts, es);
    case TextToken(s) => v := Text(s);
    case NumberToken(s) => v := Number(s);
    case BoolToken(b) => v := Bool(b);
    case NullToken => v := Null;
  }

  lemma BracesClose(isTime: string -> bool, ts: seq<Token>, ms: seq<Member>)
    requires ts != [] && ts[0] == OpenBrace
    requires var r := ReadMembers(isTime, ts[1..], []);
             r.Built? && r.node == Mapping([] + PairsOf(isTime, ms))
               && Leaves(ts[1..], MemberTokens(ms) + [CloseBrace], r.rest)
    ensures var r := ReadValue(isTime, ts);
            r.node == NodeOf(isTime, Object(ms)) && Leaves(ts, Tokens(Object(ms)), r.rest)
  {
    LeavesOne(ts, OpenBrace);
    LeavesJoins(ts, [OpenBrace], ts[1..], MemberTokens(ms) + [CloseBrace], ReadValue(isTime, ts).rest);
    assert Tokens(Object(ms)) == [OpenBrace] + (MemberTokens(ms) + [CloseBrace]);
    assert [] + PairsOf(isTime, ms) == PairsOf(isTime, ms);
  }

  lemma BracketsClose(isTime: string -> bool, ts: seq<Token>, es: seq<Json>)
    requires ts != [] && ts[0] == OpenBracket
    requires var r := ReadElements(isTime, ts[1..], []);
             r.Built? && r.node == Sequence([] + NodesOf(isTime, es))
               && Leaves(ts[1..], ElementTokens(es) + [CloseBracket], r.rest)
    ensures var r := ReadValue(isTime, ts); r.node == NodeOf(isTime, Array(es)) && Leaves(ts, Tokens(Array(es)), r.rest)
  {
    LeavesOne(ts, OpenBracket);
    LeavesJoins(ts, [OpenBracket], ts[1..], ElementTokens(es) + [CloseBracket], ReadValue(isTime, ts).rest);
    assert Tokens(Array(es)) == [OpenBracket] + (ElementTokens(es) + [CloseBracket]);
    assert [] + NodesOf(isTime, es) == NodesOf(isTime, es);
  }

  lemma {:induction false} OnlyMembersAreBuilt(isTime: string -> bool, ts: seq<Token>, content: seq<Node>)
    returns (ms: seq<Member>)
    requires ReadMembers(isTime, ts, content).Built?
    ensures var r := ReadMembers(isTime, ts, content);
            r.node == Mapping(content + PairsOf(isTime, ms)) && Leaves(ts, MemberTokens(ms) + [CloseBrace], r.rest)
    decreases |ts|, 1
  {
    if !More(ts) {
      ms := [];
      assert content + [] == content && MemberTokens([]) + [CloseBrace] == [CloseBrace];
      LeavesOne(ts, CloseBrace);
    } else {
      var value := OnlyValuesAreBuilt(isTime, ts[1..]);
      var r := ReadValue(isTime, ts[1..]);
      var m := Member(KeyText(ts[0]), value);
      var grown := content + [Key(m.key), r.node];
      var others := OnlyMembersAreBuilt(isTime, r.rest, grown);
      ms := [m] + others;
      PairBuilt(isTime, content, m, others);
      LeavesMember(ts, m, r.rest);
      LeavesJoins(ts, [TextToken(m.key)] + Tokens(value), r.rest, MemberTokens(others) + [CloseBrace],
                  ReadMembers(isTime, r.rest, grown).rest);
    }
  }

  lemma PairBuilt(isTime: string -> bool, content: seq<Node>, m: Member, others: seq<Member>)
    ensures content + [Key(m.key), NodeOf(isTime, m.value)] + PairsOf(isTime, others)
            == content + PairsOf(isTime, [m] + others)
    ensures MemberTokens([m] + others) + [CloseBrace]
            == [TextToken(m.key)] + Tokens(m.value) + (MemberTokens(others) + [CloseBrace])
  {
    assert ([m] + others)[1..] == others;
  }

  lemma LeavesMember(ts: seq<Token>, m: Member, rest: seq<Token>)
    requires ts != [] && m.key == KeyText(ts[0]) && Leaves(ts[1..], Tokens(m.value), rest)
    ensures Leaves(ts, [TextToken(m.key)] + Tokens(m.value), rest)
  {
    LeavesOne(ts, TextToken(m.key));
    LeavesJoins(ts, [TextToken(m.key)], ts[1..], Tokens(m.value), rest);
  }

  lemma {:induction false} OnlyElementsAreBuilt(isTime: string -> bool, ts: seq<Token>, content: seq<Node>)
    returns (es: seq<Json>)
    requires ReadElements(isTime, ts, content).Built?
    ensures var r := ReadElements(isTime, ts, content);
            r.node == Sequence(content + NodesOf(isTime, es)) && Leaves(ts, ElementTokens(es) + [CloseBracket], r.rest)
    decreases |ts|, 1
  {
    if !More(ts) {
      es := [];
      assert content + [] == content && ElementTokens([]) + [CloseBracket] == [CloseBracket];
      LeavesOne(ts, CloseBracket);
    } else {
      var value := OnlyValuesAreBuilt(isTime, ts);
      var r := ReadValue(isTime, ts);
      var grown := content + [r.node];
      var others := OnlyElementsAreBuilt(isTime, r.rest, grown);
      es := [value] + others;
      ElementBuilt(isTime, content, value, others);
      LeavesJoins(ts, Tokens(value), r.rest, ElementTokens(others) + [CloseBracket],
        ReadElements(isTime, r.rest, grown).rest);
    }
  }

  lemma ElementBuilt(isTime: string -> bool, content: seq<Node>, value: Json, others: seq<Json>)
    ensures content + [NodeOf(isTime, value)] + NodesOf(isTime, others) == content + NodesOf(isTime, [value] + others)
    ensures ElementTokens([value] + others) + [CloseBracket] == Tokens(value) + (ElementTokens(others) + [CloseBracket])
  {
    assert ([value] + others)[1..] == others;
  }

  // A stream starts with a document exactly when the tree built from it prints as what
  // was taken.
  lemma StartsWithDocumentIff(isTime: string -> bool, ts: seq<Token>)
    ensures (exists v :: Tokens(v) <= ts)
            <==> (var r := ReadValue(isTime, ts);
                  r.Built? && ValueOf(r.node).Some? && Tokens(ValueOf(r.node).value) + r.rest == ts)
  {
    if v :| Tokens(v) <= ts {
      var suffix := ts[|Tokens(v)|..];
      assert Tokens(v) + suffix == ts;
      ReaderUndoesPrinter(isTime, v, suffix);
      TreeReadsBack(isTime, v);
    }
  }

  // ---- what the tags say ----

  // Scalars are tagged with what they are: a time, a string, a number with a point or an
  // exponent, an integer, a truth value or null.
  lemma ScalarsAreTagged(isTime: string -> bool, v: Json)
    ensures match v
            case Text(s) => NodeOf(isTime, v) == Scalar(if isTime(s) then "!!timestamp" else "!!str", s)
            case Number(s) =>
              NodeOf(isTime, v) == Scalar(if exists i :: 0 <= i < |s| && s[i] in ".eE" then "!!float" else "!!int", s)
            case Bool(b) => NodeOf(isTime, v) == Scalar("!!bool", if b then "true" else "false")
            case Null => NodeOf(isTime, v) == Scalar("!!null", "null")
            case Object(_) => NodeOf(isTime, v).Mapping?
            case Array(_) => NodeOf(isTime, v).Sequence?
  {
    if v.Number? { PointOrExponentIff(v.literal); }
  }

  lemma PointOrExponentIff(s: string)
    ensures HasPointOrExponent(s) <==> exists i :: 0 <= i < |s| && s[i] in ".eE"
  {
    if HasPointOrExponent(s) {
      var i :| 0 <= i < |s| && (s[i] == '.' || s[i] == 'e' || s[i] == 'E');
      assert "."[0] == '.' && s[i] in ".eE";
    }
    if i :| 0 <= i < |s| && s[i] in ".eE" { assert s[i] in s; }
  }
}
