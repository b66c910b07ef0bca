// Redis key names. Every family of keys is rendered with colons, so the theorem to
// have is that no two different keys ever render to the same string.
module Keys {
  import opened Api

  const KEY_PREFIX := "ax:"

  datatype Kind = TaskKind | GatewayKind | ModelKind | WorkspaceKind

  datatype Key =
    | Record(kind: Kind, id: TaskId)
    | Index(kind: Kind)
    | AtespaceIndex(kind: Kind, atespace: string)
    | Channel(id: TaskId)
    | Stream

  predicate NoColon(s: string) {
    ':' !in s
  }

  ghost predicate WellNamed(k: Key) {
    (k.Record? || k.Channel?) ==> NoColon(k.id.atespace)
  }

  function Singular(kind: Kind): string {
    match kind
    case TaskKind => "task"
    case GatewayKind => "gw"
    case ModelKind => "model"
    case WorkspaceKind => "workspace"
  }

  function Plural(kind: Kind): string {
    match kind
    case TaskKind => "tasks"
    case GatewayKind => "gateways"
    case ModelKind => "models"
    case WorkspaceKind => "workspaces"
  }

  // The member string of the global index, and the tail of a record key.
  function Join(id: TaskId): string {
    id.atespace + ":" + id.name
  }

  function Render(k: Key): string {
    match k
    case Record(kind, id) => KEY_PREFIX + (Singular(kind) + ":" + Join(id))
    case Index(kind) => KEY_PREFIX + (Plural(kind) + ":" + "index")
    case AtespaceIndex(kind, a) => KEY_PREFIX + (Plural(kind) + ":" + ("atespace" + ":" + a))
    case Channel(id) => KEY_PREFIX + ("pubsub" + ":" + ("task" + ":" + Join(id)))
    case Stream => KEY_PREFIX + ("stream" + ":" + "tasks")
  }

  function FirstColon(s: string): (i: nat)
    ensures i <= |s|
  {
    if s == "" || s[0] == ':' then 0 else 1 + FirstColon(s[1..])
  }

  lemma {:induction false} FirstColonIsFirst(s: string)
    ensures forall j :: 0 <= j < FirstColon(s) ==> s[j] != ':'
    ensures FirstColon(s) < |s| ==> s[FirstColon(s)] == ':'
  {
    if s != "" && s[0] != ':' {
      FirstColonIsFirst(s[1..]);
      assert forall j :: 0 < j <= FirstColon(s[1..]) && j < |s| ==> s[j] == s[1..][j - 1];
    }
  }

  // strings.SplitN(s, ":", 2)
  function SplitN2(s: string): seq<string> {
    var i := FirstColon(s);
    if i == |s| then [s] else [s[..i], s[i + 1..]]
  }

  // The task a member of the global index names; a bare name falls in the default atespace.
  function MemberId(member: string): TaskId {
    var parts := SplitN2(member);
    if |parts| == 2 then TaskId(parts[0], parts[1]) else TaskId(DEFAULT_ATESPACE, member)
  }

  lemma SplitUndoesJoin(head: string, tail: string)
    requires NoColon(head)
    ensures SplitN2(head + ":" + tail) == [head, tail]
  {
    var s := head + ":" + tail;
    assert s[|head|] == ':' && s[..|head|] == head;
    assert forall j :: 0 <= j < |head| ==> s[j] in head;
    FirstColonIsFirst(s);
    assert FirstColon(s) == |head|;
    assert s[|head| + 1..] == tail;
  }

  lemma BareStaysWhole(s: string)
    requires NoColon(s)
    ensures SplitN2(s) == [s]
  {
    FirstColonIsFirst(s);
    assert forall j :: 0 <= j < |s| ==> s[j] != ':';
  }

  lemma MemberIdOfJoin(id: TaskId)
    requires NoColon(id.atespace)
    ensures MemberId(Join(id)) == id
  {
    SplitUndoesJoin(id.atespace, id.name);
  }

  datatype Family = RecordFamily(kind: Kind) | IndexFamily(kind: Kind) | ChannelFamily | StreamFamily

  function FamilyName(f: Family): string {
    match f
    case RecordFamily(kind) => Singular(kind)
    case IndexFamily(kind) => Plural(kind)
    case ChannelFamily => "pubsub"
    case StreamFamily => "stream"
  }

  // The names differ in length, or in the first letter when the length agrees.
  function FamilyOf(s: string): Option<Family> {
    match |s|
    case 2 => Some(RecordFamily(GatewayKind))
    case 4 => Some(RecordFamily(TaskKind))
    case 5 => Some(if s[0] == 't' then IndexFamily(TaskKind) else RecordFamily(ModelKind))
    case 6 => Some(if s[0] == 'm' then IndexFamily(ModelKind) else if s[0] == 'p' then ChannelFamily else StreamFamily)
    case 8 => Some(IndexFamily(GatewayKind))
    case 9 => Some(RecordFamily(WorkspaceKind))
    case 10 => Some(IndexFamily(WorkspaceKind))
    case _ => None
  }

  lemma FamilyOfName(f: Family)
    ensures FamilyOf(FamilyName(f)) == Some(f) && NoColon(FamilyName(f))
  {
  }

  function ParseIndex(kind: Kind, tail: string): Option<Key> {
    var parts := SplitN2(tail);
    if |parts| == 2 then Some(AtespaceIndex(kind, parts[1])) else Some(Index(kind))
  }

  // A reader for rendered keys, independent of Render: peel colon-separated fields.
  function Parse(s: string): Option<Key> {
    if !(KEY_PREFIX <= s) then None
    else
      var parts := SplitN2(s[|KEY_PREFIX|..]);
      if |parts| < 2 then None
      else
        match FamilyOf(parts[0])
        case None => None
        case Some(RecordFamily(kind)) => Some(Record(kind, MemberId(parts[1])))
        case Some(IndexFamily(kind)) => ParseIndex(kind, parts[1])
        case Some(ChannelFamily) =>
          var inner := SplitN2(parts[1]);
          if |inner| == 2 then Some(Channel(MemberId(inner[1]))) else None
        case Some(StreamFamily) => Some(Stream)
  }

  // What Parse sees once the prefix and the family name are peeled off.
  lemma PeelFamily(f: Family, tail: string)
    ensures var s := KEY_PREFIX + (FamilyName(f) + ":" + tail);
            KEY_PREFIX <= s && SplitN2(s[|KEY_PREFIX|..]) == [FamilyName(f), tail]
    ensures FamilyOf(FamilyName(f)) == Some(f)
  {
    var s := KEY_PREFIX + (FamilyName(f) + ":" + tail);
    assert s[|KEY_PREFIX|..] == FamilyName(f) + ":" + tail;
    FamilyOfName(f);
    SplitUndoesJoin(FamilyName(f), tail);
  }

  lemma RecordKeysParse(kind: Kind, id: TaskId)
    requires NoColon(id.atespace)
    ensures Parse(Render(Record(kind, id))) == Some(Record(kind, id))
  {
    PeelFamily(RecordFamily(kind), Join(id));
    MemberIdOfJoin(id);
  }

  lemma IndexKeysParse(kind: Kind)
    ensures Parse(Render(Index(kind))) == Some(Index(kind))
  {
    BareStaysWhole("index");
    assert ParseIndex(kind, "index") == Some(Index(kind));
    PeelFamily(IndexFamily(kind), "index");
  }

  lemma AtespaceIndexKeysParse(kind: Kind, atespace: string)
    ensures Parse(Render(AtespaceIndex(kind, atespace))) == Some(AtespaceIndex(kind, atespace))
  {
    SplitUndoesJoin("atespace", atespace);
    assert ParseIndex(kind, "atespace" + ":" + atespace) == Some(AtespaceIndex(kind, atespace));
    PeelFamily(IndexFamily(kind), "atespace" + ":" + atespace);
  }

  lemma ChannelKeysParse(id: TaskId)
    requires NoColon(id.atespace)
    ensures Parse(Render(Channel(id))) == Some(Channel(id))
  {
    PeelFamily(ChannelFamily, "task" + ":" + Join(id));
    SplitUndoesJoin("task", Join(id));
    MemberIdOfJoin(id);
  }

  // Reading a rendered key gives the key back, in every family.
  lemma ParseUndoesRender(k: Key)
    requires WellNamed(k)
    ensures Parse(Render(k)) == Some(k)
  {
    match k
    case Record(kind, id) => RecordKeysParse(kind, id);
    case Index(kind) => IndexKeysParse(kind);
    case AtespaceIndex(kind, a) => AtespaceIndexKeysParse(kind, a);
    case Channel(id) => ChannelKeysParse(id);
    case Stream => PeelFamily(StreamFamily, "tasks");
  }

  // Keys are injective within a family and the families are disjoint.
  lemma RenderIsInjective(j: Key, k: Key)
    requires WellNamed(j) && WellNamed(k)
    ensures Render(j) == Render(k) <==> j == k
  {
    ParseUndoesRender(j);
    ParseUndoesRender(k);
  }

  // Without the colon-free condition two tasks share one record.
  lemma ColonsMakeKeysCollide()
    ensures Render(Record(TaskKind, TaskId("a", "b:c"))) == Render(Record(TaskKind, TaskId("a:b", "c")))
  {
    assert Join(TaskId("a", "b:c")) == Join(TaskId("a:b", "c"));
  }
}
