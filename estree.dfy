/** The `ESTree` namespace: the ES5 node structs, each reduced to its tag and the
    optional `loc` and `range` metadata every node carries, `Program` with its
    body, and the flat `OneOf` unions `Function`, `Statement`, `Declaration`,
    `Expression` and `Pattern`.

    A union decodes with its first alternative that accepts the JSON; its value
    records which alternative that was, and encodes as that alternative does. */
module ESTree {
  import opened Json
  import opened Location
  import opened ESTreeNodeTypes

  /** A node struct other than `Program`: its tag and its metadata. */
  datatype Node = Node(nodeType: NodeType, loc: Option<SourceLocation>, range: Option<seq<int>>)

  /** `Program`: the body items, then the metadata. */
  datatype Program = Program(body: seq<Value>, loc: Option<SourceLocation>, range: Option<seq<int>>)

  /** A decoded union: a node, or the alternative `index` of a `OneOf` and what it holds. */
  datatype Value = Leaf(node: Node) | Choice(index: nat, value: Value)

  datatype Union = Function | Statement | Declaration | Expression | Pattern | ProgramBody

  /** An alternative of a `OneOf`: a node struct or another union. */
  datatype Alt = Struct(nodeType: NodeType) | Nested(union: Union)

  // ---------------------------------------------------------------------------
  // Construction and metadata
  // ---------------------------------------------------------------------------

  /** The memberwise initialiser given only the tag: `loc` and `range` default to nil. */
  function Make(t: NodeType): Node {
    Node(t, None, None)
  }

  /** `node.loc = l`. */
  function SetLoc(n: Node, l: Option<SourceLocation>): Node {
    n.(loc := l)
  }

  /** `node.range = r`. */
  function SetRange(n: Node, r: Option<seq<int>>): Node {
    n.(range := r)
  }

  predicate ValidInts(r: seq<int>) {
    forall k | 0 <= k < |r| :: IsInt(r[k])
  }

  /** Metadata a decoder can produce: Swift `Int`s throughout. */
  predicate ValidNode(n: Node) {
    (n.loc.Some? ==> ValidLocation(n.loc.value)) && (n.range.Some? ==> ValidInts(n.range.value))
  }

  // ---------------------------------------------------------------------------
  // `[Int]`
  // ---------------------------------------------------------------------------

  /** A Swift array: every item decoded in order; the first failure, with its
      index, is the error. */
  function DecodeArray<T>(decode: Json -> Result<T>, items: seq<Json>, i: nat): Result<seq<T>>
    requires i <= |items|
    decreases |items| - i
  {
    if i == |items| then Ok([])
    else
      var x :- (match decode(items[i])
                case Ok(x) => Ok(x)
                case Err(e) => Err(AtIndex(i, e)));
      var rest :- DecodeArray(decode, items, i + 1);
      Ok([x] + rest)
  }

  /** The items from `i` on decode exactly when each does, and then item by
      item, in order. */
  lemma {:induction false} ArrayOk<T>(decode: Json -> Result<T>, items: seq<Json>, i: nat)
    requires i <= |items|
    ensures DecodeArray(decode, items, i).Ok? <==> forall k | i <= k < |items| :: decode(items[k]).Ok?
    ensures DecodeArray(decode, items, i).Ok? ==>
      var d := DecodeArray(decode, items, i).value;
      |d| == |items| - i && forall k | 0 <= k < |d| :: decode(items[i + k]) == Ok(d[k])
    decreases |items| - i
  {
    if i < |items| {
      ArrayOk(decode, items, i + 1);
      if DecodeArray(decode, items, i).Ok? {
        var d := DecodeArray(decode, items, i).value;
        var rest := DecodeArray(decode, items, i + 1).value;
        assert d == [d[0]] + rest;
        forall k | 1 <= k < |d|
          ensures decode(items[i + k]) == Ok(d[k])
        {
          assert d[k] == rest[k - 1];
          assert items[i + k] == items[(i + 1) + (k - 1)];
        }
      }
    }
  }

  /** A Swift array encodes item by item. */
  function EncodeArray<T>(encode: T -> Json, xs: seq<T>): Json {
    JArray(seq(|xs|, k requires 0 <= k < |xs| => encode(xs[k])))
  }

  /** Items from `i` on that decode one by one to `xs` decode together to them. */
  lemma {:induction false} ArrayFrom<T>(decode: Json -> Result<T>, items: seq<Json>, xs: seq<T>, i: nat)
    requires |items| == |xs| && i <= |items|
    requires forall k | i <= k < |items| :: decode(items[k]) == Ok(xs[k])
    ensures DecodeArray(decode, items, i) == Ok(xs[i..])
    decreases |items| - i
  {
    if i < |items| {
      ArrayFrom(decode, items, xs, i + 1);
      assert xs[i..] == [xs[i]] + xs[i + 1..];
    }
  }

  /** An array whose every item reads back reads back as a whole. */
  lemma ArrayRoundTrip<T>(decode: Json -> Result<T>, encode: T -> Json, xs: seq<T>)
    requires forall k | 0 <= k < |xs| :: decode(encode(xs[k])) == Ok(xs[k])
    ensures DecodeArray(decode, EncodeArray(encode, xs).items, 0) == Ok(xs)
  {
    ArrayFrom(decode, EncodeArray(encode, xs).items, xs, 0);
    assert xs[0..] == xs;
  }

  /** Re-decoding the encoding of a decoded array gives it back, when that holds
      of each item. */
  lemma ArrayReencodes<T>(decode: Json -> Result<T>, encode: T -> Json, items: seq<Json>)
    requires DecodeArray(decode, items, 0).Ok?
    requires forall k | 0 <= k < |items| ::
      decode(items[k]).Ok? ==> decode(encode(decode(items[k]).value)) == decode(items[k])
    ensures DecodeArray(decode, EncodeArray(encode, DecodeArray(decode, items, 0).value).items, 0)
      == DecodeArray(decode, items, 0)
  {
    ArrayOk(decode, items, 0);
    var d := DecodeArray(decode, items, 0).value;
    forall k | 0 <= k < |d|
      ensures decode(encode(d[k])) == Ok(d[k])
    {
      assert decode(items[0 + k]) == Ok(d[k]);
    }
    ArrayRoundTrip(decode, encode, d);
  }

  function DecodeInts(j: Json): Result<seq<int>> {
    if j.JArray? then DecodeArray(DecodeInt, j.items, 0) else Err(ShapeMismatch("array"))
  }

  function EncodeInts(r: seq<int>): Json {
    EncodeArray(EncodeInt, r)
  }

  /** A range array reads back as the numbers it was written from. */
  lemma IntsRoundTrip(r: seq<int>)
    requires ValidInts(r)
    ensures DecodeInts(EncodeInts(r)) == Ok(r)
  {
    forall k | 0 <= k < |r|
      ensures DecodeInt(EncodeInt(r[k])) == Ok(r[k])
    {
    }
    ArrayRoundTrip(DecodeInt, EncodeInt, r);
  }

  lemma DecodedIntsValid(j: Json)
    requires DecodeInts(j).Ok?
    ensures ValidInts(DecodeInts(j).value)
  {
    ArrayOk(DecodeInt, j.items, 0);
    var d := DecodeInts(j).value;
    forall k | 0 <= k < |d|
      ensures IsInt(d[k])
    {
      assert DecodeInt(j.items[0 + k]) == Ok(d[k]);
    }
  }

  // ---------------------------------------------------------------------------
  // Nodes
  // ---------------------------------------------------------------------------

  /** Whether the optional `loc` and `range` of object `j` decode. */
  predicate MetaOk(j: Json)
    requires j.JObject?
  {
    IfPresent(j, "loc", DecodeLocation).Ok? && IfPresent(j, "range", DecodeInts).Ok?
  }

  /** A node struct's `Decodable`: the tag must be the struct's own, then the
      optional metadata. */
  function DecodeNode(t: NodeType, j: Json): Result<Node> {
    var _ :- Tagged(j, Tag(t));
    var loc :- IfPresent(j, "loc", DecodeLocation);
    var range :- IfPresent(j, "range", DecodeInts);
    Ok(Node(t, loc, range))
  }

  function EncodeNode(n: Node): Json {
    JObject(PutIfPresent(PutIfPresent(map["type" := JString(Tag(n.nodeType))],
      "loc", n.loc, EncodeLocation), "range", n.range, EncodeInts))
  }

  /** A node decodes exactly when the JSON is an object carrying its tag and
      well-formed metadata. */
  lemma NodeAccepts(t: NodeType, j: Json)
    ensures DecodeNode(t, j).Ok? <==> j.JObject? && TagOf(j) == Ok(Tag(t)) && MetaOk(j)
    ensures DecodeNode(t, j).Ok? ==> DecodeNode(t, j).value.nodeType == t && ValidNode(DecodeNode(t, j).value)
  {
    var r := DecodeNode(t, j);
    if r.Ok? {
      var n := r.value;
      if n.loc.Some? {
        DecodedPositionValid(j.fields["loc"].fields["start"]);
        DecodedPositionValid(j.fields["loc"].fields["end"]);
      }
      if n.range.Some? {
        DecodedIntsValid(j.fields["range"]);
      }
    }
  }

  /** Decoding reads back every valid node the encoder writes. */
  lemma NodeRoundTrip(n: Node)
    requires ValidNode(n)
    ensures DecodeNode(n.nodeType, EncodeNode(n)) == Ok(n)
  {
    var m := EncodeNode(n).fields;
    assert "type" in m && m["type"] == JString(Tag(n.nodeType));
    assert n.loc.Some? <==> "loc" in m;
    assert n.range.Some? <==> "range" in m;
    if n.loc.Some? {
      LocationRoundTrip(n.loc.value);
    }
    if n.range.Some? {
      IntsRoundTrip(n.range.value);
    }
  }

  /** A node made with only its tag writes only "type" and has no metadata;
      setting the location and the range keeps the tag, the two setters do
      not interfere, and both values read back independently. */
  lemma MetadataIndependent(t: NodeType, l: Option<SourceLocation>, r: Option<seq<int>>)
    requires l.Some? ==> ValidLocation(l.value)
    requires r.Some? ==> ValidInts(r.value)
    ensures Make(t).loc.None? && Make(t).range.None?
    ensures EncodeNode(Make(t)) == JObject(map["type" := JString(Tag(t))])
    ensures SetLoc(SetRange(Make(t), r), l) == SetRange(SetLoc(Make(t), l), r)
    ensures DecodeNode(t, EncodeNode(SetRange(SetLoc(Make(t), l), r))) == Ok(Node(t, l, r))
  {
    NodeRoundTrip(Node(t, l, r));
  }

  /** The node a `Directive` struct decodes needs the tag "Directive"; the tag
      "ExpressionStatement" belongs to the `ExpressionStatement` struct. */
  lemma DirectiveTag(j: Json)
    ensures Tag(DirectiveNodeType) == "Directive"
    ensures TagOf(j) == Ok("ExpressionStatement") ==> DecodeNode(DirectiveNodeType, j).Err?
  {
    NodeAccepts(DirectiveNodeType, j);
    DirectiveParses();
    ExpressionStatementParses();
  }

  // ---------------------------------------------------------------------------
  // Unions
  // ---------------------------------------------------------------------------

  /** How deep a union's alternatives nest other unions. */
  function Depth(u: Union): nat {
    match u
    case Statement => 1
    case ProgramBody => 2
    case _ => 0
  }

  /** The alternatives of each `OneOf`, in order. */
  function Alts(u: Union): (alts: seq<Alt>)
    ensures forall i | 0 <= i < |alts| && alts[i].Nested? :: Depth(alts[i].union) < Depth(u)
  {
    match u
    case Function => [Struct(FunctionDeclarationNodeType), Struct(FunctionExpressionNodeType)]
    case Statement => [
      Struct(ExpressionStatementNodeType), Struct(DirectiveNodeType), Struct(BlockStatementNodeType),
      Struct(EmptyStatementNodeType), Struct(DebuggerStatementNodeType), Struct(WithStatementNodeType),
      Struct(ReturnStatementNodeType), Struct(LabeledStatementNodeType), Struct(BreakStatementNodeType),
      Struct(ContinueStatementNodeType), Struct(IfStatementNodeType), Struct(SwitchStatementNodeType),
      Struct(ThrowStatementNodeType), Struct(TryStatementNodeType), Struct(WhileStatementNodeType),
      Struct(DoWhileStatementNodeType), Struct(ForStatementNodeType), Struct(ForInStatementNodeType),
      Nested(Declaration)]
    case Declaration => [Struct(FunctionDeclarationNodeType), Struct(VariableDeclarationNodeType)]
    case Expression => [
      Struct(IdentifierNodeType), Struct(LiteralNodeType), Struct(RegExpLiteralNodeType),
      Struct(ThisExpressionNodeType), Struct(ArrayExpressionNodeType), Struct(ObjectExpressionNodeType),
      Struct(UnaryExpressionNodeType), Struct(UpdateExpressionNodeType), Struct(BinaryExpressionNodeType),
      Struct(AssignmentExpressionNodeType), Struct(LogicalExpressionNodeType), Struct(MemberExpressionNodeType),
      Struct(ConditionalExpressionNodeType), Struct(CallExpressionNodeType), Struct(NewExpressionNodeType),
      Struct(SequenceExpressionNodeType)]
    case Pattern => [Struct(IdentifierNodeType), Struct(MemberExpressionNodeType)]
    case ProgramBody => [Nested(Declaration), Nested(Statement)]
  }

  function DecodeUnion(u: Union, j: Json): Result<Value>
    decreases Depth(u), 1, 0
  {
    DecodeAlts(u, 0, j, [])
  }

  /** The `OneOf` decoder: the first alternative from `i` on that decodes `j`;
      `errs` are the errors of the alternatives before `i`. */
  function DecodeAlts(u: Union, i: nat, j: Json, errs: seq<DecodeError>): Result<Value>
    requires i <= |Alts(u)|
    decreases Depth(u), 0, |Alts(u)| - i
  {
    if i == |Alts(u)| then Err(NoAlternative(errs))
    else
      var r := match Alts(u)[i]
        case Struct(t) => (match DecodeNode(t, j) case Ok(n) => Ok(Leaf(n)) case Err(e) => Err(e))
        case Nested(w) => DecodeUnion(w, j);
      match r
      case Ok(v) => Ok(Choice(i, v))
      case Err(e) => DecodeAlts(u, i + 1, j, errs + [e])
  }

  /** A `OneOf` encodes as the alternative it holds. */
  function Encode(v: Value): Json {
    match v
    case Leaf(n) => EncodeNode(n)
    case Choice(_, w) => Encode(w)
  }

  /** The node a union value holds. */
  function NodeOf(v: Value): Node {
    match v
    case Leaf(n) => n
    case Choice(_, w) => NodeOf(w)
  }

  /** The node types a union admits from alternative `i` on, nested unions flattened. */
  function AltMembers(u: Union, i: nat): set<NodeType>
    requires i <= |Alts(u)|
    decreases Depth(u), 0, |Alts(u)| - i
  {
    if i == |Alts(u)| then {}
    else
      (match Alts(u)[i]
       case Struct(t) => {t}
       case Nested(w) => Members(w)) + AltMembers(u, i + 1)
  }

  function Members(u: Union): set<NodeType>
    decreases Depth(u), 1, 0
  {
    AltMembers(u, 0)
  }

  /** Object `j` carries the tag of one of the node types `ks`, and well-formed metadata. */
  predicate Admits(ks: set<NodeType>, j: Json) {
    j.JObject? && MetaOk(j) && exists k :: k in ks && TagOf(j) == Ok(Tag(k))
  }

  /** `v` holds a node of one of the types `ks` that `j` decodes to. */
  predicate Holds(v: Value, ks: set<NodeType>, j: Json) {
    NodeOf(v).nodeType in ks && DecodeNode(NodeOf(v).nodeType, j) == Ok(NodeOf(v))
  }

  /** The alternatives from `i` on accept exactly the nodes of their member types;
      what they decode to is such a node, read from `j`. */
  lemma {:induction false} AltsAccept(u: Union, i: nat, j: Json, errs: seq<DecodeError>)
    requires i <= |Alts(u)|
    ensures DecodeAlts(u, i, j, errs).Ok? <==> Admits(AltMembers(u, i), j)
    ensures DecodeAlts(u, i, j, errs).Ok? ==> Holds(DecodeAlts(u, i, j, errs).value, AltMembers(u, i), j)
    decreases Depth(u), 0, |Alts(u)| - i
  {
    if i < |Alts(u)| {
      match Alts(u)[i]
      case Struct(t) =>
        var d := DecodeNode(t, j);
        var e := if d.Err? then d.error else NoAlternative([]);
        var first: Result<Value> := if d.Ok? then Ok(Leaf(d.value)) else Err(e);
        AltsAccept(u, i + 1, j, errs + [e]);
        StructStep(u, i, j, errs, t);
        LeafAccepts(t, j);
        AcceptStep(DecodeAlts(u, i, j, errs), first, DecodeAlts(u, i + 1, j, errs + [e]),
          AltMembers(u, i), {t}, AltMembers(u, i + 1), i, j);
      case Nested(w) =>
        AltsAccept(w, 0, j, []);
        var e := if DecodeUnion(w, j).Err? then DecodeUnion(w, j).error else NoAlternative([]);
        AltsAccept(u, i + 1, j, errs + [e]);
        NestedAltStep(u, i, j, errs, w);
        AcceptStep(DecodeAlts(u, i, j, errs), DecodeUnion(w, j), DecodeAlts(u, i + 1, j, errs + [e]),
          AltMembers(u, i), Members(w), AltMembers(u, i + 1), i, j);
    }
  }

  /** Decoding at a struct alternative: its node, or else the later alternatives. */
  lemma StructStep(u: Union, i: nat, j: Json, errs: seq<DecodeError>, t: NodeType)
    requires i < |Alts(u)| && Alts(u)[i] == Struct(t)
    ensures DecodeAlts(u, i, j, errs) ==
      if DecodeNode(t, j).Ok? then Ok(Choice(i, Leaf(DecodeNode(t, j).value)))
      else DecodeAlts(u, i + 1, j, errs + [DecodeNode(t, j).error])
    ensures AltMembers(u, i) == {t} + AltMembers(u, i + 1)
  {
  }

  /** Decoding at a nested union: what it decodes, or else the later alternatives. */
  lemma NestedAltStep(u: Union, i: nat, j: Json, errs: seq<DecodeError>, w: Union)
    requires i < |Alts(u)| && Alts(u)[i] == Nested(w)
    ensures DecodeAlts(u, i, j, errs) ==
      if DecodeUnion(w, j).Ok? then Ok(Choice(i, DecodeUnion(w, j).value))
      else DecodeAlts(u, i + 1, j, errs + [DecodeUnion(w, j).error])
    ensures AltMembers(u, i) == Members(w) + AltMembers(u, i + 1)
  {
  }

  /** A single struct accepts exactly the objects tagged with its node type. */
  lemma LeafAccepts(t: NodeType, j: Json)
    ensures DecodeNode(t, j).Ok? <==> Admits({t}, j)
    ensures DecodeNode(t, j).Ok? ==> Holds(Leaf(DecodeNode(t, j).value), {t}, j)
  {
    NodeAccepts(t, j);
    assert t in {t};
  }

  /** A `OneOf` step: the first alternative if it decodes, else the rest,
      admits the union of what the two admit. */
  lemma AcceptStep(here: Result<Value>, first: Result<Value>, rest: Result<Value>,
    ks: set<NodeType>, firstKs: set<NodeType>, restKs: set<NodeType>, i: nat, j: Json)
    requires here == if first.Ok? then Ok(Choice(i, first.value)) else rest
    requires ks == firstKs + restKs
    requires first.Ok? <==> Admits(firstKs, j)
    requires first.Ok? ==> Holds(first.value, firstKs, j)
    requires rest.Ok? <==> Admits(restKs, j)
    requires rest.Ok? ==> Holds(rest.value, restKs, j)
    ensures here.Ok? <==> Admits(ks, j)
    ensures here.Ok? ==> Holds(here.value, ks, j)
  {
    if Admits(ks, j) && !first.Ok? {
      var k :| k in ks && TagOf(j) == Ok(Tag(k));
      assert k in restKs;
    }
  }

  /** A union decodes exactly the objects whose tag is the tag of one of its
      member node types and whose metadata is well formed. */
  lemma UnionAccepts(u: Union, j: Json)
    ensures DecodeUnion(u, j).Ok? <==>
      j.JObject? && MetaOk(j) && exists k :: k in Members(u) && TagOf(j) == Ok(Tag(k))
  {
    AltsAccept(u, 0, j, []);
  }

  /** A tag no member of the union carries is refused, whatever else `j` holds. */
  lemma UnlistedTagRejected(u: Union, j: Json, k: NodeType)
    requires TagOf(j) == Ok(Tag(k)) && k !in Members(u)
    ensures DecodeUnion(u, j).Err?
  {
    UnionAccepts(u, j);
    forall k' | k' in Members(u)
      ensures TagOf(j) != Ok(Tag(k'))
    {
      TagInjective(k, k');
    }
  }

  /** A tag that names no node type is refused by every union. */
  lemma UnknownTagRejected(u: Union, j: Json)
    requires TagOf(j).Ok? && ParseNodeType(TagOf(j).value) == None
    ensures DecodeUnion(u, j).Err?
  {
    UnionAccepts(u, j);
    forall k | k in Members(u)
      ensures TagOf(j) != Ok(Tag(k))
    {
      ParseTag(k);
    }
  }

  /** The value a union decodes holds the node `j` decodes to as that node's struct. */
  lemma DecodedNode(u: Union, j: Json)
    requires DecodeUnion(u, j).Ok?
    ensures NodeOf(DecodeUnion(u, j).value).nodeType in Members(u)
    ensures DecodeNode(NodeOf(DecodeUnion(u, j).value).nodeType, j) == Ok(NodeOf(DecodeUnion(u, j).value))
  {
    AltsAccept(u, 0, j, []);
  }

  // ---------------------------------------------------------------------------
  // The exact members of each union
  // ---------------------------------------------------------------------------

  /** Earlier alternatives admit at least what later ones do. */
  lemma {:induction false} AltMembersGrow(u: Union, i: nat, k: nat)
    requires i <= k <= |Alts(u)|
    ensures AltMembers(u, k) <= AltMembers(u, i)
    decreases k - i
  {
    if i < k {
      AltMembersGrow(u, i + 1, k);
    }
  }

  /** A nested union adds its own members. */
  lemma NestedStep(u: Union, i: nat, w: Union)
    requires i < |Alts(u)| && Alts(u)[i] == Nested(w)
    ensures AltMembers(u, i) == Members(w) + AltMembers(u, i + 1)
  {
  }

  /** One struct alternative adds its node type to the members. */
  lemma MemberStep(u: Union, i: nat, t: NodeType)
    requires i < |Alts(u)| && Alts(u)[i] == Struct(t)
    ensures AltMembers(u, i) == {t} + AltMembers(u, i + 1)
  {
  }

  // Table facts, one per alternative, generated from the union tables. Each reads
  // off one entry of the alternatives list; the proof is in the chunk lemmas
  // that chain them, so most of these need no body.

  lemma StatementAlt0()
    ensures AltMembers(Statement, 0) == {ExpressionStatementNodeType} + AltMembers(Statement, 1)
  {
    assert Alts(Statement)[0] == Struct(ExpressionStatementNodeType);
    MemberStep(Statement, 0, ExpressionStatementNodeType);
  }

  lemma StatementAlt1()
    ensures AltMembers(Statement, 1) == {DirectiveNodeType} + AltMembers(Statement, 2)
  {
    assert Alts(Statement)[1] == Struct(DirectiveNodeType);
    MemberStep(Statement, 1, DirectiveNodeType);
  }

  lemma StatementAlt2()
    ensures AltMembers(Statement, 2) == {BlockStatementNodeType} + AltMembers(Statement, 3)
  {
    assert Alts(Statement)[2] == Struct(BlockStatementNodeType);
    MemberStep(Statement, 2, BlockStatementNodeType);
  }

  lemma StatementAlt3()
    ensures AltMembers(Statement, 3) == {EmptyStatementNodeType} + AltMembers(Statement, 4)
  {
    assert Alts(Statement)[3] == Struct(EmptyStatementNodeType);
    MemberStep(Statement, 3, EmptyStatementNodeType);
  }

  lemma StatementAlt4()
    ensures AltMembers(Statement, 4) == {DebuggerStatementNodeType} + AltMembers(Statement, 5)
  {
    assert Alts(Statement)[4] == Struct(DebuggerStatementNodeType);
    MemberStep(Statement, 4, DebuggerStatementNodeType);
  }

  lemma StatementAlt5()
    ensures AltMembers(Statement, 5) == {WithStatementNodeType} + AltMembers(Statement, 6)
  {
    assert Alts(Statement)[5] == Struct(WithStatementNodeType);
    MemberStep(Statement, 5, WithStatementNodeType);
  }

  lemma StatementAlt6()
    ensures AltMembers(Statement, 6) == {ReturnStatementNodeType} + AltMembers(Statement, 7)
  {
    assert Alts(Statement)[6] == Struct(ReturnStatementNodeType);
    MemberStep(Statement, 6, ReturnStatementNodeType);
  }

  lemma StatementAlt7()
    ensures AltMembers(Statement, 7) == {LabeledStatementNodeType} + AltMembers(Statement, 8)
  {
    assert Alts(Statement)[7] == Struct(LabeledStatementNodeType);
    MemberStep(Statement, 7, LabeledStatementNodeType);
  }

  lemma StatementAlt8()
    ensures AltMembers(Statement, 8) == {BreakStatementNodeType} + AltMembers(Statement, 9)
  {
    assert Alts(Statement)[8] == Struct(BreakStatementNodeType);
    MemberStep(Statement, 8, BreakStatementNodeType);
  }

  lemma StatementAlt9()
    ensures AltMembers(Statement, 9) == {ContinueStatementNodeType} + AltMembers(Statement, 10)
  {
    assert Alts(Statement)[9] == Struct(ContinueStatementNodeType);
    MemberStep(Statement, 9, ContinueStatementNodeType);
  }

  lemma StatementAlt10()
    ensures AltMembers(Statement, 10) == {IfStatementNodeType} + AltMembers(Statement, 11)
  {
    assert Alts(Statement)[10] == Struct(IfStatementNodeType);
    MemberStep(Statement, 10, IfStatementNodeType);
  }

  lemma StatementAlt11()
    ensures AltMembers(Statement, 11) == {SwitchStatementNodeType} + AltMembers(Statement, 12)
  {
    assert Alts(Statement)[11] == Struct(SwitchStatementNodeType);
    MemberStep(Statement, 11, SwitchStatementNodeType);
  }

  lemma StatementAlt12()
    ensures AltMembers(Statement, 12) == {ThrowStatementNodeType} + AltMembers(Statement, 13)
  {
    assert Alts(Statement)[12] == Struct(ThrowStatementNodeType);
    MemberStep(Statement, 12, ThrowStatementNodeType);
  }

  lemma StatementAlt13()
    ensures AltMembers(Statement, 13) == {TryStatementNodeType} + AltMembers(Statement, 14)
  {
    assert Alts(Statement)[13] == Struct(TryStatementNodeType);
    MemberStep(Statement, 13, TryStatementNodeType);
  }

  lemma StatementAlt14()
    ensures AltMembers(Statement, 14) == {WhileStatementNodeType} + AltMembers(Statement, 15)
  {
    assert Alts(Statement)[14] == Struct(WhileStatementNodeType);
    MemberStep(Statement, 14, WhileStatementNodeType);
  }

  lemma StatementAlt15()
    ensures AltMembers(Statement, 15) == {DoWhileStatementNodeType} + AltMembers(Statement, 16)
  {
    assert Alts(Statement)[15] == Struct(DoWhileStatementNodeType);
    MemberStep(Statement, 15, DoWhileStatementNodeType);
  }

  lemma StatementAlt16()
    ensures AltMembers(Statement, 16) == {ForStatementNodeType} + AltMembers(Statement, 17)
  {
    assert Alts(Statement)[16] == Struct(ForStatementNodeType);
    MemberStep(Statement, 16, ForStatementNodeType);
  }

  lemma StatementAlt17()
    ensures AltMembers(Statement, 17) == {ForInStatementNodeType} + AltMembers(Statement, 18)
  {
    assert Alts(Statement)[17] == Struct(ForInStatementNodeType);
    MemberStep(Statement, 17, ForInStatementNodeType);
  }

  lemma StatementMembersFrom0()
    ensures AltMembers(Statement, 0) == {ExpressionStatementNodeType, DirectiveNodeType, BlockStatementNodeType, EmptyStatementNodeType} + AltMembers(Statement, 4)
  {
    StatementAlt0();
    StatementAlt1();
    StatementAlt2();
    StatementAlt3();
  }

  lemma StatementMembersFrom4()
    ensures AltMembers(Statement, 4) == {DebuggerStatementNodeType, WithStatementNodeType, ReturnStatementNodeType, LabeledStatementNodeType} + AltMembers(Statement, 8)
  {
    StatementAlt4();
    StatementAlt5();
    StatementAlt6();
    StatementAlt7();
  }

  lemma StatementMembersFrom8()
    ensures AltMembers(Statement, 8) == {BreakStatementNodeType, ContinueStatementNodeType, IfStatementNodeType, SwitchStatementNodeType} + AltMembers(Statement, 12)
  {
    StatementAlt8();
    StatementAlt9();
    StatementAlt10();
    StatementAlt11();
  }

  lemma StatementMembersFrom12()
    ensures AltMembers(Statement, 12) == {ThrowStatementNodeType, TryStatementNodeType, WhileStatementNodeType, DoWhileStatementNodeType} + AltMembers(Statement, 16)
  {
    StatementAlt12();
    StatementAlt13();
    StatementAlt14();
    StatementAlt15();
  }

  lemma StatementMembersFrom16()
    ensures AltMembers(Statement, 16) ==
      {ForStatementNodeType, ForInStatementNodeType, FunctionDeclarationNodeType, VariableDeclarationNodeType}
  {
    StatementAlt16();
    StatementAlt17();
    StatementTail();
  }

  /** The last alternative of `Statement` is the `Declaration` union. */
  lemma StatementTail()
    ensures AltMembers(Statement, 18) == {FunctionDeclarationNodeType, VariableDeclarationNodeType}
  {
    assert Alts(Statement)[18] == Nested(Declaration);
    NestedStep(Statement, 18, Declaration);
    SmallUnionMembers();
    assert AltMembers(Statement, 19) == {};
  }

  // Table facts, one per alternative, generated from the union tables. Each reads
  // off one entry of the alternatives list; the proof is in the chunk lemmas
  // that chain them, so most of these need no body.

  lemma ExpressionAlt0()
    ensures AltMembers(Expression, 0) == {IdentifierNodeType} + AltMembers(Expression, 1)
  {
    assert Alts(Expression)[0] == Struct(IdentifierNodeType);
    MemberStep(Expression, 0, IdentifierNodeType);
  }

  lemma ExpressionAlt1()
    ensures AltMembers(Expression, 1) == {LiteralNodeType} + AltMembers(Expression, 2)
  {
    assert Alts(Expression)[1] == Struct(LiteralNodeType);
    MemberStep(Expression, 1, LiteralNodeType);
  }

  lemma ExpressionAlt2()
    ensures AltMembers(Expression, 2) == {RegExpLiteralNodeType} + AltMembers(Expression, 3)
  {
    assert Alts(Expression)[2] == Struct(RegExpLiteralNodeType);
    MemberStep(Expression, 2, RegExpLiteralNodeType);
  }

  lemma ExpressionAlt3()
    ensures AltMembers(Expression, 3) == {ThisExpressionNodeType} + AltMembers(Expression, 4)
  {
    assert Alts(Expression)[3] == Struct(ThisExpressionNodeType);
    MemberStep(Expression, 3, ThisExpressionNodeType);
  }

  lemma ExpressionAlt4()
    ensures AltMembers(Expression, 4) == {ArrayExpressionNodeType} + AltMembers(Expression, 5)
  {
    assert Alts(Expression)[4] == Struct(ArrayExpressionNodeType);
    MemberStep(Expression, 4, ArrayExpressionNodeType);
  }

  lemma ExpressionAlt5()
    ensures AltMembers(Expression, 5) == {ObjectExpressionNodeType} + AltMembers(Expression, 6)
  {
    assert Alts(Expression)[5] == Struct(ObjectExpressionNodeType);
    MemberStep(Expression, 5, ObjectExpressionNodeType);
  }

  lemma ExpressionAlt6()
    ensures AltMembers(Expression, 6) == {UnaryExpressionNodeType} + AltMembers(Expression, 7)
  {
    assert Alts(Expression)[6] == Struct(UnaryExpressionNodeType);
    MemberStep(Expression, 6, UnaryExpressionNodeType);
  }

  lemma ExpressionAlt7()
    ensures AltMembers(Expression, 7) == {UpdateExpressionNodeType} + AltMembers(Expression, 8)
  {
    assert Alts(Expression)[7] == Struct(UpdateExpressionNodeType);
    MemberStep(Expression, 7, UpdateExpressionNodeType);
  }

  lemma ExpressionAlt8()
    ensures AltMembers(Expression, 8) == {BinaryExpressionNodeType} + AltMembers(Expression, 9)
  {
    assert Alts(Expression)[8] == Struct(BinaryExpressionNodeType);
    MemberStep(Expression, 8, BinaryExpressionNodeType);
  }

  lemma ExpressionAlt9()
    ensures AltMembers(Expression, 9) == {AssignmentExpressionNodeType} + AltMembers(Expression, 10)
  {
    assert Alts(Expression)[9] == Struct(AssignmentExpressionNodeType);
    MemberStep(Expression, 9, AssignmentExpressionNodeType);
  }

  lemma ExpressionAlt10()
    ensures AltMembers(Expression, 10) == {LogicalExpressionNodeType} + AltMembers(Expression, 11)
  {
    assert Alts(Expression)[10] == Struct(LogicalExpressionNodeType);
    MemberStep(Expression, 10, LogicalExpressionNodeType);
  }

  lemma ExpressionAlt11()
    ensures AltMembers(Expression, 11) == {MemberExpressionNodeType} + AltMembers(Expression, 12)
  {
    assert Alts(Expression)[11] == Struct(MemberExpressionNodeType);
    MemberStep(Expression, 11, MemberExpressionNodeType);
  }

  lemma ExpressionAlt12()
    ensures AltMembers(Expression, 12) == {ConditionalExpressionNodeType} + AltMembers(Expression, 13)
  {
    assert Alts(Expression)[12] == Struct(ConditionalExpressionNodeType);
    MemberStep(Expression, 12, ConditionalExpressionNodeType);
  }

  lemma ExpressionAlt13()
    ensures AltMembers(Expression, 13) == {CallExpressionNodeType} + AltMembers(Expression, 14)
  {
    assert Alts(Expression)[13] == Struct(CallExpressionNodeType);
    MemberStep(Expression, 13, CallExpressionNodeType);
  }

  lemma ExpressionAlt14()
    ensures AltMembers(Expression, 14) == {NewExpressionNodeType} + AltMembers(Expression, 15)
  {
    assert Alts(Expression)[14] == Struct(NewExpressionNodeType);
    MemberStep(Expression, 14, NewExpressionNodeType);
  }

  lemma ExpressionAlt15()
    ensures AltMembers(Expression, 15) == {SequenceExpressionNodeType} + AltMembers(Expression, 16)
  {
    assert Alts(Expression)[15] == Struct(SequenceExpressionNodeType);
    MemberStep(Expression, 15, SequenceExpressionNodeType);
  }

  lemma ExpressionMembersFrom0()
    ensures AltMembers(Expression, 0) == {IdentifierNodeType, LiteralNodeType, RegExpLiteralNodeType, ThisExpressionNodeType} + AltMembers(Expression, 4)
  {
    ExpressionAlt0();
    ExpressionAlt1();
    ExpressionAlt2();
    ExpressionAlt3();
  }

  lemma ExpressionMembersFrom4()
    ensures AltMembers(Expression, 4) == {ArrayExpressionNodeType, ObjectExpressionNodeType, UnaryExpressionNodeType, UpdateExpressionNodeType} + AltMembers(Expression, 8)
  {
    ExpressionAlt4();
    ExpressionAlt5();
    ExpressionAlt6();
    ExpressionAlt7();
  }

  lemma ExpressionMembersFrom8()
    ensures AltMembers(Expression, 8) == {BinaryExpressionNodeType, AssignmentExpressionNodeType, LogicalExpressionNodeType, MemberExpressionNodeType} + AltMembers(Expression, 12)
  {
    ExpressionAlt8();
    ExpressionAlt9();
    ExpressionAlt10();
    ExpressionAlt11();
  }

  lemma ExpressionMembersFrom12()
    ensures AltMembers(Expression, 12) ==
      {ConditionalExpressionNodeType, CallExpressionNodeType, NewExpressionNodeType, SequenceExpressionNodeType}
  {
    ExpressionAlt12();
    ExpressionAlt13();
    ExpressionAlt14();
    ExpressionAlt15();
    assert AltMembers(Expression, 16) == {};
  }

  const StatementNodeTypes: set<NodeType> := {
    ExpressionStatementNodeType, DirectiveNodeType, BlockStatementNodeType, EmptyStatementNodeType,
    DebuggerStatementNodeType, WithStatementNodeType, ReturnStatementNodeType, LabeledStatementNodeType,
    BreakStatementNodeType, ContinueStatementNodeType, IfStatementNodeType, SwitchStatementNodeType,
    ThrowStatementNodeType, TryStatementNodeType, WhileStatementNodeType, DoWhileStatementNodeType,
    ForStatementNodeType, ForInStatementNodeType, FunctionDeclarationNodeType, VariableDeclarationNodeType}

  const ExpressionNodeTypes: set<NodeType> := {
    IdentifierNodeType, LiteralNodeType, RegExpLiteralNodeType, ThisExpressionNodeType,
    ArrayExpressionNodeType, ObjectExpressionNodeType, UnaryExpressionNodeType, UpdateExpressionNodeType,
    BinaryExpressionNodeType, AssignmentExpressionNodeType, LogicalExpressionNodeType, MemberExpressionNodeType,
    ConditionalExpressionNodeType, CallExpressionNodeType, NewExpressionNodeType, SequenceExpressionNodeType}

  /** `Statement` admits 18 statement structs, `LabeledStatement` among them and
      no `ForOfStatement`, and the two `Declaration` structs. */
  lemma StatementMembers()
    ensures Members(Statement) == StatementNodeTypes
  {
    assert Members(Statement) == AltMembers(Statement, 0);
    StatementMembersFrom0();
    StatementMembersFrom4();
    StatementMembersUpper();
  }

  lemma StatementMembersUpper()
    ensures AltMembers(Statement, 8) == {
      BreakStatementNodeType, ContinueStatementNodeType, IfStatementNodeType, SwitchStatementNodeType,
      ThrowStatementNodeType, TryStatementNodeType, WhileStatementNodeType, DoWhileStatementNodeType,
      ForStatementNodeType, ForInStatementNodeType, FunctionDeclarationNodeType, VariableDeclarationNodeType}
  {
    StatementMembersFrom8();
    StatementMembersFrom12();
    StatementMembersFrom16();
  }

  /** `Expression` admits exactly its 16 structs. */
  lemma ExpressionMembers()
    ensures Members(Expression) == ExpressionNodeTypes
  {
    assert Members(Expression) == AltMembers(Expression, 0);
    ExpressionMembersFrom0();
    ExpressionMembersFrom4();
    ExpressionMembersUpper();
  }

  lemma ExpressionMembersUpper()
    ensures AltMembers(Expression, 8) == {
      BinaryExpressionNodeType, AssignmentExpressionNodeType, LogicalExpressionNodeType, MemberExpressionNodeType,
      ConditionalExpressionNodeType, CallExpressionNodeType, NewExpressionNodeType, SequenceExpressionNodeType}
  {
    ExpressionMembersFrom8();
    ExpressionMembersFrom12();
  }

  /** `Declaration`, `Pattern` and `Function` admit two structs each. */
  lemma SmallUnionMembers()
    ensures Members(Declaration) == {FunctionDeclarationNodeType, VariableDeclarationNodeType}
    ensures Members(Pattern) == {IdentifierNodeType, MemberExpressionNodeType}
    ensures Members(Function) == {FunctionDeclarationNodeType, FunctionExpressionNodeType}
  {
  }

  /** A `Program` body item admits what `Statement` admits: its `Declaration`
      alternative adds nothing, since `Statement` already nests `Declaration`. */
  lemma ProgramBodyMembers()
    ensures Members(ProgramBody) == Members(Statement)
  {
    DeclarationInStatement();
    ProgramBodySplit();
  }

  lemma DeclarationInStatement()
    ensures Members(Declaration) <= Members(Statement)
  {
    assert Alts(Statement)[18] == Nested(Declaration);
    NestedStep(Statement, 18, Declaration);
    AltMembersGrow(Statement, 0, 18);
  }

  lemma ProgramBodySplit()
    ensures Members(ProgramBody) == Members(Declaration) + Members(Statement)
  {
    assert Alts(ProgramBody)[0] == Nested(Declaration);
    NestedStep(ProgramBody, 0, Declaration);
    assert Alts(ProgramBody)[1] == Nested(Statement);
    NestedStep(ProgramBody, 1, Statement);
    assert AltMembers(ProgramBody, 2) == {};
  }

  /** "ForOfStatement" is not an ES5 tag, so no statement decodes from it. */
  lemma ForOfStatementRejected(j: Json)
    requires TagOf(j) == Ok("ForOfStatement")
    ensures DecodeUnion(Statement, j).Err?
  {
    assert ParseNodeType("ForOfStatement") == None;
    UnknownTagRejected(Statement, j);
  }

  // ---------------------------------------------------------------------------
  // Round trip
  // ---------------------------------------------------------------------------

  /** What a node decoder reads from an object: the tag and the two metadata results. */
  function NodeKey(j: Json): (Result<string>, Result<Option<SourceLocation>>, Result<Option<seq<int>>>)
    requires j.JObject?
  {
    (TagOf(j), IfPresent(j, "loc", DecodeLocation), IfPresent(j, "range", DecodeInts))
  }

  lemma NodeSameKey(t: NodeType, j1: Json, j2: Json)
    requires j1.JObject? && j2.JObject? && NodeKey(j1) == NodeKey(j2)
    ensures DecodeNode(t, j1) == DecodeNode(t, j2)
  {
  }

  /** A union reads nothing of an object but its tag and its metadata. */
  lemma {:induction false} AltsSameKey(u: Union, i: nat, j1: Json, j2: Json, errs: seq<DecodeError>)
    requires i <= |Alts(u)| && j1.JObject? && j2.JObject? && NodeKey(j1) == NodeKey(j2)
    ensures DecodeAlts(u, i, j1, errs) == DecodeAlts(u, i, j2, errs)
    decreases Depth(u), 0, |Alts(u)| - i
  {
    if i < |Alts(u)| {
      match Alts(u)[i]
      case Struct(t) =>
        NodeSameKey(t, j1, j2);
        var e := if DecodeNode(t, j1).Err? then DecodeNode(t, j1).error else NoAlternative([]);
        AltsSameKey(u, i + 1, j1, j2, errs + [e]);
        StructStep(u, i, j1, errs, t);
        StructStep(u, i, j2, errs, t);
      case Nested(w) =>
        AltsSameKey(w, 0, j1, j2, []);
        var e := if DecodeUnion(w, j1).Err? then DecodeUnion(w, j1).error else NoAlternative([]);
        AltsSameKey(u, i + 1, j1, j2, errs + [e]);
        NestedAltStep(u, i, j1, errs, w);
        NestedAltStep(u, i, j2, errs, w);
    }
  }

  /** Two objects that decode to the same node read the same tag and metadata. */
  lemma DecodedKey(t: NodeType, j1: Json, j2: Json, n: Node)
    requires DecodeNode(t, j1) == Ok(n) && DecodeNode(t, j2) == Ok(n)
    ensures j1.JObject? && j2.JObject? && NodeKey(j1) == NodeKey(j2)
  {
  }

  lemma EncodeNodeOf(v: Value)
    ensures Encode(v) == EncodeNode(NodeOf(v))
  {
  }

  /** Decoding is idempotent: re-decoding the encoding of a decoded union gives
      the same value.  (A union value need not survive encoding and decoding
      on its own: under first-match dispatch a `FunctionDeclaration` always
      comes back as the first alternative that admits it.) */
  lemma UnionIdempotent(u: Union, j: Json)
    requires DecodeUnion(u, j).Ok?
    ensures DecodeUnion(u, Encode(DecodeUnion(u, j).value)) == DecodeUnion(u, j)
  {
    var v := DecodeUnion(u, j).value;
    var n := NodeOf(v);
    DecodedNode(u, j);
    NodeAccepts(n.nodeType, j);
    NodeRoundTrip(n);
    EncodeNodeOf(v);
    DecodedKey(n.nodeType, EncodeNode(n), j, n);
    AltsSameKey(u, 0, EncodeNode(n), j, []);
  }

  // ---------------------------------------------------------------------------
  // Program
  // ---------------------------------------------------------------------------

  /** `Program`'s `Decodable`: the tag "Program", the required body, then the metadata. */
  function DecodeProgram(j: Json): Result<Program> {
    var _ :- Tagged(j, Tag(ProgramNodeType));
    var body :- Required(j, "body", DecodeBody);
    var loc :- IfPresent(j, "loc", DecodeLocation);
    var range :- IfPresent(j, "range", DecodeInts);
    Ok(Program(body, loc, range))
  }

  /** One body item: `OneOf<Declaration>.Or<Statement>`. */
  function DecodeBodyItem(j: Json): Result<Value> {
    DecodeUnion(ProgramBody, j)
  }

  function DecodeBody(j: Json): Result<seq<Value>> {
    if j.JArray? then DecodeArray(DecodeBodyItem, j.items, 0) else Err(ShapeMismatch("array"))
  }

  function EncodeBody(body: seq<Value>): Json {
    EncodeArray(Encode, body)
  }

  function EncodeProgram(p: Program): Json {
    JObject(PutIfPresent(PutIfPresent(
      map["type" := JString(Tag(ProgramNodeType)), "body" := EncodeBody(p.body)],
      "loc", p.loc, EncodeLocation), "range", p.range, EncodeInts))
  }

  /** A decoded program keeps its body: as many items as the JSON array, each
      decoded from the item at the same position. */
  lemma ProgramBodyKept(j: Json)
    requires DecodeProgram(j).Ok?
    ensures j.JObject? && "body" in j.fields && j.fields["body"].JArray?
    ensures |DecodeProgram(j).value.body| == |j.fields["body"].items|
    ensures forall k | 0 <= k < |j.fields["body"].items| ::
      DecodeUnion(ProgramBody, j.fields["body"].items[k]) == Ok(DecodeProgram(j).value.body[k])
  {
    var items := j.fields["body"].items;
    ArrayOk(DecodeBodyItem, items, 0);
    var d := DecodeArray(DecodeBodyItem, items, 0).value;
    assert forall k | 0 <= k < |d| :: items[0 + k] == items[k];
  }

  /** The encoding of a decoded body decodes to the same items. */
  lemma BodyIdempotent(items: seq<Json>)
    requires DecodeArray(DecodeBodyItem, items, 0).Ok?
    ensures DecodeBody(EncodeBody(DecodeArray(DecodeBodyItem, items, 0).value)) == DecodeArray(DecodeBodyItem, items, 0)
  {
    forall k | 0 <= k < |items| && DecodeBodyItem(items[k]).Ok?
      ensures DecodeBodyItem(Encode(DecodeBodyItem(items[k]).value)) == DecodeBodyItem(items[k])
    {
      UnionIdempotent(ProgramBody, items[k]);
    }
    ArrayReencodes(DecodeBodyItem, Encode, items);
  }

  /** Decoding a program is idempotent: its encoding decodes to the same program. */
  lemma ProgramIdempotent(j: Json)
    requires DecodeProgram(j).Ok?
    ensures DecodeProgram(EncodeProgram(DecodeProgram(j).value)) == DecodeProgram(j)
  {
    var p := DecodeProgram(j).value;
    BodyIdempotent(j.fields["body"].items);
    NodeAccepts(ProgramNodeType, j);
    var n := Node(ProgramNodeType, p.loc, p.range);
    NodeRoundTrip(n);
    var m := EncodeProgram(p).fields;
    assert "type" in m && m["type"] == JString(Tag(ProgramNodeType));
    assert "body" in m && m["body"] == EncodeBody(p.body);
    assert p.loc.Some? <==> "loc" in m;
    assert p.range.Some? <==> "range" in m;
    assert p.loc.Some? ==> m["loc"] == EncodeNode(n).fields["loc"];
    assert p.range.Some? ==> m["range"] == EncodeNode(n).fields["range"];
  }

  /** First match in a body item: a function declaration is taken by the
      `Declaration` alternative, never by the `Declaration` nested at the end
      of `Statement`. */
  lemma BodyPrefersDeclaration(j: Json)
    requires DecodeUnion(ProgramBody, j).Ok? && TagOf(j) == Ok(Tag(FunctionDeclarationNodeType))
    ensures DecodeNode(FunctionDeclarationNodeType, j).Ok?
    ensures DecodeUnion(ProgramBody, j) == Ok(Choice(0, Choice(0, Leaf(DecodeNode(FunctionDeclarationNodeType, j).value))))
  {
    UnionAccepts(ProgramBody, j);
    NodeAccepts(FunctionDeclarationNodeType, j);
    assert Alts(ProgramBody)[0] == Nested(Declaration);
    assert Alts(Declaration)[0] == Struct(FunctionDeclarationNodeType);
  }
}
