/**
 A way to write any turn-pair as bytes and read it back: values become rose trees,
 and trees become balanced brackets.
 */
module Codecs {
  import opened Options
  import opened Spill
  import opened Conversation

  datatype Tree = Node(kids: seq<Tree>)

  const OPEN: Byte := 1
  const CLOSE: Byte := 0

  // ----- trees as brackets -----

  function Brackets(forest: seq<Tree>): Payload {
    if forest == [] then [] else [OPEN] + Brackets(forest[0].kids) + [CLOSE] + Brackets(forest[1..])
  }

  datatype Parsed = Parsed(forest: seq<Tree>, rest: Payload)

  /** Read trees up to an unmatched closing bracket, or the end. */
  function Parse(s: Payload): (r: Parsed)
    ensures |r.rest| <= |s| && (s != [] ==> |r.rest| < |s|)
    decreases |s|
  {
    if s == [] then Parsed([], [])
    else if s[0] == CLOSE then Parsed([], s[1..])
    else
      var first := Parse(s[1..]);
      var more := Parse(first.rest);
      Parsed([Node(first.forest)] + more.forest, more.rest)
  }

  lemma ParseOpen(s: Payload, kids: seq<Tree>, after: Payload, others: seq<Tree>, rest: Payload)
    requires Parse(s) == Parsed(kids, after) && Parse(after) == Parsed(others, rest)
    ensures Parse([OPEN] + s) == Parsed([Node(kids)] + others, rest)
  {
    assert ([OPEN] + s)[1..] == s;
  }

  lemma BracketsOpen(forest: seq<Tree>, rest: Payload)
    requires forest != []
    ensures Brackets(forest) + [CLOSE] + rest
         == [OPEN] + (Brackets(forest[0].kids) + [CLOSE] + (Brackets(forest[1..]) + [CLOSE] + rest))
  {
  }

  lemma {:induction false} ParseBrackets(forest: seq<Tree>, rest: Payload)
    ensures Parse(Brackets(forest) + [CLOSE] + rest) == Parsed(forest, rest)
    decreases forest
  {
    if forest == [] {
      assert Brackets(forest) + [CLOSE] + rest == [CLOSE] + rest;
    } else {
      var kids, others := forest[0].kids, forest[1..];
      var after := Brackets(others) + [CLOSE] + rest;
      ParseBrackets(kids, after);
      ParseBrackets(others, rest);
      BracketsOpen(forest, rest);
      ParseOpen(Brackets(kids) + [CLOSE] + after, kids, after, others, rest);
      assert forest == [Node(kids)] + others;
    }
  }

  function ToBytes(t: Tree): Payload {
    Brackets([t]) + [CLOSE]
  }

  function FromBytes(p: Payload): Tree {
    var forest := Parse(p).forest;
    if |forest| == 1 then forest[0] else Node([])
  }

  lemma BytesRoundTrip(t: Tree)
    ensures FromBytes(ToBytes(t)) == t
  {
    assert ToBytes(t) == Brackets([t]) + [CLOSE] + [];
    ParseBrackets([t], []);
  }

  // ----- values as trees -----

  function Each<T>(s: seq<T>, f: T -> Tree): Tree {
    Node(seq(|s|, i requires 0 <= i < |s| => f(s[i])))
  }

  function Back<T>(t: Tree, g: Tree -> T): seq<T> {
    seq(|t.kids|, i requires 0 <= i < |t.kids| => g(t.kids[i]))
  }

  ghost predicate Undoes<T(!new)>(f: T -> Tree, g: Tree -> T) {
    forall x :: g(f(x)) == x
  }

  lemma BackEach<T(!new)>(s: seq<T>, f: T -> Tree, g: Tree -> T)
    requires Undoes(f, g)
    ensures Back(Each(s, f), g) == s
  {
    var t := Each(s, f);
    forall i | 0 <= i < |s| ensures Back(t, g)[i] == s[i] {
      assert t.kids[i] == f(s[i]);
    }
  }

  /** The `i`-th part of a record. */
  function Part(t: Tree, i: nat): Tree {
    if i < |t.kids| then t.kids[i] else Node([])
  }

  function OfNat(n: nat): Tree {
    Node(seq(n, _ => Node([])))
  }

  function ToNat(t: Tree): nat {
    |t.kids|
  }

  function OfChar(c: char): Tree {
    OfNat(c as nat)
  }

  function ToChar(t: Tree): char {
    var n := ToNat(t);
    if n < 0xD800 || 0xE000 <= n < 0x110000 then n as char else ' '
  }

  function OfByte(b: Byte): Tree {
    OfNat(b)
  }

  function ToByte(t: Tree): Byte {
    if ToNat(t) < 256 then ToNat(t) else 0
  }

  function OfString(s: string): Tree {
    Each(s, OfChar)
  }

  function ToString(t: Tree): string {
    Back(t, ToChar)
  }

  lemma StringBack(s: string)
    ensures ToString(OfString(s)) == s
  {
    forall c ensures ToChar(OfChar(c)) == c {
    }
    BackEach(s, OfChar, ToChar);
  }

  function OfPayload(p: Payload): Tree {
    Each(p, OfByte)
  }

  function ToPayload(t: Tree): Payload {
    Back(t, ToByte)
  }

  lemma PayloadBack(p: Payload)
    ensures ToPayload(OfPayload(p)) == p
  {
    forall b ensures ToByte(OfByte(b)) == b {
    }
    BackEach(p, OfByte, ToByte);
  }

  function OfCall(c: ToolCall): Tree {
    Node([OfString(c.id), OfString(c.name), OfString(c.arguments)])
  }

  function ToCall(t: Tree): ToolCall {
    ToolCall(ToString(Part(t, 0)), ToString(Part(t, 1)), ToString(Part(t, 2)))
  }

  lemma CallBack()
    ensures Undoes(OfCall, ToCall)
  {
    forall c: ToolCall ensures ToCall(OfCall(c)) == c {
      StringBack(c.id);
      StringBack(c.name);
      StringBack(c.arguments);
    }
  }

  function OfLine(l: Line): Tree {
    Node([OfNat(l.index), Each(l.calls, OfCall), OfNat(l.bytes), OfNat(l.slot)])
  }

  function ToLine(t: Tree): Line {
    Line(ToNat(Part(t, 0)), Back(Part(t, 1), ToCall), ToNat(Part(t, 2)), ToNat(Part(t, 3)))
  }

  lemma LineBack()
    ensures Undoes(OfLine, ToLine)
  {
    CallBack();
    forall l: Line ensures ToLine(OfLine(l)) == l {
      BackEach(l.calls, OfCall, ToCall);
    }
  }

  function OfOption(o: Option<string>): Tree {
    if o.None? then Node([]) else Node([OfString(o.value)])
  }

  function ToOption(t: Tree): Option<string> {
    if t.kids == [] then None else Some(ToString(t.kids[0]))
  }

  function OfKey(k: KeySpec): Tree {
    Node([OfString(k.key), OfOption(k.ty)])
  }

  function ToKey(t: Tree): KeySpec {
    KeySpec(ToString(Part(t, 0)), ToOption(Part(t, 1)))
  }

  lemma KeyBack()
    ensures Undoes(OfKey, ToKey)
  {
    forall k: KeySpec ensures ToKey(OfKey(k)) == k {
      StringBack(k.key);
      if k.ty.Some? {
        StringBack(k.ty.value);
      }
    }
  }

  /** A variant: its number, then its parts. */
  function Variant(tag: nat, parts: seq<Tree>): Tree {
    Node([OfNat(tag)] + parts)
  }

  function Tag(t: Tree): nat {
    ToNat(Part(t, 0))
  }

  function OfWords(w: Words): Tree {
    match w
    case Written(text) => Variant(0, [OfString(text)])
    case WriteEvidence => Variant(1, [])
    case AnyObject => Variant(2, [])
    case OutputKeys(keys) => Variant(3, [Each(keys, OfKey)])
  }

  function ToWords(t: Tree): Words {
    if Tag(t) == 0 then Written(ToString(Part(t, 1)))
    else if Tag(t) == 1 then WriteEvidence
    else if Tag(t) == 2 then AnyObject
    else OutputKeys(Back(Part(t, 1), ToKey))
  }

  lemma WordsBack(w: Words)
    ensures ToWords(OfWords(w)) == w
  {
    match w
    case Written(text) => StringBack(text);
    case OutputKeys(keys) =>
      KeyBack();
      BackEach(keys, OfKey, ToKey);
    case _ =>
  }

  function OfText(t: ToolText): Tree {
    match t
    case Whole(text) => Variant(0, [OfPayload(text)])
    case Handle(slot, bytes, head, readStart, readEnd) =>
      Variant(1, [OfNat(slot), OfNat(bytes), OfPayload(head), OfNat(readStart), OfNat(readEnd)])
  }

  function ToText(t: Tree): ToolText {
    if Tag(t) == 0 then Whole(ToPayload(Part(t, 1)))
    else Handle(ToNat(Part(t, 1)), ToNat(Part(t, 2)), ToPayload(Part(t, 3)), ToNat(Part(t, 4)), ToNat(Part(t, 5)))
  }

  lemma TextBack(t: ToolText)
    ensures ToText(OfText(t)) == t
  {
    PayloadBack(if t.Whole? then t.text else t.head);
  }

  function OfRead(r: Read): Tree {
    match r
    case Window(bytes) => Variant(0, [OfPayload(bytes)])
    case UnknownSlot => Variant(1, [])
    case BadSlice => Variant(2, [])
  }

  function ToRead(t: Tree): Read {
    if Tag(t) == 0 then Window(ToPayload(Part(t, 1))) else if Tag(t) == 1 then UnknownSlot else BadSlice
  }

  lemma ReadBack(r: Read)
    ensures ToRead(OfRead(r)) == r
  {
    if r.Window? {
      PayloadBack(r.bytes);
    }
  }

  function OfOutput(o: Output): Tree {
    match o
    case Shown(text) => Variant(0, [OfText(text)])
    case Recalled(read) => Variant(1, [OfRead(read)])
    case BadArguments => Variant(2, [])
    case AwaitedAlready => Variant(3, [])
    case HumanReply(reply) => Variant(4, [OfString(reply)])
  }

  function ToOutput(t: Tree): Output {
    if Tag(t) == 0 then Shown(ToText(Part(t, 1)))
    else if Tag(t) == 1 then Recalled(ToRead(Part(t, 1)))
    else if Tag(t) == 2 then BadArguments
    else if Tag(t) == 3 then AwaitedAlready
    else HumanReply(ToString(Part(t, 1)))
  }

  lemma OutputBack(o: Output)
    ensures ToOutput(OfOutput(o)) == o
  {
    match o
    case Shown(text) => TextBack(text);
    case Recalled(read) => ReadBack(read);
    case HumanReply(reply) => StringBack(reply);
    case _ =>
  }

  function OfItem(i: Item): Tree {
    match i
    case Prose(words) => Variant(0, [OfWords(words)])
    case Image(data) => Variant(1, [OfString(data)])
    case Result(id, output) => Variant(2, [OfString(id), OfOutput(output)])
    case Recallable(lines) => Variant(3, [Each(lines, OfLine)])
  }

  function ToItem(t: Tree): Item {
    if Tag(t) == 0 then Prose(ToWords(Part(t, 1)))
    else if Tag(t) == 1 then Image(ToString(Part(t, 1)))
    else if Tag(t) == 2 then Result(ToString(Part(t, 1)), ToOutput(Part(t, 2)))
    else Recallable(Back(Part(t, 1), ToLine))
  }

  lemma ItemBack(i: Item)
    ensures ToItem(OfItem(i)) == i
  {
    match i
    case Prose(words) => WordsBack(words);
    case Image(data) => StringBack(data);
    case Result(id, output) =>
      StringBack(id);
      OutputBack(output);
    case Recallable(lines) =>
      LineBack();
      BackEach(lines, OfLine, ToLine);
  }

  function OfMsg(m: Msg): Tree {
    match m
    case User(items) => Variant(0, [Each(items, OfItem)])
    case Assistant(text, calls) => Variant(1, [OfString(text), Each(calls, OfCall)])
  }

  function ToMsg(t: Tree): Msg {
    if Tag(t) == 0 then User(Back(Part(t, 1), ToItem))
    else Assistant(ToString(Part(t, 1)), Back(Part(t, 2), ToCall))
  }

  lemma MsgBack(m: Msg)
    ensures ToMsg(OfMsg(m)) == m
  {
    match m
    case User(items) =>
      forall i: Item ensures ToItem(OfItem(i)) == i {
        ItemBack(i);
      }
      BackEach(items, OfItem, ToItem);
    case Assistant(text, calls) =>
      StringBack(text);
      CallBack();
      BackEach(calls, OfCall, ToCall);
  }

  function EncodePair(pair: Pair): Payload {
    ToBytes(Node([OfMsg(pair.assistant), OfMsg(pair.user)]))
  }

  function DecodePair(p: Payload): Option<Pair> {
    var t := FromBytes(p);
    Some(Pair(ToMsg(Part(t, 0)), ToMsg(Part(t, 1))))
  }

  /** There is a faithful way to store turn-pairs. */
  lemma BracketsAreFaithful()
    ensures Faithful(Codec(EncodePair, DecodePair))
  {
    var codec := Codec(EncodePair, DecodePair);
    forall pair: Pair ensures codec.decode(codec.encode(pair)) == Some(pair) {
      BytesRoundTrip(Node([OfMsg(pair.assistant), OfMsg(pair.user)]));
      MsgBack(pair.assistant);
      MsgBack(pair.user);
    }
  }
}
