/**
 The content-addressed spill store: oversized tool results and elided turns are
 kept whole under a slot and read back in byte windows that never split a
 character.
 */
module Spill {
  import opened Options

  type Byte = b: int | 0 <= b < 256

  type Payload = seq<Byte>

  // ----- UTF-8, section 3 of RFC 3629 -----

  type Scalar = c: int | 0 <= c < 0xD800 || 0xE000 <= c < 0x110000

  predicate IsContinuation(b: Byte) {
    0x80 <= b < 0xC0
  }

  /** The bytes of one character: a leading byte, then continuation bytes. */
  predicate IsGlyph(p: Payload) {
    1 <= |p| <= 4 && !IsContinuation(p[0]) && forall i | 1 <= i < |p| :: IsContinuation(p[i])
  }

  type Glyph = p: Payload | IsGlyph(p) witness [0x20]

  function Encoded(c: Scalar): Glyph {
    if c < 0x80 then [c]
    else if c < 0x800 then [0xC0 + c / 0x40, 0x80 + c % 0x40]
    else if c < 0x10000 then [0xE0 + c / 0x1000, 0x80 + c / 0x40 % 0x40, 0x80 + c % 0x40]
    else [0xF0 + c / 0x40000, 0x80 + c / 0x1000 % 0x40, 0x80 + c / 0x40 % 0x40, 0x80 + c % 0x40]
  }

  function Text(chars: seq<Glyph>): Payload {
    if chars == [] then [] else chars[0] + Text(chars[1..])
  }

  predicate Boundary(p: Payload, i: nat)
    requires i <= |p|
  {
    i == 0 || i == |p| || !IsContinuation(p[i])
  }

  lemma {:induction false} TextConcat(a: seq<Glyph>, b: seq<Glyph>)
    ensures Text(a + b) == Text(a) + Text(b)
  {
    if a == [] {
      assert a + b == b;
    } else {
      var tail := a[1..];
      TextConcat(tail, b);
      assert (a + b)[1..] == tail + b && (a + b)[0] == a[0];
      assert a[0] + (Text(tail) + Text(b)) == (a[0] + Text(tail)) + Text(b);
    }
  }

  /** A boundary of a text lies between two of its characters. */
  lemma {:induction false} BoundaryBetweenChars(chars: seq<Glyph>, i: nat) returns (k: nat)
    requires i <= |Text(chars)| && Boundary(Text(chars), i)
    ensures k <= |chars| && |Text(chars[..k])| == i
    decreases |chars|
  {
    if i == 0 {
      k := 0;
    } else {
      var n := |chars[0]|;
      assert forall m | 1 <= m < n :: IsContinuation(Text(chars)[m]);
      assert i < |Text(chars)| ==> Text(chars)[i] == Text(chars[1..])[i - n];
      var j := BoundaryBetweenChars(chars[1..], i - n);
      k := j + 1;
      assert chars[..k][1..] == chars[1..][..j];
    }
  }

  /** What lies between two boundaries of a text is itself text. */
  lemma SliceIsText(chars: seq<Glyph>, s: nat, e: nat) returns (i: nat, j: nat)
    requires s <= e <= |Text(chars)| && Boundary(Text(chars), s) && Boundary(Text(chars), e)
    ensures i <= j <= |chars| && Text(chars)[s..e] == Text(chars[i..j])
  {
    i := BoundaryBetweenChars(chars, s);
    j := BoundaryBetweenChars(chars, e);
    TextGrows(chars, j, i);
    assert chars == chars[..j] + chars[j..];
    TextConcat(chars[..j], chars[j..]);
    assert chars[..j] == chars[..i] + chars[i..j];
    TextConcat(chars[..i], chars[i..j]);
  }

  lemma TextGrows(chars: seq<Glyph>, i: nat, j: nat)
    requires i <= |chars| && j <= |chars|
    ensures i < j ==> |Text(chars[..i])| < |Text(chars[..j])|
  {
    if i < j {
      assert chars[..j] == chars[..i] + chars[i..j];
      TextConcat(chars[..i], chars[i..j]);
    }
  }

  // ----- windows -----

  /** The last boundary at or before `i`. */
  function Floor(p: Payload, i: nat): (r: nat)
    requires i <= |p|
    ensures r <= i && Boundary(p, r)
    ensures forall k | r < k <= i :: !Boundary(p, k)
  {
    if Boundary(p, i) then i else Floor(p, i - 1)
  }

  function Min(a: nat, b: nat): nat {
    if a <= b then a else b
  }

  datatype Read = Window(bytes: Payload) | UnknownSlot | BadSlice

  /** What a read of `[start, end)` from a known slot yields; `BadSlice` where the original's slice panics. */
  function ReadWindow(p: Payload, start: nat, end: nat): Read {
    if start >= |p| then Window([])
    else
      var s, e := Floor(p, start), Min(end, |p|);
      if e < s then BadSlice else Window(p[s..Floor(p, e)])
  }

  lemma FloorMonotone(p: Payload, i: nat, j: nat)
    requires i <= j <= |p|
    ensures Floor(p, i) <= Floor(p, j)
    ensures i == Floor(p, i) ==> i <= Floor(p, j)
  {
  }

  /** A read fails exactly when its end lies before the character its start falls in. */
  lemma ReadDefinedWhen(p: Payload, start: nat, end: nat)
    ensures ReadWindow(p, start, end).Window? <==> start >= |p| || Floor(p, start) <= end
    ensures start <= end ==> ReadWindow(p, start, end).Window?
  {
  }

  /** The read of an inverted range is not total: a two-byte payload read from 1 to 0. */
  lemma InvertedRangeFails()
    ensures ReadWindow([0x61, 0x62], 1, 0) == BadSlice
  {
    assert Floor([0x61, 0x62], 1) == 1;
  }

  /** Every window of a text is a run of whole glyphs of it. */
  lemma WindowsAreGlyphs(chars: seq<Glyph>, start: nat, end: nat) returns (i: nat, j: nat)
    requires start <= end
    ensures i <= j <= |chars| && ReadWindow(Text(chars), start, end) == Window(Text(chars[i..j]))
  {
    var p := Text(chars);
    if start >= |p| {
      i, j := 0, 0;
      assert chars[0..0] == [];
    } else {
      var e := Min(end, |p|);
      FloorMonotone(p, start, e);
      i, j := SliceIsText(chars, Floor(p, start), Floor(p, e));
    }
  }

  function Glyphs(chars: seq<Scalar>): (r: seq<Glyph>)
    ensures |r| == |chars| && forall i | 0 <= i < |r| :: r[i] == Encoded(chars[i])
  {
    seq(|chars|, i requires 0 <= i < |chars| => Encoded(chars[i]))
  }

  /** The UTF-8 encoding of a string. */
  function Utf8(chars: seq<Scalar>): Payload {
    Text(Glyphs(chars))
  }

  /** Every window of a UTF-8 string is the encoding of a run of its characters. */
  lemma WindowsAreWholeChars(chars: seq<Scalar>, start: nat, end: nat) returns (i: nat, j: nat)
    requires start <= end
    ensures i <= j <= |chars| && ReadWindow(Utf8(chars), start, end) == Window(Utf8(chars[i..j]))
  {
    i, j := WindowsAreGlyphs(Glyphs(chars), start, end);
    assert Glyphs(chars)[i..j] == Glyphs(chars[i..j]);
  }

  /** Adjacent windows join without gap or overlap. */
  lemma WindowsTile(p: Payload, a: nat, b: nat, c: nat)
    requires a <= b <= c
    ensures ReadWindow(p, a, b).Window? && ReadWindow(p, b, c).Window? && ReadWindow(p, a, c).Window?
    ensures ReadWindow(p, a, b).bytes + ReadWindow(p, b, c).bytes == ReadWindow(p, a, c).bytes
  {
    if a < |p| {
      FloorMonotone(p, a, Min(b, |p|));
      FloorMonotone(p, Min(b, |p|), Min(c, |p|));
    }
  }

  ghost predicate Ascending(cuts: seq<nat>) {
    forall i, j | 0 <= i < j < |cuts| :: cuts[i] <= cuts[j]
  }

  /** Paging through a payload at ascending cut points. */
  function Pages(p: Payload, cuts: seq<nat>): Payload
    requires Ascending(cuts)
  {
    if |cuts| < 2 then []
    else
      var n := |cuts| - 2;
      Pages(p, cuts[..n + 1]) + ReadWindow(p, cuts[n], cuts[n + 1]).bytes
  }

  lemma {:induction false} PagesTile(p: Payload, cuts: seq<nat>)
    requires |cuts| >= 2 && Ascending(cuts)
    ensures ReadWindow(p, cuts[0], cuts[|cuts| - 1]) == Window(Pages(p, cuts))
  {
    var n := |cuts| - 2;
    var before := cuts[..n + 1];
    if n == 0 {
      assert Pages(p, before) == [];
    } else {
      assert before[0] == cuts[0] && before[|before| - 1] == cuts[n];
      PagesTile(p, before);
      WindowsTile(p, cuts[0], cuts[n], cuts[n + 1]);
    }
  }

  /** Pages from a character boundary to the end are the rest of the payload. */
  lemma PagesToEnd(p: Payload, cuts: seq<nat>)
    requires |cuts| >= 2 && Ascending(cuts) && cuts[0] <= |p| <= cuts[|cuts| - 1] && Boundary(p, cuts[0])
    ensures Pages(p, cuts) == p[cuts[0]..]
  {
    PagesTile(p, cuts);
    TailWindow(p, cuts[0], cuts[|cuts| - 1]);
  }

  /** Pages from the start to the end are the whole payload. */
  lemma PagesOfAll(p: Payload, cuts: seq<nat>)
    requires |cuts| >= 2 && Ascending(cuts) && cuts[0] == 0 && cuts[|cuts| - 1] >= |p|
    ensures Pages(p, cuts) == p
  {
    PagesToEnd(p, cuts);
    assert p[0..] == p;
  }

  // ----- the store -----

  /** Slots are hashes; the hash function is a parameter of the store. */
  type Slot = nat

  class Store {
    const hash: Payload -> Slot
    var slots: map<Slot, Payload>

    constructor (hash: Payload -> Slot)
      ensures this.hash == hash && slots == map[]
    {
      this.hash := hash;
      slots := map[];
    }

    /** Content-addressed: the slot depends on the payload alone, and an equal hash overwrites. */
    method Put(payload: Payload) returns (slot: Slot)
      modifies this
      ensures slot == hash(payload) && slots == old(slots)[slot := payload]
    {
      slot := hash(payload);
      slots := slots[slot := payload];
    }

    method Get(slot: Slot, start: nat, end: nat) returns (r: Read)
      ensures r == if slot in slots then ReadWindow(slots[slot], start, end) else UnknownSlot
    {
      if slot !in slots {
        return UnknownSlot;
      }
      var payload := slots[slot];
      var len := |payload|;
      if start >= len {
        return Window([]);
      }
      var s := start;
      while s > 0 && !Boundary(payload, s)
        invariant 0 <= s <= start
        invariant Floor(payload, s) == Floor(payload, start)
      {
        s := s - 1;
      }
      var e := Min(end, len);
      while e > s && !Boundary(payload, e)
        invariant e <= Min(end, len)
        invariant Min(end, len) >= s ==> s <= e && Floor(payload, e) == Floor(payload, Min(end, len))
        invariant Min(end, len) < s ==> e == Min(end, len)
      {
        e := e - 1;
      }
      if e < s {
        return BadSlice;
      }
      r := Window(payload[s..e]);
    }
  }

  // ----- spilling an oversized tool result -----

  const MAX_TOOL_RESULT_BYTES: nat := 64 * 1024
  const HEAD_BYTES: nat := 2048

  /** What the model sees of a tool result: the result itself, or a handle to it. */
  datatype ToolText = Whole(text: Payload) | Handle(slot: Slot, bytes: nat, head: Payload, readStart: nat, readEnd: nat)

  /** A handle tells the size of the payload, its head cut at a character, and the range to read next. */
  predicate Describes(h: ToolText, out: Payload) {
    && h.Handle? && h.bytes == |out|
    && h.readStart == Floor(out, Min(HEAD_BYTES, |out|)) && h.head == out[..h.readStart]
    && h.readEnd == Min(h.readStart + MAX_TOOL_RESULT_BYTES, |out|)
  }

  ghost predicate HandleFor(store: map<Slot, Payload>, out: Payload, h: ToolText) {
    Describes(h, out) && h.slot in store && store[h.slot] == out
  }

  method SpillOnIngress(store: Store, out: Payload) returns (shown: ToolText)
    modifies store
    ensures |out| <= MAX_TOOL_RESULT_BYTES ==> shown == Whole(out) && store.slots == old(store.slots)
    ensures |out| > MAX_TOOL_RESULT_BYTES ==>
              && HandleFor(store.slots, out, shown) && shown.slot == store.hash(out)
              && store.slots == old(store.slots)[store.hash(out) := out]
  {
    if |out| <= MAX_TOOL_RESULT_BYTES {
      return Whole(out);
    }
    var slot := store.Put(out);
    var he: nat := Min(HEAD_BYTES, |out|);
    while he > 0 && !Boundary(out, he)
      invariant he <= Min(HEAD_BYTES, |out|)
      invariant Floor(out, he) == Floor(out, Min(HEAD_BYTES, |out|))
    {
      he := he - 1;
    }
    shown := Handle(slot, |out|, out[..he], he, Min(he + MAX_TOOL_RESULT_BYTES, |out|));
  }

  /** The head shown in a handle, followed by pages from its suggested start, is the payload. */
  lemma HandleRebuilds(store: map<Slot, Payload>, out: Payload, h: ToolText, cuts: seq<nat>)
    requires HandleFor(store, out, h) && |out| > 0
    requires |cuts| >= 2 && Ascending(cuts) && cuts[0] == h.readStart && cuts[|cuts| - 1] >= |out|
    ensures h.head + Pages(out, cuts) == out
  {
    PagesToEnd(out, cuts);
    assert out == out[..h.readStart] + out[h.readStart..];
  }

  lemma TailWindow(p: Payload, start: nat, end: nat)
    requires start <= |p| <= end && Boundary(p, start)
    ensures ReadWindow(p, start, end) == Window(p[start..])
  {
    assert Floor(p, start) == start && Floor(p, |p|) == |p|;
  }
}
