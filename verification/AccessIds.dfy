// Journal addresses: a 16-bit segment and a 40-bit offset packed in a signed 64-bit integer,
// whose top bit marks "received" in an agent's memory.
module AccessIds {

  const NO_ACCESS_ID: int := -1
  const OFFSET_SPAN: int := 0x100_0000_0000        // 2^40
  const SEGMENT_SPAN: int := 0x1_0000              // 2^16
  const RECEIVING_MASK: int := 0x8000_0000_0000_0000
  const WORD: int := 0x1_0000_0000_0000_0000

  type Int64 = x: int | -RECEIVING_MASK <= x < RECEIVING_MASK

  // static_cast between the signed and the unsigned 64-bit type.
  function ToUnsigned(x: Int64): (u: int)
    ensures 0 <= u < WORD
  {
    if x < 0 then x + WORD else x
  }

  function ToSigned(u: int): Int64
    requires 0 <= u < WORD
  {
    if u >= RECEIVING_MASK then u - WORD else u
  }

  // The low 40 bits of the shifted segment are zero, so the bitwise or is a sum.
  function MakeAccessId(segment: nat, offset: nat): Int64
    requires segment < SEGMENT_SPAN && offset < OFFSET_SPAN
  {
    ToSigned(segment * OFFSET_SPAN + offset)
  }

  function SegmentOf(id: Int64): nat
    requires id != NO_ACCESS_ID
  {
    (ToUnsigned(id) / OFFSET_SPAN) % SEGMENT_SPAN
  }

  function OffsetOf(id: Int64): nat
    requires id != NO_ACCESS_ID
  {
    ToUnsigned(id) % OFFSET_SPAN
  }

  // id | RECEIVING_MASK
  function MarkReceiving(id: Int64): Int64 {
    var u := ToUnsigned(id);
    ToSigned(if u >= RECEIVING_MASK then u else u + RECEIVING_MASK)
  }

  // id & ~RECEIVING_MASK, except that NO_ACCESS_ID is left alone
  function UnmarkReceiving(id: Int64): Int64 {
    if id == NO_ACCESS_ID then id else ToSigned(ToUnsigned(id) % RECEIVING_MASK)
  }

  predicate IsReceiving(id: Int64) {
    id != NO_ACCESS_ID && ToUnsigned(id) >= RECEIVING_MASK
  }

  // What MakeAccessId can return.
  predicate Issued(id: int) {
    0 <= id < SEGMENT_SPAN * OFFSET_SPAN
  }

  lemma SplitAfterMake(segment: nat, offset: nat)
    requires segment < SEGMENT_SPAN && offset < OFFSET_SPAN
    ensures var id := MakeAccessId(segment, offset);
            Issued(id) && SegmentOf(id) == segment && OffsetOf(id) == offset
    ensures var id := MarkReceiving(MakeAccessId(segment, offset));
            id != NO_ACCESS_ID && SegmentOf(id) == segment && OffsetOf(id) == offset
  {
    var low := segment * OFFSET_SPAN + offset;
    assert low / OFFSET_SPAN == segment && low % OFFSET_SPAN == offset;
    var marked := low + RECEIVING_MASK;
    assert marked == (segment + SEGMENT_SPAN * 128) * OFFSET_SPAN + offset;
    assert marked / OFFSET_SPAN == segment + SEGMENT_SPAN * 128;
  }

  lemma MakeAfterSplit(id: Int64)
    requires Issued(id)
    ensures MakeAccessId(SegmentOf(id), OffsetOf(id)) == id
  {
  }

  // Forty bits of offset, sixteen of segment, and the mark in the sign bit.
  lemma LayoutIsFixed(segment: nat, offset: nat)
    requires segment < 0x1_0000 && offset < 0x100_0000_0000
    ensures var id := MakeAccessId(segment, offset);
            && id == segment * 0x100_0000_0000 + offset
            && MarkReceiving(id) == id - 0x8000_0000_0000_0000
  {
    assert segment * 0x100_0000_0000 + offset < 0x100_0000_0000_0000;
  }

  // Numeric order of ids is segment order, then offset order.
  lemma OrderIsLexicographic(s: nat, o: nat, s': nat, o': nat)
    requires s < SEGMENT_SPAN && o < OFFSET_SPAN && s' < SEGMENT_SPAN && o' < OFFSET_SPAN
    ensures MakeAccessId(s, o) < MakeAccessId(s', o') <==> s < s' || (s == s' && o < o')
  {
  }

  lemma ReceivingLaws(id: Int64, other: Int64)
    requires Issued(id) && Issued(other)
    ensures !IsReceiving(id) && IsReceiving(MarkReceiving(id))
    ensures UnmarkReceiving(id) == id && UnmarkReceiving(MarkReceiving(id)) == id
    ensures MarkReceiving(id) != other
    ensures MarkReceiving(id) == MarkReceiving(other) ==> id == other
  {
  }

  // The exact range of non-negative ids on which marking can be undone: only the largest
  // 64-bit id turns into NO_ACCESS_ID.
  lemma MarkIsReversibleExactly(id: Int64)
    requires id >= 0
    ensures UnmarkReceiving(MarkReceiving(id)) == id <==> id != RECEIVING_MASK - 1
  {
  }
}
