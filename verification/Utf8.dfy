// Which byte strings are UTF-8, against the encodings of section 3 of RFC 3629.
module Utf8 {
  import opened Common
  import opened ByteStrings

  // Unicode scalar values: code points without the surrogates.
  type Scalar = c: int | 0 <= c <= 0x10_FFFF && !(0xD800 <= c <= 0xDFFF)

  // A byte with six bits of payload.
  function Continuation(c: nat): (b: Byte)
    ensures 0x80 <= b < 0xC0 && b % 0x40 == c % 0x40
  {
    0x80 + c % 0x40
  }

  function LeadByte(mark: Byte, payload: nat): Byte
    requires mark + payload < 0x100
  {
    mark + payload
  }

  function Encode(c: Scalar): Bytes {
    if c < 0x80 then [LeadByte(0, c)]
    else if c < 0x800 then [LeadByte(0xC0, c / 0x40), Continuation(c)]
    else if c < 0x1_0000 then [LeadByte(0xE0, c / 0x1000), Continuation(c / 0x40), Continuation(c)]
    else [LeadByte(0xF0, c / 0x4_0000), Continuation(c / 0x1000), Continuation(c / 0x40), Continuation(c)]
  }

  function EncodeAll(cs: seq<Scalar>): Bytes {
    if cs == [] then [] else Encode(cs[0]) + EncodeAll(cs[1..])
  }

  // ----- one character, as the scanner reads it

  // How many continuation bytes a lead byte announces, its payload bits, and the least value of that length;
  // the masks 0xe0, 0xf0 and 0xf8 single out ranges of lead bytes.
  datatype Lead = Lead(extra: nat, value: nat, least: nat)

  function LeadOf(c: Byte): Option<Lead> {
    if c <= 0x7F then Some(Lead(0, c, 0))
    else if 0xC0 <= c < 0xE0 then Some(Lead(1, c % 0x20, 0x80))
    else if 0xE0 <= c < 0xF0 then Some(Lead(2, c % 0x10, 0x800))
    else if 0xF0 <= c < 0xF8 then Some(Lead(3, c % 8, 0x1_0000))
    else None
  }

  // The value after n more continuation bytes; (value << 6) | (cc & 0x3f) appends six bits.
  function Continue(s: Bytes, i: nat, n: nat, value: nat): Option<nat>
    requires i + n <= |s|
    decreases n
  {
    if n == 0 then Some(value)
    else if !(0x80 <= s[i] < 0xC0) then None
    else Continue(s, i + 1, n - 1, value * 0x40 + s[i] % 0x40)
  }

  // The character at an offset and where the next one starts.
  function ReadScalar(s: Bytes, i: nat): (r: Option<(Scalar, nat)>)
    requires i < |s|
    ensures r.Some? ==> i < r.value.1 <= |s|
  {
    var lead := LeadOf(s[i]);
    if lead.None? || i + lead.value.extra >= |s| then None
    else
      var value := Continue(s, i + 1, lead.value.extra, lead.value.value);
      if || value.None? || value.value < lead.value.least || value.value > 0x10_FFFF
         || 0xD800 <= value.value <= 0xDFFF then None
      else Some((value.value, i + lead.value.extra + 1))
  }

  function ReadAll(s: Bytes, i: nat): Option<seq<Scalar>>
    requires i <= |s|
    decreases |s| - i
  {
    if i == |s| then Some([])
    else if ReadScalar(s, i).None? then None
    else
      var (c, next) := ReadScalar(s, i).value;
      var rest := ReadAll(s, next);
      if rest.None? then None else Some([c] + rest.value)
  }

  method IsValidUtf8(s: Bytes) returns (ok: bool)
    ensures ok <==> exists cs :: EncodeAll(cs) == s
  {
    hide ReadScalar, EncodeAll;
    ghost var all := ReadAll(s, 0);
    var i := 0;
    while i < |s|
      invariant i <= |s| && (ReadAll(s, i).Some? <==> all.Some?)
      decreases |s| - i
    {
      var found, next := ScanCharacter(s, i);
      if !found {
        ValidExactly(s);
        return false;
      }
      i := next;
    }
    ValidExactly(s);
    return true;
  }

  method ScanCharacter(s: Bytes, i: nat) returns (ok: bool, next: nat)
    requires i < |s|
    ensures ok <==> ReadScalar(s, i).Some?
    ensures ok ==> next == ReadScalar(s, i).value.1
  {
    var c: int := s[i];
    if c <= 0x7F {
      return true, i + 1;
    }
    var extra: nat, value: nat, least: nat := 0, 0, 0;
    if 0xC0 <= c < 0xE0 {
      extra, value, least := 1, c % 0x20, 0x80;
    } else if 0xE0 <= c < 0xF0 {
      extra, value, least := 2, c % 0x10, 0x800;
    } else if 0xF0 <= c < 0xF8 {
      extra, value, least := 3, c % 8, 0x1_0000;
    } else {
      return false, i;
    }
    if i + extra >= |s| {
      return false, i;
    }
    var j := 1;
    while j <= extra
      invariant 1 <= j <= extra + 1
      invariant 0 <= value && Continue(s, i + j, extra + 1 - j, value)
                == Continue(s, i + 1, extra, LeadOf(c).value.value)
    {
      var cc: int := s[i + j];
      if !(0x80 <= cc < 0xC0) {
        return false, i;
      }
      value := value * 0x40 + cc % 0x40;
      j := j + 1;
    }
    if value < least || value > 0x10_FFFF || 0xD800 <= value <= 0xDFFF {
      return false, i;
    }
    return true, i + extra + 1;
  }

  // ----- reading inverts encoding, and nothing else is read

  lemma ReadAfterEncode(s: Bytes, i: nat, c: Scalar)
    requires At(s, i, Encode(c))
    ensures i < |s| && ReadScalar(s, i) == Some((c, i + |Encode(c)|))
  {
    hide ReadScalar;
    var e := Encode(c);
    assert forall k :: i <= k < i + |e| ==> s[k] == s[i..i + |e|][k - i];
    if c < 0x80 {
      ReadOne(s, i, c);
    } else if c < 0x800 {
      ReadTwo(s, i, c);
    } else if c < 0x1_0000 {
      ReadThree(s, i, c);
    } else {
      ReadFour(s, i, c);
    }
  }

  lemma ReadOne(s: Bytes, i: nat, c: Scalar)
    requires i < |s| && c < 0x80 && s[i] == c
    ensures ReadScalar(s, i) == Some((c, i + 1))
  {
  }

  lemma ReadTwo(s: Bytes, i: nat, c: Scalar)
    requires i + 2 <= |s| && 0x80 <= c < 0x800 && s[i] == LeadByte(0xC0, c / 0x40) && s[i + 1] == Continuation(c)
    ensures ReadScalar(s, i) == Some((c, i + 2))
  {
    LastSixBits(s, i + 1, c);
  }

  lemma ReadThree(s: Bytes, i: nat, c: Scalar)
    requires i + 3 <= |s| && 0x800 <= c < 0x1_0000 && s[i] == LeadByte(0xE0, c / 0x1000)
    requires s[i + 1] == Continuation(c / 0x40) && s[i + 2] == Continuation(c)
    ensures ReadScalar(s, i) == Some((c, i + 3))
  {
    hide Continue, Continuation;
    assert c / 0x40 / 0x40 == c / 0x1000;
    SixBitsMore(s, i + 1, 1, c / 0x40);
    LastSixBits(s, i + 2, c);
    ScalarOf(s, i, c, Lead(2, c / 0x1000, 0x800));
  }

  lemma ReadFour(s: Bytes, i: nat, c: Scalar)
    requires i + 4 <= |s| && 0x1_0000 <= c && s[i] == LeadByte(0xF0, c / 0x4_0000)
    requires s[i + 1] == Continuation(c / 0x1000) && s[i + 2] == Continuation(c / 0x40) && s[i + 3] == Continuation(c)
    ensures ReadScalar(s, i) == Some((c, i + 4))
  {
    hide Continue, Continuation;
    assert c / 0x40 / 0x40 == c / 0x1000 && c / 0x1000 / 0x40 == c / 0x4_0000;
    SixBitsMore(s, i + 1, 2, c / 0x1000);
    SixBitsMore(s, i + 2, 1, c / 0x40);
    LastSixBits(s, i + 3, c);
    ScalarOf(s, i, c, Lead(3, c / 0x4_0000, 0x1_0000));
  }

  // A lead byte and its continuation bytes read as the value they add up to.
  lemma ScalarOf(s: Bytes, i: nat, c: Scalar, lead: Lead)
    requires i + lead.extra < |s| && LeadOf(s[i]) == Some(lead) && lead.least <= c
    requires Continue(s, i + 1, lead.extra, lead.value) == Some(c)
    ensures ReadScalar(s, i) == Some((c, i + lead.extra + 1))
  {
    hide Continue, LeadOf;
  }

  lemma SixBitsMore(s: Bytes, i: nat, n: nat, c: nat)
    requires i + 1 + n <= |s| && s[i] == Continuation(c)
    ensures Continue(s, i, n + 1, c / 0x40) == Continue(s, i + 1, n, c)
  {
    assert c / 0x40 * 0x40 + c % 0x40 == c;
  }

  lemma LastSixBits(s: Bytes, i: nat, c: nat)
    requires i < |s| && s[i] == Continuation(c)
    ensures Continue(s, i, 1, c / 0x40) == Some(c)
  {
    SixBitsMore(s, i, 0, c);
  }

  lemma OnlyEncodingsAreRead(s: Bytes, i: nat)
    requires i < |s| && ReadScalar(s, i).Some?
    ensures var (c, next) := ReadScalar(s, i).value; At(s, i, Encode(c)) && next == i + |Encode(c)|
  {
    hide ReadScalar, Encode;
    if s[i] <= 0x7F {
      OneIsEncoding(s, i);
    } else if s[i] < 0xE0 {
      TwoAreEncoding(s, i);
    } else if s[i] < 0xF0 {
      ThreeAreEncoding(s, i);
    } else {
      FourAreEncoding(s, i);
    }
  }

  lemma OneIsEncoding(s: Bytes, i: nat)
    requires i < |s| && ReadScalar(s, i).Some? && s[i] <= 0x7F
    ensures var (c, next) := ReadScalar(s, i).value; At(s, i, Encode(c)) && next == i + |Encode(c)|
  {
    assert s[i..i + 1] == [s[i]];
  }

  lemma TwoAreEncoding(s: Bytes, i: nat)
    requires i < |s| && ReadScalar(s, i).Some? && 0x7F < s[i] < 0xE0
    ensures var (c, next) := ReadScalar(s, i).value; At(s, i, Encode(c)) && next == i + |Encode(c)|
  {
    var more := SixBitsRead(s, i + 1, 0, s[i] % 0x20);
    assert s[i..i + 2] == [s[i], s[i + 1]];
    hide Continuation;
  }

  lemma ThreeAreEncoding(s: Bytes, i: nat)
    requires i < |s| && ReadScalar(s, i).Some? && 0xE0 <= s[i] < 0xF0
    ensures var (c, next) := ReadScalar(s, i).value; At(s, i, Encode(c)) && next == i + |Encode(c)|
  {
    var c: int := ReadScalar(s, i).value.0;
    var u := SixBitsRead(s, i + 1, 1, s[i] % 0x10);
    var v := SixBitsRead(s, i + 2, 0, u);
    hide Continuation, Continue;
    assert v == c;
    assert c / 0x1000 == s[i] % 0x10;
    assert s[i..i + 3] == [s[i], s[i + 1], s[i + 2]];
  }

  lemma FourAreEncoding(s: Bytes, i: nat)
    requires i < |s| && ReadScalar(s, i).Some? && 0xF0 <= s[i]
    ensures var (c, next) := ReadScalar(s, i).value; At(s, i, Encode(c)) && next == i + |Encode(c)|
  {
    var c: int := ReadScalar(s, i).value.0;
    var u := SixBitsRead(s, i + 1, 2, s[i] % 8);
    var v := SixBitsRead(s, i + 2, 1, u);
    var w := SixBitsRead(s, i + 3, 0, v);
    hide Continuation, Continue;
    assert w == c;
    assert c / 0x1000 == u && c / 0x4_0000 == s[i] % 8;
    assert s[i..i + 4] == [s[i], s[i + 1], s[i + 2], s[i + 3]];
  }

  lemma SixBitsRead(s: Bytes, i: nat, n: nat, value: nat) returns (more: nat)
    requires i + 1 + n <= |s| && Continue(s, i, n + 1, value).Some?
    ensures Continue(s, i, n + 1, value) == Continue(s, i + 1, n, more)
    ensures more / 0x40 == value && s[i] == Continuation(more)
    ensures n == 0 ==> Continue(s, i, 1, value) == Some(more)
  {
    var byte: int := s[i];
    more := value * 0x40 + byte % 0x40;
  }

  lemma {:induction false} ReadAllAfterEncodeAll(s: Bytes, i: nat, cs: seq<Scalar>)
    requires i <= |s| && s[i..] == EncodeAll(cs)
    ensures ReadAll(s, i) == Some(cs)
    decreases |cs|
  {
    hide ReadScalar, Encode;
    if cs != [] {
      var e := Encode(cs[0]);
      assert s[i..i + |e|] == s[i..][..|e|] == e;
      ReadAfterEncode(s, i, cs[0]);
      assert s[i + |e|..] == s[i..][|e|..];
      ReadAllAfterEncodeAll(s, i + |e|, cs[1..]);
      assert [cs[0]] + cs[1..] == cs;
    }
  }

  lemma {:induction false} EncodeAllAfterReadAll(s: Bytes, i: nat)
    requires i <= |s| && ReadAll(s, i).Some?
    ensures EncodeAll(ReadAll(s, i).value) == s[i..]
    decreases |s| - i
  {
    hide ReadScalar, Encode;
    if i < |s| {
      var (c, next) := ReadScalar(s, i).value;
      OnlyEncodingsAreRead(s, i);
      EncodeAllAfterReadAll(s, next);
      assert ReadAll(s, i).value[1..] == ReadAll(s, next).value;
      assert s[i..] == s[i..next] + s[next..];
    }
  }

  // Valid strings are exactly the concatenations of encodings, each of one sequence of characters.
  lemma ValidExactly(s: Bytes)
    ensures ReadAll(s, 0).Some? <==> exists cs :: EncodeAll(cs) == s
    ensures forall cs :: EncodeAll(cs) == s ==> ReadAll(s, 0) == Some(cs)
  {
    assert s[0..] == s;
    forall cs | EncodeAll(cs) == s
      ensures ReadAll(s, 0) == Some(cs)
    {
      ReadAllAfterEncodeAll(s, 0, cs);
    }
    if ReadAll(s, 0).Some? {
      EncodeAllAfterReadAll(s, 0);
    }
  }
}
