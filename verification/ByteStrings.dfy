// Byte strings and unsigned integers stored in them, low byte first.
module ByteStrings {

  type Byte = b: int | 0 <= b < 0x100
  type Bytes = seq<Byte>

  // The bytes found at an offset.
  predicate At(s: Bytes, offset: nat, part: Bytes) {
    offset + |part| <= |s| && s[offset..offset + |part|] == part
  }

  lemma AtConcat(s: Bytes, offset: nat, a: Bytes, b: Bytes)
    ensures At(s, offset, a + b) <==> At(s, offset, a) && At(s, offset + |a|, b)
  {
    if At(s, offset, a + b) {
      var whole := s[offset..offset + |a + b|];
      assert s[offset..offset + |a|] == whole[..|a|] == a;
      assert s[offset + |a|..offset + |a| + |b|] == whole[|a|..] == b;
    }
    if At(s, offset, a) && At(s, offset + |a|, b) {
      assert s[offset..offset + |a + b|] == s[offset..offset + |a|] + s[offset + |a|..offset + |a| + |b|];
    }
  }

  // value >> 8 * i
  function Shift(value: nat, i: nat): nat {
    if i == 0 then value else Shift(value, i - 1) / 0x100
  }

  function PutInt(value: nat, width: nat): (s: Bytes)
    ensures |s| == width
  {
    seq(width, i requires 0 <= i < width => Shift(value, i) % 0x100)
  }

  function GetInt(s: Bytes): nat {
    if s == [] then 0 else s[0] as int + 0x100 * GetInt(s[1..])
  }

  lemma {:induction false} GetRestAfterPut(value: nat, width: nat, i: nat)
    requires i <= width && Shift(value, width) == 0
    ensures GetInt(PutInt(value, width)[i..]) == Shift(value, i)
    decreases width - i
  {
    var s := PutInt(value, width);
    if i < width {
      GetRestAfterPut(value, width, i + 1);
      assert s[i..][1..] == s[i + 1..];
      assert Shift(value, i + 1) == Shift(value, i) / 0x100;
    }
  }

  // A number that fits its width reads back.
  lemma GetAfterPut(value: nat, width: nat)
    requires Shift(value, width) == 0
    ensures GetInt(PutInt(value, width)) == value
  {
    GetRestAfterPut(value, width, 0);
    assert PutInt(value, width)[0..] == PutInt(value, width);
  }

  lemma {:induction false} ShiftIsRest(s: Bytes, i: nat)
    requires i <= |s|
    ensures Shift(GetInt(s), i) == GetInt(s[i..])
  {
    if i == 0 {
      assert s[0..] == s;
    } else {
      ShiftIsRest(s, i - 1);
      assert s[i - 1..][1..] == s[i..];
    }
  }

  // Bytes are the bytes of the number read from them, which fits their width.
  lemma PutAfterGet(s: Bytes)
    ensures PutInt(GetInt(s), |s|) == s && Shift(GetInt(s), |s|) == 0
  {
    ShiftIsRest(s, |s|);
    forall i | 0 <= i < |s|
      ensures Shift(GetInt(s), i) % 0x100 == s[i]
    {
      ShiftIsRest(s, i);
      assert s[i..][0] == s[i];
    }
  }

  lemma FitsFourBytes(value: nat)
    requires value < 0x1_0000_0000
    ensures Shift(value, 4) == 0
  {
    assert Shift(value, 1) < 0x100_0000;
    assert Shift(value, 2) < 0x1_0000;
    assert Shift(value, 3) < 0x100;
  }

  lemma FitsEightBytes(value: nat)
    requires value < 0x1_0000_0000_0000_0000
    ensures Shift(value, 8) == 0
  {
    assert Shift(value, 1) < 0x100_0000_0000_0000;
    assert Shift(value, 2) < 0x1_0000_0000_0000;
    assert Shift(value, 3) < 0x100_0000_0000;
    assert Shift(value, 4) < 0x1_0000_0000;
    assert Shift(value, 5) < 0x100_0000;
    assert Shift(value, 6) < 0x1_0000;
    assert Shift(value, 7) < 0x100;
  }

  // 2^(8 * i)
  function Power(i: nat): (p: nat)
    ensures p > 0
  {
    if i == 0 then 1 else 0x100 * Power(i - 1)
  }
}
