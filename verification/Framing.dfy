// Binary framing of journal records: a fixed header of four little-endian words, then the header text and the body.
module Framing {
  import opened Common
  import opened AccessIds
  import opened ByteStrings

  type Word = w: int | 0 <= w < 0x1_0000_0000

  const RECORD_MAGIC: Word := 0x54534f50
  const MAX_HEADER_SIZE: int := 0x10_0000
  const MAX_BODY_SIZE: int := 0xFFFF_FFFF

  // A journal root names the segment before it; other headers carry the id stamped on append.
  datatype Header = Root(prev: string) | Fields(messageId: Option<Int64>, rest: Bytes)

  datatype Message = Message(header: Header, body: Bytes)

  // JSON text and checksum, which are foreign code: any inverse pair and any function will do.
  datatype Format = Format(dump: Header -> Bytes, parse: Bytes -> Option<Header>, crc: (Bytes, Bytes) -> Word)
  {
    ghost predicate Valid() {
      forall h :: parse(dump(h)) == Some(h)
    }
  }

  // ----- words

  function PutWord(w: Word): (s: Bytes)
    ensures |s| == 4
  {
    PutInt(w, 4)
  }

  function GetWord(s: Bytes): nat
    requires |s| == 4
  {
    GetInt(s)
  }

  lemma GetAfterPutWord(w: Word)
    ensures GetWord(PutWord(w)) == w
  {
    FitsFourBytes(w);
    GetAfterPut(w, 4);
  }

  // ----- records

  // The CHECKs of Message::write.
  predicate Writable(f: Format, m: Message) {
    |f.dump(m.header)| <= MAX_HEADER_SIZE && |m.body| <= MAX_BODY_SIZE
  }

  function Prefix(f: Format, m: Message): Bytes
    requires Writable(f, m)
  {
    var text := f.dump(m.header);
    PutWord(RECORD_MAGIC) + PutWord(|text|) + PutWord(|m.body|) + PutWord(f.crc(text, m.body))
  }

  function Frame(f: Format, m: Message): (r: Bytes)
    requires Writable(f, m)
    ensures |r| == 16 + |f.dump(m.header)| + |m.body|
  {
    Prefix(f, m) + f.dump(m.header) + m.body
  }

  // What Message::read finds at an offset; None where it throws or a CHECK fails.
  function ReadAt(f: Format, file: Bytes, offset: nat): (r: Option<(Message, nat)>)
    ensures r.Some? ==> r.value.1 >= 16 && offset + r.value.1 <= |file|
  {
    if |file| < offset + 16 then None
    else
      var magic, headerSize, bodySize, sum :=
        GetWord(file[offset..offset + 4]), GetWord(file[offset + 4..offset + 8]),
        GetWord(file[offset + 8..offset + 12]), GetWord(file[offset + 12..offset + 16]);
      if magic != RECORD_MAGIC || headerSize > MAX_HEADER_SIZE || |file| < offset + 16 + headerSize + bodySize then None
      else
        var text := file[offset + 16..offset + 16 + headerSize];
        var body := file[offset + 16 + headerSize..offset + 16 + headerSize + bodySize];
        if f.crc(text, body) != sum || f.parse(text).None? then None
        else Some((Message(f.parse(text).value, body), 16 + headerSize + bodySize))
  }

  // A record reads back wherever it stands in a file.
  lemma {:induction false} ReadBack(f: Format, before: Bytes, m: Message, after: Bytes)
    requires f.Valid() && Writable(f, m)
    ensures ReadAt(f, before + Frame(f, m) + after, |before|) == Some((m, |Frame(f, m)|))
  {
    var file, o := before + Frame(f, m) + after, |before|;
    var text := f.dump(m.header);
    assert file[o..o + 4] == PutWord(RECORD_MAGIC);
    assert file[o + 4..o + 8] == PutWord(|text|);
    assert file[o + 8..o + 12] == PutWord(|m.body|);
    assert file[o + 12..o + 16] == PutWord(f.crc(text, m.body));
    GetAfterPutWord(RECORD_MAGIC);
    GetAfterPutWord(|text|);
    GetAfterPutWord(|m.body|);
    GetAfterPutWord(f.crc(text, m.body));
    assert file[o + 16..o + 16 + |text|] == text;
    assert file[o + 16 + |text|..o + 16 + |text| + |m.body|] == m.body;
  }

  // The layout of a record: "POST", the sizes of header text and body, the checksum, and then the two themselves.
  lemma {:induction false} FrameIsLaidOut(f: Format, m: Message)
    requires Writable(f, m)
    ensures var text, r := f.dump(m.header), Frame(f, m);
            && r[..4] == [0x50, 0x4F, 0x53, 0x54]
            && GetInt(r[4..8]) == |text| && GetInt(r[8..12]) == |m.body| && GetInt(r[12..16]) == f.crc(text, m.body)
            && r[16..] == text + m.body
  {
    var text, r := f.dump(m.header), Frame(f, m);
    assert r[..4] == PutWord(RECORD_MAGIC);
    assert r[4..8] == PutWord(|text|);
    assert r[8..12] == PutWord(|m.body|);
    assert r[12..16] == PutWord(f.crc(text, m.body));
    GetAfterPutWord(|text|);
    GetAfterPutWord(|m.body|);
    GetAfterPutWord(f.crc(text, m.body));
    MagicIsPost();
  }

  lemma MagicIsPost()
    ensures PutWord(RECORD_MAGIC) == [0x50, 0x4F, 0x53, 0x54]
  {
    assert Shift(RECORD_MAGIC, 1) == 0x54534f;
    assert Shift(RECORD_MAGIC, 2) == 0x5453;
    assert Shift(RECORD_MAGIC, 3) == 0x54;
  }

  lemma WordIsPut(s: Bytes)
    requires |s| == 4
    ensures GetWord(s) < 0x1_0000_0000 && PutWord(GetWord(s)) == s
  {
    PutAfterGet(s);
    assert Shift(GetInt(s), 4) == GetInt(s) / 0x100 / 0x100 / 0x100 / 0x100 by {
      assert Shift(GetInt(s), 1) == GetInt(s) / 0x100;
      assert Shift(GetInt(s), 2) == GetInt(s) / 0x100 / 0x100;
      assert Shift(GetInt(s), 3) == GetInt(s) / 0x100 / 0x100 / 0x100;
    }
  }

  // A whole record as it lies in a file: the four words, a header text that parses, and the body.
  predicate Stands(f: Format, file: Bytes, offset: nat, text: Bytes, body: Bytes) {
    && |text| <= MAX_HEADER_SIZE && |body| <= MAX_BODY_SIZE && f.parse(text).Some?
    && At(file, offset, PutWord(RECORD_MAGIC) + (PutWord(|text|) + (PutWord(|body|) + PutWord(f.crc(text, body)))))
    && At(file, offset + 16, text) && At(file, offset + 16 + |text|, body)
  }

  // Reading finds a record exactly where one stands, checksum included, and nothing else.
  lemma {:induction false} ReadExactly(f: Format, file: Bytes, offset: nat)
    ensures var r := ReadAt(f, file, offset);
            r.Some? ==> exists text, body ::
                          && Stands(f, file, offset, text, body)
                          && r == Some((Message(f.parse(text).value, body), 16 + |text| + |body|))
    ensures forall text, body :: Stands(f, file, offset, text, body) ==>
              ReadAt(f, file, offset) == Some((Message(f.parse(text).value, body), 16 + |text| + |body|))
  {
    var r := ReadAt(f, file, offset);
    if r.Some? {
      var text, body := ReadStands(f, file, offset);
    }
    hide ReadAt;
    forall text, body | Stands(f, file, offset, text, body)
      ensures r == Some((Message(f.parse(text).value, body), 16 + |text| + |body|))
    {
      StandsIsRead(f, file, offset, text, body);
    }
  }

  lemma ReadStands(f: Format, file: Bytes, offset: nat) returns (text: Bytes, body: Bytes)
    requires ReadAt(f, file, offset).Some?
    ensures Stands(f, file, offset, text, body)
    ensures ReadAt(f, file, offset) == Some((Message(f.parse(text).value, body), 16 + |text| + |body|))
  {
    hide GetWord, PutWord;
    var o := offset;
    var headerSize, bodySize := GetWord(file[o + 4..o + 8]), GetWord(file[o + 8..o + 12]);
    text, body := file[o + 16..o + 16 + headerSize], file[o + 16 + headerSize..o + 16 + headerSize + bodySize];
    WordIsPut(file[o..o + 4]);
    WordIsPut(file[o + 4..o + 8]);
    WordIsPut(file[o + 8..o + 12]);
    WordIsPut(file[o + 12..o + 16]);
    assert file[o..o + 16] ==
           file[o..o + 4] + (file[o + 4..o + 8] + (file[o + 8..o + 12] + file[o + 12..o + 16]));
  }

  lemma StandsIsRead(f: Format, file: Bytes, offset: nat, text: Bytes, body: Bytes)
    requires Stands(f, file, offset, text, body)
    ensures ReadAt(f, file, offset) == Some((Message(f.parse(text).value, body), 16 + |text| + |body|))
  {
    hide GetWord, PutWord, At;
    var sum := PutWord(f.crc(text, body));
    AtConcat(file, offset, PutWord(RECORD_MAGIC), PutWord(|text|) + (PutWord(|body|) + sum));
    AtConcat(file, offset + 4, PutWord(|text|), PutWord(|body|) + sum);
    AtConcat(file, offset + 8, PutWord(|body|), sum);
    GetAfterPutWord(RECORD_MAGIC);
    GetAfterPutWord(|text|);
    GetAfterPutWord(|body|);
    GetAfterPutWord(f.crc(text, body));
    FoundAt(file, offset, PutWord(RECORD_MAGIC));
    FoundAt(file, offset + 4, PutWord(|text|));
    FoundAt(file, offset + 8, PutWord(|body|));
    FoundAt(file, offset + 12, sum);
    FoundAt(file, offset + 16, text);
    FoundAt(file, offset + 16 + |text|, body);
  }

  lemma FoundAt(s: Bytes, offset: nat, part: Bytes)
    requires At(s, offset, part)
    ensures offset + |part| <= |s| && s[offset..offset + |part|] == part
  {
  }

  // What has been read does not depend on what is written after it.
  lemma ReadIsStable(f: Format, file: Bytes, more: Bytes, offset: nat)
    requires ReadAt(f, file, offset).Some?
    ensures ReadAt(f, file + more, offset) == ReadAt(f, file, offset)
  {
    var longer := file + more;
    var header, body: int := GetWord(file[offset + 4..offset + 8]), GetWord(file[offset + 8..offset + 12]);
    assert forall i, j :: 0 <= i <= j <= |file| ==> longer[i..j] == file[i..j];
  }
}
