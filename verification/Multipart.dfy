// Messages with several parts: written between boundary lines, and split at them again.
module Multipart {
  import opened Common
  import opened Sequences
  import opened Headers

  const DELIM: string := "========== POSTLINE MESSAGE =========="
  const BOUNDARY: string := "--" + DELIM + "\n"

  // ----- header objects

  datatype Value = Null | Text(text: string) | Items(items: seq<string>)
  datatype Item = Item(key: string, value: Value)

  // The members of a JSON object in its own order, without repeated keys.
  type Header = h: seq<Item> | forall i, j :: 0 <= i < j < |h| ==> h[i].key != h[j].key witness []

  datatype Canonical = Canonical(key: string, isList: bool, isEssential: bool)

  const CANONICAL: seq<Canonical> := [
    Canonical("From", false, true), Canonical("To", false, true), Canonical("Cc", true, true),
    Canonical("Subject", false, true), Canonical("Content-Type", false, false),
    Canonical("Content-Disposition", false, false)]

  predicate Hidden(key: string) {
    key == "type" || key == "Thinking" || key == "Trash" || key == "__context"
  }

  predicate IsCanonical(key: string) {
    exists c :: c in CANONICAL && c.key == key
  }

  function Find(h: seq<Item>, key: string): Option<Value> {
    if h == [] then None
    else if h[0].key == key then Some(h[0].value)
    else Find(h[1..], key)
  }

  function JoinItems(items: seq<string>): string {
    JoinWith(items, ", ")
  }

  function ValueText(v: Value): string
    requires !v.Null?
  {
    match v
    case Text(text) => text
    case Items(items) => JoinItems(items)
  }

  function CanonicalField(h: Header, c: Canonical, compact: bool): seq<Field> {
    var v := Find(h, c.key);
    if v.None? || v.value.Null? || (compact && !c.isEssential) then [] else [Field(c.key, ValueText(v.value))]
  }

  function CanonicalFields(h: Header, cs: seq<Canonical>, compact: bool): seq<Field> {
    if cs == [] then [] else CanonicalField(h, cs[0], compact) + CanonicalFields(h, cs[1..], compact)
  }

  function OtherField(item: Item): seq<Field> {
    if Hidden(item.key) || IsCanonical(item.key) || item.value.Null? then []
    else [Field(item.key, ValueText(item.value))]
  }

  function OtherFields(h: seq<Item>): seq<Field> {
    if h == [] then [] else OtherField(h[0]) + OtherFields(h[1..])
  }

  function Printed(h: Header, compact: bool): seq<Field> {
    CanonicalFields(h, CANONICAL, compact) + if compact then [] else OtherFields(h)
  }

  // The thinking text goes out first, as it is.
  function Thinking(h: Header): string {
    var v := Find(h, "Thinking");
    if v.Some? && v.value.Text? then v.value.text else []
  }

  function HeaderText(h: Header, compact: bool): string {
    Thinking(h) + Lines(Printed(h, compact))
  }

  // The CHECK of write_header_value: a list field holds a list.
  predicate ListsAreLists(h: Header, cs: seq<Canonical>) {
    forall i :: 0 <= i < |cs| && cs[i].isList ==>
      Find(h, cs[i].key).None? || Find(h, cs[i].key).value.Null? || Find(h, cs[i].key).value.Items?
  }

  predicate Printable(h: Header) {
    ListsAreLists(h, CANONICAL)
  }

  method WriteValue(v: Value) returns (out: string)
    requires !v.Null?
    ensures out == ValueText(v)
  {
    if v.Text? {
      return v.text;
    }
    out := Join(v.items, ", ");
  }

  // One turn of each of the two printing loops.
  lemma CanonicalStep(h: Header, cs: seq<Canonical>, compact: bool, i: nat, written: seq<Field>)
    requires i < |cs|
    ensures written + CanonicalFields(h, cs[i..], compact) ==
            written + CanonicalField(h, cs[i], compact) + CanonicalFields(h, cs[i + 1..], compact)
  {
    assert cs[i..][1..] == cs[i + 1..];
  }

  lemma OtherStep(h: seq<Item>, i: nat, written: seq<Field>)
    requires i < |h|
    ensures written + OtherFields(h[i..]) == written + OtherField(h[i]) + OtherFields(h[i + 1..])
  {
    assert h[i..][1..] == h[i + 1..];
  }

  lemma NoLines()
    ensures Lines([]) == []
  {
  }

  method WriteCanonicals(h: Header, cs: seq<Canonical>, compact: bool) returns (out: string)
    requires ListsAreLists(h, cs)
    ensures out == Lines(CanonicalFields(h, cs, compact))
  {
    hide Find, ValueText, Lines, CanonicalFields;
    out := "";
    ghost var written := [];
    var i := 0;
    NoLines();
    assert cs[0..] == cs && [] + CanonicalFields(h, cs, compact) == CanonicalFields(h, cs, compact);
    while i < |cs|
      invariant i <= |cs| && out == Lines(written)
      invariant CanonicalFields(h, cs, compact) == written + CanonicalFields(h, cs[i..], compact)
    {
      var c := cs[i];
      var v := Find(h, c.key);
      CanonicalStep(h, cs, compact, i, written);
      assert written + [] == written;
      if v.Some? && !(compact && !c.isEssential) && !v.value.Null? {
        assert c.isList ==> v.value.Items?;
        var text := WriteValue(v.value);
        LinesSnoc(written, Field(c.key, text));
        written := written + [Field(c.key, text)];
        out := out + c.key + ": " + text + "\n";
      }
      i := i + 1;
    }
    assert cs[i..] == [];
    assert CanonicalFields(h, cs[i..], compact) == [] by { NoCanonicals(h, compact); }
    assert written + [] == written;
  }

  lemma NoCanonicals(h: Header, compact: bool)
    ensures CanonicalFields(h, [], compact) == []
  {
  }

  lemma NoOthers()
    ensures OtherFields([]) == []
  {
  }

  method WriteOthers(h: Header) returns (out: string)
    ensures out == Lines(OtherFields(h))
  {
    hide ValueText, IsCanonical, Hidden, Lines, OtherFields;
    out := "";
    ghost var written := [];
    var i := 0;
    NoLines();
    assert h[0..] == h && [] + OtherFields(h) == OtherFields(h);
    while i < |h|
      invariant i <= |h| && out == Lines(written)
      invariant OtherFields(h) == written + OtherFields(h[i..])
    {
      OtherStep(h, i, written);
      assert written + [] == written;
      if !Hidden(h[i].key) && !IsCanonical(h[i].key) && !h[i].value.Null? {
        var text := WriteValue(h[i].value);
        LinesSnoc(written, Field(h[i].key, text));
        written := written + [Field(h[i].key, text)];
        out := out + h[i].key + ": " + text + "\n";
      }
      i := i + 1;
    }
    assert h[i..] == [];
    assert OtherFields(h[i..]) == [] by { NoOthers(); }
    assert written + [] == written;
  }

  method WriteHeaders(h: Header, compact: bool) returns (out: string)
    requires Printable(h)
    ensures out == HeaderText(h, compact)
  {
    hide Lines, CanonicalFields, OtherFields, ListsAreLists;
    out := Thinking(h);
    var first := WriteCanonicals(h, CANONICAL, compact);
    out := out + first;
    if compact {
      NothingMore(CanonicalFields(h, CANONICAL, compact));
    } else {
      var others := WriteOthers(h);
      LinesConcat(CanonicalFields(h, CANONICAL, compact), OtherFields(h));
      out := out + others;
    }
  }

  lemma NothingMore(fields: seq<Field>)
    ensures fields + [] == fields
  {
  }

  lemma {:induction false} LinesConcat(a: seq<Field>, b: seq<Field>)
    ensures Lines(a + b) == Lines(a) + Lines(b)
  {
    if a == [] {
      assert a + b == b;
    } else {
      assert (a + b)[1..] == a[1..] + b;
      LinesConcat(a[1..], b);
    }
  }

  lemma LinesSnoc(a: seq<Field>, f: Field)
    ensures Lines(a + [f]) == Lines(a) + f.name + ": " + f.value + "\n"
  {
    LinesConcat(a, [f]);
    assert [f][1..] == [];
    assert Lines([f]) == Line(f) + [];
  }

  // ----- which fields are printed

  lemma {:induction false} FindIsMember(h: seq<Item>, key: string, i: nat)
    requires i < |h| && h[i].key == key && forall k, l :: 0 <= k < l < |h| ==> h[k].key != h[l].key
    ensures Find(h, key) == Some(h[i].value)
  {
    if i > 0 {
      assert h[0].key != h[i].key;
      FindIsMember(h[1..], key, i - 1);
    }
  }

  lemma {:induction false} FoundIsMember(h: seq<Item>, key: string)
    requires Find(h, key).Some?
    ensures Item(key, Find(h, key).value) in h
  {
    if h[0].key != key {
      FoundIsMember(h[1..], key);
    }
  }

  lemma {:induction false} OtherFieldsAre(h: seq<Item>, f: Field)
    ensures f in OtherFields(h) <==>
            exists item :: item in h && !Hidden(item.key) && !IsCanonical(item.key) && !item.value.Null? &&
                           f == Field(item.key, ValueText(item.value))
  {
    hide Hidden, IsCanonical, ValueText;
    if h != [] {
      OtherFieldsAre(h[1..], f);
      assert h == [h[0]] + h[1..];
    }
  }

  lemma {:induction false} CanonicalFieldsAre(h: Header, cs: seq<Canonical>, f: Field)
    ensures f in CanonicalFields(h, cs, false) <==>
            exists c :: c in cs && f in CanonicalField(h, c, false)
  {
    hide CanonicalField;
    if cs != [] {
      CanonicalFieldsAre(h, cs[1..], f);
      assert cs == [cs[0]] + cs[1..];
    }
  }

  // In full form every member that is neither hidden nor null is printed, and nothing else.
  lemma PrintedExactly(h: Header, f: Field)
    ensures f in Printed(h, false) <==>
            exists item :: item in h && !Hidden(item.key) && !item.value.Null?
              && f == Field(item.key, ValueText(item.value))
  {
    hide ValueText, OtherFields, CanonicalFields;
    OtherFieldsAre(h, f);
    CanonicalFieldsAre(h, CANONICAL, f);
    if c :| c in CANONICAL && f in CanonicalField(h, c, false) {
      FoundIsMember(h, c.key);
      CanonicalIsVisible(c);
    }
    if item :|
      && item in h && !Hidden(item.key) && !item.value.Null? && f == Field(item.key, ValueText(item.value))
      && IsCanonical(item.key)
    {
      var c :| c in CANONICAL && c.key == item.key;
      var i :| 0 <= i < |h| && h[i] == item;
      FindIsMember(h, item.key, i);
      assert f in CanonicalField(h, c, false);
    }
  }

  lemma CanonicalIsVisible(c: Canonical)
    requires c in CANONICAL
    ensures !Hidden(c.key)
  {
  }

  // ----- writing a message with parts

  datatype Part = Part(header: Header, body: string)

  predicate Contains(s: string, block: string) {
    NextMatch(s, block, 0).Some?
  }

  // The two CHECKs of writing a part.
  predicate Writable(p: Part) {
    Printable(p.header) && !Contains(p.body, DELIM)
  }

  function Block(p: Part): string {
    HeaderText(p.header, false) + "\n" + p.body
  }

  function Blocks(parts: seq<Part>): seq<string> {
    seq(|parts|, i requires 0 <= i < |parts| => Block(parts[i]))
  }

  // Behind a boundary line: the parts, each followed by another one.
  function Tail(parts: seq<Part>, boundary: string): string {
    if parts == [] then [] else Block(parts[0]) + boundary + Tail(parts[1..], boundary)
  }

  lemma TailStep(parts: seq<Part>, boundary: string, i: nat, before: string)
    requires i < |parts|
    ensures before + (boundary + Tail(parts[i..], boundary)) ==
            before + boundary + HeaderText(parts[i].header, false) + "\n" + parts[i].body
            + (boundary + Tail(parts[i + 1..], boundary))
  {
    hide HeaderText;
    assert parts[i..][1..] == parts[i + 1..];
  }

  lemma TailEnd(boundary: string, before: string)
    ensures Tail([], boundary) == [] && before + (boundary + []) == before + boundary && [] + before == before
  {
  }

  // Every part goes out behind a boundary line, and the last one is followed by one.
  method WriteParts(parts: seq<Part>, boundary: string) returns (body: string)
    requires forall i :: 0 <= i < |parts| ==> Writable(parts[i])
    ensures body == boundary + Tail(parts, boundary)
  {
    hide HeaderText, Contains, Tail;
    body := "";
    var i := 0;
    assert parts[0..] == parts;
    TailEnd(boundary, boundary + Tail(parts, boundary));
    while i < |parts|
      invariant i <= |parts| && body + (boundary + Tail(parts[i..], boundary)) == boundary + Tail(parts, boundary)
    {
      TailStep(parts, boundary, i, body);
      body := body + boundary;
      var headers := WriteHeaders(parts[i].header, false);
      body := body + headers;
      assert !Contains(parts[i].body, DELIM);
      body := body + "\n";
      body := body + parts[i].body;
      i := i + 1;
    }
    assert parts[i..] == [];
    TailEnd(boundary, body);
    body := body + boundary;
  }

  function Imported(parts: seq<Part>): string {
    BOUNDARY + Tail(parts, BOUNDARY)
  }

  method ImportMultipartBody(parts: seq<Part>) returns (body: string)
    requires forall i :: 0 <= i < |parts| ==> Writable(parts[i])
    ensures body == Imported(parts)
  {
    body := WriteParts(parts, BOUNDARY);
  }

  // ----- splitting

  function Split(buf: string, boundary: string): seq<string>
    requires boundary != []
    decreases |buf|
  {
    var off := NextMatch(buf, boundary, 0);
    if off.None? then [] else [buf[..off.value]] + Split(buf[off.value + |boundary|..], boundary)
  }

  lemma SplitStep(buf: string, boundary: string, parts: seq<string>)
    requires boundary != []
    ensures var off := NextMatch(buf, boundary, 0);
            parts + Split(buf, boundary) ==
            if off.None? then parts else parts + [buf[..off.value]] + Split(buf[off.value + |boundary|..], boundary)
  {
    hide NextMatch, MatchesAt;
  }

  method SplitBody(body: string, boundary: string) returns (parts: seq<string>)
    requires boundary != [] && boundary <= body
    ensures parts == Split(body[|boundary|..], boundary)
  {
    hide NextMatch, Split;
    var buf := body[|boundary|..];
    parts := [];
    ghost var whole := Split(buf, boundary);
    while true
      invariant parts + Split(buf, boundary) == whole
      decreases |buf|
    {
      SplitStep(buf, boundary, parts);
      var off := NextMatch(buf, boundary, 0);
      if off.None? {
        return;
      }
      parts := parts + [buf[..off.value]];
      buf := buf[off.value + |boundary|..];
    }
  }

  // ----- splitting inverts writing

  // A whole line: its only newline is its last character, so it cannot overlap itself.
  predicate IsLine(b: string) {
    |b| > 1 && b[|b| - 1] == '\n' && '\n' !in b[..|b| - 1]
  }

  lemma NewlineIsLast(s: string, b: string, k: nat, i: nat)
    requires IsLine(b) && MatchesAt(s, b, k) && k <= i < k + |b|
    ensures s[i] == '\n' <==> i == k + |b| - 1
  {
    assert s[i] == s[k..k + |b|][i - k];
    if i - k < |b| - 1 {
      assert b[i - k] in b[..|b| - 1];
    }
  }

  lemma MatchesDoNotOverlap(s: string, b: string, k: nat, m: nat)
    requires IsLine(b) && MatchesAt(s, b, k) && MatchesAt(s, b, m) && k < m
    ensures k + |b| <= m
  {
    hide IsLine;
    LineIsLong(b);
    var last := k + |b| - 1;
    NewlineIsLast(s, b, k, last);
    if m <= last {
      NewlineIsLast(s, b, m, last);
    }
  }

  lemma MatchInBody(before: string, body: string, after: string, b: string, k: nat)
    requires MatchesAt(before + body + after, b, k) && |before| <= k && k + |b| <= |before| + |body|
    ensures MatchesAt(body, b, k - |before|)
  {
    var s, start := before + body + after, |before|;
    assert s[start..start + |body|] == body;
    assert s[k..k + |b|] == s[start..start + |body|][k - start..k - start + |b|];
  }

  // In a block followed by a boundary, an earlier match lies within the header lines and the blank line.
  lemma MatchLiesInHeader(header: string, body: string, b: string, after: string, k: nat)
    requires IsLine(b) && !Contains(body, b)
    requires MatchesAt(header + "\n" + body + b + after, b, k) && k < |header + "\n" + body|
    ensures k + |b| <= |header| + 1
  {
    hide IsLine;
    var s := header + "\n" + body + b + after;
    var start := |header| + 1;
    assert MatchesAt(s, b, start + |body|) by {
      assert s[start + |body|..start + |body| + |b|] == b;
    }
    MatchesDoNotOverlap(s, b, k, start + |body|);
    if k <= |header| {
      if |header| < k + |b| {
        assert s[|header|] == '\n';
        NewlineIsLast(s, b, k, |header|);
      }
    } else {
      assert s == header + "\n" + body + (b + after);
      MatchInBody(header + "\n", body, b + after, b, k);
      assert false;
    }
  }

  lemma FirstSplit(header: string, body: string, b: string, after: string)
    requires IsLine(b) && !Contains(body, b)
    ensures var block := header + "\n" + body;
            var off := NextMatch(block + b + after, b, 0);
            off.Some? && off.value <= |block| && (off.value == |block| <==> !Contains(header + "\n", b))
  {
    hide IsLine;
    var head, block := header + "\n", header + "\n" + body;
    var s := block + b + after;
    LineIsLong(b);
    MatchInPrefix(block + b, after, b, |block|);
    assert (block + b)[|block|..|block| + |b|] == b;
    var k := NextMatch(s, b, 0).value;
    assert s == head + (body + b + after);
    if k < |block| {
      MatchLiesInHeader(header, body, b, after, k);
      MatchInPrefix(head, body + b + after, b, k);
    }
    if Contains(head, b) {
      MatchInPrefix(head, body + b + after, b, NextMatch(head, b, 0).value);
    }
  }

  lemma MatchInPrefix(s: string, after: string, b: string, k: nat)
    requires k + |b| <= |s|
    ensures MatchesAt(s + after, b, k) <==> MatchesAt(s, b, k)
  {
    assert (s + after)[k..k + |b|] == s[k..k + |b|];
  }

  lemma MatchInSuffix(before: string, s: string, b: string, k: nat)
    ensures MatchesAt(before + s, b, |before| + k) <==> MatchesAt(s, b, k)
  {
    if k + |b| <= |s| {
      assert (before + s)[|before| + k..|before| + k + |b|] == s[k..k + |b|];
    }
  }

  lemma LineIsLong(b: string)
    requires IsLine(b)
    ensures |b| > 1
  {
  }

  predicate CleanHeader(p: Part, b: string) {
    !Contains(HeaderText(p.header, false) + "\n", b)
  }

  lemma BlocksOf(parts: seq<Part>)
    requires parts != []
    ensures Blocks(parts) == [Block(parts[0])] + Blocks(parts[1..])
  {
    hide Block;
    var all := [Block(parts[0])] + Blocks(parts[1..]);
    forall i | 0 <= i < |parts|
      ensures Blocks(parts)[i] == all[i]
    {
      assert i > 0 ==> parts[i] == parts[1..][i - 1];
    }
  }

  lemma AllCleanFromRest(parts: seq<Part>, b: string)
    requires parts != [] && CleanHeader(parts[0], b)
    ensures (forall i :: 0 <= i < |parts| ==> CleanHeader(parts[i], b)) <==>
            forall i :: 0 <= i < |parts[1..]| ==> CleanHeader(parts[1..][i], b)
  {
    hide CleanHeader;
    assert forall i :: 0 < i < |parts| ==> parts[i] == parts[1..][i - 1];
    assert forall i :: 0 <= i < |parts[1..]| ==> parts[1..][i] == parts[i + 1];
  }

  lemma {:induction false} TailSplitsExactly(parts: seq<Part>, b: string)
    requires IsLine(b) && forall i :: 0 <= i < |parts| ==> !Contains(parts[i].body, b)
    ensures Split(Tail(parts, b), b) == Blocks(parts) <==> forall i :: 0 <= i < |parts| ==> CleanHeader(parts[i], b)
  {
    hide Contains, HeaderText;
    LineIsLong(b);
    if parts == [] {
      NothingToSplit(b);
    } else {
      var rest := parts[1..];
      var block, after := Block(parts[0]), Tail(rest, b);
      var buf := Tail(parts, b);
      FirstSplit(HeaderText(parts[0].header, false), parts[0].body, b, after);
      TailSplitsExactly(rest, b);
      var off := NextMatch(buf, b, 0).value;
      BlocksOf(parts);
      hide Blocks;
      if CleanHeader(parts[0], b) {
        assert buf[..off] == block && buf[off + |b|..] == after;
        assert Split(buf, b) == [block] + Split(after, b);
        assert ([block] + Split(after, b))[1..] == Split(after, b) && ([block] + Blocks(rest))[1..] == Blocks(rest);
        AllCleanFromRest(parts, b);
      } else {
        assert |Split(buf, b)[0]| == off < |block|;
        assert Split(buf, b)[0] != Blocks(parts)[0];
      }
    }
  }

  lemma NothingToSplit(b: string)
    requires |b| > 0
    ensures Split([], b) == []
  {
  }

  lemma BoundaryIsLine()
    ensures IsLine(BOUNDARY)
  {
    var dashes := "--" + DELIM;
    assert '\n' !in DELIM && '\n' !in "--";
    assert BOUNDARY[..|BOUNDARY| - 1] == dashes;
  }

  lemma BodyHasNoBoundary(body: string)
    requires !Contains(body, DELIM)
    ensures !Contains(body, BOUNDARY)
  {
    if Contains(body, BOUNDARY) {
      var j := NextMatch(body, BOUNDARY, 0).value;
      InnerMatch(body, "--", DELIM, "\n", j);
      assert false;
    }
  }

  lemma InnerMatch(s: string, a: string, b: string, c: string, j: nat)
    requires MatchesAt(s, a + b + c, j)
    ensures MatchesAt(s, b, j + |a|)
  {
    var whole := a + b + c;
    forall i | 0 <= i < |b|
      ensures s[j + |a| + i] == b[i]
    {
      assert s[j..j + |whole|][|a| + i] == whole[|a| + i];
    }
    assert s[j + |a|..j + |a| + |b|] == b;
  }

  // Splitting a written body gives back exactly the written parts, whatever the bodies end in, unless a
  // boundary line turns up among some part's header lines, which nothing checks.
  lemma SplitInvertsImportExactly(parts: seq<Part>)
    requires forall i :: 0 <= i < |parts| ==> Writable(parts[i])
    ensures BOUNDARY <= Imported(parts)
    ensures Split(Imported(parts)[|BOUNDARY|..], BOUNDARY) == Blocks(parts) <==>
            forall i :: 0 <= i < |parts| ==> CleanHeader(parts[i], BOUNDARY)
  {
    hide Contains, HeaderText, Tail, Split;
    BoundaryIsLine();
    forall i | 0 <= i < |parts|
      ensures !Contains(parts[i].body, BOUNDARY)
    {
      assert Writable(parts[i]);
      BodyHasNoBoundary(parts[i].body);
    }
    assert Imported(parts)[|BOUNDARY|..] == Tail(parts, BOUNDARY);
    TailSplitsExactly(parts, BOUNDARY);
  }

  // ----- the exact condition on the header fields

  const DASHED: string := "--" + DELIM

  predicate EndsWith(s: string, end: string) {
    |end| <= |s| && s[|s| - |end|..] == end
  }

  // Among plain fields a boundary line turns up only as the end of a printed line.
  lemma {:induction false} BoundaryEndsALine(fields: seq<Field>, b: string, dashed: string)
    requires AllPlain(fields) && dashed != [] && '\n' !in dashed && b == dashed + "\n"
    ensures Contains(Lines(fields) + "\n", b) <==>
            exists i :: 0 <= i < |fields| && EndsWith(fields[i].name + ": " + fields[i].value, dashed)
  {
    hide Contains;
    if fields == [] {
      assert Lines(fields) + "\n" == "\n";
      TooShort("\n", b);
    } else {
      var line, rest := fields[0].name + ": " + fields[0].value, Lines(fields[1..]) + "\n";
      assert Plain(fields[0]);
      assert Lines(fields) + "\n" == line + "\n" + rest;
      LineOrRest(line, rest, dashed, b);
      forall i | 0 <= i < |fields[1..]|
        ensures Plain(fields[1..][i])
      {
        assert Plain(fields[i + 1]);
      }
      BoundaryEndsALine(fields[1..], b, dashed);
      if exists i :: 0 <= i < |fields| && EndsWith(fields[i].name + ": " + fields[i].value, dashed) {
        var i :| 0 <= i < |fields| && EndsWith(fields[i].name + ": " + fields[i].value, dashed);
        assert i > 0 ==> fields[i] == fields[1..][i - 1];
      }
      if exists i :: 0 <= i < |fields[1..]| && EndsWith(fields[1..][i].name + ": " + fields[1..][i].value, dashed) {
        var i :| 0 <= i < |fields[1..]| && EndsWith(fields[1..][i].name + ": " + fields[1..][i].value, dashed);
        assert fields[1..][i] == fields[i + 1];
      }
    }
  }

  lemma TooShort(s: string, b: string)
    requires |s| < |b|
    ensures !Contains(s, b)
  {
  }

  lemma LineOrRest(line: string, rest: string, dashed: string, b: string)
    requires '\n' !in line && dashed != [] && '\n' !in dashed && b == dashed + "\n"
    ensures Contains(line + "\n" + rest, b) <==> EndsWith(line, dashed) || Contains(rest, b)
  {
    hide MatchesAt, EndsWith;
    var front := line + "\n";
    assert IsLine(b) by { assert b[..|b| - 1] == dashed; }
    hide IsLine;
    if EndsWith(line, dashed) {
      var k := EndMatches(line, dashed);
      MatchInPrefix(front, rest, b, k);
    }
    if Contains(rest, b) {
      MatchInSuffix(front, rest, b, NextMatch(rest, b, 0).value);
    }
    if Contains(front + rest, b) {
      var k := NextMatch(front + rest, b, 0).value;
      if k >= |front| {
        MatchInSuffix(front, rest, b, k - |front|);
      } else {
        MatchEndsLine(line, rest, dashed, b, k);
      }
    }
  }

  lemma EndMatches(line: string, dashed: string) returns (k: nat)
    requires EndsWith(line, dashed)
    ensures k + |dashed| == |line| && MatchesAt(line + "\n", dashed + "\n", k)
  {
    k := |line| - |dashed|;
    assert (line + "\n")[k..k + |dashed| + 1] == line[k..] + "\n";
  }

  lemma MatchEndsLine(line: string, rest: string, dashed: string, b: string, k: nat)
    requires '\n' !in line && IsLine(b) && b == dashed + "\n"
    requires k <= |line| && MatchesAt(line + "\n" + rest, b, k)
    ensures EndsWith(line, dashed)
  {
    hide IsLine;
    var s := line + "\n" + rest;
    NewlineIsLast(s, b, k, k + |b| - 1);
    if |line| < k + |b| {
      NewlineIsLast(s, b, k, |line|);
    }
    assert s[..|line|] == line;
    assert s[k..k + |b|][..|dashed|] == dashed;
    assert line[k..] == s[..|line|][k..];
  }

  // ----- reading the parts back

  // Plain fields none of whose lines ends in the dashed delimiter, behind a thinking text that is blank if any.
  predicate Readable(p: Part) {
    var fields := Printed(p.header, false);
    && AllBlank(Thinking(p.header)) && AllPlain(fields)
    && forall l :: 0 <= l < |fields| ==> !EndsWith(fields[l].name + ": " + fields[l].value, DASHED)
  }

  predicate ReadsBack(block: string, p: Part) {
    ParseHeaders(block) == Parsed(true, Printed(p.header, false), p.body)
  }

  lemma BlockReadsBackExactly(p: Part)
    ensures ReadsBack(Block(p), p) <==> AllBlank(Thinking(p.header)) && AllPlain(Printed(p.header, false))
  {
    hide Printed, Thinking, AllPlain, AllBlank, ParseHeaders;
    TextInFrontExactly(Thinking(p.header), Printed(p.header, false), p.body);
  }

  // A blank text holds no part of a boundary line.
  lemma CleanHeaderExactly(p: Part)
    requires AllBlank(Thinking(p.header)) && AllPlain(Printed(p.header, false))
    ensures CleanHeader(p, BOUNDARY) <==> Readable(p)
  {
    hide Printed, Thinking, AllPlain, AllBlank, EndsWith, Contains;
    var t, fields := Thinking(p.header), Printed(p.header, false);
    DashedSubjectIsPlain();
    BoundaryEndsALine(fields, BOUNDARY, DASHED);
    BlanksHoldNoMatch(t, Lines(fields) + "\n", BOUNDARY);
    assert HeaderText(p.header, false) + "\n" == t + (Lines(fields) + "\n");
  }

  lemma BlanksHoldNoMatch(t: string, s: string, b: string)
    requires AllBlank(t) && b != [] && !IsBlank(b[0])
    ensures Contains(t + s, b) <==> Contains(s, b)
  {
    hide MatchesAt;
    if Contains(s, b) {
      MatchInSuffix(t, s, b, NextMatch(s, b, 0).value);
    }
    if Contains(t + s, b) {
      var k := NextMatch(t + s, b, 0).value;
      assert k < |t| ==> IsBlank((t + s)[k]) by { assert k < |t| ==> t[k] in t; }
      MatchStarts(t + s, b, k);
      MatchInSuffix(t, s, b, k - |t|);
    }
  }

  lemma MatchStarts(s: string, b: string, k: nat)
    requires MatchesAt(s, b, k) && b != []
    ensures k < |s| && s[k] == b[0]
  {
    assert s[k..k + |b|][0] == s[k];
  }

  // Splitting yields a piece for the first boundary at least, and one more for every boundary in front of it.
  lemma {:induction false} PiecesInFront(front: string, b: string, after: string)
    requires IsLine(b)
    ensures var off := NextMatch(front + b + after, b, 0);
            && off.Some? && off.value <= |front|
            && |Split(front + b + after, b)| >= 1 + |Split(after, b)| + (if off.value < |front| then 1 else 0)
    decreases |front|
  {
    hide IsLine, Split, NextMatch;
    LineIsLong(b);
    var s := front + b + after;
    assert s[|front|..|front| + |b|] == b;
    assert MatchesAt(s, b, |front|);
    var off := NextMatch(s, b, 0).value;
    SplitStep(s, b, []);
    assert [] + Split(s, b) == Split(s, b);
    if off < |front| {
      MatchesDoNotOverlap(s, b, off, |front|);
      var rest := front[off + |b|..];
      assert s[off + |b|..] == rest + b + after;
      PiecesInFront(rest, b, after);
    } else {
      assert s[off + |b|..] == after;
    }
  }

  // So there are as many pieces as parts only if no header line holds a boundary.
  lemma {:induction false} AsManyPiecesExactly(parts: seq<Part>, b: string)
    requires IsLine(b) && forall i :: 0 <= i < |parts| ==> !Contains(parts[i].body, b)
    ensures |Split(Tail(parts, b), b)| >= |parts|
    ensures |Split(Tail(parts, b), b)| == |parts| ==> forall i :: 0 <= i < |parts| ==> CleanHeader(parts[i], b)
  {
    hide Contains, HeaderText, Split, IsLine;
    if parts != [] {
      var rest := parts[1..];
      AsManyPiecesExactly(rest, b);
      PiecesInFront(Block(parts[0]), b, Tail(rest, b));
      FirstSplit(HeaderText(parts[0].header, false), parts[0].body, b, Tail(rest, b));
      if CleanHeader(parts[0], b) {
        AllCleanFromRest(parts, b);
      }
    }
  }

  // Everything together, for whatever may be written: the parts come back field by field and with their bodies intact
  // if and only if all of them are readable, which can be told before writing.
  lemma PartsReadBackExactly(parts: seq<Part>)
    requires forall i :: 0 <= i < |parts| ==> Writable(parts[i])
    ensures var blocks := Split(Imported(parts)[|BOUNDARY|..], BOUNDARY);
            (|blocks| == |parts| && forall i :: 0 <= i < |parts| ==> ReadsBack(blocks[i], parts[i])) <==>
            forall i :: 0 <= i < |parts| ==> Readable(parts[i])
  {
    hide CleanHeader, Writable, Split, Imported, Block, Printed, Readable;
    hide Contains, Tail, AllBlank, AllPlain, Thinking, ReadsBack;
    SplitInvertsImportExactly(parts);
    var blocks := Split(Imported(parts)[|BOUNDARY|..], BOUNDARY);
    ImportedPieces(parts);
    forall i | 0 <= i < |parts|
      ensures Readable(parts[i]) <==> CleanHeader(parts[i], BOUNDARY) && ReadsBack(Block(parts[i]), parts[i])
    {
      PartReadsBackExactly(parts[i]);
    }
    BlocksAre(parts);
    hide Blocks;
  }

  lemma BlocksAre(parts: seq<Part>)
    ensures |Blocks(parts)| == |parts| && forall i :: 0 <= i < |parts| ==> Blocks(parts)[i] == Block(parts[i])
  {
    hide Block;
  }

  lemma PartReadsBackExactly(p: Part)
    ensures Readable(p) <==> CleanHeader(p, BOUNDARY) && ReadsBack(Block(p), p)
  {
    BlockReadsBackExactly(p);
    hide CleanHeader, Block, ReadsBack, Printed, Thinking, AllBlank, AllPlain, EndsWith;
    if AllBlank(Thinking(p.header)) && AllPlain(Printed(p.header, false)) {
      CleanHeaderExactly(p);
    }
  }

  lemma ImportedPieces(parts: seq<Part>)
    requires forall i :: 0 <= i < |parts| ==> Writable(parts[i])
    ensures |Split(Imported(parts)[|BOUNDARY|..], BOUNDARY)| == |parts| ==>
              forall i :: 0 <= i < |parts| ==> CleanHeader(parts[i], BOUNDARY)
  {
    hide Contains, CleanHeader, Tail, Split, Printable;
    BoundaryIsLine();
    forall i | 0 <= i < |parts|
      ensures !Contains(parts[i].body, BOUNDARY)
    {
      assert Writable(parts[i]);
      BodyHasNoBoundary(parts[i].body);
    }
    assert Imported(parts)[|BOUNDARY|..] == Tail(parts, BOUNDARY);
    AsManyPiecesExactly(parts, BOUNDARY);
  }

  lemma {:induction false} NothingCanonical(h: Header, cs: seq<Canonical>)
    requires forall c <- cs :: Find(h, c.key) == None
    ensures CanonicalFields(h, cs, false) == []
  {
    hide Find;
    if cs != [] {
      NothingCanonical(h, cs[1..]);
    }
  }

  lemma {:induction false} NotFound(h: seq<Item>, key: string)
    requires forall item <- h :: item.key != key
    ensures Find(h, key) == None
  {
    if h != [] {
      NotFound(h[1..], key);
    }
  }

  lemma FromIsFirst(c: Canonical)
    requires c in CANONICAL[1..]
    ensures c.key != "From" && c.key != "Thinking" && CANONICAL[0] == Canonical("From", false, true)
  {
  }

  predicate HasThinking(h: Header, sender: string, thinking: string) {
    h == [Item("From", Text(sender)), Item("Thinking", Text(thinking))] || h == [Item("Thinking", Text(thinking))]
  }

  lemma SenderIsFound(h: Header, sender: string, thinking: string)
    requires HasThinking(h, sender, thinking)
    ensures Find(h, "From") == if |h| == 2 then Some(Text(sender)) else None
    ensures Find(h, "Thinking") == Some(Text(thinking))
    ensures forall key :: key != "From" && key != "Thinking" ==> Find(h, key) == None
    ensures forall item <- h :: item.key == "From" || item.key == "Thinking"
  {
    assert |h| == 2 ==> h[1..] == [Item("Thinking", Text(thinking))];
    forall key: string | key != "From" && key != "Thinking"
      ensures Find(h, key) == None
    {
      NotFound(h, key);
    }
  }

  // A header with a thinking text and at most a sender prints at most that.
  lemma OnlyASender(h: Header, sender: string, thinking: string)
    requires HasThinking(h, sender, thinking)
    ensures Thinking(h) == thinking && Printable(h)
    ensures Printed(h, false) == if |h| == 2 then [Field("From", sender)] else []
  {
    hide Find, OtherFields, HasThinking, IsCanonical, Hidden, CanonicalFields;
    SenderIsFound(h, sender, thinking);
    forall c | c in CANONICAL[1..]
      ensures Find(h, c.key) == None
    {
      FromIsFirst(c);
    }
    NothingCanonical(h, CANONICAL[1..]);
    FromIsCanonical();
    NothingElse(h);
    FirstCanonical(h);
  }

  lemma FromIsCanonical()
    ensures IsCanonical("From") && Hidden("Thinking") && CANONICAL[0] == Canonical("From", false, true)
  {
    assert CANONICAL[0] in CANONICAL;
  }

  lemma FirstCanonical(h: Header)
    ensures CanonicalFields(h, CANONICAL, false)
            == CanonicalField(h, CANONICAL[0], false) + CanonicalFields(h, CANONICAL[1..], false)
  {
    hide Find, CanonicalField;
  }

  lemma {:induction false} NothingElse(h: seq<Item>)
    requires forall item <- h :: Hidden(item.key) || IsCanonical(item.key)
    ensures OtherFields(h) == []
  {
    hide IsCanonical, Hidden;
    if h != [] {
      NothingElse(h[1..]);
    }
  }

  const HM_FROM: Header := [Item("From", Text("a")), Item("Thinking", Text("hm"))]
  const HM: Header := [Item("Thinking", Text("hm"))]

  // A thinking text runs into the first header line, and, where there is none, is taken for a line without a colon.
  lemma ThinkingSpoilsHeaders(body: string)
    requires !Contains(body, DELIM)
    ensures var p := Part(HM_FROM, body);
            && Writable(p) && Printed(p.header, false) == [Field("From", "a")]
            && ParseHeaders(Block(p)) == Parsed(true, [Field("hmFrom", "a")], body)
    ensures var p := Part(HM, body);
            Writable(p) && Printed(p.header, false) == [] && !ParseHeaders(Block(p)).ok
  {
    hide Printed, Thinking, Contains, ParseHeaders, Printable;
    OnlyASender(HM_FROM, "a", "hm");
    OnlyASender(HM, "a", "hm");
    HmFrom(body);
    HmAlone(body);
  }

  lemma HmFrom(body: string)
    ensures ParseHeaders("hm" + Lines([Field("From", "a")]) + "\n" + body) == Parsed(true, [Field("hmFrom", "a")], body)
  {
    hide ParseHeaders;
    var f := Field("hmFrom", "a");
    assert Lines([f]) == "hm" + Lines([Field("From", "a")]) by {
      assert [f][1..] == [] && [Field("From", "a")][1..] == [];
      assert Line(f) == "hm" + Line(Field("From", "a"));
    }
    assert Plain(f);
    LinesReadBack([f], body);
  }

  lemma HmAlone(body: string)
    ensures !ParseHeaders("hm" + Lines([]) + "\n" + body).ok
  {
    var range := "hm" + Lines([]) + "\n" + body;
    assert range == "hm" + ['\n'] + body;
    IndexOfAt("hm", '\n', body);
    assert range[..2] == "hm" && LStrip("hm") == "hm";
    assert IndexOf("hm", ':') == 2;
  }

  // One subject is enough to break the splitting: a part whose subject is the dashed delimiter.
  lemma SubjectCanBreakSplitting(body: string)
    requires !Contains(body, DELIM)
    ensures var p := Part([Item("Subject", Text(DASHED))], body);
            Writable(p) && Split(Imported([p])[|BOUNDARY|..], BOUNDARY) != Blocks([p])
  {
    hide Contains, Split, Imported, Blocks, Printed, AllPlain, EndsWith;
    var h: Header := [Item("Subject", Text(DASHED))];
    var p := Part(h, body);
    OnlyASubject(h, DASHED);
    var fields := Printed(h, false);
    DashedSubjectIsPlain();
    assert AllPlain(fields) by { AllAlikePlain(fields, Field("Subject", DASHED)); }
    BoundaryEndsALine(fields, BOUNDARY, DASHED);
    assert fields[0] in fields;
    assert fields[0].name + ": " + fields[0].value == "Subject" + ": " + DASHED;
    assert !CleanHeader(p, BOUNDARY) by { assert [] + Lines(fields) == Lines(fields); }
    var parts := [p];
    assert !CleanHeader(parts[0], BOUNDARY);
    SplitInvertsImportExactly(parts);
  }

  lemma OnlyASubject(h: Header, subject: string)
    requires h == [Item("Subject", Text(subject))]
    ensures Thinking(h) == [] && Printable(h)
    ensures Printed(h, false) != [] && forall f :: f in Printed(h, false) ==> f == Field("Subject", subject)
  {
    OnlyOneFound(h, "Subject");
    hide Printed, Find, IsCanonical;
    var f := Field("Subject", subject);
    PrintedExactly(h, f);
    assert h[0] in h;
    forall g | g in Printed(h, false)
      ensures g == f
    {
      PrintedExactly(h, g);
    }
  }

  lemma OnlyOneFound(h: seq<Item>, key: string)
    requires |h| == 1 && h[0].key == key
    ensures forall other :: other != key ==> Find(h, other) == None
  {
    assert h[1..] == [];
  }

  lemma DashedSubjectIsPlain()
    ensures Plain(Field("Subject", DASHED)) && EndsWith("Subject" + ": " + DASHED, DASHED)
    ensures DASHED != [] && '\n' !in DASHED && BOUNDARY == DASHED + "\n"
  {
    hide EndsWith;
    DashedIsTrimmed();
    EndsWithSuffix("Subject" + ": ", DASHED);
  }

  lemma DashedIsTrimmed()
    ensures DASHED != [] && '\n' !in DASHED && Trimmed(DASHED)
  {
    assert '\n' !in DELIM && '\n' !in "--";
    assert DASHED[0] == '-' && DASHED[|DASHED| - 1] == '=';
  }

  lemma EndsWithSuffix(a: string, s: string)
    ensures EndsWith(a + s, s)
  {
  }

  lemma AllAlikePlain(fields: seq<Field>, f: Field)
    requires Plain(f) && forall g :: g in fields ==> g == f
    ensures AllPlain(fields)
  {
    forall i | 0 <= i < |fields|
      ensures Plain(fields[i])
    {
      assert fields[i] in fields;
    }
  }
}
