// The printed form of message headers, and the parser that reads it.
module Headers {
  import opened Common
  import opened Sequences

  datatype Field = Field(name: string, value: string)

  predicate IsBlank(c: char) {
    c == ' ' || c == '\t'
  }

  function LStrip(s: string): (r: string)
    ensures |r| <= |s|
  {
    if s != [] && IsBlank(s[0]) then LStrip(s[1..]) else s
  }

  function RStrip(s: string): (r: string)
    ensures |r| <= |s|
  {
    if s != [] && IsBlank(s[|s| - 1]) then RStrip(s[..|s| - 1]) else s
  }

  method StripLeft(s: string) returns (r: string)
    ensures r == LStrip(s)
  {
    r := s;
    while r != []
      invariant LStrip(r) == LStrip(s)
      decreases |r|
    {
      if IsBlank(r[0]) {
        r := r[1..];
      } else {
        break;
      }
    }
  }

  method StripRight(s: string) returns (r: string)
    ensures r == RStrip(s)
  {
    r := s;
    while r != []
      invariant RStrip(r) == RStrip(s)
      decreases |r|
    {
      if IsBlank(r[|r| - 1]) {
        r := r[..|r| - 1];
      } else {
        break;
      }
    }
  }

  predicate Trimmed(s: string) {
    s == [] || (!IsBlank(s[0]) && !IsBlank(s[|s| - 1]))
  }

  lemma StripsTrim(s: string)
    ensures LStrip(s) == [] || !IsBlank(LStrip(s)[0])
    ensures RStrip(s) == [] || !IsBlank(RStrip(s)[|RStrip(s)| - 1])
    ensures forall c :: c in LStrip(s) || c in RStrip(s) ==> c in s
    ensures RStrip(s) <= s
  {
  }

  lemma TrimmedIsTrimmed(s: string)
    ensures Trimmed(RStrip(LStrip(s)))
    ensures (s != [] ==> !IsBlank(s[0])) ==> Trimmed(RStrip(s))
    ensures forall c :: c in RStrip(LStrip(s)) ==> c in s
  {
    StripsTrim(s);
    StripsTrim(LStrip(s));
  }

  // ----- parsing

  // ok is false where the original aborts; rest is what is left as the body.
  datatype Parsed = Parsed(ok: bool, fields: seq<Field>, rest: string)

  function FieldOf(line: string, colon: nat): Field
    requires colon < |line|
  {
    Field(RStrip(line[..colon]), RStrip(LStrip(line[colon + 1..])))
  }

  // What follows a line; nothing, where its terminator is missing.
  function AfterLine(range: string, pos: nat): (after: string)
    requires pos <= |range|
    ensures range != [] ==> |after| < |range|
  {
    if pos == |range| then [] else range[pos + 1..]
  }

  function ParseHeaders(range: string): Parsed
    decreases |range|
  {
    if range == [] then Parsed(true, [], [])
    else
      var pos := IndexOf(range, '\n');
      if pos == 0 then Parsed(true, [], range[1..])
      else
        var line := LStrip(range[..pos]);
        var after := AfterLine(range, pos);
        var colon := IndexOf(line, ':');
        if line == [] then Parsed(true, [], after)
        else if colon == |line| then Parsed(false, [], after)
        else
          var rest := ParseHeaders(after);
          Parsed(rest.ok, [FieldOf(line, colon)] + rest.fields, rest.rest)
  }

  function Behind(fields: seq<Field>, p: Parsed): Parsed {
    Parsed(p.ok, fields + p.fields, p.rest)
  }

  // One turn of the parsing loop.
  lemma ParseStep(range: string, fields: seq<Field>)
    requires range != []
    ensures var pos := IndexOf(range, '\n');
            var line := LStrip(range[..pos]);
            var after := AfterLine(range, pos);
            var colon := IndexOf(line, ':');
            Behind(fields, ParseHeaders(range)) ==
            if pos == 0 then Parsed(true, fields, range[1..])
            else if line == [] then Parsed(true, fields, after)
            else if colon == |line| then Parsed(false, fields, after)
            else Behind(fields + [FieldOf(line, colon)], ParseHeaders(after))
  {
    hide LStrip, IndexOf, FieldOf, AfterLine;
    var pos := IndexOf(range, '\n');
    var line := LStrip(range[..pos]);
    var colon := IndexOf(line, ':');
    assert fields + [] == fields;
    if pos > 0 && line != [] && colon < |line| {
      var rest := ParseHeaders(AfterLine(range, pos)).fields;
      assert fields + ([FieldOf(line, colon)] + rest) == fields + [FieldOf(line, colon)] + rest;
    }
  }

  lemma ParseNothing(fields: seq<Field>)
    ensures Behind(fields, ParseHeaders([])) == Parsed(true, fields, [])
    ensures [] + fields == fields && forall p :: Behind([], p) == p
  {
  }

  method ReadHeaders(text: string) returns (r: Parsed)
    ensures r == ParseHeaders(text)
  {
    hide LStrip, RStrip, IndexOf, ParseHeaders, Behind;
    var range, fields := text, [];
    ParseNothing(fields);
    while range != []
      invariant ParseHeaders(text) == Behind(fields, ParseHeaders(range))
      decreases |range|
    {
      ParseStep(range, fields);
      var pos := IndexOf(range, '\n');
      if pos == 0 {
        return Parsed(true, fields, range[1..]);
      }
      var keyValue := range[..pos];
      range := AfterLine(range, pos);
      keyValue := StripLeft(keyValue);
      if keyValue == [] {
        return Parsed(true, fields, range);
      }
      var colon := IndexOf(keyValue, ':');
      if colon == |keyValue| {
        return Parsed(false, fields, range);
      }
      var name := StripRight(keyValue[..colon]);
      var value := StripLeft(keyValue[colon + 1..]);
      value := StripRight(value);
      fields := fields + [Field(name, value)];
    }
    ParseNothing(fields);
    return Parsed(true, fields, range);
  }

  // ----- printing one field, and reading it back

  function Line(f: Field): string {
    f.name + ": " + f.value + "\n"
  }

  function Lines(fields: seq<Field>): string {
    if fields == [] then [] else Line(fields[0]) + Lines(fields[1..])
  }

  predicate Plain(f: Field) {
    '\n' !in f.name && ':' !in f.name && Trimmed(f.name) && '\n' !in f.value && Trimmed(f.value)
  }

  predicate AllPlain(fields: seq<Field>) {
    forall i :: 0 <= i < |fields| ==> Plain(fields[i])
  }

  lemma TrimmedStaysPut(s: string)
    requires Trimmed(s)
    ensures LStrip(s) == s && RStrip(s) == s && LStrip(" " + s) == s
  {
    assert (" " + s)[1..] == s;
  }

  lemma LineReadsBack(f: Field, tail: string)
    requires Plain(f)
    ensures var rest := ParseHeaders(tail);
            ParseHeaders(Line(f) + tail) == Parsed(rest.ok, [f] + rest.fields, rest.rest)
  {
    hide LStrip, RStrip, IndexOf;
    var text := f.name + ": " + f.value;
    var range := Line(f) + tail;
    assert range == text + ['\n'] + tail;
    IndexOfAt(text, '\n', tail);
    assert range[..|text|] == text && range[|text| + 1..] == tail;
    assert text == f.name + [':'] + (" " + f.value);
    IndexOfAt(f.name, ':', " " + f.value);
    assert text[..|f.name|] == f.name && text[|f.name| + 1..] == " " + f.value;
    TrimmedStaysPut(f.name);
    TrimmedStaysPut(f.value);
    assert LStrip(text) == text by { NotBlankStays(text); }
  }

  lemma NotBlankStays(s: string)
    ensures s != [] && !IsBlank(s[0]) ==> LStrip(s) == s
  {
  }

  lemma {:induction false} LinesReadBack(fields: seq<Field>, body: string)
    requires AllPlain(fields)
    ensures ParseHeaders(Lines(fields) + "\n" + body) == Parsed(true, fields, body)
  {
    hide LStrip, RStrip, Plain, Line;
    if fields == [] {
      BlankLineEnds(body);
      assert [] + "\n" + body == "\n" + body;
    } else {
      var tail := Lines(fields[1..]) + "\n" + body;
      assert Lines(fields) + "\n" + body == Line(fields[0]) + tail;
      LinesReadBack(fields[1..], body);
      LineReadsBack(fields[0], tail);
    }
  }

  lemma BlankLineEnds(body: string)
    ensures ParseHeaders("\n" + body) == Parsed(true, [], body)
  {
    assert ("\n" + body)[1..] == body;
  }

  lemma FieldOfIsPlain(text: string, line: string, colon: nat)
    requires '\n' !in text && line == LStrip(text) && colon == IndexOf(line, ':') < |line|
    ensures Plain(FieldOf(line, colon))
  {
    hide LStrip, RStrip, IndexOf, Trimmed;
    StripsTrim(text);
    NameIsPlain(line[..colon]);
    TrimmedIsTrimmed(line[colon + 1..]);
    assert forall c :: c in line[..colon] || c in line[colon + 1..] ==> c in line;
  }

  lemma OneMorePlain(f: Field, fields: seq<Field>)
    requires Plain(f) && AllPlain(fields)
    ensures AllPlain([f] + fields)
  {
  }

  // Whatever is parsed, the fields are plain.
  lemma {:induction false} ParsedFieldsArePlain(range: string)
    ensures AllPlain(ParseHeaders(range).fields)
    decreases |range|
  {
    hide LStrip, RStrip, IndexOf, Plain, AllPlain, FieldOf;
    assert AllPlain([]) by { NoFieldsArePlain(); }
    var pos := IndexOf(range, '\n');
    if range != [] && pos != 0 {
      var line := LStrip(range[..pos]);
      var after := AfterLine(range, pos);
      var colon := IndexOf(line, ':');
      if line != [] && colon < |line| {
        FieldOfIsPlain(range[..pos], line, colon);
        ParsedFieldsArePlain(after);
        OneMorePlain(FieldOf(line, colon), ParseHeaders(after).fields);
      }
    }
  }

  lemma NoFieldsArePlain()
    ensures AllPlain([])
  {
  }

  lemma NameIsPlain(s: string)
    requires s != [] ==> !IsBlank(s[0])
    ensures Trimmed(RStrip(s)) && forall c :: c in RStrip(s) ==> c in s
  {
    TrimmedIsTrimmed(s);
    StripsTrim(s);
  }

  // Printed fields and the body behind them come back exactly when every field is plain.
  lemma HeadersReadBackExactly(fields: seq<Field>, body: string)
    ensures ParseHeaders(Lines(fields) + "\n" + body) == Parsed(true, fields, body) <==> AllPlain(fields)
  {
    hide ParseHeaders, Plain;
    ParsedFieldsArePlain(Lines(fields) + "\n" + body);
    if AllPlain(fields) {
      LinesReadBack(fields, body);
    }
  }

  // ----- text in front of the first line

  predicate AllBlank(t: string) {
    forall c <- t :: IsBlank(c)
  }

  // How many characters are neither blanks nor newlines, and how many are newlines.
  function Ink(s: string): nat {
    if s == [] then 0 else Ink(s[..|s| - 1]) + (if IsBlank(s[|s| - 1]) || s[|s| - 1] == '\n' then 0 else 1)
  }

  function Newlines(s: string): nat {
    Count(s, '\n')
  }

  lemma {:induction false} InkConcat(s: string, t: string)
    ensures Ink(s + t) == Ink(s) + Ink(t)
    decreases |t|
  {
    if t == [] {
      assert s + t == s;
    } else {
      assert (s + t)[..|s + t| - 1] == s + t[..|t| - 1];
      InkConcat(s, t[..|t| - 1]);
    }
  }

  lemma {:induction false} NoInkNoNewline(t: string)
    requires Ink(t) == 0 && Newlines(t) == 0
    ensures AllBlank(t)
  {
    if t != [] {
      NoInkNoNewline(t[..|t| - 1]);
      assert t == t[..|t| - 1] + [t[|t| - 1]];
    }
  }

  lemma {:induction false} StripsKeepInk(s: string)
    ensures Ink(LStrip(s)) == Ink(s) && Ink(RStrip(s)) == Ink(s)
    decreases |s|
  {
    if s != [] {
      StripsKeepInk(s[1..]);
      StripsKeepInk(s[..|s| - 1]);
      assert s == [s[0]] + s[1..];
      InkConcat([s[0]], s[1..]);
      assert [s[0]][..0] == [] && Ink([s[0]]) == if IsBlank(s[0]) || s[0] == '\n' then 0 else 1;
    }
  }

  function FieldsInk(fields: seq<Field>): nat {
    if fields == [] then 0 else Ink(fields[0].name) + 1 + Ink(fields[0].value) + FieldsInk(fields[1..])
  }

  lemma InkOne(c: char)
    ensures Ink([c]) == if IsBlank(c) || c == '\n' then 0 else 1
  {
    assert [c][..0] == [];
  }

  // A line's ink is its field's and the colon's.
  lemma FieldInk(text: string, line: string, colon: nat)
    requires line == LStrip(text) && colon == IndexOf(line, ':') < |line|
    ensures var f := FieldOf(line, colon); Ink(text) == Ink(f.name) + 1 + Ink(f.value)
  {
    hide LStrip, RStrip, IndexOf;
    StripsKeepInk(text);
    StripsKeepInk(line[..colon]);
    StripsKeepInk(line[colon + 1..]);
    StripsKeepInk(LStrip(line[colon + 1..]));
    assert line[colon] == ':';
    assert line == line[..colon] + [':'] + line[colon + 1..];
    InkConcat(line[..colon], [':']);
    InkConcat(line[..colon] + [':'], line[colon + 1..]);
    InkOne(':');
  }

  // The first line, its terminator if there is one, and what follows.
  lemma LineInk(range: string)
    requires range != []
    ensures var pos := IndexOf(range, '\n');
            var after := AfterLine(range, pos);
            && Ink(range) == Ink(range[..pos]) + Ink(after)
            && Newlines(range) <= 1 + Newlines(after)
  {
    hide IndexOf, Ink, Count;
    var pos := IndexOf(range, '\n');
    var after := AfterLine(range, pos);
    CountAbsent(range[..pos], '\n');
    NothingInked();
    InkOne('\n');
    OneNewline();
    if pos < |range| {
      assert range == range[..pos] + ['\n'] + after;
      InkConcat(range[..pos], ['\n']);
      InkConcat(range[..pos] + ['\n'], after);
      CountAppend(range[..pos], ['\n'], '\n');
      CountAppend(range[..pos] + ['\n'], after, '\n');
    } else {
      assert range[..pos] == range;
    }
  }

  lemma NothingInked()
    ensures Ink([]) == 0 && Newlines([]) == 0
  {
  }

  lemma OneNewline()
    ensures Newlines(['\n']) == 1
  {
    assert ['\n'][..0] == [];
  }

  // Parsing drops nothing but blanks, and one newline a line.
  lemma {:induction false} ParseKeepsInk(range: string)
    requires ParseHeaders(range).ok
    ensures var p := ParseHeaders(range);
            && Ink(range) == FieldsInk(p.fields) + Ink(p.rest)
            && Newlines(range) <= |p.fields| + 1 + Newlines(p.rest)
    decreases |range|
  {
    hide LStrip, RStrip, IndexOf, FieldOf, Ink, Count;
    if range != [] {
      var pos := IndexOf(range, '\n');
      var line := LStrip(range[..pos]);
      var after := AfterLine(range, pos);
      LineInk(range);
      StripsKeepInk(range[..pos]);
      NothingInked();
      if pos == 0 {
        assert range[..pos] == [];
      } else if line != [] {
        FieldInk(range[..pos], line, IndexOf(line, ':'));
        ParseKeepsInk(after);
        FieldsInkStep(FieldOf(line, IndexOf(line, ':')), ParseHeaders(after).fields);
      }
    }
  }

  lemma FieldsInkStep(f: Field, fields: seq<Field>)
    ensures FieldsInk([f] + fields) == Ink(f.name) + 1 + Ink(f.value) + FieldsInk(fields)
  {
    hide Ink;
    assert ([f] + fields)[1..] == fields;
  }

  lemma {:induction false} LinesInk(fields: seq<Field>)
    requires AllPlain(fields)
    ensures Ink(Lines(fields)) == FieldsInk(fields) && Newlines(Lines(fields)) == |fields|
  {
    hide Ink, Count, Line, Trimmed;
    NothingInked();
    if fields != [] {
      assert Plain(fields[0]);
      LineOfInk(fields[0]);
      LinesInk(fields[1..]);
      InkConcat(Line(fields[0]), Lines(fields[1..]));
      CountAppend(Line(fields[0]), Lines(fields[1..]), '\n');
    }
  }

  lemma LineOfInk(f: Field)
    requires Plain(f)
    ensures Ink(Line(f)) == Ink(f.name) + 1 + Ink(f.value) && Newlines(Line(f)) == 1
  {
    hide Ink, Count, Trimmed;
    var text := f.name + ": " + f.value;
    assert Line(f) == text + ['\n'];
    CountAbsent(text, '\n');
    CountAppend(text, ['\n'], '\n');
    OneNewline();
    InkConcat(text, ['\n']);
    InkConcat(f.name + ": ", f.value);
    InkConcat(f.name, ": ");
    InkConcat([':'], [' ']);
    assert [':'] + [' '] == ": ";
    InkOne(':');
    InkOne(' ');
    InkOne('\n');
  }

  lemma {:induction false} BlanksAreStripped(t: string, s: string)
    requires AllBlank(t)
    ensures LStrip(t + s) == LStrip(s)
  {
    if t == [] {
      assert t + s == s;
    } else {
      assert (t + s)[1..] == t[1..] + s;
      BlanksAreStripped(t[1..], s);
    }
  }

  // Blanks in front of the first line are not seen.
  lemma BlanksInFront(t: string, range: string)
    requires AllBlank(t) && range != [] && range[0] != '\n'
    ensures ParseHeaders(t + range) == ParseHeaders(range)
  {
    hide LStrip, IndexOf, FieldOf, ParseHeaders;
    BlankIndex(t, range);
    ParseNothing([]);
    ParseStep(range, []);
    ParseStep(t + range, []);
    var pos := IndexOf(range, '\n');
    assert pos > 0 by { assert pos < |range| ==> range[pos] == '\n'; }
    assert (t + range)[..|t| + pos] == t + range[..pos];
    BlanksAreStripped(t, range[..pos]);
    assert AfterLine(t + range, |t| + pos) == AfterLine(range, pos) by {
      if pos < |range| {
        assert (t + range)[|t| + pos + 1..] == range[pos + 1..];
      }
    }
  }

  lemma {:induction false} BlankIndex(t: string, range: string)
    requires AllBlank(t)
    ensures IndexOf(t + range, '\n') == |t| + IndexOf(range, '\n')
  {
    if t == [] {
      assert t + range == range;
    } else {
      assert (t + range)[1..] == t[1..] + range;
      assert t[0] in t && (t + range)[0] == t[0];
      BlankIndex(t[1..], range);
    }
  }

  lemma BlanksAndBody(t: string, body: string)
    requires AllBlank(t)
    ensures ParseHeaders(t + "\n" + body) == Parsed(true, [], body)
  {
    hide IndexOf;
    if t == [] {
      assert t + "\n" + body == "\n" + body;
      BlankLineEnds(body);
    } else {
      var range := t + "\n" + body;
      assert range == t + ("\n" + body);
      BlankIndex(t, "\n" + body);
      assert IndexOf("\n" + body, '\n') == 0 by { IndexOfAt([], '\n', body); assert [] + ['\n'] + body == "\n" + body; }
      assert range[..|t|] == t && range[|t| + 1..] == body;
      BlanksAreStripped(t, []);
      assert t + [] == t;
    }
  }

  // Text printed in front of the fields spoils them exactly when it is more than blanks: the fields and the body come
  // back if and only if every field is plain and the text is blank.
  lemma {:induction false} TextInFrontExactly(t: string, fields: seq<Field>, body: string)
    ensures ParseHeaders(t + Lines(fields) + "\n" + body) == Parsed(true, fields, body)
            <==> AllPlain(fields) && AllBlank(t)
  {
    hide ParseHeaders, Plain, Ink, Count, AllBlank, Lines, FieldsInk;
    var text := t + Lines(fields) + "\n" + body;
    ParsedFieldsArePlain(text);
    if AllPlain(fields) && AllBlank(t) {
      BlankTextInFront(t, fields, body);
    }
    if ParseHeaders(text) == Parsed(true, fields, body) {
      ParseKeepsInk(text);
      LinesInk(fields);
      InkConcat(t + Lines(fields) + "\n", body);
      InkConcat(t + Lines(fields), "\n");
      InkConcat(t, Lines(fields));
      CountAppend(t + Lines(fields) + "\n", body, '\n');
      CountAppend(t + Lines(fields), "\n", '\n');
      CountAppend(t, Lines(fields), '\n');
      InkOne('\n');
      OneNewline();
      NoInkNoNewline(t);
    }
  }

  lemma BlankTextInFront(t: string, fields: seq<Field>, body: string)
    requires AllPlain(fields) && AllBlank(t)
    ensures ParseHeaders(t + Lines(fields) + "\n" + body) == Parsed(true, fields, body)
  {
    hide ParseHeaders, AllBlank, Trimmed;
    if fields == [] {
      BlanksAndBody(t, body);
      assert t + [] + "\n" + body == t + "\n" + body;
    } else {
      var range := Lines(fields) + "\n" + body;
      LinesReadBack(fields, body);
      assert Plain(fields[0]);
      assert range[0] == Line(fields[0])[0] && Line(fields[0])[0] != '\n' by {
        assert fields[0].name != [] ==> fields[0].name[0] in fields[0].name;
      }
      BlanksInFront(t, range);
      assert t + Lines(fields) + "\n" + body == t + range;
    }
  }

  // ----- any line

  lemma {:induction false} BlanksBehindAreStripped(s: string, t: string)
    requires AllBlank(t)
    ensures RStrip(s + t) == RStrip(s)
    decreases |t|
  {
    if t == [] {
      assert s + t == s;
    } else {
      var front := t[..|t| - 1];
      assert (s + t)[..|s + t| - 1] == s + front && t[|t| - 1] in t;
      BlanksBehindAreStripped(s, front);
    }
  }

  lemma BlankIsNothing(t: string)
    requires AllBlank(t)
    ensures LStrip(t) == []
  {
    BlanksAreStripped(t, []);
    assert t + [] == t;
  }

  // Blanks around a trimmed text do not show.
  lemma StripsToText(a: string, s: string, b: string)
    requires AllBlank(a) && AllBlank(b) && Trimmed(s)
    ensures RStrip(LStrip(a + s + b)) == s && RStrip(s + b) == s
  {
    hide LStrip, RStrip;
    assert a + s + b == a + (s + b);
    BlanksAreStripped(a, s + b);
    BlanksBehindAreStripped(s, b);
    TrimmedStaysPut(s);
    if s == [] {
      assert s + b == b;
      BlankIsNothing(b);
      TrimmedStaysPut([]);
    } else {
      NotBlankStays(s + b);
    }
  }

  // A line as people write it: blanks anywhere around the name and the value.
  function Loose(a: string, name: string, b: string, c: string, value: string, d: string): string {
    a + (name + b + [':'] + (c + value + d))
  }

  predicate LooseOk(a: string, f: Field, b: string, c: string, d: string) {
    Plain(f) && AllBlank(a) && AllBlank(b) && AllBlank(c) && AllBlank(d)
  }

  lemma LooseField(a: string, f: Field, b: string, c: string, d: string)
    requires LooseOk(a, f, b, c, d)
    ensures var line := LStrip(Loose(a, f.name, b, c, f.value, d));
            IndexOf(line, ':') < |line| && FieldOf(line, IndexOf(line, ':')) == f
  {
    hide LStrip, RStrip, IndexOf, Trimmed;
    var behind := c + f.value + d;
    assert forall x <- b :: x != ':';
    BlanksAreStripped(a, f.name + b + [':'] + behind);
    StripsToText(c, f.value, d);
    assert f.name != [] ==> !IsBlank(f.name[0]) by { TrimmedBegins(f.name); }
    if f.name == [] {
      assert f.name + b + [':'] + behind == b + ([':'] + behind);
      BlanksAreStripped(b, [':'] + behind);
      NotBlankStays([':'] + behind);
      assert [] + [':'] + behind == [':'] + behind;
      IndexOfAt([], ':', behind);
      var line := [':'] + behind;
      assert line[..0] == [] && line[1..] == behind;
      TrimmedStaysPut([]);
    } else {
      var front := f.name + b;
      NotBlankStays(front + [':'] + behind);
      IndexOfAt(front, ':', behind);
      var line := front + [':'] + behind;
      assert line[..|front|] == front && line[|front| + 1..] == behind;
      BlanksBehindAreStripped(f.name, b);
      TrimmedStaysPut(f.name);
    }
  }

  lemma TrimmedBegins(s: string)
    requires Trimmed(s)
    ensures s != [] ==> !IsBlank(s[0])
  {
  }

  lemma LooseHasNoNewline(a: string, f: Field, b: string, c: string, d: string)
    requires LooseOk(a, f, b, c, d)
    ensures '\n' !in Loose(a, f.name, b, c, f.value, d)
  {
    assert forall x <- a + b + c + d :: IsBlank(x) by {
      forall x | x in a + b + c + d
        ensures IsBlank(x)
      {
        assert x in a || x in b || x in c || x in d;
      }
    }
    forall x | x in Loose(a, f.name, b, c, f.value, d)
      ensures x != '\n'
    {
      assert x in a + b + c + d || x in f.name || x in f.value || x == ':';
    }
  }

  // The first line, with its end or without one where the text ends, as the parser takes it.
  lemma FirstLineIs(text: string, tail: string)
    requires '\n' !in text && text != []
    ensures var line := LStrip(text);
            var colon := IndexOf(line, ':');
            var rest := ParseHeaders(tail);
            && ParseHeaders(text + "\n" + tail) ==
               (if line == [] then Parsed(true, [], tail)
                else if colon == |line| then Parsed(false, [], tail)
                else Parsed(rest.ok, [FieldOf(line, colon)] + rest.fields, rest.rest))
            && ParseHeaders(text) ==
               (if line == [] then Parsed(true, [], [])
                else if colon == |line| then Parsed(false, [], [])
                else Parsed(true, [FieldOf(line, colon)], []))
  {
    hide LStrip, RStrip, IndexOf, FieldOf;
    var range := text + ['\n'] + tail;
    IndexOfAt(text, '\n', tail);
    assert text + "\n" + tail == range;
    assert range[..|text|] == text && range[|text| + 1..] == tail;
    assert text[..|text|] == text;
    var colon := IndexOf(LStrip(text), ':');
    assert ParseHeaders([]) == Parsed(true, [], []);
    if colon < |LStrip(text)| {
      assert [FieldOf(LStrip(text), colon)] + [] == [FieldOf(LStrip(text), colon)];
    }
  }

  // However its blanks are set, a line with a colon gives its name and value; the last one needs no end.
  lemma {:induction false} AnyLineIsRead(a: string, f: Field, b: string, c: string, d: string, tail: string)
    requires LooseOk(a, f, b, c, d)
    ensures var text, rest := Loose(a, f.name, b, c, f.value, d), ParseHeaders(tail);
            && ParseHeaders(text + "\n" + tail) == Parsed(rest.ok, [f] + rest.fields, rest.rest)
            && ParseHeaders(text) == Parsed(true, [f], [])
  {
    var text := Loose(a, f.name, b, c, f.value, d);
    LooseHasNoNewline(a, f, b, c, d);
    LooseField(a, f, b, c, d);
    hide ParseHeaders, LooseOk;
    FirstLineIs(text, tail);
  }

  // A line without a colon that is more than blanks is an error, and a blank line ends the headers.
  lemma {:induction false} OtherLinesEnd(text: string, tail: string)
    requires '\n' !in text && ':' !in text && text != []
    ensures ParseHeaders(text + "\n" + tail) == Parsed(AllBlank(text), [], tail)
    ensures ParseHeaders(text) == Parsed(AllBlank(text), [], [])
  {
    hide ParseHeaders, LStrip;
    FirstLineIs(text, tail);
    StripsTrim(text);
    StrippedExactly(text);
    IndexOfAt(LStrip(text), ':', []);
  }

  lemma {:induction false} StrippedExactly(s: string)
    ensures LStrip(s) == [] <==> AllBlank(s)
  {
    if s != [] {
      assert s == [s[0]] + s[1..];
      StrippedExactly(s[1..]);
      assert s[0] in s;
    }
  }
}
