// Comma-separated header values, and the parser that reads them.
module Lists {
  import opened Sequences
  import opened Headers

  const COMMA: char := ','

  function LowerChar(c: char): char {
    if 'A' <= c <= 'Z' then (c as int + 32) as char else c
  }

  // std::tolower, character by character, where asked for.
  function Cased(s: string, toLower: bool): (r: string)
    ensures |r| == |s|
  {
    if toLower then seq(|s|, i requires 0 <= i < |s| => LowerChar(s[i])) else s
  }

  // Small letters for capitals, position by position in the alphabet; everything else stays.
  lemma CasedExactly(s: string, i: nat)
    requires i < |s|
    ensures Cased(s, false) == s
    ensures var c, r := s[i], Cased(s, true)[i];
            && !('A' <= r <= 'Z')
            && ('A' <= c <= 'Z' ==> 'a' <= r <= 'z' && r as int - 'a' as int == c as int - 'A' as int)
            && (!('A' <= c <= 'Z') ==> r == c)
  {
  }

  function Trim(s: string): string {
    RStrip(LStrip(s))
  }

  // ----- as the loop reads it

  function ListItems(range: string, toLower: bool): seq<string>
    decreases |range|
  {
    var off := IndexOf(range, COMMA);
    if off == |range| then if range == [] then [] else [Cased(range, toLower)]
    else
      var one := RStrip(range[..off]);
      (if one == [] then [] else [Cased(one, toLower)]) + ListItems(LStrip(range[off + 1..]), toLower)
  }

  // ----- what it means: the trimmed pieces between commas, empty ones left out

  function Cleaned(pieces: seq<string>, toLower: bool): seq<string> {
    if pieces == [] then []
    else (if Trim(pieces[0]) == [] then [] else [Cased(Trim(pieces[0]), toLower)]) + Cleaned(pieces[1..], toLower)
  }

  method ParseList(value: string, toLower: bool) returns (list: seq<string>)
    ensures list == Cleaned(SplitOn(value, COMMA), toLower)
  {
    hide ListItems, Cleaned, LStrip, RStrip, IndexOf, SplitOn, Pushed;
    ghost var whole := ListItems(Trim(value), toLower);
    ParsedIsCleaned(value, toLower);
    list := [];
    var range := StripLeft(value);
    range := StripRight(range);
    assert [] + whole == whole;
    while true
      invariant list + ListItems(range, toLower) == whole
      decreases |range|
    {
      ListStep(range, toLower, list);
      var off := IndexOf(range, COMMA);
      if off == |range| {
        return Pushed(list, range, toLower);
      }
      var one := StripRight(range[..off]);
      list := Pushed(list, one, toLower);
      range := StripLeft(range[off + 1..]);
    }
  }

  // push_back, unless there is nothing to push
  function Pushed(list: seq<string>, item: string, toLower: bool): seq<string> {
    if item == [] then list else list + [Cased(item, toLower)]
  }

  lemma ListStep(range: string, toLower: bool, list: seq<string>)
    ensures var off := IndexOf(range, COMMA);
            list + ListItems(range, toLower) ==
            if off == |range| then Pushed(list, range, toLower)
            else Pushed(list, RStrip(range[..off]), toLower) + ListItems(LStrip(range[off + 1..]), toLower)
  {
    hide LStrip, RStrip, IndexOf;
  }

  // ----- the loop computes its meaning

  lemma TrimPrefixBlank(c: char, s: string)
    requires IsBlank(c)
    ensures Trim([c] + s) == Trim(s)
  {
    assert ([c] + s)[1..] == s;
  }

  lemma {:induction false} TrimSuffixBlank(s: string, c: char)
    requires IsBlank(c)
    ensures Trim(s + [c]) == Trim(s)
  {
    if s == [] {
      assert [c][1..] == [] && [] + [c] == [c];
    } else if IsBlank(s[0]) {
      assert (s + [c])[1..] == s[1..] + [c];
      TrimSuffixBlank(s[1..], c);
    } else {
      assert (s + [c])[..|s|] == s;
    }
  }

  // Stripping blanks in front touches only the first piece.
  lemma {:induction false} StripLeftKeepsPieces(s: string, toLower: bool)
    ensures Cleaned(SplitOn(LStrip(s), COMMA), toLower) == Cleaned(SplitOn(s, COMMA), toLower)
  {
    if s != [] && IsBlank(s[0]) {
      var first, rest := SplitOn(s, COMMA)[0], SplitOn(s[1..], COMMA);
      StripLeftKeepsPieces(s[1..], toLower);
      FirstPieceGrows(s);
      TrimPrefixBlank(s[0], rest[0]);
    }
  }

  lemma FirstPieceGrows(s: string)
    requires s != [] && s[0] != COMMA
    ensures var ps, rest := SplitOn(s, COMMA), SplitOn(s[1..], COMMA);
            ps[0] == [s[0]] + rest[0] && ps[1..] == rest[1..]
  {
    var n := IndexOf(s[1..], COMMA);
    assert IndexOf(s, COMMA) == 1 + n;
    assert s == [s[0]] + s[1..];
    if n < |s| - 1 {
      assert s[..1 + n] == [s[0]] + s[1..][..n];
      assert s[1 + n + 1..] == s[1..][n + 1..];
    }
  }

  lemma {:induction false} CleanedConcat(a: seq<string>, b: seq<string>, toLower: bool)
    ensures Cleaned(a + b, toLower) == Cleaned(a, toLower) + Cleaned(b, toLower)
  {
    if a == [] {
      assert a + b == b;
    } else {
      assert (a + b)[1..] == a[1..] + b;
      CleanedConcat(a[1..], b, toLower);
    }
  }

  lemma {:induction false} LastPieceGrows(s: string, c: char)
    requires c != COMMA
    ensures var ps, qs := SplitOn(s, COMMA), SplitOn(s + [c], COMMA);
            qs == ps[..|ps| - 1] + [ps[|ps| - 1] + [c]]
    decreases |s|
  {
    var n := IndexOf(s, COMMA);
    if n == |s| {
      assert COMMA !in s by { assert s[..n] == s; }
      IndexOfAt(s + [c], COMMA, []);
    } else {
      assert s == s[..n] + [COMMA] + s[n + 1..] && s + [c] == s[..n] + [COMMA] + (s[n + 1..] + [c]);
      IndexOfAt(s[..n], COMMA, s[n + 1..] + [c]);
      assert (s + [c])[n + 1..] == s[n + 1..] + [c] && (s + [c])[..n] == s[..n];
      LastPieceGrows(s[n + 1..], c);
    }
  }

  lemma {:induction false} StripRightKeepsPieces(s: string, toLower: bool)
    ensures Cleaned(SplitOn(RStrip(s), COMMA), toLower) == Cleaned(SplitOn(s, COMMA), toLower)
    decreases |s|
  {
    hide SplitOn;
    if s != [] && IsBlank(s[|s| - 1]) {
      var t, c := s[..|s| - 1], s[|s| - 1];
      var ps := SplitOn(t, COMMA);
      var front, last := ps[..|ps| - 1], ps[|ps| - 1];
      assert s == t + [c] && ps == front + [last];
      StripRightKeepsPieces(t, toLower);
      LastPieceGrows(t, c);
      TrimSuffixBlank(last, c);
      CleanedConcat(front, [last], toLower);
      CleanedConcat(front, [last + [c]], toLower);
      assert [last][1..] == [] && [last + [c]][1..] == [];
    }
  }

  lemma {:induction false} LoopReadsPieces(range: string, toLower: bool)
    requires Trimmed(range)
    ensures ListItems(range, toLower) == Cleaned(SplitOn(range, COMMA), toLower)
    decreases |range|
  {
    hide LStrip, RStrip;
    var off := IndexOf(range, COMMA);
    if off == |range| {
      TrimmedStaysPut(range);
      assert [range][1..] == [];
    } else {
      var rest := range[off + 1..];
      PieceInFront(range, off);
      RestStaysTrimmed(rest);
      LoopReadsPieces(LStrip(rest), toLower);
      StripLeftKeepsPieces(rest, toLower);
      assert SplitOn(range, COMMA)[1..] == SplitOn(rest, COMMA);
    }
  }

  lemma PieceInFront(range: string, off: nat)
    requires Trimmed(range) && off <= |range|
    ensures Trim(range[..off]) == RStrip(range[..off])
  {
  }

  lemma RestStaysTrimmed(rest: string)
    requires rest != [] ==> !IsBlank(rest[|rest| - 1])
    ensures Trimmed(LStrip(rest))
  {
    LStripIsSuffix(rest);
    StripsTrim(rest);
  }

  lemma LStripIsSuffix(s: string)
    ensures s[|s| - |LStrip(s)|..] == LStrip(s)
  {
  }

  lemma ParsedIsCleaned(value: string, toLower: bool)
    ensures ListItems(Trim(value), toLower) == Cleaned(SplitOn(value, COMMA), toLower)
  {
    hide Cleaned, LStrip, RStrip, ListItems;
    TrimmedIsTrimmed(value);
    LoopReadsPieces(Trim(value), toLower);
    StripRightKeepsPieces(LStrip(value), toLower);
    StripLeftKeepsPieces(value, toLower);
  }

  // ----- printed lists

  predicate PlainItem(x: string) {
    x != [] && Trimmed(x) && COMMA !in x
  }

  lemma {:induction false} PiecesHaveNoComma(s: string, i: nat)
    requires i < |SplitOn(s, COMMA)|
    ensures COMMA !in SplitOn(s, COMMA)[i]
    decreases |s|
  {
    var n := IndexOf(s, COMMA);
    if n == |s| {
      assert s[..n] == s;
    } else if i > 0 {
      PiecesHaveNoComma(s[n + 1..], i - 1);
    }
  }

  lemma {:induction false} CleanedArePlain(pieces: seq<string>)
    requires forall i :: 0 <= i < |pieces| ==> COMMA !in pieces[i]
    ensures forall x :: x in Cleaned(pieces, false) ==> PlainItem(x)
  {
    hide LStrip, RStrip;
    if pieces != [] {
      TrimmedIsTrimmed(pieces[0]);
      CleanedArePlain(pieces[1..]);
    }
  }

  lemma FirstItemIsRead(x: string, rest: string)
    requires PlainItem(x)
    ensures Cleaned(SplitOn(x, COMMA), false) == [x]
    ensures Cleaned(SplitOn(x + [COMMA] + rest, COMMA), false) == [x] + Cleaned(SplitOn(rest, COMMA), false)
  {
    hide LStrip, RStrip;
    var text := x + [COMMA] + rest;
    TrimmedStaysPut(x);
    IndexOfAt(x, COMMA, rest);
    assert [x][1..] == [];
    assert text[..|x|] == x && text[|x| + 1..] == rest;
    assert SplitOn(text, COMMA)[1..] == SplitOn(rest, COMMA);
  }

  lemma {:induction false} JoinedPiecesAreItems(xs: seq<string>)
    requires xs != [] && forall i :: 0 <= i < |xs| ==> PlainItem(xs[i])
    ensures Cleaned(SplitOn(JoinWith(xs, ", "), COMMA), false) == xs
    decreases |xs|
  {
    hide Cleaned, SplitOn, PlainItem;
    if |xs| == 1 {
      FirstItemIsRead(xs[0], []);
    } else {
      var more := JoinWith(xs[1..], ", ");
      assert JoinWith(xs, ", ") == xs[0] + [COMMA] + (" " + more);
      FirstItemIsRead(xs[0], " " + more);
      JoinedPiecesAreItems(xs[1..]);
      SpaceInFrontIsStripped(more);
      assert [xs[0]] + xs[1..] == xs;
    }
  }

  lemma SpaceInFrontIsStripped(s: string)
    ensures Cleaned(SplitOn(" " + s, COMMA), false) == Cleaned(SplitOn(s, COMMA), false)
  {
    hide Cleaned, SplitOn;
    assert LStrip(" " + s) == LStrip(s) by { assert (" " + s)[1..] == s; }
    StripLeftKeepsPieces(" " + s, false);
    StripLeftKeepsPieces(s, false);
  }

  // A printed list is read back exactly when its items are trimmed, not empty and free of commas.
  lemma ListReadsBackExactly(xs: seq<string>)
    ensures Cleaned(SplitOn(JoinWith(xs, ", "), COMMA), false) == xs <==> forall i :: 0 <= i < |xs| ==> PlainItem(xs[i])
  {
    hide PlainItem;
    var text := JoinWith(xs, ", ");
    if xs == [] {
      assert SplitOn(text, COMMA) == [[]];
      assert [text][1..] == [];
      assert Cleaned([text], false) == [];
    } else if forall i :: 0 <= i < |xs| ==> PlainItem(xs[i]) {
      JoinedPiecesAreItems(xs);
    }
    var pieces := SplitOn(text, COMMA);
    forall i | 0 <= i < |pieces|
      ensures COMMA !in pieces[i]
    {
      PiecesHaveNoComma(text, i);
    }
    CleanedArePlain(pieces);
    assert forall i :: 0 <= i < |xs| ==> xs[i] in xs;
  }

  // ----- any list

  function ItemOf(x: string): seq<string> {
    if x == [] then [] else [x]
  }

  // However its blanks are set, the text up to a comma or to the end gives an item, or none if it is blank.
  lemma {:induction false} AnyItemIsRead(a: string, x: string, b: string, rest: string)
    requires AllBlank(a) && AllBlank(b) && Trimmed(x) && COMMA !in x
    ensures Cleaned(SplitOn(a + x + b, COMMA), false) == ItemOf(x)
    ensures Cleaned(SplitOn(a + x + b + [COMMA] + rest, COMMA), false) ==
            ItemOf(x) + Cleaned(SplitOn(rest, COMMA), false)
  {
    var piece := a + x + b;
    BlanksHaveNoComma(a);
    BlanksHaveNoComma(b);
    StripsToText(a, x, b);
    hide LStrip, RStrip;
    var text := piece + [COMMA] + rest;
    IndexOfAt(piece, COMMA, rest);
    assert [piece][1..] == [];
    assert text[..|piece|] == piece && text[|piece| + 1..] == rest;
    assert SplitOn(text, COMMA)[1..] == SplitOn(rest, COMMA);
  }

  lemma BlanksHaveNoComma(t: string)
    requires AllBlank(t)
    ensures COMMA !in t
  {
    assert !IsBlank(COMMA);
  }

  // Lower case is asked for item by item, and changes nothing else.
  lemma {:induction false} CasedItems(pieces: seq<string>)
    ensures var items, lower := Cleaned(pieces, false), Cleaned(pieces, true);
            |lower| == |items| && forall i :: 0 <= i < |items| ==> lower[i] == Cased(items[i], true)
    decreases |pieces|
  {
    hide LStrip, RStrip;
    if pieces != [] {
      CasedItems(pieces[1..]);
    }
  }
}
