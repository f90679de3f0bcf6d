// Normalising the paths of a patch: relative, without empty, "." or ".." components.
module SafePaths {
  import opened Common
  import opened ByteStrings
  import opened Sequences
  import opened Utf8

  const NUL: Byte := 0
  const DOT: Byte := 0x2E
  const SLASH: Byte := 0x2F
  const BACKSLASH: Byte := 0x5C

  function Forward(b: Byte): Byte {
    if b == BACKSLASH then SLASH else b
  }

  function ForwardSlashes(p: Bytes): (q: Bytes)
    ensures |q| == |p|
  {
    seq(|p|, i requires 0 <= i < |p| => Forward(p[i]))
  }

  function StripDots(p: Bytes): Bytes {
    if |p| >= 2 && p[0] == DOT && p[1] == SLASH then StripDots(p[2..]) else p
  }

  function FindSlash(p: Bytes): (n: nat)
    ensures n <= |p| && SLASH !in p[..n] && (n < |p| ==> p[n] == SLASH)
  {
    IndexOf(p, SLASH)
  }

  function Components(p: Bytes): (cs: seq<Bytes>)
    ensures |cs| > 0
  {
    SplitOn(p, SLASH)
  }

  function Kept(cs: seq<Bytes>): seq<Bytes> {
    if cs == [] then [] else (if cs[0] == [] || cs[0] == [DOT] then [] else [cs[0]]) + Kept(cs[1..])
  }

  function JoinPath(parts: seq<Bytes>): Bytes {
    JoinWith(parts, [SLASH])
  }

  // None where the original rejects the path.
  function SafePath(p: Bytes): Option<Bytes> {
    if NUL in p || ReadAll(p, 0).None? then None
    else
      var q := StripDots(ForwardSlashes(p));
      var parts := Kept(Components(q));
      if [DOT, DOT] in Components(q) || parts == [] || (|q| > 0 && q[0] == SLASH) then None else Some(JoinPath(parts))
  }

  method Normalize(p: Bytes) returns (r: Option<Bytes>)
    ensures r == SafePath(p)
  {
    hide ReadAll, EncodeAll;
    ValidExactly(p);
    var valid := IsValidUtf8(p);
    if NUL in p || !valid {
      return None;
    }
    var path := ForwardSlashes(p);
    while |path| >= 2 && path[0] == DOT && path[1] == SLASH
      invariant StripDots(path) == StripDots(ForwardSlashes(p))
      decreases |path|
    {
      path := path[2..];
    }
    assert path == StripDots(ForwardSlashes(p));
    var absolute := path != [] && path[0] == SLASH;
    var parts := SplitPath(path);
    if parts.None? || parts.value == [] || absolute {
      return None;
    }
    var joined := Join(parts.value, [SLASH]);
    return Some(joined);
  }

  // One turn of the splitting loop.
  lemma ComponentsStep(p: Bytes)
    ensures var n := FindSlash(p);
            var part := p[..n];
            var own := if part == [] || part == [DOT] then [] else [part];
            if n == |p| then
              Kept(Components(p)) == own && ([DOT, DOT] in Components(p) <==> part == [DOT, DOT])
            else
              && Kept(Components(p)) == own + Kept(Components(p[n + 1..]))
              && ([DOT, DOT] in Components(p) <==> part == [DOT, DOT] || [DOT, DOT] in Components(p[n + 1..]))
  {
    hide FindSlash;
    var n := FindSlash(p);
    var cs := Components(p);
    if n == |p| {
      assert p[..n] == p && cs == [p];
      assert Kept(cs[1..]) == [];
    } else {
      assert cs == [p[..n]] + cs[1..] && cs[1..] == Components(p[n + 1..]);
    }
  }

  method SplitPath(path: Bytes) returns (r: Option<seq<Bytes>>)
    ensures r == if [DOT, DOT] in Components(path) then None else Some(Kept(Components(path)))
  {
    hide Components, Kept;
    var parts: seq<Bytes> := [];
    var start := 0;
    ghost var all := Components(path);
    assert path[0..] == path;
    while true
      invariant start <= |path|
      invariant [DOT, DOT] in all <==> [DOT, DOT] in Components(path[start..])
      invariant Kept(all) == parts + Kept(Components(path[start..]))
      decreases |path| - start
    {
      var rest := path[start..];
      ghost var before := parts;
      var slash := FindSlash(rest);
      var part := rest[..slash];
      ComponentsStep(rest);
      if part != [] && part != [DOT] {
        if part == [DOT, DOT] {
          return None;
        }
        parts := parts + [part];
      }
      if slash == |rest| {
        assert before + [] == before;
        return Some(parts);
      }
      assert rest[slash + 1..] == path[start + slash + 1..];
      start := start + slash + 1;
    }
  }

  // ----- what a normal path is

  predicate GoodPart(part: Bytes) {
    part != [] && part != [DOT] && part != [DOT, DOT]
  }

  ghost predicate IsUtf8(s: Bytes) {
    exists cs :: EncodeAll(cs) == s
  }

  ghost predicate Tame(s: Bytes) {
    NUL !in s && BACKSLASH !in s && IsUtf8(s)
  }

  ghost predicate Normal(p: Bytes) {
    && Tame(p)
    && forall i :: 0 <= i < |Components(p)| ==> GoodPart(Components(p)[i])
  }

  lemma {:induction false} JoinAfterComponents(p: Bytes)
    ensures JoinPath(Components(p)) == p
  {
    var n := FindSlash(p);
    if n < |p| {
      hide FindSlash;
      JoinAfterComponents(p[n + 1..]);
      assert Components(p)[1..] == Components(p[n + 1..]);
      assert p[..n] + [SLASH] + p[n + 1..] == p;
    }
  }

  lemma FindSlashAt(a: Bytes, b: Bytes)
    requires SLASH !in a
    ensures FindSlash(a) == |a| && FindSlash(a + [SLASH] + b) == |a|
  {
    IndexOfAt(a, SLASH, b);
  }

  lemma {:induction false} ComponentsAfterJoin(parts: seq<Bytes>)
    requires parts != [] && forall i :: 0 <= i < |parts| ==> SLASH !in parts[i]
    ensures Components(JoinPath(parts)) == parts
  {
    if |parts| == 1 {
      FindSlashAt(parts[0], []);
    } else {
      var rest := JoinPath(parts[1..]);
      FindSlashAt(parts[0], rest);
      ComponentsAfterJoin(parts[1..]);
      var p := parts[0] + [SLASH] + rest;
      assert p[..|parts[0]|] == parts[0] && p[|parts[0]| + 1..] == rest;
    }
  }

  lemma {:induction false} GoodPartsAreKept(cs: seq<Bytes>)
    requires forall i :: 0 <= i < |cs| ==> GoodPart(cs[i])
    ensures Kept(cs) == cs && [DOT, DOT] !in cs
  {
    if cs != [] {
      GoodPartsAreKept(cs[1..]);
      assert cs == [cs[0]] + cs[1..];
    }
  }

  // Normal paths are left alone.
  lemma NormalIsFixed(p: Bytes)
    requires Normal(p)
    ensures SafePath(p) == Some(p)
  {
    ValidExactly(p);
    assert ForwardSlashes(p) == p;
    var cs := Components(p);
    GoodPartsAreKept(cs);
    JoinAfterComponents(p);
    assert cs[0] == p[..FindSlash(p)];
    assert GoodPart(cs[0]);
    NoLeadingDotSlash(p);
    assert StripDots(p) == p;
  }

  lemma NoLeadingDotSlash(p: Bytes)
    ensures p != [] && p[0] == SLASH ==> p[..FindSlash(p)] == []
    ensures |p| >= 2 && p[0] == DOT && p[1] == SLASH ==> p[..FindSlash(p)] == [DOT]
  {
  }

  // ----- results are normal

  lemma EncodedBytes(c: Scalar)
    ensures c < 0x80 ==> Encode(c) == [c]
    ensures c >= 0x80 ==> |Encode(c)| > 1 && forall i :: 0 <= i < |Encode(c)| ==> Encode(c)[i] >= 0x80
  {
  }

  // An ASCII byte never stands inside another character.
  lemma {:induction false} CutAtAscii(cs: seq<Scalar>, a: Bytes, x: Byte, b: Bytes)
    requires x < 0x80 && EncodeAll(cs) == a + [x] + b
    ensures IsUtf8(a) && IsUtf8(b)
    decreases |cs|
  {
    hide Encode;
    var s := a + [x] + b;
    assert cs != [] && s[|a|] == x;
    var e := Encode(cs[0]);
    EncodedBytes(cs[0]);
    assert s == e + EncodeAll(cs[1..]);
    if a == [] {
      assert s[0] == e[0];
      assert b == s[1..] == EncodeAll(cs[1..]);
      assert EncodeAll([]) == a;
    } else {
      assert |e| <= |a|;
      assert a[..|e|] == s[..|e|] == e;
      assert s[|e|..] == a[|e|..] + [x] + b;
      CutAtAscii(cs[1..], a[|e|..], x, b);
      assert a == e + a[|e|..];
      EncodingIsUtf8(cs[0]);
      ConcatIsUtf8(e, a[|e|..]);
    }
  }

  lemma EncodingIsUtf8(c: Scalar)
    ensures IsUtf8(Encode(c))
  {
    assert [c][1..] == [];
    assert EncodeAll([c]) == Encode(c) + [];
  }

  lemma {:induction false} EncodeAllConcat(cs: seq<Scalar>, ds: seq<Scalar>)
    ensures EncodeAll(cs + ds) == EncodeAll(cs) + EncodeAll(ds)
    decreases |cs|
  {
    if cs == [] {
      assert cs + ds == ds;
    } else {
      assert (cs + ds)[1..] == cs[1..] + ds;
      EncodeAllConcat(cs[1..], ds);
    }
  }

  lemma ConcatIsUtf8(a: Bytes, b: Bytes)
    requires IsUtf8(a) && IsUtf8(b)
    ensures IsUtf8(a + b)
  {
    var cs :| EncodeAll(cs) == a;
    var ds :| EncodeAll(ds) == b;
    EncodeAllConcat(cs, ds);
  }

  lemma {:induction false} ForwardKeepsUtf8(cs: seq<Scalar>)
    ensures IsUtf8(ForwardSlashes(EncodeAll(cs)))
    decreases |cs|
  {
    hide Encode;
    if cs == [] {
      assert ForwardSlashes([]) == EncodeAll([]);
    } else {
      var e, rest := Encode(cs[0]), EncodeAll(cs[1..]);
      ForwardKeepsUtf8(cs[1..]);
      EncodedBytes(cs[0]);
      EncodedBytes(SLASH);
      var c: Scalar := if cs[0] == BACKSLASH then SLASH else cs[0];
      assert ForwardSlashes(e) == Encode(c);
      EncodingIsUtf8(c);
      assert ForwardSlashes(e + rest) == ForwardSlashes(e) + ForwardSlashes(rest);
      ConcatIsUtf8(ForwardSlashes(e), ForwardSlashes(rest));
    }
  }

  lemma TameParts(a: Bytes, x: Byte, b: Bytes)
    requires Tame(a + [x] + b) && x < 0x80
    ensures Tame(a) && Tame(b)
  {
    var s := a + [x] + b;
    assert forall y :: y in a || y in b ==> y in s;
    var cs :| EncodeAll(cs) == s;
    CutAtAscii(cs, a, x, b);
  }

  lemma TameForward(p: Bytes)
    requires NUL !in p && IsUtf8(p)
    ensures Tame(ForwardSlashes(p))
  {
    var cs :| EncodeAll(cs) == p;
    ForwardKeepsUtf8(cs);
    forall y | y in ForwardSlashes(p)
      ensures y != NUL && y != BACKSLASH
    {
      var i :| 0 <= i < |p| && y == ForwardSlashes(p)[i];
      assert p[i] in p;
    }
  }

  lemma {:induction false} TameStrip(p: Bytes)
    requires Tame(p)
    ensures Tame(StripDots(p))
  {
    hide Tame;
    if |p| >= 2 && p[0] == DOT && p[1] == SLASH {
      assert p == [DOT] + [SLASH] + p[2..];
      TameParts([DOT], SLASH, p[2..]);
      TameStrip(p[2..]);
    }
  }

  ghost predicate TamePart(part: Bytes) {
    Tame(part) && SLASH !in part
  }

  lemma {:induction false} TameComponents(p: Bytes, i: nat)
    requires Tame(p) && i < |Components(p)|
    ensures TamePart(Components(p)[i])
  {
    hide Tame;
    var n := FindSlash(p);
    if n == |p| {
      assert p[..n] == p;
    } else {
      assert p == p[..n] + [SLASH] + p[n + 1..];
      TameParts(p[..n], SLASH, p[n + 1..]);
      if i > 0 {
        TameComponents(p[n + 1..], i - 1);
      }
    }
  }

  lemma {:induction false} KeptAreGood(cs: seq<Bytes>)
    requires [DOT, DOT] !in cs
    ensures forall part :: part in Kept(cs) ==> part in cs && GoodPart(part)
  {
    if cs != [] {
      assert cs == [cs[0]] + cs[1..];
      KeptAreGood(cs[1..]);
    }
  }

  lemma {:induction false} TameJoin(parts: seq<Bytes>)
    requires forall i :: 0 <= i < |parts| ==> TamePart(parts[i])
    ensures Tame(JoinPath(parts))
  {
    if parts == [] {
      assert EncodeAll([]) == JoinPath(parts);
    } else if |parts| > 1 {
      assert TamePart(parts[0]);
      TameJoin(parts[1..]);
      EncodedBytes(SLASH);
      EncodingIsUtf8(SLASH);
      ConcatIsUtf8(parts[0], [SLASH]);
      ConcatIsUtf8(parts[0] + [SLASH], JoinPath(parts[1..]));
    } else {
      assert TamePart(parts[0]);
    }
  }

  // What comes out is relative and normal.
  lemma ResultIsNormal(p: Bytes)
    requires SafePath(p).Some?
    ensures Normal(SafePath(p).value)
  {
    hide Tame, EncodeAll, ReadAll, Components, Kept, JoinPath, StripDots, ForwardSlashes;
    ValidExactly(p);
    var q := StripDots(ForwardSlashes(p));
    var parts := Kept(Components(q));
    TameForward(p);
    TameStrip(ForwardSlashes(p));
    KeptAreGood(Components(q));
    forall i | 0 <= i < |parts|
      ensures TamePart(parts[i]) && GoodPart(parts[i])
    {
      assert parts[i] in Components(q);
      var k :| 0 <= k < |Components(q)| && Components(q)[k] == parts[i];
      TameComponents(q, k);
    }
    TameJoin(parts);
    ComponentsAfterJoin(parts);
  }

  // The fixed points are exactly the normal paths, and one pass is enough to reach one.
  lemma SafePathIsANormalForm(p: Bytes)
    ensures SafePath(p) == Some(p) <==> Normal(p)
    ensures SafePath(p).Some? ==> SafePath(SafePath(p).value) == SafePath(p)
  {
    hide Normal, SafePath;
    if Normal(p) {
      NormalIsFixed(p);
    }
    if SafePath(p).Some? {
      ResultIsNormal(p);
      NormalIsFixed(SafePath(p).value);
    }
  }

  // A leading "./" is dropped before anything else is looked at, so what follows it must not start with a slash.
  lemma LeadingDotSlashIsDropped(p: Bytes)
    ensures SafePath([DOT, SLASH] + p) == SafePath(p)
    ensures SafePath([DOT, SLASH] + ([SLASH] + p)) == None
  {
    DotSlashIsDropped(p);
    DotSlashIsDropped([SLASH] + p);
    var q := ForwardSlashes([SLASH] + p);
    assert q[0] == SLASH && StripDots(q) == q;
  }

  lemma DotSlashIsDropped(p: Bytes)
    ensures SafePath([DOT, SLASH] + p) == SafePath(p)
  {
    hide ReadAll, EncodeAll, Components, Kept, JoinPath;
    var longer := [DOT, SLASH] + p;
    assert (NUL in longer) == (NUL in p);
    assert ForwardSlashes(longer) == [DOT, SLASH] + ForwardSlashes(p);
    assert ([DOT, SLASH] + ForwardSlashes(p))[2..] == ForwardSlashes(p);
    ValidExactly(longer);
    ValidExactly(p);
    DotSlashKeepsUtf8(p);
  }

  lemma DotSlashKeepsUtf8(p: Bytes)
    ensures IsUtf8([DOT, SLASH] + p) <==> IsUtf8(p)
  {
    EncodedBytes(DOT);
    EncodedBytes(SLASH);
    EncodingIsUtf8(DOT);
    EncodingIsUtf8(SLASH);
    if IsUtf8(p) {
      ConcatIsUtf8([SLASH], p);
      ConcatIsUtf8([DOT], [SLASH] + p);
      assert [DOT] + ([SLASH] + p) == [DOT, SLASH] + p;
    }
    if IsUtf8([DOT, SLASH] + p) {
      var cs :| EncodeAll(cs) == [DOT, SLASH] + p;
      assert [DOT, SLASH] + p == [DOT] + [SLASH] + p;
      CutAtAscii(cs, [DOT], SLASH, p);
    }
  }

  // ----- which paths are accepted, and what becomes of their components

  // The good components, in order.
  function GoodOnes(cs: seq<Bytes>): seq<Bytes> {
    if cs == [] then []
    else GoodOnes(cs[..|cs| - 1]) + (if GoodPart(cs[|cs| - 1]) then [cs[|cs| - 1]] else [])
  }

  // Past any "." at the front stands a good component; a path that begins with a slash has an empty one there.
  ghost predicate BeginsWell(cs: seq<Bytes>) {
    exists k :: 0 <= k < |cs| && GoodPart(cs[k]) && forall i :: 0 <= i < k ==> cs[i] == [DOT]
  }

  lemma {:induction false} KeptConcat(a: seq<Bytes>, b: seq<Bytes>)
    ensures Kept(a + b) == Kept(a) + Kept(b)
  {
    if a == [] {
      assert a + b == b;
    } else {
      assert (a + b)[0] == a[0] && (a + b)[1..] == a[1..] + b;
      KeptConcat(a[1..], b);
    }
  }

  lemma {:induction false} KeptIsGoodOnes(cs: seq<Bytes>)
    requires [DOT, DOT] !in cs
    ensures Kept(cs) == GoodOnes(cs)
    decreases |cs|
  {
    if cs != [] {
      var front, last := cs[..|cs| - 1], cs[|cs| - 1];
      assert cs == front + [last];
      KeptIsGoodOnes(front);
      KeptConcat(front, [last]);
      var none: seq<Bytes> := [last][1..];
      assert none == [];
    }
  }

  lemma DotSlashIsComponent(p: Bytes)
    requires |p| >= 2 && p[0] == DOT && p[1] == SLASH
    ensures Components(p) == [[DOT]] + Components(p[2..])
  {
    assert p == [DOT] + [SLASH] + p[2..];
    FindSlashAt([DOT], p[2..]);
    assert p[..1] == [DOT] && p[1 + 1..] == p[2..];
  }

  lemma {:induction false} StrippingKeepsParts(p: Bytes)
    ensures var cs, stripped := Components(p), Components(StripDots(p));
            && Kept(stripped) == Kept(cs) && ([DOT, DOT] in stripped <==> [DOT, DOT] in cs)
            && (BeginsWell(stripped) <==> BeginsWell(cs))
  {
    hide Components;
    if |p| >= 2 && p[0] == DOT && p[1] == SLASH {
      StrippingKeepsParts(p[2..]);
      DotSlashIsComponent(p);
      OneMoreDot(Components(p[2..]));
    }
  }

  lemma OneMoreDot(cs: seq<Bytes>)
    ensures Kept([[DOT]] + cs) == Kept(cs)
    ensures [DOT, DOT] in [[DOT]] + cs <==> [DOT, DOT] in cs
    ensures BeginsWell([[DOT]] + cs) <==> BeginsWell(cs)
  {
    var more := [[DOT]] + cs;
    assert more[1..] == cs;
    if k :| 0 <= k < |cs| && GoodPart(cs[k]) && forall i :: 0 <= i < k ==> cs[i] == [DOT] {
      assert more[k + 1] == cs[k];
    }
    if k :| 0 <= k < |more| && GoodPart(more[k]) && forall i :: 0 <= i < k ==> more[i] == [DOT] {
      assert k > 0 && cs[k - 1] == more[k];
      assert forall i :: 0 <= i < k - 1 ==> cs[i] == more[i + 1];
    }
  }

  lemma {:induction false} StrippedBeginsElsewhere(p: Bytes)
    ensures var q := StripDots(p); !(|q| >= 2 && q[0] == DOT && q[1] == SLASH)
  {
    if |p| >= 2 && p[0] == DOT && p[1] == SLASH {
      StrippedBeginsElsewhere(p[2..]);
    }
  }

  lemma FirstComponent(q: Bytes)
    ensures Components(q)[0] == q[..FindSlash(q)]
    ensures q == [] || q[0] == SLASH <==> Components(q)[0] == []
    ensures Components(q)[0] == [DOT] && |Components(q)| > 1 ==> |q| >= 2 && q[0] == DOT && q[1] == SLASH
  {
    assert q != [] && q[0] != SLASH ==> FindSlash(q) > 0;
    if Components(q)[0] == [DOT] {
      assert FindSlash(q) == 1 && q[0] == q[..1][0];
    }
  }

  lemma BeginningExactly(q: Bytes)
    requires !(|q| >= 2 && q[0] == DOT && q[1] == SLASH) && [DOT, DOT] !in Components(q)
    ensures BeginsWell(Components(q)) <==> Kept(Components(q)) != [] && !(|q| > 0 && q[0] == SLASH)
  {
    FirstComponent(q);
    var cs := Components(q);
    hide Components, FindSlash;
    if BeginsWell(cs) {
      var k :| 0 <= k < |cs| && GoodPart(cs[k]) && forall i :: 0 <= i < k ==> cs[i] == [DOT];
      assert k == 0;
    }
    if Kept(cs) != [] && !(|q| > 0 && q[0] == SLASH) {
      if |cs| == 1 { assert Kept(cs[1..]) == []; }
      if q == [] { EmptyHasNoParts(q); }
      assert GoodPart(cs[0]);
    }
  }

  lemma EmptyHasNoParts(q: Bytes)
    requires q == []
    ensures Kept(Components(q)) == []
  {
    assert Components(q) == [q];
    assert [q][1..] == [];
  }

  // A path is accepted exactly when it is text without NUL and without "..", and does not begin at the root; its
  // components, whichever way its slashes lean, are then the good ones in order.
  lemma {:induction false} SafePathExactly(p: Bytes)
    ensures var cs := Components(ForwardSlashes(p));
            && (SafePath(p).Some? <==> NUL !in p && IsUtf8(p) && [DOT, DOT] !in cs && BeginsWell(cs))
            && (SafePath(p).Some? ==> Components(SafePath(p).value) == GoodOnes(cs))
  {
    hide ReadAll, EncodeAll, Components, Kept, JoinPath, BeginsWell, GoodOnes, StripDots;
    ValidExactly(p);
    var forward := ForwardSlashes(p);
    var q := StripDots(forward);
    StrippingKeepsParts(forward);
    StrippedBeginsElsewhere(forward);
    if [DOT, DOT] !in Components(q) {
      BeginningExactly(q);
      KeptIsGoodOnes(Components(forward));
    }
    if SafePath(p).Some? {
      PartsOf(p);
    }
  }

  lemma PartsOf(p: Bytes)
    requires SafePath(p).Some?
    ensures Components(SafePath(p).value) == Kept(Components(StripDots(ForwardSlashes(p))))
  {
    hide ReadAll, EncodeAll, Tame;
    var q := StripDots(ForwardSlashes(p));
    var parts := Kept(Components(q));
    KeptAreGood(Components(q));
    forall i | 0 <= i < |parts|
      ensures SLASH !in parts[i]
    {
      assert parts[i] in parts;
      var k :| 0 <= k < |Components(q)| && Components(q)[k] == parts[i];
      ComponentHasNoSlash(q, k);
    }
    ComponentsAfterJoin(parts);
  }

  lemma {:induction false} ComponentHasNoSlash(p: Bytes, i: nat)
    requires i < |Components(p)|
    ensures SLASH !in Components(p)[i]
  {
    var n := FindSlash(p);
    if n < |p| && i > 0 {
      ComponentHasNoSlash(p[n + 1..], i - 1);
    }
  }
}
