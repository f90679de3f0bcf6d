// The printed form of headers: which members come out, in which order, and how their values are written.
module PrintedForm {
  import opened Common
  import opened Sequences
  import opened Headers
  import opened Multipart

  // The members that come first, in this order; a compact form has the first four and no others.
  const NAMES: seq<string> := ["From", "To", "Cc", "Subject", "Content-Type", "Content-Disposition"]
  const SHORT: nat := 4

  // The members that are kept back.
  const KEPT_BACK: seq<string> := ["type", "Thinking", "Trash", "__context"]

  lemma NamesAreCanonical(i: nat)
    requires i < |NAMES|
    ensures |CANONICAL| == |NAMES| && CANONICAL[i].key == NAMES[i] && (CANONICAL[i].isEssential <==> i < SHORT)
  {
  }

  // The names differ in length or in their first letter.
  lemma NamesDiffer(i: nat, j: nat)
    requires i < j < |NAMES|
    ensures NAMES[i] != NAMES[j]
  {
    assert NAMES[1][0] != NAMES[2][0];
    assert |NAMES[0]| == 4 && |NAMES[1]| == |NAMES[2]| == 2 && |NAMES[3]| == 7;
    assert |NAMES[4]| == 12 && |NAMES[5]| == 19;
  }

  lemma IsCanonicalExactly(key: string)
    ensures IsCanonical(key) <==> key in NAMES
  {
    if IsCanonical(key) {
      var c :| c in CANONICAL && c.key == key;
      var i :| 0 <= i < |CANONICAL| && CANONICAL[i] == c;
      NamesAreCanonical(i);
    }
    if key in NAMES {
      var i :| 0 <= i < |NAMES| && NAMES[i] == key;
      NamesAreCanonical(i);
      assert CANONICAL[i] in CANONICAL;
    }
  }

  // ----- which members

  function PrintedValue(item: Item): Field
    requires !item.value.Null?
  {
    Field(item.key, match item.value case Text(text) => text case Items(items) => JoinItems(items))
  }

  // In full form all members come out but those kept back and those without a value.
  lemma FullFormExactly(h: Header, f: Field)
    ensures f in Printed(h, false) <==>
            exists item :: item in h && item.key !in KEPT_BACK && !item.value.Null? && f == PrintedValue(item)
  {
    PrintedExactly(h, f);
    assert forall key: string :: Hidden(key) <==> key in KEPT_BACK;
    hide Printed, Hidden;
  }

  // In compact form the four that matter to a reader.
  lemma {:induction false} CompactFormExactly(h: Header, f: Field)
    ensures f in Printed(h, true) <==>
            exists item :: item in h && item.key in NAMES[..SHORT] && !item.value.Null? && f == PrintedValue(item)
  {
    hide ValueText, CanonicalFields, Find;
    CompactFieldsAre(h, CANONICAL, f);
    assert Printed(h, true) == CanonicalFields(h, CANONICAL, true);
    if c :| c in CANONICAL && f in CanonicalField(h, c, true) {
      FoundIsMember(h, c.key);
      var i :| 0 <= i < |CANONICAL| && CANONICAL[i] == c;
      NamesAreCanonical(i);
      assert NAMES[..SHORT][i] == c.key;
      SameValue(Item(c.key, Find(h, c.key).value));
    }
    if item :| item in h && item.key in NAMES[..SHORT] && !item.value.Null? && f == PrintedValue(item) {
      var k :| 0 <= k < SHORT && NAMES[..SHORT][k] == item.key;
      NamesAreCanonical(k);
      var i :| 0 <= i < |h| && h[i] == item;
      FindIsMember(h, item.key, i);
      SameValue(item);
      assert f in CanonicalField(h, CANONICAL[k], true);
    }
  }

  lemma SameValue(item: Item)
    requires !item.value.Null?
    ensures PrintedValue(item) == Field(item.key, ValueText(item.value))
  {
  }

  lemma {:induction false} CompactFieldsAre(h: Header, cs: seq<Canonical>, f: Field)
    ensures f in CanonicalFields(h, cs, true) <==> exists c :: c in cs && f in CanonicalField(h, c, true)
  {
    hide CanonicalField;
    if cs != [] {
      CompactFieldsAre(h, cs[1..], f);
      assert cs == [cs[0]] + cs[1..];
    }
  }

  // ----- in which order

  function PositionOf(h: seq<Item>, key: string): (k: nat)
    ensures k <= |h|
  {
    if h == [] || h[0].key == key then 0 else 1 + PositionOf(h[1..], key)
  }

  // Where a member belongs: the named ones first, the others as they stand in the header.
  function Place(h: seq<Item>, key: string): nat {
    if key in NAMES then IndexOf(NAMES, key) else |NAMES| + PositionOf(h, key)
  }

  predicate Rising(h: seq<Item>, fields: seq<Field>, low: int, high: int) {
    && (forall i :: 0 <= i < |fields| ==> low <= Place(h, fields[i].name) < high)
    && (forall i, j :: 0 <= i < j < |fields| ==> Place(h, fields[i].name) < Place(h, fields[j].name))
  }

  lemma PlaceOfName(h: seq<Item>, k: nat)
    requires k < |NAMES|
    ensures Place(h, NAMES[k]) == k
  {
    var n := IndexOf(NAMES, NAMES[k]);
    if n < k {
      NamesDiffer(n, k);
    }
  }

  lemma RisingConcat(h: seq<Item>, a: seq<Field>, b: seq<Field>, low: int, mid: int, high: int)
    requires Rising(h, a, low, mid) && Rising(h, b, mid, high) && low <= mid <= high
    ensures Rising(h, a + b, low, high)
  {
    hide Place;
  }

  lemma RisingOne(h: seq<Item>, f: Field, k: int)
    requires Place(h, f.name) == k
    ensures Rising(h, [f], k, k + 1) && Rising(h, [], k, k + 1)
  {
    hide Place;
  }

  lemma {:induction false} NamedInOrder(h: Header, compact: bool, k: nat)
    requires k <= |NAMES| == |CANONICAL|
    ensures Rising(h, CanonicalFields(h, CANONICAL[k..], compact), k, |NAMES|)
    decreases |NAMES| - k
  {
    hide Find, Rising;
    if k == |NAMES| {
      assert CANONICAL[k..] == [];
      NothingRises(h, k);
    } else {
      var c := CANONICAL[k];
      NamedInOrder(h, compact, k + 1);
      assert CANONICAL[k..][1..] == CANONICAL[k + 1..];
      NamesAreCanonical(k);
      PlaceOfName(h, k);
      RisingOne(h, Field(c.key, ""), k);
      if CanonicalField(h, c, compact) != [] {
        RisingOne(h, CanonicalField(h, c, compact)[0], k);
      }
      var own, rest := CanonicalField(h, c, compact), CanonicalFields(h, CANONICAL[k + 1..], compact);
      RisingConcat(h, own, rest, k, k + 1, |NAMES|);
    }
  }

  lemma NothingRises(h: seq<Item>, k: int)
    ensures Rising(h, [], k, k)
  {
  }

  lemma {:induction false} PositionIs(h: seq<Item>, k: nat)
    requires k < |h| && forall i, j :: 0 <= i < j < |h| ==> h[i].key != h[j].key
    ensures PositionOf(h, h[k].key) == k
  {
    if k > 0 {
      assert h[0].key != h[k].key;
      PositionIs(h[1..], k - 1);
    }
  }

  lemma {:induction false} OthersInOrder(h: Header, k: nat)
    requires k <= |h|
    ensures Rising(h, OtherFields(h[k..]), |NAMES| + k, |NAMES| + |h|)
    decreases |h| - k
  {
    hide Rising, IsCanonical, Hidden;
    if k == |h| {
      assert h[k..] == [];
      NothingRises(h, |NAMES| + k);
    } else {
      var item, n := h[k], |NAMES| + k;
      OthersInOrder(h, k + 1);
      assert h[k..][1..] == h[k + 1..];
      PositionIs(h, k);
      IsCanonicalExactly(item.key);
      EmptyRises(h, n, n + 1);
      if OtherField(item) != [] {
        RisingOne(h, OtherField(item)[0], n);
      }
      RisingConcat(h, OtherField(item), OtherFields(h[k + 1..]), n, n + 1, |NAMES| + |h|);
    }
  }

  lemma EmptyRises(h: seq<Item>, low: int, high: int)
    ensures Rising(h, [], low, high)
  {
  }

  // The members with a place of their own come first, the others after them in their own order, and none twice.
  lemma {:induction false} PrintedInOrder(h: Header, compact: bool, i: nat, j: nat)
    requires i < j < |Printed(h, compact)|
    ensures Place(h, Printed(h, compact)[i].name) < Place(h, Printed(h, compact)[j].name)
  {
    hide Place, CanonicalFields, OtherFields;
    assert CANONICAL[0..] == CANONICAL && |CANONICAL| == |NAMES| && h[0..] == h;
    NamedInOrder(h, compact, 0);
    OthersInOrder(h, 0);
    var first, others := CanonicalFields(h, CANONICAL, compact), OtherFields(h);
    RisingConcat(h, first, others, 0, |NAMES|, |NAMES| + |h|);
    assert first + [] == first;
  }

  // ----- how values and the thinking text are written

  lemma ItemsAreJoined(x: string, xs: seq<string>)
    ensures JoinItems([]) == "" && JoinItems([x]) == x
    ensures xs != [] ==> JoinItems([x] + xs) == x + ", " + JoinItems(xs)
  {
    assert ([x] + xs)[1..] == xs;
  }

  // A thinking text goes out in front of everything, as it is; without one there is nothing in front.
  lemma {:induction false} ThinkingGoesFirst(h: Header, compact: bool, k: nat, text: string)
    ensures k < |h| && h[k] == Item("Thinking", Text(text)) ==>
              HeaderText(h, compact) == text + Lines(Printed(h, compact))
    ensures (forall i :: 0 <= i < |h| ==> h[i].key != "Thinking" || !h[i].value.Text?) ==>
              HeaderText(h, compact) == Lines(Printed(h, compact))
  {
    hide Printed, Lines;
    if k < |h| && h[k] == Item("Thinking", Text(text)) {
      FindIsMember(h, "Thinking", k);
    }
    if Find(h, "Thinking").Some? {
      FoundIsMember(h, "Thinking");
    }
    assert [] + Lines(Printed(h, compact)) == Lines(Printed(h, compact));
  }
}
