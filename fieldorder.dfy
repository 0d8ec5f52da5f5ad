/** The wire-order resolver (`_mdto_ordered_fields`): the order in which an
    instance's fields are emitted, as a sequence of declaration positions. */
module FieldOrder {
  import opened Schema

  /** `range(n)`: declaration order. */
  function Range(n: nat): (r: seq<nat>)
    ensures |r| == n && forall i :: 0 <= i < n ==> r[i] == i
  {
    seq(n, i requires 0 <= i => i)
  }

  /** `sorting_mapping` of `Informatieobject`: the position of each field in
      the XML schema's sequence. */
  const InformatieobjectRanks: map<string, nat> := map[
    "identificatie" := 0,
    "naam" := 1,
    "aggregatieniveau" := 2,
    "classificatie" := 3,
    "trefwoord" := 4,
    "omschrijving" := 5,
    "raadpleeglocatie" := 6,
    "dekkingInTijd" := 7,
    "dekkingInRuimte" := 8,
    "taal" := 9,
    "event" := 10,
    "waardering" := 11,
    "bewaartermijn" := 12,
    "informatiecategorie" := 13,
    "isOnderdeelVan" := 14,
    "bevatOnderdeel" := 15,
    "heeftRepresentatie" := 16,
    "aanvullendeMetagegevens" := 17,
    "gerelateerdInformatieobject" := 18,
    "archiefvormer" := 19,
    "betrokkene" := 20,
    "activiteit" := 21,
    "beperkingGebruik" := 22
  ]

  /** The rank of each `Informatieobject` field, by declaration position. */
  const InformatieobjectRankByPosition: seq<nat> :=
    [0, 1, 19, 22, 11, 2, 3, 4, 5, 6, 7, 8, 9, 10, 12, 13, 14, 15, 16, 17, 18, 20, 21]

  /** Every `Informatieobject` field has an entry in the rank table, and its
      rank is the one listed by declaration position. */
  lemma RanksByPosition()
    ensures forall j :: 0 <= j < |Fields(Informatieobject)| ==>
      Fields(Informatieobject)[j].name in InformatieobjectRanks
      && InformatieobjectRanks[Fields(Informatieobject)[j].name] == InformatieobjectRankByPosition[j]
  {
    RanksByPositionIn0();
    RanksByPositionIn2();
    RanksByPositionIn4();
    RanksByPositionIn6();
    RanksByPositionIn8();
    RanksByPositionIn10();
    RanksByPositionIn12();
    RanksByPositionIn15();
    RanksByPositionIn18();
  }

  lemma RanksByPositionIn0()
    ensures forall j :: 0 <= j < 2 ==>
      Fields(Informatieobject)[j].name in InformatieobjectRanks
      && InformatieobjectRanks[Fields(Informatieobject)[j].name] == InformatieobjectRankByPosition[j]
  {
  }

  lemma RanksByPositionIn2()
    ensures forall j :: 2 <= j < 4 ==>
      Fields(Informatieobject)[j].name in InformatieobjectRanks
      && InformatieobjectRanks[Fields(Informatieobject)[j].name] == InformatieobjectRankByPosition[j]
  {
  }

  lemma RanksByPositionIn4()
    ensures forall j :: 4 <= j < 6 ==>
      Fields(Informatieobject)[j].name in InformatieobjectRanks
      && InformatieobjectRanks[Fields(Informatieobject)[j].name] == InformatieobjectRankByPosition[j]
  {
  }

  lemma RanksByPositionIn6()
    ensures forall j :: 6 <= j < 8 ==>
      Fields(Informatieobject)[j].name in InformatieobjectRanks
      && InformatieobjectRanks[Fields(Informatieobject)[j].name] == InformatieobjectRankByPosition[j]
  {
  }

  lemma RanksByPositionIn8()
    ensures forall j :: 8 <= j < 10 ==>
      Fields(Informatieobject)[j].name in InformatieobjectRanks
      && InformatieobjectRanks[Fields(Informatieobject)[j].name] == InformatieobjectRankByPosition[j]
  {
  }

  lemma RanksByPositionIn10()
    ensures forall j :: 10 <= j < 12 ==>
      Fields(Informatieobject)[j].name in InformatieobjectRanks
      && InformatieobjectRanks[Fields(Informatieobject)[j].name] == InformatieobjectRankByPosition[j]
  {
  }

  lemma RanksByPositionIn12()
    ensures forall j :: 12 <= j < 15 ==>
      Fields(Informatieobject)[j].name in InformatieobjectRanks
      && InformatieobjectRanks[Fields(Informatieobject)[j].name] == InformatieobjectRankByPosition[j]
  {
  }

  lemma RanksByPositionIn15()
    ensures forall j :: 15 <= j < 18 ==>
      Fields(Informatieobject)[j].name in InformatieobjectRanks
      && InformatieobjectRanks[Fields(Informatieobject)[j].name] == InformatieobjectRankByPosition[j]
  {
  }

  lemma RanksByPositionIn18()
    ensures forall j :: 18 <= j < 23 ==>
      Fields(Informatieobject)[j].name in InformatieobjectRanks
      && InformatieobjectRanks[Fields(Informatieobject)[j].name] == InformatieobjectRankByPosition[j]
  {
  }

  /** Field names are unique within every kind, so a tag identifies a field.
      For `Informatieobject` this follows from the rank table, which gives the
      23 names 23 different ranks. */
  lemma FieldNamesDistinct(k: Kind)
    ensures NamesDistinct(Fields(k))
  {
    if k == Informatieobject {
      RanksByPosition();
      OrderInvertsRanks();
      var fs := Fields(Informatieobject);
      forall i, j | 0 <= i < j < |fs| ensures fs[i].name != fs[j].name {
        assert InformatieobjectOrder[InformatieobjectRankByPosition[i]] == i;
        assert InformatieobjectOrder[InformatieobjectRankByPosition[j]] == j;
      }
    } else if k == Bestand {
      BestandNamesDistinct();
    } else {
      GroupNamesDistinct(k);
    }
  }

  /** The sort key of `Informatieobject`: the rank of the field declared at
      position `j` (`sorting_mapping[f.name]`). */
  function InformatieobjectKey(j: nat): nat
  {
    var fs := Fields(Informatieobject);
    if j < |fs| && fs[j].name in InformatieobjectRanks then InformatieobjectRanks[fs[j].name] else |fs|
  }

  // ---------------------------------------------------------------------
  // `sorted(…, key=…)`: a stable insertion sort
  // ---------------------------------------------------------------------

  predicate SortedBy(s: seq<nat>, key: nat -> nat)
  {
    forall i, j :: 0 <= i < j < |s| ==> key(s[i]) <= key(s[j])
  }

  /** Inserts `x` after every leading element whose key is not larger. */
  function Insert(x: nat, s: seq<nat>, key: nat -> nat): (r: seq<nat>)
    ensures multiset(r) == multiset(s) + multiset{x}
    ensures |r| == |s| + 1
    ensures r[0] == x || (|s| > 0 && r[0] == s[0])
  {
    if |s| == 0 then [x]
    else if key(x) < key(s[0]) then [x] + s
    else
      assert s == [s[0]] + s[1..];
      [s[0]] + Insert(x, s[1..], key)
  }

  /** `sorted(s, key=key)`. */
  function SortBy(s: seq<nat>, key: nat -> nat): (r: seq<nat>)
    ensures multiset(r) == multiset(s)
    ensures |r| == |s|
  {
    if |s| == 0 then []
    else
      assert s == s[..|s| - 1] + [s[|s| - 1]];
      Insert(s[|s| - 1], SortBy(s[..|s| - 1], key), key)
  }

  lemma {:induction false} InsertSorted(x: nat, s: seq<nat>, key: nat -> nat)
    requires SortedBy(s, key)
    ensures SortedBy(Insert(x, s, key), key)
    decreases |s|
  {
    if |s| > 0 && key(x) >= key(s[0]) {
      var t := s[1..];
      InsertSorted(x, t, key);
      var r := Insert(x, t, key);
      assert key(s[0]) <= key(r[0]);
      assert Insert(x, s, key) == [s[0]] + r;
    }
  }

  /** The sort yields a permutation ordered by the key. */
  lemma {:induction false} SortBySorted(s: seq<nat>, key: nat -> nat)
    ensures SortedBy(SortBy(s, key), key)
    decreases |s|
  {
    if |s| > 0 {
      SortBySorted(s[..|s| - 1], key);
      InsertSorted(s[|s| - 1], SortBy(s[..|s| - 1], key), key);
    }
  }

  /** A permutation of `Range(n)` holds only values below `n`. */
  lemma PermutationBelow(r: seq<nat>, n: nat)
    requires multiset(r) == multiset(Range(n))
    ensures forall i :: 0 <= i < |r| ==> r[i] < n
  {
    forall i | 0 <= i < |r| ensures r[i] < n {
      assert r[i] in multiset(r);
      assert r[i] in Range(n);
    }
  }

  /** A permutation of `Range(n)` holds no value twice. */
  lemma PermutationDistinct(r: seq<nat>, n: nat)
    requires multiset(r) == multiset(Range(n))
    ensures forall i, j :: 0 <= i < j < |r| ==> r[i] != r[j]
  {
    forall i, j | 0 <= i < j < |r| ensures r[i] != r[j] {
      if r[i] == r[j] {
        MultiplicityOfTwo(r, i, j);
        assert r[i] in multiset(r);
        assert r[i] in Range(n);
        RangeMultiplicity(n, r[i]);
      }
    }
  }

  lemma MultiplicityOfTwo(r: seq<nat>, i: nat, j: nat)
    requires i < j < |r| && r[i] == r[j]
    ensures multiset(r)[r[i]] >= 2
  {
    assert r == r[..i] + [r[i]] + r[i + 1..j] + [r[j]] + r[j + 1..];
  }

  lemma {:induction false} RangeMultiplicity(n: nat, x: nat)
    requires x < n
    ensures multiset(Range(n))[x] == 1
    decreases n
  {
    assert Range(n) == Range(n - 1) + [n - 1];
    if x < n - 1 {
      RangeMultiplicity(n - 1, x);
    } else {
      assert x !in Range(n - 1);
    }
  }

  /** When the keys of `0, …, n - 1` are distinct values below `n`, the sort
      puts each element at the position equal to its key. */
  lemma PositionIsKey(n: nat, key: nat -> nat)
    requires forall i :: 0 <= i < n ==> key(i) < n
    requires forall i, j :: 0 <= i < j < n ==> key(i) != key(j)
    ensures forall p :: 0 <= p < n ==> SortBy(Range(n), key)[p] < n && key(SortBy(Range(n), key)[p]) == p
  {
    var r := SortBy(Range(n), key);
    SortBySorted(Range(n), key);
    PermutationBelow(r, n);
    PermutationDistinct(r, n);
    var t := seq(n, p requires 0 <= p < n => key(r[p]));
    forall i, j | 0 <= i < j < n ensures t[i] < t[j] {
      assert key(r[i]) <= key(r[j]);
      assert r[i] != r[j] && r[i] < n && r[j] < n;
    }
    StrictlyIncreasingIsIdentity(t);
    forall p | 0 <= p < n ensures r[p] < n && key(r[p]) == p {
      assert t[p] == key(r[p]);
    }
  }

  /** `n` strictly increasing naturals below `n` are `0, 1, …, n - 1`. */
  lemma StrictlyIncreasingIsIdentity(t: seq<nat>)
    requires forall i :: 0 <= i < |t| ==> t[i] < |t|
    requires forall i, j :: 0 <= i < j < |t| ==> t[i] < t[j]
    ensures forall p :: 0 <= p < |t| ==> t[p] == p
  {
    forall p | 0 <= p < |t| ensures t[p] == p {
      AtLeastIndex(t, p);
      AtMostIndex(t, p);
    }
  }

  lemma {:induction false} AtLeastIndex(t: seq<nat>, p: nat)
    requires p < |t|
    requires forall i, j :: 0 <= i < j < |t| ==> t[i] < t[j]
    ensures t[p] >= p
    decreases p
  {
    if p > 0 {
      AtLeastIndex(t, p - 1);
    }
  }

  lemma {:induction false} AtMostIndex(t: seq<nat>, p: nat)
    requires p < |t|
    requires forall i :: 0 <= i < |t| ==> t[i] < |t|
    requires forall i, j :: 0 <= i < j < |t| ==> t[i] < t[j]
    ensures t[p] <= |t| - 1 - (|t| - 1 - p)
    decreases |t| - p
  {
    if p < |t| - 1 {
      AtMostIndex(t, p + 1);
    }
  }

  /** `r` lists each of `0, …, n - 1` exactly once. */
  predicate IsPermutation(r: seq<nat>, n: nat)
  {
    && |r| == n
    && (forall p :: 0 <= p < n ==> r[p] < n)
    && (forall p, q :: 0 <= p < q < n ==> r[p] != r[q])
    && (forall j :: 0 <= j < n ==> j in r)
  }

  // ---------------------------------------------------------------------
  // The resolver
  // ---------------------------------------------------------------------

  /** The emission order of the fields of `k`, as declaration positions:
      `BegripGegevens` swaps its last two fields (code before list),
      `Bestand` swaps its last two fields (URL before `isRepresentatieVan`),
      `Informatieobject` follows `InformatieobjectOrder`, which
      `InformatieobjectOrderIsSorted` proves to be the fields sorted by the
      rank table, and every other kind keeps declaration order. */
  function WireOrder(k: Kind): (r: seq<nat>)
    ensures IsPermutation(r, |Fields(k)|)
  {
    match k
    case Begrip => [0, 2, 1]
    case Bestand => [0, 1, 2, 3, 4, 6, 5]
    case Informatieobject =>
      InformatieobjectOrderPermutes();
      InformatieobjectOrder
    case _ =>
      RangeIsPermutation(|Fields(k)|);
      Range(|Fields(k)|)
  }

  lemma RangeIsPermutation(n: nat)
    ensures IsPermutation(Range(n), n)
  {
    forall j | 0 <= j < n ensures j in Range(n) {
      assert Range(n)[j] == j;
    }
  }

  /** The `Informatieobject` emission order, as declaration positions. */
  const InformatieobjectOrder: seq<nat> :=
    [0, 1, 5, 6, 7, 8, 9, 10, 11, 12, 13, 4, 14, 15, 16, 17, 18, 19, 20, 2, 21, 22, 3]

  /** The rank table is a bijection: `InformatieobjectOrder` is the inverse of
      `InformatieobjectRankByPosition`. */
  lemma OrderInvertsRanks()
    ensures forall i :: 0 <= i < 23 ==>
      InformatieobjectRankByPosition[i] < 23 && InformatieobjectOrder[InformatieobjectRankByPosition[i]] == i
    ensures forall p :: 0 <= p < 23 ==>
      InformatieobjectOrder[p] < 23 && InformatieobjectRankByPosition[InformatieobjectOrder[p]] == p
  {
    OrderAfterRanks();
    RanksAfterOrder();
  }

  lemma OrderAfterRanks()
    ensures forall i :: 0 <= i < 23 ==>
      InformatieobjectRankByPosition[i] < 23 && InformatieobjectOrder[InformatieobjectRankByPosition[i]] == i
  {
    OrderAfterRanksLow();
    OrderAfterRanksHigh();
  }

  lemma OrderAfterRanksLow()
    ensures forall i :: 0 <= i < 12 ==>
      InformatieobjectRankByPosition[i] < 23 && InformatieobjectOrder[InformatieobjectRankByPosition[i]] == i
  {
  }

  lemma OrderAfterRanksHigh()
    ensures forall i :: 12 <= i < 23 ==>
      InformatieobjectRankByPosition[i] < 23 && InformatieobjectOrder[InformatieobjectRankByPosition[i]] == i
  {
  }

  lemma RanksAfterOrder()
    ensures forall p :: 0 <= p < 23 ==>
      InformatieobjectOrder[p] < 23 && InformatieobjectRankByPosition[InformatieobjectOrder[p]] == p
  {
    RanksAfterOrderLow();
    RanksAfterOrderHigh();
  }

  lemma RanksAfterOrderLow()
    ensures forall p :: 0 <= p < 12 ==>
      InformatieobjectOrder[p] < 23 && InformatieobjectRankByPosition[InformatieobjectOrder[p]] == p
  {
  }

  lemma RanksAfterOrderHigh()
    ensures forall p :: 12 <= p < 23 ==>
      InformatieobjectOrder[p] < 23 && InformatieobjectRankByPosition[InformatieobjectOrder[p]] == p
  {
  }

  /** The sort key of a declared `Informatieobject` field is its rank. */
  lemma KeyIsRank()
    ensures forall i :: 0 <= i < 23 ==> InformatieobjectKey(i) == InformatieobjectRankByPosition[i]
  {
    RanksByPosition();
  }

  /** `InformatieobjectOrder` undoes the sort key. */
  lemma KeyInverse()
    ensures forall i :: 0 <= i < 23 ==> InformatieobjectKey(i) < 23 && InformatieobjectOrder[InformatieobjectKey(i)] == i
  {
    KeyIsRank();
    OrderAfterRanks();
  }

  /** The 23 sort keys are distinct and below 23. */
  lemma KeysDistinct()
    ensures forall i :: 0 <= i < 23 ==> InformatieobjectKey(i) < 23
    ensures forall i, j :: 0 <= i < j < 23 ==> InformatieobjectKey(i) != InformatieobjectKey(j)
  {
    KeyInverse();
    forall i, j | 0 <= i < j < 23 ensures InformatieobjectKey(i) != InformatieobjectKey(j) {
      assert InformatieobjectOrder[InformatieobjectKey(i)] == i;
    }
  }

  /** The sort puts each `Informatieobject` field at the position equal to
      its key. */
  lemma SortedByKey()
    ensures forall p :: 0 <= p < 23 ==>
      SortBy(Range(23), InformatieobjectKey)[p] < 23
      && InformatieobjectKey(SortBy(Range(23), InformatieobjectKey)[p]) == p
  {
    KeysDistinct();
    PositionIsKey(23, InformatieobjectKey);
  }

  /** Sorting the 23 `Informatieobject` fields by rank gives exactly
      `InformatieobjectOrder`, and each field lands at the position equal to
      its rank. */
  lemma InformatieobjectOrderIsSorted()
    ensures SortBy(Range(23), InformatieobjectKey) == InformatieobjectOrder
    ensures forall p :: 0 <= p < 23 ==> InformatieobjectKey(InformatieobjectOrder[p]) == p
  {
    SortedByKey();
    var r := SortBy(Range(23), InformatieobjectKey);
    KeyInverse();
    forall p | 0 <= p < 23 ensures r[p] == InformatieobjectOrder[p] {
      assert InformatieobjectOrder[InformatieobjectKey(r[p])] == r[p];
    }
  }

  /** The names of the fields of `k` in emission order. */
  function WireNames(k: Kind): (r: seq<string>)
    ensures |r| == |Fields(k)|
    ensures forall p :: 0 <= p < |r| ==> r[p] == Fields(k)[WireOrder(k)[p]].name
  {
    var order := WireOrder(k);
    seq(|order|, p requires 0 <= p < |order| => Fields(k)[order[p]].name)
  }

  /** Every kind other than `BegripGegevens`, `Bestand` and
      `Informatieobject` keeps declaration order. */
  lemma DeclarationOrderKept(k: Kind)
    requires k != Begrip && k != Bestand && k != Informatieobject
    ensures forall p :: 0 <= p < |Fields(k)| ==> WireOrder(k)[p] == p
  {
  }

  /** `BegripGegevens` emits label, code, list: the schema puts `begripCode`
      before `begripBegrippenlijst`, unlike the declaration. */
  lemma BegripWireNames()
    ensures WireNames(Begrip) == ["begripLabel", "begripCode", "begripBegrippenlijst"]
  {
  }

  /** `Bestand` emits `URLBestand` before `isRepresentatieVan`. */
  lemma BestandWireNames()
    ensures WireNames(Bestand) ==
      ["identificatie", "naam", "omvang", "bestandsformaat", "checksum", "URLBestand", "isRepresentatieVan"]
  {
  }

  /** `Informatieobject` emits `identificatie` and `naam` first, `waardering`
      right after `event`, `archiefvormer` after `gerelateerdInformatieobject`
      and `beperkingGebruik` last. */
  lemma InformatieobjectWireNames()
    ensures WireNames(Informatieobject)[0] == "identificatie"
    ensures WireNames(Informatieobject)[1] == "naam"
    ensures WireNames(Informatieobject)[10] == "event"
    ensures WireNames(Informatieobject)[11] == "waardering"
    ensures WireNames(Informatieobject)[18] == "gerelateerdInformatieobject"
    ensures WireNames(Informatieobject)[19] == "archiefvormer"
    ensures WireNames(Informatieobject)[22] == "beperkingGebruik"
  {
    InformatieobjectWireHead();
    InformatieobjectWireTail();
  }

  lemma InformatieobjectWireHead()
    ensures WireNames(Informatieobject)[0] == "identificatie"
    ensures WireNames(Informatieobject)[1] == "naam"
    ensures WireNames(Informatieobject)[10] == "event"
    ensures WireNames(Informatieobject)[11] == "waardering"
  {
    var names := WireNames(Informatieobject);
    var fs := Fields(Informatieobject);
    assert names[0] == fs[0].name;
    assert names[1] == fs[1].name;
    assert names[10] == fs[13].name;
    assert names[11] == fs[4].name;
  }

  lemma InformatieobjectWireTail()
    ensures WireNames(Informatieobject)[18] == "gerelateerdInformatieobject"
    ensures WireNames(Informatieobject)[19] == "archiefvormer"
    ensures WireNames(Informatieobject)[22] == "beperkingGebruik"
  {
    var names := WireNames(Informatieobject);
    var fs := Fields(Informatieobject);
    assert names[18] == fs[20].name;
    assert names[19] == fs[2].name;
    assert names[22] == fs[3].name;
  }

  /** `InformatieobjectOrder` lists each of the 23 declaration positions once. */
  lemma InformatieobjectOrderPermutes()
    ensures IsPermutation(InformatieobjectOrder, 23)
  {
    OrderInvertsRanks();
    forall i, j | 0 <= i < j < 23 ensures InformatieobjectOrder[i] != InformatieobjectOrder[j] {
      assert InformatieobjectRankByPosition[InformatieobjectOrder[i]] == i;
    }
    forall j | 0 <= j < 23 ensures j in InformatieobjectOrder {
      assert InformatieobjectOrder[InformatieobjectRankByPosition[j]] == j;
    }
  }
}
