/** The parser tables of `from_xml` (`begrip_parsers`, `termijn_parsers`,
    …, `informatieobject_parsers`, `bestand_parsers`) and the proof that
    each agrees with the declaration of its class. */
module ParserTables {
  import opened Schema
  import opened FieldOrder

  /** The parser a table entry names: `parse_text`, `parse_int`,
      `parse_identificatie`, `parse_verwijzing`, or `elem_to_mdto` with the
      table of a data group or object. */
  datatype Parser = Text | Integer | IdentificatieParser | VerwijzingParser | Group(kind: Kind)

  /** The kinds decoded by `elem_to_mdto`; identifications and references
      have their own fixed-arity parsers. */
  predicate HasTable(k: Kind)
  {
    k != Identificatie && k != Verwijzing
  }

  /** The entries of the parser tables (`begrip_parsers`,
      `termijn_parsers`, …) in the order they are written. The two kinds
      without a table get none. */
  function ParserList(k: Kind): seq<(string, Parser)>
  {
    match k
    case Identificatie => []
    case Verwijzing => []
    case Begrip => [
      ("begripLabel", Text),
      ("begripCode", Text),
      ("begripBegrippenlijst", VerwijzingParser)]
    case Termijn => [
      ("termijnTriggerStartLooptijd", Group(Begrip)),
      ("termijnStartdatumLooptijd", Text),
      ("termijnLooptijd", Text),
      ("termijnEinddatum", Text)]
    case BeperkingGebruik => [
      ("beperkingGebruikType", Group(Begrip)),
      ("beperkingGebruikNadereBeschrijving", Text),
      ("beperkingGebruikDocumentatie", VerwijzingParser),
      ("beperkingGebruikTermijn", Group(Termijn))]
    case Raadpleeglocatie => [
      ("raadpleeglocatieFysiek", VerwijzingParser),
      ("raadpleeglocatieOnline", Text)]
    case DekkingInTijd => [
      ("dekkingInTijdType", Group(Begrip)),
      ("dekkingInTijdBegindatum", Text),
      ("dekkingInTijdEinddatum", Text)]
    case Event => [
      ("eventType", Group(Begrip)),
      ("eventTijd", Text),
      ("eventVerantwoordelijkeActor", VerwijzingParser),
      ("eventResultaat", Text)]
    case GerelateerdInformatieobject => [
      ("gerelateerdInformatieobjectVerwijzing", VerwijzingParser),
      ("gerelateerdInformatieobjectTypeRelatie", Group(Begrip))]
    case Betrokkene => [
      ("betrokkeneTypeRelatie", Group(Begrip)),
      ("betrokkeneActor", VerwijzingParser)]
    case Checksum => [
      ("checksumAlgoritme", Group(Begrip)),
      ("checksumWaarde", Text),
      ("checksumDatum", Text)]
    case Informatieobject => [
      ("naam", Text),
      ("identificatie", IdentificatieParser),
      ("aggregatieniveau", Group(Begrip)),
      ("classificatie", Group(Begrip)),
      ("trefwoord", Text),
      ("omschrijving", Text),
      ("raadpleeglocatie", Group(Raadpleeglocatie)),
      ("dekkingInTijd", Group(DekkingInTijd)),
      ("dekkingInRuimte", VerwijzingParser),
      ("taal", Text),
      ("event", Group(Event)),
      ("waardering", Group(Begrip)),
      ("bewaartermijn", Group(Termijn)),
      ("informatiecategorie", Group(Begrip)),
      ("isOnderdeelVan", VerwijzingParser),
      ("bevatOnderdeel", VerwijzingParser),
      ("heeftRepresentatie", VerwijzingParser),
      ("aanvullendeMetagegevens", VerwijzingParser),
      ("gerelateerdInformatieobject", Group(GerelateerdInformatieobject)),
      ("archiefvormer", VerwijzingParser),
      ("betrokkene", Group(Betrokkene)),
      ("activiteit", VerwijzingParser),
      ("beperkingGebruik", Group(BeperkingGebruik))]
    case Bestand => [
      ("naam", Text),
      ("identificatie", IdentificatieParser),
      ("omvang", Integer),
      ("checksum", Group(Checksum)),
      ("bestandsformaat", Group(Begrip)),
      ("URLBestand", Text),
      ("isRepresentatieVan", VerwijzingParser)]
  }

  /** A dict display: the entries in order, a later entry replacing an
      earlier one with the same key. */
  function DictOf<K, V>(entries: seq<(K, V)>): map<K, V>
    decreases |entries|
  {
    if |entries| == 0 then map[]
    else DictOf(entries[..|entries| - 1])[entries[|entries| - 1].0 := entries[|entries| - 1].1]
  }

  /** The parser table of `k`, as the dict the source builds. */
  function Parsers(k: Kind): map<string, Parser>
  {
    DictOf(ParserList(k))
  }

  // ---------------------------------------------------------------------
  // The tables agree with the class declarations
  // ---------------------------------------------------------------------

  /** The parser a field of type `t` calls for. */
  function ParserFor(t: ElemType): Parser
  {
    match t
    case TStr => Text
    case TInt => Integer
    case TEntity(k) =>
      if k == Identificatie then IdentificatieParser
      else if k == Verwijzing then VerwijzingParser
      else Group(k)
  }

  /** Every field in `fs` has an entry in `table`, and that entry is the
      parser its declared type calls for. */
  predicate Covers(fs: seq<Field>, table: map<string, Parser>)
  {
    forall j :: 0 <= j < |fs| ==> fs[j].name in table && table[fs[j].name] == ParserFor(fs[j].ty)
  }

  /** Every key of `table` is the name of a field in `fs`. */
  predicate KeysAreNames(fs: seq<Field>, table: map<string, Parser>)
  {
    forall name :: name in table ==> exists j :: 0 <= j < |fs| && fs[j].name == name
  }

  predicate TableCoversFields(k: Kind)
  {
    Covers(Fields(k), Parsers(k))
  }

  predicate TableKeysAreFields(k: Kind)
  {
    KeysAreNames(Fields(k), Parsers(k))
  }

  /** The entry a table should hold for the field declared at position `j`. */
  function Entry(fs: seq<Field>, j: nat): (string, Parser)
  {
    if j < |fs| then (fs[j].name, ParserFor(fs[j].ty)) else ("", Text)
  }

  /** The hand-written tables agree with the class declarations: their keys
      are exactly the field names, and each key maps to the parser of the
      field's type. So every field can be decoded, and `mdto_class(**args)`
      never receives an unexpected keyword. */
  lemma ParserTablesMatchFields(k: Kind)
    requires HasTable(k)
    ensures TableCoversFields(k) && TableKeysAreFields(k)
  {
    FieldNamesDistinct(k);
    if k == Informatieobject {
      InformatieobjectTable();
    } else if k == Bestand {
      BestandTable();
    } else if k == Begrip {
      BegripTable();
    } else {
      DeclarationOrderTable(k);
    }
  }

  /** The tables of the other data groups list the fields in declaration
      order. */
  lemma DeclarationOrderTable(k: Kind)
    requires HasTable(k) && !IsObjectKind(k) && k != Begrip
    requires NamesDistinct(Fields(k))
    ensures Covers(Fields(k), DictOf(ParserList(k))) && KeysAreNames(Fields(k), DictOf(ParserList(k)))
  {
    var fs, es := Fields(k), ParserList(k);
    assert |es| == |fs|;
    assert forall t :: 0 <= t < |es| ==> es[t] == Entry(fs, t);
    TableFromPositions(fs, es, Range(|fs|), Range(|fs|));
  }

  lemma BegripTable()
    requires NamesDistinct(Fields(Begrip))
    ensures Covers(Fields(Begrip), DictOf(ParserList(Begrip))) && KeysAreNames(Fields(Begrip), DictOf(ParserList(Begrip)))
  {
    var fs, es := Fields(Begrip), ParserList(Begrip);
    assert es[0] == Entry(fs, 0) && es[1] == Entry(fs, 2) && es[2] == Entry(fs, 1);
    TableFromPositions(fs, es, [0, 2, 1], [0, 2, 1]);
  }

  lemma BestandTable()
    requires NamesDistinct(Fields(Bestand))
    ensures Covers(Fields(Bestand), DictOf(ParserList(Bestand))) && KeysAreNames(Fields(Bestand), DictOf(ParserList(Bestand)))
  {
    var fs, es := Fields(Bestand), ParserList(Bestand);
    BestandEntries0To3();
    BestandEntries3To7();
    TableFromPositions(fs, es, BestandTablePos, BestandTablePos);
  }

  /** Where the field of each entry of the `Bestand` table is declared; the
      table swaps three pairs of neighbours, so the list is its own inverse. */
  const BestandTablePos: seq<nat> := [1, 0, 2, 4, 3, 6, 5]

  lemma BestandEntries0To3()
    ensures |ParserList(Bestand)| == 7
    ensures forall t :: 0 <= t < 3 ==> ParserList(Bestand)[t] == Entry(Fields(Bestand), BestandTablePos[t])
  {
    var es, fs := ParserList(Bestand), Fields(Bestand);
    assert es[0] == (fs[1].name, ParserFor(fs[1].ty));
    assert es[1] == (fs[0].name, ParserFor(fs[0].ty));
    assert es[2] == (fs[2].name, ParserFor(fs[2].ty));
  }

  lemma BestandEntries3To7()
    ensures forall t :: 3 <= t < 7 ==> ParserList(Bestand)[t] == Entry(Fields(Bestand), BestandTablePos[t])
  {
    var es, fs := ParserList(Bestand), Fields(Bestand);
    assert es[3] == (fs[4].name, ParserFor(fs[4].ty));
    assert es[4] == (fs[3].name, ParserFor(fs[3].ty));
    assert es[5] == (fs[6].name, ParserFor(fs[6].ty));
    assert es[6] == (fs[5].name, ParserFor(fs[5].ty));
  }

  lemma InformatieobjectTable()
    requires NamesDistinct(Fields(Informatieobject))
    ensures Covers(Fields(Informatieobject), DictOf(ParserList(Informatieobject)))
    ensures KeysAreNames(Fields(Informatieobject), DictOf(ParserList(Informatieobject)))
  {
    InformatieobjectLengths();
    InformatieobjectPositionsForward();
    InformatieobjectPositionsBackward();
    InformatieobjectEntries0To2();
    InformatieobjectEntries2To4();
    InformatieobjectEntries4To6();
    InformatieobjectEntries6To8();
    InformatieobjectEntries8To10();
    InformatieobjectEntries10To12();
    InformatieobjectEntries12To14();
    InformatieobjectEntries14To16();
    InformatieobjectEntries16To18();
    InformatieobjectEntries18To20();
    InformatieobjectEntries20To22();
    InformatieobjectEntries22To23();
    TableFromPositions(Fields(Informatieobject), ParserList(Informatieobject), InformatieobjectTablePos, InformatieobjectTableInv);
  }

  /** Where each entry of `informatieobject_parsers` is declared, and the
      inverse. */
  const InformatieobjectTablePos: seq<nat> :=
    [1, 0, 5, 6, 7, 8, 9, 10, 11, 12, 13, 4, 14, 15, 16, 17, 18, 19, 20, 2, 21, 22, 3]
  const InformatieobjectTableInv: seq<nat> :=
    [1, 0, 19, 22, 11, 2, 3, 4, 5, 6, 7, 8, 9, 10, 12, 13, 14, 15, 16, 17, 18, 20, 21]

  lemma InformatieobjectLengths()
    ensures |ParserList(Informatieobject)| == 23 && |Fields(Informatieobject)| == 23
  {
  }

  lemma InformatieobjectPositionsForward()
    ensures |InformatieobjectTablePos| == 23 && |InformatieobjectTableInv| == 23
    ensures forall t :: 0 <= t < 23 ==>
      InformatieobjectTablePos[t] < 23 && InformatieobjectTableInv[InformatieobjectTablePos[t]] == t
  {
  }

  lemma InformatieobjectPositionsBackward()
    ensures |InformatieobjectTablePos| == 23 && |InformatieobjectTableInv| == 23
    ensures forall j :: 0 <= j < 23 ==>
      InformatieobjectTableInv[j] < 23 && InformatieobjectTablePos[InformatieobjectTableInv[j]] == j
  {
  }

  lemma InformatieobjectEntries0To2()
    ensures forall t :: 0 <= t < 2 ==>
      ParserList(Informatieobject)[t] == Entry(Fields(Informatieobject), InformatieobjectTablePos[t])
  {
    var es, fs := ParserList(Informatieobject), Fields(Informatieobject);
    assert es[0] == (fs[1].name, ParserFor(fs[1].ty));
    assert es[1] == (fs[0].name, ParserFor(fs[0].ty));
  }

  lemma InformatieobjectEntries2To4()
    ensures forall t :: 2 <= t < 4 ==>
      ParserList(Informatieobject)[t] == Entry(Fields(Informatieobject), InformatieobjectTablePos[t])
  {
    var es, fs := ParserList(Informatieobject), Fields(Informatieobject);
    assert es[2] == (fs[5].name, ParserFor(fs[5].ty));
    assert es[3] == (fs[6].name, ParserFor(fs[6].ty));
  }

  lemma InformatieobjectEntries4To6()
    ensures forall t :: 4 <= t < 6 ==>
      ParserList(Informatieobject)[t] == Entry(Fields(Informatieobject), InformatieobjectTablePos[t])
  {
    var es, fs := ParserList(Informatieobject), Fields(Informatieobject);
    assert es[4] == (fs[7].name, ParserFor(fs[7].ty));
    assert es[5] == (fs[8].name, ParserFor(fs[8].ty));
  }

  lemma InformatieobjectEntries6To8()
    ensures forall t :: 6 <= t < 8 ==>
      ParserList(Informatieobject)[t] == Entry(Fields(Informatieobject), InformatieobjectTablePos[t])
  {
    var es, fs := ParserList(Informatieobject), Fields(Informatieobject);
    assert es[6] == (fs[9].name, ParserFor(fs[9].ty));
    assert es[7] == (fs[10].name, ParserFor(fs[10].ty));
  }

  lemma InformatieobjectEntries8To10()
    ensures forall t :: 8 <= t < 10 ==>
      ParserList(Informatieobject)[t] == Entry(Fields(Informatieobject), InformatieobjectTablePos[t])
  {
    var es, fs := ParserList(Informatieobject), Fields(Informatieobject);
    assert es[8] == (fs[11].name, ParserFor(fs[11].ty));
    assert es[9] == (fs[12].name, ParserFor(fs[12].ty));
  }

  lemma InformatieobjectEntries10To12()
    ensures forall t :: 10 <= t < 12 ==>
      ParserList(Informatieobject)[t] == Entry(Fields(Informatieobject), InformatieobjectTablePos[t])
  {
    var es, fs := ParserList(Informatieobject), Fields(Informatieobject);
    assert es[10] == (fs[13].name, ParserFor(fs[13].ty));
    assert es[11] == (fs[4].name, ParserFor(fs[4].ty));
  }

  lemma InformatieobjectEntries12To14()
    ensures forall t :: 12 <= t < 14 ==>
      ParserList(Informatieobject)[t] == Entry(Fields(Informatieobject), InformatieobjectTablePos[t])
  {
    var es, fs := ParserList(Informatieobject), Fields(Informatieobject);
    assert es[12] == (fs[14].name, ParserFor(fs[14].ty));
    assert es[13] == (fs[15].name, ParserFor(fs[15].ty));
  }

  lemma InformatieobjectEntries14To16()
    ensures forall t :: 14 <= t < 16 ==>
      ParserList(Informatieobject)[t] == Entry(Fields(Informatieobject), InformatieobjectTablePos[t])
  {
    var es, fs := ParserList(Informatieobject), Fields(Informatieobject);
    assert es[14] == (fs[16].name, ParserFor(fs[16].ty));
    assert es[15] == (fs[17].name, ParserFor(fs[17].ty));
  }

  lemma InformatieobjectEntries16To18()
    ensures forall t :: 16 <= t < 18 ==>
      ParserList(Informatieobject)[t] == Entry(Fields(Informatieobject), InformatieobjectTablePos[t])
  {
    var es, fs := ParserList(Informatieobject), Fields(Informatieobject);
    assert es[16] == (fs[18].name, ParserFor(fs[18].ty));
    assert es[17] == (fs[19].name, ParserFor(fs[19].ty));
  }

  lemma InformatieobjectEntries18To20()
    ensures forall t :: 18 <= t < 20 ==>
      ParserList(Informatieobject)[t] == Entry(Fields(Informatieobject), InformatieobjectTablePos[t])
  {
    var es, fs := ParserList(Informatieobject), Fields(Informatieobject);
    assert es[18] == (fs[20].name, ParserFor(fs[20].ty));
    assert es[19] == (fs[2].name, ParserFor(fs[2].ty));
  }

  lemma InformatieobjectEntries20To22()
    ensures forall t :: 20 <= t < 22 ==>
      ParserList(Informatieobject)[t] == Entry(Fields(Informatieobject), InformatieobjectTablePos[t])
  {
    var es, fs := ParserList(Informatieobject), Fields(Informatieobject);
    assert es[20] == (fs[21].name, ParserFor(fs[21].ty));
    assert es[21] == (fs[22].name, ParserFor(fs[22].ty));
  }

  lemma InformatieobjectEntries22To23()
    ensures forall t :: 22 <= t < 23 ==>
      ParserList(Informatieobject)[t] == Entry(Fields(Informatieobject), InformatieobjectTablePos[t])
  {
    var es, fs := ParserList(Informatieobject), Fields(Informatieobject);
    assert es[22] == (fs[3].name, ParserFor(fs[3].ty));
  }

  /** A table whose entry `t` is the parser of the field declared at
      `pos[t]`, `inv` being the inverse of `pos`, covers every field and has
      no key that is not a field name. */
  lemma TableFromPositions(fs: seq<Field>, es: seq<(string, Parser)>, pos: seq<nat>, inv: seq<nat>)
    requires NamesDistinct(fs)
    requires |pos| == |es| && |inv| == |fs|
    requires forall t :: 0 <= t < |pos| ==> pos[t] < |fs| && inv[pos[t]] == t
    requires forall j :: 0 <= j < |inv| ==> inv[j] < |pos| && pos[inv[j]] == j
    requires forall t :: 0 <= t < |pos| ==> es[t] == Entry(fs, pos[t])
    ensures Covers(fs, DictOf(es)) && KeysAreNames(fs, DictOf(es))
  {
    forall s, t | 0 <= s < t < |es| ensures es[s].0 != es[t].0 {
      assert pos[s] != pos[t];
      assert es[s] == Entry(fs, pos[s]) && es[t] == Entry(fs, pos[t]);
    }
    DictOfDistinct(es);
    forall j | 0 <= j < |fs|
      ensures fs[j].name in DictOf(es) && DictOf(es)[fs[j].name] == ParserFor(fs[j].ty)
    {
      assert es[inv[j]] == Entry(fs, j);
    }
    forall name | name in DictOf(es) ensures exists j :: 0 <= j < |fs| && fs[j].name == name {
      var t :| 0 <= t < |es| && es[t].0 == name;
      assert es[t] == Entry(fs, pos[t]);
    }
  }

  /** With distinct keys, every entry of a dict display is found under its
      own key, and every key comes from an entry. */
  lemma {:induction false} DictOfDistinct<K, V>(entries: seq<(K, V)>)
    requires forall s, t :: 0 <= s < t < |entries| ==> entries[s].0 != entries[t].0
    ensures forall t :: 0 <= t < |entries| ==>
      entries[t].0 in DictOf(entries) && DictOf(entries)[entries[t].0] == entries[t].1
    ensures forall key :: key in DictOf(entries) ==> exists t :: 0 <= t < |entries| && entries[t].0 == key
    decreases |entries|
  {
    if |entries| > 0 {
      var init := entries[..|entries| - 1];
      DictOfDistinct(init);
      assert forall t :: 0 <= t < |init| ==> init[t] == entries[t];
    }
  }
}
