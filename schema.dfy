/** The MDTO entity model: the eleven data groups ("gegevensgroepen") and the
    two top-level objects, each given by a static descriptor table in
    declaration order, plus the dynamically typed field values a Python
    dataclass instance can hold. */
module Schema {
  import opened Wrappers

  /** Recommended maximum length of a `naam` (MDTO_MAX_NAAM_LENGTH). */
  const MaxNaamLength: nat := 80

  datatype Kind =
    | Identificatie
    | Verwijzing
    | Begrip
    | Termijn
    | Checksum
    | BeperkingGebruik
    | DekkingInTijd
    | Event
    | Raadpleeglocatie
    | GerelateerdInformatieobject
    | Betrokkene
    | Informatieobject
    | Bestand

  /** The two `Object` subclasses: the only kinds with a document root. */
  predicate IsObjectKind(k: Kind)
  {
    k == Informatieobject || k == Bestand
  }

  /** The declared element type of a field: `str`, `int` or a data group. */
  datatype ElemType = TStr | TInt | TEntity(kind: Kind)

  /** Cardinality read off a declaration: a `= None` default makes a field
      optional, an `X | List[X]` annotation makes it repeatable. */
  datatype Card = One | OptionalOne | Many | OptionalMany

  predicate Mandatory(c: Card)
  {
    c == One || c == Many
  }

  predicate Listable(c: Card)
  {
    c == Many || c == OptionalMany
  }

  datatype Field = Field(name: string, ty: ElemType, card: Card)

  /** The Python class name, as `self.__class__.__name__` reports it. */
  function ClassName(k: Kind): string
  {
    match k
    case Identificatie => "IdentificatieGegevens"
    case Verwijzing => "VerwijzingGegevens"
    case Begrip => "BegripGegevens"
    case Termijn => "TermijnGegevens"
    case Checksum => "ChecksumGegevens"
    case BeperkingGebruik => "BeperkingGebruikGegevens"
    case DekkingInTijd => "DekkingInTijdGegevens"
    case Event => "EventGegevens"
    case Raadpleeglocatie => "RaadpleeglocatieGegevens"
    case GerelateerdInformatieobject => "GerelateerdInformatieobjectGegevens"
    case Betrokkene => "BetrokkeneGegevens"
    case Informatieobject => "Informatieobject"
    case Bestand => "Bestand"
  }

  /** The dataclass fields of each kind, in declaration order (parent-class
      fields first, as `dataclasses.fields` lists them). */
  function Fields(k: Kind): seq<Field>
  {
    match k
    case Identificatie => IdentificatieFields
    case Verwijzing => VerwijzingFields
    case Begrip => BegripFields
    case Termijn => TermijnFields
    case Checksum => ChecksumFields
    case BeperkingGebruik => BeperkingGebruikFields
    case DekkingInTijd => DekkingInTijdFields
    case Event => EventFields
    case Raadpleeglocatie => RaadpleeglocatieFields
    case GerelateerdInformatieobject => GerelateerdInformatieobjectFields
    case Betrokkene => BetrokkeneFields
    case Informatieobject => InformatieobjectFields
    case Bestand => BestandFields
  }

  const IdentificatieFields: seq<Field> := [
    Field("identificatieKenmerk", TStr, One),
    Field("identificatieBron", TStr, One)]

  const VerwijzingFields: seq<Field> := [
    Field("verwijzingNaam", TStr, One),
    Field("verwijzingIdentificatie", TEntity(Identificatie), OptionalOne)]

  const BegripFields: seq<Field> := [
    Field("begripLabel", TStr, One),
    Field("begripBegrippenlijst", TEntity(Verwijzing), One),
    Field("begripCode", TStr, OptionalOne)]

  const TermijnFields: seq<Field> := [
    Field("termijnTriggerStartLooptijd", TEntity(Begrip), OptionalOne),
    Field("termijnStartdatumLooptijd", TStr, OptionalOne),
    Field("termijnLooptijd", TStr, OptionalOne),
    Field("termijnEinddatum", TStr, OptionalOne)]

  const ChecksumFields: seq<Field> := [
    Field("checksumAlgoritme", TEntity(Begrip), One),
    Field("checksumWaarde", TStr, One),
    Field("checksumDatum", TStr, One)]

  const BeperkingGebruikFields: seq<Field> := [
    Field("beperkingGebruikType", TEntity(Begrip), One),
    Field("beperkingGebruikNadereBeschrijving", TStr, OptionalOne),
    Field("beperkingGebruikDocumentatie", TEntity(Verwijzing), OptionalMany),
    Field("beperkingGebruikTermijn", TEntity(Termijn), OptionalOne)]

  const DekkingInTijdFields: seq<Field> := [
    Field("dekkingInTijdType", TEntity(Begrip), One),
    Field("dekkingInTijdBegindatum", TStr, One),
    Field("dekkingInTijdEinddatum", TStr, OptionalOne)]

  const EventFields: seq<Field> := [
    Field("eventType", TEntity(Begrip), One),
    Field("eventTijd", TStr, OptionalOne),
    Field("eventVerantwoordelijkeActor", TEntity(Verwijzing), OptionalOne),
    Field("eventResultaat", TStr, OptionalOne)]

  const RaadpleeglocatieFields: seq<Field> := [
    Field("raadpleeglocatieFysiek", TEntity(Verwijzing), OptionalMany),
    Field("raadpleeglocatieOnline", TStr, OptionalMany)]

  const GerelateerdInformatieobjectFields: seq<Field> := [
    Field("gerelateerdInformatieobjectVerwijzing", TEntity(Verwijzing), One),
    Field("gerelateerdInformatieobjectTypeRelatie", TEntity(Begrip), One)]

  const BetrokkeneFields: seq<Field> := [
    Field("betrokkeneTypeRelatie", TEntity(Begrip), One),
    Field("betrokkeneActor", TEntity(Verwijzing), One)]

  const InformatieobjectFields: seq<Field> := [
    Field("identificatie", TEntity(Identificatie), Many),
    Field("naam", TStr, One),
    Field("archiefvormer", TEntity(Verwijzing), Many),
    Field("beperkingGebruik", TEntity(BeperkingGebruik), Many),
    Field("waardering", TEntity(Begrip), One),
    Field("aggregatieniveau", TEntity(Begrip), OptionalOne),
    Field("classificatie", TEntity(Begrip), OptionalMany),
    Field("trefwoord", TStr, OptionalMany),
    Field("omschrijving", TStr, OptionalMany),
    Field("raadpleeglocatie", TEntity(Raadpleeglocatie), OptionalMany),
    Field("dekkingInTijd", TEntity(DekkingInTijd), OptionalMany),
    Field("dekkingInRuimte", TEntity(Verwijzing), OptionalMany),
    Field("taal", TStr, OptionalMany),
    Field("event", TEntity(Event), OptionalMany),
    Field("bewaartermijn", TEntity(Termijn), OptionalOne),
    Field("informatiecategorie", TEntity(Begrip), OptionalOne),
    Field("isOnderdeelVan", TEntity(Verwijzing), OptionalMany),
    Field("bevatOnderdeel", TEntity(Verwijzing), OptionalMany),
    Field("heeftRepresentatie", TEntity(Verwijzing), OptionalMany),
    Field("aanvullendeMetagegevens", TEntity(Verwijzing), OptionalMany),
    Field("gerelateerdInformatieobject", TEntity(GerelateerdInformatieobject), OptionalMany),
    Field("betrokkene", TEntity(Betrokkene), OptionalMany),
    Field("activiteit", TEntity(Verwijzing), OptionalMany)]

  const BestandFields: seq<Field> := [
    Field("identificatie", TEntity(Identificatie), Many),
    Field("naam", TStr, One),
    Field("omvang", TInt, One),
    Field("bestandsformaat", TEntity(Begrip), One),
    Field("checksum", TEntity(Checksum), Many),
    Field("isRepresentatieVan", TEntity(Verwijzing), One),
    Field("URLBestand", TStr, OptionalOne)]

  /** Which of the two copies of the codec: `Current` is the maintained one;
      `Legacy` is the older copy, whose encoder sends every list item through
      `item.to_xml(field_name)` and whose constructors check URLs in property
      setters. */
  datatype Dialect = Current | Legacy

  /** A field value: `None`, a `str`, an `int`, a data-group instance or a list. */
  datatype Value =
    | Absent
    | Str(s: string)
    | Int(i: int)
    | Node(e: Entity)
    | List(items: seq<Value>)

  /** A dataclass instance: its class and the values of its fields, indexed by
      declaration position. */
  datatype Entity = Entity(kind: Kind, values: seq<Value>)

  /** `getattr(self, field.name)` for the field declared at position `j`. */
  function Get(e: Entity, j: nat): Value
  {
    if j < |e.values| then e.values[j] else Absent
  }

  /** Python truthiness: `None`, `""`, `0` and `[]` are falsy; instances are truthy. */
  predicate Falsy(v: Value)
  {
    v == Absent || v == Str("") || v == Int(0) || v == List([])
  }

  /** `type(v).__name__`. */
  function TypeName(v: Value): string
  {
    match v
    case Absent => "NoneType"
    case Str(_) => "str"
    case Int(_) => "int"
    case Node(e) => ClassName(e.kind)
    case List(_) => "list"
  }

  /** `expected_type.__name__`. */
  function TypeLabel(t: ElemType): string
  {
    match t
    case TStr => "str"
    case TInt => "int"
    case TEntity(k) => ClassName(k)
  }

  /** `isinstance(v, t)`. */
  predicate IsInstance(v: Value, t: ElemType)
  {
    match t
    case TStr => v.Str?
    case TInt => v.Int?
    case TEntity(k) => v.Node? && v.e.kind == k
  }

  /** An instance whose every data group, at any depth, has exactly its
      declared number of field values (what a dataclass constructor builds). */
  predicate Shaped(e: Entity)
  {
    |e.values| == |Fields(e.kind)| && forall j :: 0 <= j < |e.values| ==> ShapedValue(e.values[j])
  }

  predicate ShapedValue(v: Value)
  {
    match v
    case Node(c) => Shaped(c)
    case List(items) => forall i :: 0 <= i < |items| ==> ShapedValue(items[i])
    case _ => true
  }

  /** No two fields of a table share a name. */
  predicate NamesDistinct(fs: seq<Field>)
  {
    forall i, j :: 0 <= i < j < |fs| ==> fs[i].name != fs[j].name
  }

  lemma BestandNamesDistinct()
    ensures NamesDistinct(Fields(Bestand))
  {
  }

  lemma GroupNamesDistinct(k: Kind)
    requires !IsObjectKind(k)
    ensures NamesDistinct(Fields(k))
  {
  }
}
