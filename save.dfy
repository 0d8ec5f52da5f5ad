/** `Object.save`: validate the object, then encode it. Writing the bytes is
    not modelled; the result is the tree that would be written. */
module Saving {
  import opened Wrappers
  import opened Schema
  import opened Xml
  import opened Validation
  import opened Encoding

  /** Why `save` raises: the validator rejected the object, or `to_xml` did. */
  datatype SaveError = Rejected(failure: Failure) | Unencodable(error: EncodeError)

  /** What `save` produces: the warnings `validate` logged and the tree. */
  datatype Saved = Saved(warnings: seq<Warning>, tree: Element)

  /** `save`: `validate()` first, then `to_xml()`. */
  function SaveResult(e: Entity, isUrl: string -> bool): Result<Saved, SaveError>
    requires IsObjectKind(e.kind)
  {
    match Validate(e, isUrl)
    case Err(f) => Err(Rejected(f))
    case Ok(ws) =>
      match ObjectTree(e, Current)
      case Err(x) => Err(Unencodable(x))
      case Ok(tree) => Ok(Saved(ws, tree))
  }

  method Save(e: Entity, isUrl: string -> bool) returns (r: Result<Saved, SaveError>)
    requires IsObjectKind(e.kind)
    ensures r == SaveResult(e, isUrl)
  {
    var checked := Validate(e, isUrl);
    if checked.Err? {
      return Err(Rejected(checked.error));
    }
    var tree := ObjectToXml(e, Current);
    if tree.Err? {
      return Err(Unencodable(tree.error));
    }
    r := Ok(Saved(checked.value, tree.value));
  }

  /** Only an object the validator accepts is encoded, and then `save` fails
      exactly when `to_xml` does. */
  lemma SaveValidatesFirst(e: Entity, isUrl: string -> bool)
    requires IsObjectKind(e.kind)
    ensures Validate(e, isUrl).Err? ==> SaveResult(e, isUrl) == Err(Rejected(Validate(e, isUrl).error))
    ensures SaveResult(e, isUrl).Ok? <==> Validate(e, isUrl).Ok? && Encodable(e, Current)
    ensures SaveResult(e, isUrl).Ok? ==>
      SaveResult(e, isUrl).value.tree == ObjectTree(e, Current).value
      && SaveResult(e, isUrl).value.warnings == Validate(e, isUrl).value
  {
    ObjectTreeShape(e, Current);
  }

  /** The validator only type-checks list items, so a valid object can still
      make `to_xml` raise: a `classificatie` concept whose label is a list of
      integers passes the field check but cannot be encoded. */
  lemma ValidatedObjectMayNotEncode(e: Entity, lijst: Entity, isUrl: string -> bool)
    requires e.kind == Informatieobject && lijst.kind == Verwijzing
    requires Get(e, 6) == List([Node(Entity(Begrip, [List([Int(1)]), Node(lijst), Absent]))])
    ensures FieldCheck(e, 6, isUrl) == Ok([])
    ensures !Encodable(e, Current)
    ensures Validate(e, isUrl).Ok? ==> SaveResult(e, isUrl).Err? && SaveResult(e, isUrl).error.Unencodable?
  {
    BadLabelPassesFieldCheck(e, lijst, isUrl);
    BadLabelNotEncodable(e, lijst);
    SaveValidatesFirst(e, isUrl);
  }

  lemma BadLabelPassesFieldCheck(e: Entity, lijst: Entity, isUrl: string -> bool)
    requires e.kind == Informatieobject && lijst.kind == Verwijzing
    requires Get(e, 6) == List([Node(Entity(Begrip, [List([Int(1)]), Node(lijst), Absent]))])
    ensures FieldCheck(e, 6, isUrl) == Ok([])
  {
  }

  lemma BadLabelNotEncodable(e: Entity, lijst: Entity)
    requires e.kind == Informatieobject && lijst.kind == Verwijzing
    requires Get(e, 6) == List([Node(Entity(Begrip, [List([Int(1)]), Node(lijst), Absent]))])
    ensures !Encodable(e, Current)
  {
    var begrip := Entity(Begrip, [List([Int(1)]), Node(lijst), Absent]);
    var labels := List([Int(1)]);
    assert labels.items[0] == Int(1) && !EncodableItem(Int(1), Current);
    assert !SlotEncodable(begrip, 0, Current);
    assert |Fields(Begrip)| == 3 && !Encodable(begrip, Current);
    var lijsten := List([Node(begrip)]);
    assert lijsten.items[0] == Node(begrip) && !EncodableItem(Node(begrip), Current);
    assert 6 < |e.values| && e.values[6] == lijsten;
    assert !SlotEncodable(e, 6, Current);
    assert |Fields(Informatieobject)| == 23;
  }
}
