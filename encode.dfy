/** The encoder: `Serializable.to_xml` and `_process_dataclass_field`, which
    build an element per instance and append one child per field value in wire
    order, and the `<MDTO>` root wrapper of `Object.to_xml`. The older module's
    `XMLSerializable` encoder is the same engine with one difference, chosen by
    `Dialect`. */
module Encoding {
  import opened Wrappers
  import opened Schema
  import opened Xml
  import opened FieldOrder

  /** Why `to_xml` raises. */
  datatype EncodeError =
    /** `AttributeError`: a value of this type has no `to_xml` method. */
    | NoToXml(typeName: string)
    /** `TypeError`: an `Informatieobject` or `Bestand` used as a field value;
        its `to_xml` takes no root-tag argument. */
    | ToXmlArity(className: string)
    /** `ValueError`: lxml refuses to store a text holding a character XML
        does not allow, such as NUL or another control character. */
    | NotXmlText(text: string)

  // ---------------------------------------------------------------------
  // Specification
  // ---------------------------------------------------------------------

  /** `x.to_xml(name)` on a field value or list item. */
  function ToXmlCall(name: string, x: Value, d: Dialect): Result<Element, EncodeError>
    decreases x, 2
  {
    match x
    case Node(c) =>
      if IsObjectKind(c.kind) then Err(ToXmlArity(ClassName(c.kind))) else EncodeEntity(c, name, d)
    case _ => Err(NoToXml(TypeName(x)))
  }

  /** `to_xml(root)`: an element named `root` holding the elements of every
      field, in wire order. */
  function EncodeEntity(e: Entity, root: string, d: Dialect): Result<Element, EncodeError>
    decreases e, 1
  {
    var children :- EncodeFields(e, Fields(e.kind), WireOrder(e.kind), |Fields(e.kind)|, d);
    Ok(Element(root, None, children))
  }

  /** `order` lists positions of `fs`. */
  predicate OrderWithin(fs: seq<Field>, order: seq<nat>)
  {
    forall i :: 0 <= i < |order| ==> order[i] < |fs|
  }

  /** The children contributed by the first `n` fields of `order`, the fields
      of `e` being `fs`; the first failing field decides the error. */
  function EncodeFields(e: Entity, fs: seq<Field>, order: seq<nat>, n: nat, d: Dialect): Result<seq<Element>, EncodeError>
    requires OrderWithin(fs, order) && n <= |order|
    decreases e, 0, n
  {
    if n == 0 then Ok([])
    else
      var before :- EncodeFields(e, fs, order, n - 1, d);
      var more :- EncodeSlot(e, fs[order[n - 1]].name, order[n - 1], d);
      Ok(before + more)
  }

  /** The elements of the field named `name` declared at position `j`. */
  function EncodeSlot(e: Entity, name: string, j: nat, d: Dialect): Result<seq<Element>, EncodeError>
    decreases e, 0, 0
  {
    if j < |e.values| then EncodeValue(name, e.values[j], d) else Ok([])
  }

  /** `_process_dataclass_field(root, name, v)`: the elements it appends. */
  function EncodeValue(name: string, v: Value, d: Dialect): Result<seq<Element>, EncodeError>
    decreases v, 3
  {
    match v
    case Absent => Ok([])
    case Str(s) => if XmlText(s) then Ok([Leaf(name, s)]) else Err(NotXmlText(s))
    case Int(i) => Ok([Leaf(name, IntToString(i))]) // always XML text: Xml.IntTextIsXml
    case Node(_) =>
      var el :- ToXmlCall(name, v, d);
      Ok([el])
    case List(items) => EncodeItems(name, v, |items|, d)
  }

  /** The elements of the first `n` items of a list value. */
  function EncodeItems(name: string, v: Value, n: nat, d: Dialect): Result<seq<Element>, EncodeError>
    requires v.List? && n <= |v.items|
    decreases v, 1, n
  {
    if n == 0 then Ok([])
    else
      var before :- EncodeItems(name, v, n - 1, d);
      var el :- EncodeItem(name, v.items[n - 1], d);
      Ok(before + [el])
  }

  /** One list item: a string becomes a text element (current encoder only);
      anything else goes through `to_xml`. */
  function EncodeItem(name: string, x: Value, d: Dialect): Result<Element, EncodeError>
    decreases x, 3
  {
    if d == Current && x.Str? then
      if XmlText(x.s) then Ok(Leaf(name, x.s)) else Err(NotXmlText(x.s))
    else ToXmlCall(name, x, d)
  }

  /** The child tag of `<MDTO>` for each object kind. */
  function ObjectRootTag(k: Kind): string
    requires IsObjectKind(k)
  {
    if k == Informatieobject then "informatieobject" else "bestand"
  }

  /** `Object.to_xml()`: `<MDTO>` with the object's element as its one child. */
  function ObjectTree(e: Entity, d: Dialect): Result<Element, EncodeError>
    requires IsObjectKind(e.kind)
  {
    var body :- EncodeEntity(e, ObjectRootTag(e.kind), d);
    Ok(Element("MDTO", None, [body]))
  }

  // ---------------------------------------------------------------------
  // Implementation: elements built by appending
  // ---------------------------------------------------------------------

  /** An element under construction, `ET.Element(tag)`, whose children are
      appended in place. */
  class ElementBuilder {
    const tag: string
    var children: seq<Element>

    constructor (tag: string)
      ensures this.tag == tag && children == []
    {
      this.tag := tag;
      children := [];
    }

    /** `ET.SubElement(self, tag).text = text`: the child is appended
        first, and setting a text lxml refuses raises, reported as `false`. */
    method SubElement(tag: string, text: string) returns (ok: bool)
      modifies this
      ensures ok == XmlText(text)
      ensures children == old(children) + [if ok then Leaf(tag, text) else Element(tag, None, [])]
    {
      children := children + [Element(tag, None, [])];
      ok := XmlText(text);
      if ok {
        children := children[..|children| - 1] + [Leaf(tag, text)];
      }
    }

    /** `self.append(child)`. */
    method Append(child: Element)
      modifies this
      ensures children == old(children) + [child]
    {
      children := children + [child];
    }

    /** The finished element. */
    function Built(): (r: Element)
      reads this
      ensures r.tag == tag && r.text.None? && r.children == children
    {
      Element(tag, None, children)
    }
  }

  /** `to_xml(root)`: appends the elements of each field, in wire order, to a
      new element named `root`. */
  method ToXml(e: Entity, root: string, d: Dialect) returns (r: Result<Element, EncodeError>)
    ensures r == EncodeEntity(e, root, d)
    decreases e, 1
  {
    var rootElem := new ElementBuilder(root);
    var ok := AppendFields(rootElem, e, Fields(e.kind), WireOrder(e.kind), d);
    if ok.Err? {
      return Err(ok.error);
    }
    r := Ok(rootElem.Built());
  }

  /** The loop of `to_xml`: the fields at the positions `order` lists, each
      appended in turn; the first field that fails stops it. */
  method AppendFields(rootElem: ElementBuilder, e: Entity, fs: seq<Field>, order: seq<nat>, d: Dialect)
    returns (r: Result<(), EncodeError>)
    requires OrderWithin(fs, order) && rootElem.children == []
    modifies rootElem
    ensures EncodeFields(e, fs, order, |order|, d).Ok? ==>
      r.Ok? && rootElem.children == EncodeFields(e, fs, order, |order|, d).value
    ensures EncodeFields(e, fs, order, |order|, d).Err? ==> r == Err(EncodeFields(e, fs, order, |order|, d).error)
    decreases e, 0
  {
    var i := 0;
    while i < |order|
      invariant 0 <= i <= |order|
      invariant EncodeFields(e, fs, order, i, d) == Ok(rootElem.children)
    {
      var j := order[i];
      if j < |e.values| {
        var ok := ProcessField(rootElem, fs[j].name, e.values[j], d);
        if ok.Err? {
          FieldsErrorPersists(e, fs, order, i + 1, |order|, d);
          return Err(ok.error);
        }
      } else {
        assert rootElem.children + [] == rootElem.children;
      }
      i := i + 1;
    }
    r := Ok(());
  }

  /** `_process_dataclass_field(root_elem, name, v)`: appends the elements of
      one field value to `rootElem`. */
  method ProcessField(rootElem: ElementBuilder, name: string, v: Value, d: Dialect)
    returns (r: Result<(), EncodeError>)
    modifies rootElem
    ensures EncodeValue(name, v, d).Ok? ==>
      r.Ok? && rootElem.children == old(rootElem.children) + EncodeValue(name, v, d).value
    ensures EncodeValue(name, v, d).Err? ==> r == Err(EncodeValue(name, v, d).error)
    decreases v, 3
  {
    match v {
      case Absent =>
        r := Ok(());
      case List(_) =>
        r := ProcessItems(rootElem, name, v, d);
      case Node(_) =>
        var el := CallToXml(name, v, d);
        if el.Err? {
          return Err(el.error);
        }
        rootElem.Append(el.value);
        r := Ok(());
      case Str(s) =>
        var ok := rootElem.SubElement(name, s);
        r := if ok then Ok(()) else Err(NotXmlText(s));
      case Int(i) =>
        IntTextIsXml(i);
        var ok := rootElem.SubElement(name, IntToString(i));
        r := Ok(());
    }
  }

  /** The list branch of `_process_dataclass_field`: each item in turn, a
      string as a text element (current encoder), anything else through
      `to_xml`. */
  method ProcessItems(rootElem: ElementBuilder, name: string, v: Value, d: Dialect)
    returns (r: Result<(), EncodeError>)
    requires v.List?
    modifies rootElem
    ensures EncodeItems(name, v, |v.items|, d).Ok? ==>
      r.Ok? && rootElem.children == old(rootElem.children) + EncodeItems(name, v, |v.items|, d).value
    ensures EncodeItems(name, v, |v.items|, d).Err? ==> r == Err(EncodeItems(name, v, |v.items|, d).error)
    decreases v, 2
  {
    var items := v.items;
    var k := 0;
    while k < |items|
      invariant 0 <= k <= |items|
      invariant EncodeItems(name, v, k, d).Ok?
      invariant rootElem.children == old(rootElem.children) + EncodeItems(name, v, k, d).value
    {
      var ok := ProcessItem(rootElem, name, items[k], d);
      if ok.Err? {
        ItemsErrorPersists(name, v, k + 1, |items|, d);
        return Err(ok.error);
      }
      k := k + 1;
    }
    r := Ok(());
  }

  /** One pass of the list loop of `_process_dataclass_field`. */
  method ProcessItem(rootElem: ElementBuilder, name: string, x: Value, d: Dialect)
    returns (r: Result<(), EncodeError>)
    modifies rootElem
    ensures EncodeItem(name, x, d).Ok? ==>
      r.Ok? && rootElem.children == old(rootElem.children) + [EncodeItem(name, x, d).value]
    ensures EncodeItem(name, x, d).Err? ==> r == Err(EncodeItem(name, x, d).error)
    decreases x, 3
  {
    if d == Current && x.Str? {
      var ok := rootElem.SubElement(name, x.s);
      r := if ok then Ok(()) else Err(NotXmlText(x.s));
    } else {
      var el := CallToXml(name, x, d);
      if el.Err? {
        return Err(el.error);
      }
      rootElem.Append(el.value);
      r := Ok(());
    }
  }

  /** `x.to_xml(name)`. */
  method CallToXml(name: string, x: Value, d: Dialect) returns (r: Result<Element, EncodeError>)
    ensures r == ToXmlCall(name, x, d)
    decreases x, 2
  {
    if x.Node? && !IsObjectKind(x.e.kind) {
      r := ToXml(x.e, name, d);
    } else if x.Node? {
      r := Err(ToXmlArity(ClassName(x.e.kind)));
    } else {
      r := Err(NoToXml(TypeName(x)));
    }
  }

  /** `Object.to_xml()`: creates `<MDTO>` and appends the object's element. */
  method ObjectToXml(e: Entity, d: Dialect) returns (r: Result<Element, EncodeError>)
    requires IsObjectKind(e.kind)
    ensures r == ObjectTree(e, d)
  {
    var mdto := new ElementBuilder("MDTO");
    var body := ToXml(e, ObjectRootTag(e.kind), d);
    if body.Err? {
      return Err(body.error);
    }
    mdto.Append(body.value);
    assert mdto.children == [body.value];
    r := Ok(mdto.Built());
  }

  /** Once a prefix of the fields fails, every longer prefix fails the same way. */
  lemma {:induction false} FieldsErrorPersists(e: Entity, fs: seq<Field>, order: seq<nat>, i: nat, n: nat, d: Dialect)
    requires OrderWithin(fs, order) && i <= n <= |order|
    requires EncodeFields(e, fs, order, i, d).Err?
    ensures EncodeFields(e, fs, order, n, d) == EncodeFields(e, fs, order, i, d)
    decreases n
  {
    if n > i {
      FieldsErrorPersists(e, fs, order, i, n - 1, d);
    }
  }

  /** Once a prefix of the items fails, every longer prefix fails the same way. */
  lemma {:induction false} ItemsErrorPersists(name: string, v: Value, i: nat, n: nat, d: Dialect)
    requires v.List? && i <= n <= |v.items|
    requires EncodeItems(name, v, i, d).Err?
    ensures EncodeItems(name, v, n, d) == EncodeItems(name, v, i, d)
    decreases n
  {
    if n > i {
      ItemsErrorPersists(name, v, i, n - 1, d);
    }
  }

  // ---------------------------------------------------------------------
  // Which values can be encoded
  // ---------------------------------------------------------------------

  /** `to_xml` succeeds on every field of `e` (fields past the declared ones
      are never visited). */
  predicate Encodable(e: Entity, d: Dialect)
    decreases e, 1
  {
    forall j :: 0 <= j < |Fields(e.kind)| ==> SlotEncodable(e, j, d)
  }

  predicate SlotEncodable(e: Entity, j: nat, d: Dialect)
    decreases e, 0
  {
    j < |e.values| ==> EncodableValue(e.values[j], d)
  }

  /** Absent values and integers always encode, strings when they are XML
      text; a data group encodes when its own fields do; a list encodes when
      each item does. */
  predicate EncodableValue(v: Value, d: Dialect)
    decreases v, 3
  {
    match v
    case Str(s) => XmlText(s)
    case Node(_) => EncodableCall(v, d)
    case List(items) => forall k :: 0 <= k < |items| ==> EncodableItem(items[k], d)
    case _ => true
  }

  /** A list item encodes when it is a string of XML text (current
      encoder) or a data group that encodes. */
  predicate EncodableItem(x: Value, d: Dialect)
    decreases x, 3
  {
    (d == Current && x.Str? && XmlText(x.s)) || EncodableCall(x, d)
  }

  /** `x.to_xml(name)` exists, accepts a root tag and succeeds. */
  predicate EncodableCall(x: Value, d: Dialect)
    decreases x, 2
  {
    x.Node? && !IsObjectKind(x.e.kind) && Encodable(x.e, d)
  }

  lemma {:induction false} CallOkIff(name: string, x: Value, d: Dialect)
    ensures ToXmlCall(name, x, d).Ok? <==> EncodableCall(x, d)
    ensures ToXmlCall(name, x, d).Ok? ==> ToXmlCall(name, x, d).value.tag == name
    decreases x, 2
  {
    if x.Node? && !IsObjectKind(x.e.kind) {
      EntityOkIff(x.e, name, d);
    }
  }

  /** `to_xml` succeeds exactly on the instances whose every field value, at
      any depth, is absent, an integer, a string of XML text, a data group
      or a list of such strings (current encoder) and data groups. */
  lemma {:induction false} EntityOkIff(e: Entity, root: string, d: Dialect)
    ensures EncodeEntity(e, root, d).Ok? <==> Encodable(e, d)
    decreases e, 1
  {
    var fs, order := Fields(e.kind), WireOrder(e.kind);
    FieldsOkIff(e, fs, order, |order|, d);
    if Encodable(e, d) {
      forall i | 0 <= i < |order| ensures SlotEncodable(e, order[i], d) {
        assert order[i] < |fs|;
      }
    }
    if forall i :: 0 <= i < |order| ==> SlotEncodable(e, order[i], d) {
      forall j | 0 <= j < |fs| ensures SlotEncodable(e, j, d) {
        assert j in order;
        var i :| 0 <= i < |order| && order[i] == j;
      }
    }
  }

  lemma {:induction false} FieldsOkIff(e: Entity, fs: seq<Field>, order: seq<nat>, n: nat, d: Dialect)
    requires OrderWithin(fs, order) && n <= |order|
    ensures EncodeFields(e, fs, order, n, d).Ok? <==>
      forall i :: 0 <= i < n ==> SlotEncodable(e, order[i], d)
    decreases e, 0, n
  {
    if n > 0 {
      FieldsOkIff(e, fs, order, n - 1, d);
      var j := order[n - 1];
      if j < |e.values| {
        ValueOkIff(fs[j].name, e.values[j], d);
      }
    }
  }

  lemma {:induction false} ValueOkIff(name: string, v: Value, d: Dialect)
    ensures EncodeValue(name, v, d).Ok? <==> EncodableValue(v, d)
    decreases v, 3
  {
    match v
    case Node(_) => CallOkIff(name, v, d);
    case List(items) => ItemsOkIff(name, v, |items|, d);
    case _ =>
  }

  lemma {:induction false} ItemsOkIff(name: string, v: Value, n: nat, d: Dialect)
    requires v.List? && n <= |v.items|
    ensures EncodeItems(name, v, n, d).Ok? <==> forall k :: 0 <= k < n ==> EncodableItem(v.items[k], d)
    decreases v, 1, n
  {
    if n > 0 {
      ItemsOkIff(name, v, n - 1, d);
      CallOkIff(name, v.items[n - 1], d);
    }
  }

  // ---------------------------------------------------------------------
  // What each field contributes
  // ---------------------------------------------------------------------

  /** A list contributes one element per item, in list order, each being that
      item's own encoding; it fails exactly when some item fails. */
  lemma {:induction false} ListOneElementPerItem(name: string, v: Value, n: nat, d: Dialect)
    requires v.List? && n <= |v.items|
    ensures EncodeItems(name, v, n, d).Ok? <==> forall k :: 0 <= k < n ==> EncodeItem(name, v.items[k], d).Ok?
    ensures EncodeItems(name, v, n, d).Ok? ==>
      |EncodeItems(name, v, n, d).value| == n
      && forall k :: 0 <= k < n ==> EncodeItems(name, v, n, d).value[k] == EncodeItem(name, v.items[k], d).value
    decreases n
  {
    if n > 0 {
      ListOneElementPerItem(name, v, n - 1, d);
    }
  }

  /** How many elements a field value contributes: none when absent, one per
      item for a list, one otherwise. */
  function Multiplicity(v: Value): nat
  {
    match v
    case Absent => 0
    case List(items) => |items|
    case _ => 1
  }

  function Repeat(s: string, n: nat): (r: seq<string>)
    ensures |r| == n && forall i :: 0 <= i < n ==> r[i] == s
  {
    seq(n, _ => s)
  }

  /** Every element a field value contributes is named after the field, and
      there are `Multiplicity(v)` of them; a string or an integer becomes the
      element's text. */
  lemma FieldElements(name: string, v: Value, d: Dialect)
    requires EncodeValue(name, v, d).Ok?
    ensures Tags(EncodeValue(name, v, d).value) == Repeat(name, Multiplicity(v))
    ensures v.Str? ==> EncodeValue(name, v, d).value == [Leaf(name, v.s)]
    ensures v.Int? ==> EncodeValue(name, v, d).value == [Leaf(name, IntToString(v.i))]
  {
    match v
    case Node(_) =>
      CallOkIff(name, v, d);
    case List(items) =>
      ListOneElementPerItem(name, v, |items|, d);
      forall k | 0 <= k < |items| ensures EncodeItem(name, items[k], d).value.tag == name {
        CallOkIff(name, items[k], d);
      }
    case _ =>
  }

  /** The tags the first `n` fields of `order` contribute. */
  function SlotTags(e: Entity, fs: seq<Field>, order: seq<nat>, n: nat): seq<string>
    requires OrderWithin(fs, order) && n <= |order|
  {
    if n == 0 then []
    else SlotTags(e, fs, order, n - 1) + Repeat(fs[order[n - 1]].name, Multiplicity(Get(e, order[n - 1])))
  }

  lemma {:induction false} FieldsTags(e: Entity, fs: seq<Field>, order: seq<nat>, n: nat, d: Dialect)
    requires OrderWithin(fs, order) && n <= |order|
    requires EncodeFields(e, fs, order, n, d).Ok?
    ensures Tags(EncodeFields(e, fs, order, n, d).value) == SlotTags(e, fs, order, n)
  {
    if n > 0 {
      FieldsTags(e, fs, order, n - 1, d);
      var j := order[n - 1];
      var before := EncodeFields(e, fs, order, n - 1, d).value;
      var more := EncodeSlot(e, fs[j].name, j, d).value;
      if j < |e.values| {
        FieldElements(fs[j].name, e.values[j], d);
      }
      TagsConcat(before, more);
    }
  }

  /** The children of an encoded instance are named, in order, after the
      fields in wire order, each repeated as often as its value contributes
      elements. */
  lemma EncodedChildTags(e: Entity, root: string, d: Dialect)
    requires EncodeEntity(e, root, d).Ok?
    ensures EncodeEntity(e, root, d).value.tag == root
    ensures Tags(EncodeEntity(e, root, d).value.children) ==
      SlotTags(e, Fields(e.kind), WireOrder(e.kind), |Fields(e.kind)|)
  {
    FieldsTags(e, Fields(e.kind), WireOrder(e.kind), |Fields(e.kind)|, d);
  }

  /** When every field holds exactly one value, the children's tags are the
      field names in wire order. */
  lemma FullInstanceTags(e: Entity, root: string, d: Dialect)
    requires EncodeEntity(e, root, d).Ok?
    requires forall j :: 0 <= j < |Fields(e.kind)| ==> Multiplicity(Get(e, j)) == 1
    ensures Tags(EncodeEntity(e, root, d).value.children) == WireNames(e.kind)
  {
    EncodedChildTags(e, root, d);
    SlotTagsAreNames(e, Fields(e.kind), WireOrder(e.kind), WireNames(e.kind), |Fields(e.kind)|);
  }

  lemma {:induction false} SlotTagsAreNames(e: Entity, fs: seq<Field>, order: seq<nat>, names: seq<string>, n: nat)
    requires OrderWithin(fs, order) && n <= |order| == |names|
    requires forall p :: 0 <= p < |order| ==> names[p] == fs[order[p]].name
    requires forall j :: 0 <= j < |fs| ==> Multiplicity(Get(e, j)) == 1
    ensures SlotTags(e, fs, order, n) == names[..n]
  {
    if n > 0 {
      SlotTagsAreNames(e, fs, order, names, n - 1);
      assert Repeat(fs[order[n - 1]].name, 1) == [names[n - 1]];
      assert names[..n] == names[..n - 1] + [names[n - 1]];
    }
  }

  lemma TagsConcat(a: seq<Element>, b: seq<Element>)
    ensures Tags(a + b) == Tags(a) + Tags(b)
  {
  }

  /** A `BegripGegevens` with all three fields set encodes as label, code,
      list. */
  lemma BegripElementOrder(labelText: string, lijst: Entity, code: string, root: string, d: Dialect)
    requires EncodeEntity(Entity(Begrip, [Str(labelText), Node(lijst), Str(code)]), root, d).Ok?
    ensures Tags(EncodeEntity(Entity(Begrip, [Str(labelText), Node(lijst), Str(code)]), root, d).value.children)
      == ["begripLabel", "begripCode", "begripBegrippenlijst"]
  {
    FullInstanceTags(Entity(Begrip, [Str(labelText), Node(lijst), Str(code)]), root, d);
    BegripWireNames();
  }

  // ---------------------------------------------------------------------
  // The two encoders
  // ---------------------------------------------------------------------

  /** No list at any depth holds a string. */
  predicate NoStringItems(e: Entity)
    decreases e, 1
  {
    forall j :: 0 <= j < |e.values| ==> NoStringItemsValue(e.values[j])
  }

  predicate NoStringItemsValue(v: Value)
    decreases v, 2
  {
    match v
    case Node(c) => NoStringItems(c)
    case List(items) => forall k :: 0 <= k < |items| ==> !items[k].Str? && NoStringItemsValue(items[k])
    case _ => true
  }

  /** Without string list items, both encoders produce the same result. */
  lemma {:induction false} LegacyAgrees(e: Entity, root: string)
    requires NoStringItems(e)
    ensures EncodeEntity(e, root, Legacy) == EncodeEntity(e, root, Current)
    decreases e, 1
  {
    FieldsAgree(e, Fields(e.kind), WireOrder(e.kind), |Fields(e.kind)|);
  }

  lemma {:induction false} FieldsAgree(e: Entity, fs: seq<Field>, order: seq<nat>, n: nat)
    requires NoStringItems(e)
    requires OrderWithin(fs, order) && n <= |order|
    ensures EncodeFields(e, fs, order, n, Legacy) == EncodeFields(e, fs, order, n, Current)
    decreases e, 0, n
  {
    if n > 0 {
      FieldsAgree(e, fs, order, n - 1);
      var j := order[n - 1];
      if j < |e.values| {
        ValueAgrees(fs[j].name, e.values[j]);
      }
    }
  }

  lemma {:induction false} ValueAgrees(name: string, v: Value)
    requires NoStringItemsValue(v)
    ensures EncodeValue(name, v, Legacy) == EncodeValue(name, v, Current)
    decreases v, 3
  {
    match v
    case Node(c) =>
      CallAgrees(name, v);
    case List(items) =>
      ItemsAgree(name, v, |items|);
    case _ =>
  }

  lemma {:induction false} ItemsAgree(name: string, v: Value, n: nat)
    requires v.List? && n <= |v.items| && NoStringItemsValue(v)
    ensures EncodeItems(name, v, n, Legacy) == EncodeItems(name, v, n, Current)
    decreases v, 1, n
  {
    if n > 0 {
      ItemsAgree(name, v, n - 1);
      CallAgrees(name, v.items[n - 1]);
    }
  }

  lemma {:induction false} CallAgrees(name: string, x: Value)
    requires NoStringItemsValue(x)
    ensures ToXmlCall(name, x, Legacy) == ToXmlCall(name, x, Current)
    decreases x, 2
  {
    if x.Node? && !IsObjectKind(x.e.kind) {
      LegacyAgrees(x.e, name);
    }
  }

  /** A non-empty list of plain strings (such as `trefwoord`) becomes one text
      element per string under the current encoder, unless one of them is
      not XML text, and raises `AttributeError` under the legacy one. */
  lemma StringListEncoding(name: string, items: seq<Value>)
    requires |items| > 0 && forall k :: 0 <= k < |items| ==> items[k].Str?
    ensures EncodeValue(name, List(items), Current).Ok? <==> forall k :: 0 <= k < |items| ==> XmlText(items[k].s)
    ensures EncodeValue(name, List(items), Current).Ok? ==>
      |EncodeValue(name, List(items), Current).value| == |items|
      && forall k :: 0 <= k < |items| ==>
           EncodeValue(name, List(items), Current).value[k] == Leaf(name, items[k].s)
    ensures EncodeValue(name, List(items), Legacy) == Err(NoToXml("str"))
  {
    var v := List(items);
    ListOneElementPerItem(name, v, |items|, Current);
    LegacyFailsOnFirstItem(name, v, |items|);
  }

  lemma {:induction false} LegacyFailsOnFirstItem(name: string, v: Value, n: nat)
    requires v.List? && 0 < n <= |v.items| && v.items[0].Str?
    ensures EncodeItems(name, v, n, Legacy) == Err(NoToXml("str"))
  {
    if n > 1 {
      LegacyFailsOnFirstItem(name, v, n - 1);
    } else {
      assert TypeName(v.items[0]) == "str";
      assert EncodeItem(name, v.items[0], Legacy) == Err(NoToXml("str"));
    }
  }

  /** A string holding a character XML does not allow, such as NUL or U+0001, makes
      `to_xml` raise `ValueError`, as a scalar and as a list item alike. */
  lemma ControlCharacterRaises(name: string, s: string)
    requires exists i :: 0 <= i < |s| && s[i] as int < 9
    ensures EncodeValue(name, Str(s), Current) == Err(NotXmlText(s))
    ensures EncodeValue(name, List([Str(s)]), Current) == Err(NotXmlText(s))
  {
    var v := List([Str(s)]);
    assert EncodeItems(name, v, 0, Current) == Ok([]);
    assert EncodeItem(name, Str(s), Current) == Err(NotXmlText(s));
  }

  /** An `Informatieobject` or `Bestand` used as a field value makes `to_xml`
      raise, whatever else the instance holds. */
  lemma NestedObjectRaises(name: string, c: Entity, d: Dialect)
    requires IsObjectKind(c.kind)
    ensures EncodeValue(name, Node(c), d) == Err(ToXmlArity(ClassName(c.kind)))
    ensures EncodeValue(name, List([Node(c)]), d) == Err(ToXmlArity(ClassName(c.kind)))
  {
    var v := List([Node(c)]);
    assert EncodeItems(name, v, 0, d) == Ok([]);
    assert EncodeItem(name, Node(c), d) == Err(ToXmlArity(ClassName(c.kind)));
    assert EncodeItems(name, v, 1, d) == Err(ToXmlArity(ClassName(c.kind)));
  }

  /** `<MDTO>` has exactly one child, named after the object kind. */
  lemma ObjectTreeShape(e: Entity, d: Dialect)
    requires IsObjectKind(e.kind)
    ensures ObjectTree(e, d).Ok? <==> Encodable(e, d)
    ensures ObjectTree(e, d).Ok? ==>
      ObjectTree(e, d).value.tag == "MDTO"
      && |ObjectTree(e, d).value.children| == 1
      && ObjectTree(e, d).value.children[0] == EncodeEntity(e, ObjectRootTag(e.kind), d).value
      && ObjectTree(e, d).value.children[0].tag == (if e.kind == Informatieobject then "informatieobject" else "bestand")
  {
    EntityOkIff(e, ObjectRootTag(e.kind), d);
  }
}
