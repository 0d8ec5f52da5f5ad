/** The serialisation chain of the example documents: a document the
    encoder wrote is read with `from_xml`, and writing the result with
    `to_xml` gives the same document back. The decoder does not return the
    instance that was written (it drops empty lists and unwraps one-item
    lists), but the encoder writes the instance it returns exactly as it
    wrote the original, as long as no string of the original is empty: an
    empty string is read back as `None`, which writes no element. */
module Reencoding {
  import opened Wrappers
  import opened Schema
  import opened Xml
  import opened FieldOrder
  import opened Encoding
  import opened Decoding
  import opened RoundTrip

  /** An instance without empty strings and its normalised form are
      written alike. */
  lemma {:induction false} EntityReencodes(c: Entity, name: string)
    requires Encodable(c, Current) && FilledEntity(c)
    ensures EncodeEntity(NormalizeEntity(c), name, Current) == EncodeEntity(c, name, Current)
    decreases c, 2
  {
    FieldsReencode(c, Fields(c.kind), WireOrder(c.kind), |Fields(c.kind)|);
  }

  lemma {:induction false} FieldsReencode(c: Entity, fs: seq<Field>, order: seq<nat>, n: nat)
    requires Encodable(c, Current) && FilledEntity(c) && |fs| == |Fields(c.kind)| && OrderWithin(fs, order) && n <= |order|
    ensures EncodeFields(NormalizeEntity(c), fs, order, n, Current) == EncodeFields(c, fs, order, n, Current)
    decreases c, 1, n
  {
    if n > 0 {
      FieldsReencode(c, fs, order, n - 1);
      SlotReencodes(c, fs[order[n - 1]].name, order[n - 1]);
    }
  }

  lemma SlotReencodes(c: Entity, name: string, j: nat)
    requires Encodable(c, Current) && FilledEntity(c) && j < |Fields(c.kind)|
    ensures EncodeSlot(NormalizeEntity(c), name, j, Current) == EncodeSlot(c, name, j, Current)
    decreases c, 0
  {
    if j < |c.values| {
      assert SlotEncodable(c, j, Current);
      ValueReencodes(name, c.values[j]);
      assert NormalizeEntity(c).values[j] == Normalize(c.values[j]);
    }
  }

  /** A field value and its normalised form are written alike: an empty
      list writes nothing, as `None` does, and a one-item list writes the
      element its item writes on its own. */
  lemma {:induction false} ValueReencodes(name: string, v: Value)
    requires EncodableValue(v, Current) && FilledValue(v)
    ensures EncodeValue(name, Normalize(v), Current) == EncodeValue(name, v, Current)
    decreases v, 3
  {
    match v
    case Node(_) =>
      CallReencodes(name, v);
    case List(xs) =>
      if |xs| == 1 {
        var x := xs[0];
        assert EncodableItem(x, Current);
        ItemReencodes(name, x);
        if x.Str? {
          assert !EncodableCall(x, Current);
          assert XmlText(x.s) && EncodeItem(name, x, Current).Ok?;
        } else {
          assert EncodableCall(x, Current);
          CallOkIff(name, x, Current);
          assert EncodeItem(name, x, Current) == ToXmlCall(name, x, Current);
        }
        var el := EncodeItem(name, x, Current).value;
        assert EncodeItems(name, v, 0, Current) == Ok([]);
        assert EncodeValue(name, v, Current) == Ok([el]) by {
          assert [] + [el] == [el];
        }
        assert EncodeValue(name, Normalize(x), Current) == Ok([el]);
      } else if |xs| >= 2 {
        ItemsReencode(name, v, |xs|);
      }
    case _ =>
  }

  lemma {:induction false} ItemsReencode(name: string, v: Value, n: nat)
    requires v.List? && |v.items| >= 2 && n <= |v.items| && EncodableValue(v, Current) && FilledValue(v)
    ensures Normalize(v).List? && |Normalize(v).items| == |v.items|
    ensures EncodeItems(name, Normalize(v), n, Current) == EncodeItems(name, v, n, Current)
    decreases v, 2, n
  {
    if n > 0 {
      ItemsReencode(name, v, n - 1);
      var x := v.items[n - 1];
      assert Normalize(v).items[n - 1] == Normalize(x);
      assert EncodableItem(x, Current);
      ItemReencodes(name, x);
    }
  }

  lemma {:induction false} ItemReencodes(name: string, x: Value)
    requires EncodableItem(x, Current) && FilledValue(x)
    ensures EncodeItem(name, Normalize(x), Current) == EncodeItem(name, x, Current)
    decreases x, 1
  {
    if !x.Str? {
      CallReencodes(name, x);
    }
  }

  lemma {:induction false} CallReencodes(name: string, x: Value)
    requires EncodableCall(x, Current) && FilledValue(x)
    ensures ToXmlCall(name, Normalize(x), Current) == ToXmlCall(name, x, Current)
    decreases x, 0
  {
    EntityReencodes(x.e, name);
  }

  /** An object and its normalised form give the same `<MDTO>` tree. */
  lemma ObjectReencodes(e: Entity)
    requires IsObjectKind(e.kind) && Encodable(e, Current) && FilledEntity(e)
    ensures ObjectTree(NormalizeEntity(e), Current) == ObjectTree(e, Current)
  {
    EntityReencodes(e, ObjectRootTag(e.kind));
  }

  /** `serialization_chain`, on trees: the document the encoder wrote for
      an object decodes, and encoding the decoded object gives that document
      again. */
  lemma SerializationChain(e: Entity, isUrl: string -> bool)
    requires IsObjectKind(e.kind) && WireEntity(e) && Encodable(e, Current) && FilledEntity(e)
    ensures ObjectTree(e, Current).Ok?
    ensures var doc := Qualify(ObjectTree(e, Current).value);
      Decode(doc, Current, isUrl).Ok?
      && IsObjectKind(Decode(doc, Current, isUrl).value.kind)
      && ObjectTree(Decode(doc, Current, isUrl).value, Current).Ok?
      && Qualify(ObjectTree(Decode(doc, Current, isUrl).value, Current).value) == doc
  {
    ObjectRoundTrip(e, isUrl);
    ObjectReencodes(e);
  }

  /** Without `FilledEntity` the chain breaks: a field holding `""` is
      written as an empty element, read back as `None`, and `None` writes
      no element at all. */
  lemma EmptyStringNotRewritten(name: string)
    ensures EncodeValue(name, Str(""), Current) == Ok([Leaf(name, "")])
    ensures EncodeValue(name, Normalize(Str("")), Current) == Ok([])
    ensures Qualify(Leaf(name, "")).text.None?
  {
  }
}
