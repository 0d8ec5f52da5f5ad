/** The round trip the repository's example files rely on: an instance
    written by `to_xml`, serialised and read back, decodes to the instance
    it was written from, and writing the decoded instance again gives the
    same tree.

    lxml serialises the children, which `to_xml` creates without a
    namespace, under the default MDTO namespace of `<MDTO>`; when the text
    is parsed again every tag is in that namespace. `Qualify` is that
    effect on the tree; byte-level serialisation itself is not modelled. */
module RoundTrip {
  import opened Wrappers
  import opened SeqFacts
  import opened Schema
  import opened Xml
  import opened FieldOrder
  import opened Encoding
  import opened ParserTables
  import opened Decoding

  /** The text lxml reads back for an element written with `text`: an
      element whose text was set to `""` is serialised empty (`<a></a>`),
      and an empty element has no text, `None`. */
  function ReadBackText(text: Option<string>): (r: Option<string>)
    ensures r.Some? <==> text.Some? && text.value != ""
    ensures r.Some? ==> r == text
  {
    if text == Some("") then None else text
  }

  /** The tree the parser returns for a serialised `to_xml` tree: the same
      tree with every tag in the MDTO namespace and every empty text read
      back as `None`. */
  function Qualify(el: Element): (r: Element)
    ensures r.tag == Namespace + el.tag && r.text == ReadBackText(el.text) && |r.children| == |el.children|
    ensures forall i :: 0 <= i < |el.children| ==> r.children[i] == Qualify(el.children[i])
    decreases el
  {
    Element(Namespace + el.tag, ReadBackText(el.text), seq(|el.children|, i requires 0 <= i < |el.children| => Qualify(el.children[i])))
  }

  // ---------------------------------------------------------------------
  // Which instances are read back as written
  // ---------------------------------------------------------------------

  /** Every value has the type its field declares, and the two fixed-arity
      groups have what their parsers read: an identification needs both
      strings, a reference its name and at most one identification. */
  predicate WireEntity(e: Entity)
    decreases e, 0
  {
    |e.values| == |Fields(e.kind)|
    && match e.kind
       case Identificatie => e.values[0].Str? && e.values[1].Str?
       case Verwijzing => e.values[0].Str? && (e.values[1].Absent? || WireItem(e.values[1], TEntity(Identificatie)))
       case _ => forall j :: 0 <= j < |Fields(e.kind)| ==> WireValue(e.values[j], Fields(e.kind)[j].ty)
  }

  /** A field value: `None`, or one item of the declared type, or a list of
      such items. */
  predicate WireValue(v: Value, t: ElemType)
    decreases v, 2
  {
    match v
    case Absent => true
    case List(xs) => forall i :: 0 <= i < |xs| ==> WireItem(xs[i], t)
    case _ => WireItem(v, t)
  }

  /** One item of type `t`. */
  predicate WireItem(x: Value, t: ElemType)
    decreases x, 1
  {
    match t
    case TStr => x.Str?
    case TInt => x.Int?
    case TEntity(k) => x.Node? && x.e.kind == k && !IsObjectKind(k) && WireEntity(x.e)
  }

  /** What the decoder makes of a value it reads back: an empty string is
      `None`, an empty list is `None`, a one-item list is that item, at
      every depth. */
  function Normalize(v: Value): Value
    decreases v, 0
  {
    match v
    case Str(s) => if s == "" then Absent else v
    case Node(c) => Node(NormalizeEntity(c))
    case List(xs) =>
      if |xs| == 0 then Absent
      else if |xs| == 1 then Normalize(xs[0])
      else List(seq(|xs|, i requires 0 <= i < |xs| => Normalize(xs[i])))
    case _ => v
  }

  function NormalizeEntity(e: Entity): Entity
    decreases e, 1
  {
    Entity(e.kind, seq(|e.values|, j requires 0 <= j < |e.values| => Normalize(e.values[j])))
  }

  /** No list, at any depth, has fewer than two items. */
  predicate PlainEntity(e: Entity)
    decreases e, 1
  {
    forall j :: 0 <= j < |e.values| ==> PlainValue(e.values[j])
  }

  predicate PlainValue(v: Value)
    decreases v, 0
  {
    match v
    case Node(c) => PlainEntity(c)
    case List(xs) => |xs| >= 2 && forall i :: 0 <= i < |xs| ==> PlainValue(xs[i])
    case _ => true
  }

  /** No string, at any depth, is empty. */
  predicate FilledEntity(e: Entity)
    decreases e, 1
  {
    forall j :: 0 <= j < |e.values| ==> FilledValue(e.values[j])
  }

  predicate FilledValue(v: Value)
    decreases v, 0
  {
    match v
    case Str(s) => s != ""
    case Node(c) => FilledEntity(c)
    case List(xs) => forall i :: 0 <= i < |xs| ==> FilledValue(xs[i])
    case _ => true
  }

  // ---------------------------------------------------------------------
  // The layout of an encoded instance
  // ---------------------------------------------------------------------

  /** The element the current encoder writes under `name` for a value that
      is not a list, or for one list item. */
  function ItemElement(name: string, x: Value): Result<Element, EncodeError>
  {
    match x
    case Str(s) => if XmlText(s) then Ok(Leaf(name, s)) else Err(NotXmlText(s))
    case Int(i) => Ok(Leaf(name, IntToString(i)))
    case _ => ToXmlCall(name, x, Current)
  }

  /** The element is named after the field it belongs to. */
  lemma ItemElementTag(name: string, x: Value)
    requires ItemElement(name, x).Ok?
    ensures ItemElement(name, x).value.tag == name
  {
    if !x.Str? && !x.Int? {
      CallOkIff(name, x, Current);
    }
  }

  /** The positions `a`, `a + 1`, …, `a + len - 1`. */
  function Span(a: nat, len: nat): (r: seq<nat>)
    ensures |r| == len && forall i :: 0 <= i < len ==> r[i] == a + i
  {
    seq(len, i requires 0 <= i < len => a + i)
  }

  /** The items the `p`-th field in wire order writes elements for. */
  function Slot(e: Entity, order: seq<nat>, p: nat): seq<Value>
    requires p < |order|
  {
    Items(Get(e, order[p]))
  }

  /** Where the elements of the `p`-th field in wire order start. */
  function Offset(e: Entity, order: seq<nat>, p: nat): nat
    requires p <= |order|
  {
    if p == 0 then 0 else Offset(e, order, p - 1) + |Slot(e, order, p - 1)|
  }

  lemma {:induction false} OffsetGrows(e: Entity, order: seq<nat>, p: nat, q: nat)
    requires p < q <= |order|
    ensures Offset(e, order, p) + |Slot(e, order, p)| <= Offset(e, order, q)
    decreases q
  {
    if q > p + 1 {
      OffsetGrows(e, order, p, q - 1);
    }
  }

  /** A field value contributes one element per item, the item's own. */
  lemma SlotElements(name: string, v: Value)
    requires EncodeValue(name, v, Current).Ok?
    ensures var es := EncodeValue(name, v, Current).value;
      |es| == |Items(v)|
      && forall t :: 0 <= t < |es| ==>
           ItemElement(name, Items(v)[t]).Ok? && es[t] == ItemElement(name, Items(v)[t]).value
  {
    match v
    case List(xs) =>
      ListOneElementPerItem(name, v, |xs|, Current);
      forall t | 0 <= t < |xs|
        ensures ItemElement(name, xs[t]).Ok? && ItemElement(name, xs[t]) == EncodeItem(name, xs[t], Current)
      {
        CallOkIff(name, xs[t], Current);
      }
    case Node(_) =>
      CallOkIff(name, v, Current);
    case _ =>
  }

  /** `xs` occurs in `s` starting at index `a`. */
  predicate Occurs<T(==)>(s: seq<T>, a: nat, xs: seq<T>)
  {
    a + |xs| <= |s| && forall t :: 0 <= t < |xs| ==> s[a + t] == xs[t]
  }

  lemma OccursLeft<T>(s: seq<T>, more: seq<T>, a: nat, xs: seq<T>)
    requires Occurs(s, a, xs)
    ensures Occurs(s + more, a, xs)
  {
    forall t | 0 <= t < |xs| ensures (s + more)[a + t] == xs[t] {
      assert s[a + t] == xs[t];
    }
  }

  lemma OccursRight<T>(before: seq<T>, xs: seq<T>)
    ensures Occurs(before + xs, |before|, xs)
  {
    forall t | 0 <= t < |xs| ensures (before + xs)[|before| + t] == xs[t] {
    }
  }

  /** The elements `_process_dataclass_field` appends for the `p`-th field in
      wire order. */
  function SlotOutput(e: Entity, fs: seq<Field>, order: seq<nat>, p: nat): Result<seq<Element>, EncodeError>
    requires OrderWithin(fs, order) && p < |order|
  {
    EncodeValue(fs[order[p]].name, Get(e, order[p]), Current)
  }

  /** The elements of the `p`-th field in wire order are at `Offset(p)`,
      `Offset(p) + 1`, …: one per item. */
  predicate LaidOut(es: seq<Element>, e: Entity, fs: seq<Field>, order: seq<nat>, p: nat)
    requires OrderWithin(fs, order) && p < |order|
  {
    SlotOutput(e, fs, order, p).Ok?
    && |SlotOutput(e, fs, order, p).value| == |Slot(e, order, p)|
    && Occurs(es, Offset(e, order, p), SlotOutput(e, fs, order, p).value)
  }

  /** The `t`-th element of a laid-out field is the element of its `t`-th
      item. */
  lemma LaidOutItem(es: seq<Element>, e: Entity, fs: seq<Field>, order: seq<nat>, p: nat, t: nat)
    requires OrderWithin(fs, order) && p < |order|
    requires LaidOut(es, e, fs, order, p) && t < |Slot(e, order, p)|
    ensures Offset(e, order, p) + t < |es|
    ensures ItemElement(fs[order[p]].name, Slot(e, order, p)[t]).Ok?
    ensures es[Offset(e, order, p) + t] == ItemElement(fs[order[p]].name, Slot(e, order, p)[t]).value
  {
    var name, v := fs[order[p]].name, Get(e, order[p]);
    SlotElements(name, v);
    var out := SlotOutput(e, fs, order, p).value;
    assert es[Offset(e, order, p) + t] == out[t];
  }

  /** The first `m` fields in wire order lay their elements out one after
      the other. */
  lemma {:induction false} FieldsLayout(e: Entity, fs: seq<Field>, order: seq<nat>, m: nat)
    requires OrderWithin(fs, order) && m <= |order| && |e.values| == |fs|
    requires EncodeFields(e, fs, order, m, Current).Ok?
    ensures var es := EncodeFields(e, fs, order, m, Current).value;
      |es| == Offset(e, order, m)
      && forall p :: 0 <= p < m ==> LaidOut(es, e, fs, order, p)
    decreases m
  {
    if m > 0 {
      FieldsLayout(e, fs, order, m - 1);
      var before := EncodeFields(e, fs, order, m - 1, Current).value;
      var j := order[m - 1];
      assert SlotOutput(e, fs, order, m - 1) == EncodeSlot(e, fs[j].name, j, Current);
      var more := SlotOutput(e, fs, order, m - 1).value;
      SlotElements(fs[j].name, Get(e, j));
      assert EncodeFields(e, fs, order, m, Current) == Ok(before + more);
      LayoutExtends(before, more, e, fs, order, m);
    }
  }

  /** Appending the elements of the next field in wire order keeps the
      earlier fields where they were and lays the new one out after them. */
  lemma LayoutExtends(before: seq<Element>, more: seq<Element>, e: Entity, fs: seq<Field>, order: seq<nat>, m: nat)
    requires OrderWithin(fs, order) && 0 < m <= |order|
    requires |before| == Offset(e, order, m - 1) && forall p :: 0 <= p < m - 1 ==> LaidOut(before, e, fs, order, p)
    requires SlotOutput(e, fs, order, m - 1) == Ok(more) && |more| == |Slot(e, order, m - 1)|
    ensures |before + more| == Offset(e, order, m)
    ensures forall p :: 0 <= p < m ==> LaidOut(before + more, e, fs, order, p)
  {
    forall p | 0 <= p < m ensures LaidOut(before + more, e, fs, order, p) {
      if p < m - 1 {
        assert LaidOut(before, e, fs, order, p);
        OccursLeft(before, more, Offset(e, order, p), SlotOutput(e, fs, order, p).value);
      } else {
        OccursRight(before, more);
      }
    }
  }

  /** Every child of an encoded instance is an item of some field. */
  lemma {:induction false} OffsetCovers(e: Entity, order: seq<nat>, m: nat, i: nat)
    requires m <= |order| && i < Offset(e, order, m)
    ensures exists p :: 0 <= p < m && Offset(e, order, p) <= i < Offset(e, order, p) + |Slot(e, order, p)|
    decreases m
  {
    if i < Offset(e, order, m - 1) {
      OffsetCovers(e, order, m - 1, i);
      var p :| 0 <= p < m - 1 && Offset(e, order, p) <= i < Offset(e, order, p) + |Slot(e, order, p)|;
      assert 0 <= p < m;
    } else {
      assert Offset(e, order, m - 1) <= i < Offset(e, order, m - 1) + |Slot(e, order, m - 1)|;
    }
  }

  /** A run of `b` children naming `g` adds its positions to those of `g`
      and nothing to any other field. */
  lemma {:induction false} PositionsOfRun(cs: seq<Element>, a: nat, b: nat, f: string, g: string)
    requires a + b <= |cs|
    requires forall i :: a <= i < a + b ==> FieldOf(cs[i]) == g
    ensures Positions(cs, a + b, f) == Positions(cs, a, f) + (if g == f then Span(a, b) else [])
    decreases b
  {
    if b > 0 {
      PositionsOfRun(cs, a, b - 1, f, g);
      assert FieldOf(cs[a + b - 1]) == g;
      var last: seq<nat> := if g == f then [a + b - 1] else [];
      assert Positions(cs, a + b, f) == Positions(cs, a + b - 1, f) + last;
      if g == f {
        assert Span(a, b) == Span(a, b - 1) + last;
        JoinRun(Positions(cs, a + b, f), Positions(cs, a + b - 1, f), Positions(cs, a, f), Span(a, b - 1), last, Span(a, b));
      } else {
        JoinRun(Positions(cs, a + b, f), Positions(cs, a + b - 1, f), Positions(cs, a, f), [], last, []);
      }
    }
  }

  /** The children of the `p`-th field name that field. */
  predicate NamedRun(cs: seq<Element>, e: Entity, fs: seq<Field>, order: seq<nat>, p: nat)
    requires OrderWithin(fs, order) && p < |order|
  {
    Offset(e, order, p) + |Slot(e, order, p)| <= |cs|
    && forall i :: Offset(e, order, p) <= i < Offset(e, order, p) + |Slot(e, order, p)| ==>
         FieldOf(cs[i]) == fs[order[p]].name
  }

  /** In a laid-out instance whose field names are distinct, the children
      naming the field at wire position `q` are exactly its own elements. */
  lemma {:induction false} PositionsLayout(cs: seq<Element>, e: Entity, fs: seq<Field>, order: seq<nat>, m: nat, q: nat)
    requires OrderWithin(fs, order) && m <= |order| && q < |order|
    requires Offset(e, order, m) <= |cs|
    requires forall p :: 0 <= p < m ==> NamedRun(cs, e, fs, order, p)
    requires forall p :: 0 <= p < |order| && fs[order[p]].name == fs[order[q]].name ==> p == q
    ensures Positions(cs, Offset(e, order, m), fs[order[q]].name)
      == if q < m then Span(Offset(e, order, q), |Slot(e, order, q)|) else []
    decreases m
  {
    if m > 0 {
      PositionsLayout(cs, e, fs, order, m - 1, q);
      assert NamedRun(cs, e, fs, order, m - 1);
      PositionsNextRun(cs, e, fs, order, m - 1, q);
      var f := fs[order[q]].name;
      RunJoins(Positions(cs, Offset(e, order, m - 1), f), Positions(cs, Offset(e, order, m), f),
        Span(Offset(e, order, q), |Slot(e, order, q)|), m, q);
    }
  }

  /** The positions of one field, grown by one more run of children. */
  lemma RunJoins<T>(earlier: seq<T>, next: seq<T>, run: seq<T>, m: nat, q: nat)
    requires 0 < m
    requires earlier == (if q < m - 1 then run else [])
    requires next == earlier + (if q == m - 1 then run else [])
    ensures next == if q < m then run else []
  {
    if q < m - 1 {
      assert next == run + [];
    } else if q == m - 1 {
      assert next == [] + run;
    }
  }

  /** The `p`-th field's children extend the positions of the field at
      wire position `q` exactly when `p` is `q`. */
  lemma PositionsNextRun(cs: seq<Element>, e: Entity, fs: seq<Field>, order: seq<nat>, p: nat, q: nat)
    requires OrderWithin(fs, order) && p < |order| && q < |order|
    requires NamedRun(cs, e, fs, order, p)
    requires fs[order[p]].name == fs[order[q]].name ==> p == q
    ensures var f := fs[order[q]].name;
      Positions(cs, Offset(e, order, p + 1), f)
        == Positions(cs, Offset(e, order, p), f) + (if p == q then Span(Offset(e, order, p), |Slot(e, order, p)|) else [])
  {
    PositionsOfRun(cs, Offset(e, order, p), |Slot(e, order, p)|, fs[order[q]].name, fs[order[p]].name);
  }

  /** Parsing the children at consecutive positions, each of which parses. */
  lemma ParseAtSpan(p: Parser, cs: seq<Element>, a: nat, vs: seq<Value>, env: Env)
    requires a + |vs| <= |cs|
    requires forall t :: 0 <= t < |vs| ==> Parse(p, cs[a + t], env) == Ok(vs[t])
    ensures ParseAt(p, cs, Span(a, |vs|), env) == Ok(vs)
  {
    ParseAtSpanPrefix(p, cs, a, vs, |vs|, env);
    assert vs[..|vs|] == vs;
  }

  lemma {:induction false} ParseAtSpanPrefix(p: Parser, cs: seq<Element>, a: nat, vs: seq<Value>, k: nat, env: Env)
    requires k <= |vs| && a + |vs| <= |cs|
    requires forall t :: 0 <= t < |vs| ==> Parse(p, cs[a + t], env) == Ok(vs[t])
    ensures ParseAt(p, cs, Span(a, k), env) == Ok(vs[..k])
    decreases k
  {
    if k > 0 {
      ParseAtSpanPrefix(p, cs, a, vs, k - 1, env);
      SpanInit(a, k);
      assert Span(a, k)[k - 1] == a + (k - 1);
      assert Parse(p, cs[a + (k - 1)], env) == Ok(vs[k - 1]);
      ParseAtSnoc(p, cs, Span(a, k), env, vs[..k - 1], vs[k - 1]);
      PrefixSnoc(vs, k);
    } else {
      assert vs[..0] == [];
    }
  }

  lemma SpanInit(a: nat, n: nat)
    requires 0 < n
    ensures Span(a, n)[..n - 1] == Span(a, n - 1)
  {
  }

  // ---------------------------------------------------------------------
  // Reading an encoded instance back
  // ---------------------------------------------------------------------

  /** The items of `v`, each as the decoder returns it. */
  function NormalizedItems(v: Value): (r: seq<Value>)
    ensures |r| == |Items(v)| && forall t :: 0 <= t < |r| ==> r[t] == Normalize(Items(v)[t])
  {
    seq(|Items(v)|, t requires 0 <= t < |Items(v)| => Normalize(Items(v)[t]))
  }

  /** Collapsing the decoded items of a value gives the normalised value. */
  lemma CollapseNormalizes(v: Value)
    ensures Collapse(NormalizedItems(v)) == Normalize(v)
  {
    if v.List? && |v.items| >= 2 {
      assert NormalizedItems(v) == seq(|v.items|, i requires 0 <= i < |v.items| => Normalize(v.items[i]));
    }
  }

  /** The children of the `p`-th field parse, with the parser its declared
      type calls for, to its items as the decoder returns them. */
  predicate ParsedRun(cs: seq<Element>, e: Entity, fs: seq<Field>, order: seq<nat>, p: nat, env: Env)
    requires OrderWithin(fs, order) && p < |order|
  {
    Offset(e, order, p) + |Slot(e, order, p)| <= |cs|
    && forall t :: 0 <= t < |Slot(e, order, p)| ==>
         Parse(ParserFor(fs[order[p]].ty), cs[Offset(e, order, p) + t], env) == Ok(Normalize(Slot(e, order, p)[t]))
  }

  /** An item written under `name` by the current encoder is read back, by
      the parser of its declared type, as the decoder normalises it. */
  lemma {:induction false} ItemRoundTrip(name: string, x: Value, t: ElemType, isUrl: string -> bool)
    requires WireItem(x, t) && ItemElement(name, x).Ok?
    ensures Parse(ParserFor(t), Qualify(ItemElement(name, x).value), FromXmlEnv(Current, isUrl)) == Ok(Normalize(x))
    decreases x, 1
  {
    match t
    case TStr =>
    case TInt => ParseIntRoundTrip(x.i);
    case TEntity(k) =>
      var c := x.e;
      assert ItemElement(name, x) == EncodeEntity(c, name, Current);
      if k == Identificatie {
        IdentificatieRoundTrip(name, c);
      } else if k == Verwijzing {
        VerwijzingRoundTrip(name, c);
      } else {
        assert ParserFor(t) == Group(k);
        GroupRoundTrip(name, c, isUrl);
      }
  }

  /** A data group with a parser table is read back by its group parser. */
  lemma {:induction false} GroupRoundTrip(name: string, c: Entity, isUrl: string -> bool)
    requires HasTable(c.kind) && WireEntity(c) && EncodeEntity(c, name, Current).Ok?
    ensures Parse(Group(c.kind), Qualify(EncodeEntity(c, name, Current).value), FromXmlEnv(Current, isUrl))
      == Ok(Node(NormalizeEntity(c)))
    decreases c, 1
  {
    var env := FromXmlEnv(Current, isUrl);
    var el := Qualify(EncodeEntity(c, name, Current).value);
    EntityRoundTrip(c, name, isUrl);
    assert env.tables(c.kind) == Parsers(c.kind);
    GroupParses(c.kind, el, env, NormalizeEntity(c));
  }

  /** An identification reads back as written. */
  lemma IdentificatieRoundTrip(name: string, c: Entity)
    requires c.kind == Identificatie && WireEntity(c) && EncodeEntity(c, name, Current).Ok?
    ensures ParseIdentificatie(Qualify(EncodeEntity(c, name, Current).value)) == Ok(Node(NormalizeEntity(c)))
  {
    var fs, order := Fields(Identificatie), WireOrder(Identificatie);
    assert |fs| == 2 && order == [0, 1];
    FieldsLayout(c, fs, order, 2);
    var es := EncodeFields(c, fs, order, 2, Current).value;
    assert Offset(c, order, 1) == 1 && Slot(c, order, 0)[0] == c.values[0];
    LaidOutItem(es, c, fs, order, 0, 0);
    assert es[0].text == Some(c.values[0].s);
    assert Slot(c, order, 1)[0] == c.values[1];
    LaidOutItem(es, c, fs, order, 1, 0);
    assert es[1].text == Some(c.values[1].s);
    assert NormalizeEntity(c).values == [Normalize(c.values[0]), Normalize(c.values[1])];
  }

  /** A reference reads back as written: its name, and its identification
      when it has one. */
  lemma VerwijzingRoundTrip(name: string, c: Entity)
    requires c.kind == Verwijzing && WireEntity(c) && EncodeEntity(c, name, Current).Ok?
    ensures ParseVerwijzing(Qualify(EncodeEntity(c, name, Current).value)) == Ok(Node(NormalizeEntity(c)))
  {
    var fs, order := Fields(Verwijzing), WireOrder(Verwijzing);
    assert |fs| == 2 && order == [0, 1];
    FieldsLayout(c, fs, order, 2);
    var es := EncodeFields(c, fs, order, 2, Current).value;
    assert Offset(c, order, 1) == 1 && Slot(c, order, 0)[0] == c.values[0];
    LaidOutItem(es, c, fs, order, 0, 0);
    assert es[0].text == Some(c.values[0].s);
    var id := c.values[1];
    if id.Absent? {
      assert |es| == 1;
      assert NormalizeEntity(c).values == [Normalize(c.values[0]), Absent];
    } else {
      assert |es| == 2 && Slot(c, order, 1)[0] == id;
      LaidOutItem(es, c, fs, order, 1, 0);
      assert ItemElement(fs[1].name, id) == EncodeEntity(id.e, fs[1].name, Current);
      IdentificatieRoundTrip(fs[1].name, id.e);
      assert NormalizeEntity(c).values == [Normalize(c.values[0]), Normalize(id)];
    }
  }

  /** Each item of the `p`-th field, written under the field's name, reads
      back as the decoder normalises it. */
  predicate ItemsReadBack(c: Entity, fs: seq<Field>, order: seq<nat>, p: nat, env: Env)
    requires OrderWithin(fs, order) && p < |order|
  {
    forall t :: 0 <= t < |Slot(c, order, p)| && ItemElement(fs[order[p]].name, Slot(c, order, p)[t]).Ok? ==>
      Parse(ParserFor(fs[order[p]].ty), Qualify(ItemElement(fs[order[p]].name, Slot(c, order, p)[t]).value), env)
        == Ok(Normalize(Slot(c, order, p)[t]))
  }

  /** A data group with a parser table, written under `name`, decodes to
      the normalised instance. */
  lemma {:induction false} EntityRoundTrip(c: Entity, name: string, isUrl: string -> bool)
    requires HasTable(c.kind) && WireEntity(c) && EncodeEntity(c, name, Current).Ok?
    ensures var env := FromXmlEnv(Current, isUrl);
      DecodeWith(env.classes(c.kind), Parsers(c.kind), Qualify(EncodeEntity(c, name, Current).value), env)
        == Ok(NormalizeEntity(c))
    decreases c, 0
  {
    var env := FromXmlEnv(Current, isUrl);
    var fs, order := Fields(c.kind), WireOrder(c.kind);
    forall p | 0 <= p < |fs| ensures ItemsReadBack(c, fs, order, p, env) {
      var j := order[p];
      var v := c.values[j];
      assert WireValue(v, fs[j].ty);
      forall t | 0 <= t < |Slot(c, order, p)| && ItemElement(fs[j].name, Slot(c, order, p)[t]).Ok?
        ensures Parse(ParserFor(fs[j].ty), Qualify(ItemElement(fs[j].name, Slot(c, order, p)[t]).value), env)
          == Ok(Normalize(Slot(c, order, p)[t]))
      {
        var x := if v.List? then v.items[t] else v;
        assert Slot(c, order, p)[t] == x;
        ItemRoundTrip(fs[j].name, x, fs[j].ty, isUrl);
      }
    }
    EncodedEntityDecodes(c, name, isUrl);
  }

  /** The non-recursive half of `EntityRoundTrip`: once every item reads
      back, the whole encoded instance does. */
  lemma EncodedEntityDecodes(c: Entity, name: string, isUrl: string -> bool)
    requires HasTable(c.kind) && |c.values| == |Fields(c.kind)| && EncodeEntity(c, name, Current).Ok?
    requires forall p :: 0 <= p < |Fields(c.kind)| ==> ItemsReadBack(c, Fields(c.kind), WireOrder(c.kind), p, FromXmlEnv(Current, isUrl))
    ensures var env := FromXmlEnv(Current, isUrl);
      DecodeWith(env.classes(c.kind), Parsers(c.kind), Qualify(EncodeEntity(c, name, Current).value), env)
        == Ok(NormalizeEntity(c))
  {
    var env := FromXmlEnv(Current, isUrl);
    var fs, order := Fields(c.kind), WireOrder(c.kind);
    var es := EncodeFields(c, fs, order, |fs|, Current).value;
    var el := Qualify(EncodeEntity(c, name, Current).value);
    FieldsLayout(c, fs, order, |fs|);
    forall p | 0 <= p < |fs|
      ensures NamedRun(el.children, c, fs, order, p) && ParsedRun(el.children, c, fs, order, p, env)
    {
      ElementsReadBack(es, el.children, c, fs, order, p, env);
    }
    DecodeLaidOut(c, el, isUrl);
  }

  /** The qualified elements of a laid-out field name it and parse to its
      items, as the items themselves do. */
  lemma ElementsReadBack(es: seq<Element>, cs: seq<Element>, c: Entity, fs: seq<Field>, order: seq<nat>, p: nat, env: Env)
    requires OrderWithin(fs, order) && p < |order|
    requires |cs| == |es| && forall i :: 0 <= i < |es| ==> cs[i] == Qualify(es[i])
    requires LaidOut(es, c, fs, order, p) && ItemsReadBack(c, fs, order, p, env)
    ensures NamedRun(cs, c, fs, order, p) && ParsedRun(cs, c, fs, order, p, env)
  {
    ElementsNamed(es, cs, c, fs, order, p);
    ElementsParsed(es, cs, c, fs, order, p, env);
  }

  /** The qualified elements of a laid-out field name it. */
  lemma ElementsNamed(es: seq<Element>, cs: seq<Element>, c: Entity, fs: seq<Field>, order: seq<nat>, p: nat)
    requires OrderWithin(fs, order) && p < |order|
    requires |cs| == |es| && forall i :: 0 <= i < |es| ==> cs[i] == Qualify(es[i])
    requires LaidOut(es, c, fs, order, p)
    ensures NamedRun(cs, c, fs, order, p)
  {
    var a := Offset(c, order, p);
    var name := fs[order[p]].name;
    forall i | a <= i < a + |Slot(c, order, p)| ensures FieldOf(cs[i]) == name {
      var x := Slot(c, order, p)[i - a];
      LaidOutItem(es, c, fs, order, p, i - a);
      ItemElementTag(name, x);
      QualifiedField(es[i]);
    }
  }

  /** The qualified elements of a laid-out field parse to its items as
      the items themselves read back. */
  lemma ElementsParsed(es: seq<Element>, cs: seq<Element>, c: Entity, fs: seq<Field>, order: seq<nat>, p: nat, env: Env)
    requires OrderWithin(fs, order) && p < |order|
    requires |cs| == |es| && forall i :: 0 <= i < |es| ==> cs[i] == Qualify(es[i])
    requires LaidOut(es, c, fs, order, p) && ItemsReadBack(c, fs, order, p, env)
    ensures ParsedRun(cs, c, fs, order, p, env)
  {
    forall t | 0 <= t < |Slot(c, order, p)|
      ensures Parse(ParserFor(fs[order[p]].ty), cs[Offset(c, order, p) + t], env) == Ok(Normalize(Slot(c, order, p)[t]))
    {
      ItemParsed(es, cs, c, fs, order, p, t, env);
    }
  }

  /** The qualified element of the `t`-th item of a laid-out field parses
      as the item reads back. */
  lemma ItemParsed(es: seq<Element>, cs: seq<Element>, c: Entity, fs: seq<Field>, order: seq<nat>, p: nat, t: nat, env: Env)
    requires OrderWithin(fs, order) && p < |order|
    requires |cs| == |es| && forall i :: 0 <= i < |es| ==> cs[i] == Qualify(es[i])
    requires LaidOut(es, c, fs, order, p) && ItemsReadBack(c, fs, order, p, env) && t < |Slot(c, order, p)|
    ensures Offset(c, order, p) + t < |cs|
    ensures Parse(ParserFor(fs[order[p]].ty), cs[Offset(c, order, p) + t], env) == Ok(Normalize(Slot(c, order, p)[t]))
  {
    var a, x := Offset(c, order, p), Slot(c, order, p)[t];
    var name, parser := fs[order[p]].name, ParserFor(fs[order[p]].ty);
    LaidOutItem(es, c, fs, order, p, t);
    assert ItemElement(name, x) == Ok(es[a + t]);
    assert Parse(parser, Qualify(es[a + t]), env) == Ok(Normalize(x));
    assert cs[a + t] == Qualify(es[a + t]);
  }

  /** A qualified element names the field its unqualified tag names. */
  lemma QualifiedField(el: Element)
    ensures FieldOf(Qualify(el)) == el.tag
  {
    NamespaceStripped(el.tag, el.text, Qualify(el).children);
  }

  /** Decoding children laid out as the encoder lays them out, each of
      which reads back as its item, gives the normalised instance. */
  lemma DecodeLaidOut(c: Entity, el: Element, isUrl: string -> bool)
    requires HasTable(c.kind) && |c.values| == |Fields(c.kind)|
    requires |el.children| == Offset(c, WireOrder(c.kind), |Fields(c.kind)|)
    requires forall p :: 0 <= p < |Fields(c.kind)| ==>
      NamedRun(el.children, c, Fields(c.kind), WireOrder(c.kind), p)
      && ParsedRun(el.children, c, Fields(c.kind), WireOrder(c.kind), p, FromXmlEnv(Current, isUrl))
    ensures var env := FromXmlEnv(Current, isUrl);
      DecodeWith(env.classes(c.kind), Parsers(c.kind), el, env) == Ok(NormalizeEntity(c))
  {
    var env := FromXmlEnv(Current, isUrl);
    var k, fs, order := c.kind, Fields(c.kind), WireOrder(c.kind);
    FieldNamesDistinct(k);
    ParserTablesMatchFields(k);
    LaidOutChildrenOk(el.children, c, fs, order, Parsers(k), env);
    DecodedFields(k, el, isUrl);
    LaidOutRuns(el.children, c, fs, order, env);
    DecodedRuns(c, el, isUrl);
  }

  /** Once every child gets through and the children of each field parse
      to its items, the decoded instance is the normalised one. */
  lemma DecodedRuns(c: Entity, el: Element, isUrl: string -> bool)
    requires HasTable(c.kind) && |c.values| == |Fields(c.kind)|
    requires forall i :: 0 <= i < |el.children| ==> ChildOk(Parsers(c.kind), el.children[i], FromXmlEnv(Current, isUrl))
    requires var fs := Fields(c.kind);
      forall j :: 0 <= j < |fs| ==>
        ParseAt(ParserFor(fs[j].ty), el.children, Positions(el.children, |el.children|, fs[j].name), FromXmlEnv(Current, isUrl))
          == Ok(NormalizedItems(c.values[j]))
    ensures var env := FromXmlEnv(Current, isUrl);
      DecodeWith(env.classes(c.kind), Parsers(c.kind), el, env) == Ok(NormalizeEntity(c))
  {
    var env := FromXmlEnv(Current, isUrl);
    var k, fs := c.kind, Fields(c.kind);
    DecodedFields(k, el, isUrl);
    var r := DecodeWith(env.classes(k), Parsers(k), el, env);
    var n := NormalizeEntity(c);
    forall j | 0 <= j < |fs| ensures r.value.values[j] == n.values[j] {
      CollapseNormalizes(c.values[j]);
    }
    SameElements(r.value.values, n.values);
  }

  /** Every child of a laid-out instance gets through the decoding loop. */
  lemma LaidOutChildrenOk(cs: seq<Element>, c: Entity, fs: seq<Field>, order: seq<nat>, table: map<string, Parser>, env: Env)
    requires OrderWithin(fs, order) && |cs| == Offset(c, order, |order|) && Covers(fs, table)
    requires forall p :: 0 <= p < |order| ==> NamedRun(cs, c, fs, order, p) && ParsedRun(cs, c, fs, order, p, env)
    ensures forall i :: 0 <= i < |cs| ==> ChildOk(table, cs[i], env)
  {
    forall i | 0 <= i < |cs| ensures ChildOk(table, cs[i], env) {
      OffsetCovers(c, order, |order|, i);
      var p :| 0 <= p < |order| && Offset(c, order, p) <= i < Offset(c, order, p) + |Slot(c, order, p)|;
      ChildInRunOk(cs, c, fs, order, table, env, p, i);
    }
  }

  /** A child inside the run of the `p`-th field gets through the loop. */
  lemma ChildInRunOk(cs: seq<Element>, c: Entity, fs: seq<Field>, order: seq<nat>, table: map<string, Parser>, env: Env, p: nat, i: nat)
    requires OrderWithin(fs, order) && p < |order| && Covers(fs, table)
    requires NamedRun(cs, c, fs, order, p) && ParsedRun(cs, c, fs, order, p, env)
    requires Offset(c, order, p) <= i < Offset(c, order, p) + |Slot(c, order, p)|
    ensures ChildOk(table, cs[i], env)
  {
    var j, a := order[p], Offset(c, order, p);
    var t := i - a;
    assert FieldOf(cs[i]) == fs[j].name;
    assert fs[j].name in table && table[fs[j].name] == ParserFor(fs[j].ty);
    assert Parse(ParserFor(fs[j].ty), cs[a + t], env) == Ok(Normalize(Slot(c, order, p)[t]));
    assert cs[a + t] == cs[i];
  }

  /** In a laid-out instance, the children naming each field parse to that
      field's items as the decoder returns them. */
  lemma LaidOutRuns(cs: seq<Element>, c: Entity, fs: seq<Field>, order: seq<nat>, env: Env)
    requires IsPermutation(order, |fs|) && NamesDistinct(fs) && |c.values| == |fs|
    requires |cs| == Offset(c, order, |order|)
    requires forall p :: 0 <= p < |order| ==> NamedRun(cs, c, fs, order, p) && ParsedRun(cs, c, fs, order, p, env)
    ensures forall j :: 0 <= j < |fs| ==>
      ParseAt(ParserFor(fs[j].ty), cs, Positions(cs, |cs|, fs[j].name), env) == Ok(NormalizedItems(c.values[j]))
  {
    forall j | 0 <= j < |fs|
      ensures ParseAt(ParserFor(fs[j].ty), cs, Positions(cs, |cs|, fs[j].name), env) == Ok(NormalizedItems(c.values[j]))
    {
      assert j in order;
      var q :| 0 <= q < |order| && order[q] == j;
      FieldRun(cs, c, fs, order, q, env);
    }
  }

  /** The children naming the field at wire position `q` parse to its
      items as the decoder returns them. */
  lemma FieldRun(cs: seq<Element>, c: Entity, fs: seq<Field>, order: seq<nat>, q: nat, env: Env)
    requires IsPermutation(order, |fs|) && NamesDistinct(fs) && |c.values| == |fs| && q < |order|
    requires |cs| == Offset(c, order, |order|)
    requires forall p :: 0 <= p < |order| ==> NamedRun(cs, c, fs, order, p)
    requires ParsedRun(cs, c, fs, order, q, env)
    ensures var j := order[q];
      ParseAt(ParserFor(fs[j].ty), cs, Positions(cs, |cs|, fs[j].name), env) == Ok(NormalizedItems(c.values[j]))
  {
    var j := order[q];
    NameAtOnePosition(fs, order, q);
    PositionsLayout(cs, c, fs, order, |order|, q);
    RunParses(cs, c, fs, order, q, env);
  }

  /** With distinct field names, only wire position `q` carries the name of
      the field there. */
  lemma NameAtOnePosition(fs: seq<Field>, order: seq<nat>, q: nat)
    requires IsPermutation(order, |fs|) && NamesDistinct(fs) && q < |order|
    ensures forall p :: 0 <= p < |order| && fs[order[p]].name == fs[order[q]].name ==> p == q
  {
    forall p | 0 <= p < |order| && fs[order[p]].name == fs[order[q]].name ensures p == q {
    }
  }

  /** The run of children of the field at wire position `q` parses to its
      items as the decoder returns them. */
  lemma RunParses(cs: seq<Element>, c: Entity, fs: seq<Field>, order: seq<nat>, q: nat, env: Env)
    requires OrderWithin(fs, order) && |c.values| == |fs| && q < |order|
    requires ParsedRun(cs, c, fs, order, q, env)
    ensures var j := order[q];
      ParseAt(ParserFor(fs[j].ty), cs, Span(Offset(c, order, q), |Slot(c, order, q)|), env) == Ok(NormalizedItems(c.values[j]))
  {
    var j := order[q];
    var a := Offset(c, order, q);
    var vs := NormalizedItems(c.values[j]);
    assert Slot(c, order, q) == Items(c.values[j]);
    forall t | 0 <= t < |vs| ensures Parse(ParserFor(fs[j].ty), cs[a + t], env) == Ok(vs[t]) {
      assert Parse(ParserFor(fs[j].ty), cs[a + t], env) == Ok(Normalize(Slot(c, order, q)[t]));
    }
    ParseAtSpan(ParserFor(fs[j].ty), cs, a, vs, env);
  }
  // ---------------------------------------------------------------------
  // The round trip of an object
  // ---------------------------------------------------------------------

  /** `from_xml` of the document `to_xml` writes for an object returns the
      object with its empty strings and empty lists dropped and its one-item
      lists unwrapped. */
  lemma ObjectRoundTrip(e: Entity, isUrl: string -> bool)
    requires IsObjectKind(e.kind) && WireEntity(e) && Encodable(e, Current)
    ensures ObjectTree(e, Current).Ok?
    ensures Decode(Qualify(ObjectTree(e, Current).value), Current, isUrl) == Ok(NormalizeEntity(e))
  {
    ObjectTreeShape(e, Current);
    var doc := Qualify(ObjectTree(e, Current).value);
    var body := EncodeEntity(e, ObjectRootTag(e.kind), Current).value;
    assert doc.children[0] == Qualify(body);
    QualifiedField(body);
    RootDispatch(doc, Current, isUrl);
    EntityRoundTrip(e, ObjectRootTag(e.kind), isUrl);
  }

  /** Normalising changes nothing in an instance without empty strings and
      without empty or one-item lists. */
  lemma {:induction false} NormalizePlainEntity(e: Entity)
    requires PlainEntity(e) && FilledEntity(e)
    ensures NormalizeEntity(e) == e
    decreases e, 1
  {
    forall j | 0 <= j < |e.values| ensures Normalize(e.values[j]) == e.values[j] {
      NormalizePlainValue(e.values[j]);
    }
  }

  lemma {:induction false} NormalizePlainValue(v: Value)
    requires PlainValue(v) && FilledValue(v)
    ensures Normalize(v) == v
    decreases v, 0
  {
    match v
    case Node(c) =>
      NormalizePlainEntity(c);
    case List(xs) =>
      forall i | 0 <= i < |xs| ensures Normalize(xs[i]) == xs[i] {
        NormalizePlainValue(xs[i]);
      }
    case _ =>
  }

  /** decode ∘ encode is the identity on objects with no empty string and
      no empty or one-item list. */
  lemma PlainObjectRoundTrip(e: Entity, isUrl: string -> bool)
    requires IsObjectKind(e.kind) && WireEntity(e) && Encodable(e, Current) && PlainEntity(e) && FilledEntity(e)
    ensures ObjectTree(e, Current).Ok?
    ensures Decode(Qualify(ObjectTree(e, Current).value), Current, isUrl) == Ok(e)
  {
    ObjectRoundTrip(e, isUrl);
    NormalizePlainEntity(e);
  }

  /** The identity fails on the other objects: an empty list comes back as
      `None`, a one-item list of strings as the string, and an empty string
      as `None`. */
  lemma ShortListsComeBackChanged(s: string)
    ensures Normalize(List([])) == Absent
    ensures s != "" ==> Normalize(List([Str(s)])) == Str(s)
    ensures Normalize(Str("")) == Absent && Normalize(List([Str("")])) == Absent
  {
  }
}
