/** The decoder `from_xml`: per-class parser tables, the generic
    `elem_to_mdto` routine that fills one bucket per table key and collapses
    the buckets, the fixed-arity parsers of `IdentificatieGegevens` and
    `VerwijzingGegevens`, and the dispatch on the root's first child. The
    older module's decoder is the same engine with the same tables; it differs
    only in the constructors it calls, which run the property setters and
    `__post_init__` (module `Setters`). */
module Decoding {
  import opened Wrappers
  import opened Schema
  import opened Xml
  import opened ParserTables
  import opened Setters

  /** The namespace prefix lxml puts in front of every tag of an MDTO
      document. */
  const Namespace: string := "{https://www.nationaalarchief.nl/mdto}"

  /** Why `from_xml` raises. */
  datatype DecodeError =
    /** `KeyError`: a child's tag has no entry in the parser table. */
    | UnknownTag(tag: string)
    /** `IndexError`: `node[index]` on a node with fewer children. */
    | MissingChild(index: nat)
    /** `TypeError`: `int(None)` on an integer element without text. */
    | NoText
    /** `ValueError`: `int(text)` on text that is not a decimal integer. */
    | NotAnInt(text: string)
    /** `ValueError`: the root's first child is neither `informatieobject`
        nor `bestand`. */
    | UnexpectedRoot(tag: string)
    /** `ValueError` from a URL property setter of the older module. */
    | MalformedUrl(url: Value)
    /** `TypeError`: `len(naam)` in the older module's `__post_init__`. */
    | NoLength(typeName: string)
    /** `TypeError` from `mdto_class(**args)`: a keyword that names no field,
        or a field without a default that receives no argument. */
    | BadArguments

  /** A class as `elem_to_mdto` uses it: called with the keyword arguments,
      it returns the instance or raises. */
  type Constructor = map<string, Value> -> Result<Entity, DecodeError>

  /** What the nested parsers of `from_xml` close over: for every class,
      its parser table and the class itself (`parse_begrip` is
      `elem_to_mdto` with `BegripGegevens` and `begrip_parsers`). */
  datatype Env = Env(tables: Kind -> map<string, Parser>, classes: Kind -> Constructor)

  /** The environment `from_xml` sets up: the tables written in it and the
      classes of the current or of the older module. */
  function FromXmlEnv(d: Dialect, isUrl: string -> bool): (env: Env)
    ensures forall k :: env.tables(k) == Parsers(k)
    ensures forall k, args :: env.classes(k)(args) == Construct(k, args, d, isUrl)
  {
    Env(Parsers, (k: Kind) => (args: map<string, Value>) => Construct(k, args, d, isUrl))
  }

  // ---------------------------------------------------------------------
  // Specification
  // ---------------------------------------------------------------------

  /** `parse_text`: the element's text, `None` when it has none. */
  function TextValue(text: Option<string>): Value
  {
    match text
    case None => Absent
    case Some(s) => Str(s)
  }

  /** `parse_int`: `int(node.text)`. */
  function ParseInt(text: Option<string>): (r: Result<Value, DecodeError>)
    ensures r.Ok? ==> r.value.Int?
  {
    match text
    case None => Err(NoText)
    case Some(s) =>
      match ParseDecimal(s)
      case None => Err(NotAnInt(s))
      case Some(i) => Ok(Int(i))
  }

  /** `parse_identificatie`: kenmerk and bron are the texts of the first and
      the second child, whatever their tags. */
  function ParseIdentificatie(node: Element): Result<Value, DecodeError>
  {
    if |node.children| == 0 then Err(MissingChild(0))
    else if |node.children| == 1 then Err(MissingChild(1))
    else Ok(Node(Entity(Identificatie, [TextValue(node.children[0].text), TextValue(node.children[1].text)])))
  }

  /** `parse_verwijzing`: with exactly one child, a reference by name only;
      otherwise the first child's text and the identification parsed from
      the second child. */
  function ParseVerwijzing(node: Element): Result<Value, DecodeError>
  {
    if |node.children| == 1 then Ok(Node(Entity(Verwijzing, [TextValue(node.children[0].text), Absent])))
    else if |node.children| == 0 then Err(MissingChild(0))
    else
      var id :- ParseIdentificatie(node.children[1]);
      Ok(Node(Entity(Verwijzing, [TextValue(node.children[0].text), id])))
  }

  /** Applying the parser `p` to `node`. */
  function Parse(p: Parser, node: Element, env: Env): Result<Value, DecodeError>
    decreases node, 2
  {
    match p
    case Text => Ok(TextValue(node.text))
    case Integer => ParseInt(node.text)
    case IdentificatieParser => ParseIdentificatie(node)
    case VerwijzingParser => ParseVerwijzing(node)
    case Group(k) =>
      var e :- DecodeWith(env.classes(k), env.tables(k), node, env);
      Ok(Node(e))
  }

  /** A group parser returns, as a field value, the instance its class
      builds from the element. */
  lemma GroupParses(k: Kind, el: Element, env: Env, e: Entity)
    requires DecodeWith(env.classes(k), env.tables(k), el, env) == Ok(e)
    ensures Parse(Group(k), el, env) == Ok(Node(e))
  {
  }

  /** `elem_to_mdto(el, cls, parsers)`: fill the buckets, collapse them and
      call the class. */
  function DecodeWith(cls: Constructor, parsers: map<string, Parser>, el: Element, env: Env): Result<Entity, DecodeError>
    decreases el, 1
  {
    var buckets :- Fill(parsers, el, |el.children|, env);
    cls(CollapseAll(buckets))
  }

  /** The field a child names: its tag with the MDTO namespace removed. */
  function FieldOf(child: Element): string
  {
    RemovePrefix(child.tag, Namespace)
  }

  /** `{mdto_field: [] for mdto_field in parsers}`. */
  function EmptyBuckets(parsers: map<string, Parser>): map<string, seq<Value>>
  {
    map key | key in parsers :: []
  }

  /** The buckets after the first `n` children: each child's tag, stripped
      of the namespace, selects a table entry, and the parsed child is
      appended to that entry's bucket. The first failing child decides the
      error. */
  function Fill(parsers: map<string, Parser>, el: Element, n: nat, env: Env): (r: Result<map<string, seq<Value>>, DecodeError>)
    requires n <= |el.children|
    ensures r.Ok? ==> r.value.Keys == parsers.Keys
    decreases el, 0, n
  {
    if n == 0 then Ok(EmptyBuckets(parsers))
    else
      var buckets :- Fill(parsers, el, n - 1, env);
      var child := el.children[n - 1];
      var field := FieldOf(child);
      if field !in parsers then Err(UnknownTag(field))
      else
        var v :- Parse(parsers[field], child, env);
        Ok(buckets[field := buckets[field] + [v]])
  }

  /** The cleanup of one bucket: no item is `None`, one item is that item,
      more items stay a list in document order. */
  function Collapse(vs: seq<Value>): Value
  {
    if |vs| == 0 then Absent
    else if |vs| == 1 then vs[0]
    else List(vs)
  }

  function CollapseAll(buckets: map<string, seq<Value>>): map<string, Value>
  {
    map key | key in buckets :: Collapse(buckets[key])
  }

  /** The keyword argument for a field; a field without one takes its
      default, `None`. */
  function Arg(args: map<string, Value>, name: string): Value
  {
    if name in args then args[name] else Absent
  }

  /** The names of the fields in `fs`. */
  function NameSet(fs: seq<Field>): set<string>
  {
    set j | 0 <= j < |fs| :: fs[j].name
  }

  /** The dataclass `__init__` of `k` accepts these keyword arguments: each
      names a field, and every field without a default gets one. */
  predicate Accepts(k: Kind, args: map<string, Value>)
  {
    args.Keys <= NameSet(Fields(k))
    && forall j :: 0 <= j < |Fields(k)| && Mandatory(Fields(k)[j].card) ==> Fields(k)[j].name in args
  }

  /** `mdto_class(**args)`. The current classes store the arguments as they
      are; the older ones also run their setters and `__post_init__`. */
  function Construct(k: Kind, args: map<string, Value>, d: Dialect, isUrl: string -> bool): (r: Result<Entity, DecodeError>)
    ensures r.Ok? ==> Accepts(k, args) && r.value.kind == k && |r.value.values| == |Fields(k)|
    ensures r.Ok? && d == Current ==>
      forall j :: 0 <= j < |Fields(k)| ==> r.value.values[j] == Arg(args, Fields(k)[j].name)
    ensures d == Current ==> (r.Ok? <==> Accepts(k, args))
  {
    if !Accepts(k, args) then Err(BadArguments)
    else
      var values := seq(|Fields(k)|, j requires 0 <= j < |Fields(k)| => Arg(args, Fields(k)[j].name));
      match d
      case Current => Ok(Entity(k, values))
      case Legacy => LegacyConstruct(k, values, isUrl)
  }

  /** The older constructors: the dataclass `__init__` assigns the fields in
      declaration order, going through the URL setters, then
      `__post_init__` measures `naam`. */
  function LegacyConstruct(k: Kind, values: seq<Value>, isUrl: string -> bool): (r: Result<Entity, DecodeError>)
    requires |values| == |Fields(k)|
    ensures r.Ok? ==> r.value.kind == k && |r.value.values| == |Fields(k)|
  {
    match k
    case Raadpleeglocatie =>
      (match OnlineSetter(Given(values[1]), isUrl)
       case Err(url) => Err(MalformedUrl(url))
       case Ok(stored) => Ok(Entity(k, values[1 := stored])))
    case Bestand =>
      (match UrlBestandSetter(Given(values[6]), isUrl)
       case Err(url) => Err(MalformedUrl(url))
       case Ok(stored) =>
         if PostInit(values[1]).None? then Err(NoLength(TypeName(values[1])))
         else Ok(Entity(k, values[6 := stored])))
    case Informatieobject =>
      if PostInit(values[1]).None? then Err(NoLength(TypeName(values[1])))
      else Ok(Entity(k, values))
    case _ => Ok(Entity(k, values))
  }

  /** `from_xml` on a parsed document: the root's first child, stripped of
      the namespace, names the object kind. */
  function Decode(doc: Element, d: Dialect, isUrl: string -> bool): Result<Entity, DecodeError>
  {
    if |doc.children| == 0 then Err(MissingChild(0))
    else
      var body := doc.children[0];
      var objectType := RemovePrefix(body.tag, Namespace);
      var env := FromXmlEnv(d, isUrl);
      if objectType == "informatieobject" then DecodeWith(env.classes(Informatieobject), Parsers(Informatieobject), body, env)
      else if objectType == "bestand" then DecodeWith(env.classes(Bestand), Parsers(Bestand), body, env)
      else Err(UnexpectedRoot(objectType))
  }

  // ---------------------------------------------------------------------
  // Implementation: the bucket dict filled and cleaned up in loops
  // ---------------------------------------------------------------------

  /** `elem_to_mdto`. */
  method ElemToMdto(el: Element, cls: Constructor, parsers: map<string, Parser>, env: Env)
    returns (r: Result<Entity, DecodeError>)
    ensures r == DecodeWith(cls, parsers, el, env)
    decreases el, 1
  {
    var constructorArgs := CollectChildren(parsers, el, env);
    if constructorArgs.Err? {
      return Err(constructorArgs.error);
    }
    var cleaned := Cleanup(constructorArgs.value);
    r := cls(cleaned);
  }

  /** The loop over the children, appending each parsed child to the
      bucket of its field. */
  method CollectChildren(parsers: map<string, Parser>, el: Element, env: Env)
    returns (r: Result<map<string, seq<Value>>, DecodeError>)
    ensures r == Fill(parsers, el, |el.children|, env)
    decreases el, 0, |el.children| + 1
  {
    var constructorArgs := EmptyBuckets(parsers);
    for n := 0 to |el.children|
      invariant Fill(parsers, el, n, env) == Ok(constructorArgs)
    {
      var step := AddChild(parsers, el, n, constructorArgs, env);
      if step.Err? {
        FillErrorPersists(parsers, el, n + 1, |el.children|, env);
        return Err(step.error);
      }
      constructorArgs := step.value;
    }
    r := Ok(constructorArgs);
  }

  /** One pass of the loop over the children: look up the parser of child
      `n` and append what it returns to that child's bucket. */
  method AddChild(parsers: map<string, Parser>, el: Element, n: nat, constructorArgs: map<string, seq<Value>>, env: Env)
    returns (r: Result<map<string, seq<Value>>, DecodeError>)
    requires n < |el.children|
    requires Fill(parsers, el, n, env) == Ok(constructorArgs)
    ensures r == Fill(parsers, el, n + 1, env)
    decreases el, 0, n
  {
    var child := el.children[n];
    var field := FieldOf(child);
    if field !in parsers {
      return Err(UnknownTag(field));
    }
    var parsed := ParseChild(parsers[field], child, env);
    if parsed.Err? {
      return Err(parsed.error);
    }
    r := Ok(constructorArgs[field := constructorArgs[field] + [parsed.value]]);
  }

  /** One child through its parser; a data group goes back into
      `elem_to_mdto`. */
  method ParseChild(p: Parser, node: Element, env: Env) returns (r: Result<Value, DecodeError>)
    ensures r == Parse(p, node, env)
    decreases node, 2
  {
    if p.Group? {
      var e := ElemToMdto(node, env.classes(p.kind), env.tables(p.kind), env);
      if e.Err? {
        return Err(e.error);
      }
      return Ok(Node(e.value));
    }
    r := Parse(p, node, env);
  }

  /** The cleanup loop over the bucket dict. The cleaned arguments go into a
      second dict, since a bucket and a collapsed value have different types
      here. */
  method Cleanup(constructorArgs: map<string, seq<Value>>) returns (cleaned: map<string, Value>)
    ensures cleaned == CollapseAll(constructorArgs)
  {
    cleaned := map[];
    var pending := constructorArgs.Keys;
    while pending != {}
      invariant pending <= constructorArgs.Keys
      invariant cleaned == map key | key in constructorArgs.Keys - pending :: Collapse(constructorArgs[key])
      decreases pending
    {
      var argname :| argname in pending;
      var value := constructorArgs[argname];
      if |value| == 0 {
        cleaned := cleaned[argname := Absent];
      } else if |value| == 1 {
        cleaned := cleaned[argname := value[0]];
      } else {
        cleaned := cleaned[argname := List(value)];
      }
      pending := pending - {argname};
    }
  }

  /** `from_xml`. */
  method FromXml(doc: Element, d: Dialect, isUrl: string -> bool) returns (r: Result<Entity, DecodeError>)
    ensures r == Decode(doc, d, isUrl)
  {
    if |doc.children| == 0 {
      return Err(MissingChild(0));
    }
    var objectType := RemovePrefix(doc.children[0].tag, Namespace);
    var env := FromXmlEnv(d, isUrl);
    if objectType == "informatieobject" {
      r := ElemToMdto(doc.children[0], env.classes(Informatieobject), Parsers(Informatieobject), env);
    } else if objectType == "bestand" {
      r := ElemToMdto(doc.children[0], env.classes(Bestand), Parsers(Bestand), env);
    } else {
      r := Err(UnexpectedRoot(objectType));
    }
  }

  /** Once a child fails, the buckets stay failed with the same error. */
  lemma {:induction false} FillErrorPersists(parsers: map<string, Parser>, el: Element, i: nat, n: nat, env: Env)
    requires i <= n <= |el.children|
    requires Fill(parsers, el, i, env).Err?
    ensures Fill(parsers, el, n, env) == Fill(parsers, el, i, env)
    decreases n
  {
    if n > i {
      FillErrorPersists(parsers, el, i, n - 1, env);
    }
  }


  // ---------------------------------------------------------------------
  // Properties
  // ---------------------------------------------------------------------

  /** Child `c` gets through the loop body: its field has a parser, and the
      parser accepts it. */
  predicate ChildOk(parsers: map<string, Parser>, c: Element, env: Env)
  {
    FieldOf(c) in parsers && Parse(parsers[FieldOf(c)], c, env).Ok?
  }

  /** What a failing child raises: `KeyError` for a field without a parser,
      otherwise the parser's own error. */
  function ChildError(parsers: map<string, Parser>, c: Element, env: Env): DecodeError
    requires !ChildOk(parsers, c, env)
  {
    if FieldOf(c) !in parsers then UnknownTag(FieldOf(c)) else Parse(parsers[FieldOf(c)], c, env).error
  }

  /** The positions among the first `n` of `cs` whose element names field
      `f`, in document order. */
  function Positions(cs: seq<Element>, n: nat, f: string): (r: seq<nat>)
    requires n <= |cs|
    ensures |r| <= n
    ensures forall i :: 0 <= i < |r| ==> r[i] < n && FieldOf(cs[r[i]]) == f
    ensures forall i, j :: 0 <= i < j < |r| ==> r[i] < r[j]
  {
    if n == 0 then []
    else Positions(cs, n - 1, f) + (if FieldOf(cs[n - 1]) == f then [n - 1] else [])
  }

  /** `p` applied to the elements of `cs` at positions `ps`, in that order;
      the first failure is the result. */
  function ParseAt(p: Parser, cs: seq<Element>, ps: seq<nat>, env: Env): (r: Result<seq<Value>, DecodeError>)
    requires forall i :: 0 <= i < |ps| ==> ps[i] < |cs|
    ensures r.Ok? ==> |r.value| == |ps|
  {
    if |ps| == 0 then Ok([])
    else
      var init :- ParseAt(p, cs, ps[..|ps| - 1], env);
      var v :- Parse(p, cs[ps[|ps| - 1]], env);
      Ok(init + [v])
  }

  /** Parsing one more position appends its value. */
  lemma ParseAtSnoc(p: Parser, cs: seq<Element>, ps: seq<nat>, env: Env, init: seq<Value>, v: Value)
    requires 0 < |ps| && forall i :: 0 <= i < |ps| ==> ps[i] < |cs|
    requires ParseAt(p, cs, ps[..|ps| - 1], env) == Ok(init)
    requires Parse(p, cs[ps[|ps| - 1]], env) == Ok(v)
    ensures ParseAt(p, cs, ps, env) == Ok(init + [v])
  {
  }

  /** The loop of `elem_to_mdto` gets through the first `n` children exactly
      when each of them names a table key and parses. */
  lemma {:induction false} FillOkIff(parsers: map<string, Parser>, el: Element, n: nat, env: Env)
    requires n <= |el.children|
    ensures Fill(parsers, el, n, env).Ok? <==> forall i :: 0 <= i < n ==> ChildOk(parsers, el.children[i], env)
    decreases n
  {
    if n > 0 {
      FillOkIff(parsers, el, n - 1, env);
      assert Fill(parsers, el, n, env).Ok? <==>
        Fill(parsers, el, n - 1, env).Ok? && ChildOk(parsers, el.children[n - 1], env);
    }
  }

  /** After the loop has got through the first `n` children, the bucket of
      every key `f` holds the parsed children that name `f`, in document
      order. */
  lemma {:induction false} FillBuckets(parsers: map<string, Parser>, el: Element, n: nat, env: Env)
    requires n <= |el.children| && Fill(parsers, el, n, env).Ok?
    ensures forall f :: f in parsers ==>
      ParseAt(parsers[f], el.children, Positions(el.children, n, f), env) == Ok(Fill(parsers, el, n, env).value[f])
    decreases n
  {
    if n > 0 {
      var prev := Fill(parsers, el, n - 1, env);
      var v := FillStep(parsers, el, n, env);
      FillBuckets(parsers, el, n - 1, env);
      var field, buckets := FieldOf(el.children[n - 1]), Fill(parsers, el, n, env).value;
      forall f | f in parsers
        ensures ParseAt(parsers[f], el.children, Positions(el.children, n, f), env) == Ok(buckets[f])
      {
        PositionsStep(parsers[f], el.children, n, f, prev.value[f], v, env);
        if f == field {
          assert buckets[f] == prev.value[f] + [v];
        } else {
          assert buckets[f] == prev.value[f];
        }
      }
    }
  }

  /** The last of the first `n` children got through, and its parsed value
      `v` was appended to the bucket of its field. */
  lemma FillStep(parsers: map<string, Parser>, el: Element, n: nat, env: Env) returns (v: Value)
    requires 0 < n <= |el.children| && Fill(parsers, el, n, env).Ok?
    ensures Fill(parsers, el, n - 1, env).Ok?
    ensures FieldOf(el.children[n - 1]) in parsers
    ensures Parse(parsers[FieldOf(el.children[n - 1])], el.children[n - 1], env) == Ok(v)
    ensures var prev := Fill(parsers, el, n - 1, env).value; var field := FieldOf(el.children[n - 1]);
      Fill(parsers, el, n, env).value == prev[field := prev[field] + [v]]
  {
    v := Parse(parsers[FieldOf(el.children[n - 1])], el.children[n - 1], env).value;
  }

  /** One more child: it joins the parsed run of `f` exactly when it names
      `f`. */
  lemma PositionsStep(p: Parser, cs: seq<Element>, n: nat, f: string, bucket: seq<Value>, v: Value, env: Env)
    requires 0 < n <= |cs|
    requires ParseAt(p, cs, Positions(cs, n - 1, f), env) == Ok(bucket)
    requires FieldOf(cs[n - 1]) == f ==> Parse(p, cs[n - 1], env) == Ok(v)
    ensures ParseAt(p, cs, Positions(cs, n, f), env) == Ok(if FieldOf(cs[n - 1]) == f then bucket + [v] else bucket)
  {
    var before := Positions(cs, n - 1, f);
    if FieldOf(cs[n - 1]) == f {
      assert Positions(cs, n, f) == before + [n - 1];
      assert (before + [n - 1])[..|before|] == before;
      assert ParseAt(p, cs, before + [n - 1], env) == Ok(bucket + [v]);
    } else {
      assert Positions(cs, n, f) == before;
    }
  }

  /** When a child fails, the loop raises that child's error, provided every
      child before it got through. */
  lemma FillFirstError(parsers: map<string, Parser>, el: Element, n: nat, i: nat, env: Env)
    requires i < n <= |el.children|
    requires forall i' :: 0 <= i' < i ==> ChildOk(parsers, el.children[i'], env)
    requires !ChildOk(parsers, el.children[i], env)
    ensures Fill(parsers, el, n, env) == Err(ChildError(parsers, el.children[i], env))
  {
    FillOkIff(parsers, el, i, env);
    var c := el.children[i];
    assert Fill(parsers, el, i + 1, env) == Err(ChildError(parsers, c, env)) by {
      assert Fill(parsers, el, i, env).Ok?;
    }
    FillErrorPersists(parsers, el, i + 1, n, env);
  }

  /** A child whose tag has no parser is not skipped: the whole element fails
      with `KeyError`, unless an earlier child failed first. */
  lemma UnknownTagFails(parsers: map<string, Parser>, el: Element, i: nat, env: Env)
    requires i < |el.children| && FieldOf(el.children[i]) !in parsers
    ensures Fill(parsers, el, |el.children|, env).Err?
  {
    FillOkIff(parsers, el, |el.children|, env);
  }

  /** What the encoder emits elements for: nothing for `None`, each item of a
      list, otherwise the value itself. */
  function Items(v: Value): (r: seq<Value>)
    ensures |r| == (match v case Absent => 0 case List(xs) => |xs| case _ => 1)
  {
    match v
    case Absent => []
    case List(xs) => xs
    case _ => [v]
  }

  /** The collapse undoes the listing of a value's elements unless that value
      is an empty or one-item list; listing the collapsed bucket gives the
      bucket back unless its one item is `None` or a list. */
  lemma CollapseInverse(v: Value, vs: seq<Value>)
    ensures !(v.List? && |v.items| <= 1) ==> Collapse(Items(v)) == v
    ensures !(|vs| == 1 && (vs[0].Absent? || vs[0].List?)) ==> Items(Collapse(vs)) == vs
  {
    if |vs| == 1 {
      assert [vs[0]] == vs;
    }
  }

  /** Only the exact MDTO namespace is removed: a qualified tag names its
      local part, and any other tag is taken as it is. */
  lemma NamespaceStripped(t: string, text: Option<string>, children: seq<Element>)
    ensures FieldOf(Element(Namespace + t, text, children)) == t
    ensures !(Namespace <= t) ==> FieldOf(Element(t, text, children)) == t
  {
    assert (Namespace + t)[..|Namespace|] == Namespace;
  }

  /** `parse_int` reads back the decimal text `str(i)` writes. */
  lemma ParseIntRoundTrip(i: int)
    ensures ParseInt(Some(IntToString(i))) == Ok(Int(i))
  {
    IntToStringRoundTrip(i);
  }

  /** The tables `from_xml` uses always produce arguments the class accepts:
      the buckets are keyed by the table, and the table's keys are exactly
      the field names. */
  lemma DecodedArgumentsAccepted(k: Kind, buckets: map<string, seq<Value>>)
    requires HasTable(k) && buckets.Keys == Parsers(k).Keys
    ensures Accepts(k, CollapseAll(buckets))
    ensures forall j :: 0 <= j < |Fields(k)| ==> Fields(k)[j].name in buckets
  {
    ParserTablesMatchFields(k);
    KeysOfTable(Fields(k), Parsers(k), buckets);
  }

  lemma KeysOfTable(fs: seq<Field>, table: map<string, Parser>, buckets: map<string, seq<Value>>)
    requires Covers(fs, table) && KeysAreNames(fs, table) && buckets.Keys == table.Keys
    ensures CollapseAll(buckets).Keys <= NameSet(fs)
    ensures forall j :: 0 <= j < |fs| ==> fs[j].name in buckets
  {
    forall name | name in CollapseAll(buckets) ensures name in NameSet(fs) {
      var j :| 0 <= j < |fs| && fs[j].name == name;
    }
  }

  /** `elem_to_mdto` with a table of `from_xml` and a current class: it
      succeeds exactly when every child names a field and parses, and then
      each field holds its collapsed bucket, the children naming it parsed in
      document order by the parser its declared type calls for. A field no
      child names is `None`, mandatory or not. */
  lemma DecodedFields(k: Kind, el: Element, isUrl: string -> bool)
    requires HasTable(k)
    ensures var env := FromXmlEnv(Current, isUrl);
      var r := DecodeWith(env.classes(k), Parsers(k), el, env);
      (r.Ok? <==> forall i :: 0 <= i < |el.children| ==> ChildOk(Parsers(k), el.children[i], env))
      && (r.Ok? ==>
            r.value.kind == k && |r.value.values| == |Fields(k)|
            && forall j :: 0 <= j < |Fields(k)| ==>
                 var run := ParseAt(ParserFor(Fields(k)[j].ty), el.children, Positions(el.children, |el.children|, Fields(k)[j].name), env);
                 run.Ok? && r.value.values[j] == Collapse(run.value))
  {
    var env := FromXmlEnv(Current, isUrl);
    var n := |el.children|;
    FillOkIff(Parsers(k), el, n, env);
    var filled := Fill(Parsers(k), el, n, env);
    if filled.Ok? {
      DecodedValues(k, el, isUrl, filled.value);
    }
  }

  /** The success case of `DecodedFields`. */
  lemma DecodedValues(k: Kind, el: Element, isUrl: string -> bool, buckets: map<string, seq<Value>>)
    requires HasTable(k) && Fill(Parsers(k), el, |el.children|, FromXmlEnv(Current, isUrl)) == Ok(buckets)
    ensures var env := FromXmlEnv(Current, isUrl);
      var r := DecodeWith(env.classes(k), Parsers(k), el, env);
      r.Ok? && r.value.kind == k && |r.value.values| == |Fields(k)|
      && forall j :: 0 <= j < |Fields(k)| ==>
           var run := ParseAt(ParserFor(Fields(k)[j].ty), el.children, Positions(el.children, |el.children|, Fields(k)[j].name), env);
           run.Ok? && r.value.values[j] == Collapse(run.value)
  {
    var env := FromXmlEnv(Current, isUrl);
    var n := |el.children|;
    DecodedArgumentsAccepted(k, buckets);
    var r := Construct(k, CollapseAll(buckets), Current, isUrl);
    assert DecodeWith(env.classes(k), Parsers(k), el, env) == r;
    forall j | 0 <= j < |Fields(k)|
      ensures ParseAt(ParserFor(Fields(k)[j].ty), el.children, Positions(el.children, n, Fields(k)[j].name), env) == Ok(buckets[Fields(k)[j].name])
      ensures r.value.values[j] == Collapse(buckets[Fields(k)[j].name])
    {
      DecodedBucket(k, el, env, buckets, j);
      assert r.value.values[j] == Arg(CollapseAll(buckets), Fields(k)[j].name);
    }
  }

  /** The bucket of one field holds its children, parsed in document order
      by the parser its declared type calls for. */
  lemma DecodedBucket(k: Kind, el: Element, env: Env, buckets: map<string, seq<Value>>, j: nat)
    requires HasTable(k) && j < |Fields(k)| && Fill(Parsers(k), el, |el.children|, env) == Ok(buckets)
    ensures Fields(k)[j].name in buckets
    ensures ParseAt(ParserFor(Fields(k)[j].ty), el.children, Positions(el.children, |el.children|, Fields(k)[j].name), env)
      == Ok(buckets[Fields(k)[j].name])
  {
    FillBuckets(Parsers(k), el, |el.children|, env);
    ParserTablesMatchFields(k);
  }

  /** An element with no children decodes, in the current module, to an
      instance whose every field is `None`: a missing mandatory child is not
      a decoding error. */
  lemma EmptyElementDecodes(k: Kind, tag: string, text: Option<string>, isUrl: string -> bool)
    requires HasTable(k)
    ensures var env := FromXmlEnv(Current, isUrl);
      DecodeWith(env.classes(k), Parsers(k), Element(tag, text, []), env) == Ok(Entity(k, seq(|Fields(k)|, _ => Absent)))
  {
    var el := Element(tag, text, []);
    DecodedFields(k, el, isUrl);
    var env := FromXmlEnv(Current, isUrl);
    var r := DecodeWith(env.classes(k), Parsers(k), el, env);
    var none := seq(|Fields(k)|, _ => Absent);
    forall j | 0 <= j < |Fields(k)| ensures r.value.values[j] == none[j] {
      assert Positions(el.children, 0, Fields(k)[j].name) == [];
    }
    assert r.value.values == none;
  }

  /** The root's first child names the object: `informatieobject` and
      `bestand` (with or without the namespace) are decoded with their
      tables and classes, anything else is a `ValueError`, and a root
      without children an `IndexError`. */
  lemma RootDispatch(doc: Element, d: Dialect, isUrl: string -> bool)
    ensures |doc.children| == 0 ==> Decode(doc, d, isUrl) == Err(MissingChild(0))
    ensures |doc.children| > 0 ==>
      var env := FromXmlEnv(d, isUrl);
      var body := doc.children[0];
      (FieldOf(body) == "informatieobject" ==>
        Decode(doc, d, isUrl) == DecodeWith(env.classes(Informatieobject), Parsers(Informatieobject), body, env))
      && (FieldOf(body) == "bestand" ==>
        Decode(doc, d, isUrl) == DecodeWith(env.classes(Bestand), Parsers(Bestand), body, env))
      && (FieldOf(body) != "informatieobject" && FieldOf(body) != "bestand" ==>
        Decode(doc, d, isUrl) == Err(UnexpectedRoot(FieldOf(body))))
    ensures Decode(doc, d, isUrl).Ok? ==> IsObjectKind(Decode(doc, d, isUrl).value.kind)
  {
  }
}
