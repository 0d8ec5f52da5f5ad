/** `Serializable.validate` and its overrides: a read-only walk over the
    declared fields that stops at the first violation and reports it with
    the dotted field path of `ValidationError`. */
module Validation {
  import opened Wrappers
  import opened SeqFacts
  import opened Schema
  import Xml
  import Urls

  /** The messages `validate` can raise with. */
  datatype Message =
    | MandatoryEmpty
    | NoSequences(got: string)
    | ListItemsMustBe(expected: string, found: seq<string>)
    | ExpectedType(expected: string, got: string)
    | MalformedUrl(url: Value)

  datatype ValidationError = ValidationError(fieldPath: seq<string>, msg: Message)

  /** Either a `ValidationError`, or the `TypeError` the URL helper raises on
      a value it cannot iterate. */
  datatype Failure = Invalid(error: ValidationError) | NotIterable(typeName: string)

  /** A logged "exceeds recommended length" warning. */
  datatype Warning = LongName(owner: string, name: string)

  /** The fixed path of the `raadpleeglocatieOnline` URL error. */
  const RaadpleeglocatiePath: seq<string> :=
    ["informatieobject", "raadpleeglocatie", "RaadpleeglocatieGegevens", "raadpleeglocatieOnline"]

  /** The fixed path of the `URLBestand` URL error. */
  const UrlBestandPath: seq<string> := ["bestand", "URLBestand"]

  // ---------------------------------------------------------------------
  // The text of an error
  // ---------------------------------------------------------------------

  /** The quote `repr` puts around a string: `"` when the string holds a
      `'` and no `"`, `'` otherwise. */
  function ReprQuote(s: string): char
  {
    if '\'' in s && '"' !in s then '"' else '\''
  }

  /** Characters up to U+00FF that `repr` writes as `\xhh`: the C0 controls
      other than tab, line feed and carriage return, DEL, the C1 controls,
      the no-break space and the soft hyphen. */
  predicate HexEscaped(c: char)
  {
    (c as int < 0x20 && c != '\t' && c != '\n' && c != '\r')
    || (0x7f <= c as int <= 0xa0) || c as int == 0xad
  }

  function HexDigit(d: nat): (c: char)
    requires d < 16
  {
    "0123456789abcdef"[d]
  }

  /** How `repr` writes one character of a string quoted with `q`. */
  function ReprChar(c: char, q: char): (r: string)
    ensures r == [c] <==> c != q && c != '\\' && c != '\t' && c != '\n' && c != '\r' && !HexEscaped(c)
    ensures r != [c] ==> |r| >= 2 && r[0] == '\\'
  {
    if c == q || c == '\\' then ['\\', c]
    else if c == '\t' then "\\t"
    else if c == '\n' then "\\n"
    else if c == '\r' then "\\r"
    else if HexEscaped(c) then "\\x" + [HexDigit(c as int / 16), HexDigit(c as int % 16)]
    else [c]
  }

  /** The characters of `s` as `repr` writes them between quotes `q`. */
  function ReprBody(s: string, q: char): (r: string)
    ensures |r| >= |s|
  {
    if s == [] then [] else ReprBody(s[..|s| - 1], q) + ReprChar(s[|s| - 1], q)
  }

  /** Python's `repr` of a string. */
  function StrRepr(s: string): (r: string)
    ensures |r| >= |s| + 2 && r[0] == ReprQuote(s) && r[|r| - 1] == ReprQuote(s)
  {
    [ReprQuote(s)] + ReprBody(s, ReprQuote(s)) + [ReprQuote(s)]
  }

  /** A character `repr` copies unchanged inside single quotes. */
  predicate PlainReprChar(c: char)
  {
    c != '\'' && c != '\\' && c != '\t' && c != '\n' && c != '\r' && !HexEscaped(c)
  }

  /** A string of such characters is written between single quotes as it
      is. */
  lemma {:induction false} PlainRepr(s: string)
    requires forall i :: 0 <= i < |s| ==> PlainReprChar(s[i])
    ensures StrRepr(s) == "'" + s + "'"
  {
    assert ReprQuote(s) == '\'';
    PlainReprBody(s, '\'');
  }

  /** Characters `repr` copies are copied in order. */
  lemma {:induction false} PlainReprBody(s: string, q: char)
    requires forall i :: 0 <= i < |s| ==> ReprChar(s[i], q) == [s[i]]
    ensures ReprBody(s, q) == s
  {
    if s != [] {
      PlainReprBody(s[..|s| - 1], q);
      assert s[..|s| - 1] + [s[|s| - 1]] == s;
    }
  }

  /** A string holding `'` and no `"` is put between double quotes, and its
      `'` is then not escaped. */
  lemma ApostropheRepr()
    ensures StrRepr("it's") == "\"it's\""
  {
    assert ReprQuote("it's") == '"';
    PlainReprBody("it's", '"');
  }

  /** Tab and NUL are escaped. */
  lemma ControlRepr()
    ensures StrRepr("\t") == "'\\t'"
    ensures StrRepr([0 as char]) == "'\\x00'"
  {
    assert "\t"[..0] == [];
    assert [0 as char][..0] == [];
  }

  /** Python's `repr` of a value inside a list: a string quoted and escaped,
      an integer in decimal, `None`, a nested list, or, for a data group,
      its class name (the data class's own `repr` is not modelled). */
  function ItemRepr(v: Value): string
    decreases v, 1
  {
    match v
    case Str(s) => StrRepr(s)
    case Int(i) => Xml.IntToString(i)
    case Absent => "None"
    case Node(e) => ClassName(e.kind)
    case List(items) => "[" + Join(ItemReprs(v, |items|), ", ") + "]"
  }

  /** The `repr`s of the first `n` items of a list. */
  function ItemReprs(v: Value, n: nat): (r: seq<string>)
    requires v.List? && n <= |v.items|
    ensures |r| == n
    decreases v, 0, n
  {
    if n == 0 then [] else ItemReprs(v, n - 1) + [ItemRepr(v.items[n - 1])]
  }

  /** Python's `str()` of a URL value, as the f-string of the malformed-URL
      message writes it: a string as it is, a list as `repr` of its items
      between brackets. */
  function ValueText(v: Value): string
  {
    if v.Str? then v.s else ItemRepr(v)
  }

  function MessageText(m: Message): string
  {
    match m
    case MandatoryEmpty => "mandatory field cannot be empty or None"
    case NoSequences(got) => "got type " + got + ", but field does not accept sequences"
    case ListItemsMustBe(expected, found) => "list items must be " + expected + ", but found " + Join(found, ", ")
    case ExpectedType(expected, got) => "expected type " + expected + ", got " + got
    case MalformedUrl(url) => "url " + ValueText(url) + " is malformed"
  }

  /** `str(ValidationError)`: the dotted path, a colon, a newline, a tab and
      the message. */
  function Describe(err: ValidationError): string
  {
    Join(err.fieldPath, ".") + ":\n\t" + MessageText(err.msg)
  }

  /** The text of a URL error has the shape the URL test of the repository
      matches: the dotted path, `:`, white space, `url `, the value and
      ` is malformed`. */
  lemma UrlErrorText(path: seq<string>, url: Value)
    ensures var t := Describe(ValidationError(path, MalformedUrl(url)));
      var head := Join(path, ".") + ":\n\t" + "url ";
      |t| == |head| + |ValueText(url)| + |" is malformed"|
      && t[..|head|] == head
      && t[|head|..|head| + |ValueText(url)|] == ValueText(url)
      && t[|head| + |ValueText(url)|..] == " is malformed"
  {
    var head, tail := Join(path, ".") + ":\n\t" + "url ", " is malformed";
    Regroup(Join(path, ".") + ":\n\t", "url ", ValueText(url), tail);
    ThreeParts(head, ValueText(url), tail);
  }

  /** The type names occurring in a list, each once, in order of first occurrence. */
  function DistinctTypeNames(items: seq<Value>): (r: seq<string>)
    ensures forall n :: n in r <==> exists i :: 0 <= i < |items| && TypeName(items[i]) == n
    ensures forall i, j :: 0 <= i < j < |r| ==> r[i] != r[j]
  {
    if |items| == 0 then []
    else
      var rest := DistinctTypeNames(items[..|items| - 1]);
      var n := TypeName(items[|items| - 1]);
      assert forall i :: 0 <= i < |items| - 1 ==> items[..|items| - 1][i] == items[i];
      if n in rest then rest else rest + [n]
  }

  /** The long-name warning emitted when a name exceeds `MaxNaamLength`. */
  function NameWarning(owner: string, v: Value): (r: seq<Warning>)
    ensures |r| <= 1
    ensures |r| == 1 <==> v.Str? && |v.s| > MaxNaamLength
  {
    if v.Str? && |v.s| > MaxNaamLength then [LongName(owner, v.s)] else []
  }

  /** The outcome of the structural check of one value against its
      declaration, before any recursion. */
  datatype Verdict = Pass | Reject(msg: Message) | Descend(child: Entity)

  /** What `validate` decides for a field declared as `f` holding `v`. */
  function Structural(f: Field, v: Value): (r: Verdict)
    ensures r.Descend? ==> v == Node(r.child)
  {
    if !Mandatory(f.card) && Falsy(v) then Pass
    else if Falsy(v) then Reject(MandatoryEmpty)
    else if v.List? then
      if !Listable(f.card) then Reject(NoSequences("list"))
      else if exists i :: 0 <= i < |v.items| && !IsInstance(v.items[i], f.ty) then
        Reject(ListItemsMustBe(TypeLabel(f.ty), DistinctTypeNames(v.items)))
      else Pass
    else if !IsInstance(v, f.ty) then Reject(ExpectedType(TypeLabel(f.ty), TypeName(v)))
    else if v.Node? then Descend(v.e)
    else Pass
  }

  /** The check of the field declared as `f` at position `j` of `e`, whose
      class is called `cls`, recursing into a nested data group and prefixing
      its error path with this class and field. */
  function CheckField(e: Entity, cls: string, f: Field, j: nat, isUrl: string -> bool): Result<seq<Warning>, Failure>
    decreases e, 0, 0
  {
    var v := if j < |e.values| then e.values[j] else Absent;
    var path := [cls, f.name];
    match Structural(f, v)
    case Pass => Ok([])
    case Reject(m) => Err(Invalid(ValidationError(path, m)))
    case Descend(c) =>
      match Validate(c, isUrl)
      case Ok(ws) => Ok(ws)
      case Err(Invalid(deeper)) => Err(Invalid(ValidationError(path + deeper.fieldPath, deeper.msg)))
      case Err(other) => Err(other)
  }

  /** The fields `fs[from..]` of `e` in declaration order, stopping at the
      first failure. */
  function CheckFields(e: Entity, cls: string, fs: seq<Field>, from: nat, isUrl: string -> bool): Result<seq<Warning>, Failure>
    decreases e, 1, |fs| - from
  {
    if from >= |fs| then Ok([])
    else
      var w1 :- CheckField(e, cls, fs[from], from, isUrl);
      var w2 :- CheckFields(e, cls, fs, from + 1, isUrl);
      Ok(w1 + w2)
  }

  /** The URL check shared by the two overrides. */
  function CheckUrl(v: Value, path: seq<string>, isUrl: string -> bool): Result<seq<Warning>, Failure>
  {
    match Urls.ValidateUrlOrUrls(v, isUrl)
    case None => Err(NotIterable(TypeName(v)))
    case Some(true) => Ok([])
    case Some(false) => Err(Invalid(ValidationError(path, MalformedUrl(v))))
  }

  /** The long-name warning an override logs once the structural check has
      passed; `Bestand` logs it before its URL check can raise. */
  function NameWarnings(e: Entity): seq<Warning>
  {
    match e.kind
    case Verwijzing => NameWarning("VerwijzingGegevens.verwijzingNaam", Get(e, 0))
    case Informatieobject => NameWarning("Informatieobject.naam", Get(e, 1))
    case Bestand => NameWarning("Bestand.naam", Get(e, 1))
    case _ => []
  }

  /** What the subclass overrides add once the structural check has passed. */
  function Extra(e: Entity, isUrl: string -> bool): Result<seq<Warning>, Failure>
  {
    match e.kind
    case Raadpleeglocatie => CheckUrl(Get(e, 1), RaadpleeglocatiePath, isUrl)
    case Bestand =>
      var more :- CheckUrl(Get(e, 6), UrlBestandPath, isUrl);
      Ok(NameWarnings(e) + more)
    case _ => Ok(NameWarnings(e))
  }

  /** `e.validate()`: the warnings logged on success, or the first failure. */
  function Validate(e: Entity, isUrl: string -> bool): Result<seq<Warning>, Failure>
    decreases e, 2, 0
  {
    var ws :- CheckFields(e, ClassName(e.kind), Fields(e.kind), 0, isUrl);
    var more :- Extra(e, isUrl);
    Ok(ws + more)
  }

  // ---------------------------------------------------------------------
  // The log
  // ---------------------------------------------------------------------

  /** The warnings `e.validate()` logs, whether it then returns or raises:
      those of the fields walked up to and including the first failing one,
      then, once every field has passed, the override's name warning. */
  function Logged(e: Entity, isUrl: string -> bool): seq<Warning>
    decreases e, 2, 0
  {
    var cls, fs := ClassName(e.kind), Fields(e.kind);
    var ws := LoggedFields(e, cls, fs, 0, isUrl);
    if CheckFields(e, cls, fs, 0, isUrl).Err? then ws else ws + NameWarnings(e)
  }

  /** What the walk over `fs[from..]` logs before it stops. */
  function LoggedFields(e: Entity, cls: string, fs: seq<Field>, from: nat, isUrl: string -> bool): seq<Warning>
    decreases e, 1, |fs| - from
  {
    if from >= |fs| then []
    else
      var w1 := LoggedField(e, fs[from], from, isUrl);
      if CheckField(e, cls, fs[from], from, isUrl).Err? then w1
      else w1 + LoggedFields(e, cls, fs, from + 1, isUrl)
  }

  /** What the check of one field logs: only a nested data group logs. */
  function LoggedField(e: Entity, f: Field, j: nat, isUrl: string -> bool): seq<Warning>
    decreases e, 0, 0
  {
    var v := if j < |e.values| then e.values[j] else Absent;
    match Structural(f, v)
    case Descend(c) => Logged(c, isUrl)
    case _ => []
  }

  /** On success `validate` returns exactly what it logged. */
  lemma {:induction false} LoggedOnSuccess(e: Entity, isUrl: string -> bool)
    requires Validate(e, isUrl).Ok?
    ensures Validate(e, isUrl).value == Logged(e, isUrl)
    decreases e, 2, 0
  {
    var cls, fs := ClassName(e.kind), Fields(e.kind);
    LoggedFieldsOnSuccess(e, cls, fs, 0, isUrl);
    var ws := CheckFields(e, cls, fs, 0, isUrl).value;
    if e.kind == Bestand {
      assert Extra(e, isUrl).value == NameWarnings(e) + CheckUrl(Get(e, 6), UrlBestandPath, isUrl).value;
    }
  }

  lemma {:induction false} LoggedFieldsOnSuccess(e: Entity, cls: string, fs: seq<Field>, from: nat, isUrl: string -> bool)
    requires CheckFields(e, cls, fs, from, isUrl).Ok?
    ensures CheckFields(e, cls, fs, from, isUrl).value == LoggedFields(e, cls, fs, from, isUrl)
    decreases e, 1, |fs| - from
  {
    if from < |fs| {
      LoggedFieldOnSuccess(e, cls, fs[from], from, isUrl);
      LoggedFieldsOnSuccess(e, cls, fs, from + 1, isUrl);
    }
  }

  lemma {:induction false} LoggedFieldOnSuccess(e: Entity, cls: string, f: Field, j: nat, isUrl: string -> bool)
    requires CheckField(e, cls, f, j, isUrl).Ok?
    ensures CheckField(e, cls, f, j, isUrl).value == LoggedField(e, f, j, isUrl)
    decreases e, 0, 0
  {
    var v := if j < |e.values| then e.values[j] else Absent;
    match Structural(f, v)
    case Descend(c) =>
      LoggedOnSuccess(c, isUrl);
    case _ =>
  }

  /** A warning logged before a failure is not lost: a `Bestand` whose
      fields pass, whose name is too long and whose `URLBestand` is
      malformed logs the long-name warning and then raises. */
  lemma BestandWarnsThenRaises(e: Entity, isUrl: string -> bool)
    requires e.kind == Bestand && CheckFields(e, ClassName(Bestand), Fields(Bestand), 0, isUrl).Ok?
    requires Get(e, 1).Str? && |Get(e, 1).s| > MaxNaamLength
    requires CheckUrl(Get(e, 6), UrlBestandPath, isUrl).Err?
    ensures Validate(e, isUrl).Err? && Validate(e, isUrl).error == CheckUrl(Get(e, 6), UrlBestandPath, isUrl).error
    ensures LongName("Bestand.naam", Get(e, 1).s) in Logged(e, isUrl)
  {
    var ws := LoggedFields(e, ClassName(Bestand), Fields(Bestand), 0, isUrl);
    assert NameWarnings(e) == [LongName("Bestand.naam", Get(e, 1).s)];
    assert Logged(e, isUrl) == ws + NameWarnings(e);
    assert Logged(e, isUrl)[|ws|] == LongName("Bestand.naam", Get(e, 1).s);
  }

  // ---------------------------------------------------------------------
  // The verdict on a single field
  // ---------------------------------------------------------------------

  /** The rules `validate` applies to one field: falsy optional values are
      skipped, falsy mandatory ones (`None`, `""`, `0`, `[]`) rejected, lists
      are only allowed where the declaration is a union with a list, list
      items are only type-checked (never validated themselves), a scalar of
      the wrong type is rejected, and only a scalar data group is descended
      into. */
  lemma FieldVerdicts(f: Field, v: Value)
    ensures var r := Structural(f, v);
      && (!Mandatory(f.card) && Falsy(v) ==> r == Pass)
      && (Mandatory(f.card) && Falsy(v) ==> r == Reject(MandatoryEmpty))
      && (!Falsy(v) && v.List? && !Listable(f.card) ==> r == Reject(NoSequences("list")))
      && (!Falsy(v) && v.List? && Listable(f.card) ==>
            (r == Pass <==> forall i :: 0 <= i < |v.items| ==> IsInstance(v.items[i], f.ty)))
      && (!Falsy(v) && !v.List? && !IsInstance(v, f.ty) ==> r == Reject(ExpectedType(TypeLabel(f.ty), TypeName(v))))
      && (r.Descend? <==> !Falsy(v) && v.Node? && IsInstance(v, f.ty))
  {
  }

  /** A rejected list names the expected item type and every item type it found. */
  lemma ListItemsReport(f: Field, v: Value)
    requires Structural(f, v).Reject? && Structural(f, v).msg.ListItemsMustBe?
    ensures v.List? && Listable(f.card)
    ensures var m := Structural(f, v).msg;
      && m.expected == TypeLabel(f.ty)
      && (exists i :: 0 <= i < |v.items| && !IsInstance(v.items[i], f.ty))
      && forall n :: n in m.found <==> exists i :: 0 <= i < |v.items| && TypeName(v.items[i]) == n
  {
  }

  /** An error from a nested data group is re-raised with the class name and
      field name prepended and the message unchanged; a nested success is
      the field's success. */
  lemma NestedError(e: Entity, cls: string, f: Field, j: nat, isUrl: string -> bool)
    requires j < |e.values| && Structural(f, e.values[j]).Descend?
    ensures var c := e.values[j].e; var r := CheckField(e, cls, f, j, isUrl);
      && (Validate(c, isUrl).Ok? ==> r == Validate(c, isUrl))
      && (Validate(c, isUrl).Err? && Validate(c, isUrl).error.Invalid? ==>
            r == Err(Invalid(ValidationError([cls, f.name] + Validate(c, isUrl).error.error.fieldPath,
                                             Validate(c, isUrl).error.error.msg))))
      && (Validate(c, isUrl).Err? && !Validate(c, isUrl).error.Invalid? ==> r == Validate(c, isUrl))
  {
  }

  // ---------------------------------------------------------------------
  // Walking the fields
  // ---------------------------------------------------------------------

  /** The walk succeeds exactly when every remaining field passes. */
  lemma {:induction false} CheckFieldsOkIff(e: Entity, cls: string, fs: seq<Field>, from: nat, isUrl: string -> bool)
    ensures CheckFields(e, cls, fs, from, isUrl).Ok?
        <==> forall j :: from <= j < |fs| ==> CheckField(e, cls, fs[j], j, isUrl).Ok?
    decreases |fs| - from
  {
    if from < |fs| {
      CheckFieldsOkIff(e, cls, fs, from + 1, isUrl);
      var head := CheckField(e, cls, fs[from], from, isUrl);
      if head.Ok? {
        assert CheckFields(e, cls, fs, from, isUrl).Ok? <==> CheckFields(e, cls, fs, from + 1, isUrl).Ok?;
        if CheckFields(e, cls, fs, from + 1, isUrl).Ok? {
          forall j | from <= j < |fs| ensures CheckField(e, cls, fs[j], j, isUrl).Ok? {
            if j > from {
              assert from + 1 <= j;
            }
          }
        }
      } else {
        assert CheckFields(e, cls, fs, from, isUrl).Err?;
      }
    }
  }

  /** The walk reports the failure of the first failing field. */
  lemma {:induction false} CheckFieldsFirstFailure(e: Entity, cls: string, fs: seq<Field>, from: nat, j: nat, isUrl: string -> bool)
    requires from <= j < |fs|
    requires forall i :: from <= i < j ==> CheckField(e, cls, fs[i], i, isUrl).Ok?
    requires CheckField(e, cls, fs[j], j, isUrl).Err?
    ensures CheckFields(e, cls, fs, from, isUrl) == Err(CheckField(e, cls, fs[j], j, isUrl).error)
    decreases j - from
  {
    var head := CheckField(e, cls, fs[from], from, isUrl);
    if from < j {
      assert head.Ok?;
      CheckFieldsFirstFailure(e, cls, fs, from + 1, j, isUrl);
      assert CheckFields(e, cls, fs, from + 1, isUrl).Err?;
    } else {
      assert head.Err?;
    }
  }

  /** Every failure of the walk is the failure of some field. */
  lemma {:induction false} CheckFieldsFailureFrom(e: Entity, cls: string, fs: seq<Field>, from: nat, isUrl: string -> bool)
    requires CheckFields(e, cls, fs, from, isUrl).Err?
    ensures exists j :: from <= j < |fs| && CheckField(e, cls, fs[j], j, isUrl) == Err(CheckFields(e, cls, fs, from, isUrl).error)
    decreases |fs| - from
  {
    if CheckField(e, cls, fs[from], from, isUrl).Ok? {
      CheckFieldsFailureFrom(e, cls, fs, from + 1, isUrl);
    }
  }

  /** `validate` passes exactly when every declared field passes and the
      override adds no failure. */
  lemma ValidateOkIff(e: Entity, isUrl: string -> bool)
    ensures Validate(e, isUrl).Ok?
        <==> (forall j :: 0 <= j < |Fields(e.kind)| ==> FieldCheck(e, j, isUrl).Ok?) && Extra(e, isUrl).Ok?
  {
    var cls, fs := ClassName(e.kind), Fields(e.kind);
    CheckFieldsOkIff(e, cls, fs, 0, isUrl);
    assert forall j :: 0 <= j < |fs| ==> FieldCheck(e, j, isUrl) == CheckField(e, cls, fs[j], j, isUrl);
  }

  /** The check of the field declared at position `j` of `e`. */
  function FieldCheck(e: Entity, j: nat, isUrl: string -> bool): Result<seq<Warning>, Failure>
    requires j < |Fields(e.kind)|
  {
    CheckField(e, ClassName(e.kind), Fields(e.kind)[j], j, isUrl)
  }

  /** `validate` raises the failure of the first failing field, in declaration order. */
  lemma ValidateFirstFailure(e: Entity, j: nat, isUrl: string -> bool)
    requires j < |Fields(e.kind)|
    requires forall i :: 0 <= i < j ==> FieldCheck(e, i, isUrl).Ok?
    requires FieldCheck(e, j, isUrl).Err?
    ensures Validate(e, isUrl) == Err(FieldCheck(e, j, isUrl).error)
  {
    var cls, fs := ClassName(e.kind), Fields(e.kind);
    assert forall i :: 0 <= i < |fs| ==> FieldCheck(e, i, isUrl) == CheckField(e, cls, fs[i], i, isUrl);
    CheckFieldsFirstFailure(e, cls, fs, 0, j, isUrl);
  }

  // ---------------------------------------------------------------------
  // Shape of error paths
  // ---------------------------------------------------------------------

  /** `path` alternates class names and field names along a chain of nested
      data groups starting at `e`. */
  predicate Walks(e: Entity, path: seq<string>)
    decreases |path|
  {
    && |path| >= 2
    && path[0] == ClassName(e.kind)
    && exists j :: 0 <= j < |Fields(e.kind)| && Fields(e.kind)[j].name == path[1]
         && (|path| == 2 || (Get(e, j).Node? && Walks(Get(e, j).e, path[2..])))
  }

  /** `path` is a non-empty run of (class name, field name) pairs. */
  predicate Pairs(path: seq<string>)
    decreases |path|
  {
    |path| >= 2 && (|path| == 2 || Pairs(path[2..]))
  }

  /** The path of a URL error ends with one of the two fixed paths. */
  predicate UrlPathTail(path: seq<string>)
  {
    (|path| >= 4 && path[|path| - 4..] == RaadpleeglocatiePath)
    || (|path| >= 2 && path[|path| - 2..] == UrlBestandPath)
  }

  /** What every error raised while validating `e` looks like: a malformed URL
      is reported under a run of pairs ending in one of the fixed paths, any
      other error under the chain of fields leading to the offending value. */
  predicate ErrorShape(e: Entity, err: ValidationError)
  {
    if err.msg.MalformedUrl? then Pairs(err.fieldPath) && UrlPathTail(err.fieldPath)
    else Walks(e, err.fieldPath)
  }

  /** Every error `validate` raises has the shape above; in particular each
      nesting level adds exactly two path segments (see `PairsEven`). */
  lemma {:induction false} ValidateErrorPath(e: Entity, isUrl: string -> bool)
    requires Validate(e, isUrl).Err? && Validate(e, isUrl).error.Invalid?
    ensures ErrorShape(e, Validate(e, isUrl).error.error)
    decreases e, 1
  {
    var cls, fs := ClassName(e.kind), Fields(e.kind);
    if CheckFields(e, cls, fs, 0, isUrl).Err? {
      CheckFieldsFailureFrom(e, cls, fs, 0, isUrl);
      var j :| 0 <= j < |fs| && CheckField(e, cls, fs[j], j, isUrl) == Err(CheckFields(e, cls, fs, 0, isUrl).error);
      assert FieldCheck(e, j, isUrl) == CheckField(e, cls, fs[j], j, isUrl);
      FieldErrorPath(e, j, isUrl);
    } else {
      ExtraErrorShape(e, isUrl);
    }
  }

  lemma ExtraErrorShape(e: Entity, isUrl: string -> bool)
    requires Extra(e, isUrl).Err? && Extra(e, isUrl).error.Invalid?
    ensures ErrorShape(e, Extra(e, isUrl).error.error)
  {
    ExtraErrorIsUrl(e, isUrl);
    FixedPathsShape();
  }

  /** The overrides only add malformed-URL errors, under the fixed paths. */
  lemma ExtraErrorIsUrl(e: Entity, isUrl: string -> bool)
    requires Extra(e, isUrl).Err? && Extra(e, isUrl).error.Invalid?
    ensures var err := Extra(e, isUrl).error.error;
      err.msg.MalformedUrl? && (err.fieldPath == RaadpleeglocatiePath || err.fieldPath == UrlBestandPath)
  {
    if e.kind == Raadpleeglocatie {
      assert Extra(e, isUrl) == CheckUrl(Get(e, 1), RaadpleeglocatiePath, isUrl);
    } else {
      assert e.kind == Bestand;
      assert Extra(e, isUrl).error == CheckUrl(Get(e, 6), UrlBestandPath, isUrl).error;
    }
  }

  lemma FixedPathsShape()
    ensures Pairs(RaadpleeglocatiePath) && UrlPathTail(RaadpleeglocatiePath)
    ensures Pairs(UrlBestandPath) && UrlPathTail(UrlBestandPath)
  {
    var p := RaadpleeglocatiePath;
    assert Pairs(p[2..]);
    assert p[|p| - 4..] == p;
    var q := UrlBestandPath;
    assert q[|q| - 2..] == q;
  }

  lemma {:induction false} FieldErrorPath(e: Entity, j: nat, isUrl: string -> bool)
    requires j < |Fields(e.kind)|
    requires FieldCheck(e, j, isUrl).Err? && FieldCheck(e, j, isUrl).error.Invalid?
    ensures ErrorShape(e, FieldCheck(e, j, isUrl).error.error)
    decreases e, 0
  {
    var cls, f := ClassName(e.kind), Fields(e.kind)[j];
    assert FieldCheck(e, j, isUrl) == CheckField(e, cls, f, j, isUrl);
    CheckFieldErrorShape(e, cls, f, j, isUrl);
    if Structural(f, Get(e, j)).Reject? {
      ShapeBase(e, j, Structural(f, Get(e, j)).msg);
    } else {
      var c := Get(e, j).e;
      ValidateErrorPath(c, isUrl);
      ShapeStep(e, j, Validate(c, isUrl).error.error);
    }
  }

  /** A field's error is either its own rejection, under the two-segment
      path of the field, or the nested error with that path prepended. */
  lemma CheckFieldErrorShape(e: Entity, cls: string, f: Field, j: nat, isUrl: string -> bool)
    requires CheckField(e, cls, f, j, isUrl).Err? && CheckField(e, cls, f, j, isUrl).error.Invalid?
    ensures var err := CheckField(e, cls, f, j, isUrl).error.error; var s := Structural(f, Get(e, j));
      || (s.Reject? && err == ValidationError([cls, f.name], s.msg))
      || (s.Descend? && Get(e, j) == Node(s.child) && j < |e.values|
          && Validate(s.child, isUrl).Err? && Validate(s.child, isUrl).error.Invalid?
          && err == ValidationError([cls, f.name] + Validate(s.child, isUrl).error.error.fieldPath,
                                    Validate(s.child, isUrl).error.error.msg))
  {
  }

  lemma ShapeBase(e: Entity, j: nat, m: Message)
    requires j < |Fields(e.kind)|
    requires !m.MalformedUrl?
    ensures ErrorShape(e, ValidationError([ClassName(e.kind), Fields(e.kind)[j].name], m))
  {
  }

  lemma ShapeStep(e: Entity, j: nat, inner: ValidationError)
    requires j < |Fields(e.kind)|
    requires Get(e, j).Node? && ErrorShape(Get(e, j).e, inner)
    ensures ErrorShape(e, ValidationError([ClassName(e.kind), Fields(e.kind)[j].name] + inner.fieldPath, inner.msg))
  {
    var q := inner.fieldPath;
    var p := [ClassName(e.kind), Fields(e.kind)[j].name] + q;
    assert p[2..] == q;
    if inner.msg.MalformedUrl? {
      UrlPathTailPrefix([ClassName(e.kind), Fields(e.kind)[j].name], q);
    } else {
      WalksPairs(Get(e, j).e, q);
    }
  }

  lemma UrlPathTailPrefix(path: seq<string>, q: seq<string>)
    requires UrlPathTail(q)
    ensures UrlPathTail(path + q)
  {
    var p := path + q;
    if |q| >= 4 && q[|q| - 4..] == RaadpleeglocatiePath {
      assert p[|p| - 4..] == q[|q| - 4..];
    } else {
      assert p[|p| - 2..] == q[|q| - 2..];
    }
  }

  /** A chain of fields is a run of pairs. */
  lemma {:induction false} WalksPairs(e: Entity, path: seq<string>)
    requires Walks(e, path)
    ensures Pairs(path)
    decreases |path|
  {
    if |path| > 2 {
      var j :| 0 <= j < |Fields(e.kind)| && Fields(e.kind)[j].name == path[1]
         && Get(e, j).Node? && Walks(Get(e, j).e, path[2..]);
      WalksPairs(Get(e, j).e, path[2..]);
    }
  }

  /** A run of pairs has even length. */
  lemma {:induction false} PairsEven(path: seq<string>)
    requires Pairs(path)
    ensures |path| % 2 == 0
    decreases |path|
  {
    if |path| > 2 {
      PairsEven(path[2..]);
    }
  }

  // ---------------------------------------------------------------------
  // Consequences for particular classes
  // ---------------------------------------------------------------------

  /** `Bestand.omvang` is mandatory, so a size of 0 is rejected as empty. */
  lemma ZeroOmvangRejected(e: Entity, isUrl: string -> bool)
    requires e.kind == Bestand && Get(e, 2) == Int(0)
    requires FieldCheck(e, 0, isUrl).Ok? && FieldCheck(e, 1, isUrl).Ok?
    ensures Validate(e, isUrl) == Err(Invalid(ValidationError(["Bestand", "omvang"], MandatoryEmpty)))
  {
    ValidateFirstFailure(e, 2, isUrl);
  }

  /** `RaadpleeglocatieGegevens.validate` runs the structural check first;
      once that passes, a malformed online location fails under the fixed
      four-segment path, a location `isUrl` accepts passes, and so does an
      absent one. */
  lemma RaadpleeglocatieUrlCheck(e: Entity, isUrl: string -> bool)
    requires e.kind == Raadpleeglocatie
    ensures FieldCheck(e, 0, isUrl).Err? ==> Validate(e, isUrl) == Err(FieldCheck(e, 0, isUrl).error)
    ensures FieldCheck(e, 0, isUrl).Ok? && FieldCheck(e, 1, isUrl).Err? ==> Validate(e, isUrl) == Err(FieldCheck(e, 1, isUrl).error)
    ensures FieldCheck(e, 0, isUrl).Ok? && FieldCheck(e, 1, isUrl).Ok? ==>
      && (Urls.ValidateUrlOrUrls(Get(e, 1), isUrl) == Some(false) <==>
            Validate(e, isUrl) == Err(Invalid(ValidationError(RaadpleeglocatiePath, MalformedUrl(Get(e, 1))))))
      && (Urls.ValidateUrlOrUrls(Get(e, 1), isUrl) == Some(true) <==> Validate(e, isUrl).Ok?)
    ensures FieldCheck(e, 0, isUrl).Ok? && Get(e, 1) == Absent ==> Validate(e, isUrl).Ok?
  {
    if FieldCheck(e, 0, isUrl).Err? {
      ValidateFirstFailure(e, 0, isUrl);
    } else if FieldCheck(e, 1, isUrl).Err? {
      ValidateFirstFailure(e, 1, isUrl);
    } else {
      ValidateOkIff(e, isUrl);
      CheckFieldsOkIff(e, ClassName(e.kind), Fields(e.kind), 0, isUrl);
      assert forall j :: 0 <= j < 2 ==> FieldCheck(e, j, isUrl) == CheckField(e, ClassName(e.kind), Fields(e.kind)[j], j, isUrl);
    }
    if FieldCheck(e, 0, isUrl).Ok? && Get(e, 1) == Absent {
      assert FieldCheck(e, 1, isUrl).Ok?;
    }
  }

  /** The nested data group of the recursive-validation scenario: a term
      whose trigger is a concept that refers to its list with an
      identification instead of a reference. */
  const MisnestedTermijn: Entity :=
    Entity(Termijn, [
      Node(Entity(Begrip, [Str("V"), Node(Entity(Identificatie, [Str("nvt"), Str("nvt")])), Absent])),
      Absent, Absent, Absent])

  /** The misnested term fails two levels down, with the type mismatch. */
  lemma MisnestedTermijnRejected(isUrl: string -> bool)
    ensures Validate(MisnestedTermijn, isUrl) == Err(Invalid(ValidationError(
      ["TermijnGegevens", "termijnTriggerStartLooptijd", "BegripGegevens", "begripBegrippenlijst"],
      ExpectedType("VerwijzingGegevens", "IdentificatieGegevens"))))
  {
    var t := MisnestedTermijn;
    var b := t.values[0].e;
    var inner := ValidationError(["BegripGegevens", "begripBegrippenlijst"],
                                 ExpectedType("VerwijzingGegevens", "IdentificatieGegevens"));
    assert Structural(Fields(Begrip)[0], b.values[0]) == Pass;
    assert FieldCheck(b, 0, isUrl).Ok?;
    assert Structural(Fields(Begrip)[1], b.values[1]) == Reject(inner.msg);
    assert FieldCheck(b, 1, isUrl) == Err(Invalid(inner));
    ValidateFirstFailure(b, 1, isUrl);
    assert Structural(Fields(Termijn)[0], t.values[0]) == Descend(b);
    NestedError(t, "TermijnGegevens", Fields(Termijn)[0], 0, isUrl);
    assert ["TermijnGegevens", "termijnTriggerStartLooptijd"] + inner.fieldPath
        == ["TermijnGegevens", "termijnTriggerStartLooptijd", "BegripGegevens", "begripBegrippenlijst"];
    ValidateFirstFailure(t, 0, isUrl);
  }

  /** Put into an otherwise valid information object as its `bewaartermijn`,
      the misnested term is reported under a six-segment dotted path with
      the type-mismatch message unchanged. */
  lemma MisnestedBewaartermijnReported(e: Entity, isUrl: string -> bool)
    requires e.kind == Informatieobject && Get(e, 14) == Node(MisnestedTermijn)
    requires forall i :: 0 <= i < 14 ==> FieldCheck(e, i, isUrl).Ok?
    ensures Validate(e, isUrl) == Err(Invalid(ValidationError(
      ["Informatieobject", "bewaartermijn", "TermijnGegevens", "termijnTriggerStartLooptijd", "BegripGegevens", "begripBegrippenlijst"],
      ExpectedType("VerwijzingGegevens", "IdentificatieGegevens"))))
  {
    var inner := ValidationError(
      ["TermijnGegevens", "termijnTriggerStartLooptijd", "BegripGegevens", "begripBegrippenlijst"],
      ExpectedType("VerwijzingGegevens", "IdentificatieGegevens"));
    MisnestedTermijnRejected(isUrl);
    BewaartermijnFieldError(e, MisnestedTermijn, inner, isUrl);
    TwoThenFour("Informatieobject", "bewaartermijn", "TermijnGegevens", "termijnTriggerStartLooptijd", "BegripGegevens", "begripBegrippenlijst");
    ValidateFirstFailure(e, 14, isUrl);
  }

  /** An error inside an information object's `bewaartermijn` is reported
      with "Informatieobject.bewaartermijn" prepended. */
  lemma BewaartermijnFieldError(e: Entity, t: Entity, err: ValidationError, isUrl: string -> bool)
    requires e.kind == Informatieobject && Get(e, 14) == Node(t) && t.kind == Termijn
    requires Validate(t, isUrl) == Err(Invalid(err))
    ensures FieldCheck(e, 14, isUrl) == Err(Invalid(ValidationError(["Informatieobject", "bewaartermijn"] + err.fieldPath, err.msg)))
  {
    BewaartermijnDeclared();
    NestedFieldError(e, 14, t, err, isUrl);
  }

  lemma BewaartermijnDeclared()
    ensures 14 < |Fields(Informatieobject)| && Fields(Informatieobject)[14] == Field("bewaartermijn", TEntity(Termijn), OptionalOne)
  {
  }

  /** The error of a nested data group, prefixed with the class and field
      that hold it. */
  lemma NestedFieldError(e: Entity, j: nat, c: Entity, err: ValidationError, isUrl: string -> bool)
    requires j < |Fields(e.kind)| && Get(e, j) == Node(c) && Fields(e.kind)[j].ty == TEntity(c.kind)
    requires Validate(c, isUrl) == Err(Invalid(err))
    ensures FieldCheck(e, j, isUrl) == Err(Invalid(ValidationError(
      [ClassName(e.kind), Fields(e.kind)[j].name] + err.fieldPath, err.msg)))
  {
    var f := Fields(e.kind)[j];
    NodeDescends(f, c);
    NestedError(e, ClassName(e.kind), f, j, isUrl);
  }

  /** A non-empty list whose items are all data groups of the declared
      kind passes where the declaration allows a list. */
  lemma WellTypedListPasses(e: Entity, j: nat, k: Kind, isUrl: string -> bool)
    requires j < |Fields(e.kind)| && Fields(e.kind)[j].ty == TEntity(k) && Listable(Fields(e.kind)[j].card)
    requires Get(e, j).List? && |Get(e, j).items| > 0
    requires forall i :: 0 <= i < |Get(e, j).items| ==> Get(e, j).items[i].Node? && Get(e, j).items[i].e.kind == k
    ensures FieldCheck(e, j, isUrl) == Ok([])
  {
    var f := Fields(e.kind)[j];
    assert Structural(f, Get(e, j)) == Pass;
  }

  /** A data group of the declared kind that is not falsy is descended into. */
  lemma NodeDescends(f: Field, c: Entity)
    requires f.ty == TEntity(c.kind)
    ensures Structural(f, Node(c)) == Descend(c)
  {
  }

  /** A malformed online location inside an information object's
      `raadpleeglocatie` is reported under six segments: the generic
      two-segment prefix followed by the fixed four-segment path. */
  lemma NestedUrlErrorPath(e: Entity, u: string, isUrl: string -> bool)
    requires e.kind == Informatieobject && !isUrl(u)
    requires Get(e, 9) == Node(Entity(Raadpleeglocatie, [Absent, Str(u)]))
    requires forall i :: 0 <= i < 9 ==> FieldCheck(e, i, isUrl).Ok?
    ensures Validate(e, isUrl) == Err(Invalid(ValidationError(
      ["Informatieobject", "raadpleeglocatie", "informatieobject", "raadpleeglocatie", "RaadpleeglocatieGegevens", "raadpleeglocatieOnline"],
      MalformedUrl(Str(u)))))
  {
    var r := Get(e, 9).e;
    assert Fields(Informatieobject)[9] == Field("raadpleeglocatie", TEntity(Raadpleeglocatie), OptionalMany);
    MalformedOnlineRejected(r, u, isUrl);
    NestedFieldError(e, 9, r, ValidationError(RaadpleeglocatiePath, MalformedUrl(Str(u))), isUrl);
    TwoThenFour("Informatieobject", "raadpleeglocatie", "informatieobject", "raadpleeglocatie", "RaadpleeglocatieGegevens", "raadpleeglocatieOnline");
    ValidateFirstFailure(e, 9, isUrl);
  }

  /** The text of that error in the repository's URL test: the six
      segments joined by dots, then the message quoting the URL as it is. */
  lemma NestedUrlErrorText(e: Entity, isUrl: string -> bool)
    requires e.kind == Informatieobject && !isUrl("hppts://www.example.com")
    requires Get(e, 9) == Node(Entity(Raadpleeglocatie, [Absent, Str("hppts://www.example.com")]))
    requires forall i :: 0 <= i < 9 ==> FieldCheck(e, i, isUrl).Ok?
    ensures Validate(e, isUrl).Err? && Validate(e, isUrl).error.Invalid?
    ensures Describe(Validate(e, isUrl).error.error) ==
      NestedUrlPath + ":\n\t" + ("url " + "hppts://www.example.com" + " is malformed")
  {
    var u := "hppts://www.example.com";
    NestedUrlErrorPath(e, u, isUrl);
    var err := ValidationError(
      ["Informatieobject", "raadpleeglocatie", "informatieobject", "raadpleeglocatie", "RaadpleeglocatieGegevens", "raadpleeglocatieOnline"],
      MalformedUrl(Str(u)));
    assert Validate(e, isUrl).error.error == err;
    NestedUrlPathText();
  }

  /** The dotted path of that error, as the URL test spells it. */
  const NestedUrlPath: string :=
    "Informatieobject" + "." + "raadpleeglocatie" + "." + "informatieobject" + "."
    + "raadpleeglocatie" + "." + "RaadpleeglocatieGegevens" + "." + "raadpleeglocatieOnline"

  lemma NestedUrlPathText()
    ensures Join(["Informatieobject", "raadpleeglocatie", "informatieobject", "raadpleeglocatie", "RaadpleeglocatieGegevens", "raadpleeglocatieOnline"], ".")
      == NestedUrlPath
  {
    JoinSix("Informatieobject", "raadpleeglocatie", "informatieobject", "raadpleeglocatie", "RaadpleeglocatieGegevens", "raadpleeglocatieOnline", ".");
  }

  /** The value a URL error quotes is a string or a list of strings. */
  predicate UrlText(v: Value)
  {
    v.Str? || (v.List? && forall i :: 0 <= i < |v.items| ==> v.items[i].Str?)
  }

  /** Every malformed-URL error `validate` raises, at any depth, quotes a
      string or a list of strings: the structural check has rejected every
      other value of the two URL fields before an override checks it. */
  lemma {:induction false} UrlErrorQuotesText(e: Entity, isUrl: string -> bool)
    requires Validate(e, isUrl).Err? && Validate(e, isUrl).error.Invalid?
    requires Validate(e, isUrl).error.error.msg.MalformedUrl?
    ensures UrlText(Validate(e, isUrl).error.error.msg.url)
    decreases e, 1
  {
    var cls, fs := ClassName(e.kind), Fields(e.kind);
    if CheckFields(e, cls, fs, 0, isUrl).Err? {
      CheckFieldsFailureFrom(e, cls, fs, 0, isUrl);
      var j :| 0 <= j < |fs| && CheckField(e, cls, fs[j], j, isUrl) == Err(CheckFields(e, cls, fs, 0, isUrl).error);
      var v := Get(e, j);
      if Structural(fs[j], v).Descend? {
        NestedError(e, cls, fs[j], j, isUrl);
        UrlErrorQuotesText(v.e, isUrl);
      }
    } else {
      CheckFieldsOkIff(e, cls, fs, 0, isUrl);
      if e.kind == Raadpleeglocatie {
        assert CheckField(e, cls, fs[1], 1, isUrl).Ok?;
        assert fs[1] == Field("raadpleeglocatieOnline", TStr, OptionalMany);
      } else {
        assert e.kind == Bestand;
        assert CheckField(e, cls, fs[6], 6, isUrl).Ok?;
        assert fs[6] == Field("URLBestand", TStr, OptionalOne);
      }
    }
  }

  /** A list of URLs is quoted item by item: an item holding an apostrophe
      between double quotes, any other between single quotes. */
  lemma UrlListText()
    ensures ValueText(List([Str("it's"), Str("x")])) == "[" + "\"it's\"" + ", " + "'x'" + "]"
  {
    var v := List([Str("it's"), Str("x")]);
    ApostropheRepr();
    PlainRepr("x");
    assert ItemReprs(v, 0) == [];
    assert ItemRepr(v.items[0]) == "\"it's\"";
    assert ItemRepr(v.items[1]) == "'x'";
    assert ItemReprs(v, 1) == [] + ["\"it's\""];
    assert ItemReprs(v, 2) == ItemReprs(v, 1) + ["'x'"];
    var parts := ["\"it's\"", "'x'"];
    assert ItemReprs(v, 2) == parts;
    assert parts[1..] == ["'x'"];
    assert Join(parts, ", ") == "\"it's\"" + ", " + "'x'";
  }

  /** A location with only a malformed online address fails under the
      fixed four-segment path. */
  lemma MalformedOnlineRejected(r: Entity, u: string, isUrl: string -> bool)
    requires r == Entity(Raadpleeglocatie, [Absent, Str(u)]) && !isUrl(u)
    ensures Validate(r, isUrl) == Err(Invalid(ValidationError(RaadpleeglocatiePath, MalformedUrl(Str(u)))))
  {
    Urls.StringIsSingletonList(u, isUrl);
    assert Structural(Fields(Raadpleeglocatie)[0], r.values[0]) == Pass;
    assert Structural(Fields(Raadpleeglocatie)[1], r.values[1]) == Pass;
    assert FieldCheck(r, 0, isUrl).Ok? && FieldCheck(r, 1, isUrl).Ok?;
    RaadpleeglocatieUrlCheck(r, isUrl);
  }

  /** Items of a list are only type-checked: a list of two concepts passes
      even when one of them is itself invalid (its label is empty). */
  lemma ListItemsNotValidated(e: Entity, lijst: Entity, isUrl: string -> bool)
    requires e.kind == Informatieobject && lijst.kind == Verwijzing
    requires Get(e, 6) == List([Node(Entity(Begrip, [Str(""), Node(lijst), Absent])), Node(Entity(Begrip, [Str("A"), Node(lijst), Absent]))])
    ensures FieldCheck(e, 6, isUrl) == Ok([])
    ensures Validate(Get(e, 6).items[0].e, isUrl) == Err(Invalid(ValidationError(["BegripGegevens", "begripLabel"], MandatoryEmpty)))
  {
    assert Fields(Informatieobject)[6] == Field("classificatie", TEntity(Begrip), OptionalMany);
    WellTypedListPasses(e, 6, Begrip, isUrl);
    EmptyLabelRejected(Get(e, 6).items[0].e, isUrl);
  }

  /** A concept with an empty label fails on its label. */
  lemma EmptyLabelRejected(b: Entity, isUrl: string -> bool)
    requires b.kind == Begrip && Get(b, 0) == Str("")
    ensures Validate(b, isUrl) == Err(Invalid(ValidationError(["BegripGegevens", "begripLabel"], MandatoryEmpty)))
  {
    assert Structural(Fields(Begrip)[0], Get(b, 0)) == Reject(MandatoryEmpty);
    ValidateFirstFailure(b, 0, isUrl);
  }
}
