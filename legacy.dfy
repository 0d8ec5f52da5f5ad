/** The older copy of the library, where it differs from the maintained one:
    instances whose URL fields are properties checked when they are set,
    a constructor that runs those checks and the `naam` length check, the
    checksum label built with `str.replace`, fido as the only PRONOM backend,
    and `save` without validation. Its encoder and decoder are the ones of
    modules `Encoding` and `Decoding` with the dialect `Legacy`. */
module Legacy {
  import opened Wrappers
  import opened Schema
  import opened Xml
  import opened Urls
  import opened Setters
  import opened Encoding
  import opened Decoding
  import opened Validation
  import opened Saving
  import opened Utilities

  // ---------------------------------------------------------------------
  // Instances and their property setters
  // ---------------------------------------------------------------------

  /** The field that is a property with a checking setter: `raadpleeglocatieOnline`
      of `RaadpleeglocatieGegevens` and `URLBestand` of `Bestand`. */
  function PropertySlot(k: Kind): (r: Option<nat>)
    ensures r.Some? ==> r.value < |Fields(k)|
  {
    match k
    case Raadpleeglocatie => Some(1)
    case Bestand => Some(6)
    case _ => None
  }

  /** What assigning `v` to field `j` stores, or the value the setter
      rejects. A plain field stores anything. */
  function Stored(k: Kind, j: nat, v: Value, isUrl: string -> bool): Result<Value, Value>
  {
    if PropertySlot(k) != Some(j) then Ok(v)
    else if k == Raadpleeglocatie then OnlineSetter(Given(v), isUrl)
    else UrlBestandSetter(Given(v), isUrl)
  }

  /** An instance of one of the older dataclasses: its fields in declaration
      order. */
  class Record {
    const kind: Kind
    var values: seq<Value>

    /** The assignments of the generated `__init__` to the plain fields; the
        property field holds `None` until its setter has run. */
    constructor (kind: Kind, args: seq<Value>)
      requires |args| == |Fields(kind)|
      ensures this.kind == kind && |values| == |Fields(kind)|
      ensures forall j :: 0 <= j < |args| && PropertySlot(kind) != Some(j) ==> values[j] == args[j]
      ensures PropertySlot(kind).Some? ==> values[PropertySlot(kind).value] == Absent
    {
      this.kind := kind;
      var slot := PropertySlot(kind);
      values := if slot.Some? then args[slot.value := Absent] else args;
    }

    /** The `raadpleeglocatieOnline` setter: stores `None` for a missing or
        `None` argument, a list of URLs or a URL; raises otherwise and
        stores nothing. */
    method SetRaadpleeglocatieOnline(url: SetterArg, isUrl: string -> bool) returns (r: Result<(), Value>)
      requires kind == Raadpleeglocatie && |values| == 2
      modifies this
      ensures OnlineSetter(url, isUrl).Ok? ==> r.Ok? && values == old(values)[1 := OnlineSetter(url, isUrl).value]
      ensures OnlineSetter(url, isUrl).Err? ==> r == Err(OnlineSetter(url, isUrl).error) && values == old(values)
    {
      if url.Unset? || url.v.Absent? {
        values := values[1 := Absent];
        return Ok(());
      }
      var v := url.v;
      if v.List? && AllUrls(v.items, isUrl) {
        values := values[1 := v];
        return Ok(());
      }
      if v.Str? && isUrl(v.s) {
        values := values[1 := v];
        return Ok(());
      }
      return Err(v);
    }

    /** The `URLBestand` setter: stores `None` for a missing or `None`
        argument and a URL string; raises otherwise and stores nothing. */
    method SetUrlBestand(url: SetterArg, isUrl: string -> bool) returns (r: Result<(), Value>)
      requires kind == Bestand && |values| == 7
      modifies this
      ensures UrlBestandSetter(url, isUrl).Ok? ==> r.Ok? && values == old(values)[6 := UrlBestandSetter(url, isUrl).value]
      ensures UrlBestandSetter(url, isUrl).Err? ==> r == Err(UrlBestandSetter(url, isUrl).error) && values == old(values)
    {
      if url.Unset? || url.v.Absent? {
        values := values[6 := Absent];
        return Ok(());
      }
      var v := url.v;
      if v.Str? && isUrl(v.s) {
        values := values[6 := v];
        return Ok(());
      }
      return Err(v);
    }

    /** `instance.field = v`: a plain field is assigned, a property field
        goes through its setter. */
    method Set(j: nat, v: Value, isUrl: string -> bool) returns (r: Result<(), Value>)
      requires j < |values| == |Fields(kind)|
      modifies this
      ensures Stored(kind, j, v, isUrl).Ok? ==> r.Ok? && values == old(values)[j := Stored(kind, j, v, isUrl).value]
      ensures Stored(kind, j, v, isUrl).Err? ==> r == Err(Stored(kind, j, v, isUrl).error) && values == old(values)
    {
      if PropertySlot(kind) != Some(j) {
        values := values[j := v];
        r := Ok(());
      } else if kind == Raadpleeglocatie {
        r := SetRaadpleeglocatieOnline(Given(v), isUrl);
      } else {
        r := SetUrlBestand(Given(v), isUrl);
      }
    }

    /** The instance as a value. */
    function Snapshot(): Entity
      reads this
    {
      Entity(kind, values)
    }
  }

  /** `Cls(**args)`: the generated `__init__` assigns every field, the
      property field through its setter, and `Object.__post_init__` then
      measures `naam`. The decoder of the older module builds instances
      this way. */
  method Build(k: Kind, args: seq<Value>, isUrl: string -> bool) returns (r: Result<Record, DecodeError>)
    requires |args| == |Fields(k)|
    ensures LegacyConstruct(k, args, isUrl).Ok? ==>
      r.Ok? && fresh(r.value) && r.value.Snapshot() == LegacyConstruct(k, args, isUrl).value
    ensures LegacyConstruct(k, args, isUrl).Err? ==> r == Err(LegacyConstruct(k, args, isUrl).error)
  {
    var rec := new Record(k, args);
    var slot := PropertySlot(k);
    if slot.Some? {
      var stored := rec.Set(slot.value, args[slot.value], isUrl);
      if stored.Err? {
        return Err(DecodeError.MalformedUrl(stored.error));
      }
    }
    assert rec.values == StoredArgs(k, args, isUrl);
    if IsObjectKind(k) && PostInit(rec.values[1]).None? {
      return Err(NoLength(TypeName(rec.values[1])));
    }
    r := Ok(rec);
  }

  /** The fields after a successful construction: the arguments, with the
      property field as its setter stored it. */
  function StoredArgs(k: Kind, args: seq<Value>, isUrl: string -> bool): seq<Value>
    requires |args| == |Fields(k)|
  {
    match PropertySlot(k)
    case None => args
    case Some(j) => if Stored(k, j, args[j], isUrl).Ok? then args[j := Stored(k, j, args[j], isUrl).value] else args
  }

  /** Assigning a field changes that field only, and a rejected URL leaves
      the instance as it was: the setter raises before it stores. A plain
      field takes any value, so only the two URL fields can reject. */
  lemma StoredCases(k: Kind, j: nat, v: Value, isUrl: string -> bool)
    ensures PropertySlot(k) != Some(j) ==> Stored(k, j, v, isUrl) == Ok(v)
    ensures Stored(k, j, v, isUrl).Err? ==>
      Stored(k, j, v, isUrl).error == v && (k == Raadpleeglocatie || k == Bestand)
    ensures k == Bestand && j == 6 && v.List? ==> Stored(k, j, v, isUrl) == Err(v)
    ensures k == Raadpleeglocatie && j == 1 && v == List([]) ==> Stored(k, j, v, isUrl) == Ok(List([]))
  {
    if PropertySlot(k) == Some(j) && k == Raadpleeglocatie {
      OnlineSetterCases(Given(v), isUrl);
    }
  }

  // ---------------------------------------------------------------------
  // The checksum-algorithm label
  // ---------------------------------------------------------------------

  /** `s.replace("SHA", "SHA-")`: every occurrence, left to right, without
      overlaps. */
  function ReplaceSha(s: string): string
    decreases |s|
  {
    if ShaAt(s, 0) then "SHA-" + ReplaceSha(s[3..])
    else if |s| == 0 then []
    else [s[0]] + ReplaceSha(s[1..])
  }

  /** The label the older `create_checksum` writes. */
  function LegacyChecksumLabel(algorithm: string): string
  {
    ReplaceSha(Upper(algorithm))
  }

  /** Every "SHA" in `s` is directly followed by a digit. */
  predicate EveryShaNumbered(s: string)
  {
    forall i :: 0 <= i < |s| && ShaAt(s, i) ==> ShaDigitAt(s, i)
  }

  lemma {:induction false} ReplaceCopiesNoS(p: string, t: string)
    requires 'S' !in p
    ensures ReplaceSha(p + t) == p + ReplaceSha(t)
    decreases |p|
  {
    if |p| > 0 {
      assert p[0] in p;
      assert (p + t)[1..] == p[1..] + t;
      assert 'S' !in p[1..] by {
        forall i | 0 <= i < |p[1..]| ensures p[1..][i] != 'S' {
          assert p[1..][i] == p[i + 1] && p[i + 1] in p;
        }
      }
      ReplaceCopiesNoS(p[1..], t);
      assert [p[0]] + (p[1..] + ReplaceSha(t)) == p + ReplaceSha(t);
    } else {
      assert p + t == t;
    }
  }

  lemma EveryShaNumberedSuffix(s: string, n: nat)
    requires EveryShaNumbered(s) && n <= |s|
    ensures EveryShaNumbered(s[n..])
  {
    forall i | ShaAt(s[n..], i) ensures ShaDigitAt(s[n..], i) {
      assert ShaAt(s, n + i);
    }
  }

  /** Where every "SHA" is followed by a digit, as in "SHA256" or "SHA512",
      `replace` and the regular expression write the same label. */
  lemma {:induction false} ReplaceAgreesWithDash(s: string)
    requires EveryShaNumbered(s)
    ensures ReplaceSha(s) == DashSha(s)
    decreases |s|
  {
    if ShaDigitAt(s, 0) {
      var n := 3 + DigitRun(s[3..]);
      var digits := s[3..n];
      EveryShaNumberedSuffix(s, n);
      ReplaceAgreesWithDash(s[n..]);
      assert 'S' !in digits by {
        forall i | 0 <= i < |digits| ensures digits[i] != 'S' {
          assert digits[i] == s[3..][i] && IsDigit(s[3..][i]);
        }
      }
      assert s[3..] == digits + s[n..];
      ReplaceCopiesNoS(digits, s[n..]);
      assert ReplaceSha(s) == "SHA-" + (digits + ReplaceSha(s[n..]));
    } else if |s| > 0 {
      assert !ShaAt(s, 0);
      EveryShaNumberedSuffix(s, 1);
      ReplaceAgreesWithDash(s[1..]);
    }
  }

  /** The two labels agree on names such as "sha256"; the older one is not
      idempotent: it turns its own "SHA-256" into "SHA--256". */
  lemma LegacyChecksumLabelCases(algorithm: string)
    ensures EveryShaNumbered(Upper(algorithm)) ==> LegacyChecksumLabel(algorithm) == ChecksumLabel(algorithm)
    ensures LegacyChecksumLabel("SHA-256") == "SHA--256"
    ensures LegacyChecksumLabel(LegacyChecksumLabel("sha256")) != LegacyChecksumLabel("sha256")
  {
    if EveryShaNumbered(Upper(algorithm)) {
      ReplaceAgreesWithDash(Upper(algorithm));
    }
    LegacyLabelExamples();
  }

  lemma LegacyLabelExamples()
    ensures LegacyChecksumLabel("SHA-256") == "SHA--256"
    ensures LegacyChecksumLabel("sha256") == "SHA-256"
  {
    DashedLabelRedashed();
    PlainLabelDashed();
  }

  lemma DashedLabelRedashed()
    ensures LegacyChecksumLabel("SHA-256") == "SHA--256"
  {
    assert Upper("SHA-256") == "SHA-256";
    var t := "-256";
    assert "SHA-256" == "SHA" + t;
    ReplaceCopiesNoS(t, []);
    assert ReplaceSha("SHA-256") == "SHA-" + t;
  }

  lemma PlainLabelDashed()
    ensures LegacyChecksumLabel("sha256") == "SHA-256"
  {
    assert Upper("sha256") == "SHA256";
    ReplaceCopiesNoS("256", []);
    assert ReplaceSha("SHA256") == "SHA-" + "256";
  }

  // ---------------------------------------------------------------------
  // PRONOM detection
  // ---------------------------------------------------------------------

  /** The older `pronominfo`: fido must be installed; a non-zero exit
      raises (the run is made with `check=True`, which raises before the
      explicit test of the return code); output starting with "OK" gives
      the second and third comma-separated fields of its first line, which
      is not stripped of trailing white space; anything else raises. More
      than two lines is reported as several matches. */
  function LegacyFidoResult(fidoFound: bool, returncode: int, stdout: string): Result<Detected, PronomError>
  {
    if !fidoFound then Err(FidoMissing)
    else if returncode != 0 then Err(ProcessFailed(returncode))
    else if !("OK" <= stdout) then Err(DetectionFailed)
    else
      var results := Split(stdout, '\n');
      var fields := Split(results[0], ',')[1..];
      if |fields| < 2 then Err(MissingField)
      else Ok(Detected(PronomBegrip(fields[0], fields[1]), |results| > 2))
  }

  /** The first position of `c` in a prefix that contains it is its first
      position in the whole string. */
  lemma IndexOfPrefix(s: string, c: char, k: nat)
    requires c in s && IndexOf(s, c) < k <= |s|
    ensures c in s[..k] && IndexOf(s[..k], c) == IndexOf(s, c)
  {
    var j := IndexOf(s, c);
    assert s[..k][j] == c;
    assert s[..k][..j] == s[..j];
  }

  /** A prefix that reaches the first separator, or is the whole string
      when there is none, has the same first piece. */
  lemma HeadOfPrefix(s: string, sep: char, k: nat)
    requires k <= |s|
    requires sep in s ==> IndexOf(s, sep) <= k
    requires sep !in s ==> k == |s|
    ensures Split(s[..k], sep)[0] == Split(s, sep)[0]
  {
    SplitHead(s, sep);
    SplitHead(s[..k], sep);
    if sep in s {
      var i := IndexOf(s, sep);
      if i == k {
        assert sep !in s[..k];
      } else {
        IndexOfPrefix(s, sep, k);
        assert s[..k][..i] == s[..i];
      }
    } else {
      assert s[..k] == s;
    }
  }

  /** Stripping trailing white space does not change a first line that does
      not end in white space. */
  lemma FirstLineUnstripped(s: string)
    requires var line := Split(s, '\n')[0]; |line| > 0 && !IsSpace(line[|line| - 1])
    ensures Split(Rstrip(s), '\n')[0] == Split(s, '\n')[0]
  {
    var r := Rstrip(s);
    SplitHead(s, '\n');
    if '\n' in s {
      RstripKeeps(s, IndexOf(s, '\n'));
    } else {
      RstripKeeps(s, |s|);
    }
    assert r == s[..|r|];
    HeadOfPrefix(s, '\n', |r|);
  }

  /** When fido is installed and the first line of its output does not end
      in white space, the older and the maintained readers accept the same
      outputs and read the same format from them. */
  lemma LegacyFidoAgrees(returncode: int, stdout: string)
    requires var line := Split(stdout, '\n')[0]; |line| > 0 && !IsSpace(line[|line| - 1])
    ensures LegacyFidoResult(true, returncode, stdout).Ok? <==> FidoResult(returncode, stdout).Ok?
    ensures LegacyFidoResult(true, returncode, stdout).Ok? ==>
      LegacyFidoResult(true, returncode, stdout).value.format == FidoResult(returncode, stdout).value.format
  {
    FirstLineUnstripped(stdout);
  }

  /** The older reader fails when fido is missing or exits non-zero, and
      otherwise exactly when the output does not start with "OK" or its
      first line has fewer than three fields. */
  lemma LegacyFidoCases(fidoFound: bool, returncode: int, stdout: string)
    ensures !fidoFound ==> LegacyFidoResult(fidoFound, returncode, stdout) == Err(FidoMissing)
    ensures fidoFound && returncode != 0 ==> LegacyFidoResult(fidoFound, returncode, stdout) == Err(ProcessFailed(returncode))
    ensures fidoFound && returncode == 0 && !("OK" <= stdout) ==>
      LegacyFidoResult(fidoFound, returncode, stdout) == Err(DetectionFailed)
    ensures LegacyFidoResult(fidoFound, returncode, stdout).Ok? <==>
      fidoFound && returncode == 0 && "OK" <= stdout && |Split(Split(stdout, '\n')[0], ',')| >= 3
  {
  }

  // ---------------------------------------------------------------------
  // Saving
  // ---------------------------------------------------------------------

  /** The older `save`: `to_xml()` and the write, without `validate`. */
  method LegacySave(e: Entity) returns (r: Result<Element, EncodeError>)
    requires IsObjectKind(e.kind)
    ensures r == ObjectTree(e, Legacy)
  {
    r := ObjectToXml(e, Legacy);
  }

  /** An object without an identification is refused by the maintained
      `save`, whose validation requires one, but the older `save` writes it
      whenever its fields encode. */
  lemma LegacySaveSkipsValidation(e: Entity, isUrl: string -> bool)
    requires IsObjectKind(e.kind) && Get(e, 0) == Absent
    ensures Validate(e, isUrl).Err?
    ensures SaveResult(e, isUrl).Err? && SaveResult(e, isUrl).error.Rejected?
    ensures ObjectTree(e, Legacy).Ok? <==> Encodable(e, Legacy)
  {
    assert Fields(e.kind)[0].card == Many;
    assert FieldCheck(e, 0, isUrl).Err?;
    ValidateFirstFailure(e, 0, isUrl);
    ObjectTreeShape(e, Legacy);
  }
}
