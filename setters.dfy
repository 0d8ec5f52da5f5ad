/** The checks the older module runs while an object is being constructed: the
    property setters of `raadpleeglocatieOnline` and `URLBestand`, and the
    `naam` length check of `Object.__post_init__`. The classes that hold the
    stored values are in module `Legacy`; the decoder of the older module
    applies these checks when it builds an instance. */
module Setters {
  import opened Wrappers
  import opened Schema
  import opened Urls

  /** What a setter receives: `Unset` is the `property` object a dataclass
      passes when the argument was left out; `Given(v)` is an explicit value,
      `Given(Absent)` being `None`. */
  datatype SetterArg = Unset | Given(v: Value)

  /** The `raadpleeglocatieOnline` setter: the value it stores, or the value
      it rejects with `ValueError("URL '…' is malformed")`. A list item that
      is not a string is rejected by `validators.url`. */
  function OnlineSetter(arg: SetterArg, isUrl: string -> bool): Result<Value, Value>
  {
    match arg
    case Unset => Ok(Absent)
    case Given(v) =>
      match v
      case Absent => Ok(Absent)
      case List(items) => if AllUrls(items, isUrl) then Ok(v) else Err(v)
      case Str(s) => if isUrl(s) then Ok(v) else Err(v)
      case _ => Err(v)
  }

  /** The `URLBestand` setter: anything but `None` goes to `validators.url`,
      which accepts only a well-formed URL string. */
  function UrlBestandSetter(arg: SetterArg, isUrl: string -> bool): Result<Value, Value>
  {
    match arg
    case Unset => Ok(Absent)
    case Given(v) =>
      if v.Absent? then Ok(Absent)
      else if v.Str? && isUrl(v.s) then Ok(v)
      else Err(v)
  }

  /** `len(naam)` in `__post_init__`: defined for strings and lists; anything
      else (`None` included) makes Python raise `TypeError`. */
  function NaamLength(v: Value): Option<nat>
  {
    match v
    case Str(s) => Some(|s|)
    case List(items) => Some(|items|)
    case _ => None
  }

  /** `__post_init__`: `Some(true)` when it logs the long-name warning,
      `Some(false)` when it is silent, `None` when `len` raises. */
  function PostInit(naam: Value): (r: Option<bool>)
    ensures r.None? <==> !(naam.Str? || naam.List?)
    ensures naam.Str? ==> r == Some(|naam.s| > MaxNaamLength)
  {
    match NaamLength(naam)
    case None => None
    case Some(n) => Some(n > MaxNaamLength)
  }

  /** The `raadpleeglocatieOnline` setter stores `None` when the argument is
      missing or `None`; it stores a list exactly when every item is an
      accepted URL string, so the empty list is stored; it stores a string
      exactly when it is an accepted URL; every other value is rejected. On
      success the stored value is the argument (or `None`). */
  lemma OnlineSetterCases(arg: SetterArg, isUrl: string -> bool)
    ensures arg == Unset || arg == Given(Absent) ==> OnlineSetter(arg, isUrl) == Ok(Absent)
    ensures arg.Given? && arg.v.List? ==>
      (OnlineSetter(arg, isUrl).Ok? <==> forall i :: 0 <= i < |arg.v.items| ==> UrlItem(arg.v.items[i], isUrl))
    ensures OnlineSetter(Given(List([])), isUrl) == Ok(List([]))
    ensures arg.Given? && arg.v.Str? ==> (OnlineSetter(arg, isUrl).Ok? <==> isUrl(arg.v.s))
    ensures arg.Given? && (arg.v.Int? || arg.v.Node?) ==> OnlineSetter(arg, isUrl) == Err(arg.v)
    ensures OnlineSetter(arg, isUrl).Ok? && arg.Given? ==> OnlineSetter(arg, isUrl).value == arg.v
    ensures OnlineSetter(arg, isUrl).Err? ==> arg.Given? && OnlineSetter(arg, isUrl).error == arg.v
  {
    if arg.Given? && arg.v.List? {
      AllUrlsIff(arg.v.items, isUrl);
    }
  }

  /** The list branch of the setter agrees with the current module's
      `validate_url_or_urls`, and so does the string branch: the older setter
      accepts a string or list exactly when the newer validator does. */
  lemma OnlineSetterAgreesWithValidator(v: Value, isUrl: string -> bool)
    requires v.Str? || v.List? || v.Absent?
    ensures OnlineSetter(Given(v), isUrl).Ok? <==> ValidateUrlOrUrls(v, isUrl) == Some(true)
  {
    if v.Str? {
      StringIsSingletonList(v.s, isUrl);
    }
  }

  /** The `URLBestand` setter stores `None` for a missing or `None` argument,
      stores a string exactly when it is an accepted URL, and rejects
      everything else, lists included. */
  lemma UrlBestandSetterCases(arg: SetterArg, isUrl: string -> bool)
    ensures arg == Unset || arg == Given(Absent) ==> UrlBestandSetter(arg, isUrl) == Ok(Absent)
    ensures arg.Given? && arg.v.Str? ==>
      UrlBestandSetter(arg, isUrl) == (if isUrl(arg.v.s) then Ok(arg.v) else Err(arg.v))
    ensures arg.Given? && !arg.v.Absent? && !arg.v.Str? ==> UrlBestandSetter(arg, isUrl) == Err(arg.v)
  {
  }

  /** Construction never raises for a string `naam`, whatever its length; it
      only warns past 80 characters. */
  lemma PostInitNeverRaisesOnString(s: string)
    ensures PostInit(Str(s)).Some?
    ensures PostInit(Str(s)).value <==> |s| > 80
  {
  }
}
