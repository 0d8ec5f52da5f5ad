/** The URL check applied to `raadpleeglocatieOnline` and `URLBestand`. The
    RFC 3986 test itself (`validators.url`) is a predicate the caller supplies. */
module Urls {
  import opened Wrappers
  import opened Schema

  /** One list item passes when it is a string accepted by `isUrl`. */
  predicate UrlItem(v: Value, isUrl: string -> bool)
  {
    v.Str? && isUrl(v.s)
  }

  /** `all(validators.url(u) for u in items)`, left to right. */
  predicate AllUrls(items: seq<Value>, isUrl: string -> bool)
    decreases |items|
  {
    |items| == 0 || (UrlItem(items[0], isUrl) && AllUrls(items[1..], isUrl))
  }

  /** `validate_url_or_urls`: `None` passes, a string is checked as the
      one-element list holding it, a list passes when every item does.
      `None` is returned where Python cannot iterate the value (an `int` or a
      data group) and raises `TypeError`. */
  function ValidateUrlOrUrls(v: Value, isUrl: string -> bool): (r: Option<bool>)
    ensures r.None? <==> (v.Int? || v.Node?)
    ensures v.Absent? ==> r == Some(true)
  {
    match v
    case Absent => Some(true)
    case Str(s) => Some(AllUrls([v], isUrl))
    case List(items) => Some(AllUrls(items, isUrl))
    case Int(_) => None
    case Node(_) => None
  }

  /** A list passes exactly when every one of its items is an accepted
      string; in particular the empty list passes. */
  lemma {:induction false} AllUrlsIff(items: seq<Value>, isUrl: string -> bool)
    ensures AllUrls(items, isUrl) <==> forall i :: 0 <= i < |items| ==> UrlItem(items[i], isUrl)
    decreases |items|
  {
    if |items| > 0 {
      AllUrlsIff(items[1..], isUrl);
      assert forall i :: 1 <= i < |items| ==> items[i] == items[1..][i - 1];
    }
  }

  /** Validity of a concatenation is the conjunction of the parts' validity. */
  lemma {:induction false} AllUrlsAppend(a: seq<Value>, b: seq<Value>, isUrl: string -> bool)
    ensures AllUrls(a + b, isUrl) <==> AllUrls(a, isUrl) && AllUrls(b, isUrl)
    decreases |a|
  {
    if |a| > 0 {
      assert (a + b)[1..] == a[1..] + b;
      AllUrlsAppend(a[1..], b, isUrl);
    } else {
      assert a + b == b;
    }
  }

  /** URLs are never mandatory: `None` always passes. */
  lemma AbsentIsValid(isUrl: string -> bool)
    ensures ValidateUrlOrUrls(Absent, isUrl) == Some(true)
  {
  }

  /** A single string is judged exactly as the one-element list holding it,
      and that is `isUrl` itself. */
  lemma StringIsSingletonList(s: string, isUrl: string -> bool)
    ensures ValidateUrlOrUrls(Str(s), isUrl) == ValidateUrlOrUrls(List([Str(s)]), isUrl)
    ensures ValidateUrlOrUrls(Str(s), isUrl) == Some(isUrl(s))
  {
    assert [Str(s)][1..] == [];
    assert AllUrls([Str(s)], isUrl) == (UrlItem(Str(s), isUrl) && AllUrls([], isUrl));
  }

  /** A list passes exactly when all its items are accepted strings. */
  lemma ListValidIff(items: seq<Value>, isUrl: string -> bool)
    ensures ValidateUrlOrUrls(List(items), isUrl) == Some(true)
        <==> forall i :: 0 <= i < |items| ==> UrlItem(items[i], isUrl)
    ensures ValidateUrlOrUrls(List([]), isUrl) == Some(true)
  {
    AllUrlsIff(items, isUrl);
  }

  /** Checking the concatenation of two lists is checking both. */
  lemma ListConcat(a: seq<Value>, b: seq<Value>, isUrl: string -> bool)
    ensures ValidateUrlOrUrls(List(a + b), isUrl) == Some(true)
        <==> ValidateUrlOrUrls(List(a), isUrl) == Some(true) && ValidateUrlOrUrls(List(b), isUrl) == Some(true)
  {
    AllUrlsAppend(a, b, isUrl);
  }
}
