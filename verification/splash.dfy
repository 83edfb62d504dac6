/** The splash screen's greeting: the guest's name taken from the `to`
    query parameter. `to` is what `URLSearchParams.get("to")` returns for the
    page's query string, which the URL Standard's
    application/x-www-form-urlencoded parser has already percent-decoded,
    with `+` already read as a space. */
module Splash {
  import opened Wrappers
  import opened Config
  import opened Uri

  const DefaultGuestName := "Our Dear Guest"

  /** `s.replace(/<from>/g, to)` for a one-character pattern. */
  function ReplaceAll(s: string, from: char, to: char): (r: string)
    ensures |r| == |s|
    ensures forall i :: 0 <= i < |s| ==> r[i] == if s[i] == from then to else s[i]
  {
    if |s| == 0 then "" else [if s[0] == from then to else s[0]] + ReplaceAll(s[1..], from, to)
  }

  /** The greeting as the splash screen computes it: a present, non-empty
      parameter is decoded once more with `decodeURIComponent` and its `+`
      signs become spaces; a `URIError` from the decoding escapes the
      effect. */
  function GuestNameAsWritten(to: Option<string>): (r: Result<string, ScriptError>)
    ensures !TruthyOpt(to) ==> r == Success(DefaultGuestName)
    ensures TruthyOpt(to) ==> (r.Failure? <==> DecodeUri(to.value).Failure?)
    ensures TruthyOpt(to) && r.Failure? ==> r.error == UriError
    ensures TruthyOpt(to) && r.Success? ==>
      var decoded := DecodeUri(to.value).value;
      && |r.value| == |decoded|
      && (forall i :: 0 <= i < |decoded| ==> r.value[i] == if decoded[i] == '+' then ' ' else decoded[i])
      && '+' !in r.value
  {
    if TruthyOpt(to) then
      match DecodeUri(to.value)
      case Success(d) => Success(ReplaceAll(d, '+', ' '))
      case Failure(e) => Failure(e)
    else Success(DefaultGuestName)
  }

  /** The greeting with the parameter used as the browser delivers it. */
  function GuestName(to: Option<string>): (r: string)
    ensures TruthyOpt(to) ==> r == to.value
    ensures !TruthyOpt(to) ==> r == DefaultGuestName
  {
    if TruthyOpt(to) then to.value else DefaultGuestName
  }

  /** For a name with neither `%` nor `+` the two agree. */
  lemma PlainNamesAgree(name: string)
    requires '%' !in name && '+' !in name
    ensures GuestNameAsWritten(Some(name)) == Success(GuestName(Some(name)))
  {
    DecodeUriPlain(name);
    if |name| > 0 {
      assert ReplaceAll(name, '+', ' ') == name;
    }
  }

  /** A name holding a `%` that is not followed by two hexadecimal digits,
      such as "100% Sure" (sent as `?to=100%25%20Sure`), makes the second
      decoding raise a `URIError`. */
  lemma StrayPercentThrows(a: string, b: string)
    requires '%' !in a
    requires |b| < 2 || !IsHexDigit(b[0]) || !IsHexDigit(b[1])
    ensures GuestNameAsWritten(Some(a + "%" + b)) == Failure(UriError)
    ensures GuestName(Some(a + "%" + b)) == a + "%" + b
  {
    DecodeUriStrayPercent(a, b);
    assert (a + "%" + b)[|a|] == '%';
  }

  lemma HundredPercentSure()
    ensures GuestNameAsWritten(Some("100" + "%" + " Sure")) == Failure(UriError)
  {
    StrayPercentThrows("100", " Sure");
  }

  /** A `+` the guest's name really contains (sent as `%2B`) is shown as a
      space. */
  lemma PlusBecomesSpace(a: string, b: string)
    requires '%' !in a + b
    ensures GuestNameAsWritten(Some(a + "+" + b)) == Success(ReplaceAll(a + "+" + b, '+', ' '))
    ensures GuestNameAsWritten(Some(a + "+" + b)) != Success(GuestName(Some(a + "+" + b)))
  {
    var s := a + "+" + b;
    assert forall i :: 0 <= i < |s| ==> s[i] != '%' by {
      forall i | 0 <= i < |s| ensures s[i] != '%' {
        if i < |a| { assert s[i] == (a + b)[i]; }
        else if i > |a| { assert s[i] == (a + b)[i - 1]; }
      }
    }
    DecodeUriPlain(s);
    assert ReplaceAll(s, '+', ' ')[|a|] == ' ';
  }

  /** Had `to` been the raw, still-encoded parameter, the code would show
      the name with its `+` signs made spaces: decoding undoes
      `encodeURIComponent` for every name. */
  lemma RawParameterDecodes(name: string)
    requires |name| > 0
    ensures GuestNameAsWritten(Some(EncodeUri(name))) == Success(ReplaceAll(name, '+', ' '))
  {
    DecodeEncode(name);
  }
}
