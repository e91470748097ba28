/**
 * The character rewrite that turns the standard base64 text of the HMAC
 * into the URL-safe form sent as the `sig` query parameter. The digest
 * itself (SHA-256 and HMAC) is not part of this model.
 */
module Signing {

  /** The standard base64 alphabet, without padding. */
  predicate IsBase64Char(c: char)
  {
    ('A' <= c <= 'Z') || ('a' <= c <= 'z') || ('0' <= c <= '9') || c == '+' || c == '/'
  }

  /** The text `digest("base64")` produces: a multiple of four characters with at most two `=` at the end. */
  predicate IsPaddedBase64(s: string)
  {
    && |s| % 4 == 0
    && exists p | 0 <= p <= 2 && p <= |s| :: Padded(s, p)
  }

  /** `s` ends in exactly `p` padding characters after alphabet characters. */
  predicate Padded(s: string, p: nat)
    requires p <= |s|
  {
    && (forall i | 0 <= i < |s| - p :: IsBase64Char(s[i]))
    && (forall i | |s| - p <= i < |s| :: s[i] == '=')
  }

  function UrlChar(c: char): char
  {
    if c == '+' then '-' else if c == '/' then '_' else c
  }

  function StdChar(c: char): char
  {
    if c == '-' then '+' else if c == '_' then '/' else c
  }

  /** Every `+` becomes `-` and every `/` becomes `_`; all other characters stay. */
  function ToUrlChars(s: string): (r: string)
    ensures |r| == |s| && forall i | 0 <= i < |s| :: r[i] == UrlChar(s[i])
  {
    seq(|s|, i requires 0 <= i < |s| => UrlChar(s[i]))
  }

  function ToStdChars(s: string): (r: string)
    ensures |r| == |s| && forall i | 0 <= i < |s| :: r[i] == StdChar(s[i])
  {
    seq(|s|, i requires 0 <= i < |s| => StdChar(s[i]))
  }

  /** The trailing run of `=` padding characters is removed. */
  function StripPadding(s: string): (r: string)
    ensures r <= s
    ensures r == [] || r[|r| - 1] != '='
    ensures forall i | |r| <= i < |s| :: s[i] == '='
  {
    if |s| > 0 && s[|s| - 1] == '=' then StripPadding(s[..|s| - 1]) else s
  }

  /** The signature rewrite of `hmacBase64Url`. */
  function Base64Url(sig: string): (r: string)
    ensures forall i | 0 <= i < |r| :: r[i] != '+' && r[i] != '/'
    ensures r == [] || r[|r| - 1] != '='
  {
    StripPadding(ToUrlChars(sig))
  }

  /** Decoding side: back to the standard alphabet, padded to a multiple of four. */
  function FromBase64Url(t: string): string
  {
    var s := ToStdChars(t);
    s + seq((4 - |s| % 4) % 4, _ => '=')
  }

  /** The rewrite loses nothing: the standard base64 text can be recovered from the URL-safe signature. */
  lemma Base64UrlRoundTrip(s: string)
    requires IsPaddedBase64(s)
    ensures FromBase64Url(Base64Url(s)) == s
  {
    var p :| 0 <= p <= 2 && p <= |s| && Padded(s, p);
    var body := s[..|s| - p];
    StripsToBody(s, p);
    StdUndoesUrl(body);
    PadCount(|s|, p);
    Repad(Base64Url(s), body, p);
    PaddingIsTail(s, p);
    assert s == body + s[|s| - p..];
  }

  /** Decoding a text whose back-mapped form is `body` appends the `p` padding characters `body` lacks. */
  lemma Repad(t: string, body: string, p: nat)
    requires ToStdChars(t) == body && (4 - |body| % 4) % 4 == p
    ensures FromBase64Url(t) == body + seq(p, _ => '=')
  {
  }

  lemma PaddingIsTail(s: string, p: nat)
    requires p <= |s| && Padded(s, p)
    ensures seq(p, _ => '=') == s[|s| - p..]
  {
  }

  /** Rewriting and stripping leaves the rewritten alphabet part. */
  lemma StripsToBody(s: string, p: nat)
    requires p <= |s| && Padded(s, p)
    ensures Base64Url(s) == ToUrlChars(s[..|s| - p])
  {
    var u := ToUrlChars(s);
    if p < |s| {
      assert IsBase64Char(s[|s| - p - 1]);
    }
    StripTrailing(u, p);
    assert u[..|s| - p] == ToUrlChars(s[..|s| - p]);
  }

  /** Back-mapping undoes the rewrite on alphabet characters. */
  lemma StdUndoesUrl(body: string)
    requires forall i | 0 <= i < |body| :: IsBase64Char(body[i])
    ensures ToStdChars(ToUrlChars(body)) == body
  {
  }

  lemma PadCount(n: nat, p: nat)
    requires n % 4 == 0 && p <= 2 && p <= n
    ensures (4 - (n - p) % 4) % 4 == p
  {
    if p == 1 {
      assert (n - 1) % 4 == 3;
    } else if p == 2 {
      assert (n - 2) % 4 == 2;
    }
  }

  /** Stripping a text that ends in exactly `p` padding characters removes those `p`. */
  lemma {:induction false} StripTrailing(u: string, p: nat)
    requires p <= |u|
    requires forall i | |u| - p <= i < |u| :: u[i] == '='
    requires p < |u| ==> u[|u| - p - 1] != '='
    ensures StripPadding(u) == u[..|u| - p]
    decreases p
  {
    if p > 0 {
      var v := u[..|u| - 1];
      StripTrailing(v, p - 1);
      assert v[..|v| - (p - 1)] == u[..|u| - p];
    } else {
      assert u[..|u|] == u;
    }
  }
}
