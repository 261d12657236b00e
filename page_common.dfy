/** Helpers the two approval pages share: each page file carries its own
    identical copy of the token decoder and of `escapeHtml`
    (public/assets/js/pages/approve-forget.js and approve-register.js), and
    both pages show the same panels and make the same approve or reject
    decision. */
module PageCommon {

  import opened Js
  import HtmlEscape
  import opened Api

  /** The apostrophe entity both pages write. */
  const AposEntity := "&#39;"

  // ---------------------------------------------------------------------------
  // Token payload

  function TranslateChar(c: char): char {
    if c == '-' then '+' else if c == '_' then '/' else c
  }

  /** The two `replaceAll` calls turning base64url into base64. */
  function Base64UrlToBase64(s: string): string {
    HtmlEscape.ReplaceAll(HtmlEscape.ReplaceAll(s, '-', "+"), '_', "/")
  }

  lemma {:induction false} ReplaceAllByChar(s: string, c: char, d: char)
    ensures var r := HtmlEscape.ReplaceAll(s, c, [d]);
      |r| == |s| && forall i | 0 <= i < |s| :: r[i] == (if s[i] == c then d else s[i])
  {
    if s != [] {
      ReplaceAllByChar(s[1..], c, d);
      var r := HtmlEscape.ReplaceAll(s, c, [d]);
      assert r == [if s[0] == c then d else s[0]] + HtmlEscape.ReplaceAll(s[1..], c, [d]);
    }
  }

  /** The translation keeps the length and rewrites exactly '-' and '_'. */
  lemma Base64UrlToBase64Charwise(s: string)
    ensures var b := Base64UrlToBase64(s);
      |b| == |s| && forall i | 0 <= i < |s| :: b[i] == TranslateChar(s[i])
  {
    ReplaceAllByChar(s, '-', '+');
    ReplaceAllByChar(HtmlEscape.ReplaceAll(s, '-', "+"), '_', '/');
  }

  /** `decodeToken(token)`. `parse` stands for base64 decoding, percent
      decoding and `JSON.parse` together and is None when one of them throws;
      a token without a second segment also gives null. */
  function DecodeToken(token: string, parse: string -> Option<Value>): (v: Value)
    ensures |Split(token, '.')| >= 2 ==>
      v == (match parse(Base64UrlToBase64(Split(token, '.')[1])) case None => Null case Some(p) => p)
    ensures '.' !in token ==> v == Null
  {
    var parts := Split(token, '.');
    SplitWithoutSeparator(token, '.');
    if |parts| < 2 then Null
    else match parse(Base64UrlToBase64(parts[1]))
      case None => Null
      case Some(payload) => payload
  }

  lemma SplitWithoutSeparator(s: string, sep: char)
    ensures sep !in s ==> Split(s, sep) == [s]
  {
    if sep !in s {
      SplitConcatBase(s, "", sep);
    }
  }

  /** For a token `header.payload` or `header.payload.signature...` the
      decoder sees exactly the translated payload segment; the signature is
      neither required nor checked. */
  lemma DecodeTokenReadsPayload(header: string, payload: string, tail: string, parse: string -> Option<Value>)
    requires '.' !in header && '.' !in payload
    requires tail == "" || tail[0] == '.'
    ensures DecodeToken(header + "." + payload + tail, parse)
      == (match parse(Base64UrlToBase64(payload)) case None => Null case Some(v) => v)
  {
    var token := header + "." + payload + tail;
    SplitWithoutSeparator(header, '.');
    SplitWithoutSeparator(payload, '.');
    if tail == "" {
      assert token == header + ['.'] + payload;
      SplitConcat(header, payload, '.');
    } else {
      var signature := tail[1..];
      assert token == header + ['.'] + (payload + ['.'] + signature);
      SplitConcat(header, payload + ['.'] + signature, '.');
      SplitConcat(payload, signature, '.');
    }
    assert Split(token, '.')[1] == payload;
  }

  /** `escapeHtml(str)`: "" for falsy input, else the escaped `String(str)`. */
  function EscapeHtml(v: Value): (r: string)
    ensures !Truthy(v) ==> r == ""
    ensures HtmlEscape.NoRawMarkup(r)
    ensures Truthy(v) ==> HtmlEscape.Unescape(r, AposEntity) == ToStr(v)
  {
    if !Truthy(v) then "" else HtmlEscape.Escape(ToStr(v), AposEntity)
  }

  datatype Action = Approve | Reject

  /** Which of the loading indicator, decision buttons, request details,
      result panel and subtitle are shown. */
  datatype Panels = Panels(loading: bool, buttons: bool, info: bool, result: bool, subtitle: bool)

  /** A finished page shows only the result panel, without a subtitle. */
  const ResultOnly := Panels(false, false, false, true, false)

  /** `res.error` as a value (undefined when the result carries none). */
  function ErrorOf(res: ApiResult): Value {
    if res.error.Some? then res.error.value else Undefined
  }
}
