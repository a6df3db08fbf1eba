// The HTTP stand-ins of the WASM utility crate: a URI accepted by its
// scheme prefix, a status code below 600 and an always-valid header value.

module UtilHttp {
  import opened Wrappers
  import opened Text
  import opened Bytes

  newtype U16 = x: int | 0 <= x < 0x1_0000

  datatype UriError = UriError

  datatype Uri = Uri(text: string)

  const UriSchemes: seq<string> := ["http://", "https://", "file://", "data:"]

  /// `Uri::from_str`, which the `FromStr` impl calls unchanged: accepted
  /// exactly when the text starts with one of the four scheme prefixes,
  /// and then stored as given.
  function UriFromStr(s: string): (r: Result<Uri, UriError>)
    ensures r.Ok? <==> exists i | 0 <= i < |UriSchemes| :: StartsWith(s, UriSchemes[i])
    ensures r.Ok? ==> r.value.text == s
  {
    if StartsWith(s, "http://") || StartsWith(s, "https://") || StartsWith(s, "file://") || StartsWith(s, "data:") then
      assert exists i | 0 <= i < 4 :: StartsWith(s, UriSchemes[i]) by {
        assert StartsWith(s, UriSchemes[0]) || StartsWith(s, UriSchemes[1]) ||
               StartsWith(s, UriSchemes[2]) || StartsWith(s, UriSchemes[3]);
      }
      Ok(Uri(s))
    else
      Err(UriError)
  }

  /// An accepted URI parses again to itself.
  lemma UriReparse(s: string)
    requires UriFromStr(s).Ok?
    ensures UriFromStr(UriFromStr(s).value.text) == UriFromStr(s)
  {
  }

  datatype StatusCode = StatusCode(code: U16)

  const Ok200: StatusCode := StatusCode(200)
  const NotFound: StatusCode := StatusCode(404)
  const InternalServerError: StatusCode := StatusCode(500)

  function AsU16(status: StatusCode): (code: U16)
    ensures StatusCode(code) == status
  {
    status.code
  }

  /// Any code below 600 is accepted and kept as given.
  function FromU16(code: U16): (r: Result<StatusCode, ()>)
    ensures r.Ok? <==> code < 600
    ensures r.Ok? ==> AsU16(r.value) == code
  {
    if code < 600 then Ok(StatusCode(code)) else Err(())
  }

  /// The named codes are the ones `from_u16` gives for 200, 404 and 500.
  lemma NamedCodes()
    ensures FromU16(200) == Ok(Ok200) && AsU16(Ok200) == 200
    ensures FromU16(404) == Ok(NotFound) && AsU16(NotFound) == 404
    ensures FromU16(500) == Ok(InternalServerError) && AsU16(InternalServerError) == 500
  {
  }

  /// A header value is the UTF-8 text it was made from.
  datatype HeaderValue = HeaderValue(text: string)

  function HeaderValueFromStr(s: string): (r: Result<HeaderValue, ()>)
    ensures r.Ok? && r.value.text == s
  {
    Ok(HeaderValue(s))
  }

  /// The UTF-8 encoding of one Unicode scalar value.
  function Utf8Char(c: char): (bytes: seq<Byte>)
    ensures 1 <= |bytes| <= 4
    ensures c as int < 0x80 <==> |bytes| == 1
    ensures |bytes| == 1 ==> bytes[0] == c as int
  {
    var v := c as int;
    if v < 0x80 then [v]
    else if v < 0x800 then [0xC0 + v / 0x40, 0x80 + v % 0x40]
    else if v < 0x1_0000 then
      [0xE0 + v / 0x1000, 0x80 + v / 0x40 % 0x40, 0x80 + v % 0x40]
    else
      [0xF0 + v / 0x4_0000, 0x80 + v / 0x1000 % 0x40,
       0x80 + v / 0x40 % 0x40, 0x80 + v % 0x40]
  }

  function Utf8(s: string): (bytes: seq<Byte>)
    ensures |s| <= |bytes| <= 4 * |s|
  {
    if |s| == 0 then [] else Utf8Char(s[0]) + Utf8(s[1..])
  }

  /// `as_bytes`: the UTF-8 bytes of the stored text.
  function AsBytes(h: HeaderValue): (bytes: seq<Byte>)
    ensures |h.text| <= |bytes| <= 4 * |h.text|
  {
    Utf8(h.text)
  }

  /// ASCII text is stored one byte per character, each byte its code.
  lemma {:induction false} AsciiBytes(s: string)
    requires forall i | 0 <= i < |s| :: s[i] as int < 0x80
    ensures |AsBytes(HeaderValue(s))| == |s|
    ensures forall i | 0 <= i < |s| :: AsBytes(HeaderValue(s))[i] == s[i] as int
  {
    if |s| > 0 {
      AsciiBytes(s[1..]);
      assert forall i | 1 <= i < |s| :: s[1..][i - 1] == s[i];
    }
  }
}
