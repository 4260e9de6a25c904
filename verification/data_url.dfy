/** The image preview URL: composed from the upload reply as a data URL
    (`data:<mediatype>;base64,<data>`, the syntax of RFC 2397) and taken
    apart again with two `split` calls when the chat request is built. */
module DataUrl {
  import opened Wrappers
  import opened JsString

  /** The characters of the base64 alphabet of section 4 of RFC 4648,
      padding included. */
  predicate IsBase64Char(c: char) {
    ('A' <= c <= 'Z') || ('a' <= c <= 'z') || ('0' <= c <= '9') || c == '+' || c == '/' || c == '='
  }

  predicate IsBase64(s: string) {
    forall k :: 0 <= k < |s| ==> IsBase64Char(s[k])
  }

  /** A content type without parameters: none of the separators the
      parsing splits on. */
  predicate IsPlainContentType(t: string) {
    ';' !in t && ':' !in t && ',' !in t
  }

  /** The preview URL built from the uploaded image's content type and
      base64 payload. */
  function Compose(contentType: string, base64: string): (url: string)
    ensures |url| == |contentType| + |base64| + 13
    ensures url[..5] == "data:"
    ensures url[|url| - |base64|..] == base64
  {
    "data:" + contentType + ";base64," + base64
  }

  /** `url.split(',')[1]`: the request's `image_data`. */
  function ImageData(url: string): (r: Option<string>)
    ensures r.Some? <==> ',' in url
    ensures r.Some? ==> ',' !in r.value
  {
    SplitCutsIffSeparator(url, ',');
    Piece(Split(url, ','), 1)
  }

  /** `url.split(';')[0].split(':')[1]`: the request's `image_type`. */
  function ImageType(url: string): (r: Option<string>)
    ensures r.Some? <==> ':' in Split(url, ';')[0]
    ensures r.Some? ==> ';' !in r.value && ':' !in r.value
  {
    var head := Split(url, ';')[0];
    SplitCutsIffSeparator(head, ':');
    SplitPiecesAvoid(head, ':', ';');
    Piece(Split(head, ':'), 1)
  }

  /** Parsing a composed preview URL gives back the content type and the
      payload it was built from. */
  lemma RoundTrip(contentType: string, base64: string)
    requires IsPlainContentType(contentType)
    requires IsBase64(base64)
    ensures ImageData(Compose(contentType, base64)) == Some(base64)
    ensures ImageType(Compose(contentType, base64)) == Some(contentType)
  {
    var url := Compose(contentType, base64);
    assert ',' !in base64;
    var head := "data:" + contentType + ";base64";
    assert ',' !in head;
    assert url == Join([head, base64], ',');
    SplitUnique([head, base64], ',');

    var prefix := "data:" + contentType;
    var params := "base64," + base64;
    assert ';' !in prefix;
    assert url == prefix + [';'] + params;
    SplitAtFirstSeparator(prefix, ';', params);
    assert Split(url, ';')[0] == prefix;
    assert prefix == Join(["data", contentType], ':');
    SplitUnique(["data", contentType], ':');
  }
}
