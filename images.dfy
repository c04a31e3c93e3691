/**
 * Data-URL helpers and the compression loop of app/.../util/ImageConverter.kt.
 * Decoding, JPEG compression and Base64 encoding are Android library calls:
 * the model receives their outcome (Conversion) and, for the loop, the size
 * the encoder produces at each quality (`sizeAt`).
 */
module Images {
  import opened Optional
  import opened Text

  /** The prefix `uriToBase64` puts in front of the encoded JPEG (section 3 of RFC 2397). */
  const JpegDataUrlPrefix: string := "data:image/jpeg;base64,"

  /** `isBase64Image`: every JPEG data URL the converter builds is recognised, and "" never is. */
  predicate IsBase64Image(url: string)
    ensures StartsWith(url, JpegDataUrlPrefix) ==> IsBase64Image(url)
    ensures IsBase64Image(url) ==> url != ""
  {
    assert StartsWith(url, JpegDataUrlPrefix) ==> url[..10] == url[..|JpegDataUrlPrefix|][..10];
    StartsWith(url, "data:image")
  }

  /** `extractBase64`: the text after the first comma, or the input when it has none. */
  function ExtractBase64(dataUrl: string): (r: string)
    ensures ',' !in dataUrl ==> r == dataUrl
    ensures ',' in dataUrl ==>
              exists i :: 0 <= i < |dataUrl| && dataUrl[i] == ',' && ',' !in dataUrl[..i] && r == dataUrl[i + 1..]
  {
    match IndexOf(dataUrl, ',')
    case None => dataUrl
    case Some(i) => dataUrl[i + 1..]
  }

  /** The alphabet of `Base64.encodeToString(bytes, Base64.NO_WRAP)`. */
  predicate IsBase64Char(c: char) {
    IsAsciiLetter(c) || IsDigit(c) || c == '+' || c == '/' || c == '='
  }

  /** The data URL `uriToBase64` builds around an encoded payload. */
  function JpegDataUrl(payload: string): (r: string)
    ensures StartsWith(r, JpegDataUrlPrefix) && r[|JpegDataUrlPrefix|..] == payload
  {
    JpegDataUrlPrefix + payload
  }

  /** Wrapping a comma-free payload and extracting it again gives the payload back. */
  lemma ExtractAfterWrap(payload: string)
    requires ',' !in payload
    ensures IsBase64Image(JpegDataUrl(payload))
    ensures ExtractBase64(JpegDataUrl(payload)) == payload
  {
    var url := JpegDataUrl(payload);
    var k := |JpegDataUrlPrefix| - 1;
    assert url[k] == ',';
    assert url[..k] == JpegDataUrlPrefix[..k];
    assert ',' !in url[..k];
    assert IndexOf(url, ',') == Some(k);
  }

  /** Every Base64 payload is comma-free, so the round trip holds for all of them. */
  lemma Base64RoundTrip(payload: string)
    requires forall i :: 0 <= i < |payload| ==> IsBase64Char(payload[i])
    ensures ExtractBase64(JpegDataUrl(payload)) == payload
  {
    ExtractAfterWrap(payload);
  }

  /** How the Android side of `uriToBase64` ended. */
  datatype Conversion =
    | NoStream                      // openInputStream returned null
    | NoBitmap                      // decodeStream returned null
    | Threw                         // any exception on the way
    | Encoded(base64: string)       // the Base64 text of the compressed JPEG

  /** `uriToBase64`: a JPEG data URL, or "" whenever conversion failed. */
  function UriToBase64(c: Conversion): (r: string)
    ensures c.Encoded? ==> r == JpegDataUrl(c.base64)
    ensures !c.Encoded? ==> r == ""
    ensures r == "" || IsBase64Image(r)
  {
    match c
    case Encoded(b) => JpegDataUrl(b)
    case _ => ""
  }

  /**
   * `compressBitmap`: tries quality 90, 80, ... while the encoded size in KB
   * (`sizeAt(quality) / 1024`, integer division) exceeds `maxSizeKB` and the
   * quality is above 30. Every compressed stream is discarded and the input
   * bitmap is returned; `quality` and `rounds` report where the loop stopped.
   */
  method CompressBitmap<Bitmap>(bitmap: Bitmap, sizeAt: int -> nat, maxSizeKB: int)
    returns (result: Bitmap, quality: int, rounds: nat)
    ensures result == bitmap
    ensures quality == 90 - 10 * rounds && 30 <= quality <= 90 && rounds <= 6
    ensures quality == 30 || sizeAt(quality) / 1024 <= maxSizeKB
    ensures forall k :: 0 <= k < rounds ==> sizeAt(90 - 10 * k) / 1024 > maxSizeKB
  {
    quality := 90;
    rounds := 0;
    var sizeKB := sizeAt(quality) / 1024;
    while sizeKB > maxSizeKB && quality > 30
      invariant quality == 90 - 10 * rounds && 30 <= quality <= 90
      invariant sizeKB == sizeAt(quality) / 1024
      invariant forall k :: 0 <= k < rounds ==> sizeAt(90 - 10 * k) / 1024 > maxSizeKB
      decreases quality
    {
      quality := quality - 10;
      rounds := rounds + 1;
      sizeKB := sizeAt(quality) / 1024;
    }
    result := bitmap;
  }
}
