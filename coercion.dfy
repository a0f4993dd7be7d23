/** Conversion of the raw response text into the representation named by `responseType`.
    The libraries that do the real work (JSON parsing, building a DOM node, decoding a
    one-byte-per-character string) are outside the model: their results are tagged values
    that remember the text they were made from. */
module Coercion {

  /** A response as the transport holds it. */
  datatype Value =
    | Unset                      // no `response` yet (a Level 1 transport has none)
    | Text(text: string)         // the text itself
    | Json(source: string)       // what the JSON parser made of `source`
    | HtmlBody(markup: string)   // a `body` element whose inner HTML is `markup`
    | ByteArray(source: string)  // the bytes decoded from `source`, one per character

  /** The outcome of a conversion; `ParseFailed` is the exception the JSON parser throws. */
  datatype Conversion = Converted(value: Value) | ParseFailed

  /** The text a converted value was made from. */
  function Source(v: Value): string
  {
    match v
    case Unset => ""
    case Text(t) => t
    case Json(t) => t
    case HtmlBody(t) => t
    case ByteArray(t) => t
  }

  /** The response types that are converted at all; every other type keeps the text. */
  predicate IsConvertedType(responseType: string)
  {
    responseType == "json" || responseType == "document" ||
    responseType == "arraybuffer" || responseType == "blob"
  }

  /** A `body` element holding the markup when running in a browser, otherwise the text itself. */
  function CreateHTMLDocument(text: string, onBrowser: bool): (v: Value)
    ensures !onBrowser ==> v == Text(text)
    ensures Source(v) == text
  {
    if onBrowser then HtmlBody(text) else Text(text)
  }

  /** The `switch` on the response type. `jsonParses` tells whether the JSON parser accepts a text. */
  function ConvertDataType(text: string, responseType: string, onBrowser: bool,
                           jsonParses: string -> bool): (r: Conversion)
    ensures responseType == "json" && jsonParses(text) ==> r == Converted(Json(text))
    ensures !IsConvertedType(responseType) ==> r == Converted(Text(text))
    ensures responseType == "document" && !onBrowser ==> r == Converted(Text(text))
    ensures (responseType == "arraybuffer" || responseType == "blob") ==> r == Converted(ByteArray(text))
    ensures r == ParseFailed <==> responseType == "json" && !jsonParses(text)
    ensures r.Converted? ==> r.value != Unset && Source(r.value) == text
  {
    if responseType == "json" then
      (if jsonParses(text) then Converted(Json(text)) else ParseFailed)
    else if responseType == "document" then Converted(CreateHTMLDocument(text, onBrowser))
    else if responseType == "arraybuffer" || responseType == "blob" then Converted(ByteArray(text))
    else Converted(Text(text))
  }
}
