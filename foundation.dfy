/** The Foundation values the core handles: URLs, URL errors and parsed JSON.
    How a string is parsed into a URL, how bytes are parsed into JSON and how a
    URLError renders itself are runtime behaviour; the model takes them as given. */
module Foundation {

  /** A URL: one that `URL(string:)` produced, or one built from a file path
      (`URL(fileURLWithPath:)`, and the URLs `Bundle.url(forResource:withExtension:)` returns). */
  datatype Url = WebUrl(text: string) | FileUrl(path: string)

  /** A URLError: its code and the text that string interpolation renders for it. */
  datatype UrlError = UrlError(code: int, description: string)

  /** `URLError(.zeroByteResource)`; code -1014 in URLError.Code. The rendered text is
      whatever the runtime prints for it; the model only needs it to be one fixed string. */
  const ZeroByteResource: UrlError := UrlError(-1014, "zeroByteResource")

  /** A parsed JSON value. Objects are maps from member name to value. */
  datatype Json =
    | JNull
    | JBool(b: bool)
    | JNumber(n: int)
    | JString(s: string)
    | JArray(items: seq<Json>)
    | JObject(fields: map<string, Json>)
}
