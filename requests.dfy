/** The value model: body kinds, lifecycle scripts, request bodies and request cases. */
module Requests {
  import opened Wrappers
  import opened Dicts
  import opened Strings
  import Json

  /** A parameter value, in its textual form. */
  type Value = string

  /** The body kinds, with the `mode` strings they stand for. */
  datatype RequestType = NoBody | FormData | UrlEncoded | Raw {
    function Value(): string {
      match this
      case NoBody => "none"
      case FormData => "formdata"
      case UrlEncoded => "urlencoded"
      case Raw => "raw"
    }
  }

  /** A collection-level script: its source lines and its type tag. */
  datatype EventScript = EventScript(lines: seq<string>, scriptType: string)

  /** A lifecycle hook (`prerequest` or `test`) with its script. */
  datatype RequestPre = RequestPre(event: string, script: EventScript)

  /** What `content()` hands back: the field dict itself, or encoded text. */
  datatype Content = Fields(fields: Dict<Value>) | Text(text: string)

  /** One `key=value` piece of a url-encoded body. */
  function Pair(k: string, v: Value): string {
    k + "=" + v
  }

  /** The `key=value` pieces of `d`, in insertion order. */
  function Pairs(d: Dict<Value>): (r: seq<string>)
    ensures |r| == |d|
  {
    seq(|d|, i requires 0 <= i < |d| => Pair(d[i].0, d[i].1))
  }

  /** `'&'.join('{k}={v}' for k, v in d.items())`. */
  function UrlEncode(d: Dict<Value>): (r: string)
    ensures |d| == 0 ==> r == ""
  {
    Join(Pairs(d), "&")
  }

  /** A request body; the variant fixes the mode. */
  datatype RequestBody =
    | FormDataRequestBody(data: Dict<Value>)
    | UrlEncodedRequestBody(data: Dict<Value>)
    | RawRequestBody(data: Dict<Value>)
  {
    function Mode(): (m: RequestType)
      ensures m != NoBody
    {
      match this
      case FormDataRequestBody(_) => FormData
      case UrlEncodedRequestBody(_) => UrlEncoded
      case RawRequestBody(_) => Raw
    }

    /** `content()`: the dict for form data, the `&`-joined pairs for url-encoding,
        the JSON text for raw. */
    function Content(): (c: Content)
      ensures c.Fields? <==> Mode() == FormData
      ensures c.Fields? ==> c.fields == data
      ensures Mode() == Raw ==> c == Text(Json.Dumps(data))
      ensures Mode() == UrlEncoded && |data| == 0 ==> c == Text("")
    {
      match this
      case FormDataRequestBody(d) => Fields(d)
      case UrlEncodedRequestBody(d) => Text(UrlEncode(d))
      case RawRequestBody(d) => Text(Json.Dumps(d))
    }
  }

  /** One concrete request. `query`, `params`, `body` and `headers` are absent as Python's `None`. */
  datatype RequestCase = RequestCase(
    name: string,
    host: string,
    uri: string,
    httpMethod: string,
    headers: Option<Dict<Value>>,
    query: Option<Dict<Value>>,
    params: Option<Dict<Value>>,
    body: Option<RequestBody>,
    expectResult: bool)
}
