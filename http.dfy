/** The HTTP values the request pipeline works on: methods, processor priorities, the
    outbound request description and the response metadata. */
module Http {
  import opened Wrappers

  /** `Method`, whose raw value is the verb itself. */
  datatype Method = OPTIONS | GET | HEAD | POST | PUT | PATCH | DELETE | TRACE | CONNECT
  {
    function RawValue(): string
    {
      match this
      case OPTIONS => "OPTIONS"
      case GET => "GET"
      case HEAD => "HEAD"
      case POST => "POST"
      case PUT => "PUT"
      case PATCH => "PATCH"
      case DELETE => "DELETE"
      case TRACE => "TRACE"
      case CONNECT => "CONNECT"
    }
  }

  /** The failable initialiser Swift derives from the raw values. */
  function MethodFromRawValue(s: string): (m: Option<Method>)
    ensures m.Some? ==> m.value.RawValue() == s
  {
    if s == "OPTIONS" then Some(OPTIONS)
    else if s == "GET" then Some(GET)
    else if s == "HEAD" then Some(HEAD)
    else if s == "POST" then Some(POST)
    else if s == "PUT" then Some(PUT)
    else if s == "PATCH" then Some(PATCH)
    else if s == "DELETE" then Some(DELETE)
    else if s == "TRACE" then Some(TRACE)
    else if s == "CONNECT" then Some(CONNECT)
    else None
  }

  lemma MethodRawValueRoundTrip(m: Method)
    ensures MethodFromRawValue(m.RawValue()) == Some(m)
  {
  }

  /** `Priority: Int`; the raw values follow the declaration order, from 0. */
  datatype Priority = VeryLow | Low | Normal | High | VeryHigh
  {
    function RawValue(): (r: int)
      ensures 0 <= r < 5
    {
      match this
      case VeryLow => 0
      case Low => 1
      case Normal => 2
      case High => 3
      case VeryHigh => 4
    }
  }

  /** Distinct priorities have distinct raw values, which rise with the declaration order. */
  lemma PriorityOrder(a: Priority, b: Priority)
    ensures a.RawValue() == b.RawValue() <==> a == b
    ensures VeryLow.RawValue() < Low.RawValue() < Normal.RawValue() < High.RawValue() < VeryHigh.RawValue()
  {
  }

  type Byte = b: int | 0 <= b < 256

  /** `NSData`: a payload of bytes. */
  type Data = seq<Byte>

  type Header = (string, string)

  /** `NSURLRequest`: what is handed to the transport. */
  datatype URLRequest = URLRequest(url: string, httpMethod: string, headers: seq<Header>, body: Option<Data>)

  /** `NSHTTPURLResponse`: the response metadata. */
  datatype Response = Response(statusCode: int, headers: seq<Header>)

  /** The IANA name CoreFoundation reports for the UTF-8 encoding. */
  const Utf8CharsetName: string := "utf-8"

  const ContentType: string := "Content-Type"

  /** The values of every header named `name`, in order. */
  function HeaderValues(hs: seq<Header>, name: string): (vs: seq<string>)
    ensures forall v :: v in vs <==> exists k :: 0 <= k < |hs| && hs[k] == (name, v)
    decreases |hs|
  {
    if hs == [] then []
    else if hs[0].0 == name then [hs[0].1] + HeaderValues(hs[1..], name)
    else HeaderValues(hs[1..], name)
  }

  /** `generateURLRequest(_:)`: the description built from the endpoint and the serialized
      payload, before any processor runs. It carries one header, the UTF-8 charset. */
  function Describe(verb: Method, url: string, body: Option<Data>): (q: URLRequest)
    ensures q.url == url && q.body == body
    ensures MethodFromRawValue(q.httpMethod) == Some(verb)
    ensures HeaderValues(q.headers, ContentType) == ["charset=" + Utf8CharsetName]
    ensures |q.headers| == 1
  {
    URLRequest(url, verb.RawValue(), [(ContentType, "charset=" + Utf8CharsetName)], body)
  }
}
