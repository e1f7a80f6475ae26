/**
 * Values exchanged with the mailbox service and the records the extractors build
 * from them. The service itself is not modelled: every remote call is represented
 * by its outcome (`CallOutcome`), supplied by the caller of an operation.
 */
module Mail {

  datatype Option<+T> = None | Some(value: T) {
    /** Python's `d.get(key, default)` on an optional field. */
    function GetOr(default: T): T {
      match this
      case Some(v) => v
      case None => default
    }
  }

  /** The values of the `Some` entries, in order: a list with its `None`s dropped. */
  function Present<T>(xs: seq<Option<T>>): seq<T> {
    if xs == [] then []
    else
      var last := xs[|xs| - 1];
      Present(xs[..|xs| - 1]) + (if last.Some? then [last.value] else [])
  }

  /** Every element wrapped in `Some`. */
  function Somes<T>(xs: seq<T>): (r: seq<Option<T>>)
    ensures |r| == |xs|
    ensures forall i | 0 <= i < |xs| :: r[i] == Some(xs[i])
  {
    seq(|xs|, i requires 0 <= i < |xs| => Some(xs[i]))
  }

  lemma {:induction false} PresentOfSomes<T>(xs: seq<T>)
    ensures Present(Somes(xs)) == xs
  {
    if xs != [] {
      var init := xs[..|xs| - 1];
      assert Somes(xs)[..|xs| - 1] == Somes(init);
      PresentOfSomes(init);
    }
  }

  /** An exception that escaped a script with no handler around it. */
  datatype Result<+T> = Ok(value: T) | Crash

  /** One header of a message, as the Gmail API returns it: `{'name': …, 'value': …}`. */
  datatype Header = Header(name: string, value: string)

  /**
   * One node of a message payload. A `Container` is a node that has a 'parts' key,
   * with its children in payload order; a `Leaf` has none. Both keep the node's
   * 'mimeType', its 'filename' when that key is present, and the base64url text
   * under 'body'/'data' when that key is present.
   */
  datatype Part =
    | Leaf(mimeType: string, filename: Option<string>, data: Option<string>)
    | Container(mimeType: string, filename: Option<string>, data: Option<string>, parts: seq<Part>)

  /** A message fetched with format='full': the top-level payload and its headers. */
  datatype Message = Message(headers: seq<Header>, payload: Part)

  /** An entry of a list response; only 'id' is ever read. */
  datatype MessageRef = MessageRef(id: string)

  /** A list response: 'messages' is absent when nothing matched. */
  datatype ListResponse = ListResponse(messages: Option<seq<MessageRef>>, nextPageToken: Option<string>)

  /** What one remote call did: returned a value, raised an HttpError with a status, or raised anything else. */
  datatype CallOutcome<+T> = Success(value: T) | HttpStatus(code: int) | OtherError

  newtype byte = x: int | 0 <= x < 256

  /**
   * base64url decoding followed by UTF-8 decoding; `None` where the source raises.
   * The empty text decodes to the empty string and never raises.
   */
  type Decoder = f: string -> Option<string> | f("") == Some("") witness (s: string) => Some(s)

  /** base64url decoding alone; `None` where the source raises. The empty text decodes to no bytes. */
  type ByteDecoder = f: string -> Option<seq<byte>> | f("") == Some([]) witness (s: string) => Some([])

  /** `messages().get(id=…, format='full').execute()`. */
  type GetCall = string -> CallOutcome<Message>

  /** The record built by the full and simple scripts: the keys id/date/from/subject/body. */
  datatype Email = Email(id: string, date: string, sender: string, subject: string, body: string)

  /** An attachment of the advanced script; `path` is set once the file has been written. */
  datatype Attachment = Attachment(filename: string, mimeType: string, data: seq<byte>, path: Option<string>)

  /** The record built by the advanced script. */
  datatype DetailedEmail = DetailedEmail(
    id: string, date: string, sender: string, subject: string, body: string,
    htmlBody: string, attachments: seq<Attachment>)

  /** The value of the first header named exactly `name`, or the empty string: `next((…), '')`. */
  function HeaderValue(headers: seq<Header>, name: string): string {
    if headers == [] then ""
    else if headers[0].name == name then headers[0].value
    else HeaderValue(headers[1..], name)
  }

  /** The lookup gives '' when no header has that name. */
  lemma {:induction false} HeaderValueAbsent(headers: seq<Header>, name: string)
    requires forall i | 0 <= i < |headers| :: headers[i].name != name
    ensures HeaderValue(headers, name) == ""
  {
    if headers != [] {
      assert forall i | 0 <= i < |headers| - 1 :: headers[1..][i] == headers[i + 1];
      HeaderValueAbsent(headers[1..], name);
    }
  }

  /** The lookup finds the first header with that name. */
  lemma {:induction false} HeaderValueFirstMatch(headers: seq<Header>, name: string, k: nat)
    requires k < |headers| && headers[k].name == name
    requires forall j | 0 <= j < k :: headers[j].name != name
    ensures HeaderValue(headers, name) == headers[k].value
  {
    if k > 0 {
      assert headers[1..][k - 1] == headers[k];
      assert forall j | 0 <= j < k - 1 :: headers[1..][j] == headers[j + 1];
      HeaderValueFirstMatch(headers[1..], name, k - 1);
    }
  }
}
