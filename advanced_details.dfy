/**
 * `get_email_details` of the advanced script. The plain-text body is
 * `get_message_body` of the whole payload; the HTML body and the attachments come
 * from the top-level parts only. A top-level `text/html` part with data sets the
 * HTML body, so the last such part wins; any other top-level part with a non-empty
 * filename becomes an attachment. Any exception, a failed decode included, makes
 * the whole result `None`.
 */
module AdvancedDetails {
  import opened Mail
  import opened MimeBody

  predicate IsHtmlWithData(p: Part) {
    p.mimeType == "text/html" && p.data.Some?
  }

  /** `elif 'filename' in part and part['filename']`: a named part not taken as the HTML body. */
  predicate IsAttachment(p: Part) {
    !IsHtmlWithData(p) && p.filename.Some? && p.filename.value != ""
  }

  /** A part whose decoding raises: an HTML body that is not base64url, or an attachment whose data is not. */
  predicate PartFails(decode: Decoder, bytes: ByteDecoder, p: Part) {
    (IsHtmlWithData(p) && decode(p.data.value).None?) ||
    (IsAttachment(p) && bytes(p.data.GetOr("")).None?)
  }

  /** The HTML body and attachments picked from the top-level parts. */
  datatype Selection = Selection(html: string, attachments: seq<Attachment>)

  /** The `for part in message['payload']['parts']` loop; `None` once a decode has raised. */
  function ScanParts(decode: Decoder, bytes: ByteDecoder, ps: seq<Part>): Option<Selection> {
    if ps == [] then Some(Selection("", []))
    else
      var last := ps[|ps| - 1];
      match ScanParts(decode, bytes, ps[..|ps| - 1])
      case None => None
      case Some(sel) =>
        if IsHtmlWithData(last) then
          (match decode(last.data.value)
           case Some(t) => Some(Selection(t, sel.attachments))
           case None => None)
        else if IsAttachment(last) then
          (match bytes(last.data.GetOr(""))
           case Some(b) => Some(Selection(sel.html, sel.attachments + [Attachment(last.filename.value, last.mimeType, b, None)]))
           case None => None)
        else Some(sel)
  }

  /** The advanced record of message `id`, or `None` where the source logs an error and returns `None`. */
  function DetailsOf(decode: Decoder, bytes: ByteDecoder, get: GetCall, id: string): (r: Option<DetailedEmail>)
    ensures !get(id).Success? ==> r.None?
    ensures get(id).Success? && get(id).value.payload.Container? ==>
              (r.None? <==> ScanParts(decode, bytes, get(id).value.payload.parts).None?)
    ensures r.Some? ==> r.value.id == id && r.value.body == BodyText(decode, get(id).value.payload)
    ensures r.Some? ==> var hs := get(id).value.headers;
              && r.value.subject == HeaderValue(hs, "Subject")
              && r.value.sender == HeaderValue(hs, "From")
              && r.value.date == HeaderValue(hs, "Date")
    ensures r.Some? && get(id).value.payload.Container? ==>
              ScanParts(decode, bytes, get(id).value.payload.parts) == Some(Selection(r.value.htmlBody, r.value.attachments))
    ensures get(id).Success? && get(id).value.payload.Leaf? ==>
              var p := get(id).value.payload;
              && (r.None? <==> IsHtmlWithData(p) && decode(p.data.value).None?)
              && (r.Some? ==> r.value.attachments == [])
              && (r.Some? && IsHtmlWithData(p) ==> decode(p.data.value) == Some(r.value.htmlBody))
              && (r.Some? && !IsHtmlWithData(p) ==> r.value.htmlBody == "")
  {
    match get(id)
    case Success(m) =>
      var body := BodyText(decode, m.payload);
      var hs := m.headers;
      (match m.payload
       case Container(_, _, _, parts) =>
         (match ScanParts(decode, bytes, parts)
          case Some(sel) =>
            Some(DetailedEmail(id, HeaderValue(hs, "Date"), HeaderValue(hs, "From"), HeaderValue(hs, "Subject"),
                               body, sel.html, sel.attachments))
          case None => None)
       case Leaf(mimeType, _, data) =>
         if mimeType == "text/html" && data.Some? then
           (match decode(data.value)
            case Some(t) =>
              Some(DetailedEmail(id, HeaderValue(hs, "Date"), HeaderValue(hs, "From"), HeaderValue(hs, "Subject"),
                                 body, t, []))
            case None => None)
         else
           Some(DetailedEmail(id, HeaderValue(hs, "Date"), HeaderValue(hs, "From"), HeaderValue(hs, "Subject"),
                              body, "", [])))
    case _ => None
  }

  /** Once the loop has raised, the rest of the parts cannot undo it. */
  lemma {:induction false} ScanFailureIsFinal(decode: Decoder, bytes: ByteDecoder, ps: seq<Part>, k: nat)
    requires k <= |ps| && ScanParts(decode, bytes, ps[..k]).None?
    ensures ScanParts(decode, bytes, ps).None?
    decreases |ps|
  {
    if k == |ps| {
      assert ps[..k] == ps;
    } else {
      var init := ps[..|ps| - 1];
      assert init[..k] == ps[..k];
      ScanFailureIsFinal(decode, bytes, init, k);
    }
  }

  method GetEmailDetails(decode: Decoder, bytes: ByteDecoder, get: GetCall, id: string)
    returns (r: Option<DetailedEmail>)
    ensures r == DetailsOf(decode, bytes, get, id)
  {
    match get(id) {
      case Success(message) =>
        var hs := message.headers;
        var subject := HeaderValue(hs, "Subject");
        var sender := HeaderValue(hs, "From");
        var date := HeaderValue(hs, "Date");
        var body := GetMessageBody(decode, message.payload);
        var html := "";
        var attachments: seq<Attachment> := [];
        match message.payload {
          case Container(_, _, _, parts) =>
            var sel := ScanTopLevelParts(decode, bytes, parts);
            if sel.None? {
              return None;
            }
            html, attachments := sel.value.html, sel.value.attachments;
          case Leaf(mimeType, _, data) =>
            if mimeType == "text/html" && data.Some? {
              match decode(data.value) {
                case Some(t) =>
                  html := t;
                case None =>
                  return None;
              }
            }
        }
        r := Some(DetailedEmail(id, date, sender, subject, body, html, attachments));
      case _ =>
        r := None;
    }
  }

  /** The `for part in message['payload']['parts']` loop. */
  method ScanTopLevelParts(decode: Decoder, bytes: ByteDecoder, parts: seq<Part>) returns (sel: Option<Selection>)
    ensures sel == ScanParts(decode, bytes, parts)
  {
    var html := "";
    var attachments: seq<Attachment> := [];
    for i := 0 to |parts|
      invariant ScanParts(decode, bytes, parts[..i]) == Some(Selection(html, attachments))
    {
      assert parts[..i + 1][..i] == parts[..i];
      var part := parts[i];
      if part.mimeType == "text/html" && part.data.Some? {
        match decode(part.data.value) {
          case Some(t) =>
            html := t;
          case None =>
            ScanFailureIsFinal(decode, bytes, parts, i + 1);
            return None;
        }
      } else if part.filename.Some? && part.filename.value != "" {
        match bytes(part.data.GetOr("")) {
          case Some(b) =>
            attachments := attachments + [Attachment(part.filename.value, part.mimeType, b, None)];
          case None =>
            ScanFailureIsFinal(decode, bytes, parts, i + 1);
            return None;
        }
      }
    }
    assert parts[..|parts|] == parts;
    sel := Some(Selection(html, attachments));
  }

  /** The loop raises exactly when some top-level part fails to decode. */
  lemma {:induction false} ScanFailsIffSomePartFails(decode: Decoder, bytes: ByteDecoder, ps: seq<Part>)
    ensures ScanParts(decode, bytes, ps).None? <==> exists k | 0 <= k < |ps| :: PartFails(decode, bytes, ps[k])
  {
    if ps != [] {
      var init := ps[..|ps| - 1];
      ScanFailsIffSomePartFails(decode, bytes, init);
      if exists k | 0 <= k < |init| :: PartFails(decode, bytes, init[k]) {
        var k :| 0 <= k < |init| && PartFails(decode, bytes, init[k]);
        assert ps[k] == init[k];
      }
      if exists k | 0 <= k < |ps| :: PartFails(decode, bytes, ps[k]) {
        var k :| 0 <= k < |ps| && PartFails(decode, bytes, ps[k]);
        if k < |init| {
          assert init[k] == ps[k];
        }
      }
    }
  }

  /** One more part: the HTML body changes exactly when that part is HTML with data. */
  lemma ScanPartsStep(decode: Decoder, bytes: ByteDecoder, ps: seq<Part>)
    requires ps != [] && ScanParts(decode, bytes, ps).Some?
    ensures var last := ps[|ps| - 1];
            var before := ScanParts(decode, bytes, ps[..|ps| - 1]);
            && before.Some?
            && (IsHtmlWithData(last) ==> Some(ScanParts(decode, bytes, ps).value.html) == decode(last.data.value))
            && (!IsHtmlWithData(last) ==> ScanParts(decode, bytes, ps).value.html == before.value.html)
  {
  }

  /** Without a top-level `text/html` part carrying data, the HTML body stays empty. */
  lemma {:induction false} NoHtmlPartLeavesHtmlEmpty(decode: Decoder, bytes: ByteDecoder, ps: seq<Part>)
    requires ScanParts(decode, bytes, ps).Some?
    requires forall k | 0 <= k < |ps| :: !IsHtmlWithData(ps[k])
    ensures ScanParts(decode, bytes, ps).value.html == ""
  {
    if ps != [] {
      var init := ps[..|ps| - 1];
      ScanPartsStep(decode, bytes, ps);
      assert forall k | 0 <= k < |init| :: init[k] == ps[k];
      NoHtmlPartLeavesHtmlEmpty(decode, bytes, init);
    }
  }

  /** The HTML body is the decoded data of the last top-level `text/html` part carrying data. */
  lemma {:induction false} LastHtmlPartWins(decode: Decoder, bytes: ByteDecoder, ps: seq<Part>, k: nat)
    requires ScanParts(decode, bytes, ps).Some?
    requires k < |ps| && IsHtmlWithData(ps[k])
    requires forall j | k < j < |ps| :: !IsHtmlWithData(ps[j])
    ensures decode(ps[k].data.value) == Some(ScanParts(decode, bytes, ps).value.html)
  {
    var init := ps[..|ps| - 1];
    ScanPartsStep(decode, bytes, ps);
    if k < |ps| - 1 {
      assert forall j | 0 <= j < |init| :: init[j] == ps[j];
      LastHtmlPartWins(decode, bytes, init, k);
    }
  }

  /** The top-level parts kept as attachments, in order (a reference definition). */
  function AttachmentParts(ps: seq<Part>): (named: seq<Part>)
    ensures forall i | 0 <= i < |named| :: IsAttachment(named[i])
    ensures |named| <= |ps|
  {
    if ps == [] then []
    else AttachmentParts(ps[..|ps| - 1]) + (if IsAttachment(ps[|ps| - 1]) then [ps[|ps| - 1]] else [])
  }

  /**
   * The attachments are the named non-HTML top-level parts, in order, each with its
   * filename, its type and its decoded data (an absent or empty 'data' gives no
   * bytes), and no path yet.
   */
  lemma {:induction false} AttachmentsAreTheNamedParts(decode: Decoder, bytes: ByteDecoder, ps: seq<Part>)
    requires ScanParts(decode, bytes, ps).Some?
    ensures var atts := ScanParts(decode, bytes, ps).value.attachments;
            var named := AttachmentParts(ps);
            && |atts| == |named|
            && forall i | 0 <= i < |named| ::
                 && atts[i].filename == named[i].filename.value
                 && atts[i].mimeType == named[i].mimeType
                 && bytes(named[i].data.GetOr("")) == Some(atts[i].data)
                 && (named[i].data.GetOr("") == "" ==> atts[i].data == [])
                 && atts[i].path.None?
  {
    if ps != [] {
      AttachmentsAreTheNamedParts(decode, bytes, ps[..|ps| - 1]);
    }
  }

  /**
   * A message that is one `text/html` leaf gets that leaf's text as both its HTML
   * body and its plain body, since the body of a leaf is its own data whatever its type.
   */
  lemma HtmlLeafIsBothBodies(decode: Decoder, bytes: ByteDecoder, get: GetCall, id: string, text: string)
    requires get(id).Success? && get(id).value.payload.Leaf?
    requires var p := get(id).value.payload;
             p.mimeType == "text/html" && p.data.Some? && decode(p.data.value) == Some(text)
    ensures DetailsOf(decode, bytes, get, id).Some?
    ensures DetailsOf(decode, bytes, get, id).value.htmlBody == text
    ensures DetailsOf(decode, bytes, get, id).value.body == text
    ensures DetailsOf(decode, bytes, get, id).value.attachments == []
  {
  }
}
