/** Gmail message decoding: the body chosen from a message's MIME parts, the
    header map and label flags of a message's details, listing with failed
    details dropped, the search-query builders and the SMS carrier check.
    The Gmail API, base64 decoding, reply stripping and date parsing are
    abstract collaborators. */
module Gmail {
  import opened Wrappers
  import opened Text
  import opened SmsGateways

  /** One MIME part: its type and its still-encoded body data, if any. */
  datatype Part = Part(mimeType: string, data: Option<string>)

  /** A payload either lists parts, or is a single part itself. */
  datatype Payload = Multipart(parts: seq<Part>) | Single(part: Part)

  /** base64url decoding of body data followed by UTF-8 decoding; None when
      either step raises (data that is not base64url, bytes that are not
      UTF-8). */
  type Decoder = string -> Option<string>

  const PlainText: string := "text/plain"
  const HtmlText: string := "text/html"

  predicate PlainWithData(p: Part) {
    p.mimeType == PlainText && p.data.Some?
  }

  predicate HtmlWithData(p: Part) {
    p.mimeType == HtmlText && p.data.Some?
  }

  /** Every plain-text or HTML part with data decodes. */
  predicate Decodes(parts: seq<Part>, decode: Decoder) {
    forall i :: 0 <= i < |parts| && (PlainWithData(parts[i]) || HtmlWithData(parts[i])) ==>
      decode(parts[i].data.value).Some?
  }

  /** An HTML part whose decoded data is non-empty: the first one fills the body. */
  predicate HtmlHit(p: Part, decode: Decoder) {
    HtmlWithData(p) && decode(p.data.value).Some? && decode(p.data.value).value != ""
  }

  // ---------------------------------------------------------------------
  // _extract_message_body

  /** Where the loop over the parts stands: still going with the body so
      far, stopped by the `break` after a plain-text part, or raised by a
      decode. */
  datatype Scan = Scanning(body: string) | Stopped(body: string) | Raised

  /** One iteration: a plain-text part with data is decoded and ends the
      loop; an HTML part with data is decoded while the body is still empty. */
  function ScanPart(body: string, p: Part, decode: Decoder): Scan {
    if PlainWithData(p) then
      match decode(p.data.value)
      case None => Raised
      case Some(t) => Stopped(t)
    else if HtmlWithData(p) && body == "" then
      match decode(p.data.value)
      case None => Raised
      case Some(t) => Scanning(t)
    else
      Scanning(body)
  }

  /** The loop over the parts, in order. */
  function ScanParts(parts: seq<Part>, decode: Decoder): Scan
    decreases |parts|
  {
    if parts == [] then Scanning("")
    else
      match ScanParts(parts[..|parts| - 1], decode)
      case Scanning(body) => ScanPart(body, parts[|parts| - 1], decode)
      case done => done
  }

  /** The data of the plain-text parts with data seen so far: the earliest. */
  function FirstPlain(parts: seq<Part>): (r: Option<string>)
    ensures r.Some? ==> exists i :: 0 <= i < |parts| && PlainWithData(parts[i]) && r == parts[i].data
  {
    if parts == [] then None
    else
      var init := FirstPlain(parts[..|parts| - 1]);
      var last := parts[|parts| - 1];
      if init.Some? then init
      else if PlainWithData(last) then last.data
      else None
  }

  /** What the HTML branch leaves in the body when every decode succeeds:
      each HTML part with data is decoded into it while it is still empty. */
  function HtmlBody(parts: seq<Part>, decode: Decoder): string {
    if parts == [] then ""
    else
      var init := HtmlBody(parts[..|parts| - 1], decode);
      var last := parts[|parts| - 1];
      if init == "" && HtmlWithData(last) then decode(last.data.value).GetOr("") else init
  }

  /** The body of a payload, None when a decode raises: for parts, the loop
      over them; a single part is decoded only when it is plain text or HTML
      with data. */
  function MessageBody(payload: Payload, decode: Decoder): Option<string> {
    match payload
    case Multipart(parts) =>
      (match ScanParts(parts, decode)
       case Raised => None
       case Scanning(body) => Some(body)
       case Stopped(body) => Some(body))
    case Single(p) =>
      if (p.mimeType == PlainText || p.mimeType == HtmlText) && p.data.Some? then decode(p.data.value) else Some("")
  }

  /** `FirstPlain` is the first plain-text part with data, and None exactly
      when there is none. */
  lemma {:induction false} FirstPlainSpec(parts: seq<Part>)
    ensures FirstPlain(parts).None? <==> forall i :: 0 <= i < |parts| ==> !PlainWithData(parts[i])
    ensures forall i :: 0 <= i < |parts| && PlainWithData(parts[i])
                        && (forall j :: 0 <= j < i ==> !PlainWithData(parts[j])) ==>
      FirstPlain(parts) == parts[i].data
    decreases |parts|
  {
    if parts != [] {
      var init := parts[..|parts| - 1];
      FirstPlainSpec(init);
      forall i | 0 <= i < |parts| && PlainWithData(parts[i]) && (forall j :: 0 <= j < i ==> !PlainWithData(parts[j]))
        ensures FirstPlain(parts) == parts[i].data
      {
        if i < |parts| - 1 {
          assert init[i] == parts[i];
          assert forall j :: 0 <= j < i ==> !PlainWithData(init[j]);
        } else {
          assert forall j :: 0 <= j < |init| ==> !PlainWithData(init[j]);
        }
      }
      if FirstPlain(parts).None? {
        assert forall i :: 0 <= i < |init| ==> init[i] == parts[i];
      }
    }
  }

  /** The HTML body is the decoded data of the first HTML part whose data
      decodes to something non-empty, and empty when there is none. */
  lemma {:induction false} HtmlBodySpec(parts: seq<Part>, decode: Decoder)
    ensures HtmlBody(parts, decode) == "" <==> forall i :: 0 <= i < |parts| ==> !HtmlHit(parts[i], decode)
    ensures forall i :: 0 <= i < |parts| && HtmlHit(parts[i], decode)
                        && (forall j :: 0 <= j < i ==> !HtmlHit(parts[j], decode)) ==>
      HtmlBody(parts, decode) == decode(parts[i].data.value).value
    decreases |parts|
  {
    if parts != [] {
      var init := parts[..|parts| - 1];
      HtmlBodySpec(init, decode);
      forall i | 0 <= i < |parts| && HtmlHit(parts[i], decode) && (forall j :: 0 <= j < i ==> !HtmlHit(parts[j], decode))
        ensures HtmlBody(parts, decode) == decode(parts[i].data.value).value
      {
        if i < |parts| - 1 {
          assert init[i] == parts[i];
          assert forall j :: 0 <= j < i ==> !HtmlHit(init[j], decode);
        } else {
          assert forall j :: 0 <= j < |init| ==> !HtmlHit(init[j], decode);
        }
      }
      if HtmlBody(parts, decode) == "" {
        assert forall i :: 0 <= i < |init| ==> init[i] == parts[i];
      }
    }
  }

  /** When every decode succeeds, the loop yields the reference body: the
      first plain-text part with data wins over any HTML, and otherwise the
      first HTML part decoding to something non-empty; so a loop that raises
      has met a part that does not decode. */
  lemma {:induction false} ScanDecodes(parts: seq<Part>, decode: Decoder)
    requires Decodes(parts, decode)
    ensures ScanParts(parts, decode)
         == if FirstPlain(parts).Some? then Stopped(decode(FirstPlain(parts).value).value)
            else Scanning(HtmlBody(parts, decode))
    decreases |parts|
  {
    if parts != [] {
      var init := parts[..|parts| - 1];
      assert forall i :: 0 <= i < |init| ==> init[i] == parts[i];
      ScanDecodes(init, decode);
      var last := parts[|parts| - 1];
      assert PlainWithData(last) || HtmlWithData(last) ==> decode(last.data.value).Some?;
    }
  }

  /** After the `break`, the remaining parts are never looked at; after a
      raise, neither. */
  lemma {:induction false} ScanStops(parts: seq<Part>, k: nat, decode: Decoder)
    requires k <= |parts| && !ScanParts(parts[..k], decode).Scanning?
    ensures ScanParts(parts, decode) == ScanParts(parts[..k], decode)
    decreases |parts| - k
  {
    if k < |parts| {
      var init := parts[..|parts| - 1];
      assert init[..k] == parts[..k];
      ScanStops(init, k, decode);
    } else {
      assert parts[..k] == parts;
    }
  }

  /** The body is the reference body whenever every part decodes, and a
      body that raises comes from a part that does not decode. */
  lemma MessageBodySpec(parts: seq<Part>, decode: Decoder)
    ensures Decodes(parts, decode) ==>
      MessageBody(Multipart(parts), decode)
        == Some(if FirstPlain(parts).Some? then decode(FirstPlain(parts).value).value else HtmlBody(parts, decode))
    ensures MessageBody(Multipart(parts), decode).None? ==>
      exists i :: 0 <= i < |parts| && (PlainWithData(parts[i]) || HtmlWithData(parts[i]))
                  && decode(parts[i].data.value).None?
  {
    if Decodes(parts, decode) {
      ScanDecodes(parts, decode);
    }
  }

  /** The loop over the parts, with its early exit on the first plain-text
      part that has data; a decode that raises ends it with None. */
  method ExtractMessageBody(payload: Payload, decode: Decoder) returns (body: Option<string>)
    ensures body == MessageBody(payload, decode)
  {
    match payload {
      case Multipart(parts) =>
        var text := "";
        var i := 0;
        while i < |parts|
          invariant 0 <= i <= |parts|
          invariant ScanParts(parts[..i], decode) == Scanning(text)
        {
          var part := parts[i];
          assert parts[..i + 1][..i] == parts[..i];
          if part.mimeType == PlainText {
            if part.data.Some? {
              var decoded := decode(part.data.value);
              ScanStops(parts, i + 1, decode);
              if decoded.None? {
                return None;
              }
              return Some(decoded.value);
            }
          } else if part.mimeType == HtmlText && text == "" {
            if part.data.Some? {
              var decoded := decode(part.data.value);
              if decoded.None? {
                ScanStops(parts, i + 1, decode);
                return None;
              }
              text := decoded.value;
            }
          }
          i := i + 1;
        }
        assert parts[..i] == parts;
        body := Some(text);
      case Single(p) =>
        body := Some("");
        if p.mimeType == PlainText {
          if p.data.Some? {
            body := decode(p.data.value);
          }
        } else if p.mimeType == HtmlText {
          if p.data.Some? {
            body := decode(p.data.value);
          }
        }
    }
  }

  // ---------------------------------------------------------------------
  // get_message_detail

  datatype Header = Header(name: string, value: string)

  /** `{h['name']: h['value'] for h in headers}`: later headers overwrite earlier ones. */
  function HeaderMap(hs: seq<Header>): map<string, string> {
    if hs == [] then map[]
    else HeaderMap(hs[..|hs| - 1])[hs[|hs| - 1].name := hs[|hs| - 1].value]
  }

  /** The value of the last header called `name`, or "" when there is none. */
  function LastValue(hs: seq<Header>, name: string): string {
    if hs == [] then ""
    else if hs[|hs| - 1].name == name then hs[|hs| - 1].value
    else LastValue(hs[..|hs| - 1], name)
  }

  /** `header_dict.get(name, '')`. */
  function Lookup(m: map<string, string>, name: string): string {
    if name in m then m[name] else ""
  }

  /** The header map holds exactly the names that occur, and looking a name
      up gives the value of its last occurrence, or "" for a missing name. */
  lemma {:induction false} HeaderMapSpec(hs: seq<Header>, name: string)
    ensures name in HeaderMap(hs) <==> exists i :: 0 <= i < |hs| && hs[i].name == name
    ensures Lookup(HeaderMap(hs), name) == LastValue(hs, name)
    decreases |hs|
  {
    if hs != [] {
      var init := hs[..|hs| - 1];
      HeaderMapSpec(init, name);
      if name in HeaderMap(init) {
        var i :| 0 <= i < |init| && init[i].name == name;
        assert hs[i].name == name;
      }
      if exists i :: 0 <= i < |hs| && hs[i].name == name {
        var i :| 0 <= i < |hs| && hs[i].name == name;
        if i < |hs| - 1 {
          assert init[i].name == name;
        }
      }
    }
  }

  /** `LastValue` is the value of the last header with that name. */
  lemma {:induction false} LastValueSpec(hs: seq<Header>, name: string, i: nat)
    requires i < |hs| && hs[i].name == name
    requires forall j :: i < j < |hs| ==> hs[j].name != name
    ensures LastValue(hs, name) == hs[i].value
    decreases |hs|
  {
    if i < |hs| - 1 {
      var init := hs[..|hs| - 1];
      assert init[i] == hs[i];
      LastValueSpec(init, name, i);
    }
  }

  /** A message as the API returns it in full format. */
  datatype RawMessage = RawMessage(
    id: string,
    threadId: string,
    payload: Payload,
    headers: Option<seq<Header>>,
    labelIds: Option<seq<string>>,
    snippet: Option<string>)

  /** The library calls the detail relies on: body decoding, reply stripping
      and the Date header turned into an ISO timestamp (a header that does
      not parse gives the current time, so the call is total). */
  datatype Codecs = Codecs(decode: Decoder, cleanReply: string -> string, isoDate: string -> string)

  datatype MessageDetail = MessageDetail(
    id: string,
    threadId: string,
    subject: string,
    sender: string,
    to: string,
    cc: string,
    bcc: string,
    date: Option<string>,
    body: string,
    bodyClean: string,
    labels: seq<string>,
    snippet: string,
    isUnread: bool,
    isImportant: bool,
    rawHeaders: map<string, string>)

  const UnreadLabel: string := "UNREAD"
  /** `max_results` when the caller gives none. */
  const DefaultMaxResults: nat := 10
  const ImportantLabel: string := "IMPORTANT"

  /** The details dictionary built from a fetched message; None when the
      body does not decode (the exception leaves get_message_detail, whose
      `except` catches only HTTP errors). */
  function Detail(msg: RawMessage, c: Codecs): Option<MessageDetail> {
    var hs := msg.headers.GetOr([]);
    var headers := HeaderMap(hs);
    var dateText := Lookup(headers, "Date");
    var labels := msg.labelIds.GetOr([]);
    match MessageBody(msg.payload, c.decode)
    case None => None
    case Some(body) =>
      Some(MessageDetail(
        msg.id, msg.threadId,
        Lookup(headers, "Subject"), Lookup(headers, "From"), Lookup(headers, "To"),
        Lookup(headers, "Cc"), Lookup(headers, "Bcc"),
        if dateText != "" then Some(c.isoDate(dateText)) else None,
        body,
        if body != "" then c.cleanReply(body) else "",
        labels,
        msg.snippet.GetOr(""),
        UnreadLabel in labels,
        ImportantLabel in labels,
        headers))
  }

  /** A detail exists exactly when the body decodes; its fields follow the
      message: each address field is its header's last value or "", the
      flags follow the labels (absent labels being none), and a date is
      present exactly when a non-empty Date header is. */
  lemma DetailSpec(msg: RawMessage, c: Codecs)
    ensures Detail(msg, c).Some? <==> MessageBody(msg.payload, c.decode).Some?
    ensures Detail(msg, c).Some? ==>
      var d := Detail(msg, c).value; var hs := msg.headers.GetOr([]);
      && d.id == msg.id && d.threadId == msg.threadId
      && d.subject == LastValue(hs, "Subject") && d.sender == LastValue(hs, "From")
      && d.to == LastValue(hs, "To") && d.cc == LastValue(hs, "Cc") && d.bcc == LastValue(hs, "Bcc")
      && (d.date.Some? <==> LastValue(hs, "Date") != "")
      && Some(d.body) == MessageBody(msg.payload, c.decode)
      && (d.body == "" ==> d.bodyClean == "")
      && (msg.labelIds.None? ==> d.labels == [] && !d.isUnread && !d.isImportant)
      && (d.isUnread <==> exists i :: 0 <= i < |d.labels| && d.labels[i] == UnreadLabel)
      && (d.isImportant <==> exists i :: 0 <= i < |d.labels| && d.labels[i] == ImportantLabel)
  {
    var hs := msg.headers.GetOr([]);
    HeaderMapSpec(hs, "Subject");
    HeaderMapSpec(hs, "From");
    HeaderMapSpec(hs, "To");
    HeaderMapSpec(hs, "Cc");
    HeaderMapSpec(hs, "Bcc");
    HeaderMapSpec(hs, "Date");
  }

  // ---------------------------------------------------------------------
  // get_messages

  /** The API calls: listing ids for a query (None for an HTTP error),
      fetching one message (None for an HTTP error) and sending a raw
      message to an address (false when the call raises). */
  datatype GmailApi = GmailApi(
    list: (string, nat) -> Option<seq<string>>,
    get: string -> Option<RawMessage>,
    send: (string, string) -> bool)

  /** The exception a listing lets through: a message whose body does not decode. */
  datatype ListingError = UndecodableBody(messageId: string)

  /** One id of a listing: its detail, nothing for an HTTP error, or the
      decoding error that raises out of the listing. */
  function FetchDetail(api: GmailApi, c: Codecs, id: string): Result<Option<MessageDetail>, ListingError> {
    match api.get(id)
    case None => Ok(None)
    case Some(msg) =>
      match Detail(msg, c)
      case None => Err(UndecodableBody(id))
      case Some(d) => Ok(Some(d))
  }

  /** Two stretches of a listing one after the other: the first error wins. */
  function Concat(a: Result<seq<MessageDetail>, ListingError>, b: Result<seq<MessageDetail>, ListingError>)
    : Result<seq<MessageDetail>, ListingError>
  {
    match a
    case Err(e) => Err(e)
    case Ok(xs) =>
      match b
      case Err(e) => Err(e)
      case Ok(ys) => Ok(xs + ys)
  }

  /** The details of the listed ids whose fetch succeeded, in listing order,
      or the first decoding error. */
  function Details(api: GmailApi, c: Codecs, ids: seq<string>): (r: Result<seq<MessageDetail>, ListingError>)
    ensures r.Ok? ==> |r.value| <= |ids|
  {
    if ids == [] then Ok([])
    else Concat(Details(api, c, ids[..|ids| - 1]), Stretch(FetchDetail(api, c, ids[|ids| - 1])))
  }

  /** One fetch as a stretch of the listing: its detail or nothing. */
  function Stretch(f: Result<Option<MessageDetail>, ListingError>): Result<seq<MessageDetail>, ListingError> {
    match f
    case Err(e) => Err(e)
    case Ok(x) => Ok(if x.Some? then [x.value] else [])
  }

  /** Fetching is per id and keeps order: the details of a concatenation
      are the concatenation of the details, and an error in the first
      stretch is the error of the whole. */
  lemma {:induction false} DetailsAppend(api: GmailApi, c: Codecs, xs: seq<string>, ys: seq<string>)
    ensures Details(api, c, xs + ys) == Concat(Details(api, c, xs), Details(api, c, ys))
    decreases |ys|
  {
    if ys == [] {
      assert xs + ys == xs;
      assert Details(api, c, xs).Ok? ==> Details(api, c, xs).value + [] == Details(api, c, xs).value;
    } else {
      var front := ys[..|ys| - 1];
      assert (xs + ys)[..|xs + ys| - 1] == xs + front;
      DetailsAppend(api, c, xs, front);
      ConcatAssociative(Details(api, c, xs), Details(api, c, front), Stretch(FetchDetail(api, c, ys[|ys| - 1])));
    }
  }

  lemma ConcatAssociative(a: Result<seq<MessageDetail>, ListingError>, b: Result<seq<MessageDetail>, ListingError>,
                          d: Result<seq<MessageDetail>, ListingError>)
    ensures Concat(Concat(a, b), d) == Concat(a, Concat(b, d))
  {
    if a.Ok? && b.Ok? && d.Ok? {
      assert a.value + b.value + d.value == a.value + (b.value + d.value);
    }
  }

  /** A listing raises exactly when some listed message fails to decode,
      and then with the first such message. */
  lemma {:induction false} DetailsErr(api: GmailApi, c: Codecs, ids: seq<string>)
    ensures Details(api, c, ids).Err? <==> exists i :: 0 <= i < |ids| && FetchDetail(api, c, ids[i]).Err?
    ensures Details(api, c, ids).Err? ==>
      exists i :: 0 <= i < |ids| && FetchDetail(api, c, ids[i]) == Err(Details(api, c, ids).error)
                  && forall j :: 0 <= j < i ==> FetchDetail(api, c, ids[j]).Ok?
    decreases |ids|
  {
    if ids != [] {
      var init := ids[..|ids| - 1];
      DetailsErr(api, c, init);
      assert forall i :: 0 <= i < |init| ==> init[i] == ids[i];
    }
  }

  /** What a search returns: nothing when the listing fails. */
  function Listing(api: GmailApi, c: Codecs, query: string, maxResults: nat): Result<seq<MessageDetail>, ListingError> {
    match api.list(query, maxResults)
    case None => Ok([])
    case Some(ids) => Details(api, c, ids)
  }

  method GetMessages(api: GmailApi, c: Codecs, query: string, maxResults: nat := DefaultMaxResults)
    returns (r: Result<seq<MessageDetail>, ListingError>)
    ensures r == Listing(api, c, query, maxResults)
  {
    var listed := api.list(query, maxResults);
    if listed.None? {
      return Ok([]);
    }
    var ids := listed.value;
    var details: seq<MessageDetail> := [];
    var i := 0;
    while i < |ids|
      invariant 0 <= i <= |ids|
      invariant Details(api, c, ids[..i]) == Ok(details)
    {
      assert ids[..i + 1][..i] == ids[..i];
      var detail := FetchDetail(api, c, ids[i]);
      if detail.Err? {
        assert ids == ids[..i + 1] + ids[i + 1..];
        DetailsAppend(api, c, ids[..i + 1], ids[i + 1..]);
        return Err(detail.error);
      }
      if detail.value.Some? {
        details := details + [detail.value.value];
      } else {
        assert details + [] == details;
      }
      i := i + 1;
    }
    assert ids[..i] == ids;
    r := Ok(details);
  }

  // ---------------------------------------------------------------------
  // Query builders

  const UnreadQuery: string := "is:unread"

  function FromQuery(sender: string): string {
    "from:" + sender
  }

  function SubjectQuery(subject: string): string {
    "subject:" + subject
  }

  /** `after:YYYY/MM/DD before:YYYY/MM/DD`. */
  function DateRangeQuery(start: Date, end: Date): string {
    "after:" + FormatDate(start) + " before:" + FormatDate(end)
  }

  /** The operand of a single search operator `op`, when the query starts with it. */
  function OperandOf(op: string, q: string): (r: Option<string>)
    ensures r.Some? ==> q == op + r.value
  {
    if op <= q then Some(q[|op|..]) else None
  }

  /** Reads a date-range query back into its two dates. */
  function ParseDateRange(q: string): Option<(Date, Date)> {
    if |q| == 34 && q[..6] == "after:" && q[16..24] == " before:" then
      match (ParseDate(q[6..16]), ParseDate(q[24..]))
      case (Some(s), Some(e)) => Some((s, e))
      case _ => None
    else None
  }

  /** The date-range query determines both of its dates. */
  lemma DateRangeRoundTrip(start: Date, end: Date)
    requires InRange(start) && InRange(end)
    ensures ParseDateRange(DateRangeQuery(start, end)) == Some((start, end))
  {
    FormatDateRoundTrip(start);
    FormatDateRoundTrip(end);
    DateRangeFields(FormatDate(start), FormatDate(end));
  }

  /** Where the two ten-character dates sit in the query. */
  lemma DateRangeFields(a: string, b: string)
    requires |a| == 10 && |b| == 10
    ensures var q := "after:" + a + " before:" + b;
      |q| == 34 && q[..6] == "after:" && q[6..16] == a && q[16..24] == " before:" && q[24..] == b
  {
    var q := "after:" + a + " before:" + b;
    var front := "after:" + a;
    assert q == front + " before:" + b;
    assert q[..16] == front;
    assert front[..6] == "after:" && front[6..] == a;
  }

  method GetUnreadMessages(api: GmailApi, c: Codecs, maxResults: nat := DefaultMaxResults) returns (r: Result<seq<MessageDetail>, ListingError>)
    ensures r == Listing(api, c, UnreadQuery, maxResults)
  {
    r := GetMessages(api, c, UnreadQuery, maxResults);
  }

  method GetMessagesFromSender(api: GmailApi, c: Codecs, sender: string, maxResults: nat := DefaultMaxResults)
    returns (r: Result<seq<MessageDetail>, ListingError>)
    ensures r == Listing(api, c, FromQuery(sender), maxResults)
  {
    r := GetMessages(api, c, FromQuery(sender), maxResults);
  }

  method GetMessagesBySubject(api: GmailApi, c: Codecs, subject: string, maxResults: nat := DefaultMaxResults)
    returns (r: Result<seq<MessageDetail>, ListingError>)
    ensures r == Listing(api, c, SubjectQuery(subject), maxResults)
  {
    r := GetMessages(api, c, SubjectQuery(subject), maxResults);
  }

  method GetMessagesInDateRange(api: GmailApi, c: Codecs, start: Date, end: Date, maxResults: nat := DefaultMaxResults)
    returns (r: Result<seq<MessageDetail>, ListingError>)
    ensures r == Listing(api, c, DateRangeQuery(start, end), maxResults)
  {
    r := GetMessages(api, c, DateRangeQuery(start, end), maxResults);
  }

  // ---------------------------------------------------------------------
  // send_sms_notification

  /** An SMS send either stops at the carrier check, before any API call,
      or addresses the gateway and reports whether the send went through. */
  datatype SmsAttempt = Unsupported | Attempted(address: string, delivered: bool)

  function SendSmsNotification(api: GmailApi, phone: string, carrier: string, message: string): (r: SmsAttempt)
    ensures r.Unsupported? <==> Lower(carrier) !in Gateways
    ensures r.Attempted? ==> GatewayAddress(phone, carrier) == Some(r.address)
    ensures r.Attempted? ==> r.delivered == api.send(r.address, message)
  {
    match GatewayAddress(phone, carrier)
    case None => Unsupported
    case Some(address) => Attempted(address, api.send(address, message))
  }

  /** The boolean the service returns. */
  predicate Sent(a: SmsAttempt) {
    a.Attempted? && a.delivered
  }
}
