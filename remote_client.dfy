/**
 * The three requests the form sends to its item service (create the ticket
 * item, create one subitem per screen, upload a photo into a subitem), how
 * each request is built, and how each response is classified as an id or as
 * a thrown error. The service itself is an oracle: it answers each request
 * with the next reply of a given feed and logs the request.
 */
module RemoteClient {
  import opened Wrappers
  import opened JsText
  import opened Json
  import opened TicketDraft

  const TicketBoardId: string := "9575288798"
  const EmailColumn: string := "email_mkssfg0w"
  const PhoneColumn: string := "phone_mkssfmma"
  const ContactNameColumn: string := "text_mkssz2ke"
  const IssueColumn: string := "text_mkss1h6r"
  const DetailColumn: string := "text_mksswvza"
  const PhotoColumn: string := "file_mksszjy2"
  const UnnamedScreen: string := "Unnamed Screen"

  datatype ColumnValue = Text(text: string) | EmailText(email: string, text: string)

  /** One member of the `columnValues` object, in the order the object literal writes them. */
  datatype Column = Column(id: string, value: ColumnValue)

  function ColumnIds(cols: seq<Column>): (ids: seq<string>)
    ensures |ids| == |cols|
    ensures forall i :: 0 <= i < |cols| ==> ids[i] == cols[i].id
  {
    seq(|cols|, i requires 0 <= i < |cols| => cols[i].id)
  }

  /**
   * A request to the service. A subitem request is recorded by its parent id
   * and the screen entry it is built from; `SubitemName` and
   * `SubitemColumnValues` give the `itemName` and `columnValues` it sends.
   */
  datatype Request =
    | CreateItem(boardId: string, itemName: string, columnValues: seq<Column>)
    | CreateSubitem(parentItemId: Json, entry: Screen)
    | Upload(itemId: Json, columnId: string, file: Photo)

  /** What the service gives back: a body, or nothing readable (fetch rejected or the body is not JSON). */
  datatype Reply = Answer(body: Json) | Lost

  /**
   * The errors the three calls throw. Each keeps what its message is built
   * from (a rejection: the call's action and the text written after it, as
   * built when the error was thrown); `Message` builds the text.
   */
  datatype Failure =
    | BlankStoreName                               // thrown before any request
    | Rejected(action: string, detail: string)     // the body has a truthy `error`; `detail` is it as text
    | RejectedBatch(action: string, detail: string)  // a truthy `errors` list; `detail` is its joined messages
    | MissingId(key: string)                       // neither, and no truthy id either
    | BadBody                                      // a TypeError while reading the body or turning part of it into text
    | TransportFailure                             // fetch or response.json() rejected

  /** The guard of `createMainItem`: `!storeName || storeName.trim() === ''`. */
  predicate IsBlank(storeName: string) {
    storeName == "" || Trim(storeName) == ""
  }

  /** The guard rejects exactly the names made of white space alone (the empty name among them). */
  lemma BlankIffWhiteSpace(storeName: string)
    ensures IsBlank(storeName) <==> AllTrimmable(storeName)
  {
    TrimEmptyIff(storeName);
  }

  /** The parent item request of `createMainItem`, or the error it throws first. */
  function MainItemRequest(d: Draft): (r: Result<Request, Failure>)
    ensures r.Failure? <==> AllTrimmable(d.storeName)
    ensures r.Failure? ==> r.error == BlankStoreName
    ensures r.Success? ==> r.value.CreateItem? && r.value.boardId == TicketBoardId && r.value.itemName == d.storeName
  {
    BlankIffWhiteSpace(d.storeName);
    if IsBlank(d.storeName) then
      Failure(BlankStoreName)
    else
      Success(CreateItem(TicketBoardId, d.storeName, [
        Column(EmailColumn, EmailText(d.contactEmail, d.contactEmail)),
        Column(PhoneColumn, Text(d.contactNumber)),
        Column(ContactNameColumn, Text(d.contactName))]))
  }

  /** The subitem request of `createSubitem` for one screen entry. */
  function SubitemRequest(parentId: Json, screen: Screen): Request {
    CreateSubitem(parentId, screen)
  }

  /** The `itemName` variable of `createSubitem`. */
  function SubitemName(screen: Screen): string {
    if screen.name != "" then screen.name else UnnamedScreen
  }

  /** The `columnValues` variable of `createSubitem`. */
  function SubitemColumnValues(screen: Screen): seq<Column> {
    // `screen.description || ''` and `screen.otherDescription || ''` are the strings themselves
    var issue := [Column(IssueColumn, Text(screen.description))];
    if screen.description == OtherIssue then issue + [Column(DetailColumn, Text(screen.otherDescription))] else issue
  }

  /** The ticket item carries the three contact columns: the e-mail twice (address and text), the phone, the name. */
  lemma MainItemColumns(d: Draft)
    requires !AllTrimmable(d.storeName)
    ensures var cols := MainItemRequest(d).value.columnValues;
      && ColumnIds(cols) == [EmailColumn, PhoneColumn, ContactNameColumn]
      && cols[0].value == EmailText(d.contactEmail, d.contactEmail)
      && cols[1].value == Text(d.contactNumber)
      && cols[2].value == Text(d.contactName)
  {
  }

  /** A subitem is never nameless: an empty screen name becomes "Unnamed Screen". */
  lemma SubitemNamed(screen: Screen)
    ensures SubitemName(screen) != ""
    ensures screen.name != "" ==> SubitemName(screen) == screen.name
    ensures screen.name == "" ==> SubitemName(screen) == UnnamedScreen
  {
  }

  /**
   * The issue column always carries the description; the detail column is
   * sent, with the free-text detail, exactly when the issue is "Other".
   */
  lemma SubitemColumns(screen: Screen)
    ensures var cols := SubitemColumnValues(screen);
      && ColumnIds(cols) == (if screen.description == OtherIssue then [IssueColumn, DetailColumn] else [IssueColumn])
      && cols[0].value == Text(screen.description)
      && (|cols| == 2 ==> cols[1].value == Text(screen.otherDescription))
  {
  }

  /** The upload request of `uploadPhoto`: none at all without a file. */
  function UploadRequest(subitemId: Json, file: Option<Photo>): (r: Option<Request>)
    ensures r.None? <==> file.None?
    ensures r.Some? ==> r.value == Upload(subitemId, PhotoColumn, file.value)
  {
    match file
    case None => None
    case Some(f) => Some(Upload(subitemId, PhotoColumn, f))
  }

  /** `e.message` as `join` renders it: "" when missing or null. */
  function MessageText(e: Json): (m: string)
    requires MessageReadable(e)
    ensures Member(e, "message").None? || Member(e, "message") == Some(JNull) ==> m == ""
    ensures Member(e, "message").Some? && Member(e, "message").value.JStr? ==> m == Member(e, "message").value.s
  {
    match Member(e, "message")
    case None => ""
    case Some(m) => if m == JNull then "" else ToJsString(m)
  }

  /** Whether `join` can write the `message` of entry `e`: missing and null write "", anything else must turn into text. */
  predicate MessageReadable(e: Json) {
    match Member(e, "message")
    case None => true
    case Some(m) => m == JNull || Stringifiable(m)
  }

  /** `errors.map((e) => e.message).join('; ')` over a list of non-null entries whose messages are readable. */
  function JoinedMessages(errors: seq<Json>): (m: string)
    requires forall i :: 0 <= i < |errors| ==> MessageReadable(errors[i])
    ensures errors == [] ==> m == ""
    ensures |errors| == 1 ==> m == MessageText(errors[0])
  {
    Join(seq(|errors|, i requires 0 <= i < |errors| => MessageText(errors[i])), "; ")
  }

  /**
   * What a truthy `errors` throws after `action` ("Create main item", ...):
   * the joined messages when it is a list of non-null entries whose
   * messages `join` can write, else the TypeError of `map`, of `e.message`
   * or of `join`.
   */
  function BatchFailure(errors: Json, action: string): (f: Failure)
    ensures f.RejectedBatch? <==>
              errors.JArr? && forall i :: 0 <= i < |errors.elems| ==> errors.elems[i] != JNull && MessageReadable(errors.elems[i])
    ensures f.RejectedBatch? ==> f.action == action && f.detail == JoinedMessages(errors.elems)
    ensures !f.RejectedBatch? ==> f == BadBody
  {
    if errors.JArr? && forall i :: 0 <= i < |errors.elems| ==> errors.elems[i] != JNull && MessageReadable(errors.elems[i]) then
      RejectedBatch(action, JoinedMessages(errors.elems))
    else BadBody
  }

  /**
   * The message of the thrown `Error`; None for the TypeError and fetch
   * errors, whose text the JavaScript engine chooses.
   */
  function Message(f: Failure): (m: Option<string>)
    ensures m.None? <==> f.BadBody? || f.TransportFailure?
    ensures f.Rejected? || f.RejectedBatch? ==> m.Some? && f.action + " failed: " <= m.value
    ensures f.Rejected? || f.RejectedBatch? ==> m == Some(f.action + " failed: " + f.detail)
    ensures f == BlankStoreName ==> m == Some("Store name cannot be empty")
    ensures f.MissingId? ==> m == Some("No item ID returned from " + f.key + " mutation")
  {
    match f
    case BlankStoreName => Some("Store name cannot be empty")
    case Rejected(action, detail) => Some(action + " failed: " + detail)
    case RejectedBatch(action, detail) => Some(action + " failed: " + detail)
    case MissingId(key) => Some("No item ID returned from " + key + " mutation")
    case BadBody => None
    case TransportFailure => None
  }

  /**
   * The response checks of `createMainItem` (`key` = "create_item") and
   * `createSubitem` (`key` = "create_subitem"), in their order: `error`, then
   * `errors`, then a missing id. Writing the error text and logging the new id
   * in a template literal turn those values into text, which can throw.
   */
  function ClassifyCreate(reply: Reply, action: string, key: string): (r: Result<Json, Failure>)
    ensures r.Success? ==> Stringifiable(r.value)
  {
    match reply
    case Lost => Failure(TransportFailure)
    case Answer(body) =>
      if body == JNull then Failure(BadBody)  // `null.error` throws
      else
        var error := Member(body, "error");
        var errors := Member(body, "errors");
        var id := MemberOpt(MemberOpt(Member(body, "data"), key), "id");
        if Truthy(error) then
          if Stringifiable(error.value) then Failure(Rejected(action, ToJsString(error.value))) else Failure(BadBody)
        else if Truthy(errors) then Failure(BatchFailure(errors.value, action))
        else if !Truthy(id) then Failure(MissingId(key))
        else if !Stringifiable(id.value) then Failure(BadBody)
        else Success(id.value)
  }

  /** The response check of `uploadPhoto`: only `errors` is looked at. */
  function ClassifyUpload(reply: Reply): Result<Json, Failure>
  {
    match reply
    case Lost => Failure(TransportFailure)
    case Answer(body) =>
      if body == JNull then Failure(BadBody)
      else
        var errors := Member(body, "errors");
        if Truthy(errors) then Failure(BatchFailure(errors.value, "File upload")) else Success(body)
  }

  /**
   * The outcomes of the create checks: a lost reply or a `null` body has no
   * message the form can read; a truthy `error` wins, then a truthy `errors`,
   * then a missing id; a value that cannot be turned into text throws a
   * TypeError instead; only a body with neither `error` nor `errors` and a
   * truthy id under `data.<key>.id` succeeds, with that id.
   */
  lemma ClassifyCreateCases(reply: Reply, action: string, key: string)
    ensures var r := ClassifyCreate(reply, action, key);
      && (reply.Lost? ==> r == Failure(TransportFailure))
      && (reply == Answer(JNull) ==> r == Failure(BadBody))
      && (reply.Answer? && reply.body != JNull && Truthy(Member(reply.body, "error")) ==>
            r == Failure(if Stringifiable(reply.body.members["error"]) then Rejected(action, ToJsString(reply.body.members["error"])) else BadBody))
      && (reply.Answer? && reply.body != JNull && !Truthy(Member(reply.body, "error")) && Truthy(Member(reply.body, "errors")) ==>
            r == Failure(BatchFailure(reply.body.members["errors"], action)))
      && (reply.Answer? && reply.body != JNull && !Truthy(Member(reply.body, "error")) && !Truthy(Member(reply.body, "errors"))
            && !Truthy(MemberOpt(MemberOpt(Member(reply.body, "data"), key), "id")) ==>
            r == Failure(MissingId(key)))
      && (reply.Answer? && reply.body != JNull && !Truthy(Member(reply.body, "error")) && !Truthy(Member(reply.body, "errors"))
            && Truthy(MemberOpt(MemberOpt(Member(reply.body, "data"), key), "id"))
            && !Stringifiable(MemberOpt(MemberOpt(Member(reply.body, "data"), key), "id").value) ==>
            r == Failure(BadBody))
      && (r.Success? <==>
            reply.Answer? && reply.body != JNull && !Truthy(Member(reply.body, "error")) && !Truthy(Member(reply.body, "errors"))
            && Truthy(MemberOpt(MemberOpt(Member(reply.body, "data"), key), "id"))
            && Stringifiable(MemberOpt(MemberOpt(Member(reply.body, "data"), key), "id").value))
      && (r.Success? ==> Some(r.value) == MemberOpt(MemberOpt(Member(reply.body, "data"), key), "id") && Truthy(Some(r.value)))
  {
  }

  /** The outcomes of the upload check: only a truthy `errors` fails an answered upload, and success hands back the body. */
  lemma ClassifyUploadCases(reply: Reply)
    ensures var r := ClassifyUpload(reply);
      && (reply.Lost? ==> r == Failure(TransportFailure))
      && (reply == Answer(JNull) ==> r == Failure(BadBody))
      && (r.Success? <==> reply.Answer? && reply.body != JNull && !Truthy(Member(reply.body, "errors")))
      && (r.Success? ==> r.value == reply.body)
      && (reply.Answer? && reply.body != JNull && Truthy(Member(reply.body, "errors")) ==>
            r == Failure(BatchFailure(reply.body.members["errors"], "File upload")))
  {
  }

  /** How the form reads the reply to `req`: the new id for a create call, the body for an upload. */
  function Outcome(req: Request, reply: Reply): (r: Result<Json, Failure>)
    ensures !req.Upload? && r.Success? ==> Stringifiable(r.value)
  {
    match req
    case CreateItem(_, _, _) => ClassifyCreate(reply, "Create main item", "create_item")
    case CreateSubitem(_, _) => ClassifyCreate(reply, "Subitem creation", "create_subitem")
    case Upload(_, _, _) => ClassifyUpload(reply)
  }

  /** A create check's rejection carries the action it was given, and a missing id the key. */
  lemma CreateFailureLabels(reply: Reply, action: string, key: string)
    ensures var r := ClassifyCreate(reply, action, key);
      && (r.Failure? && (r.error.Rejected? || r.error.RejectedBatch?) ==> action + " failed: " <= Message(r.error).value)
      && (r.Failure? && r.error.MissingId? ==> r.error == MissingId(key))
  {
  }

  /** The upload check fails only through `errors`, a TypeError or the transport, and its rejection says "File upload". */
  lemma UploadFailureLabels(reply: Reply)
    ensures var r := ClassifyUpload(reply);
      && (r.Failure? ==> r.error.RejectedBatch? || r.error.BadBody? || r.error.TransportFailure?)
      && (r.Failure? && r.error.RejectedBatch? ==> "File upload failed: " <= Message(r.error).value)
  {
  }

  /**
   * Each call reports its own failures: a rejection's message starts with the
   * call's action, a missing id names the call's mutation, and an upload is
   * never rejected through `error` nor short of an id.
   */
  lemma OutcomeMessages(req: Request, reply: Reply)
    ensures var r := Outcome(req, reply);
      && (req.CreateItem? && r.Failure? && (r.error.Rejected? || r.error.RejectedBatch?) ==>
            "Create main item" + " failed: " <= Message(r.error).value)
      && (req.CreateItem? && r.Failure? && r.error.MissingId? ==>
            Message(r.error) == Some("No item ID returned from " + "create_item" + " mutation"))
      && (req.CreateSubitem? && r.Failure? && (r.error.Rejected? || r.error.RejectedBatch?) ==>
            "Subitem creation" + " failed: " <= Message(r.error).value)
      && (req.CreateSubitem? && r.Failure? && r.error.MissingId? ==>
            Message(r.error) == Some("No item ID returned from " + "create_subitem" + " mutation"))
      && (req.Upload? && r.Failure? ==> r.error.RejectedBatch? || r.error.BadBody? || r.error.TransportFailure?)
      && (req.Upload? && r.Failure? && r.error.RejectedBatch? ==> "File upload" + " failed: " <= Message(r.error).value)
  {
    match req
    case CreateItem(_, _, _) =>
      CreateFailureLabels(reply, "Create main item", "create_item");
    case CreateSubitem(_, _) =>
      CreateFailureLabels(reply, "Subitem creation", "create_subitem");
    case Upload(_, _, _) =>
      UploadFailureLabels(reply);
  }

  /** An `error` wins over `errors` and over an id that is also present. */
  lemma ErrorCheckedFirst(reply: Reply, action: string, key: string)
    requires reply.Answer? && reply.body.JObj? && "error" in reply.body.members
    requires Truthy(Some(reply.body.members["error"]))
    ensures ClassifyCreate(reply, action, key)
              == Failure(if Stringifiable(reply.body.members["error"]) then Rejected(action, ToJsString(reply.body.members["error"])) else BadBody)
  {
  }

  /** The reply a create call expects: `{ data: { <key>: { id } } }` with a truthy id. */
  function IdReply(key: string, id: Json): Reply {
    Answer(JObj(map["data" := JObj(map[key := JObj(map["id" := id])])]))
  }

  /** A reply carrying a truthy id under the expected key, and nothing else, yields that id when the id can be logged as text. */
  lemma IdReplyAccepted(action: string, key: string, id: Json)
    requires Truthy(Some(id))
    ensures ClassifyCreate(IdReply(key, id), action, key) == if Stringifiable(id) then Success(id) else Failure(BadBody)
  {
    var body := IdReply(key, id).body;
    assert Member(body, "error") == None;
    assert Member(body, "errors") == None;
    assert MemberOpt(MemberOpt(Member(body, "data"), key), "id") == Some(id);
  }

  /** An empty `errors` list is still truthy: the call fails with nothing after the prefix. */
  lemma EmptyErrorListFails(action: string, key: string)
    ensures ClassifyCreate(Answer(JObj(map["errors" := JArr([])])), action, key) == Failure(RejectedBatch(action, ""))
    ensures Message(RejectedBatch(action, "")) == Some(action + " failed: ")
  {
    var body := JObj(map["errors" := JArr([])]);
    assert Member(body, "error") == None;
    assert Member(body, "errors") == Some(JArr([]));
    assert (action + " failed: ") + "" == action + " failed: ";
  }

  /** The messages of an `errors` list of well-formed entries are joined in order with "; ". */
  lemma {:induction false} JoinedMessagesOfStrings(msgs: seq<string>)
    ensures JoinedMessages(MessageEntries(msgs)) == Join(msgs, "; ")
  {
    var es := MessageEntries(msgs);
    var parts := seq(|es|, i requires 0 <= i < |es| => MessageText(es[i]));
    assert parts == msgs;
  }

  /** A string `error` is thrown as the call's action, " failed: " and that string. */
  lemma StringErrorMessage(reply: Reply, action: string, key: string, s: string)
    requires reply.Answer? && reply.body.JObj? && "error" in reply.body.members
    requires reply.body.members["error"] == JStr(s) && s != ""
    ensures ClassifyCreate(reply, action, key) == Failure(Rejected(action, s))
    ensures Message(ClassifyCreate(reply, action, key).error) == Some(action + " failed: " + s)
  {
    assert Member(reply.body, "error") == Some(JStr(s));
  }

  /** The `errors` entries `{ message: s }`, one per string; `join` can write each of them. */
  function MessageEntries(msgs: seq<string>): (es: seq<Json>)
    ensures |es| == |msgs|
    ensures forall i :: 0 <= i < |es| ==> es[i] == JObj(map["message" := JStr(msgs[i])])
    ensures forall i :: 0 <= i < |es| ==> es[i] != JNull && MessageReadable(es[i])
  {
    var es := seq(|msgs|, i requires 0 <= i < |msgs| => JObj(map["message" := JStr(msgs[i])]));
    assert forall i :: 0 <= i < |es| ==> Member(es[i], "message") == Some(JStr(msgs[i]));
    es
  }

  /**
   * An `errors` list of entries `{ message: s }` is thrown as the call's
   * action, " failed: " and the strings joined with "; " in order, by the
   * create checks and by the upload check alike.
   */
  lemma BatchMessages(action: string, key: string, msgs: seq<string>)
    ensures Message(BatchFailure(JArr(MessageEntries(msgs)), action)) == Some(action + " failed: " + Join(msgs, "; "))
    ensures ClassifyCreate(Answer(JObj(map["errors" := JArr(MessageEntries(msgs))])), action, key)
              == Failure(RejectedBatch(action, Join(msgs, "; ")))
    ensures ClassifyUpload(Answer(JObj(map["errors" := JArr(MessageEntries(msgs))])))
              == Failure(RejectedBatch("File upload", Join(msgs, "; ")))
  {
    var es := MessageEntries(msgs);
    JoinedMessagesOfStrings(msgs);
    var batch := BatchFailure(JArr(es), action);
    assert batch == RejectedBatch(action, Join(msgs, "; "));
    var body := JObj(map["errors" := JArr(es)]);
    assert Member(body, "error") == None;
    assert Member(body, "errors") == Some(JArr(es));
    assert Member(body, "data") == None;
    assert Truthy(Some(JArr(es)));
    assert ClassifyCreate(Answer(body), action, key) == Failure(batch);
    assert BatchFailure(JArr(es), "File upload") == RejectedBatch("File upload", Join(msgs, "; "));
  }

  /** The reply the service gives to the request sent at position `t`: a spent feed answers `Lost`. */
  function ReplyAt(replies: seq<Reply>, t: nat): Reply {
    if t < |replies| then replies[t] else Lost
  }

  /**
   * The item service as the form sees it through `fetch`: the request sent
   * at position `t` (counting every request ever sent) is logged and answered
   * with reply `t` of a fixed feed.
   */
  class RemoteService {
    const replies: seq<Reply>
    var log: seq<Request>

    constructor (replies: seq<Reply>)
      ensures this.replies == replies && log == []
    {
      this.replies := replies;
      log := [];
    }

    method Send(req: Request) returns (reply: Reply)
      modifies this`log
      ensures log == old(log) + [req]
      ensures reply == ReplyAt(replies, |old(log)|)
    {
      reply := ReplyAt(replies, |log|);
      log := log + [req];
    }
  }
}
