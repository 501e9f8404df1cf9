/**
 * The support ticket form component: its state cells, the handlers that
 * update them, the three request functions and `handleSubmit`, which sends
 * them in order through the item service.
 */
module TicketForm {
  import opened Wrappers
  import opened JsText
  import opened Json
  import opened TicketDraft
  import opened RemoteClient
  import opened Submission

  class SupportTicketForm {
    /** The `client` query parameter, or "" without one. */
    const client: string

    var storeName: string
    var multipleScreens: bool
    var screens: seq<Screen>
    var contactName: string
    var contactNumber: string
    var contactEmail: string
    var ticketSubmitted: bool

    /** The state the form opens in, once the store name is pre-filled, and returns to on reset. */
    ghost predicate IsFresh()
      reads this
    {
      && storeName == Prefill(client)
      && !multipleScreens
      && screens == [EmptyScreen]
      && contactName == "" && contactNumber == "" && contactEmail == ""
      && !ticketSubmitted
    }

    /**
     * What the form's controls keep true: at least one screen entry (Remove is
     * only offered for more than one), and no detail text under an issue other
     * than 'Other' (the detail box is only offered while 'Other' is selected).
     */
    ghost predicate Consistent()
      reads this
    {
      && |screens| >= 1
      && forall k :: 0 <= k < |screens| ==> DetailOnlyForOther(screens[k])
    }

    /** What a submission reads from the form. */
    function Snapshot(): (d: Draft)
      reads this
      ensures d.storeName == storeName && d.screens == screens
      ensures d.contactName == contactName && d.contactNumber == contactNumber && d.contactEmail == contactEmail
    {
      Draft(storeName, contactName, contactNumber, contactEmail, screens)
    }

    constructor (client: string)
      ensures this.client == client && IsFresh() && Consistent()
    {
      this.client := client;
      storeName := Prefill(client);
      multipleScreens := false;
      screens := [EmptyScreen];
      contactName, contactNumber, contactEmail := "", "", "";
      ticketSubmitted := false;
    }

    method SetStoreName(v: string)
      modifies this`storeName
      ensures storeName == v
    {
      storeName := v;
    }

    method SetMultipleScreens(v: bool)
      modifies this`multipleScreens
      ensures multipleScreens == v
    {
      multipleScreens := v;
    }

    method SetContactName(v: string)
      modifies this`contactName
      ensures contactName == v
    {
      contactName := v;
    }

    method SetContactNumber(v: string)
      modifies this`contactNumber
      ensures contactNumber == v
    {
      contactNumber := v;
    }

    method SetContactEmail(v: string)
      modifies this`contactEmail
      ensures contactEmail == v
    {
      contactEmail := v;
    }

    /** Edit one text field of screen `index`; the other screens and the count stay as they are. */
    method HandleScreenChange(index: nat, field: ScreenField, value: string)
      requires index < |screens|
      modifies this`screens
      ensures |screens| == |old(screens)|
      ensures screens == old(screens)[index := ChangeField(old(screens)[index], field, value)]
      ensures old(Consistent()) && (field == OtherDescription ==> old(screens)[index].description == OtherIssue) ==> Consistent()
    {
      if Consistent() && (field == OtherDescription ==> screens[index].description == OtherIssue) {
        ChangeKeepsDetailOnlyForOther(screens[index], field, value);
      }
      screens := screens[index := ChangeField(screens[index], field, value)];
    }

    /** Attach (or, with None, detach) the photo of screen `index`. */
    method HandlePhotoChange(index: nat, file: Option<Photo>)
      requires index < |screens|
      modifies this`screens
      ensures |screens| == |old(screens)|
      ensures screens == old(screens)[index := old(screens)[index].(photo := file)]
      ensures old(Consistent()) ==> Consistent()
    {
      screens := screens[index := screens[index].(photo := file)];
    }

    /** Append one empty screen entry. */
    method AddScreen()
      modifies this`screens
      ensures screens == old(screens) + [EmptyScreen]
      ensures old(Consistent()) ==> Consistent()
    {
      screens := screens + [EmptyScreen];
    }

    /** Drop the entry at position `index`; an index matching no entry drops nothing. */
    method RemoveScreen(index: int)
      modifies this`screens
      ensures screens == Without(old(screens), index)
      ensures 0 <= index < |old(screens)| ==> screens == old(screens)[..index] + old(screens)[index + 1..]
      ensures old(Consistent()) && |old(screens)| > 1 ==> Consistent()
    {
      ghost var s := screens;
      if 0 <= index < |screens| {
        WithoutIsSplice(screens, index);
      }
      screens := Without(screens, index);
      if 0 <= index < |s| {
        forall k | 0 <= k < |screens| ensures screens[k] == s[if k < index then k else k + 1] {
        }
      }
    }

    /** "Submit Another": back to the state the form opened in. */
    method HandleResetForm()
      modifies this
      ensures IsFresh() && Consistent()
    {
      storeName := Prefill(client);
      multipleScreens := false;
      screens := [EmptyScreen];
      contactName, contactNumber, contactEmail := "", "", "";
      ticketSubmitted := false;
    }

    /** `createMainItem`: refuse a blank store name, else create the ticket item and read its id. */
    method CreateMainItem(service: RemoteService) returns (r: Result<Json, Failure>)
      modifies service`log
      ensures r.Success? ==> Stringifiable(r.value)
      ensures MainItemRequest(Snapshot()).Failure? ==>
                r == Failure(MainItemRequest(Snapshot()).error) && service.log == old(service.log)
      ensures MainItemRequest(Snapshot()).Success? ==>
                && service.log == old(service.log) + [MainItemRequest(Snapshot()).value]
                && r == Outcome(MainItemRequest(Snapshot()).value, ReplyAt(service.replies, |old(service.log)|))
    {
      var req := MainItemRequest(Snapshot());
      if req.Failure? {
        return Failure(req.error);
      }
      var reply := service.Send(req.value);
      r := Outcome(req.value, reply);
    }

    /** `createSubitem`: create the subitem of one screen under `parentId` and read its id. */
    method CreateSubitem(service: RemoteService, parentId: Json, screen: Screen) returns (r: Result<Json, Failure>)
      requires Stringifiable(parentId)
      modifies service`log
      ensures r.Success? ==> Stringifiable(r.value)
      ensures service.log == old(service.log) + [SubitemRequest(parentId, screen)]
      ensures r == Outcome(SubitemRequest(parentId, screen), ReplyAt(service.replies, |old(service.log)|))
    {
      var req := SubitemRequest(parentId, screen);
      var reply := service.Send(req);
      r := Outcome(req, reply);
    }

    /** `uploadPhoto`: nothing without a file; else upload it and check the reply for `errors`. */
    method UploadPhoto(service: RemoteService, subitemId: Json, file: Option<Photo>) returns (r: Result<Option<Json>, Failure>)
      requires file.Some? ==> Stringifiable(subitemId)
      modifies service`log
      ensures file.None? ==> r == Success(None) && service.log == old(service.log)
      ensures file.Some? ==>
                && service.log == old(service.log) + [UploadRequest(subitemId, file).value]
                && match Outcome(UploadRequest(subitemId, file).value, ReplyAt(service.replies, |old(service.log)|))
                   case Success(body) => r == Success(Some(body))
                   case Failure(f) => r == Failure(f)
    {
      var req := UploadRequest(subitemId, file);
      if req.None? {
        return Success(None);
      }
      var reply := service.Send(req.value);
      match Outcome(req.value, reply)
      case Success(body) => r := Success(Some(body));
      case Failure(f) => r := Failure(f);
    }

    /** One turn of the screen loop of `handleSubmit`: the subitem, then the photo when there is one. */
    method SubmitScreen(service: RemoteService, parentId: Json, screen: Screen) returns (failure: Option<Failure>)
      requires Stringifiable(parentId)
      modifies service`log
      ensures var step := ScreenRun(parentId, screen, service.replies, |old(service.log)|);
        && service.log == old(service.log) + step.calls
        && failure == step.failure
    {
      var sub := CreateSubitem(service, parentId, screen);
      if sub.Failure? {
        return Some(sub.error);
      }
      if screen.photo.Some? {
        var up := UploadPhoto(service, sub.value, screen.photo);
        if up.Failure? {
          return Some(up.error);
        }
      }
      failure := None;
    }

    /**
     * One turn of the screen loop for screen `i`, as the loop sees it: `sent`
     * were sent since position `t0`, and together with what screens `i` on
     * send they make up the whole loop's run `goal`.
     */
    method ScreenTurn(service: RemoteService, parentId: Json, screens: seq<Screen>, i: nat,
                      ghost log0: seq<Request>, ghost sent: seq<Request>, ghost goal: Run)
      returns (failure: Option<Failure>, ghost sent': seq<Request>)
      requires i < |screens| && Stringifiable(parentId)
      requires service.log == log0 + sent
      requires Prepend(sent, ScreensRun(parentId, screens, i, service.replies, |log0| + |sent|)) == goal
      modifies service`log
      ensures service.log == log0 + sent'
      ensures failure.None? ==> Prepend(sent', ScreensRun(parentId, screens, i + 1, service.replies, |log0| + |sent'|)) == goal
      ensures failure.Some? ==> Run(sent', failure) == goal
    {
      ghost var t := |log0| + |sent|;
      ghost var step := ScreenRun(parentId, screens[i], service.replies, t);
      failure := SubmitScreen(service, parentId, screens[i]);
      assert (log0 + sent) + step.calls == log0 + (sent + step.calls);
      PrependPrepend(sent, step.calls, ScreensRun(parentId, screens, i + 1, service.replies, t + |step.calls|));
      sent' := sent + step.calls;
    }

    /** The `for (const screen of screens)` loop of `handleSubmit`, stopping at the first error. */
    method SubmitScreens(service: RemoteService, parentId: Json, screens: seq<Screen>) returns (failure: Option<Failure>)
      requires Stringifiable(parentId)
      modifies service`log
      ensures var run := ScreensRun(parentId, screens, 0, service.replies, |old(service.log)|);
        && service.log == old(service.log) + run.calls
        && failure == run.failure
    {
      ghost var log0 := service.log;
      ghost var goal := ScreensRun(parentId, screens, 0, service.replies, |log0|);
      ghost var sent: seq<Request> := [];
      failure := None;
      var i := 0;
      while i < |screens| && failure.None?
        invariant i <= |screens|
        invariant service.log == log0 + sent
        invariant failure.None? ==> Prepend(sent, ScreensRun(parentId, screens, i, service.replies, |log0| + |sent|)) == goal
        invariant failure.Some? ==> Run(sent, failure) == goal
      {
        failure, sent := ScreenTurn(service, parentId, screens, i, log0, sent, goal);
        i := i + 1;
      }
    }

    /**
     * `handleSubmit`: create the ticket item, then for each screen in order its
     * subitem and, when it has a photo, its upload; the first error ends the
     * submission (it is caught and reported, and returned here); only a
     * submission that went through every screen marks the ticket submitted.
     */
    method HandleSubmit(service: RemoteService) returns (failure: Option<Failure>)
      modifies this`ticketSubmitted, service`log
      ensures var run := SubmitRun(old(Snapshot()), service.replies, |old(service.log)|);
        && service.log == old(service.log) + run.calls
        && failure == run.failure
        && ticketSubmitted == (old(ticketSubmitted) || run.Completed())
    {
      ghost var d, log0 := Snapshot(), service.log;
      var main := CreateMainItem(service);
      if main.Failure? {
        return Some(main.error);
      }
      ghost var req := MainItemRequest(d).value;
      ghost var rest := ScreensRun(main.value, screens, 0, service.replies, |log0| + 1);
      assert SubmitRun(d, service.replies, |log0|) == Prepend([req], rest);
      failure := SubmitScreens(service, main.value, screens);
      AppendAssociates(log0, [req], rest.calls);
      if failure.None? {
        ticketSubmitted := true;
      }
    }
  }
}
