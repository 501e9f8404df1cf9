/**
 * What `handleSubmit` does, as a function of the draft and of the replies the
 * service gives: the requests it sends, in order, and whether it finishes or
 * which error stops it. A run that starts at position `t` of the reply feed
 * gets reply `t + k` for its request `k`. The lemmas state the ordering and
 * fail-fast rules.
 */
module Submission {
  import opened Wrappers
  import opened JsText
  import opened Json
  import opened TicketDraft
  import opened RemoteClient

  /** The requests sent by one submission, and the error that ended it early (None when it finished). */
  datatype Run = Run(calls: seq<Request>, failure: Option<Failure>) {
    predicate Completed() {
      failure.None?
    }
  }

  function Prepend(calls: seq<Request>, r: Run): Run {
    Run(calls + r.calls, r.failure)
  }

  /** Sequence-algebra step, stated once so the pipeline proofs can cite it instead of re-deriving it. */
  lemma PrependPrepend(a: seq<Request>, b: seq<Request>, r: Run)
    ensures Prepend(a, Prepend(b, r)) == Prepend(a + b, r)
  {
  }

  /**
   * Appending to a log one part at a time is appending the parts together: a
   * proof aid that keeps this equality out of the larger method proofs.
   */
  lemma AppendAssociates<T>(a: seq<T>, b: seq<T>, c: seq<T>)
    ensures (a + b) + c == a + (b + c)
  {
  }

  /**
   * Two prefixes put in front of a run one after the other are their
   * concatenation put in front once: a proof aid for the screen-loop lemmas,
   * which match its named arguments term for term.
   */
  lemma PrependChain(whole: Run, first: seq<Request>, mid: Run, second: seq<Request>, rest: Run, both: seq<Request>)
    requires whole == Prepend(first, mid) && mid == Prepend(second, rest) && both == first + second
    ensures whole == Prepend(both, rest)
  {
    PrependPrepend(first, second, rest);
  }

  /** Requests a screen entry costs when everything succeeds: its subitem, and its upload if it has a photo. */
  function Span(s: Screen): nat {
    if s.photo.Some? then 2 else 1
  }

  /** The requests screens `j` to `m - 1` send when every call goes through: one or two each. */
  function Cost(screens: seq<Screen>, j: nat, m: nat): nat
    decreases m - j
  {
    if j >= m || j >= |screens| then 0 else Span(screens[j]) + Cost(screens, j + 1, m)
  }

  /** Every screen costs one request at least and two at most. */
  lemma {:induction false} CostBounds(screens: seq<Screen>, j: nat, m: nat)
    requires j <= m <= |screens|
    ensures m - j <= Cost(screens, j, m) <= 2 * (m - j)
    decreases m - j
  {
    if j < m {
      CostBounds(screens, j + 1, m);
    }
  }

  /** The requests of consecutive screen ranges follow each other: no gaps, no overlap. */
  lemma {:induction false} CostSplit(screens: seq<Screen>, i: nat, j: nat, m: nat)
    requires i <= j <= m <= |screens|
    ensures Cost(screens, i, m) == Cost(screens, i, j) + Cost(screens, j, m)
    decreases j - i
  {
    if i < j {
      CostSplit(screens, i + 1, j, m);
    }
  }

  /**
   * One turn of the `for (const screen of screens)` loop, starting at position
   * `t` of the feed: create the subitem; if that succeeds and the screen has a
   * photo, upload it into the new subitem.
   */
  function ScreenRun(parentId: Json, screen: Screen, replies: seq<Reply>, t: nat): (r: Run)
    requires Stringifiable(parentId)
    ensures 1 <= |r.calls| <= Span(screen)
    ensures r.calls[0] == SubitemRequest(parentId, screen)
    ensures r.Completed() ==> |r.calls| == Span(screen)
    ensures |r.calls| == 2 ==>
              && Outcome(r.calls[0], ReplyAt(replies, t)).Success?
              && r.calls[1] == Upload(Outcome(r.calls[0], ReplyAt(replies, t)).value, PhotoColumn, screen.photo.value)
  {
    var sub := SubitemRequest(parentId, screen);
    match Outcome(sub, ReplyAt(replies, t))
    case Failure(f) => Run([sub], Some(f))
    case Success(subitemId) =>
      match UploadRequest(subitemId, screen.photo)
      case None => Run([sub], None)
      case Some(up) =>
        match Outcome(up, ReplyAt(replies, t + 1))
        case Failure(f) => Run([sub, up], Some(f))
        case Success(_) => Run([sub, up], None)
  }

  /** The screen loop from screen `j` on, starting at position `t` of the feed, stopping at the first error. */
  function ScreensRun(parentId: Json, screens: seq<Screen>, j: nat, replies: seq<Reply>, t: nat): (r: Run)
    requires Stringifiable(parentId)
    ensures |r.calls| <= Cost(screens, j, |screens|)
    ensures r.Completed() ==> |r.calls| == Cost(screens, j, |screens|)
    ensures !r.Completed() ==> r.calls != []
    decreases |screens| - j
  {
    if j >= |screens| then Run([], None)
    else
      var step := ScreenRun(parentId, screens[j], replies, t);
      if step.Completed() then Prepend(step.calls, ScreensRun(parentId, screens, j + 1, replies, t + |step.calls|))
      else step
  }

  /** `handleSubmit` from position `t` of the feed: create the ticket item, then run the screen loop under its id. */
  function SubmitRun(d: Draft, replies: seq<Reply>, t: nat): (r: Run)
    ensures r.calls == [] <==> AllTrimmable(d.storeName)
    ensures r.calls == [] ==> r.failure == Some(BlankStoreName)
    ensures r.calls != [] ==> r.calls[0] == MainItemRequest(d).value
    ensures |r.calls| <= 1 + Cost(d.screens, 0, |d.screens|)
    ensures r.Completed() ==> |r.calls| == 1 + Cost(d.screens, 0, |d.screens|)
  {
    match MainItemRequest(d)
    case Failure(f) => Run([], Some(f))
    case Success(main) =>
      match Outcome(main, ReplyAt(replies, t))
      case Failure(f) => Run([main], Some(f))
      case Success(parentId) => Prepend([main], ScreensRun(parentId, d.screens, 0, replies, t + 1))
  }

  /** The screen loop creates subitems and uploads, never another ticket item. */
  lemma {:induction false} ScreensCreateNoItem(parentId: Json, screens: seq<Screen>, j: nat, replies: seq<Reply>, t: nat)
    requires Stringifiable(parentId)
    ensures forall k :: 0 <= k < |ScreensRun(parentId, screens, j, replies, t).calls| ==>
              !ScreensRun(parentId, screens, j, replies, t).calls[k].CreateItem?
    decreases |screens| - j
  {
    if j < |screens| {
      var c := ScreensRun(parentId, screens, j, replies, t).calls;
      var step := ScreenRun(parentId, screens[j], replies, t);
      assert forall k :: 0 <= k < |step.calls| ==> !step.calls[k].CreateItem? by {
        assert step.calls[0].CreateSubitem?;
        assert |step.calls| == 2 ==> step.calls[1].Upload?;
      }
      if step.Completed() {
        var rest := ScreensRun(parentId, screens, j + 1, replies, t + |step.calls|).calls;
        ScreensCreateNoItem(parentId, screens, j + 1, replies, t + |step.calls|);
        assert c == step.calls + rest;
        forall k | 0 <= k < |c| ensures !c[k].CreateItem? {
          if k < |step.calls| {
            assert c[k] == step.calls[k];
          } else {
            assert c[k] == rest[k - |step.calls|];
          }
        }
      }
    }
  }

  /** Exactly one ticket item is created per submission, and it is the first request. */
  lemma SubmitOneItem(d: Draft, replies: seq<Reply>, t: nat)
    ensures SubmitRun(d, replies, t).calls != [] ==> SubmitRun(d, replies, t).calls[0].CreateItem?
    ensures forall k :: 1 <= k < |SubmitRun(d, replies, t).calls| ==> !SubmitRun(d, replies, t).calls[k].CreateItem?
  {
    var c := SubmitRun(d, replies, t).calls;
    if 1 < |c| {
      var main := MainItemRequest(d).value;
      var parentId := Outcome(main, ReplyAt(replies, t)).value;
      var rest := ScreensRun(parentId, d.screens, 0, replies, t + 1).calls;
      assert c == [main] + rest;
      ScreensCreateNoItem(parentId, d.screens, 0, replies, t + 1);
      forall k | 1 <= k < |c| ensures !c[k].CreateItem? {
        assert c[k] == rest[k - 1];
      }
    }
  }

  /** Every request of `calls`, sent from position `t` on, got a good reply. */
  ghost predicate AllGood(calls: seq<Request>, replies: seq<Reply>, t: nat) {
    forall k :: 0 <= k < |calls| ==> Outcome(calls[k], ReplyAt(replies, t + k)).Success?
  }

  /**
   * Fail fast: every request but the last got a good reply; a finished run got
   * only good replies; an unfinished run that sent anything stopped on the
   * error of its last reply.
   */
  ghost predicate FailsFast(r: Run, replies: seq<Reply>, t: nat) {
    && (forall k :: 0 <= k < |r.calls| - 1 ==> Outcome(r.calls[k], ReplyAt(replies, t + k)).Success?)
    && (r.Completed() ==> AllGood(r.calls, replies, t))
    && (!r.Completed() && r.calls != [] ==>
          Outcome(r.calls[|r.calls| - 1], ReplyAt(replies, t + |r.calls| - 1)) == Failure(r.failure.value))
  }

  /** Requests that got good replies, put in front of a run that fails fast on the rest of the feed. */
  lemma FailsFastPrepend(pre: seq<Request>, r: Run, replies: seq<Reply>, t: nat)
    requires AllGood(pre, replies, t)
    requires !r.Completed() ==> r.calls != []
    requires FailsFast(r, replies, t + |pre|)
    ensures FailsFast(Prepend(pre, r), replies, t)
  {
    var c := Prepend(pre, r).calls;
    forall k | |pre| <= k < |c| ensures c[k] == r.calls[k - |pre|] && t + k == t + |pre| + (k - |pre|) {
    }
  }

  /** One screen's turn fails fast. */
  lemma ScreenFailsFast(parentId: Json, screen: Screen, replies: seq<Reply>, t: nat)
    requires Stringifiable(parentId)
    ensures FailsFast(ScreenRun(parentId, screen, replies, t), replies, t)
  {
  }

  /** Fail fast in the screen loop. */
  lemma {:induction false} ScreensFailFast(parentId: Json, screens: seq<Screen>, j: nat, replies: seq<Reply>, t: nat)
    requires Stringifiable(parentId)
    ensures FailsFast(ScreensRun(parentId, screens, j, replies, t), replies, t)
    decreases |screens| - j
  {
    if j < |screens| {
      var step := ScreenRun(parentId, screens[j], replies, t);
      ScreenFailsFast(parentId, screens[j], replies, t);
      if step.Completed() {
        ScreensFailFast(parentId, screens, j + 1, replies, t + |step.calls|);
        FailsFastPrepend(step.calls, ScreensRun(parentId, screens, j + 1, replies, t + |step.calls|), replies, t);
      }
    }
  }

  /**
   * Fail fast for the whole submission: it finishes exactly when the store
   * name passes the guard and every request got a good reply; otherwise the
   * error that ends it is the guard's or that of its last reply.
   */
  lemma SubmitFailFast(d: Draft, replies: seq<Reply>, t: nat)
    ensures FailsFast(SubmitRun(d, replies, t), replies, t)
    ensures SubmitRun(d, replies, t).Completed() <==>
              SubmitRun(d, replies, t).calls != [] && AllGood(SubmitRun(d, replies, t).calls, replies, t)
  {
    match MainItemRequest(d)
    case Failure(f) =>
    case Success(main) =>
      match Outcome(main, ReplyAt(replies, t))
      case Failure(f) =>
      case Success(parentId) =>
        ScreensFailFast(parentId, d.screens, 0, replies, t + 1);
        FailsFastPrepend([main], ScreensRun(parentId, d.screens, 0, replies, t + 1), replies, t);
  }

  /**
   * Screen `s`'s requests start at index `k` of `c`, the requests sent from
   * position `t` of the feed: its subitem under `parentId`, then, when it has a
   * photo and the run went on, the upload of that photo into the subitem id the
   * service just returned.
   */
  ghost predicate ScreenAt(c: seq<Request>, replies: seq<Reply>, t: nat, k: nat, parentId: Json, s: Screen) {
    && k < |c|
    && c[k] == SubitemRequest(parentId, s)
    && (s.photo.Some? && k + 1 < |c| ==>
          && Outcome(c[k], ReplyAt(replies, t + k)).Success?
          && c[k + 1] == Upload(Outcome(c[k], ReplyAt(replies, t + k)).value, PhotoColumn, s.photo.value))
  }

  /** Requests put in front of `c` move screen `s`'s requests back by as many places and feed positions. */
  lemma ScreenAtPrepend(whole: Run, pre: seq<Request>, rest: Run, replies: seq<Reply>,
                        t: nat, u: nat, i: nat, k: nat, parentId: Json, s: Screen)
    requires whole == Prepend(pre, rest) && u == t + |pre| && i == |pre| + k
    requires ScreenAt(rest.calls, replies, u, k, parentId, s)
    ensures ScreenAt(whole.calls, replies, t, i, parentId, s)
  {
    var c := whole.calls;
    assert c == pre + rest.calls;
    assert c[i] == rest.calls[k];
    assert t + i == u + k;
    if i + 1 < |c| {
      assert c[i + 1] == rest.calls[k + 1];
    }
  }

  /** The loop's first screen has its requests at the front. */
  lemma ScreensLayoutHead(parentId: Json, screens: seq<Screen>, j: nat, replies: seq<Reply>, t: nat)
    requires Stringifiable(parentId)
    requires j < |screens|
    ensures ScreenAt(ScreensRun(parentId, screens, j, replies, t).calls, replies, t, 0, parentId, screens[j])
  {
    var step := ScreenRun(parentId, screens[j], replies, t);
    var c := ScreensRun(parentId, screens, j, replies, t).calls;
    assert c[..|step.calls|] == step.calls;
  }

  /** A run that reaches a later screen went through its first screen, whose requests come first. */
  lemma ScreensLayoutStep(parentId: Json, screens: seq<Screen>, j: nat, replies: seq<Reply>, t: nat, m: nat)
    requires Stringifiable(parentId)
    requires j < m < |screens|
    requires Cost(screens, j, m) < |ScreensRun(parentId, screens, j, replies, t).calls|
    ensures var step := ScreenRun(parentId, screens[j], replies, t);
      && step.Completed()
      && ScreensRun(parentId, screens, j, replies, t) == Prepend(step.calls, ScreensRun(parentId, screens, j + 1, replies, t + |step.calls|))
      && Cost(screens, j, m) == |step.calls| + Cost(screens, j + 1, m)
      && Cost(screens, j + 1, m) < |ScreensRun(parentId, screens, j + 1, replies, t + |step.calls|).calls|
  {
  }

  /** The requests screens `j` to `m - 1` send one after the other from position `t`, each turn as `ScreenRun` has it. */
  ghost function Through(parentId: Json, screens: seq<Screen>, j: nat, m: nat, replies: seq<Reply>, t: nat): seq<Request>
    requires Stringifiable(parentId)
    decreases m - j
  {
    if j >= m || j >= |screens| then []
    else
      var step := ScreenRun(parentId, screens[j], replies, t);
      step.calls + Through(parentId, screens, j + 1, m, replies, t + |step.calls|)
  }

  /** Screens `j` to `m - 1` send `Cost(screens, j, m)` requests in all when each of them finishes. */
  lemma {:induction false} ThroughCost(parentId: Json, screens: seq<Screen>, j: nat, replies: seq<Reply>, t: nat, m: nat)
    requires Stringifiable(parentId)
    requires j <= m < |screens|
    requires Cost(screens, j, m) < |ScreensRun(parentId, screens, j, replies, t).calls|
    ensures |Through(parentId, screens, j, m, replies, t)| == Cost(screens, j, m)
    decreases m - j
  {
    if j < m {
      ScreensLayoutStep(parentId, screens, j, replies, t, m);
      var step := ScreenRun(parentId, screens[j], replies, t);
      ThroughCost(parentId, screens, j + 1, replies, t + |step.calls|, m);
    }
  }

  /**
   * A loop run that gets past screen `m`'s first request went through screens
   * `j` to `m - 1` in full, and then is the loop from screen `m` on.
   */
  lemma {:induction false} ScreensSkip(parentId: Json, screens: seq<Screen>, j: nat, replies: seq<Reply>, t: nat, m: nat, u: nat)
    requires Stringifiable(parentId)
    requires j <= m < |screens|
    requires Cost(screens, j, m) < |ScreensRun(parentId, screens, j, replies, t).calls|
    requires u == t + Cost(screens, j, m)
    ensures ScreensRun(parentId, screens, j, replies, t) == Prepend(Through(parentId, screens, j, m, replies, t), ScreensRun(parentId, screens, m, replies, u))
    decreases m - j
  {
    if j < m {
      ScreensLayoutStep(parentId, screens, j, replies, t, m);
      var step := ScreenRun(parentId, screens[j], replies, t);
      var t' := t + |step.calls|;
      ScreensSkip(parentId, screens, j + 1, replies, t', m, u);
      PrependChain(ScreensRun(parentId, screens, j, replies, t), step.calls, ScreensRun(parentId, screens, j + 1, replies, t'),
                   Through(parentId, screens, j + 1, m, replies, t'), ScreensRun(parentId, screens, m, replies, u),
                   Through(parentId, screens, j, m, replies, t));
    } else {
      var run := ScreensRun(parentId, screens, j, replies, t);
      assert Through(parentId, screens, j, m, replies, t) == [];
      assert u == t;
      assert [] + run.calls == run.calls;
    }
  }

  /** Requests put in front of the loop from screen `m` on leave screen `m`'s requests right after them. */
  lemma ScreensHeadAfter(whole: Run, pre: seq<Request>, parentId: Json, screens: seq<Screen>, m: nat, replies: seq<Reply>, t: nat, u: nat, k: nat)
    requires Stringifiable(parentId)
    requires m < |screens|
    requires whole == Prepend(pre, ScreensRun(parentId, screens, m, replies, u))
    requires k == |pre| && u == t + k
    ensures ScreenAt(whole.calls, replies, t, k, parentId, screens[m])
  {
    ScreensLayoutHead(parentId, screens, m, replies, u);
    ScreenAtPrepend(whole, pre, ScreensRun(parentId, screens, m, replies, u), replies, t, u, k, 0, parentId, screens[m]);
  }

  /** Order of the screen loop: screen `m`'s requests start `Cost(screens, j, m)` in. */
  lemma ScreensLayout(parentId: Json, screens: seq<Screen>, j: nat, replies: seq<Reply>, t: nat, m: nat)
    requires Stringifiable(parentId)
    requires j <= m < |screens|
    requires Cost(screens, j, m) < |ScreensRun(parentId, screens, j, replies, t).calls|
    ensures ScreenAt(ScreensRun(parentId, screens, j, replies, t).calls, replies, t, Cost(screens, j, m), parentId, screens[m])
  {
    var k := Cost(screens, j, m);
    ThroughCost(parentId, screens, j, replies, t, m);
    ScreensSkip(parentId, screens, j, replies, t, m, t + k);
    ScreensHeadAfter(ScreensRun(parentId, screens, j, replies, t), Through(parentId, screens, j, m, replies, t),
                     parentId, screens, m, replies, t, t + k, k);
  }

  /**
   * Order of the whole submission: one ticket item first; then screen `m`'s
   * requests at `1 + Cost(screens, 0, m)`, under the id the ticket item's reply
   * carried.
   */
  lemma SubmitLayout(d: Draft, replies: seq<Reply>, t: nat, m: nat)
    requires m < |d.screens|
    requires 1 + Cost(d.screens, 0, m) < |SubmitRun(d, replies, t).calls|
    ensures var c := SubmitRun(d, replies, t).calls;
      && c[0].CreateItem?
      && Outcome(c[0], ReplyAt(replies, t)).Success?
      && ScreenAt(c, replies, t, 1 + Cost(d.screens, 0, m), Outcome(c[0], ReplyAt(replies, t)).value, d.screens[m])
  {
    var main := MainItemRequest(d).value;
    var parentId := Outcome(main, ReplyAt(replies, t)).value;
    var rest := ScreensRun(parentId, d.screens, 0, replies, t + 1);
    ScreensLayout(parentId, d.screens, 0, replies, t + 1, m);
    ScreenAtPrepend(SubmitRun(d, replies, t), [main], rest, replies, t, t + 1,
                    1 + Cost(d.screens, 0, m), Cost(d.screens, 0, m), parentId, d.screens[m]);
  }

  /** A finished submission reached every screen's subitem slot, and the upload slot of every screen with a photo. */
  lemma SubmitReachesEveryScreen(d: Draft, replies: seq<Reply>, t: nat, m: nat)
    requires m < |d.screens|
    requires SubmitRun(d, replies, t).Completed()
    ensures 1 + Cost(d.screens, 0, m) + Span(d.screens[m]) <= |SubmitRun(d, replies, t).calls|
  {
    CostSplit(d.screens, 0, m, |d.screens|);
  }

  /**
   * One screen with no photo and two good replies: exactly one ticket item,
   * one subitem and no upload, and the submission finishes.
   */
  lemma SingleScreenNoPhoto(d: Draft, itemId: Json, subitemId: Json)
    requires !AllTrimmable(d.storeName) && |d.screens| == 1 && d.screens[0].photo.None?
    requires Truthy(Some(itemId)) && Truthy(Some(subitemId))
    ensures Stringifiable(itemId) && Stringifiable(subitemId) ==>
              SubmitRun(d, [IdReply("create_item", itemId), IdReply("create_subitem", subitemId)], 0)
                == Run([MainItemRequest(d).value, SubitemRequest(itemId, d.screens[0])], None)
    ensures !Stringifiable(itemId) ==>
              SubmitRun(d, [IdReply("create_item", itemId), IdReply("create_subitem", subitemId)], 0)
                == Run([MainItemRequest(d).value], Some(BadBody))
    ensures Stringifiable(itemId) && !Stringifiable(subitemId) ==>
              SubmitRun(d, [IdReply("create_item", itemId), IdReply("create_subitem", subitemId)], 0)
                == Run([MainItemRequest(d).value, SubitemRequest(itemId, d.screens[0])], Some(BadBody))
  {
    var replies := [IdReply("create_item", itemId), IdReply("create_subitem", subitemId)];
    var main := MainItemRequest(d).value;
    var sub := SubitemRequest(itemId, d.screens[0]);
    assert ReplyAt(replies, 0) == IdReply("create_item", itemId);
    IdReplyAccepted("Create main item", "create_item", itemId);
    if !Stringifiable(itemId) {
      assert SubmitRun(d, replies, 0) == Run([main], Some(BadBody));
    } else {
      assert ReplyAt(replies, 1) == IdReply("create_subitem", subitemId);
      IdReplyAccepted("Subitem creation", "create_subitem", subitemId);
      var failure: Option<Failure> := if Stringifiable(subitemId) then None else Some(BadBody);
      assert ScreenRun(itemId, d.screens[0], replies, 1) == Run([sub], failure);
      assert ScreensRun(itemId, d.screens, 0, replies, 1) == Run([sub], failure) by {
        if failure.None? {
          assert ScreensRun(itemId, d.screens, 1, replies, 2) == Run([], None);
        }
      }
      assert SubmitRun(d, replies, 0) == Prepend([main], Run([sub], failure));
    }
  }
}
