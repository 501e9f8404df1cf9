/**
 * The ticket draft the support form holds: one entry per affected screen, in
 * the order entered, and the pure edits the form's handlers apply to it.
 */
module TicketDraft {
  import opened Wrappers

  /** The selected photo file. A File object is truthy whatever its contents. */
  type Photo = seq<bv8>

  /** The issue whose free-text detail is asked for and sent. */
  const OtherIssue: string := "Other"

  /** One screen entry: `{ name, description, otherDescription, photo }`. */
  datatype Screen = Screen(name: string, description: string, otherDescription: string, photo: Option<Photo>)

  /** The entry the form starts with and that Add Screen appends. */
  const EmptyScreen: Screen := Screen("", "", "", None)

  /** The text fields of a screen entry that `handleScreenChange` is called with. */
  datatype ScreenField = Name | Description | OtherDescription

  function FieldValue(s: Screen, f: ScreenField): string {
    match f
    case Name => s.name
    case Description => s.description
    case OtherDescription => s.otherDescription
  }

  /** What the form sends and shows: the detail text is only ever set while the issue is 'Other'. */
  predicate DetailOnlyForOther(s: Screen) {
    s.description != OtherIssue ==> s.otherDescription == ""
  }

  /**
   * `handleScreenChange` on one entry: set `f` to `v`; choosing any issue but
   * 'Other' also clears the detail text.
   */
  function ChangeField(s: Screen, f: ScreenField, v: string): (r: Screen)
    ensures FieldValue(r, f) == v
    ensures r.photo == s.photo
    ensures f != Name ==> r.name == s.name
    ensures f != Description ==> r.description == s.description
    ensures f == Description && v != OtherIssue ==> r.otherDescription == ""
    ensures f != OtherDescription && !(f == Description && v != OtherIssue) ==> r.otherDescription == s.otherDescription
  {
    match f
    case Name => s.(name := v)
    case Description => if v != OtherIssue then s.(description := v, otherDescription := "") else s.(description := v)
    case OtherDescription => s.(otherDescription := v)
  }

  /**
   * The form only offers the detail box while 'Other' is selected, so every
   * edit it makes keeps the detail empty for other issues.
   */
  lemma ChangeKeepsDetailOnlyForOther(s: Screen, f: ScreenField, v: string)
    requires DetailOnlyForOther(s)
    requires f == OtherDescription ==> s.description == OtherIssue
    ensures DetailOnlyForOther(ChangeField(s, f, v))
  {
  }

  /** Repeating an edit changes nothing more. */
  lemma ChangeIdempotent(s: Screen, f: ScreenField, v: string)
    ensures ChangeField(ChangeField(s, f, v), f, v) == ChangeField(s, f, v)
  {
  }

  /** Moving away from 'Other' and back loses the detail text. */
  lemma LeavingOtherDropsDetail(s: Screen, v: string)
    requires v != OtherIssue
    ensures ChangeField(ChangeField(s, Description, v), Description, OtherIssue).otherDescription == ""
  {
  }

  /** `list.filter((_, i) => i !== index)`: keep every entry whose position is not `index`. */
  function Without<T>(s: seq<T>, index: int): (r: seq<T>)
    ensures 0 <= index < |s| ==> |r| == |s| - 1
    ensures !(0 <= index < |s|) ==> r == s
    decreases |s|
  {
    if s == [] then []
    else if index == 0 then Without(s[1..], -1)
    else [s[0]] + Without(s[1..], index - 1)
  }

  /** Filtering out position `index` is cutting the list around it: order is kept. */
  lemma {:induction false} WithoutIsSplice<T>(s: seq<T>, index: int)
    requires 0 <= index < |s|
    ensures Without(s, index) == s[..index] + s[index + 1..]
  {
    if index == 0 {
      assert Without(s[1..], -1) == s[1..];
    } else {
      var tail := s[1..];
      WithoutIsSplice(tail, index - 1);
      calc {
        Without(s, index);
        [s[0]] + Without(tail, index - 1);
        [s[0]] + (tail[..index - 1] + tail[index..]);
        ([s[0]] + tail[..index - 1]) + tail[index..];
        { assert [s[0]] + tail[..index - 1] == s[..index];
          assert tail[index..] == s[index + 1..]; }
        s[..index] + s[index + 1..];
      }
    }
  }

  /** The Remove button is only shown for more than one entry, so the list never empties. */
  lemma RemoveKeepsAScreen<T>(s: seq<T>, index: int)
    requires |s| > 1
    ensures |Without(s, index)| >= 1
  {
  }

  /** The store name the form pre-fills from the `client` query parameter. */
  function Prefill(client: string): (r: string)
    ensures client == "" <==> r == ""
    ensures client != "" ==> |r| == |client| + 5 && r[..|client|] == client && r[|client|..] == " Test"
  {
    if client != "" then client + " Test" else ""
  }

  /** A snapshot of everything the submission reads. */
  datatype Draft = Draft(
    storeName: string,
    contactName: string,
    contactNumber: string,
    contactEmail: string,
    screens: seq<Screen>)
}
