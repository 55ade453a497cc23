/** The rating dialog (`RatingModal`): a selection of zero to five stars, a
    hover preview, the guard against submitting no rating, and the rating
    request. */
module RatingModal {
  import opened Wrappers
  import Api

  /** A store card of the user's browser, as handed to the dialog;
      `userRating` is the signed-in user's own earlier rating, if any. */
  datatype Store = Store(id: int, name: string, address: Option<string>, userRating: Option<int>)

  /** `store.userRating` is truthy (present and not zero). */
  predicate HasUserRating(store: Store) {
    store.userRating.Some? && store.userRating.value != 0
  }

  const StarCount := 5
  const NoSelectionMessage := "Please select a rating"
  const NoLabel := "Select a rating"

  /** `store.userRating || 0`: the dialog opens on the user's own rating. */
  function InitialRating(store: Store): (r: int)
    ensures HasUserRating(store) ==> r == store.userRating.value
    ensures !HasUserRating(store) ==> r == 0
    ensures r == 0 <==> !HasUserRating(store)
  {
    if HasUserRating(store) then store.userRating.value else 0
  }

  /** `getRatingLabel(rating)`. */
  function RatingLabel(rating: int): (l: string)
    ensures rating == 1 ==> l == "Poor"
    ensures rating == 2 ==> l == "Fair"
    ensures rating == 3 ==> l == "Good"
    ensures rating == 4 ==> l == "Very Good"
    ensures rating == 5 ==> l == "Excellent"
    ensures !(1 <= rating <= StarCount) ==> l == NoLabel
  {
    if rating == 1 then "Poor"
    else if rating == 2 then "Fair"
    else if rating == 3 then "Good"
    else if rating == 4 then "Very Good"
    else if rating == 5 then "Excellent"
    else NoLabel
  }

  /** Each of the five ratings has its own label, and none reads as the
      prompt shown for no rating. */
  lemma {:induction false} LabelsDistinguishRatings(a: int, b: int)
    requires 1 <= a <= StarCount && 1 <= b <= StarCount
    ensures RatingLabel(a) != NoLabel
    ensures RatingLabel(a) == RatingLabel(b) ==> a == b
  {
    var labels := ["Poor", "Fair", "Good", "Very Good", "Excellent"];
    assert RatingLabel(a) == labels[a - 1] && RatingLabel(b) == labels[b - 1];
    assert labels[0][0] == 'P' && labels[1][0] == 'F' && labels[2][0] == 'G';
    assert labels[3][0] == 'V' && labels[4][0] == 'E' && NoLabel[0] == 'S';
  }

  /** The text of the submit button. */
  function SubmitButtonText(loading: bool, store: Store): (t: string)
    ensures loading ==> t == "Submitting..."
    ensures !loading && HasUserRating(store) ==> t == "Update Rating"
    ensures !loading && !HasUserRating(store) ==> t == "Submit Rating"
  {
    if loading then "Submitting..."
    else if HasUserRating(store) then "Update Rating"
    else "Submit Rating"
  }

  /** The body of the rating request. */
  function RatingBody(store: Store, rating: int): (b: Api.Body)
    ensures b.Keys == {"storeId", "rating"}
    ensures b["storeId"] == Api.Num(store.id) && b["rating"] == Api.Num(rating)
  {
    map["storeId" := Api.Num(store.id), "rating" := Api.Num(rating)]
  }

  class RatingModalState {
    const store: Store
    var selectedRating: int
    var hoveredRating: int
    var loading: bool
    /** The last error toast raised by the dialog. */
    var toast: Option<string>

    constructor (store: Store)
      ensures this.store == store
      ensures selectedRating == InitialRating(store) && hoveredRating == 0
      ensures !loading && toast == None
    {
      this.store := store;
      selectedRating := InitialRating(store);
      hoveredRating := 0;
      loading := false;
      toast := None;
    }

    /** `hoveredRating || selectedRating`: the preview wins while a star is
        hovered. */
    function DisplayRating(): int
      reads this
    {
      if hoveredRating != 0 then hoveredRating else selectedRating
    }

    /** `disabled={loading || selectedRating === 0}`. */
    predicate SubmitDisabled()
      reads this
    {
      loading || selectedRating == 0
    }

    /** A click on star `i`. */
    method ClickStar(i: int)
      requires 1 <= i <= StarCount
      modifies this
      ensures selectedRating == i
      ensures !SubmitDisabled() <==> !loading
      ensures hoveredRating == old(hoveredRating) && loading == old(loading) && toast == old(toast)
    {
      selectedRating := i;
    }

    /** The pointer enters star `i`. */
    method EnterStar(i: int)
      requires 1 <= i <= StarCount
      modifies this
      ensures hoveredRating == i && DisplayRating() == i
      ensures selectedRating == old(selectedRating) && loading == old(loading) && toast == old(toast)
    {
      hoveredRating := i;
    }

    /** The pointer leaves a star: the display falls back to the selection. */
    method LeaveStar()
      modifies this
      ensures hoveredRating == 0 && DisplayRating() == selectedRating
      ensures selectedRating == old(selectedRating) && loading == old(loading) && toast == old(toast)
    {
      hoveredRating := 0;
    }

    /** `renderInteractiveStars()`: one star per rating from 1 to 5, filled
        up to the displayed rating. */
    method RenderInteractiveStars() returns (filled: seq<bool>)
      ensures |filled| == StarCount
      ensures forall i :: 0 <= i < StarCount ==> (filled[i] <==> i + 1 <= DisplayRating())
    {
      var display := if hoveredRating != 0 then hoveredRating else selectedRating;
      filled := [];
      for i := 1 to StarCount + 1
        invariant |filled| == i - 1
        invariant forall j :: 0 <= j < i - 1 ==> (filled[j] <==> j + 1 <= display)
      {
        filled := filled + [i <= display];
      }
    }

    /** `handleSubmitRating()` up to the `await`: with no selection it only
        complains; otherwise the dialog goes busy and the rating request is
        issued. */
    method BeginSubmit() returns (request: Option<Api.Request>)
      modifies this
      ensures old(selectedRating) == 0 ==>
                request == None && toast == Some(NoSelectionMessage) && loading == old(loading)
      ensures old(selectedRating) != 0 ==>
                && request == Some(Api.Call(Api.SubmitRating, RatingBody(store, old(selectedRating)), map[]))
                && loading && SubmitDisabled() && toast == old(toast)
      ensures selectedRating == old(selectedRating) && hoveredRating == old(hoveredRating)
    {
      if selectedRating == 0 {
        toast := Some(NoSelectionMessage);
        request := None;
        return;
      }
      loading := true;
      request := Some(Api.Call(Api.SubmitRating, RatingBody(store, selectedRating), map[]));
    }

    /** The rest of `handleSubmitRating()` once the request settles: `onSuccess`
        runs (the result is `true`) only on success; a failure shows its
        message; the dialog is no longer busy either way. */
    method FinishSubmit(reply: Result<()>) returns (onSuccess: bool)
      modifies this
      ensures onSuccess <==> reply.Ok?
      ensures toast == (if reply.Err? then Some(reply.message) else old(toast))
      ensures !loading
      ensures selectedRating == old(selectedRating) && hoveredRating == old(hoveredRating)
    {
      onSuccess := reply.Ok?;
      if reply.Err? {
        toast := Some(reply.message);
      }
      loading := false;
    }
  }
}
