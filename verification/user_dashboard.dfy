/** The signed-in user's store browser (`UserDashboard`): name and address
    filters, the store list request, and the rating dialog's open and
    close handlers. */
module UserDashboard {
  import opened Wrappers
  import opened ListQuery
  import Api
  import opened RatingModal

  /** `{ name: "", address: "" }`. */
  const InitialFilters: Filters := map["name" := "", "address" := ""]

  const FailureMessage := "Failed to fetch stores"
  const FilteredHint := "Try adjusting your search criteria"
  const UnfilteredHint := "No stores are currently available"

  /** The text under "No stores found". */
  function NoRowsHint(filters: Filters): string {
    assert FilteredHint[0] != UnfilteredHint[0];
    EmptyHint(filters, FilteredHint, UnfilteredHint)
  }

  /** The label of a store card's rating button. */
  function RateButtonLabel(store: Store): (l: string)
    ensures l == "Update Rating" <==> HasUserRating(store)
    ensures l == "Rate Store" <==> !HasUserRating(store)
  {
    if HasUserRating(store) then "Update Rating" else "Rate Store"
  }

  /** The card button and the dialog's submit button agree: both offer an
      update exactly when the user has rated the store. */
  lemma ButtonLabelsAgree(store: Store)
    ensures RateButtonLabel(store) == SubmitButtonText(false, store)
            <==> HasUserRating(store)
  {
    if !HasUserRating(store) {
      assert RateButtonLabel(store)[0] != SubmitButtonText(false, store)[0];
    }
  }

  /** Only the name and address filters exist, so a store request carries
      at most those two and the two sort keys, none of them empty. */
  lemma RequestKeys(filters: Filters, sort: SortConfig)
    requires filters.Keys == InitialFilters.Keys
    ensures Pruned(QueryParams(filters, sort)).Keys
            <= {"name", "address", SortFieldKey, SortDirectionKey}
    ensures forall k :: k in Pruned(QueryParams(filters, sort)) ==> Pruned(QueryParams(filters, sort))[k] != ""
  {
  }

  class UserDashboardScreen {
    var stores: seq<Store>
    var loading: bool
    var selectedStore: Option<Store>
    var showRatingModal: bool
    var filters: Filters
    var sortConfig: SortConfig
    /** The last error toast raised by this screen. */
    var toast: Option<string>

    constructor ()
      ensures stores == [] && loading && selectedStore == None && !showRatingModal
      ensures filters == InitialFilters && sortConfig == InitialSort && toast == None
    {
      stores := [];
      loading := true;
      selectedStore := None;
      showRatingModal := false;
      filters := InitialFilters;
      sortConfig := InitialSort;
      toast := None;
    }

    /** `{showRatingModal && selectedStore && <RatingModal .../>}`. */
    predicate ModalVisible()
      reads this
    {
      showRatingModal && selectedStore.Some?
    }

    method HandleFilterChange(field: string, value: string)
      modifies this
      ensures filters == WithFilter(old(filters), field, value)
      ensures stores == old(stores) && loading == old(loading) && sortConfig == old(sortConfig)
      ensures selectedStore == old(selectedStore) && showRatingModal == old(showRatingModal)
      ensures toast == old(toast)
    {
      filters := filters[field := value];
    }

    method HandleSort(field: string)
      modifies this
      ensures sortConfig == NextSort(old(sortConfig), field)
      ensures stores == old(stores) && loading == old(loading) && filters == old(filters)
      ensures selectedStore == old(selectedStore) && showRatingModal == old(showRatingModal)
      ensures toast == old(toast)
    {
      var direction := if sortConfig.field == field && sortConfig.direction == Asc then Desc else Asc;
      sortConfig := SortConfig(field, direction);
    }

    /** `fetchStores()`: `reply` is what `getUserStores` resolves to
        (`data.stores`) or the error it rejects with. */
    method FetchStores(reply: Result<seq<Store>>) returns (request: Api.Request)
      modifies this
      ensures request == Api.Call(Api.UserStores, map[], Pruned(QueryParams(filters, sortConfig)))
      ensures stores == (if reply.Ok? then reply.value else old(stores))
      ensures toast == (if reply.Err? then Some(FailureMessage) else old(toast))
      ensures !loading
      ensures filters == old(filters) && sortConfig == old(sortConfig)
      ensures selectedStore == old(selectedStore) && showRatingModal == old(showRatingModal)
    {
      loading := true;
      var params := Prune(QueryParams(filters, sortConfig));
      request := Api.Call(Api.UserStores, map[], params);
      if reply.Ok? {
        stores := reply.value;
      } else {
        toast := Some(FailureMessage);
      }
      loading := false;
    }

    /** `handleRateStore(store)`: the dialog opens on that store. */
    method HandleRateStore(store: Store)
      modifies this
      ensures selectedStore == Some(store) && showRatingModal && ModalVisible()
      ensures stores == old(stores) && loading == old(loading) && filters == old(filters)
      ensures sortConfig == old(sortConfig) && toast == old(toast)
    {
      selectedStore := Some(store);
      showRatingModal := true;
    }

    /** The dialog's `onClose`: both the flag and the selection are cleared. */
    method CloseRatingModal()
      modifies this
      ensures selectedStore == None && !showRatingModal && !ModalVisible()
      ensures stores == old(stores) && loading == old(loading) && filters == old(filters)
      ensures sortConfig == old(sortConfig) && toast == old(toast)
    {
      showRatingModal := false;
      selectedStore := None;
    }

    /** `handleRatingSubmitted()`: the dialog closes, the selection is
        cleared and the list is fetched again; `reply` is what that fetch
        settles with. */
    method HandleRatingSubmitted(reply: Result<seq<Store>>) returns (request: Api.Request)
      modifies this
      ensures selectedStore == None && !showRatingModal && !ModalVisible()
      ensures request == Api.Call(Api.UserStores, map[], Pruned(QueryParams(filters, sortConfig)))
      ensures stores == (if reply.Ok? then reply.value else old(stores))
      ensures toast == (if reply.Err? then Some(FailureMessage) else old(toast))
      ensures !loading
      ensures filters == old(filters) && sortConfig == old(sortConfig)
    {
      showRatingModal := false;
      selectedStore := None;
      request := FetchStores(reply);
    }
  }
}
