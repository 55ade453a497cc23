/** The administrator's store list (`StoreManagement`): three filters, a
    table whose sortable columns are declared in one list, and the list
    request built from filters and sort. */
module StoreManagement {
  import opened Wrappers
  import opened ListQuery
  import Api

  /** A row of the store table, as `data.stores` delivers it. The average
      rating is displayed with floating-point arithmetic and is not part of
      the model. */
  datatype StoreRow = StoreRow(id: int, name: string, email: string, address: Option<string>,
                               ownerName: Option<string>, createdAt: string)

  /** `{ name: "", email: "", address: "" }`. */
  const InitialFilters: Filters := map["name" := "", "email" := "", "address" := ""]

  const FailureMessage := "Failed to fetch stores"
  const FilteredHint := "Try adjusting your filters"
  const UnfilteredHint := "Get started by creating a new store"

  /** The column list of the table header: a label and the sort key, `null`
      for the columns that are plain text. */
  const Columns: seq<(string, Option<string>)> :=
    [("Store Name", Some("name")), ("Email", Some("email")), ("Address", None),
     ("Rating", Some("avg_rating")), ("Owner", None), ("Created", Some("created_at"))]

  function SortableKeys(): set<string> {
    set c | c in Columns && c.1.Some? :: c.1.value
  }

  /** Only name, email, average rating and creation date are sortable;
      address and owner are not. */
  lemma SortableColumns()
    ensures SortableKeys() == {"name", "email", "avg_rating", "created_at"}
    ensures forall c :: c in Columns && (c.0 == "Address" || c.0 == "Owner") ==> c.1.None?
  {
    assert Columns[0] in Columns && Columns[1] in Columns && Columns[3] in Columns && Columns[5] in Columns;
  }

  /** The text under "No stores found": it depends only on whether some
      filter is non-empty. */
  function NoRowsHint(filters: Filters): string {
    assert FilteredHint[0] != UnfilteredHint[0];
    EmptyHint(filters, FilteredHint, UnfilteredHint)
  }

  class StoreManagementScreen {
    var stores: seq<StoreRow>
    var loading: bool
    var showCreateModal: bool
    var filters: Filters
    var sortConfig: SortConfig
    /** The last error toast raised by this screen. */
    var toast: Option<string>

    constructor ()
      ensures stores == [] && loading && !showCreateModal && toast == None
      ensures filters == InitialFilters && sortConfig == InitialSort
    {
      stores := [];
      loading := true;
      showCreateModal := false;
      filters := InitialFilters;
      sortConfig := InitialSort;
      toast := None;
    }

    method HandleFilterChange(field: string, value: string)
      modifies this
      ensures filters == WithFilter(old(filters), field, value)
      ensures stores == old(stores) && loading == old(loading) && sortConfig == old(sortConfig)
      ensures showCreateModal == old(showCreateModal) && toast == old(toast)
    {
      filters := filters[field := value];
    }

    method HandleSort(field: string)
      modifies this
      ensures sortConfig == NextSort(old(sortConfig), field)
      ensures stores == old(stores) && loading == old(loading) && filters == old(filters)
      ensures showCreateModal == old(showCreateModal) && toast == old(toast)
    {
      var direction := if sortConfig.field == field && sortConfig.direction == Asc then Desc else Asc;
      sortConfig := SortConfig(field, direction);
    }

    /** `fetchStores()`: `reply` is what `getStores` resolves to
        (`data.stores`) or the error it rejects with. */
    method FetchStores(reply: Result<seq<StoreRow>>) returns (request: Api.Request)
      modifies this
      ensures request == Api.Call(Api.Stores, map[], Pruned(QueryParams(filters, sortConfig)))
      ensures stores == (if reply.Ok? then reply.value else old(stores))
      ensures toast == (if reply.Err? then Some(FailureMessage) else old(toast))
      ensures !loading
      ensures filters == old(filters) && sortConfig == old(sortConfig)
      ensures showCreateModal == old(showCreateModal)
    {
      loading := true;
      var params := Prune(QueryParams(filters, sortConfig));
      request := Api.Call(Api.Stores, map[], params);
      if reply.Ok? {
        stores := reply.value;
      } else {
        toast := Some(FailureMessage);
      }
      loading := false;
    }

    /** "Add Store" and the create modal's `onClose`. */
    method SetCreateModal(open: bool)
      modifies this
      ensures showCreateModal == open
      ensures stores == old(stores) && loading == old(loading) && filters == old(filters)
      ensures sortConfig == old(sortConfig) && toast == old(toast)
    {
      showCreateModal := open;
    }
  }
}
