/** The administrator's user list (`UserManagement`): four filters, a
    sortable table and the list request built from both. */
module UserManagement {
  import opened Wrappers
  import opened ListQuery
  import Api

  /** A row of the user table, as `data.users` delivers it. */
  datatype UserRow = UserRow(id: int, name: string, email: string, address: Option<string>,
                             role: string, createdAt: string)

  /** `{ name: "", email: "", address: "", role: "" }`. */
  const InitialFilters: Filters := map["name" := "", "email" := "", "address" := "", "role" := ""]

  const FailureMessage := "Failed to fetch users"
  const FilteredHint := "Try adjusting your filters"
  const UnfilteredHint := "Get started by creating a new user"

  /** The table header: each column's label and, for the columns that are
      sort buttons, the field `handleSort` receives. */
  const Columns: seq<(string, Option<string>)> :=
    [("Name", Some("name")), ("Email", Some("email")), ("Address", None),
     ("Role", Some("role")), ("Created", Some("created_at"))]

  function SortableKeys(): set<string> {
    set c | c in Columns && c.1.Some? :: c.1.value
  }

  /** Name, email, role and creation date are sortable; address is not. */
  lemma SortableColumns()
    ensures SortableKeys() == {"name", "email", "role", "created_at"}
    ensures forall c :: c in Columns && c.0 == "Address" ==> c.1.None?
  {
    assert Columns[0] in Columns && Columns[1] in Columns && Columns[3] in Columns && Columns[4] in Columns;
  }

  /** The text under "No users found". */
  function NoRowsHint(filters: Filters): string {
    assert FilteredHint[0] != UnfilteredHint[0];
    EmptyHint(filters, FilteredHint, UnfilteredHint)
  }

  /** The screen's first request: only `sortDirection=asc`, and the
      "create" hint while the list is empty. */
  lemma InitialRequest()
    ensures Pruned(QueryParams(InitialFilters, InitialSort)) == map[SortDirectionKey := "asc"]
    ensures NoRowsHint(InitialFilters) == UnfilteredHint
  {
    InitialQuery(InitialFilters);
  }

  class UserManagementScreen {
    var users: seq<UserRow>
    var loading: bool
    var showCreateModal: bool
    var filters: Filters
    var sortConfig: SortConfig
    /** The last error toast raised by this screen. */
    var toast: Option<string>

    constructor ()
      ensures users == [] && loading && !showCreateModal && toast == None
      ensures filters == InitialFilters && sortConfig == InitialSort
    {
      users := [];
      loading := true;
      showCreateModal := false;
      filters := InitialFilters;
      sortConfig := InitialSort;
      toast := None;
    }

    method HandleFilterChange(field: string, value: string)
      modifies this
      ensures filters == WithFilter(old(filters), field, value)
      ensures users == old(users) && loading == old(loading) && sortConfig == old(sortConfig)
      ensures showCreateModal == old(showCreateModal) && toast == old(toast)
    {
      filters := filters[field := value];
    }

    method HandleSort(field: string)
      modifies this
      ensures sortConfig == NextSort(old(sortConfig), field)
      ensures users == old(users) && loading == old(loading) && filters == old(filters)
      ensures showCreateModal == old(showCreateModal) && toast == old(toast)
    {
      var direction := if sortConfig.field == field && sortConfig.direction == Asc then Desc else Asc;
      sortConfig := SortConfig(field, direction);
    }

    /** `fetchUsers()`: `reply` is what `getUsers` resolves to (`data.users`)
        or the error it rejects with. The request carries the pruned query;
        a failure keeps the previous list. */
    method FetchUsers(reply: Result<seq<UserRow>>) returns (request: Api.Request)
      modifies this
      ensures request == Api.Call(Api.Users, map[], Pruned(QueryParams(filters, sortConfig)))
      ensures users == (if reply.Ok? then reply.value else old(users))
      ensures toast == (if reply.Err? then Some(FailureMessage) else old(toast))
      ensures !loading
      ensures filters == old(filters) && sortConfig == old(sortConfig)
      ensures showCreateModal == old(showCreateModal)
    {
      loading := true;
      var params := Prune(QueryParams(filters, sortConfig));
      request := Api.Call(Api.Users, map[], params);
      if reply.Ok? {
        users := reply.value;
      } else {
        toast := Some(FailureMessage);
      }
      loading := false;
    }

    /** "Add User" and the create modal's `onClose`. */
    method SetCreateModal(open: bool)
      modifies this
      ensures showCreateModal == open
      ensures users == old(users) && loading == old(loading) && filters == old(filters)
      ensures sortConfig == old(sortConfig) && toast == old(toast)
    {
      showCreateModal := open;
    }
  }
}
