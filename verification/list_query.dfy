/** The list-query logic shared by the three list screens (user management,
    store management, the user's store browser): the sort toggle, the
    filter updater, the query built from filters and sort, and the pruning
    of empty parameters before the list request. */
module ListQuery {

  datatype Direction = Asc | Desc

  /** `sortConfig`: the clicked column (`""` before any click) and the
      direction. */
  datatype SortConfig = SortConfig(field: string, direction: Direction)

  /** `{ field: "", direction: "asc" }`. */
  const InitialSort := SortConfig("", Asc)

  /** A filter record: field name to the text typed (or option chosen). */
  type Filters = map<string, string>

  const SortFieldKey := "sortField"
  const SortDirectionKey := "sortDirection"

  /** The wire form of a direction; never empty. */
  function DirectionText(d: Direction): (t: string)
    ensures t == "asc" <==> d == Asc
    ensures t == "desc" <==> d == Desc
  {
    assert |"desc"| != |"asc"|;
    match d
    case Asc => "asc"
    case Desc => "desc"
  }

  // ---------------------------------------------------------------------
  // Sort toggle

  /** The updater of `handleSort(field)`: the clicked column becomes the
      sort field; the direction turns descending only on a second click of
      the column currently sorted ascending. */
  function NextSort(prev: SortConfig, field: string): (r: SortConfig)
    ensures r.field == field
    ensures r.direction == Desc <==> prev.field == field && prev.direction == Asc
  {
    SortConfig(field, if prev.field == field && prev.direction == Asc then Desc else Asc)
  }

  /** `n` successive clicks on the same column header. */
  function Clicks(s: SortConfig, field: string, n: nat): SortConfig
    decreases n
  {
    if n == 0 then s else NextSort(Clicks(s, field, n - 1), field)
  }

  /** Repeated clicks on one column alternate the direction: after the
      first click every further click flips it. */
  lemma {:induction false} ClicksAlternate(s: SortConfig, field: string, n: nat)
    requires n >= 1
    ensures Clicks(s, field, n).field == field
    ensures Clicks(s, field, n).direction == Desc
            <==> (n % 2 == 1) == (s.field == field && s.direction == Asc)
  {
    if n > 1 {
      ClicksAlternate(s, field, n - 1);
    }
  }

  /** Clicking a column other than the sorted one always starts ascending;
      two clicks on a fresh column end descending. */
  lemma NewColumnStartsAscending(s: SortConfig, field: string)
    requires s.field != field
    ensures NextSort(s, field) == SortConfig(field, Asc)
    ensures NextSort(NextSort(s, field), field) == SortConfig(field, Desc)
  {
  }

  // ---------------------------------------------------------------------
  // Filters

  /** The updater of `handleFilterChange(field, value)`. */
  function WithFilter(filters: Filters, field: string, value: string): (r: Filters)
    ensures r.Keys == filters.Keys + {field}
    ensures r[field] == value
    ensures forall k :: k in filters && k != field ==> r[k] == filters[k]
  {
    filters[field := value]
  }

  /** `Object.values(filters).some((f) => f)`. */
  predicate AnyFilterSet(filters: Filters) {
    exists k :: k in filters && filters[k] != ""
  }

  /** The text under an empty table: the screen's filtered hint exactly
      when some filter is set, its unfiltered hint otherwise. */
  function EmptyHint(filters: Filters, filtered: string, unfiltered: string): (h: string)
    requires filtered != unfiltered
    ensures h == filtered <==> AnyFilterSet(filters)
    ensures h == unfiltered <==> !AnyFilterSet(filters)
  {
    if AnyFilterSet(filters) then filtered else unfiltered
  }

  // ---------------------------------------------------------------------
  // Query parameters

  /** `{ ...filters, sortField: sort.field, sortDirection: sort.direction }`. */
  function QueryParams(filters: Filters, sort: SortConfig): map<string, string> {
    filters[SortFieldKey := sort.field][SortDirectionKey := DirectionText(sort.direction)]
  }

  /** The parameters that survive the deletion of every falsy value (for a
      string, the empty one). */
  function Pruned(params: map<string, string>): map<string, string> {
    map k | k in params && params[k] != "" :: params[k]
  }

  /** The pruning loop: every key whose value is empty is deleted, in place,
      one key at a time. */
  method Prune(params: map<string, string>) returns (r: map<string, string>)
    ensures forall k :: k in r <==> k in params && params[k] != ""
    ensures forall k :: k in r ==> r[k] == params[k]
    ensures r == Pruned(params)
  {
    r := params;
    var keys := params.Keys;
    while keys != {}
      invariant keys <= params.Keys
      invariant forall k :: k in r <==> k in params && (k in keys || params[k] != "")
      invariant forall k :: k in r ==> r[k] == params[k]
      decreases |keys|
    {
      var k :| k in keys;
      if r[k] == "" {
        r := r - {k};
      }
      keys := keys - {k};
    }
    assert r.Keys == Pruned(params).Keys;
  }

  /** What a list request carries: the direction always, the sort field
      only once a column has been clicked, and exactly the non-empty
      filters with their values unchanged; no parameter is empty. */
  lemma PrunedQuery(filters: Filters, sort: SortConfig)
    ensures var p := Pruned(QueryParams(filters, sort));
      && SortDirectionKey in p && p[SortDirectionKey] == DirectionText(sort.direction)
      && (SortFieldKey in p <==> sort.field != "")
      && (SortFieldKey in p ==> p[SortFieldKey] == sort.field)
      && (forall k :: k != SortFieldKey && k != SortDirectionKey
            ==> (k in p <==> k in filters && filters[k] != ""))
      && (forall k :: k in p && k != SortFieldKey && k != SortDirectionKey ==> p[k] == filters[k])
      && (forall k :: k in p ==> p[k] != "")
  {
  }

  /** A filter reaches the request exactly when some filter is set, which
      is also what the empty-list hint tests. */
  lemma {:induction false} FilterSentIffSet(filters: Filters, sort: SortConfig)
    requires SortFieldKey !in filters && SortDirectionKey !in filters
    ensures AnyFilterSet(filters)
            <==> exists k :: k in Pruned(QueryParams(filters, sort)) && k != SortFieldKey && k != SortDirectionKey
  {
    var p := Pruned(QueryParams(filters, sort));
    if AnyFilterSet(filters) {
      var k :| k in filters && filters[k] != "";
      assert k in p;
    }
    if exists k :: k in p && k != SortFieldKey && k != SortDirectionKey {
      var k :| k in p && k != SortFieldKey && k != SortDirectionKey;
      assert k in filters && filters[k] != "";
    }
  }

  /** Before any typing or clicking, the request carries only the
      direction, ascending. */
  lemma InitialQuery(filters: Filters)
    requires forall k :: k in filters ==> filters[k] == ""
    ensures Pruned(QueryParams(filters, InitialSort)) == map[SortDirectionKey := "asc"]
  {
    var p := Pruned(QueryParams(filters, InitialSort));
    assert p.Keys == {SortDirectionKey};
  }
}
