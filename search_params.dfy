/** The request parameters the hospital list sends, the state of the search
    store as a value, and `buildSearchParams` as a specification function:
    the filters with the `sort` string, then, for a non-empty search term,
    one step per selected search field. */
module SearchParams {

  import opened Wrappers
  import opened Sorting
  import opened JsNumber

  /** `HospitalRequestParams`: a zero-based page, a page size and the optional
      filters. An absent key and a key set to `undefined` are both `None`. */
  datatype HospitalRequestParams = HospitalRequestParams(
    page: int,
    size: int,
    stateId: Option<int>,
    name: Option<string>,
    ruc: Option<string>,
    id: Option<int>,
    sort: Option<string>)

  /** The fields of the store's state. */
  datatype SearchState = SearchState(
    searchTerm: string,
    sortConfig: SortConfig,
    selectedState: Option<int>,
    searchFields: seq<string>,
    filters: HospitalRequestParams,
    sortDescriptor: SortDescriptor)

  /** The state the store starts in; `defaultField` is the id of the first
      recognised search field. */
  function InitialState(defaultField: string): (st: SearchState)
    ensures st.searchTerm == "" && st.selectedState == None
    ensures st.searchFields == [defaultField]
    ensures st.filters == HospitalRequestParams(0, 20, None, None, None, None, None)
    ensures st.sortConfig == SortConfig("updatedAt", Desc)
    ensures InSync(st.sortConfig, st.sortDescriptor)
  {
    SearchState(
      "",
      SortConfig("updatedAt", Desc),
      None,
      [defaultField],
      HospitalRequestParams(0, 20, None, None, None, None, None),
      SortDescriptor("updatedAt", Descending))
  }

  /** The filters with the `sort` string of the configuration, replacing any
      `sort` the filters had. */
  function WithSort(filters: HospitalRequestParams, c: SortConfig, tokens: DirectionTokens): HospitalRequestParams {
    filters.(sort := Some(SortString(c, tokens)))
  }

  /** What one search field adds for the term: a recognised `id` field sets
      `id` when the term parses as an integer, a recognised `name` or `ruc`
      field sets that key to the raw term, anything else adds nothing. */
  function ApplySearchField(p: HospitalRequestParams, field: string, term: string,
                            searchParamIds: seq<string>): HospitalRequestParams
  {
    if field !in searchParamIds then p
    else if field == "id" then
      match ParseInt(term)
      case Some(n) => p.(id := Some(n))
      case None => p
    else if field == "ruc" then p.(ruc := Some(term))
    else if field == "name" then p.(name := Some(term))
    else p
  }

  /** The search fields applied in order. */
  function ApplySearchFields(p: HospitalRequestParams, fields: seq<string>, term: string,
                             searchParamIds: seq<string>): HospitalRequestParams
  {
    if fields == [] then p
    else ApplySearchField(ApplySearchFields(p, fields[..|fields| - 1], term, searchParamIds),
                          fields[|fields| - 1], term, searchParamIds)
  }

  /** `buildSearchParams()` on a state: the search fields add to the filters
      only when the term is not empty. */
  function BuiltParams(st: SearchState, searchParamIds: seq<string>, tokens: DirectionTokens): HospitalRequestParams {
    var base := WithSort(st.filters, st.sortConfig, tokens);
    if st.searchTerm == "" then base
    else ApplySearchFields(base, st.searchFields, st.searchTerm, searchParamIds)
  }

  /** The term is searched in `field`: it is not empty, and the field is both
      selected and recognised. */
  predicate Searches(st: SearchState, searchParamIds: seq<string>, field: string) {
    st.searchTerm != "" && field in st.searchFields && field in searchParamIds
  }

  /** What the fields do, independently of their order and repetitions: `id`,
      `name` and `ruc` are set exactly when that field is among them and
      recognised (`id` only when the term parses); every other key is kept. */
  lemma {:induction false} ApplySearchFieldsEffect(p: HospitalRequestParams, fields: seq<string>,
                                                   term: string, searchParamIds: seq<string>)
    ensures var r := ApplySearchFields(p, fields, term, searchParamIds);
      && r.page == p.page && r.size == p.size && r.stateId == p.stateId && r.sort == p.sort
      && r.id == (if "id" in fields && "id" in searchParamIds && ParseInt(term).Some?
                  then ParseInt(term) else p.id)
      && r.name == (if "name" in fields && "name" in searchParamIds then Some(term) else p.name)
      && r.ruc == (if "ruc" in fields && "ruc" in searchParamIds then Some(term) else p.ruc)
  {
    if fields != [] {
      var init := fields[..|fields| - 1];
      ApplySearchFieldsEffect(p, init, term, searchParamIds);
      assert fields == init + [fields[|fields| - 1]];
    }
  }

  /** `buildSearchParams` in closed form: the `sort` string always replaces
      the filters' `sort`; page, size and state filter are copied; `id`,
      `name` and `ruc` take the term exactly when it is searched in that field
      (`id` only when it parses as an integer) and keep the filters' value
      otherwise; with an empty term the result is the filters plus `sort`. */
  lemma BuiltParamsSpec(st: SearchState, searchParamIds: seq<string>, tokens: DirectionTokens)
    ensures var p := BuiltParams(st, searchParamIds, tokens);
      && p.sort == Some(st.sortConfig.field + "," + tokens.Token(st.sortConfig.direction))
      && p.page == st.filters.page && p.size == st.filters.size && p.stateId == st.filters.stateId
      && p.id == (if Searches(st, searchParamIds, "id") && ParseInt(st.searchTerm).Some?
                  then ParseInt(st.searchTerm) else st.filters.id)
      && p.name == (if Searches(st, searchParamIds, "name") then Some(st.searchTerm) else st.filters.name)
      && p.ruc == (if Searches(st, searchParamIds, "ruc") then Some(st.searchTerm) else st.filters.ruc)
      && (st.searchTerm == "" ==> p == st.filters.(sort := p.sort))
  {
    var base := WithSort(st.filters, st.sortConfig, tokens);
    ApplySearchFieldsEffect(base, st.searchFields, st.searchTerm, searchParamIds);
  }

  /** A search field that is not recognised, or that is not one of `id`,
      `name` and `ruc`, contributes nothing wherever it stands in the list. */
  lemma {:induction false} IgnoredFieldContributesNothing(p: HospitalRequestParams, before: seq<string>,
                                                          field: string, after: seq<string>,
                                                          term: string, searchParamIds: seq<string>)
    requires field !in searchParamIds || (field != "id" && field != "name" && field != "ruc")
    ensures ApplySearchFields(p, before + [field] + after, term, searchParamIds)
         == ApplySearchFields(p, before + after, term, searchParamIds)
  {
    var with, without := before + [field] + after, before + after;
    ApplySearchFieldsEffect(p, with, term, searchParamIds);
    ApplySearchFieldsEffect(p, without, term, searchParamIds);
    assert forall f :: f in with && f != field ==> f in without;
    assert forall f :: f in without ==> f in with;
  }
}
