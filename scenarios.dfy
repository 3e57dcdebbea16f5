/** Client methods that drive a fresh store through typical usage
    scenarios and state what the list request looks like afterwards. */
module Scenarios {

  import opened Wrappers
  import opened Sorting
  import opened JsNumber
  import opened SearchParams
  import opened HospitalSearch

  /** Searching "123" in the default `id` field asks for hospital 123 on the
      first page. */
  method NumericTermScenario(searchParamIds: seq<string>, tokens: DirectionTokens)
    returns (params: HospitalRequestParams)
    requires searchParamIds != [] && searchParamIds[0] == "id"
    ensures params.id == Some(123) && params.page == 0
    ensures params.name == None && params.ruc == None
  {
    var store := new SearchStore(searchParamIds, tokens);
    store.SetPage(4);
    store.SetSearchTerm("123");
    params := store.BuildSearchParams();
    ParsesTo123();
    BuiltParamsSpec(store.State(), searchParamIds, tokens);
  }

  lemma ParsesTo123()
    ensures ParseInt("123") == Some(123)
  {
    ParseIntRoundTrip(123);
    assert DecimalString(12) == "12";
    assert IntString(123) == "123";
  }

  /** A term that is not a number adds no `id` filter, and no error. */
  method NonNumericTermScenario(searchParamIds: seq<string>, tokens: DirectionTokens)
    returns (params: HospitalRequestParams)
    requires searchParamIds != [] && searchParamIds[0] == "id"
    ensures params.id == None
  {
    var store := new SearchStore(searchParamIds, tokens);
    store.SetSearchTerm("abc");
    params := store.BuildSearchParams();
    ParseIntRejectsNonDigit([], 'a', "bc");
    assert [] + ['a'] + "bc" == "abc";
    BuiltParamsSpec(store.State(), searchParamIds, tokens);
  }

  /** Searching in `name` and `ruc` sends the raw term in both keys, beside
      the default paging and sort. */
  method NameAndRucScenario(searchParamIds: seq<string>, tokens: DirectionTokens)
    returns (params: HospitalRequestParams)
    requires searchParamIds != [] && "name" in searchParamIds && "ruc" in searchParamIds
    ensures params == HospitalRequestParams(0, 20, None, Some("General"), Some("General"), None,
                                            Some("updatedAt," + tokens.desc))
  {
    var store := new SearchStore(searchParamIds, tokens);
    store.SetSearchFields(["name", "ruc"]);
    store.SetSearchTerm("General");
    params := store.BuildSearchParams();
    BuiltParamsSpec(store.State(), searchParamIds, tokens);
    assert "updatedAt" + "," + tokens.desc == "updatedAt," + tokens.desc;
  }

  /** A sort chosen in the table widget reaches the request's `sort`. */
  method SortDescriptorScenario(searchParamIds: seq<string>, tokens: DirectionTokens)
    returns (params: HospitalRequestParams, config: SortConfig)
    requires searchParamIds != []
    ensures config == SortConfig("name", Asc)
    ensures params.sort == Some("name," + tokens.asc)
  {
    var store := new SearchStore(searchParamIds, tokens);
    store.SetSortDescriptor(SortDescriptor("name", Ascending));
    config := store.sortConfig;
    params := store.BuildSearchParams();
    BuiltParamsSpec(store.State(), searchParamIds, tokens);
    assert "name" + "," + tokens.asc == "name," + tokens.asc;
  }

  /** Clearing the selected state leaves no state filter behind. */
  method ClearSelectedStateScenario(searchParamIds: seq<string>, tokens: DirectionTokens, stateId: int)
    returns (params: HospitalRequestParams)
    requires searchParamIds != []
    ensures params.stateId == None
  {
    var store := new SearchStore(searchParamIds, tokens);
    store.SetSelectedState(Some(stateId));
    store.SetSelectedState(None);
    params := store.BuildSearchParams();
    BuiltParamsSpec(store.State(), searchParamIds, tokens);
  }

  /** Building the parameters twice with no setter between gives equal
      records, whatever the store has been through. */
  method BuildTwice(store: SearchStore) returns (first: HospitalRequestParams, second: HospitalRequestParams)
    ensures first == second
  {
    first := store.BuildSearchParams();
    second := store.BuildSearchParams();
  }
}
