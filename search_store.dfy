/** The hospital search store: one mutable state record, eight setters that
    each replace part of it, and `buildSearchParams`, which reads the state
    and builds the parameters of the next list request. */
module HospitalSearch {

  import opened Wrappers
  import opened Sorting
  import opened JsNumber
  import opened SearchParams

  class SearchStore {
    /** The ids of the recognised search fields, in order (`SEARCH_PARAMS`). */
    const searchParamIds: seq<string>
    /** The string values of the `SortDirection` enum. */
    const tokens: DirectionTokens

    var searchTerm: string
    var sortConfig: SortConfig
    var selectedState: Option<int>
    var searchFields: seq<string>
    var filters: HospitalRequestParams
    var sortDescriptor: SortDescriptor

    /** The whole state as a value. */
    function State(): SearchState
      reads this
    {
      SearchState(searchTerm, sortConfig, selectedState, searchFields, filters, sortDescriptor)
    }

    /** The store's invariant: the two sort shapes describe the same order. */
    ghost predicate Valid()
      reads this
    {
      InSync(sortConfig, sortDescriptor)
    }

    /** The store as created: sorted by `updatedAt` descending in both shapes,
        first page of 20, searching in the first recognised field. */
    constructor (searchParamIds: seq<string>, tokens: DirectionTokens)
      requires searchParamIds != []
      ensures this.searchParamIds == searchParamIds && this.tokens == tokens
      ensures State() == InitialState(searchParamIds[0])
      ensures Valid()
    {
      this.searchParamIds := searchParamIds;
      this.tokens := tokens;
      searchTerm := "";
      sortConfig := SortConfig("updatedAt", Desc);
      selectedState := None;
      searchFields := [searchParamIds[0]];
      filters := HospitalRequestParams(0, 20, None, None, None, None, None);
      sortDescriptor := SortDescriptor("updatedAt", Descending);
    }

    /** A new term restarts the list at the first page. */
    method SetSearchTerm(term: string)
      requires Valid()
      modifies this
      ensures Valid()
      ensures State() == old(State()).(searchTerm := term, filters := old(filters).(page := 0))
    {
      searchTerm := term;
      filters := filters.(page := 0);
    }

    /** Sets the configuration and derives the descriptor from it. */
    method SetSortConfig(config: SortConfig)
      modifies this
      ensures Valid()
      ensures sortDescriptor.column == config.field
      ensures sortDescriptor.direction == Ascending <==> config.direction == Asc
      ensures State() == old(State()).(sortConfig := config, sortDescriptor := DescriptorOf(config))
    {
      sortConfig := config;
      sortDescriptor := SortDescriptor(config.field, if config.direction == Asc then Ascending else Descending);
    }

    /** Sets the state filter; `None` (the source's `null`) clears it. */
    method SetSelectedState(stateId: Option<int>)
      requires Valid()
      modifies this
      ensures Valid()
      ensures State() == old(State()).(selectedState := stateId, filters := old(filters).(stateId := stateId))
    {
      selectedState := stateId;
      filters := filters.(stateId := stateId);
    }

    method SetSearchFields(fields: seq<string>)
      requires Valid()
      modifies this
      ensures Valid()
      ensures State() == old(State()).(searchFields := fields)
    {
      searchFields := fields;
    }

    method SetFilters(filters: HospitalRequestParams)
      requires Valid()
      modifies this
      ensures Valid()
      ensures State() == old(State()).(filters := filters)
    {
      this.filters := filters;
    }

    /** Takes a one-based page number and stores it zero-based. */
    method SetPage(page: int)
      requires Valid()
      modifies this
      ensures Valid()
      ensures filters.page == page - 1
      ensures State() == old(State()).(filters := old(filters).(page := page - 1))
    {
      filters := filters.(page := page - 1);
    }

    method SetPageSize(size: int)
      requires Valid()
      modifies this
      ensures Valid()
      ensures State() == old(State()).(filters := old(filters).(size := size))
    {
      filters := filters.(size := size);
    }

    /** Sets the descriptor as given and derives the configuration from it. */
    method SetSortDescriptor(descriptor: SortDescriptor)
      modifies this
      ensures Valid()
      ensures sortConfig.field == descriptor.column
      ensures sortConfig.direction == Asc <==> descriptor.direction == Ascending
      ensures State() == old(State()).(sortDescriptor := descriptor, sortConfig := ConfigOf(descriptor))
    {
      sortDescriptor := descriptor;
      sortConfig := SortConfig(descriptor.column, if descriptor.direction == Ascending then Asc else Desc);
      ConversionsAreInverse(sortConfig, descriptor);
    }

    /** The parameters of the next list request. The method changes nothing,
        so two calls with no setter between them give equal results. */
    method BuildSearchParams() returns (params: HospitalRequestParams)
      ensures params == BuiltParams(State(), searchParamIds, tokens)
    {
      params := filters.(sort := Some(sortConfig.field + "," + tokens.Token(sortConfig.direction)));
      if searchTerm != "" {
        ghost var base := params;
        for i := 0 to |searchFields|
          invariant params == ApplySearchFields(base, searchFields[..i], searchTerm, searchParamIds)
        {
          var field := searchFields[i];
          assert searchFields[..i + 1][..i] == searchFields[..i];
          if field in searchParamIds {
            if field == "id" {
              var numericId := ParseInt(searchTerm);
              if numericId.Some? {
                params := params.(id := numericId);
              }
            } else if field == "ruc" {
              params := params.(ruc := Some(searchTerm));
            } else if field == "name" {
              params := params.(name := Some(searchTerm));
            }
          }
        }
        assert searchFields[..|searchFields|] == searchFields;
      }
    }
  }
}
