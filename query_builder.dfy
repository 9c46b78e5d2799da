/**
 * Translation of the list query parameters `search`, `filter`, `sortBy`
 * and `sortOrder` into a filter descriptor and a sort descriptor.  The
 * search term is used as an unescaped, case-insensitive regular
 * expression; how the store matches it is not part of this model.
 */
module QueryBuilder {
  import opened Wrappers
  import opened JsString

  /** `{ $regex: pattern, $options: options }`. */
  datatype Regex = Regex(pattern: string, options: string)

  /** `{ [field]: { $regex, $options } }`: one alternative of the search. */
  datatype FieldMatch = FieldMatch(field: string, regex: Regex)

  /** A filter key's value: the `$or` list of the search, or the equality value of the filter. */
  datatype Condition = AnyOf(alternatives: seq<FieldMatch>) | Equals(value: string)

  type Filter = map<string, Condition>

  /** Field to direction: 1 ascending, -1 descending. */
  type SortOptions = map<string, int>

  /** The query parameters; `others` are the keys the builder does not read. */
  datatype QueryParams = QueryParams(
    search: Option<string>, filter: Option<string>, sortBy: Option<string>, sortOrder: Option<string>,
    others: map<string, string>)

  datatype Query = Query(query: Filter, sortOptions: SortOptions)

  const OrKey := "$or"

  /** `fields.map(field => ({ [field]: { $regex: search, $options: 'i' } }))`. */
  function SearchConditions(search: string, fields: seq<string>): (conditions: seq<FieldMatch>)
    ensures |conditions| == |fields|
    ensures forall i :: 0 <= i < |fields| ==> conditions[i] == FieldMatch(fields[i], Regex(search, "i"))
  {
    if fields == [] then [] else [FieldMatch(fields[0], Regex(search, "i"))] + SearchConditions(search, fields[1..])
  }

  function BuildSearchQuery(search: Option<string>, fields: seq<string>): (q: Filter)
    ensures q == map[] <==> !Truthy(search) || fields == []
    ensures q != map[] ==> q.Keys == {OrKey} && q[OrKey].AnyOf?
    ensures q != map[] ==>
      var alternatives := q[OrKey].alternatives;
      && |alternatives| == |fields|
      && forall i :: 0 <= i < |fields| ==> alternatives[i] == FieldMatch(fields[i], Regex(search.value, "i"))
  {
    if !Truthy(search) || |fields| == 0 then map[]
    else
      var q := map[OrKey := AnyOf(SearchConditions(search.value, fields))];
      assert OrKey in q;
      q
  }

  function BuildFilterQuery(filter: Option<string>, field: string): (q: Filter)
    ensures q == map[] <==> !Truthy(filter) || field == ""
    ensures q != map[] ==> q == map[field := Equals(filter.value)]
  {
    if !Truthy(filter) || field == "" then map[]
    else
      var q := map[field := Equals(filter.value)];
      assert field in q;
      q
  }

  /**
   * The one key an assignment `obj[key] = v` on a fresh object literal does
   * not create: it reaches the inherited `Object.prototype.__proto__`
   * setter, which ignores a value that is not an object.
   */
  const ProtoKey := "__proto__"

  /** A `sortBy` that becomes a key of the sort options: truthy and not `__proto__`. */
  predicate SortKey(sortBy: Option<string>) {
    Truthy(sortBy) && sortBy.value != ProtoKey
  }

  /** `sortOptions[sortBy] = ...` on `{}`, only when `sortBy` is truthy. */
  function BuildSortOptions(sortBy: Option<string>, sortOrder: Option<string>): (s: SortOptions)
    ensures s == map[] <==> !SortKey(sortBy)
    ensures s != map[] ==> s.Keys == {sortBy.value}
    ensures s != map[] ==> (s[sortBy.value] == -1 <==> sortOrder == Some("desc"))
    ensures s != map[] ==> s[sortBy.value] in {-1, 1}
  {
    var sortOptions: SortOptions := map[];
    if Truthy(sortBy) then
      if sortBy.value == ProtoKey then sortOptions
      else
        var s := sortOptions[sortBy.value := if sortOrder == Some("desc") then -1 else 1];
        assert sortBy.value in s;
        s
    else sortOptions
  }

  function BuildQuery(params: QueryParams, searchFields: seq<string>, filterField: string): (r: Query)
    ensures r.query.Keys <= {OrKey, filterField}
    ensures var search := BuildSearchQuery(params.search, searchFields);
            var filter := BuildFilterQuery(params.filter, filterField);
            && r.query.Keys == search.Keys + filter.Keys
            && (forall k :: k in filter ==> r.query[k] == filter[k])
            && (forall k :: k in search && k !in filter ==> r.query[k] == search[k])
    ensures r.sortOptions == BuildSortOptions(params.sortBy, params.sortOrder)
  {
    Query(BuildSearchQuery(params.search, searchFields) + BuildFilterQuery(params.filter, filterField),
          BuildSortOptions(params.sortBy, params.sortOrder))
  }

  /** The sort options depend on `sortBy` and `sortOrder` only, the query on `search` and `filter` only. */
  lemma BuildQueryReadsOnlyItsParameters(p1: QueryParams, p2: QueryParams, searchFields: seq<string>, filterField: string)
    ensures p1.sortBy == p2.sortBy && p1.sortOrder == p2.sortOrder
        ==> BuildQuery(p1, searchFields, filterField).sortOptions == BuildQuery(p2, searchFields, filterField).sortOptions
    ensures p1.search == p2.search && p1.filter == p2.filter
        ==> BuildQuery(p1, searchFields, filterField).query == BuildQuery(p2, searchFields, filterField).query
  {
  }

  /** A filter on the key `$or` replaces the search alternatives. */
  lemma FilterWinsOnCollision(params: QueryParams, searchFields: seq<string>)
    requires Truthy(params.search) && searchFields != [] && Truthy(params.filter)
    ensures BuildQuery(params, searchFields, OrKey).query == map[OrKey := Equals(params.filter.value)]
  {
  }

  /** Only the exact text "desc" sorts descending; any other casing sorts ascending. */
  lemma DescendingIsCaseSensitive(field: string)
    requires SortKey(Some(field))
    ensures BuildSortOptions(Some(field), Some("desc")) == map[field := -1]
    ensures BuildSortOptions(Some(field), Some("DESC")) == map[field := 1]
    ensures BuildSortOptions(Some(field), None) == BuildSortOptions(Some(field), Some("asc"))
  {
  }

  /** Sorting by `__proto__` is silently dropped, whatever the order. */
  lemma ProtoSortIgnored(sortOrder: Option<string>, params: QueryParams, searchFields: seq<string>, filterField: string)
    requires params.sortBy == Some(ProtoKey)
    ensures BuildSortOptions(Some(ProtoKey), sortOrder) == map[]
    ensures BuildQuery(params, searchFields, filterField).sortOptions == map[]
  {
  }
}
