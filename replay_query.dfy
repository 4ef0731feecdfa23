/**
 * The query assembler: every replay query scopes rows to the requested
 * projects and to the time window [start, end), keeps only replays whose
 * first segment is in range and that last at least five seconds, applies the
 * user's filters after aggregation, and groups by replay id.
 */
module ReplayQuery {
  import opened Wrappers
  import opened Snuba
  import opened Pagination
  import opened Sorting
  import opened Filters
  import opened Select

  const DATASET: string := "replays"
  const APP_ID: string := "replay-backend-web"
  const ENTITY: string := "replays"
  const GRANULARITY: int := 3600
  const MIN_DURATION: int := 5

  /** The two ways the entry points raise `TypeError` before any query is built. */
  datatype QueryError =
    | MalformedEnvironmentCondition  // `list.append` given three arguments
    | MissingSearchFilters           // the required `search_filters` argument is not passed

  datatype Result<T> = Ok(value: T) | Err(error: QueryError)

  /** The project and time-window conditions every query's `where` starts with. */
  function BaseWhere(projectIds: seq<int>, start: int, end: int): seq<Condition> {
    [
      Condition(Column("project_id"), IN, IntsV(projectIds)),
      Condition(Column("timestamp"), LT, TimeV(end)),
      Condition(Column("timestamp"), GTE, TimeV(start))
    ]
  }

  /** The conditions every query's `having` starts with: first segment present, long enough. */
  function BaseHaving(): seq<Condition> {
    [
      Condition(Function("min", [Column("sequence_id")], None), EQ, IntV(0)),
      Condition(Column("duration"), GTE, IntV(MIN_DURATION))
    ]
  }

  /** `query_replays_dataset`, up to the request that would be sent to the engine. */
  function QueryReplaysDataset(
    projectIds: seq<int>, start: int, end: int, where: seq<Condition>,
    sorting: seq<OrderBy>, pagination: Option<Paginators>, searchFilters: seq<SearchFilter>
  ): (r: Request)
    ensures r.dataset == DATASET && r.appId == APP_ID && r.query.entity == ENTITY
    ensures r.query.where == BaseWhere(projectIds, start, end) + where
    ensures r.query.having == BaseHaving() + SnubaFilters(searchFilters)
    ensures r.query.select == MakeSelectStatement() && r.query.orderby == sorting
    ensures r.query.groupby == [Column("replay_id")] && r.query.granularity == GRANULARITY
    ensures r.query.limit.Some? <==> pagination.Some?
    ensures r.query.offset.Some? <==> pagination.Some?
    ensures pagination.Some? ==>
      r.query.limit.value == pagination.value.limit && r.query.offset.value == pagination.value.offset
  {
    // Instance requests do not paginate. A present pagination tuple is
    // always truthy, so presence is the only test.
    var limit := if pagination.Some? then Some(pagination.value.limit) else None;
    var offset := if pagination.Some? then Some(pagination.value.offset) else None;
    Request(
      DATASET,
      APP_ID,
      Query(
        ENTITY,
        MakeSelectStatement(),
        [
          Condition(Column("project_id"), IN, IntsV(projectIds)),
          Condition(Column("timestamp"), LT, TimeV(end)),
          Condition(Column("timestamp"), GTE, TimeV(start))
        ] + where,
        [
          Condition(Function("min", [Column("sequence_id")], None), EQ, IntV(0)),
          Condition(Column("duration"), GTE, IntV(5))
        ] + SnubaFilters(searchFilters),
        sorting,
        [Column("replay_id")],
        3600,
        limit,
        offset))
  }

  /**
   * A call of `query_replays_dataset` as Python binds it: `search_filters`
   * has no default, so a call that does not pass it (`None` here) raises
   * `TypeError` before the body runs.
   */
  function CallQueryReplaysDataset(
    projectIds: seq<int>, start: int, end: int, where: seq<Condition>,
    sorting: seq<OrderBy>, pagination: Option<Paginators>, searchFilters: Option<seq<SearchFilter>>
  ): (r: Result<Request>)
    ensures r.Err? <==> searchFilters.None?
    ensures r.Err? ==> r.error == MissingSearchFilters
    ensures r.Ok? ==> r.value == QueryReplaysDataset(projectIds, start, end, where, sorting, pagination, searchFilters.value)
  {
    match searchFilters
    case None => Err(MissingSearchFilters)
    case Some(filters) => Ok(QueryReplaysDataset(projectIds, start, end, where, sorting, pagination, filters))
  }

  /** A raw row belongs to one of the projects and falls in the window [start, end). */
  predicate InScope(row: Row, projectIds: seq<int>, start: int, end: int) {
    && "project_id" in row && row["project_id"].IntV? && row["project_id"].i in projectIds
    && "timestamp" in row && row["timestamp"].TimeV?
    && start <= row["timestamp"].t < end
  }

  /** A row passes the base conditions exactly when it is in scope. */
  lemma BaseWhereMeaning(row: Row, projectIds: seq<int>, start: int, end: int)
    ensures HoldsAll(row, BaseWhere(projectIds, start, end)) <==> InScope(row, projectIds, start, end)
  {
    var b := BaseWhere(projectIds, start, end);
    if InScope(row, projectIds, start, end) {
      assert Holds(row, b[0]) && Holds(row, b[1]) && Holds(row, b[2]);
    }
    if HoldsAll(row, b) {
      assert Holds(row, b[0]) && Holds(row, b[1]) && Holds(row, b[2]);
    }
  }

  /**
   * Whatever the caller adds, a row passes the assembled `where` exactly when
   * it is in scope and passes the caller's conditions.
   */
  lemma DatasetWhereMeaning(
    row: Row, projectIds: seq<int>, start: int, end: int, where: seq<Condition>,
    sorting: seq<OrderBy>, pagination: Option<Paginators>, searchFilters: seq<SearchFilter>)
    ensures var q := QueryReplaysDataset(projectIds, start, end, where, sorting, pagination, searchFilters).query;
      HoldsAll(row, q.where) <==> InScope(row, projectIds, start, end) && HoldsAll(row, where)
  {
    HoldsAllAppend(row, BaseWhere(projectIds, start, end), where);
    BaseWhereMeaning(row, projectIds, start, end);
  }

  /**
   * `query_replays_collection` as written: a non-empty environment list
   * raises before any query is built, and the empty list builds a query
   * with no conditions of the caller's.
   */
  function QueryReplaysCollection(
    projectIds: seq<int>, start: int, end: int, environment: seq<string>,
    sort: Option<string>, limit: RawValue, offset: RawValue, searchFilters: seq<SearchFilter>
  ): (r: Result<Request>)
    ensures r.Err? <==> environment != []
    ensures r.Ok? ==>
      && r.value.query.where == BaseWhere(projectIds, start, end)
      && r.value.query.having == BaseHaving() + SnubaFilters(searchFilters)
      && r.value.query.orderby == MakeSortOrdering(sort)
      && r.value.query.limit.Some? && InPageRange(r.value.query.limit.value)
      && r.value.query.offset == Some(MakePaginationValues(limit, offset).offset)
  {
    if environment != [] then Err(MalformedEnvironmentCondition)
    else
      var sortOrdering := MakeSortOrdering(sort);
      var paginators := MakePaginationValues(limit, offset);
      CallQueryReplaysDataset(projectIds, start, end, [], sortOrdering, Some(paginators), Some(searchFilters))
  }

  /** The collection query always paginates, and by the normalised values. */
  lemma CollectionPaginates(
    projectIds: seq<int>, start: int, end: int,
    sort: Option<string>, limit: RawValue, offset: RawValue, searchFilters: seq<SearchFilter>)
    ensures var r := QueryReplaysCollection(projectIds, start, end, [], sort, limit, offset, searchFilters);
      && r.Ok?
      && r.value.query.limit == Some(MakePaginationValues(limit, offset).limit)
      && r.value.query.offset == Some(MakePaginationValues(limit, offset).offset)
      && |r.value.query.orderby| == 1
  {
  }

  /** A limit of "200" with the longest replays first: a page of 10 from offset 0, by duration descending. */
  lemma CollectionExample(projectIds: seq<int>, start: int, end: int, searchFilters: seq<SearchFilter>)
    ensures var r := QueryReplaysCollection(projectIds, start, end, [], Some("-duration"), Str("200"), Absent, searchFilters);
      && r.Ok?
      && r.value.query.limit == Some(10) && r.value.query.offset == Some(0)
      && r.value.query.orderby == [OrderBy(Column("duration"), DESC)]
  {
    OversizedLimitExample();
    LongestFirstExample();
    CollectionPaginates(projectIds, start, end, Some("-duration"), Str("200"), Absent, searchFilters);
  }

  /** The condition a non-empty environment list was meant to add: `environment IN` the list. */
  function EnvironmentConditions(environment: seq<string>): seq<Condition> {
    if environment != [] then [Condition(Column("environment"), IN, StrsV(environment))] else []
  }

  /** A row passes the environment conditions exactly when no environment is named or it belongs to one. */
  lemma EnvironmentConditionsMeaning(row: Row, environment: seq<string>)
    ensures HoldsAll(row, EnvironmentConditions(environment)) <==>
      (environment != [] ==> "environment" in row && row["environment"].StrV? && row["environment"].s in environment)
  {
    var cs := EnvironmentConditions(environment);
    if environment != [] {
      assert HoldsAll(row, cs) <==> Holds(row, cs[0]);
    }
  }

  /**
   * The collection query with the environment filter wired through: a
   * non-empty list becomes an `environment IN` condition of the `where`.
   */
  function QueryReplaysCollectionWithEnvironment(
    projectIds: seq<int>, start: int, end: int, environment: seq<string>,
    sort: Option<string>, limit: RawValue, offset: RawValue, searchFilters: seq<SearchFilter>
  ): (r: Request)
    ensures r.query.where == BaseWhere(projectIds, start, end) + EnvironmentConditions(environment)
    ensures r.query.limit.Some? && InPageRange(r.query.limit.value)
    ensures |r.query.orderby| == 1
  {
    QueryReplaysDataset(
      projectIds, start, end, EnvironmentConditions(environment),
      MakeSortOrdering(sort), Some(MakePaginationValues(limit, offset)), searchFilters)
  }

  /**
   * With the environment wired through, a row passes the `where` exactly when
   * it is in scope and, if environments were named, belongs to one of them.
   */
  lemma CollectionEnvironmentMeaning(
    row: Row, projectIds: seq<int>, start: int, end: int, environment: seq<string>,
    sort: Option<string>, limit: RawValue, offset: RawValue, searchFilters: seq<SearchFilter>)
    ensures var q := QueryReplaysCollectionWithEnvironment(projectIds, start, end, environment, sort, limit, offset, searchFilters).query;
      HoldsAll(row, q.where) <==>
        && InScope(row, projectIds, start, end)
        && (environment != [] ==> "environment" in row && row["environment"].StrV? && row["environment"].s in environment)
  {
    HoldsAllAppend(row, BaseWhere(projectIds, start, end), EnvironmentConditions(environment));
    BaseWhereMeaning(row, projectIds, start, end);
    EnvironmentConditionsMeaning(row, environment);
  }

  /** Without environments, the wired-through query is the one the source builds. */
  lemma WithEnvironmentAgreesWhenEmpty(
    projectIds: seq<int>, start: int, end: int,
    sort: Option<string>, limit: RawValue, offset: RawValue, searchFilters: seq<SearchFilter>)
    ensures QueryReplaysCollection(projectIds, start, end, [], sort, limit, offset, searchFilters)
      == Ok(QueryReplaysCollectionWithEnvironment(projectIds, start, end, [], sort, limit, offset, searchFilters))
  {
  }

  /** The `where` conditions the instance entry point passes: only the replay id. */
  function InstanceWhere(replayId: string): seq<Condition> {
    [Condition(Column("replay_id"), EQ, StrV(replayId))]
  }

  /**
   * `query_replay_instance` as written: it calls the dataset query with every
   * argument but `search_filters`, so every call raises.
   */
  function QueryReplayInstanceAsWritten(projectId: int, replayId: string, start: int, end: int): (r: Result<Request>)
    ensures r == Err(MissingSearchFilters)
  {
    CallQueryReplaysDataset([projectId], start, end, InstanceWhere(replayId), [], None, None)
  }

  /** The instance query with the missing argument supplied as no filters. */
  function QueryReplayInstance(projectId: int, replayId: string, start: int, end: int): (r: Request)
    ensures r.query.where == BaseWhere([projectId], start, end) + [Condition(Column("replay_id"), EQ, StrV(replayId))]
    ensures r.query.having == BaseHaving()
    ensures r.query.orderby == [] && r.query.limit.None? && r.query.offset.None?
    ensures r.query.groupby == [Column("replay_id")] && r.query.granularity == GRANULARITY
  {
    QueryReplaysDataset([projectId], start, end, InstanceWhere(replayId), [], None, [])
  }

  /** A row passes the instance query's `where` exactly when it is a row of that replay, project and window. */
  lemma InstanceWhereMeaning(row: Row, projectId: int, replayId: string, start: int, end: int)
    ensures HoldsAll(row, QueryReplayInstance(projectId, replayId, start, end).query.where) <==>
      && "project_id" in row && row["project_id"] == IntV(projectId)
      && "timestamp" in row && row["timestamp"].TimeV? && start <= row["timestamp"].t < end
      && "replay_id" in row && row["replay_id"] == StrV(replayId)
  {
    var extra := InstanceWhere(replayId);
    HoldsAllAppend(row, BaseWhere([projectId], start, end), extra);
    BaseWhereMeaning(row, [projectId], start, end);
    assert HoldsAll(row, extra) <==> Holds(row, extra[0]);
  }

  /**
   * The same call with the missing argument supplied as no filters builds
   * exactly the corrected instance query.
   */
  lemma InstanceWithFiltersSupplied(projectId: int, replayId: string, start: int, end: int)
    ensures CallQueryReplaysDataset([projectId], start, end, InstanceWhere(replayId), [], None, Some([]))
      == Ok(QueryReplayInstance(projectId, replayId, start, end))
  {
  }
}
