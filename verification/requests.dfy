/** The request record threaded through every stage of an endpoint and
    through the authorizers, which set, replace and delete its properties. */
module Requests {
  import opened MeadowValues

  /** The request parameters the read endpoints consult. */
  datatype Params = Params(
    begin: PagingParam,   // params.Begin
    cap: PagingParam,     // params.Cap
    filter: Value,        // params.Filter
    filters: Value,       // params.Filters
    byField: Value,       // params.ByField
    byValue: Value,       // formattedParams.ByValue
    columns: Value)       // params.Columns

  /** A snapshot of a request. The first five components are fixed for the
      request's lifetime; the others are the properties the pipeline and the
      authorizers assign (`None` is an absent or deleted property). */
  datatype ReqState = ReqState(
    params: Params,
    roleIndex: int,                  // UserSession.UserRoleIndex
    authorizeOverride: bool,         // Satchel.AuthorizeOverride is truthy
    defaultMaxCap: int,              // DEFAULT_MAX_CAP
    readsLevel: int,                 // EndpointAuthorizationLevels.Reads
    requirement: Option<int>,        // EndpointAuthorizationRequirement
    query: Option<Query>,            // Query
    records: Option<seq<Record>>,    // Records
    record: Option<Record>,          // Record
    authorized: Option<bool>,        // MeadowAuthorization
    endpointHash: Option<string>)    // EndpointHash

  class Request {
    const params: Params
    const roleIndex: int
    const authorizeOverride: bool
    const defaultMaxCap: int
    const readsLevel: int
    var requirement: Option<int>
    var query: Option<Query>
    var records: Option<seq<Record>>
    var record: Option<Record>
    var authorized: Option<bool>
    var endpointHash: Option<string>

    function State(): ReqState
      reads this
    {
      ReqState(params, roleIndex, authorizeOverride, defaultMaxCap, readsLevel,
               requirement, query, records, record, authorized, endpointHash)
    }

    constructor (init: ReqState)
      ensures State() == init
    {
      params, roleIndex, authorizeOverride := init.params, init.roleIndex, init.authorizeOverride;
      defaultMaxCap, readsLevel := init.defaultMaxCap, init.readsLevel;
      requirement, query, records := init.requirement, init.query, init.records;
      record, authorized, endpointHash := init.record, init.authorized, init.endpointHash;
    }
  }
}
