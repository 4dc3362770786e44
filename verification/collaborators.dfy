/** The collaborators the endpoints drive but do not implement: the DAL
    (reads, role names, the schema's authorizer table, identifier names),
    the behavior-modification hooks, template rendering, the two filter parsers,
    the distinct-list marshaller and the endpoint-level authorization check.
    Each is an abstract function value, so every lemma holds for all of them. */
module Collaborators {
  import opened MeadowValues

  /** One endpoint hash's entry in a role's authorizer table: a single
      authorizer name, or an array of names run in series. */
  datatype AuthorizerEntry = Single(name: string) | Series(names: seq<string>)

  /** A role's authorizer table: endpoint hash to authorizer name(s). */
  type RoleAuthorizers = map<string, AuthorizerEntry>

  /** What `doReads` hands to its callback: an error, or a record set that
      may be null or undefined (`None`). */
  datatype ReadResult = ReadFailed(err: Error) | ReadDone(rows: Option<seq<Record>>)

  /** The request properties a behavior hook reads and may replace. */
  datatype HookView = HookView(query: Option<Query>, records: Option<seq<Record>>, authorized: Option<bool>)

  /** A hook's completion value and the request properties it leaves. */
  datatype HookResult = HookResult(err: Option<Error>, after: HookView)

  datatype Dal = Dal(
    query: Query,                                 // a fresh `DAL.query` builder
    doReads: Option<Query> -> ReadResult,         // `DAL.doReads`
    roleName: int -> string,                      // `DAL.getRoleName`
    authorizers: map<string, RoleAuthorizers>,    // `DAL.schemaFull.authorizer`
    defaultIdentifier: string,
    defaultGUIdentifier: string,
    scope: string)

  datatype Services = Services(
    authorizeEndpoint: (int, int) -> bool,        // requirement, role index
    runBehavior: (string, HookView) -> HookResult,
    processTemplate: (string, Record, string) -> string,  // name, data, fallback template
    parseLiteFilter: (string, Query) -> Query,      // ReadLiteList's `Meadow-Filter-Parse`
    parseDistinctFilter: (string, Query) -> Query,  // ReadDistinctList's `meadow-filter` parse
    marshalDistinct: (Option<seq<Record>>, Option<seq<string>>) -> seq<Record>)
}
