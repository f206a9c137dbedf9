/**
  The table of tools the MCP server registers: for each tool its name, its
  title, its input schema (which arguments, of which type, required or
  optional), the path template its handler fetches, and the optional keys its
  handler appends to the query, in the order the handler appends them.
*/
module Registry {
  import opened Wrappers

  /** An argument value as the schema fields declare them: a string or an integer.
      Other JSON values (booleans, `null`, objects, fractions) cannot be written here. */
  datatype ArgValue = Str(s: string) | Num(n: int)

  /** The argument record a handler receives: a field that was not supplied has no key. */
  type Args = map<string, ArgValue>

  datatype FieldType = StringField | NumberField

  datatype Field = Field(name: string, ty: FieldType, required: bool)

  /** A piece of a path template: literal text, or an argument spliced in as it is. */
  datatype Segment = Lit(text: string) | Param(name: string)

  datatype ToolDef = ToolDef(
    name: string,
    title: string,
    inputSchema: seq<Field>,
    path: seq<Segment>,
    queryKeys: seq<string>)

  /** The backend every handler fetches from. */
  const Base: string := "http://backend:3000"

  function Req(name: string): Field { Field(name, StringField, true) }
  function OptStr(name: string): Field { Field(name, StringField, false) }
  function OptNum(name: string): Field { Field(name, NumberField, false) }

  const Paging: seq<Field> := [OptNum("limit"), OptNum("offset")]
  const PagingKeys: seq<string> := ["limit", "offset"]

  const FetchUser := ToolDef("fetch-user", "User Fetcher",
    [Req("id")], [Lit("/users/"), Param("id")], [])
  const FetchInternalUser := ToolDef("fetch-internal-user", "Internal User Fetcher",
    [Req("id")], [Lit("/internal-users/"), Param("id")], [])
  const FetchInternalUserByEmployeeId := ToolDef("fetch-internal-user-by-employee-id",
    "Internal User Fetcher by Employee ID",
    [Req("employeeId")], [Lit("/internal-users/employee/"), Param("employeeId")], [])
  const FetchAllInternalUsers := ToolDef("fetch-all-internal-users", "All Internal Users Fetcher",
    [OptStr("department"), OptStr("role")], [Lit("/internal-users")], ["department", "role"])
  const FetchAvailableAgents := ToolDef("fetch-available-agents", "Available CS Agents Fetcher",
    [], [Lit("/internal-users/available-agents")], [])
  const FetchUserLogs := ToolDef("fetch-user-logs", "User Logs Fetcher",
    [Req("userId")] + Paging, [Lit("/user-logs/user/"), Param("userId")], PagingKeys)
  const FetchUserLogStats := ToolDef("fetch-user-log-stats", "User Log Statistics Fetcher",
    [Req("userId")], [Lit("/user-logs/user/"), Param("userId"), Lit("/stats")], [])
  const FetchAllUserLogs := ToolDef("fetch-all-user-logs", "All User Logs Fetcher",
    Paging, [Lit("/user-logs")], PagingKeys)
  const FetchLogsByEventType := ToolDef("fetch-logs-by-event-type", "User Logs by Event Type Fetcher",
    [Req("eventType")] + Paging, [Lit("/user-logs/event/"), Param("eventType")], PagingKeys)
  const FetchAllComplaints := ToolDef("fetch-all-complaints", "All Complaints Fetcher",
    [OptStr("category"), OptStr("status"), OptStr("priority"), OptStr("assignedTo")] + Paging,
    [Lit("/complaints")],
    ["category", "status", "priority", "assignedTo", "limit", "offset"])
  const FetchComplaint := ToolDef("fetch-complaint", "Complaint Fetcher",
    [Req("id")], [Lit("/complaints/"), Param("id")], [])
  const FetchComplaintByTicketNumber := ToolDef("fetch-complaint-by-ticket-number",
    "Complaint Fetcher by Ticket Number",
    [Req("ticketNumber")], [Lit("/complaints/ticket/"), Param("ticketNumber")], [])
  const FetchComplaintsByUser := ToolDef("fetch-complaints-by-user", "User Complaints Fetcher",
    [Req("userId")] + Paging, [Lit("/complaints/user/"), Param("userId")], PagingKeys)
  const FetchComplaintsByCategory := ToolDef("fetch-complaints-by-category", "Category Complaints Fetcher",
    [Req("category")] + Paging, [Lit("/complaints/category/"), Param("category")], PagingKeys)
  const FetchPendingComplaints := ToolDef("fetch-pending-complaints", "Pending Complaints Fetcher",
    [], [Lit("/complaints/pending")], [])
  const FetchComplaintStats := ToolDef("fetch-complaint-stats", "Complaint Statistics Fetcher",
    [], [Lit("/complaints/stats")], [])
  const FetchComplaintResponses := ToolDef("fetch-complaint-responses", "Complaint Responses Fetcher",
    [Req("complaintId")], [Lit("/complaints/"), Param("complaintId"), Lit("/responses")], [])

  /** The tools in registration order. */
  const Tools: seq<ToolDef> := [
    FetchUser, FetchInternalUser, FetchInternalUserByEmployeeId, FetchAllInternalUsers,
    FetchAvailableAgents, FetchUserLogs, FetchUserLogStats, FetchAllUserLogs,
    FetchLogsByEventType, FetchAllComplaints, FetchComplaint, FetchComplaintByTicketNumber,
    FetchComplaintsByUser, FetchComplaintsByCategory, FetchPendingComplaints,
    FetchComplaintStats, FetchComplaintResponses]

  // ---------------------------------------------------------------------------
  // Schemas

  function FieldNames(schema: seq<Field>): (names: seq<string>)
    ensures |names| == |schema|
    ensures forall i :: 0 <= i < |schema| ==> names[i] == schema[i].name
  {
    if schema == [] then [] else [schema[0].name] + FieldNames(schema[1..])
  }

  /** The names of the optional fields, in declaration order. */
  function OptionalNames(schema: seq<Field>): seq<string> {
    if schema == [] then []
    else if schema[0].required then OptionalNames(schema[1..])
    else [schema[0].name] + OptionalNames(schema[1..])
  }

  /** Every optional field is a declared field. */
  lemma {:induction false} OptionalNamesDeclared(schema: seq<Field>)
    ensures forall k :: k in OptionalNames(schema) ==> k in FieldNames(schema)
  {
    if schema != [] {
      OptionalNamesDeclared(schema[1..]);
      assert FieldNames(schema) == [schema[0].name] + FieldNames(schema[1..]);
    }
  }

  predicate Distinct<T(==)>(s: seq<T>) {
    forall i, j :: 0 <= i < j < |s| ==> s[i] != s[j]
  }

  predicate HasType(v: ArgValue, ty: FieldType) {
    match ty
    case StringField => v.Str?
    case NumberField => v.Num?
  }

  predicate FieldAccepts(f: Field, args: Args) {
    if f.name in args then HasType(args[f.name], f.ty) else !f.required
  }

  /** What the input schema admits: every required field is supplied and every
      supplied field has its declared type. */
  predicate Conforms(schema: seq<Field>, args: Args) {
    forall i :: 0 <= i < |schema| ==> FieldAccepts(schema[i], args)
  }

  /** Some field of `schema` is a required string field called `name`. */
  predicate IsRequiredString(schema: seq<Field>, name: string) {
    exists i :: 0 <= i < |schema| && schema[i] == Field(name, StringField, true)
  }

  /** A tool is well formed when its field names are distinct, each path
      parameter is a required string field, and its handler appends exactly the
      optional fields, in declaration order. */
  predicate WellFormed(t: ToolDef) {
    && Distinct(FieldNames(t.inputSchema))
    && (forall i :: 0 <= i < |t.path| && t.path[i].Param? ==> IsRequiredString(t.inputSchema, t.path[i].name))
    && t.queryKeys == OptionalNames(t.inputSchema)
  }

  function ToolNames(tools: seq<ToolDef>): (names: seq<string>)
    ensures |names| == |tools|
    ensures forall i :: 0 <= i < |tools| ==> names[i] == tools[i].name
  {
    seq(|tools|, i requires 0 <= i < |tools| => tools[i].name)
  }

  /** The registered tool called `name`, if there is one. */
  function Lookup(name: string): (r: Option<ToolDef>)
    ensures r.Some? ==> r.value in Tools && r.value.name == name
    ensures r.None? ==> forall i :: 0 <= i < |Tools| ==> Tools[i].name != name
  {
    Find(Tools, name)
  }

  function Find(tools: seq<ToolDef>, name: string): (r: Option<ToolDef>)
    ensures r.Some? ==> r.value in tools && r.value.name == name
    ensures r.None? ==> forall i :: 0 <= i < |tools| ==> tools[i].name != name
  {
    if tools == [] then None
    else if tools[0].name == name then Some(tools[0])
    else Find(tools[1..], name)
  }

  // ---------------------------------------------------------------------------
  // Facts about the table

  /** A cheap fingerprint of a name: its length and its seventh character. */
  function NameKey(name: string): (int, char) {
    (|name|, if |name| > 6 then name[6] else ' ')
  }

  /** The fingerprints of the registered names, in registration order; no two are equal. */
  const ToolKeys: seq<(int, char)> := [
    (10, 'u'), (19, 'i'), (34, 'i'), (24, 'a'), (22, 'a'), (15, 'u'), (20, 'u'), (19, 'a'),
    (24, 'l'), (20, 'a'), (15, 'c'), (32, 'c'), (24, 'c'), (28, 'c'), (24, 'p'), (21, 'c'),
    (25, 'c')]

  lemma ToolKeysDistinct()
    ensures Distinct(ToolKeys)
  {
  }

  lemma ToolKeysMatch()
    ensures |ToolKeys| == |Tools|
    ensures forall i :: 0 <= i < |Tools| ==> NameKey(Tools[i].name) == ToolKeys[i]
  {
  }

  /** The seventeen registrations, by name, in the order the server makes them. */
  lemma RegisteredTools()
    ensures |Tools| == 17
    ensures ToolNames(Tools) == [
      "fetch-user", "fetch-internal-user", "fetch-internal-user-by-employee-id",
      "fetch-all-internal-users", "fetch-available-agents", "fetch-user-logs",
      "fetch-user-log-stats", "fetch-all-user-logs", "fetch-logs-by-event-type",
      "fetch-all-complaints", "fetch-complaint", "fetch-complaint-by-ticket-number",
      "fetch-complaints-by-user", "fetch-complaints-by-category", "fetch-pending-complaints",
      "fetch-complaint-stats", "fetch-complaint-responses"]
  {
  }

  /** No two tools share a name, so every registration succeeds. */
  lemma ToolNamesDistinct()
    ensures Distinct(ToolNames(Tools))
  {
    ToolKeysDistinct();
    ToolKeysMatch();
  }

  lemma {:induction false} OptionalNamesAfterRequired(req: seq<Field>, opt: seq<Field>)
    requires forall i :: 0 <= i < |req| ==> req[i].required
    requires forall i :: 0 <= i < |opt| ==> !opt[i].required
    ensures OptionalNames(req + opt) == FieldNames(opt)
  {
    if req != [] {
      assert (req + opt)[1..] == req[1..] + opt;
      OptionalNamesAfterRequired(req[1..], opt);
    } else if opt != [] {
      assert (req + opt) == opt && opt[1..] == [] + opt[1..];
      OptionalNamesAfterRequired([], opt[1..]);
    }
  }

  lemma WellFormedBy(t: ToolDef, k: nat)
    requires k <= |t.inputSchema|
    requires forall i :: 0 <= i < k ==> t.inputSchema[i].required
    requires forall i :: k <= i < |t.inputSchema| ==> !t.inputSchema[i].required
    requires Distinct(FieldNames(t.inputSchema))
    requires forall i :: 0 <= i < |t.path| && t.path[i].Param? ==> IsRequiredString(t.inputSchema, t.path[i].name)
    requires t.queryKeys == FieldNames(t.inputSchema[k..])
    ensures WellFormed(t)
  {
    assert t.inputSchema == t.inputSchema[..k] + t.inputSchema[k..];
    OptionalNamesAfterRequired(t.inputSchema[..k], t.inputSchema[k..]);
  }

  lemma PathParamWellFormed(t: ToolDef)
    requires |t.inputSchema| >= 1 && t.inputSchema[0].required && t.inputSchema[0].ty == StringField
    requires forall i :: 1 <= i < |t.inputSchema| ==> !t.inputSchema[i].required
    requires Distinct(FieldNames(t.inputSchema))
    requires forall i :: 0 <= i < |t.path| && t.path[i].Param? ==> t.path[i].name == t.inputSchema[0].name
    requires t.queryKeys == FieldNames(t.inputSchema[1..])
    ensures WellFormed(t)
  {
    WellFormedBy(t, 1);
  }

  /** The six filters of fetch-all-complaints told apart by length and first letter. */
  lemma AllComplaintsKeysDistinct()
    ensures Distinct(FetchAllComplaints.queryKeys)
  {
    var k := FetchAllComplaints.queryKeys;
    assert |k[0]| == 8 && |k[1]| == 6 && |k[2]| == 8 && |k[3]| == 10 && |k[4]| == 5 && |k[5]| == 6;
    assert k[0][0] == 'c' && k[2][0] == 'p' && k[1][0] == 's' && k[5][0] == 'o';
  }

  lemma AllComplaintsFieldNames()
    ensures FieldNames(FetchAllComplaints.inputSchema) == FetchAllComplaints.queryKeys
  {
    var schema := FetchAllComplaints.inputSchema;
    var names := FieldNames(schema);
    assert |names| == 6;
    forall i | 0 <= i < 6 ensures names[i] == FetchAllComplaints.queryKeys[i] {
      assert names[i] == schema[i].name;
    }
  }

  lemma AllComplaintsWellFormed()
    ensures WellFormed(FetchAllComplaints)
  {
    AllComplaintsKeysDistinct();
    AllComplaintsFieldNames();
    assert FetchAllComplaints.inputSchema[0..] == FetchAllComplaints.inputSchema;
    WellFormedBy(FetchAllComplaints, 0);
  }

  lemma FetchUserWellFormed()
    ensures WellFormed(FetchUser)
  {
    PathParamWellFormed(FetchUser);
  }

  lemma FetchInternalUserWellFormed()
    ensures WellFormed(FetchInternalUser)
  {
    PathParamWellFormed(FetchInternalUser);
  }

  lemma FetchInternalUserByEmployeeIdWellFormed()
    ensures WellFormed(FetchInternalUserByEmployeeId)
  {
    PathParamWellFormed(FetchInternalUserByEmployeeId);
  }

  lemma FetchAllInternalUsersWellFormed()
    ensures WellFormed(FetchAllInternalUsers)
  {
    WellFormedBy(FetchAllInternalUsers, 0);
  }

  lemma FetchAvailableAgentsWellFormed()
    ensures WellFormed(FetchAvailableAgents)
  {
    WellFormedBy(FetchAvailableAgents, 0);
  }

  lemma FetchUserLogsWellFormed()
    ensures WellFormed(FetchUserLogs)
  {
    PathParamWellFormed(FetchUserLogs);
  }

  lemma FetchUserLogStatsWellFormed()
    ensures WellFormed(FetchUserLogStats)
  {
    PathParamWellFormed(FetchUserLogStats);
  }

  lemma FetchAllUserLogsWellFormed()
    ensures WellFormed(FetchAllUserLogs)
  {
    WellFormedBy(FetchAllUserLogs, 0);
  }

  lemma FetchLogsByEventTypeWellFormed()
    ensures WellFormed(FetchLogsByEventType)
  {
    PathParamWellFormed(FetchLogsByEventType);
  }

  lemma FetchComplaintWellFormed()
    ensures WellFormed(FetchComplaint)
  {
    PathParamWellFormed(FetchComplaint);
  }

  lemma FetchComplaintByTicketNumberWellFormed()
    ensures WellFormed(FetchComplaintByTicketNumber)
  {
    PathParamWellFormed(FetchComplaintByTicketNumber);
  }

  lemma FetchComplaintsByUserWellFormed()
    ensures WellFormed(FetchComplaintsByUser)
  {
    PathParamWellFormed(FetchComplaintsByUser);
  }

  lemma FetchComplaintsByCategoryWellFormed()
    ensures WellFormed(FetchComplaintsByCategory)
  {
    PathParamWellFormed(FetchComplaintsByCategory);
  }

  lemma FetchPendingComplaintsWellFormed()
    ensures WellFormed(FetchPendingComplaints)
  {
    WellFormedBy(FetchPendingComplaints, 0);
  }

  lemma FetchComplaintStatsWellFormed()
    ensures WellFormed(FetchComplaintStats)
  {
    WellFormedBy(FetchComplaintStats, 0);
  }

  lemma FetchComplaintResponsesWellFormed()
    ensures WellFormed(FetchComplaintResponses)
  {
    PathParamWellFormed(FetchComplaintResponses);
  }

  /** Every tool's path parameters are required strings and its handler sends
      every optional field, in declaration order. */
  lemma ToolsWellFormed()
    ensures forall t :: t in Tools ==> WellFormed(t)
  {
    FetchUserWellFormed();
    FetchInternalUserWellFormed();
    FetchInternalUserByEmployeeIdWellFormed();
    FetchAllInternalUsersWellFormed();
    FetchAvailableAgentsWellFormed();
    FetchUserLogsWellFormed();
    FetchUserLogStatsWellFormed();
    FetchAllUserLogsWellFormed();
    FetchLogsByEventTypeWellFormed();
    AllComplaintsWellFormed();
    FetchComplaintWellFormed();
    FetchComplaintByTicketNumberWellFormed();
    FetchComplaintsByUserWellFormed();
    FetchComplaintsByCategoryWellFormed();
    FetchPendingComplaintsWellFormed();
    FetchComplaintStatsWellFormed();
    FetchComplaintResponsesWellFormed();
  }

  lemma {:induction false} FindDistinct(tools: seq<ToolDef>, i: nat)
    requires i < |tools| && Distinct(ToolNames(tools))
    ensures Find(tools, tools[i].name) == Some(tools[i])
  {
    if i > 0 {
      assert ToolNames(tools)[0] != ToolNames(tools)[i];
      assert ToolNames(tools[1..]) == ToolNames(tools)[1..];
      FindDistinct(tools[1..], i - 1);
    }
  }

  /** Resolving a registered name gives that tool's definition. */
  lemma LookupRegistered(i: nat)
    requires i < |Tools|
    ensures Lookup(Tools[i].name) == Some(Tools[i])
  {
    ToolNamesDistinct();
    FindDistinct(Tools, i);
  }

  /** Lookup finds a tool exactly for the registered names. */
  lemma LookupFindsRegistered(name: string)
    ensures Lookup(name).Some? <==> name in ToolNames(Tools)
  {
    var r := Lookup(name);
    if r.Some? {
      var i :| 0 <= i < |Tools| && Tools[i] == r.value;
      assert ToolNames(Tools)[i] == name;
    }
  }

  /** A name that was never registered resolves to nothing. */
  lemma LookupUnknown(name: string)
    requires name !in ToolNames(Tools)
    ensures Lookup(name) == None
  {
    LookupFindsRegistered(name);
  }

  /** The name `does-not-exist` is not registered. */
  lemma LookupDoesNotExist()
    ensures "does-not-exist" !in ToolNames(Tools)
    ensures Lookup("does-not-exist") == None
  {
    ToolKeysMatch();
    assert forall i :: 0 <= i < |Tools| ==> |Tools[i].name| != 14;
  }

  /** No registered tool declares a query key twice. */
  lemma RegisteredKeysDistinct()
    ensures forall t :: t in Tools ==> Distinct(t.queryKeys)
  {
    ToolsWellFormed();
    forall t | t in Tools ensures Distinct(t.queryKeys) {
      OptionalNamesDistinct(t.inputSchema);
    }
  }

  /** Distinct field names make the optional names distinct. */
  lemma {:induction false} OptionalNamesDistinct(schema: seq<Field>)
    requires Distinct(FieldNames(schema))
    ensures Distinct(OptionalNames(schema))
  {
    if schema != [] {
      var names, rest := FieldNames(schema), FieldNames(schema[1..]);
      assert forall i :: 0 <= i < |rest| ==> rest[i] == names[i + 1];
      OptionalNamesDistinct(schema[1..]);
      if !schema[0].required {
        OptionalNamesDeclared(schema[1..]);
        assert schema[0].name !in rest;
        var opt := OptionalNames(schema[1..]);
        assert OptionalNames(schema) == [schema[0].name] + opt;
      }
    }
  }
}
