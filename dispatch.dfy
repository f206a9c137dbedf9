/**
  What a tool call returns. Every handler fetches its URL, reads the JSON
  response and answers with one text item that holds the serialized payload,
  together with the payload itself as structured content.

  The backend (`fetch` followed by `response.json()`) and `JSON.stringify` are
  parameters: `backend` maps a request URL to the payload it answers with,
  `stringify` maps a payload to its JSON text.
*/
module Dispatch {
  import opened Wrappers
  import opened Registry
  import opened RequestBuilder

  datatype Content = TextContent(text: string)

  datatype ToolResult<J> = ToolResult(content: seq<Content>, structuredContent: J)

  /** A result whose only content item is the serialization of its structured content. */
  predicate Consistent<J>(r: ToolResult<J>, stringify: J -> string) {
    |r.content| == 1 && r.content[0].text == stringify(r.structuredContent)
  }

  /** The result a handler builds from the payload it received. */
  function Envelope<J>(data: J, stringify: J -> string): (r: ToolResult<J>)
    ensures Consistent(r, stringify)
    ensures r.structuredContent == data
  {
    ToolResult([TextContent(stringify(data))], data)
  }

  /** A consistent result is determined by its structured content. */
  lemma ConsistentIsEnvelope<J>(r: ToolResult<J>, stringify: J -> string)
    requires Consistent(r, stringify)
    ensures r == Envelope(r.structuredContent, stringify)
  {
  }

  /** A client that reads only the text item and parses it gets the payload back,
      provided the parser inverts the serializer. */
  lemma TextCarriesPayload<J>(data: J, stringify: J -> string, parse: string -> J)
    requires forall j :: parse(stringify(j)) == j
    ensures var r := Envelope(data, stringify);
      |r.content| == 1 && parse(r.content[0].text) == r.structuredContent
  {
  }

  /** Payloads that differ give results that differ. */
  lemma EnvelopeInjective<J>(a: J, b: J, stringify: J -> string)
    requires Envelope(a, stringify) == Envelope(b, stringify)
    ensures a == b
  {
  }

  /** One handler: build the URL, ask the backend, wrap the payload. */
  method Handle<J>(tool: ToolDef, args: Args, backend: string -> J, stringify: J -> string)
    returns (r: ToolResult<J>)
    ensures r == Envelope(backend(RequestUrl(tool, args)), stringify)
  {
    var url := BuildUrl(tool, args);
    var data := backend(url);
    r := Envelope(data, stringify);
  }

  datatype ToolError = UnknownTool(name: string) | InvalidArguments(name: string)

  datatype CallOutcome<J> = Success(result: ToolResult<J>) | Failure(error: ToolError)

  /** The outcome of calling the tool registered as `name`: an unknown name and
      arguments the input schema rejects are errors, and otherwise the tool's
      handler runs. */
  function Call<J>(name: string, args: Args, backend: string -> J, stringify: J -> string)
    : (o: CallOutcome<J>)
    ensures o.Failure? && o.error.UnknownTool? <==> Lookup(name).None?
    ensures o.Success? ==> Consistent(o.result, stringify)
  {
    match Lookup(name)
    case None => Failure(UnknownTool(name))
    case Some(t) =>
      if !Conforms(t.inputSchema, args) then Failure(InvalidArguments(name))
      else Success(Envelope(backend(RequestUrl(t, args)), stringify))
  }

  method CallTool<J>(name: string, args: Args, backend: string -> J, stringify: J -> string)
    returns (o: CallOutcome<J>)
    ensures o == Call(name, args, backend, stringify)
  {
    var found := Lookup(name);
    if found.None? {
      return Failure(UnknownTool(name));
    }
    var t := found.value;
    if !Conforms(t.inputSchema, args) {
      return Failure(InvalidArguments(name));
    }
    var r := Handle(t, args, backend, stringify);
    o := Success(r);
  }

  /** Calling a registered tool with arguments its schema admits runs that
      tool's handler on that tool's URL. */
  lemma CallRegistered<J>(i: nat, args: Args, backend: string -> J, stringify: J -> string)
    requires i < |Tools| && Conforms(Tools[i].inputSchema, args)
    ensures Call(Tools[i].name, args, backend, stringify)
      == Success(Envelope(backend(RequestUrl(Tools[i], args)), stringify))
  {
    LookupRegistered(i);
  }

  /** Arguments the schema rejects never reach the backend. */
  lemma CallRejectsInvalid<J>(i: nat, args: Args, backend: string -> J, stringify: J -> string)
    requires i < |Tools| && !Conforms(Tools[i].inputSchema, args)
    ensures Call(Tools[i].name, args, backend, stringify) == Failure(InvalidArguments(Tools[i].name))
  {
    LookupRegistered(i);
  }

  /** A name no tool was registered under is an error. */
  lemma CallUnknown<J>(name: string, args: Args, backend: string -> J, stringify: J -> string)
    requires name !in ToolNames(Tools)
    ensures Call(name, args, backend, stringify) == Failure(UnknownTool(name))
  {
    LookupUnknown(name);
  }

  /** The payload answered for the request URL is the structured content. */
  lemma CallPayload<J>(name: string, args: Args, backend: string -> J, stringify: J -> string)
    requires Call(name, args, backend, stringify).Success?
    ensures Lookup(name).Some?
    ensures var t := Lookup(name).value;
      Conforms(t.inputSchema, args) &&
      Call(name, args, backend, stringify).result.structuredContent == backend(RequestUrl(t, args))
  {
  }
}
