/** The tool registry (tools.go): the tools declared to the provider and the
    dispatch of a tool call to its handler. Argument decoding (JSON into the
    tool's argument struct) and the web handlers are collaborators, given in
    an environment; the file handlers are those of the Files module. */
module Tools {
  import opened Base
  import opened Strings
  import opened Protocol
  import Files

  const VisitWebPageTool: string := "visit_web_page"
  const WebPageSearchTool: string := "web_page_search"
  const ListDirectoryTool: string := "list_directory"
  const ReadFileTool: string := "read_file"

  /** The names dispatch routes to a handler, in the order of its cases. */
  const Dispatched: seq<string> := [VisitWebPageTool, WebPageSearchTool, ListDirectoryTool, ReadFileTool]

  /** The required fields of each declared tool, in order. */
  function RequiredFields(tools: seq<ToolDecl>): seq<seq<string>>
  {
    seq(|tools|, i requires 0 <= i < |tools| => tools[i].required)
  }

  /** The tools offered to the provider on every turn. */
  function GetTools(): (tools: seq<ToolDecl>)
    ensures Names(tools) == Dispatched
    ensures forall i, j :: 0 <= i < j < |tools| ==> tools[i].name != tools[j].name
    ensures forall i, f :: 0 <= i < |tools| && f in tools[i].required ==> f in tools[i].properties
    ensures RequiredFields(tools) == [["url"], ["query"], ["path", "depth"], ["path", "offset", "length"]]
  {
    [ ToolDecl(VisitWebPageTool, "Visit a web page and get the source HTML", ["url", "headers", "cookies"], ["url"]),
      ToolDecl(WebPageSearchTool, "Search a web page for a query", ["query"], ["query"]),
      ToolDecl(ListDirectoryTool, "List the files in a directory", ["path", "depth"], ["path", "depth"]),
      ToolDecl(ReadFileTool, "Read a file", ["path", "offset", "length"], ["path", "offset", "length"]) ]
  }

  /** The decoded arguments of each tool. */
  datatype VisitArgs = VisitArgs(url: string, headers: map<string, string>, cookies: map<string, string>)
  datatype ListArgs = ListArgs(path: string, depth: int)
  datatype ReadArgs = ReadArgs(path: string, offset: int, length: int)

  /** The outcome of decoding a tool call's JSON arguments into a tool's struct. */
  datatype Decoded<+T> = DecodeError(message: string) | Decoded(value: T)

  /** What dispatch relies on: a decoder per tool, the two web handlers
      (`webSearch` gives the printed form of the search results), and the
      disk and working directory the file handlers use. */
  datatype Env = Env(
    decodeVisit: string -> Decoded<VisitArgs>,
    decodeSearch: string -> Decoded<string>,
    decodeList: string -> Decoded<ListArgs>,
    decodeRead: string -> Decoded<ReadArgs>,
    webSource: VisitArgs -> string,
    webSearch: string -> string,
    disk: Files.FileSystem,
    workingDirectory: string)

  /** `fmt.Sprintf("%+v", items)` for a list of strings. */
  function FormatList(items: seq<string>): (s: string)
    ensures |s| >= 2 && s[0] == '[' && s[|s| - 1] == ']'
    ensures items == [] ==> s == "[]"
  {
    "[" + Join(items, ' ') + "]"
  }

  /** Runs the tool a call names and gives the text sent back to the provider. */
  function Dispatch(env: Env, call: ToolCall): (r: Outcome<string>)
    ensures call.name !in Dispatched ==> r == Done("Unknown tool call: " + call.name)
    ensures r.Done? ==> |r.value| > 0
    ensures r.Panic? ==> call.name == ReadFileTool
  {
    if call.name == VisitWebPageTool then
      match env.decodeVisit(call.arguments)
      case DecodeError(e) => Done("Error unmarshalling url: " + e)
      case Decoded(args) => Done("Source:\n" + env.webSource(args))
    else if call.name == WebPageSearchTool then
      match env.decodeSearch(call.arguments)
      case DecodeError(e) => Done("Error unmarshalling query: " + e)
      case Decoded(query) => Done("Source:\n" + env.webSearch(query))
    else if call.name == ListDirectoryTool then
      match env.decodeList(call.arguments)
      case DecodeError(e) => Done("Error unmarshalling path: " + e)
      case Decoded(args) =>
        Done("Files:\n" + FormatList(Files.Listing(env.disk.dirs, env.workingDirectory, args.path, args.depth)))
    else if call.name == ReadFileTool then
      match env.decodeRead(call.arguments)
      case DecodeError(e) => Done("Error unmarshalling path: " + e)
      case Decoded(args) =>
        match Files.ReadFile(env.disk.files, args.path, args.offset, args.length)
        case Panic(why) => Panic(why)
        case Done(content) => Done("Content:\n" + content)
    else
      Done("Unknown tool call: " + call.name)
  }

  /** A declared name is exactly one that dispatch does not answer as unknown. */
  lemma DeclaredIffRouted(env: Env, call: ToolCall)
    ensures call.name in Names(GetTools()) <==> Dispatch(env, call) != Done("Unknown tool call: " + call.name)
  {
    var unknown := "Unknown tool call: " + call.name;
    var r := Dispatch(env, call);
    if call.name in Dispatched {
      if r.Done? {
        assert r.value[0] in {'S', 'F', 'C', 'E'};
        assert unknown[0] == 'U';
      }
    }
  }

  /** The decoder of the tool a call names reported an error. */
  predicate DecodeFails(env: Env, call: ToolCall)
  {
    || (call.name == VisitWebPageTool && env.decodeVisit(call.arguments).DecodeError?)
    || (call.name == WebPageSearchTool && env.decodeSearch(call.arguments).DecodeError?)
    || (call.name == ListDirectoryTool && env.decodeList(call.arguments).DecodeError?)
    || (call.name == ReadFileTool && env.decodeRead(call.arguments).DecodeError?)
  }

  /** A decoding error is reported as such, and no handler runs: replacing every
      handler and the disk does not change the answer. */
  lemma DecodeFailureSkipsHandler(env: Env, call: ToolCall, webSource: VisitArgs -> string, webSearch: string -> string,
                                  disk: Files.FileSystem, workingDirectory: string)
    requires DecodeFails(env, call)
    ensures Dispatch(env, call).Done? && StartsWith(Dispatch(env, call).value, "Error unmarshalling ")
    ensures Dispatch(env, call)
            == Dispatch(env.(webSource := webSource, webSearch := webSearch, disk := disk, workingDirectory := workingDirectory), call)
  {
  }

  /** The prefix of a successful result of each tool. */
  function ResultPrefix(name: string): string
  {
    if name == ListDirectoryTool then "Files:\n"
    else if name == ReadFileTool then "Content:\n"
    else "Source:\n"
  }

  /** `env` with only what the tool `name` uses kept, and the rest taken from `other`. */
  function Isolate(env: Env, other: Env, name: string): Env
  {
    if name == VisitWebPageTool then other.(decodeVisit := env.decodeVisit, webSource := env.webSource)
    else if name == WebPageSearchTool then other.(decodeSearch := env.decodeSearch, webSearch := env.webSearch)
    else if name == ListDirectoryTool then
      other.(decodeList := env.decodeList, workingDirectory := env.workingDirectory,
             disk := other.disk.(dirs := env.disk.dirs))
    else if name == ReadFileTool then
      other.(decodeRead := env.decodeRead, disk := other.disk.(files := env.disk.files))
    else other
  }

  /** Each declared name is routed to its own decoder and handler only: every
      other part of the environment can be replaced without changing the
      answer, and a decoded call's answer carries that tool's prefix. */
  lemma RoutesToOwnHandler(env: Env, other: Env, call: ToolCall)
    requires call.name in Dispatched
    ensures Dispatch(env, call) == Dispatch(Isolate(env, other, call.name), call)
    ensures !DecodeFails(env, call) && Dispatch(env, call).Done? ==>
              StartsWith(Dispatch(env, call).value, ResultPrefix(call.name))
  {
  }
}
