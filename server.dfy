/** The pieces of `QdrantMCPServer` (mcp_server.py:26-452) that decide
    something: which embedding-provider argument the constructor accepts,
    the metadata of a structured note, how an entry is rendered, how search
    results are shaped into the tool's answer, and which tools a read-only
    server registers. The FastMCP machinery is not part of the model. */
module McpServer {
  import opened Wrappers
  import opened Json
  import opened Qdrant

  /** Where the server's embedding provider comes from. */
  datatype ProviderSource<S, P> = FromSettings(settings: S) | Given(provider: P)

  const BothProvidersMessage := "Cannot provide both embedding_provider_settings and embedding_provider"
  const NoProviderMessage := "Must provide either embedding_provider_settings or embedding_provider"

  /** The argument check of `__init__` (mcp_server.py:44-64): exactly one of
      the provider settings and the provider object must be given; the
      settings, when given, are the source of the provider. */
  function ChooseProvider<S, P>(settings: Option<S>, provider: Option<P>): (r: Result<ProviderSource<S, P>, string>)
    ensures r.Success? <==> settings.Some? != provider.Some?
    ensures settings.Some? && provider.Some? ==> r == Failure(BothProvidersMessage)
    ensures settings.None? && provider.None? ==> r == Failure(NoProviderMessage)
    ensures r.Success? && r.value.FromSettings? ==> settings == Some(r.value.settings)
    ensures r.Success? && r.value.Given? ==> provider == Some(r.value.provider)
  {
    if settings.Some? && provider.Some? then Failure(BothProvidersMessage)
    else if settings.None? && provider.None? then Failure(NoProviderMessage)
    else if settings.Some? then Success(FromSettings(settings.value))
    else Success(Given(provider.value))
  }

  /** The metadata of a structured note (mcp_server.py:178-193, repeated in
      `update_note` at 254-269): "context", "type" and "created_at" always,
      and each optional field exactly when its argument is not None. */
  method NoteMetadata(context: string, noteType: string, createdAt: string, tool: Option<string>,
                      tags: Option<seq<string>>, language: Option<string>, source: Option<string>)
    returns (metadata: Metadata)
    ensures metadata.Keys == {"context", "type", "created_at"}
                             + (if tool.Some? then {"tool"} else {})
                             + (if tags.Some? then {"tags"} else {})
                             + (if language.Some? then {"language"} else {})
                             + (if source.Some? then {"source"} else {})
    ensures metadata["context"] == Str(context)
    ensures metadata["type"] == Str(noteType)
    ensures metadata["created_at"] == Str(createdAt)
    ensures tool.Some? ==> metadata["tool"] == Str(tool.value)
    ensures tags.Some? ==> metadata["tags"] == StrArray(tags.value)
    ensures language.Some? ==> metadata["language"] == Str(language.value)
    ensures source.Some? ==> metadata["source"] == Str(source.value)
  {
    metadata := map["context" := Str(context), "type" := Str(noteType), "created_at" := Str(createdAt)];
    if tool.Some? {
      metadata := metadata["tool" := Str(tool.value)];
    }
    if tags.Some? {
      metadata := metadata["tags" := StrArray(tags.value)];
    }
    if language.Some? {
      metadata := metadata["language" := Str(language.value)];
    }
    if source.Some? {
      metadata := metadata["source" := Str(source.value)];
    }
  }

  /** `entry.id if entry.id else ""`. */
  function IdText(id: Option<string>): (t: string)
    ensures t == "" <==> id.None? || id.value == ""
    ensures id.Some? ==> t == id.value
  {
    match id
    case None => ""
    case Some(s) => s
  }

  /** `json.dumps(entry.metadata) if entry.metadata else ""`: absent or
      empty metadata renders as nothing; `dumps` is the serialiser. */
  function MetadataText(metadata: Option<Metadata>, dumps: Metadata -> string): (t: string)
    ensures metadata.None? || metadata.value == map[] ==> t == ""
    ensures metadata.Some? && metadata.value != map[] ==> t == dumps(metadata.value)
  {
    match metadata
    case None => ""
    case Some(m) => if m == map[] then "" else dumps(m)
  }

  /** `format_entry` (mcp_server.py:81-87). */
  function FormatEntry(entry: Entry, dumps: Metadata -> string): (s: string)
    ensures |s| == 64 + |IdText(entry.id)| + |entry.content| + |MetadataText(entry.metadata, dumps)|
  {
    "<entry><id>" + IdText(entry.id) + "</id><content>" + entry.content + "</content><metadata>"
      + MetadataText(entry.metadata, dumps) + "</metadata></entry>"
  }

  /** A rendered entry is read back field by field at fixed offsets: the id
      text after the 11-character opening, the content after the id's
      closing and the content's opening tag, then the metadata text. */
  lemma FormatEntryFields(entry: Entry, dumps: Metadata -> string)
    ensures var s := FormatEntry(entry, dumps);
            var i := IdText(entry.id);
            var c := entry.content;
            var m := MetadataText(entry.metadata, dumps);
            && s[..11] == "<entry><id>"
            && s[11..11 + |i|] == i
            && s[11 + |i|..25 + |i|] == "</id><content>"
            && s[25 + |i|..25 + |i| + |c|] == c
            && s[25 + |i| + |c|..45 + |i| + |c|] == "</content><metadata>"
            && s[45 + |i| + |c|..45 + |i| + |c| + |m|] == m
            && s[45 + |i| + |c| + |m|..] == "</metadata></entry>"
  {
  }

  /** The header of `find` (mcp_server.py:329). */
  function FindHeader(query: string): string {
    "Results for the query '" + query + "'"
  }

  /** The header of `hybrid_find` (mcp_server.py:391). */
  function HybridFindHeader(query: string, fusionMethod: string): string {
    "Hybrid search results for '" + query + "' (fusion: " + fusionMethod + ")"
  }

  /** The result shaping of `find` and `hybrid_find` (mcp_server.py:326-333,
      387-395): None for no entries, otherwise the header followed by one
      rendered entry per result, in order. */
  method ShapeResults(header: string, entries: seq<Entry>, dumps: Metadata -> string)
    returns (content: Option<seq<string>>)
    ensures content.None? <==> entries == []
    ensures content.Some? ==> |content.value| == |entries| + 1 && content.value[0] == header
    ensures content.Some? ==> forall i | 0 <= i < |entries| :: content.value[i + 1] == FormatEntry(entries[i], dumps)
  {
    if entries == [] {
      return None;
    }
    var lines := [header];
    for i := 0 to |entries|
      invariant |lines| == i + 1 && lines[0] == header
      invariant forall j | 0 <= j < i :: lines[j + 1] == FormatEntry(entries[j], dumps)
    {
      lines := lines + [FormatEntry(entries[i], dumps)];
    }
    return Some(lines);
  }

  /** The answer of `find` (mcp_server.py:326-333): None for no entries,
      otherwise the query's header and one rendered entry per result. */
  method FindContent(query: string, entries: seq<Entry>, dumps: Metadata -> string)
    returns (content: Option<seq<string>>)
    ensures content.None? <==> entries == []
    ensures content.Some? ==> |content.value| == |entries| + 1 && content.value[0] == FindHeader(query)
    ensures content.Some? ==> forall i | 0 <= i < |entries| :: content.value[i + 1] == FormatEntry(entries[i], dumps)
  {
    content := ShapeResults(FindHeader(query), entries, dumps);
  }

  /** The answer of `hybrid_find` (mcp_server.py:387-395), whose header
      also names the fusion method. */
  method HybridFindContent(query: string, fusionMethod: string, entries: seq<Entry>, dumps: Metadata -> string)
    returns (content: Option<seq<string>>)
    ensures content.None? <==> entries == []
    ensures content.Some? ==> |content.value| == |entries| + 1
    ensures content.Some? ==> content.value[0] == HybridFindHeader(query, fusionMethod)
    ensures content.Some? ==> forall i | 0 <= i < |entries| :: content.value[i + 1] == FormatEntry(entries[i], dumps)
  {
    content := ShapeResults(HybridFindHeader(query, fusionMethod), entries, dumps);
  }

  /** `models.Filter(**query_filter) if query_filter else None`
      (mcp_server.py:316, 373-375): an absent or empty filter is no filter. */
  function ParseFilter(queryFilter: Option<Metadata>): (f: Option<Filter>)
    ensures f.None? <==> queryFilter.None? || queryFilter.value == map[]
    ensures f.Some? ==> f.value.spec == queryFilter.value
  {
    match queryFilter
    case None => None
    case Some(m) => if m == map[] then None else Some(Filter(m))
  }

  /** The tools `setup_tools` registers, in order (mcp_server.py:429-452):
      the search tool always, the three note-changing tools only when the
      server is not read-only, and never "qdrant-store". */
  function RegisteredTools(readOnly: bool): (tools: seq<string>)
    ensures |tools| > 0 && tools[0] == "qdrant-search-notes"
    ensures "qdrant-store" !in tools
    ensures forall t | t in ["qdrant-add-note", "qdrant-update-note", "qdrant-delete-note"] ::
              t in tools <==> !readOnly
    ensures forall i, j | 0 <= i < j < |tools| :: tools[i] != tools[j]
  {
    ["qdrant-search-notes"]
      + (if readOnly then [] else ["qdrant-add-note", "qdrant-update-note", "qdrant-delete-note"])
  }

  /** A read-only server offers a prefix of what a writable one offers. */
  lemma ReadOnlyToolsPrefix()
    ensures RegisteredTools(true) <= RegisteredTools(false)
    ensures RegisteredTools(true) == ["qdrant-search-notes"]
  {
  }
}
