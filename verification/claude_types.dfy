/**
 * The request and response types of the Claude messages API and the small
 * pieces of logic attached to them: the `tool_choice` decoder, the
 * content-block and message constructors, the request builder, and the
 * text that token counting feeds to the tokenizer.
 */
module ClaudeTypes {
  import opened Wrappers
  import opened Json

  /** Rust's `u32`. */
  newtype u32 = x: int | 0 <= x < 0x1_0000_0000

  const U32Modulus: int := 0x1_0000_0000

  /** `max_tokens` when a request leaves it out. */
  const DefaultMaxTokens: u32 := 8192

  // ---------------------------------------------------------------------
  // Data

  datatype Role = System | User | Assistant

  /** A cache breakpoint; its `type` is always `ephemeral`. */
  datatype CacheControl = CacheControl(ttl: Option<string>)

  datatype CitationsConfig = CitationsConfig(enabled: Option<bool>)

  datatype ImageSource =
    | Base64(mediaType: string, data: string)
    | Url(url: string)
    | File(fileId: string)

  /** One block of message content, one constructor per `type` tag. */
  datatype ContentBlock =
    | Text(text: string, cacheControl: Option<CacheControl>, citations: Option<seq<Value>>)
    | Image(source: ImageSource, cacheControl: Option<CacheControl>)
    | ImageUrl(imageUrl: string)
    | Document(document: Value, cacheControl: Option<CacheControl>, citationsConfig: Option<CitationsConfig>,
               context: Option<string>, title: Option<string>)
    | SearchResult(results: seq<ContentBlock>, resultSource: string, resultTitle: string,
                   cacheControl: Option<CacheControl>, citationsConfig: Option<CitationsConfig>)
    | ThinkingBlock(signature: string, thinking: string)
    | RedactedThinking(redacted: string)
    | ToolUse(id: string, name: string, input: Value, cacheControl: Option<CacheControl>, caller: Option<Value>)
    | ToolResult(toolUseId: string, content: Value, cacheControl: Option<CacheControl>, isError: Option<bool>)
    | ToolReference(toolName: string, cacheControl: Option<CacheControl>)
    | ServerToolUse(id: string, name: string, input: Value, cacheControl: Option<CacheControl>, caller: Option<Value>)
    | WebSearchToolResult(toolUseId: string, content: Value, cacheControl: Option<CacheControl>)
    | WebFetchToolResult(toolUseId: string, content: Value, cacheControl: Option<CacheControl>)
    | CodeExecutionToolResult(toolUseId: string, content: Value, cacheControl: Option<CacheControl>)
    | BashCodeExecutionToolResult(toolUseId: string, content: Value, cacheControl: Option<CacheControl>)
    | TextEditorCodeExecutionToolResult(toolUseId: string, content: Value, cacheControl: Option<CacheControl>)
    | ToolSearchToolResult(toolUseId: string, content: Value, cacheControl: Option<CacheControl>)
    | McpToolUse(id: string, name: string, serverName: string, input: Value, cacheControl: Option<CacheControl>)
    | McpToolResult(toolUseId: string, content: Value, cacheControl: Option<CacheControl>, isError: Option<bool>)
    | ContainerUpload(uploadFileId: string, cacheControl: Option<CacheControl>)

  /** A message's content: a plain string or a list of blocks. */
  datatype MessageContent = TextContent(text: string) | Blocks(blocks: seq<ContentBlock>)

  datatype Message = Message(role: Role, content: MessageContent)

  datatype Thinking = Enabled(budgetTokens: nat) | Disabled

  /** How the model may use tools; `NoTools` is the `none` choice. */
  datatype ToolChoice =
    | Auto(disableParallelToolUse: Option<bool>)
    | Any(disableParallelToolUse: Option<bool>)
    | Tool(name: string, disableParallelToolUse: Option<bool>)
    | NoTools

  /** The shape an object-valued `tool_choice` is read into before conversion. */
  datatype ToolChoiceTagged =
    | TaggedAuto(disableParallelToolUse: Option<bool>)
    | TaggedAny(disableParallelToolUse: Option<bool>)
    | TaggedTool(name: string, disableParallelToolUse: Option<bool>)
    | TaggedNone

  /** A tool definition is passed through as it came. */
  type ToolDefinition = Value

  datatype McpServer = McpServer(name: string, serverType: string, url: string,
                                 authorizationToken: Option<string>, toolConfiguration: Option<Value>)

  datatype Metadata = Metadata(fields: map<string, string>)

  datatype OutputEffort = Low | Medium | High

  datatype OutputConfig = OutputConfig(effort: Option<OutputEffort>)

  datatype OutputFormat = JsonSchema(schema: Value)

  datatype ServiceTier = TierAuto | TierStandardOnly

  /** The request body; the floating-point `temperature` and `top_p` are not part of this model. */
  datatype CreateMessageParams = CreateMessageParams(
    maxTokens: u32,
    messages: seq<Message>,
    model: string,
    container: Option<Value>,
    contextManagement: Option<Value>,
    mcpServers: Option<seq<McpServer>>,
    system: Option<Value>,
    stopSequences: Option<seq<string>>,
    stream: Option<bool>,
    thinking: Option<Thinking>,
    topK: Option<u32>,
    tools: Option<seq<ToolDefinition>>,
    toolChoice: Option<ToolChoice>,
    metadata: Option<Metadata>,
    outputConfig: Option<OutputConfig>,
    outputFormat: Option<OutputFormat>,
    serviceTier: Option<ServiceTier>,
    n: Option<u32>)

  datatype RequiredMessageParams = RequiredMessageParams(model: string, messages: seq<Message>, maxTokens: u32)

  datatype StopReason = EndTurn | MaxTokens | StopSequence | ToolUseStop | PauseTurn | Refusal | ModelContextWindowExceeded

  datatype Usage = Usage(inputTokens: u32, outputTokens: u32)

  datatype CreateMessageResponse = CreateMessageResponse(
    content: seq<ContentBlock>,
    id: string,
    model: string,
    role: Role,
    stopReason: Option<StopReason>,
    stopSequence: Option<string>,
    messageType: string,
    usage: Option<Usage>)

  /** Why a `tool_choice` or `max_tokens` value is refused. */
  datatype DecodeError =
    | UnsupportedString(choice: string)
    | NotStringOrObject
    | MissingField(field: string)
    | UnknownVariant(tag: string)
    | InvalidType(field: string)
    | InvalidValue(field: string)

  // ---------------------------------------------------------------------
  // `max_tokens`

  /** The `max_tokens` field of a request object: 8192 when absent, else a `u32`. */
  function DecodeMaxTokens(body: map<string, Value>): (r: Result<u32, DecodeError>)
    ensures "max_tokens" !in body ==> r == Ok(DefaultMaxTokens)
    ensures "max_tokens" in body && r.Ok? ==> body["max_tokens"] == JNumber(r.value as int)
    ensures r.Err? ==> r == Err(if body["max_tokens"].JNumber? then InvalidValue("max_tokens") else InvalidType("max_tokens"))
  {
    if "max_tokens" !in body then Ok(DefaultMaxTokens)
    else match body["max_tokens"]
      case JNumber(n) => if 0 <= n < U32Modulus then Ok(n as u32) else Err(InvalidValue("max_tokens"))
      case _ => Err(InvalidType("max_tokens"))
  }

  /** A missing `max_tokens` reads as 8192; a present one is read as written. */
  lemma MaxTokensDefault(body: map<string, Value>, m: u32)
    ensures "max_tokens" !in body ==> DecodeMaxTokens(body) == Ok(8192)
    ensures DecodeMaxTokens(body["max_tokens" := JNumber(m as int)]) == Ok(m)
    ensures "max_tokens" in body && !body["max_tokens"].JNumber? ==> DecodeMaxTokens(body).Err?
    ensures forall n :: n < 0 || n >= U32Modulus ==>
      DecodeMaxTokens(body["max_tokens" := JNumber(n)]) == Err(InvalidValue("max_tokens"))
  {
  }

  // ---------------------------------------------------------------------
  // `tool_choice`

  const ParallelField: string := "disable_parallel_tool_use"

  /** The tag `ToolChoice` is serialised with. */
  function ChoiceTag(tc: ToolChoice): string {
    match tc
    case Auto(_) => "auto"
    case Any(_) => "any"
    case Tool(_, _) => "tool"
    case NoTools => "none"
  }

  /** `From<ToolChoiceTagged> for ToolChoice`. */
  function FromTagged(t: ToolChoiceTagged): (tc: ToolChoice)
    ensures ToTagged(tc) == t
  {
    match t
    case TaggedAuto(d) => Auto(d)
    case TaggedAny(d) => Any(d)
    case TaggedTool(name, d) => Tool(name, d)
    case TaggedNone => NoTools
  }

  /** The tagged form of a choice, the inverse of FromTagged. */
  function ToTagged(tc: ToolChoice): ToolChoiceTagged {
    match tc
    case Auto(d) => TaggedAuto(d)
    case Any(d) => TaggedAny(d)
    case Tool(name, d) => TaggedTool(name, d)
    case NoTools => TaggedNone
  }

  /** The conversion keeps the variant and every field: it is a bijection. */
  lemma FromTaggedBijective(t: ToolChoiceTagged, tc: ToolChoice)
    ensures ToTagged(FromTagged(t)) == t
    ensures FromTagged(ToTagged(tc)) == tc
    ensures FromTagged(t) == tc <==> t == ToTagged(tc)
  {
  }

  /** An optional boolean field: absent or `null` is `None`. */
  function DecodeOptionalBool(o: map<string, Value>, field: string): Result<Option<bool>, DecodeError> {
    if field !in o then Ok(None)
    else match o[field]
      case JNull => Ok(None)
      case JBool(b) => Ok(Some(b))
      case _ => Err(InvalidType(field))
  }

  /** Reading an object into ToolChoiceTagged by its `type` tag. */
  function DecodeTagged(o: map<string, Value>): (r: Result<ToolChoiceTagged, DecodeError>)
    ensures "type" !in o ==> r == Err(MissingField("type"))
    ensures r.Ok? ==> "type" in o && o["type"] == JString(ChoiceTag(FromTagged(r.value)))
    ensures r.Ok? && r.value.TaggedTool? ==> "name" in o && o["name"] == JString(r.value.name)
  {
    if "type" !in o then Err(MissingField("type"))
    else if !o["type"].JString? then Err(InvalidType("type"))
    else
      var tag := o["type"].str;
      if tag == "none" then Ok(TaggedNone)
      else if tag != "auto" && tag != "any" && tag != "tool" then Err(UnknownVariant(tag))
      else
        var d := DecodeOptionalBool(o, ParallelField);
        if d.Err? then Err(d.error)
        else if tag == "auto" then Ok(TaggedAuto(d.value))
        else if tag == "any" then Ok(TaggedAny(d.value))
        else if "name" !in o then Err(MissingField("name"))
        else if !o["name"].JString? then Err(InvalidType("name"))
        else Ok(TaggedTool(o["name"].str, d.value))
  }

  /**
   * The `tool_choice` decoder: a string is one of the shorthands `auto`,
   * `any` (or `required`) and `none`; an object is read by its tag; any
   * other value is refused.
   */
  function DecodeToolChoice(v: Value): (r: Result<ToolChoice, DecodeError>)
    ensures v.JString? ==> (r.Ok? <==> v.str in {"auto", "any", "required", "none"})
    ensures r.Ok? ==> v.JString? || v.JObject?
    ensures r.Ok? && v.JObject? ==> "type" in v.fields && v.fields["type"] == JString(ChoiceTag(r.value))
  {
    match v
    case JString(choice) =>
      if choice == "auto" then Ok(Auto(None))
      else if choice == "any" || choice == "required" then Ok(Any(None))
      else if choice == "none" then Ok(NoTools)
      else Err(UnsupportedString(choice))
    case JObject(o) =>
      var tagged := DecodeTagged(o);
      if tagged.Err? then Err(tagged.error) else Ok(FromTagged(tagged.value))
    case _ => Err(NotStringOrObject)
  }

  /** The serialised form: an object with the tag and the fields that are set. */
  function EncodeToolChoice(tc: ToolChoice): (v: Value)
    ensures v.JObject? && "type" in v.fields && v.fields["type"] == JString(ChoiceTag(tc))
    ensures "name" in v.fields <==> tc.Tool?
    ensures ParallelField in v.fields <==> !tc.NoTools? && tc.disableParallelToolUse.Some?
  {
    var tagged := map["type" := JString(ChoiceTag(tc))];
    var parallel := match tc
      case NoTools => tagged
      case _ =>
        if tc.disableParallelToolUse.Some? then tagged[ParallelField := JBool(tc.disableParallelToolUse.value)]
        else tagged;
    JObject(if tc.Tool? then parallel["name" := JString(tc.name)] else parallel)
  }

  /** Exactly four strings are accepted, each as its choice with no parallel-use flag. */
  lemma DecodeToolChoiceStrings(choice: string)
    ensures DecodeToolChoice(JString(choice)).Ok? <==> choice in {"auto", "any", "required", "none"}
    ensures choice == "auto" ==> DecodeToolChoice(JString(choice)) == Ok(Auto(None))
    ensures choice == "any" || choice == "required" ==> DecodeToolChoice(JString(choice)) == Ok(Any(None))
    ensures choice == "none" ==> DecodeToolChoice(JString(choice)) == Ok(NoTools)
    ensures DecodeToolChoice(JString(choice)).Err? ==> DecodeToolChoice(JString(choice)) == Err(UnsupportedString(choice))
  {
  }

  /** A value that is neither a string nor an object is refused. */
  lemma DecodeToolChoiceRejectsOtherValues(v: Value)
    requires !v.JString? && !v.JObject?
    ensures DecodeToolChoice(v) == Err(NotStringOrObject)
  {
  }

  /**
   * An object decodes to a choice exactly when its tag names that choice
   * and the fields the choice needs are present and well typed; any other
   * field is ignored, and a `null` flag reads as no flag.
   */
  lemma DecodeToolChoiceObject(o: map<string, Value>, tc: ToolChoice)
    ensures DecodeToolChoice(JObject(o)) == Ok(tc) <==>
      && "type" in o && o["type"] == JString(ChoiceTag(tc))
      && (tc.Tool? ==> "name" in o && o["name"] == JString(tc.name))
      && (!tc.NoTools? ==> DecodeOptionalBool(o, ParallelField) == Ok(tc.disableParallelToolUse))
  {
  }

  /** Every choice survives serialisation followed by the decoder. */
  lemma DecodeEncodeToolChoice(tc: ToolChoice)
    ensures DecodeToolChoice(EncodeToolChoice(tc)) == Ok(tc)
  {
  }

  // ---------------------------------------------------------------------
  // Content blocks and messages

  /** `ContentBlock::text`. */
  function TextBlock(text: string): (b: ContentBlock)
    ensures b.Text? && b.cacheControl == None && b.citations == None
    ensures BlockText(b) == text && ResponseBlockText(b) == text
  {
    Text(text, None, None)
  }

  /** `ContentBlock::image`: the source type selects the source; anything unrecognised is base64. */
  function ImageBlock(sourceType: string, mediaType: string, data: string): (b: ContentBlock)
    ensures b.Image? && b.cacheControl == None && SourcePayload(b.source) == data
    ensures SourceTag(b.source) == (if sourceType in {"url", "file"} then sourceType else "base64")
    ensures b.source.Base64? ==> b.source.mediaType == mediaType
  {
    var source :=
      if sourceType == "url" then Url(data)
      else if sourceType == "file" then File(data)
      else Base64(mediaType, data);
    Image(source, None)
  }

  /** The tag an image source is serialised with. */
  function SourceTag(src: ImageSource): string {
    match src
    case Base64(_, _) => "base64"
    case Url(_) => "url"
    case File(_) => "file"
  }

  /** The string an image source carries: the data, the URL or the file id. */
  function SourcePayload(src: ImageSource): string {
    match src
    case Base64(_, data) => data
    case Url(url) => url
    case File(fileId) => fileId
  }

  /**
   * `image` always yields an uncached image block carrying `data`; its
   * source is tagged `url` or `file` exactly when asked, and is base64
   * with the given media type otherwise.
   */
  lemma ImageBlockSelectsSource(sourceType: string, mediaType: string, data: string)
    ensures var b := ImageBlock(sourceType, mediaType, data);
      && b.Image? && b.cacheControl == None
      && SourcePayload(b.source) == data
      && (SourceTag(b.source) == "url" <==> sourceType == "url")
      && (SourceTag(b.source) == "file" <==> sourceType == "file")
      && (b.source.Base64? <==> sourceType != "url" && sourceType != "file")
      && (b.source.Base64? ==> b.source.mediaType == mediaType)
  {
  }

  /** Every image source is what `image` builds from its own tag and payload. */
  lemma ImageBlockFromSource(src: ImageSource)
    ensures ImageBlock(SourceTag(src), if src.Base64? then src.mediaType else "", SourcePayload(src)) == Image(src, None)
  {
  }

  /** `Message::new_text`. */
  function NewText(role: Role, text: string): (m: Message)
    ensures m.role == role && MessageText(m) == text
  {
    Message(role, TextContent(text))
  }

  /** `Message::new_blocks`. */
  function NewBlocks(role: Role, blocks: seq<ContentBlock>): (m: Message)
    ensures m.role == role && m.content == Blocks(blocks) && MessageText(m) == BlocksText(blocks)
  {
    Message(role, Blocks(blocks))
  }

  // ---------------------------------------------------------------------
  // Building a request

  /** `From<RequiredMessageParams>`: the three required fields, nothing optional set. */
  function FromRequired(req: RequiredMessageParams): (p: CreateMessageParams)
    ensures Required(p) == req
    ensures forall f :: !IsSet(p, f)
  {
    CreateMessageParams(req.maxTokens, req.messages, req.model,
      None, None, None, None, None, None, None, None, None, None, None, None, None, None, None)
  }

  function Required(p: CreateMessageParams): RequiredMessageParams {
    RequiredMessageParams(p.model, p.messages, p.maxTokens)
  }

  /** The optional fields of a request. */
  datatype Field =
    | ContainerField | ContextManagementField | McpServersField | SystemField | StopSequencesField
    | StreamField | ThinkingField | TopKField | ToolsField | ToolChoiceField | MetadataField
    | OutputConfigField | OutputFormatField | ServiceTierField | NField

  const AllFields: set<Field> := {
    ContainerField, ContextManagementField, McpServersField, SystemField, StopSequencesField,
    StreamField, ThinkingField, TopKField, ToolsField, ToolChoiceField, MetadataField,
    OutputConfigField, OutputFormatField, ServiceTierField, NField }

  predicate IsSet(p: CreateMessageParams, f: Field) {
    match f
    case ContainerField => p.container.Some?
    case ContextManagementField => p.contextManagement.Some?
    case McpServersField => p.mcpServers.Some?
    case SystemField => p.system.Some?
    case StopSequencesField => p.stopSequences.Some?
    case StreamField => p.stream.Some?
    case ThinkingField => p.thinking.Some?
    case TopKField => p.topK.Some?
    case ToolsField => p.tools.Some?
    case ToolChoiceField => p.toolChoice.Some?
    case MetadataField => p.metadata.Some?
    case OutputConfigField => p.outputConfig.Some?
    case OutputFormatField => p.outputFormat.Some?
    case ServiceTierField => p.serviceTier.Some?
    case NField => p.n.Some?
  }

  /** The optional fields that hold a value. */
  function SetFields(p: CreateMessageParams): set<Field> {
    set f | f in AllFields && IsSet(p, f)
  }

  /** `p` with field `f` back to `None`. */
  function Cleared(p: CreateMessageParams, f: Field): CreateMessageParams {
    match f
    case ContainerField => p.(container := None)
    case ContextManagementField => p.(contextManagement := None)
    case McpServersField => p.(mcpServers := None)
    case SystemField => p.(system := None)
    case StopSequencesField => p.(stopSequences := None)
    case StreamField => p.(stream := None)
    case ThinkingField => p.(thinking := None)
    case TopKField => p.(topK := None)
    case ToolsField => p.(tools := None)
    case ToolChoiceField => p.(toolChoice := None)
    case MetadataField => p.(metadata := None)
    case OutputConfigField => p.(outputConfig := None)
    case OutputFormatField => p.(outputFormat := None)
    case ServiceTierField => p.(serviceTier := None)
    case NField => p.(n := None)
  }

  /** Converting the required parameters gives a request with no optional field set that remembers them. */
  lemma FromRequiredBare(req: RequiredMessageParams)
    ensures Required(FromRequired(req)) == req
    ensures SetFields(FromRequired(req)) == {}
  {
  }

  /** Every request with no optional field set is the conversion of its required parameters. */
  lemma BareIsFromRequired(p: CreateMessageParams)
    requires SetFields(p) == {}
    ensures FromRequired(Required(p)) == p
  {
    forall f | f in AllFields ensures !IsSet(p, f) {
      assert f !in SetFields(p);
    }
    assert !IsSet(p, ContainerField) && !IsSet(p, ContextManagementField) && !IsSet(p, McpServersField);
    assert !IsSet(p, SystemField) && !IsSet(p, StopSequencesField) && !IsSet(p, StreamField);
    assert !IsSet(p, ThinkingField) && !IsSet(p, TopKField) && !IsSet(p, ToolsField);
    assert !IsSet(p, ToolChoiceField) && !IsSet(p, MetadataField) && !IsSet(p, OutputConfigField);
    assert !IsSet(p, OutputFormatField) && !IsSet(p, ServiceTierField) && !IsSet(p, NField);
  }

  function WithSystem(p: CreateMessageParams, system: string): (q: CreateMessageParams)
    ensures q.system == Some(JString(system)) && Cleared(q, SystemField) == Cleared(p, SystemField)
  {
    p.(system := Some(JString(system)))
  }

  function WithStopSequences(p: CreateMessageParams, stopSequences: seq<string>): (q: CreateMessageParams)
    ensures q.stopSequences == Some(stopSequences) && Cleared(q, StopSequencesField) == Cleared(p, StopSequencesField)
  {
    p.(stopSequences := Some(stopSequences))
  }

  function WithStream(p: CreateMessageParams, stream: bool): (q: CreateMessageParams)
    ensures q.stream == Some(stream) && Cleared(q, StreamField) == Cleared(p, StreamField)
  {
    p.(stream := Some(stream))
  }

  function WithTopK(p: CreateMessageParams, topK: u32): (q: CreateMessageParams)
    ensures q.topK == Some(topK) && Cleared(q, TopKField) == Cleared(p, TopKField)
  {
    p.(topK := Some(topK))
  }

  function WithTools(p: CreateMessageParams, tools: seq<ToolDefinition>): (q: CreateMessageParams)
    ensures q.tools == Some(tools) && Cleared(q, ToolsField) == Cleared(p, ToolsField)
  {
    p.(tools := Some(tools))
  }

  function WithToolChoice(p: CreateMessageParams, toolChoice: ToolChoice): (q: CreateMessageParams)
    ensures q.toolChoice == Some(toolChoice) && Cleared(q, ToolChoiceField) == Cleared(p, ToolChoiceField)
  {
    p.(toolChoice := Some(toolChoice))
  }

  function WithMetadata(p: CreateMessageParams, metadata: Metadata): (q: CreateMessageParams)
    ensures q.metadata == Some(metadata) && Cleared(q, MetadataField) == Cleared(p, MetadataField)
  {
    p.(metadata := Some(metadata))
  }

  /** One builder call, with its argument. */
  datatype Setting =
    | SetSystem(system: string)
    | SetStopSequences(stopSequences: seq<string>)
    | SetStream(stream: bool)
    | SetTopK(topK: u32)
    | SetTools(tools: seq<ToolDefinition>)
    | SetToolChoice(toolChoice: ToolChoice)
    | SetMetadata(metadata: Metadata)

  function FieldOf(s: Setting): Field {
    match s
    case SetSystem(_) => SystemField
    case SetStopSequences(_) => StopSequencesField
    case SetStream(_) => StreamField
    case SetTopK(_) => TopKField
    case SetTools(_) => ToolsField
    case SetToolChoice(_) => ToolChoiceField
    case SetMetadata(_) => MetadataField
  }

  function Apply(p: CreateMessageParams, s: Setting): CreateMessageParams {
    match s
    case SetSystem(v) => WithSystem(p, v)
    case SetStopSequences(v) => WithStopSequences(p, v)
    case SetStream(v) => WithStream(p, v)
    case SetTopK(v) => WithTopK(p, v)
    case SetTools(v) => WithTools(p, v)
    case SetToolChoice(v) => WithToolChoice(p, v)
    case SetMetadata(v) => WithMetadata(p, v)
  }

  /**
   * Each builder sets its own field and nothing else: cleared again, the
   * request is what it was with that field cleared, and the required
   * fields are untouched.
   */
  lemma BuilderSetsOnlyItsField(p: CreateMessageParams, s: Setting)
    ensures IsSet(Apply(p, s), FieldOf(s))
    ensures Cleared(Apply(p, s), FieldOf(s)) == Cleared(p, FieldOf(s))
    ensures Required(Apply(p, s)) == Required(p)
    ensures SetFields(Apply(p, s)) == SetFields(p) + {FieldOf(s)}
  {
    var q, g := Apply(p, s), FieldOf(s);
    assert IsSet(q, g) && Cleared(q, g) == Cleared(p, g) by {
      match s
      case SetSystem(_) =>
      case SetStopSequences(_) =>
      case SetStream(_) =>
      case SetTopK(_) =>
      case SetTools(_) =>
      case SetToolChoice(_) =>
      case SetMetadata(_) =>
    }
    forall f | f in AllFields ensures IsSet(q, f) <==> IsSet(p, f) || f == g {
      if f != g {
        ClearedKeeps(p, g, f);
        ClearedKeeps(q, g, f);
      }
    }
  }

  /** Clearing one field leaves whether any other field is set, and the required fields, as they were. */
  lemma ClearedKeeps(p: CreateMessageParams, g: Field, f: Field)
    requires f != g
    ensures IsSet(Cleared(p, g), f) == IsSet(p, f)
    ensures Required(Cleared(p, g)) == Required(p)
  {
  }

  /** The builders set the values they are given. */
  lemma BuilderValues(p: CreateMessageParams, system: string, stops: seq<string>, stream: bool, topK: u32,
                      tools: seq<ToolDefinition>, choice: ToolChoice, metadata: Metadata)
    ensures WithSystem(p, system).system == Some(JString(system))
    ensures WithStopSequences(p, stops).stopSequences == Some(stops)
    ensures WithStream(p, stream).stream == Some(stream)
    ensures WithTopK(p, topK).topK == Some(topK)
    ensures WithTools(p, tools).tools == Some(tools)
    ensures WithToolChoice(p, choice).toolChoice == Some(choice)
    ensures WithMetadata(p, metadata).metadata == Some(metadata)
  {
  }

  /** Builders for different fields commute; for the same field the later call wins. */
  lemma BuildersCommute(p: CreateMessageParams, s: Setting, t: Setting)
    ensures FieldOf(s) != FieldOf(t) ==> Apply(Apply(p, s), t) == Apply(Apply(p, t), s)
    ensures FieldOf(s) == FieldOf(t) ==> Apply(Apply(p, s), t) == Apply(p, t)
  {
  }

  /** `CreateMessageParams::new(req)` followed by a chain of builder calls. */
  function Build(req: RequiredMessageParams, settings: seq<Setting>): CreateMessageParams
    decreases |settings|
  {
    if settings == [] then FromRequired(req)
    else Apply(Build(req, settings[..|settings| - 1]), settings[|settings| - 1])
  }

  /** A built request has exactly the fields its chain sets, and the required ones it started from. */
  lemma {:induction false} BuildSetsListedFields(req: RequiredMessageParams, settings: seq<Setting>)
    ensures Required(Build(req, settings)) == req
    ensures SetFields(Build(req, settings)) == set s | s in settings :: FieldOf(s)
    decreases |settings|
  {
    if settings == [] {
      FromRequiredBare(req);
    } else {
      var init, last := settings[..|settings| - 1], settings[|settings| - 1];
      BuildSetsListedFields(req, init);
      BuilderSetsOnlyItsField(Build(req, init), last);
      assert settings == init + [last];
      assert (set s | s in settings :: FieldOf(s)) == (set s | s in init :: FieldOf(s)) + {FieldOf(last)};
    }
  }

  // ---------------------------------------------------------------------
  // Text that token counting feeds to the tokenizer

  /** `parts.join("\n")`. */
  function JoinLines(parts: seq<string>): string
    decreases |parts|
  {
    if parts == [] then ""
    else if |parts| == 1 then parts[0]
    else parts[0] + "\n" + JoinLines(parts[1..])
  }

  /** The position of the first line break. */
  function FirstNewline(s: string): (r: Option<nat>)
    ensures r.Some? ==> r.value < |s| && s[r.value] == '\n' && '\n' !in s[..r.value]
    ensures r.None? ==> '\n' !in s
    decreases |s|
  {
    if s == [] then None
    else if s[0] == '\n' then Some(0)
    else
      var rest := FirstNewline(s[1..]);
      if rest.None? then None else Some(rest.value + 1)
  }

  /** Splitting at every line break, the inverse of JoinLines. */
  function SplitLines(s: string): (r: seq<string>)
    ensures r != []
    decreases |s|
  {
    var i := FirstNewline(s);
    if i.None? then [s] else [s[..i.value]] + SplitLines(s[i.value + 1..])
  }

  predicate SingleLine(s: string) {
    '\n' !in s
  }

  lemma FirstNewlineAfter(a: string, b: string)
    requires SingleLine(a)
    ensures FirstNewline(a + "\n" + b) == Some(|a|)
    decreases |a|
  {
    if a != [] {
      assert (a + "\n" + b)[1..] == a[1..] + "\n" + b;
      FirstNewlineAfter(a[1..], b);
    }
  }

  /** Lines without a line break of their own are recovered from their join. */
  lemma {:induction false} SplitJoin(parts: seq<string>)
    requires parts != []
    requires forall i :: 0 <= i < |parts| ==> SingleLine(parts[i])
    ensures SplitLines(JoinLines(parts)) == parts
    decreases |parts|
  {
    if |parts| == 1 {
      assert SingleLine(parts[0]);
    } else {
      var rest := JoinLines(parts[1..]);
      var s := parts[0] + "\n" + rest;
      FirstNewlineAfter(parts[0], rest);
      assert s[..|parts[0]|] == parts[0];
      assert s[|parts[0]| + 1..] == rest;
      SplitJoin(parts[1..]);
      assert parts == [parts[0]] + parts[1..];
    }
  }

  /** Joining the lines of a string gives the string back. */
  lemma {:induction false} JoinSplit(s: string)
    ensures JoinLines(SplitLines(s)) == s
    ensures forall i :: 0 <= i < |SplitLines(s)| ==> SingleLine(SplitLines(s)[i])
    decreases |s|
  {
    var i := FirstNewline(s);
    if i.Some? {
      var rest := s[i.value + 1..];
      JoinSplit(rest);
      assert s == s[..i.value] + "\n" + rest;
      var r := SplitLines(s);
      assert r == [s[..i.value]] + SplitLines(rest);
      assert r[1..] == SplitLines(rest);
    }
  }

  /** The text of a block for a request count: only text blocks contribute. */
  function BlockText(b: ContentBlock): string {
    if b.Text? then b.text else ""
  }

  /** The concatenated text of a list of blocks. */
  function BlocksText(blocks: seq<ContentBlock>): string
    decreases |blocks|
  {
    if blocks == [] then "" else BlockText(blocks[0]) + BlocksText(blocks[1..])
  }

  /** The text blocks of a list, in order. */
  function TextBlocksOnly(blocks: seq<ContentBlock>): (r: seq<ContentBlock>)
    ensures forall b :: b in r <==> b.Text? && b in blocks
    decreases |blocks|
  {
    if blocks == [] then []
    else (if blocks[0].Text? then [blocks[0]] else []) + TextBlocksOnly(blocks[1..])
  }

  /** Block text distributes over concatenation. */
  lemma {:induction false} BlocksTextAppend(a: seq<ContentBlock>, b: seq<ContentBlock>)
    ensures BlocksText(a + b) == BlocksText(a) + BlocksText(b)
    decreases |a|
  {
    if a == [] {
      assert a + b == b;
    } else {
      assert (a + b)[0] == a[0];
      assert (a + b)[1..] == a[1..] + b;
      BlocksTextAppend(a[1..], b);
    }
  }

  /** Only the text blocks count: dropping every other block leaves the text as it was. */
  lemma {:induction false} BlocksTextOnlyText(blocks: seq<ContentBlock>)
    ensures BlocksText(TextBlocksOnly(blocks)) == BlocksText(blocks)
    decreases |blocks|
  {
    if blocks != [] {
      var head := if blocks[0].Text? then [blocks[0]] else [];
      BlocksTextOnlyText(blocks[1..]);
      BlocksTextAppend(head, TextBlocksOnly(blocks[1..]));
      if blocks[0].Text? {
        assert BlocksText(head) == blocks[0].text + BlocksText([]);
      }
    }
  }

  /** A message's text: its string content, or the text of its blocks. */
  function MessageText(m: Message): string {
    match m.content
    case TextContent(text) => text
    case Blocks(blocks) => BlocksText(blocks)
  }

  function MessageTexts(ms: seq<Message>): seq<string>
  {
    seq(|ms|, i requires 0 <= i < |ms| => MessageText(ms[i]))
  }

  /** The builders of messages and text blocks give back the text they were given. */
  lemma ConstructorsKeepText(role: Role, text: string, blocks: seq<ContentBlock>)
    ensures TextBlock(text).cacheControl == None && TextBlock(text).citations == None
    ensures BlocksText([TextBlock(text)]) == text
    ensures MessageText(NewText(role, text)) == text && NewText(role, text).role == role
    ensures MessageText(NewBlocks(role, blocks)) == BlocksText(blocks) && NewBlocks(role, blocks).role == role
    ensures NewBlocks(role, blocks).content.blocks == blocks
  {
  }

  /** The text of one element of a system array: its string `text` field, if any. */
  function ItemText(v: Value): string {
    var t := AsStr(Index(v, "text"));
    if t.Some? then t.value else ""
  }

  function ArrayText(items: seq<Value>): string
    decreases |items|
  {
    if items == [] then "" else ItemText(items[0]) + ArrayText(items[1..])
  }

  /** The system prompt's text: a string itself, the `text` fields of an array, or nothing. */
  function SystemText(system: Option<Value>): (r: string)
    ensures system.Some? && system.value.JString? ==> r == system.value.str
    ensures system.None? || !(system.value.JString? || system.value.JArray?) ==> r == ""
  {
    match system
    case Some(JString(s)) => s
    case Some(JArray(items)) => ArrayText(items)
    case _ => ""
  }

  /** An array's text is the concatenation of its elements' texts. */
  lemma {:induction false} ArrayTextAppend(a: seq<Value>, b: seq<Value>)
    ensures ArrayText(a + b) == ArrayText(a) + ArrayText(b)
    decreases |a|
  {
    if a == [] {
      assert a + b == b;
    } else {
      assert (a + b)[0] == a[0];
      assert (a + b)[1..] == a[1..] + b;
      ArrayTextAppend(a[1..], b);
    }
  }

  /** A system array of text blocks reads as the concatenation of their texts. */
  lemma {:induction false} SystemArrayOfTexts(texts: seq<string>)
    ensures SystemText(Some(JArray(seq(|texts|, i requires 0 <= i < |texts| => JObject(map["type" := JString("text"), "text" := JString(texts[i])])))))
            == Concat(texts)
    decreases |texts|
  {
    var items := seq(|texts|, i requires 0 <= i < |texts| => JObject(map["type" := JString("text"), "text" := JString(texts[i])]));
    if texts != [] {
      SystemArrayOfTexts(texts[1..]);
      var tail := seq(|texts| - 1, i requires 0 <= i < |texts| - 1 => JObject(map["type" := JString("text"), "text" := JString(texts[1..][i])]));
      assert items[1..] == tail;
    }
  }

  function Concat(texts: seq<string>): string
    decreases |texts|
  {
    if texts == [] then "" else texts[0] + Concat(texts[1..])
  }

  /** The two strings a request count is made of: the system text and the joined message texts. */
  function RequestTokenInput(p: CreateMessageParams): (string, string) {
    (SystemText(p.system), JoinLines(MessageTexts(p.messages)))
  }

  /** `len() as u32`: a count truncated to 32 bits. */
  function Truncate(n: nat): u32 {
    (n % U32Modulus) as u32
  }

  /** Adding two truncated counts with wrap-around truncates their sum. */
  lemma AddTruncated(a: nat, b: nat)
    ensures (Truncate(a) as int + Truncate(b) as int) % U32Modulus == (a + b) % U32Modulus
  {
    var qa, qb := a / U32Modulus, b / U32Modulus;
    assert a + b == (Truncate(a) as int + Truncate(b) as int) + (qa + qb) * U32Modulus;
    ModMultiple(Truncate(a) as int + Truncate(b) as int, qa + qb);
  }

  lemma ModMultiple(x: nat, k: nat)
    ensures (x + k * U32Modulus) % U32Modulus == x % U32Modulus
    decreases k
  {
    if k > 0 {
      ModMultiple(x, k - 1);
      assert x + k * U32Modulus == (x + (k - 1) * U32Modulus) + U32Modulus;
    }
  }

  /** The request count: the two token counts, each cast to `u32`, added with wrap-around. */
  function CountRequestTokens(p: CreateMessageParams, tokens: string -> nat): (n: u32)
    ensures n as int == (tokens(SystemText(p.system)) + tokens(JoinLines(MessageTexts(p.messages)))) % U32Modulus
  {
    AddTruncated(tokens(SystemText(p.system)), tokens(JoinLines(MessageTexts(p.messages))));
    var (system, messages) := RequestTokenInput(p);
    ((Truncate(tokens(system)) as int + Truncate(tokens(messages)) as int) % U32Modulus) as u32
  }

  /**
   * A request's count is the system text's count plus the joined messages'
   * count whenever that sum fits in 32 bits; the messages, one per line,
   * can be read back from the counted text when none has a line break.
   */
  lemma RequestCount(p: CreateMessageParams, tokens: string -> nat)
    ensures var (system, messages) := RequestTokenInput(p);
      tokens(system) + tokens(messages) < U32Modulus ==>
        CountRequestTokens(p, tokens) as int == tokens(system) + tokens(messages)
    ensures p.messages != [] && (forall i :: 0 <= i < |p.messages| ==> SingleLine(MessageText(p.messages[i]))) ==>
      SplitLines(RequestTokenInput(p).1) == MessageTexts(p.messages)
  {
    if p.messages != [] && (forall i :: 0 <= i < |p.messages| ==> SingleLine(MessageText(p.messages[i]))) {
      SplitJoin(MessageTexts(p.messages));
    }
  }

  /** The text of a block for a response count: text, or the data of a base64 image. */
  function ResponseBlockText(b: ContentBlock): string {
    match b
    case Text(text, _, _) => text
    case Image(Base64(_, data), _) => data
    case _ => ""
  }

  function ResponseTexts(blocks: seq<ContentBlock>): seq<string>
  {
    seq(|blocks|, i requires 0 <= i < |blocks| => ResponseBlockText(blocks[i]))
  }

  function ResponseTokenInput(r: CreateMessageResponse): string {
    JoinLines(ResponseTexts(r.content))
  }

  function CountResponseTokens(r: CreateMessageResponse, tokens: string -> nat): (n: u32)
    ensures n as int == tokens(JoinLines(ResponseTexts(r.content))) % U32Modulus
    ensures tokens(JoinLines(ResponseTexts(r.content))) < U32Modulus ==>
      n as int == tokens(JoinLines(ResponseTexts(r.content)))
  {
    Truncate(tokens(ResponseTokenInput(r)))
  }

  /** `CreateMessageResponse::text`; the identifier, random in the source, is a parameter. */
  function TextResponse(content: string, model: string, usage: Usage, id: string): (r: CreateMessageResponse)
    ensures r.role == Assistant && r.messageType == "message" && r.id == id && r.model == model
    ensures r.usage == Some(usage) && r.stopReason == None && r.stopSequence == None
    ensures ResponseTokenInput(r) == content
  {
    CreateMessageResponse([TextBlock(content)], id, model, Assistant, None, None, "message", Some(usage))
  }

  /**
   * A response's counted text holds one line per block, and each block is
   * recovered from it when no block text has a line break: text blocks
   * give their text, base64 images their data, the rest nothing.
   */
  lemma ResponseLines(r: CreateMessageResponse)
    requires r.content != []
    requires forall i :: 0 <= i < |r.content| ==> SingleLine(ResponseBlockText(r.content[i]))
    ensures SplitLines(ResponseTokenInput(r)) == ResponseTexts(r.content)
  {
    SplitJoin(ResponseTexts(r.content));
  }

  /** A text response is an assistant message whose counted text is exactly its content. */
  lemma TextResponseText(content: string, model: string, usage: Usage, id: string, tokens: string -> nat)
    ensures var r := TextResponse(content, model, usage, id);
      && ResponseTokenInput(r) == content
      && CountResponseTokens(r, tokens) == Truncate(tokens(content))
      && r.role == Assistant && r.model == model && r.usage == Some(usage)
      && r.stopReason == None && r.stopSequence == None && r.messageType == "message"
  {
  }
}
