/** The chat request body (`OpenAIChatRequest`) and how the model's
    generation parameters reach it: a parameter the caller set is copied into
    the request, one left unset keeps Go's zero value, and `json.Marshal`
    then leaves out every field that holds its zero value (`omitempty`).
    Float parameters are modelled as reals. */
module RequestOptions {
  import opened Wrappers
  import opened Translator

  /** The generation parameters of a model; `None` where the caller left a
      parameter unset (a nil pointer). */
  datatype Settings = Settings(
    temperature: Option<real>,
    maxTokens: Option<int>,
    topP: Option<real>,
    frequencyPenalty: Option<real>,
    presencePenalty: Option<real>,
    stopSequences: Option<seq<string>>)

  const Unset := Settings(None, None, None, None, None, None)

  /** The request body as sent. */
  datatype ChatRequest = ChatRequest(
    model: string,
    messages: seq<WireMessage>,
    tools: seq<WireTool>,
    temperature: real,
    maxTokens: int,
    topP: real,
    frequencyPenalty: real,
    presencePenalty: real,
    stop: seq<string>,
    stream: bool)

  /** The request before any parameter is applied: every parameter at its
      zero value; `stream` is set on the streaming path only. */
  function Bare(model: string, messages: seq<WireMessage>, tools: seq<WireTool>, stream: bool): ChatRequest {
    ChatRequest(model, messages, tools, 0.0, 0, 0.0, 0.0, 0.0, [], stream)
  }

  /** The parameter block: every set parameter overwrites its field. */
  function Configure(req: ChatRequest, s: Settings): ChatRequest {
    req.(temperature := if s.temperature.Some? then s.temperature.value else req.temperature,
         maxTokens := if s.maxTokens.Some? then s.maxTokens.value else req.maxTokens,
         topP := if s.topP.Some? then s.topP.value else req.topP,
         frequencyPenalty := if s.frequencyPenalty.Some? then s.frequencyPenalty.value else req.frequencyPenalty,
         presencePenalty := if s.presencePenalty.Some? then s.presencePenalty.value else req.presencePenalty,
         stop := if s.stopSequences.Some? then s.stopSequences.value else req.stop)
  }

  /** The request of `openaiREST` (not streaming) or of `openaiStreamREST`
      (streaming). */
  function BuildRequest(model: string, messages: seq<WireMessage>, tools: seq<WireTool>,
                        s: Settings, stream: bool): ChatRequest {
    Configure(Bare(model, messages, tools, stream), s)
  }

  /** The parameter block as the source writes it: one test per parameter,
      each assigning the set value to the request's field. */
  method ApplySettings(req: ChatRequest, s: Settings) returns (r: ChatRequest)
    ensures r == Configure(req, s)
  {
    r := req;
    if s.temperature.Some? {
      r := r.(temperature := s.temperature.value);
    }
    if s.maxTokens.Some? {
      r := r.(maxTokens := s.maxTokens.value);
    }
    if s.topP.Some? {
      r := r.(topP := s.topP.value);
    }
    if s.frequencyPenalty.Some? {
      r := r.(frequencyPenalty := s.frequencyPenalty.value);
    }
    if s.presencePenalty.Some? {
      r := r.(presencePenalty := s.presencePenalty.value);
    }
    if s.stopSequences.Some? {
      r := r.(stop := s.stopSequences.value);
    }
  }

  /** A set parameter reaches the request with its value, an unset one
      leaves the field as it was; the model, messages, tools and streaming
      flag are never touched. */
  lemma ConfigureCopiesSetOnly(req: ChatRequest, s: Settings)
    ensures var r := Configure(req, s);
      && r.model == req.model && r.messages == req.messages && r.tools == req.tools && r.stream == req.stream
      && (s.temperature.Some? ==> r.temperature == s.temperature.value)
      && (s.temperature.None? ==> r.temperature == req.temperature)
      && (s.maxTokens.Some? ==> r.maxTokens == s.maxTokens.value)
      && (s.maxTokens.None? ==> r.maxTokens == req.maxTokens)
      && (s.topP.Some? ==> r.topP == s.topP.value)
      && (s.topP.None? ==> r.topP == req.topP)
      && (s.frequencyPenalty.Some? ==> r.frequencyPenalty == s.frequencyPenalty.value)
      && (s.frequencyPenalty.None? ==> r.frequencyPenalty == req.frequencyPenalty)
      && (s.presencePenalty.Some? ==> r.presencePenalty == s.presencePenalty.value)
      && (s.presencePenalty.None? ==> r.presencePenalty == req.presencePenalty)
      && (s.stopSequences.Some? ==> r.stop == s.stopSequences.value)
      && (s.stopSequences.None? ==> r.stop == req.stop)
  {
  }

  /** With no parameter set the request is unchanged, and applying the
      same parameters twice is applying them once. */
  lemma ConfigureIdempotent(req: ChatRequest, s: Settings)
    ensures Configure(req, Unset) == req
    ensures Configure(Configure(req, s), s) == Configure(req, s)
  {
  }

  /** Only the streaming path asks for a stream; both paths send the same
      parameters. */
  lemma StreamOnlyWhenStreaming(model: string, messages: seq<WireMessage>, tools: seq<WireTool>, s: Settings)
    ensures BuildRequest(model, messages, tools, s, true).stream
    ensures !BuildRequest(model, messages, tools, s, false).stream
    ensures BuildRequest(model, messages, tools, s, true).(stream := false) == BuildRequest(model, messages, tools, s, false)
  {
  }

  // ---------------------------------------------------------------------
  // The keys of the JSON body

  /** The top-level keys of the request body: `model`, `messages`,
      `tools`, `temperature`, `max_tokens`, `top_p`, `frequency_penalty`,
      `presence_penalty`, `stop` and `stream`. */
  datatype Key = ModelKey | MessagesKey | ToolsKey | TemperatureKey | MaxTokensKey | TopPKey
               | FrequencyPenaltyKey | PresencePenaltyKey | StopKey | StreamKey

  /** A field's value as far as `omitempty` looks at it: a string, a
      number, a flag, a slice (its length) or a pointer (whether it is
      nil). */
  datatype FieldValue = Text(text: string) | Number(x: real) | Whole(i: int) | Truth(b: bool)
                      | Slice(length: nat) | Pointer(isNil: bool)

  /** Go's empty values, which `omitempty` leaves out: false, 0, "", a
      nil pointer and an empty slice. */
  predicate IsEmptyValue(v: FieldValue) {
    match v
    case Text(s) => s == ""
    case Number(x) => x == 0.0
    case Whole(i) => i == 0
    case Truth(b) => !b
    case Slice(n) => n == 0
    case Pointer(isNil) => isNil
  }

  /** Every key but `model` and `messages` is tagged `omitempty`. */
  predicate OmitEmpty(k: Key) {
    k != ModelKey && k != MessagesKey
  }

  /** `json.Marshal` writes a field unless it is tagged `omitempty` and
      holds an empty value. */
  predicate Written(v: FieldValue, omitEmpty: bool) {
    !omitEmpty || !IsEmptyValue(v)
  }

  /** The value of each field of the request body. */
  function Field(r: ChatRequest, k: Key): FieldValue {
    match k
    case ModelKey => Text(r.model)
    case MessagesKey => Slice(|r.messages|)
    case ToolsKey => Slice(|r.tools|)
    case TemperatureKey => Number(r.temperature)
    case MaxTokensKey => Whole(r.maxTokens)
    case TopPKey => Number(r.topP)
    case FrequencyPenaltyKey => Number(r.frequencyPenalty)
    case PresencePenaltyKey => Number(r.presencePenalty)
    case StopKey => Slice(|r.stop|)
    case StreamKey => Truth(r.stream)
  }

  /** Whether `json.Marshal` writes key `k` for a request. */
  predicate Sent(r: ChatRequest, k: Key) {
    Written(Field(r, k), OmitEmpty(k))
  }

  /** What reaches the wire as the code is written: a parameter is sent
      exactly when it was set to a value other than zero. */
  lemma SentKeysAsWritten(model: string, messages: seq<WireMessage>, tools: seq<WireTool>, s: Settings, stream: bool)
    ensures var r := BuildRequest(model, messages, tools, s, stream);
      && Sent(r, ModelKey) && Sent(r, MessagesKey)
      && (Sent(r, ToolsKey) <==> tools != [])
      && (Sent(r, TemperatureKey) <==> s.temperature.Some? && s.temperature.value != 0.0)
      && (Sent(r, MaxTokensKey) <==> s.maxTokens.Some? && s.maxTokens.value != 0)
      && (Sent(r, TopPKey) <==> s.topP.Some? && s.topP.value != 0.0)
      && (Sent(r, FrequencyPenaltyKey) <==> s.frequencyPenalty.Some? && s.frequencyPenalty.value != 0.0)
      && (Sent(r, PresencePenaltyKey) <==> s.presencePenalty.Some? && s.presencePenalty.value != 0.0)
      && (Sent(r, StopKey) <==> s.stopSequences.Some? && s.stopSequences.value != [])
      && (Sent(r, StreamKey) <==> stream)
  {
  }

  // ---------------------------------------------------------------------
  // Parameters kept as pointers in the request

  /** The request body with the parameters kept optional: nil pointers are
      left out by `omitempty`, a pointer to zero is not. */
  datatype OptionalRequest = OptionalRequest(
    model: string,
    messages: seq<WireMessage>,
    tools: seq<WireTool>,
    settings: Settings,
    stream: bool)

  /** The value of each field of the body with optional parameters: every
      parameter is a pointer, nil when the parameter was not set. */
  function OptionalField(r: OptionalRequest, k: Key): FieldValue {
    match k
    case ModelKey => Text(r.model)
    case MessagesKey => Slice(|r.messages|)
    case ToolsKey => Slice(|r.tools|)
    case TemperatureKey => Pointer(r.settings.temperature.None?)
    case MaxTokensKey => Pointer(r.settings.maxTokens.None?)
    case TopPKey => Pointer(r.settings.topP.None?)
    case FrequencyPenaltyKey => Pointer(r.settings.frequencyPenalty.None?)
    case PresencePenaltyKey => Pointer(r.settings.presencePenalty.None?)
    case StopKey => Pointer(r.settings.stopSequences.None?)
    case StreamKey => Truth(r.stream)
  }

  /** Whether `json.Marshal` writes key `k` in the body with optional
      parameters, by the same `omitempty` rule. */
  predicate OptionalSent(r: OptionalRequest, k: Key) {
    Written(OptionalField(r, k), OmitEmpty(k))
  }

  /** With optional parameters, a parameter is sent exactly when it was
      set, zero or not, and the rest of the body is the same as before. */
  lemma SentKeysOptional(model: string, messages: seq<WireMessage>, tools: seq<WireTool>, s: Settings, stream: bool)
    ensures var r := OptionalRequest(model, messages, tools, s, stream);
      && OptionalSent(r, ModelKey) && OptionalSent(r, MessagesKey)
      && (OptionalSent(r, ToolsKey) <==> tools != [])
      && (OptionalSent(r, TemperatureKey) <==> s.temperature.Some?)
      && (OptionalSent(r, MaxTokensKey) <==> s.maxTokens.Some?)
      && (OptionalSent(r, TopPKey) <==> s.topP.Some?)
      && (OptionalSent(r, FrequencyPenaltyKey) <==> s.frequencyPenalty.Some?)
      && (OptionalSent(r, PresencePenaltyKey) <==> s.presencePenalty.Some?)
      && (OptionalSent(r, StopKey) <==> s.stopSequences.Some?)
      && (OptionalSent(r, StreamKey) <==> stream)
  {
  }

  /** Where the code as written sends a parameter, the optional form sends
      it too, with the value that was set. */
  lemma OptionalSendsMore(model: string, messages: seq<WireMessage>, tools: seq<WireTool>, s: Settings, stream: bool)
    ensures var r := BuildRequest(model, messages, tools, s, stream);
      forall k :: Sent(r, k) ==> OptionalSent(OptionalRequest(model, messages, tools, s, stream), k)
    ensures var r := BuildRequest(model, messages, tools, s, stream);
      Sent(r, TemperatureKey) ==> Some(r.temperature) == s.temperature
  {
    SentKeysAsWritten(model, messages, tools, s, stream);
    SentKeysOptional(model, messages, tools, s, stream);
  }

  /** A temperature the caller set to 0 is not sent as the code is
      written, so that the server falls back to its own default; with
      optional parameters it is sent. */
  lemma ZeroTemperatureDropped(model: string, messages: seq<WireMessage>, tools: seq<WireTool>, stream: bool)
    ensures var s := Unset.(temperature := Some(0.0));
      && !Sent(BuildRequest(model, messages, tools, s, stream), TemperatureKey)
      && OptionalSent(OptionalRequest(model, messages, tools, s, stream), TemperatureKey)
  {
    var s := Unset.(temperature := Some(0.0));
    SentKeysAsWritten(model, messages, tools, s, stream);
  }
}
