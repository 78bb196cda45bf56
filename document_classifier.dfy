/**
 * The document classifier (backend/app/detection/document_classifier.py): it
 * picks a text extractor from the file extension, fits the document text into
 * the model's token budget, asks the completion API for a category and, when
 * the API is rate-limited, falls back to the streaming chat client.
 *
 * The tokenizer, the completion API, the HTTP session, the JSON decoder and the
 * extractors are collaborators the classifier holds; each is an abstract function.
 */
module Classification {
  import opened Wrappers
  import opened Strings
  import ProcessorFactory
  import OpenAIChat

  /** The model's tokenizer: `encode` and `decode`, left uninterpreted. */
  datatype Tokenizer = Tokenizer(encode: string -> seq<int>, decode: seq<int> -> string)

  /** One chat message (`{'role': ..., 'content': ...}`). */
  datatype Message = Message(role: string, content: string)

  /** The arguments of `chat.completions.create` that the model keeps. */
  datatype CompletionRequest = CompletionRequest(model: string, messages: seq<Message>, maxTokens: nat)

  /**
   * What `chat.completions.create` does: returns its choices (each choice's
   * `message.content`, which may be `None`), raises `RateLimitError`, or raises
   * any other exception.
   */
  datatype ApiOutcome = Completion(contents: seq<Option<string>>) | RateLimited | ApiError(message: string)

  type CompletionApi = CompletionRequest -> ApiOutcome

  /**
   * What `detect_category` ends with: it returns a category (`None` when the
   * fallback failed), or an exception escapes it.
   */
  datatype Detection = Category(value: Option<string>) | Raised(error: string)

  const ModelMaxTokens: map<string, nat> := map["gpt-4o-mini" := 4096]
  const DefaultMaxTokens: nat := 4096
  const ReservedResponseTokens: nat := 70
  const DefaultModel: string := "gpt-4o-mini"

  const SystemMessage: string := "You are a helpful assistant."
  const UserMessagePrefix: string :=
    "Categorize the following document into one of these categories: "
    + "invoice, contract, report, etc. (in English). "
    + "Reply with the category name only.\n\n"
    + "Document:\n"
  const CategoryCue: string := "\n\nCategory:"

  /** The completion request asks for at most 10 tokens. */
  const PrimaryMaxTokens: nat := 10

  const MissingKeyMessage: string :=
    "OpenAI API key must be provided either as an argument or via the OPENAI_API_KEY environment variable."
  const PromptTooLongMessage: string := "The fixed prompt components exceed the model's maximum token limit."
  /** Reading `category` when no branch assigned it. */
  const UnboundCategory: string := "UnboundLocalError: category"

  function TokenizerMissing(model: string): string {
    "Failed to load tokenizer for model " + model
  }

  /** `MODEL_MAX_TOKENS.get(model, 4096)`: every model, listed or not, gets 4096 tokens. */
  function MaxTokensFor(model: string): (n: nat)
    ensures n == 4096
  {
    if model in ModelMaxTokens then ModelMaxTokens[model] else DefaultMaxTokens
  }

  /**
   * `api_key or os.getenv('OPENAI_API_KEY')`, then the truth test on it: the
   * argument when it is a non-empty string, else the environment's value when
   * that is non-empty, else nothing.
   */
  function ResolveApiKey(apiKey: Option<string>, envApiKey: Option<string>): (r: Option<string>)
    ensures r.Some? ==> r.value != "" && (r == apiKey || r == envApiKey)
    ensures r.None? <==> (apiKey.None? || apiKey.value == "") && (envApiKey.None? || envApiKey.value == "")
    ensures apiKey.Some? && apiKey.value != "" ==> r == apiKey
  {
    if apiKey.Some? && apiKey.value != "" then apiKey
    else if envApiKey.Some? && envApiKey.value != "" then envApiKey
    else None
  }

  function Min(a: nat, b: nat): nat {
    if a <= b then a else b
  }

  /** `tokens[:max_tokens]`: the first `min(len(tokens), max_tokens)` tokens. */
  function TakeTokens(tokens: seq<int>, maxTokens: nat): (r: seq<int>)
    ensures |r| == Min(|tokens|, maxTokens)
    ensures r <= tokens
    ensures |tokens| <= maxTokens ==> r == tokens
  {
    if |tokens| <= maxTokens then tokens else tokens[..maxTokens]
  }

  /** The user message: the fixed prefix, the (truncated) document text, the cue. */
  function UserMessage(truncatedContent: string): (content: string)
    ensures StartsWith(content, UserMessagePrefix) && EndsWith(content, CategoryCue)
    ensures |content| == |UserMessagePrefix| + |truncatedContent| + |CategoryCue|
    ensures content[|UserMessagePrefix|..|content| - |CategoryCue|] == truncatedContent
  {
    var content := UserMessagePrefix + truncatedContent + CategoryCue;
    assert content[..|UserMessagePrefix|] == UserMessagePrefix;
    assert content[|content| - |CategoryCue|..] == CategoryCue;
    assert content[|UserMessagePrefix|..|content| - |CategoryCue|] == truncatedContent;
    content
  }

  /** The user message gives back the text it was built from. */
  lemma UserMessageInjective(a: string, b: string)
    requires UserMessage(a) == UserMessage(b)
    ensures a == b
  {
    var c := UserMessage(a);
    assert a == c[|UserMessagePrefix|..|c| - |CategoryCue|];
  }

  /**
   * The extension `detect_category` dispatches on: `file_name.split('.')[-1].lower()`,
   * the lower-cased text after the last `.`, or the whole lower-cased name when
   * there is no `.`.
   */
  function FileExtension(fileName: string): (ext: string)
    ensures |ext| <= |fileName| && ext == Lower(fileName[|fileName| - |ext|..])
    ensures '.' !in ext
    ensures '.' in fileName ==> |ext| < |fileName| && fileName[|fileName| - |ext| - 1] == '.'
    ensures '.' !in fileName ==> ext == Lower(fileName)
  {
    var segment := LastSegment(fileName, '.');
    var ext := Lower(segment);
    assert forall i :: 0 <= i < |ext| ==> ext[i] != '.' by {
      forall i | 0 <= i < |ext| ensures ext[i] != '.' {
        assert segment[i] in segment;
      }
    }
    ext
  }

  /**
   * A document id is `<uuid>_<name>`: when the name has a `.`, the classifier
   * dispatches on the name's own extension, whatever the prefix.
   */
  lemma DocumentIdExtension(prefix: string, name: string)
    requires '.' in name
    ensures FileExtension(prefix + name) == FileExtension(name)
  {
    LastSegmentOfSuffix(prefix, name, '.');
  }

  /**
   * The category `completion.choices[0].message.content.strip()` yields, or
   * `None` when that raises before `category` is assigned (no choice, or a
   * `None` content). A bound category carries no surrounding white space; an
   * empty one (which the source then raises on, inside the same `try`) stays
   * bound.
   */
  function PrimaryCategory(contents: seq<Option<string>>): (r: Option<string>)
    ensures r.Some? <==> contents != [] && contents[0].Some?
    ensures r.Some? && r.value != [] ==> !IsSpace(r.value[0]) && !IsSpace(r.value[|r.value| - 1])
    ensures r.Some? ==> (r.value == "" <==> forall k :: 0 <= k < |contents[0].value| ==> IsSpace(contents[0].value[k]))
    ensures r.Some? ==> r.value == Strip(contents[0].value)
  {
    if contents != [] && contents[0].Some? then Some(Strip(contents[0].value)) else None
  }

  /** The playground configuration the fallback builds (placeholder credentials). */
  const PlaygroundConfig: OpenAIChat.OpenAIConfig :=
    OpenAIChat.OpenAIConfig("PLAYGROUND API REQUEST", "PLAYGROUND API REQUEST", "PLAYGROUND API REQUEST")

  /** The fallback's streamed payload: the prompt, `gpt-4o-mini`, 10 tokens, streaming on. */
  function PlaygroundPayload(prompt: string): (p: OpenAIChat.ChatPayload)
    ensures p.prompt == prompt && p.model == DefaultModel
    ensures p.maxCompletionTokens == PrimaryMaxTokens && p.stream
  {
    OpenAIChat.ChatPayload(prompt, DefaultModel, 10, true)
  }

  class DocumentClassifier {
    const apiKey: string
    const model: string
    const tokenizer: Tokenizer
    const maxTokensForModel: nat
    const complete: CompletionApi
    const session: OpenAIChat.Session
    const decodeJson: OpenAIChat.JsonDecoder
    const extract: ProcessorFactory.Extractor

    constructor (apiKey: string, model: string, tokenizer: Tokenizer, complete: CompletionApi,
                 session: OpenAIChat.Session, decodeJson: OpenAIChat.JsonDecoder,
                 extract: ProcessorFactory.Extractor)
      ensures this.apiKey == apiKey && this.model == model && this.tokenizer == tokenizer
      ensures maxTokensForModel == MaxTokensFor(model)
      ensures this.complete == complete && this.session == session
      ensures this.decodeJson == decodeJson && this.extract == extract
    {
      this.apiKey := apiKey;
      this.model := model;
      this.tokenizer := tokenizer;
      maxTokensForModel := MaxTokensFor(model);
      this.complete := complete;
      this.session := session;
      this.decodeJson := decodeJson;
      this.extract := extract;
    }

    /**
     * `DocumentClassifier.__init__`: raises when no API key is found, then when no
     * tokenizer is known for the model (`tokenizerFor` stands for
     * `tiktoken.encoding_for_model`); otherwise the limit is the model's.
     */
    static method Create(apiKey: Option<string>, envApiKey: Option<string>, model: string,
                         tokenizerFor: string -> Option<Tokenizer>, complete: CompletionApi,
                         session: OpenAIChat.Session, decodeJson: OpenAIChat.JsonDecoder,
                         extract: ProcessorFactory.Extractor)
      returns (r: Result<DocumentClassifier>)
      ensures ResolveApiKey(apiKey, envApiKey).None? ==> r == Failure(MissingKeyMessage)
      ensures ResolveApiKey(apiKey, envApiKey).Some? && tokenizerFor(model).None?
              ==> r == Failure(TokenizerMissing(model))
      ensures r.Success? <==> ResolveApiKey(apiKey, envApiKey).Some? && tokenizerFor(model).Some?
      ensures r.Success? ==> fresh(r.value)
      ensures r.Success? ==>
        Some(r.value.apiKey) == ResolveApiKey(apiKey, envApiKey) && r.value.model == model
      ensures r.Success? ==>
        Some(r.value.tokenizer) == tokenizerFor(model) && r.value.maxTokensForModel == 4096
      ensures r.Success? ==>
        r.value.complete == complete && r.value.session == session
        && r.value.decodeJson == decodeJson && r.value.extract == extract
    {
      var key := ResolveApiKey(apiKey, envApiKey);
      if key.None? {
        return Failure(MissingKeyMessage);
      }
      var tokenizer := tokenizerFor(model);
      if tokenizer.None? {
        return Failure(TokenizerMissing(model));
      }
      var c := new DocumentClassifier(key.value, model, tokenizer.value, complete, session, decodeJson, extract);
      r := Success(c);
    }

    /**
     * `_truncate_text_to_tokens`: decodes exactly the first `min(len, maxTokens)`
     * tokens of the text's encoding. A text whose encoding fits, and which the
     * tokenizer decodes back to itself, is kept whole.
     */
    function TruncateTextToTokens(text: string, maxTokens: nat): (r: string)
      ensures var tokens := tokenizer.encode(text);
        |tokens| <= maxTokens && tokenizer.decode(tokens) == text ==> r == text
      ensures r == tokenizer.decode(TakeTokens(tokenizer.encode(text), maxTokens))
    {
      var tokens := tokenizer.encode(text);
      tokenizer.decode(TakeTokens(tokens, maxTokens))
    }

    /**
     * The tokens left for the document: the model's limit minus the encoded
     * system message, the encoded prefix and the 70 reserved tokens. It does not
     * depend on the document.
     */
    function AvailableDocumentTokens(): (n: int)
      ensures n + |tokenizer.encode(SystemMessage)| + |tokenizer.encode(UserMessagePrefix)| + ReservedResponseTokens
              == maxTokensForModel
      ensures n <= maxTokensForModel - ReservedResponseTokens
    {
      maxTokensForModel
        - (|tokenizer.encode(SystemMessage)| + |tokenizer.encode(UserMessagePrefix)| + ReservedResponseTokens)
    }

    /**
     * `_build_prompt_messages`: raises `ValueError` when no token is left for the
     * document; otherwise exactly two messages, the fixed system message and a
     * user message made of the prefix, the document truncated to the budget, and
     * the cue.
     */
    function BuildPromptMessages(fileContent: string): (r: Result<seq<Message>>)
      ensures r.Failure? <==> AvailableDocumentTokens() <= 0
      ensures r.Failure? ==> r.error == PromptTooLongMessage
      ensures r.Success? ==>
        |r.value| == 2 && r.value[0] == Message("system", SystemMessage) && r.value[1].role == "user"
      ensures r.Success? ==>
        StartsWith(r.value[1].content, UserMessagePrefix) && EndsWith(r.value[1].content, CategoryCue)
      ensures r.Success? ==>
        r.value[1].content == UserMessage(TruncateTextToTokens(fileContent, AvailableDocumentTokens()))
    {
      var available := AvailableDocumentTokens();
      if available <= 0 then Failure(PromptTooLongMessage)
      else
        var truncated := TruncateTextToTokens(fileContent, available);
        Success([Message("system", SystemMessage), Message("user", UserMessage(truncated))])
    }

    /**
     * The steps of `detect_category` before the API call: the extension picks
     * the processor, the processor extracts the text, the text becomes the
     * prompt. Each step's exception escapes.
     */
    function PromptMessages(fileName: string, content: seq<bv8>): (r: Result<seq<Message>>)
      ensures ProcessorFactory.GetProcessor(FileExtension(fileName)).Failure?
              ==> r == Failure(ProcessorFactory.UnsupportedMessage(FileExtension(fileName)))
      ensures r.Success? ==> FileExtension(fileName) in ProcessorFactory.SupportedExtensions
      ensures r.Success? ==> |r.value| == 2 && r.value[1].role == "user"
      ensures var p := ProcessorFactory.GetProcessor(FileExtension(fileName));
        p.Success? && extract(p.value, content).Failure? ==> r == Failure(extract(p.value, content).error)
      ensures var p := ProcessorFactory.GetProcessor(FileExtension(fileName));
        p.Success? && extract(p.value, content).Success? ==> r == BuildPromptMessages(extract(p.value, content).value)
    {
      var processor := ProcessorFactory.GetProcessor(FileExtension(fileName));
      if processor.Failure? then Failure(processor.error)
      else
        var text := extract(processor.value, content);
        if text.Failure? then Failure(text.error)
        else BuildPromptMessages(text.value)
    }

    /**
     * The response the fallback reads: the playground request posted through
     * the session.
     */
    function PlaygroundResponse(prompt: string): OpenAIChat.HttpResponse {
      session(OpenAIChat.ChatRequest(OpenAIChat.CompletionsUrl(PlaygroundConfig), PlaygroundPayload(prompt)))
    }

    /**
     * What `detect_via_chat_service` returns: `None` when the stream raises,
     * otherwise the streamed fragments joined in order. The result is empty
     * exactly when no fragment was streamed.
     */
    function FallbackCategory(prompt: string): (r: Option<string>)
      ensures var response := PlaygroundResponse(prompt);
        if OpenAIChat.IsHttpError(response.status) then r.None?
        else r.Some? && (r.value == "" <==> OpenAIChat.Fragments(response.lines, decodeJson) == [])
    {
      var response := PlaygroundResponse(prompt);
      if OpenAIChat.IsHttpError(response.status) then None
      else
        var fragments := OpenAIChat.Fragments(response.lines, decodeJson);
        ConcatEmpty(fragments);
        Some(Concat(fragments))
    }

    /**
     * The fallback text follows the stream: when the first lines hold no
     * `[DONE]`, it is their fragments' text followed by the rest's.
     */
    lemma FallbackInLineOrder(prompt: string, first: seq<string>, rest: seq<string>)
      requires PlaygroundResponse(prompt).lines == first + rest
      requires !OpenAIChat.IsHttpError(PlaygroundResponse(prompt).status)
      requires forall i :: 0 <= i < |first| ==> !OpenAIChat.IsDone(first[i])
      ensures FallbackCategory(prompt)
        == Some(Concat(OpenAIChat.Fragments(first, decodeJson)) + Concat(OpenAIChat.Fragments(rest, decodeJson)))
    {
      OpenAIChat.FragmentsInLineOrder(first, rest, decodeJson);
      ConcatAppend(OpenAIChat.Fragments(first, decodeJson), OpenAIChat.Fragments(rest, decodeJson));
    }

    /**
     * `detect_via_chat_service`: streams the prompt through the playground
     * client and appends every fragment to `category`; any exception gives `None`.
     */
    method DetectViaChatService(prompt: string) returns (r: Option<string>)
      ensures r == FallbackCategory(prompt)
    {
      var streamed := OpenAIChat.StreamChatCompletionContent(PlaygroundConfig, PlaygroundPayload(prompt),
                                                             session, decodeJson);
      if streamed.Failure? {
        return None;
      }
      var fragments := streamed.value;
      var category := "";
      var j := 0;
      while j < |fragments|
        invariant 0 <= j <= |fragments|
        invariant category == Concat(fragments[..j])
      {
        assert fragments[..j + 1][..j] == fragments[..j];
        category := category + fragments[j];
        j := j + 1;
      }
      assert fragments[..j] == fragments;
      r := Some(category);
    }

    /**
     * What the `try` of `detect_category` leaves once the prompt is built. A
     * first choice with content gives its stripped text, empty or not (the
     * `raise` on an empty category is caught by the same `try`); a first choice
     * without content, an empty choice list or any failure other than a rate
     * limit leaves `category` unbound, and reading it raises; a rate limit gives
     * the fallback's result for the user message.
     */
    function CategoryFromPrompt(messages: seq<Message>): (r: Detection)
      requires 2 <= |messages|
      ensures var outcome := complete(CompletionRequest(model, messages, PrimaryMaxTokens));
        outcome.Completion? && PrimaryCategory(outcome.contents).Some?
        ==> r == Category(PrimaryCategory(outcome.contents))
      ensures var outcome := complete(CompletionRequest(model, messages, PrimaryMaxTokens));
        outcome.Completion? && PrimaryCategory(outcome.contents).None? ==> r == Raised(UnboundCategory)
      ensures complete(CompletionRequest(model, messages, PrimaryMaxTokens)).RateLimited?
              ==> r == Category(FallbackCategory(messages[1].content))
      ensures complete(CompletionRequest(model, messages, PrimaryMaxTokens)).ApiError?
              ==> r == Raised(UnboundCategory)
    {
      match complete(CompletionRequest(model, messages, PrimaryMaxTokens))
      case Completion(contents) =>
        var category := PrimaryCategory(contents);
        if category.Some? then Category(category) else Raised(UnboundCategory)
      case RateLimited => Category(FallbackCategory(messages[1].content))
      case ApiError(_) => Raised(UnboundCategory)
    }

    /**
     * What `detect_category` ends with. An exception before the API call
     * escapes; after it, the category is chosen as `CategoryFromPrompt` says. A
     * missing category (`None`) comes only from a rate-limited call whose
     * fallback failed.
     */
    function Detect(fileName: string, content: seq<bv8>): (r: Detection)
      ensures ProcessorFactory.GetProcessor(FileExtension(fileName)).Failure?
              ==> r == Raised(ProcessorFactory.UnsupportedMessage(FileExtension(fileName)))
      ensures PromptMessages(fileName, content).Failure? ==> r == Raised(PromptMessages(fileName, content).error)
      ensures var m := PromptMessages(fileName, content);
        m.Success? ==> r == CategoryFromPrompt(m.value)
      ensures var m := PromptMessages(fileName, content);
        m.Success? && complete(CompletionRequest(model, m.value, PrimaryMaxTokens)).RateLimited?
        ==> r == Category(FallbackCategory(m.value[1].content))
      ensures r.Category? && r.value.None? ==> var m := PromptMessages(fileName, content);
        m.Success? && complete(CompletionRequest(model, m.value, PrimaryMaxTokens)).RateLimited?
        && OpenAIChat.IsHttpError(PlaygroundResponse(m.value[1].content).status)
      ensures r.Raised? && PromptMessages(fileName, content).Success? ==> r.error == UnboundCategory
    {
      var messages := PromptMessages(fileName, content);
      if messages.Failure? then Raised(messages.error) else CategoryFromPrompt(messages.value)
    }

    /** `detect_category`: the extension, the processor, the text and the prompt, then the API call. */
    method DetectCategory(fileName: string, content: seq<bv8>) returns (r: Detection)
      ensures r == Detect(fileName, content)
    {
      var fileExtension := FileExtension(fileName);
      var processor := ProcessorFactory.GetProcessor(fileExtension);
      if processor.Failure? {
        return Raised(processor.error);
      }
      var fileContent := extract(processor.value, content);
      if fileContent.Failure? {
        return Raised(fileContent.error);
      }
      var messages := BuildPromptMessages(fileContent.value);
      if messages.Failure? {
        return Raised(messages.error);
      }
      r := AskForCategory(messages.value);
    }

    /** The `try` of `detect_category`, with `category` assigned (or not) across its branches. */
    method AskForCategory(messages: seq<Message>) returns (r: Detection)
      requires 2 <= |messages|
      ensures r == CategoryFromPrompt(messages)
    {
      var prompt := messages[1].content;
      var category: Option<Option<string>> := None;
      var outcome := complete(CompletionRequest(model, messages, PrimaryMaxTokens));
      match outcome {
        case Completion(contents) =>
          if contents != [] && contents[0].Some? {
            category := Some(Some(Strip(contents[0].value)));
          }
        case RateLimited =>
          var fallback := DetectViaChatService(prompt);
          category := Some(fallback);
        case ApiError(_) =>
      }
      if category.None? {
        return Raised(UnboundCategory);
      }
      r := Category(category.value);
    }
  }
}
