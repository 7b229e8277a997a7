/** The POST handler end to end: embed the last message, query the vector
    index, render the context, assemble the outbound conversation, request
    a streamed completion and forward it. The three external services are
    parameters: each maps the request the handler sends to its reply, or to
    None when the call fails. */
module Pipeline {
  import opened Wrappers
  import opened Retrieval
  import opened Conversation
  import opened Forwarding

  const EmbeddingModel: string := "text-embedding-3-small"
  const EncodingFormat: string := "float"
  const CompletionModel: string := "gpt-4o-mini"
  const TopK: nat := 3
  const ContentType: string := "text/plain"

  datatype EmbeddingRequest = EmbeddingRequest(model: string, input: string, encodingFormat: string)

  /** A nearest-neighbour query; `V` stands for the embedding vector. */
  datatype QueryRequest<V> = QueryRequest(topK: nat, includeMetadata: bool, vector: V)

  datatype CompletionRequest = CompletionRequest(messages: seq<Message>, model: string, stream: bool)

  /** Why the handler fails before any response is produced. */
  datatype Failure =
    | MalformedRequest       // `data[data.length - 1]` on an empty conversation
    | EmbeddingUnavailable
    | IndexUnavailable
    | CompletionUnavailable

  datatype Response = Response(contentType: string, body: Outcome)

  /** The request for the streamed completion, given the conversation and
      the matches the index returned. */
  function CompletionRequestFor(data: seq<Message>, matches: seq<Match>): CompletionRequest
    requires |data| > 0
  {
    CompletionRequest(Outbound(data, Context(matches)), CompletionModel, true)
  }

  /** What the handler answers, as a function of the conversation and of the
      three services' replies. */
  function Respond<V>(
    data: seq<Message>,
    embed: EmbeddingRequest -> Option<V>,
    query: QueryRequest<V> -> Option<seq<Match>>,
    complete: CompletionRequest -> Option<Completion>): Result<Response, Failure>
  {
    if |data| == 0 then Failure(MalformedRequest)
    else
      match embed(EmbeddingRequest(EmbeddingModel, data[|data| - 1].content, EncodingFormat))
      case None => Failure(EmbeddingUnavailable)
      case Some(vector) =>
        match query(QueryRequest(TopK, true, vector))
        case None => Failure(IndexUnavailable)
        case Some(matches) =>
          match complete(CompletionRequestFor(data, matches))
          case None => Failure(CompletionUnavailable)
          case Some(completion) => Success(Response(ContentType, Forwarded(completion)))
  }

  /** The handler: the same steps in the same order, with the context built
      by the rendering loop and the body produced by the forwarding loop. */
  method Post<V>(
    data: seq<Message>,
    embed: EmbeddingRequest -> Option<V>,
    query: QueryRequest<V> -> Option<seq<Match>>,
    complete: CompletionRequest -> Option<Completion>) returns (r: Result<Response, Failure>)
    ensures r == Respond(data, embed, query, complete)
  {
    if |data| == 0 {
      return Failure(MalformedRequest);
    }
    var text := data[|data| - 1].content;
    var embedding := embed(EmbeddingRequest(EmbeddingModel, text, EncodingFormat));
    if embedding.None? {
      return Failure(EmbeddingUnavailable);
    }
    var results := query(QueryRequest(TopK, true, embedding.value));
    if results.None? {
      return Failure(IndexUnavailable);
    }
    var resultString := RenderContext(results.value);
    var messages := Outbound(data, resultString);
    var completion := complete(CompletionRequest(messages, CompletionModel, true));
    if completion.None? {
      return Failure(CompletionUnavailable);
    }
    var controller := new Controller();
    Start(controller, completion.value);
    return Success(Response(ContentType, Outcome(controller.queue, controller.error)));
  }

  /** An empty conversation fails before any service is called. */
  lemma EmptyConversationFails<V>(
    embed: EmbeddingRequest -> Option<V>,
    query: QueryRequest<V> -> Option<seq<Match>>,
    complete: CompletionRequest -> Option<Completion>)
    ensures Respond([], embed, query, complete) == Failure(MalformedRequest)
  {
  }

  /** When the three services answer, the embedding is asked for the last
      message's content, the index for the top 3 matches with metadata, and
      the completion for the assembled conversation; the response is a
      text/plain stream carrying what forwarding that completion yields,
      or the request fails with no body when the completion does not answer. */
  lemma RespondWiring<V>(
    data: seq<Message>,
    embed: EmbeddingRequest -> Option<V>,
    query: QueryRequest<V> -> Option<seq<Match>>,
    complete: CompletionRequest -> Option<Completion>,
    vector: V, matches: seq<Match>)
    requires |data| > 0
    requires embed(EmbeddingRequest(EmbeddingModel, data[|data| - 1].content, EncodingFormat)) == Some(vector)
    requires query(QueryRequest(TopK, true, vector)) == Some(matches)
    ensures var request := CompletionRequestFor(data, matches);
      && |request.messages| == |data| + 1
      && request.messages[0] == SystemMessage
      && request.messages[1..|data|] == data[..|data| - 1]
      && request.messages[|data|] == Message(User, data[|data| - 1].content + Context(matches))
      && request.stream
      && Respond(data, embed, query, complete) ==
           match complete(request)
           case None => Failure(CompletionUnavailable)
           case Some(completion) => Success(Response(ContentType, Forwarded(completion)))
  {
  }

  /** A failed embedding call aborts before the index is queried, and a
      failed index query aborts before the completion is requested; either
      way the request fails with no body. */
  lemma EarlyServiceFailures<V>(
    data: seq<Message>,
    embed: EmbeddingRequest -> Option<V>,
    query: QueryRequest<V> -> Option<seq<Match>>,
    complete: CompletionRequest -> Option<Completion>,
    vector: V)
    requires |data| > 0
    ensures embed(EmbeddingRequest(EmbeddingModel, data[|data| - 1].content, EncodingFormat)) == None ==>
      Respond(data, embed, query, complete) == Failure(EmbeddingUnavailable)
    ensures (&& embed(EmbeddingRequest(EmbeddingModel, data[|data| - 1].content, EncodingFormat)) == Some(vector)
             && query(QueryRequest(TopK, true, vector)) == None) ==>
      Respond(data, embed, query, complete) == Failure(IndexUnavailable)
  {
  }

  /** With zero matches the last message is augmented with the bare header
      and the request still goes on to the completion service. */
  lemma ZeroMatchesProceed<V>(
    data: seq<Message>,
    embed: EmbeddingRequest -> Option<V>,
    query: QueryRequest<V> -> Option<seq<Match>>,
    complete: CompletionRequest -> Option<Completion>,
    vector: V, completion: Completion)
    requires |data| > 0
    requires embed(EmbeddingRequest(EmbeddingModel, data[|data| - 1].content, EncodingFormat)) == Some(vector)
    requires query(QueryRequest(TopK, true, vector)) == Some([])
    requires complete(CompletionRequestFor(data, [])) == Some(completion)
    ensures CompletionRequestFor(data, []).messages[|data|].content == data[|data| - 1].content + Header
    ensures Respond(data, embed, query, complete) == Success(Response(ContentType, Forwarded(completion)))
  {
  }
}
