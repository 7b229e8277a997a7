# Rate-My-Professor RAG chat endpoint: a Dafny model

This project models the one piece of logic in the chat endpoint's `POST`
handler (`api/chat/route.js`). The handler takes a conversation and embeds
its last message. It asks a vector index for the three nearest professor
reviews and renders them into a context string. It appends that string to
the last message, sends the conversation with a fixed system prompt to a
chat model, and streams the model's text fragments back as a `text/plain`
response.

The embedding service, the vector index and the chat completion are
parameters of the model. Each is a function from the request the handler
sends to the reply, or to `None` when the call fails. The model has
four parts:

- `Retrieval` renders the matches into the context string. `RenderContext`
  is the handler's append loop. `Context` is its specification: the fixed
  header followed by one `Block` per match, in rank order.
- `Conversation` assembles the outbound message list (`Outbound`). It is
  the system message, then every message but the last one unchanged, then
  a `user` message holding the last content followed by the context.
- `Forwarding` forwards the completion stream. `Start` is the
  `ReadableStream` start callback. It runs over a `Controller` object that
  records what is enqueued, the error the stream was put into and whether
  it was closed. `Forwarded` is its specification.
- `Pipeline` chains the steps. `Post` is the handler and `Respond` the
  function that specifies it.

Two small helper modules support them. `Wrappers` holds `Option` and
`Result`. `Strings` holds concatenation of string lists and its
append lemmas.

Modelling choices:

- The handler's failures are modelled as `Failure` values. The handler
  reads `data[data.length - 1]` before calling any service
  (route.js:41). On an empty conversation that read throws, and the model
  returns `MalformedRequest`.
- With zero matches the context string is exactly the header
  (route.js:54).
- The last outbound message always has role `user`, whatever role the
  original last message had (route.js:72).

## Model

| member | source | states |
|---|---|---|
| `Retrieval.Context` | api/chat/route.js:54-55 | the context always starts with the fixed header, and equals the header when there are no matches |
| `Retrieval.BlockLayout` | api/chat/route.js:56-62 | `Block`, the template literal rendered for one match, holds its id, review, subject and stars, in that order, each after its fixed label; the block's length is the labels plus the four fields |
| `Retrieval.ContextAppend` | api/chat/route.js:55-63 | rendering more matches appends their blocks after the earlier ones: blocks keep the order the index returned |
| `Retrieval.OneBlockPerMatch` | api/chat/route.js:54-63 | the context is the header followed by a list of blocks with exactly one entry per match, the i-th entry being the i-th match's block |
| `Retrieval.BlockAt` | api/chat/route.js:55-63 | the i-th match's block sits right after the context of the matches ranked before it, followed by the blocks of those ranked after it |
| `Retrieval.RenderContext` | api/chat/route.js:54-63 | the append loop over the matches produces exactly `Context(matches)` |
| `Conversation.Outbound` | api/chat/route.js:65-73 | the list has `len(data) + 1` messages; the first is the system prompt with role system; positions 1 to n-1 hold `data[0..n-2]` unchanged and in order; the last has role user and content = last content + context |
| `Conversation.RecoverOutbound` | api/chat/route.js:65-73 | round trip: stripping the system message and the context, and restoring the last role, gives back the original conversation |
| `Conversation.OutboundInjective` | api/chat/route.js:65-73 | for one context, different conversations whose last messages share a role give different outbound lists |
| `Conversation.OutboundExtends` | api/chat/route.js:67-71 | when one more message is added, the outbound list still starts with the system message and the whole earlier conversation |
| `Conversation.AugmentedPrefix` | api/chat/route.js:65-72 | the original last content is a prefix of the augmented content, and what follows it is the context |
| `Forwarding.ContentOf` | api/chat/route.js:83 | reading `choices[0]?.delta?.content` throws exactly when `choices` is missing; content is present exactly when `choices` is non-empty and its first entry has a delta with content, and then it is that delta's content |
| `Forwarding.Fragments` | api/chat/route.js:82-87 | at most one fragment per chunk, and every enqueued fragment is non-empty; each chunk contributes `Fragment`, its content when the `if (content)` test at line 84 passes (present and non-empty) and nothing otherwise |
| `Forwarding.FirstThrow` | api/chat/route.js:82-83 | gives the first chunk whose `choices` access throws; no chunk before it throws |
| `Forwarding.Forwarded` | api/chat/route.js:81-93 | at most one fragment per chunk; the stream ends without error iff no chunk access throws and the iterator does not fail; a throwing chunk puts the stream into a TypeError, otherwise an iterator failure puts it into that failure |
| `Forwarding.FragmentsAppend` | api/chat/route.js:82-88 | fragments keep arrival order: two consecutive runs of chunks forward the first run's fragments, then the second's |
| `Forwarding.FragmentsTranscript` | api/chat/route.js:82-87 | the fragments, concatenated, give the text of all chunks in order; chunks with missing or empty content add nothing |
| `Forwarding.BodyIsTranscript` | api/chat/route.js:81-88 | when no chunk throws, the body as enqueued is the in-order concatenation of all chunk contents |
| `Forwarding.BodyIsTranscriptBeforeThrow` | api/chat/route.js:81-90 | in every case the body as enqueued is the transcript of the chunks that arrived before the first one whose access throws |
| `Forwarding.NoRetraction` | api/chat/route.js:81-90 | a stream that fails after k chunks ends in an error, and what it enqueued is a prefix of what the uninterrupted stream enqueues |
| `Forwarding.ThrowEndsForwarding` | api/chat/route.js:82-90 | once a chunk access throws, later chunks and how the stream would have ended have no effect |
| `Forwarding.HelloWorld` | api/chat/route.js:82-87 | fragments "Hello" and " world" make the body "Hello world", with no error |
| `Forwarding.FailAfterOne` | api/chat/route.js:81-90 | a stream that fails after yielding "Hello" enqueues "Hello" only, then is put into the upstream error |
| `Forwarding.Controller.constructor` | api/chat/route.js:78-79 | a fresh stream controller is empty, not errored and open |
| `Forwarding.Controller.Enqueue` | api/chat/route.js:86 | enqueue appends one chunk and changes nothing else |
| `Forwarding.Controller.Error` | api/chat/route.js:90 | error records the error and changes nothing else |
| `Forwarding.Controller.Close` | api/chat/route.js:92 | close marks the stream closed and keeps what was enqueued |
| `Forwarding.Start` | api/chat/route.js:78-95 | the loop enqueues exactly `Forwarded(completion).enqueued` and sets the stream's error to `Forwarded(completion).error`; the stream is closed at the end in every case |
| `Pipeline.Post` | api/chat/route.js:33-101 | the handler's result is `Respond(...)`, the handler as a function: fail with `MalformedRequest` on an empty conversation, with the failing service's error if embedding, query or completion fails, and otherwise a text/plain response carrying `Forwarded` of the completion; the rendering loop and the forwarding loop compute what their specifications say |
| `Pipeline.EmptyConversationFails` | api/chat/route.js:41 | an empty conversation fails with `MalformedRequest` before any service is called |
| `Pipeline.RespondWiring` | api/chat/route.js:41-76 | the embedding is asked for the last content with the fixed model; the index for the top 3 with metadata; the completion is a streamed request with the assembled list; the response is a text/plain stream of the forwarded outcome, or `CompletionUnavailable` |
| `Pipeline.EarlyServiceFailures` | api/chat/route.js:42-52 | a failed embedding call fails the request with `EmbeddingUnavailable` before the index is queried; a failed index query fails it with `IndexUnavailable` before the completion is requested; neither has a body |
| `Pipeline.ZeroMatchesProceed` | api/chat/route.js:54-76 | with zero matches the last message is augmented with the bare header, and the request still goes on to the completion |

## Left out

- The construction of the Pinecone and OpenAI clients and the API keys read from the environment (lines 35-39). This is library configuration.
- The embedding call and the index query themselves (lines 42-52). They are network calls, so they are parameters of `Post`. The embedding vector is a type parameter `V`, and the model does no floating-point work and no similarity ranking.
- That the index returns at most `topK` matches. This is the index's promise, not the handler's, so the model takes whatever list the index returns.
- How JavaScript turns metadata values into strings inside the template (lines 57-60). `Metadata` holds each field as its already-interpolated text. A missing `metadata` object, which would throw, is not modelled.
- The wording of `systemPrompt` (lines 5-31). `SystemPrompt` is a constant with no fixed value, so every property holds whatever its text is.
- `TextEncoder` and the `ReadableStream`/`NextResponse` machinery, the HTTP headers other than the content type, and `console.log` (lines 78-101). Encoding is modelled as the identity on strings.
- The asynchronous timing of the stream. The handler returns the response before the stream fills. `Post` runs `Start` to completion and returns the final state.
- Forwarding.Controller.Close: the library's behaviour when `close()` runs in `finally` after `error()` is not modelled. `Close` here only marks the stream closed.
- Chunk contents that are present but not strings. `Delta.content` is an optional string, so truthiness reduces to present and non-empty.
- Roles outside system, user and assistant, and extra fields on incoming messages. `Message` has only a role and a content.
- A malformed request body. `req.json()` (route.js:34) can reject, and the model takes `data` as an already-parsed list of messages.
- Forwarding.Controller.Error: the Web Streams standard discards the controller's queue when `error()` is called, so fragments enqueued but not yet read by the HTTP consumer are dropped, and which ones were read depends on timing. The model records every `enqueue` call in `queue` and keeps it after `Error`. `Outcome.enqueued` is what was handed to the stream, not what the client received.
- Consumer cancellation. If the client disconnects, the stream is cancelled, the next `enqueue` throws into the catch at route.js:89, and forwarding stops. The model has no consumer, so this path is not captured.
