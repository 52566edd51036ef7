/** The completion-client interface (internal/llm/client.go), as data.
    A client is the pair of answers it gives to every request. */
module Llm {
  import opened Base
  import opened Payload

  /** What a streamed completion does: the callback is invoked with `events`
      in this order, and then the call returns `err`. */
  datatype StreamReply = StreamReply(events: seq<Response>, err: Option<Error>)

  /** `ChatCompletion` and `ChatCompletionStream` of an LLMClient. */
  datatype Client = Client(
    chatCompletion: Request -> Result<Response>,
    chatCompletionStream: Request -> StreamReply)
}
