/** Values shared by both services: optional and fallible results, the request
    body, the HTTP responses the endpoints produce and the non-streaming agent result. */
module Common {

  datatype Option<+T> = None | Some(value: T)

  datatype Result<+T, +E> = Success(value: T) | Failure(error: E)

  /** The JSON body of POST /carbon and POST /carbon-streaming. */
  datatype PromptRequest = PromptRequest(prompt: string, userId: string, sessionId: string)

  /** What an endpoint hands back to the host framework: a plain-text body, a JSON
      object `{"detail": ...}` with a status, or a 200 text/plain body streamed chunk by chunk. */
  datatype Response =
    | PlainText(status: int, body: string)
    | JsonDetail(status: int, detail: string)
    | Streamed(chunks: seq<string>)
  {
    function Status(): (s: int) {
      if Streamed? then 200 else status
    }
  }

  /** One entry of the agent message's `content` list; `text` is None when the entry has no `text` key. */
  datatype ContentBlock = ContentBlock(text: Option<string>)

  /** The result of a blocking agent call. `content` is None when the message or its
      `content` key is missing; `rendering` is the library's `str()` of the whole result. */
  datatype AgentResult = AgentResult(content: Option<seq<ContentBlock>>, rendering: string)
}
