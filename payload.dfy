/** The provider-independent payload types (internal/payload/payload.go):
    what the history stores and what a completion client hands back. */
module Payload {
  import opened Base

  /** One message of a conversation. The roles the session writes are
      "system" and "user"; a reply carries whatever role the provider sent. */
  datatype Message = Message(role: string, content: string)

  /** A structured-output schema: its name and the raw JSON text of the
      schema (`*json.RawMessage`, which may itself be nil). */
  datatype JsonSchema = JsonSchema(name: string, schema: Option<string>)

  /** A completion request: the model, the conversation so far and an
      optional schema (the History embeds exactly this record). */
  datatype Request = Request(model: string, messages: seq<Message>, jsonSchema: Option<JsonSchema>)

  /** What a client returns for one completion call or one streamed event. */
  datatype Response = Response(message: Message)
}
