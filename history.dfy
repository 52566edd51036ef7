/** The conversation log (history.go): an append-only sequence of messages
    tagged with the model it was started for. */
module History {
  import opened Base
  import opened Payload

  class History {
    var model: string
    var messages: seq<Message>
    var jsonSchema: Option<JsonSchema>

    /** The embedded `*payload.Request` that the history is, as a value. */
    function AsRequest(): (r: Request)
      reads this
      ensures r.model == model && r.messages == messages && r.jsonSchema == jsonSchema
    {
      Request(model, messages, jsonSchema)
    }

    /** NewHistory: a history for `model` with no messages and no schema. */
    constructor (model: string)
      ensures this.model == model && messages == [] && jsonSchema == None
    {
      this.model := model;
      messages := [];
      jsonSchema := None;
    }

    /** A session is new exactly when nothing has been logged yet. */
    predicate IsNewSession()
      reads this
      ensures IsNewSession() <==> messages == []
    {
      |messages| == 0
    }

    /** Appends one message; what was logged before, the model and the
        schema stay as they were. */
    method AddMessage(role: string, content: string)
      modifies this
      ensures messages == old(messages) + [Message(role, content)]
      ensures |messages| == |old(messages)| + 1 && messages[..|old(messages)|] == old(messages)
      ensures model == old(model) && jsonSchema == old(jsonSchema)
    {
      messages := messages + [Message(role, content)];
    }
  }

  /** The scenario of history_test.go: a fresh history is new, and after one
      `AddMessage` it no longer is. */
  method NewSessionScenario() returns (newBefore: bool, newAfter: bool)
    ensures newBefore && !newAfter
  {
    var hist := new History("");
    newBefore := hist.IsNewSession();
    hist.AddMessage("", "");
    newAfter := hist.IsNewSession();
  }
}
