/** The full-page assistant chat: a history that starts empty, an input box, and a
    `loading` flag that is set while a question is with the server. */
module Chat {
  import opened Options
  import opened Text
  import opened Endpoints
  import opened Conversation

  const Apology: String := "_Desculpe, ocorreu um erro ao consultar o servidor ou o LLM. Tente novamente._"

  class ChatPage {
    var messages: seq<ChatMessage>
    var input: String
    var loading: bool

    /** Every question but the pending one has its answer, and a question is pending
        exactly while a request is in flight. */
    ghost predicate Valid()
      reads this
    {
      Alternates(messages) && (loading <==> |messages| % 2 == 1)
    }

    constructor()
      ensures Valid()
      ensures messages == [] && input == "" && !loading
    {
      messages := [];
      input := "";
      loading := false;
    }

    /** Typing into the box. */
    method SetInput(text: String)
      modifies this
      ensures input == text && messages == old(messages) && loading == old(loading)
    {
      input := text;
    }

    /** `handleSend` up to the request: returns the request it makes, or `None` when the
        input is blank or a request is pending. The request carries the history as it
        was before the question was appended. */
    method Send() returns (request: Option<Request>)
      requires Valid()
      modifies this
      ensures Valid()
      ensures Accepts(old(input), old(loading)) ==>
        && messages == old(messages) + [Question(old(input))]
        && input == "" && loading
        && request == Some(SendMessage(Trim(old(input)), old(messages)))
      ensures !Accepts(old(input), old(loading)) ==>
        messages == old(messages) && input == old(input) && loading == old(loading) && request == None
    {
      if !Accepts(input, loading) {
        return None;
      }
      var question := Question(input);
      var history := messages;
      AlternatesAppend(messages, question);
      messages := messages + [question];
      input := "";
      loading := true;
      request := Some(SendMessage(question.content, history));
    }

    /** `handleSend` after the request: exactly one answer is appended (the reply, or the
        apology when the request failed) and `loading` ends false. */
    method Finish(reply: Option<String>)
      requires Valid() && loading
      modifies this
      ensures Valid()
      ensures messages == old(messages) + [Answer(reply, Apology)]
      ensures !loading && input == old(input)
    {
      AlternatesAppend(messages, Answer(reply, Apology));
      messages := messages + [Answer(reply, Apology)];
      loading := false;
    }
  }
}
