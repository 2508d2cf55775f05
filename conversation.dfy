/** What the two chat components have in common: when a send is accepted, the message it
    appends, the reply it appends when the request ends, and the shape of a history in
    which every question has been answered. */
module Conversation {
  import opened Options
  import opened Text
  import opened Endpoints

  /** `!input.trim() || loading` does not hold: there is something to send and no request
      is pending. */
  predicate Accepts(input: String, loading: bool)
    ensures Accepts(input, loading) <==> !IsBlank(input) && !loading
  {
    Trim(input) != [] && !loading
  }

  /** `{ role: 'user', content: input.trim() }`. */
  function Question(input: String): (m: ChatMessage)
    ensures m.role == User && m.content == Trim(input)
  {
    ChatMessage(User, Trim(input))
  }

  /** The assistant message appended when the request ends: the reply when it succeeded,
      the component's fixed apology when it failed. */
  function Answer(reply: Option<String>, apology: String): (m: ChatMessage)
    ensures m.role == Assistant
    ensures reply.Some? ==> m.content == reply.value
    ensures reply.None? ==> m.content == apology
  {
    ChatMessage(Assistant, reply.GetOr(apology))
  }

  /** Questions and answers alternate, starting with a question. */
  ghost predicate Alternates(history: seq<ChatMessage>) {
    forall i | 0 <= i < |history| :: history[i].role == (if i % 2 == 0 then User else Assistant)
  }

  /** Appending the next expected message keeps the alternation and flips the parity of
      the length, which says whether a question is waiting for its answer. */
  lemma AlternatesAppend(history: seq<ChatMessage>, m: ChatMessage)
    requires Alternates(history)
    requires m.role == (if |history| % 2 == 0 then User else Assistant)
    ensures Alternates(history + [m])
    ensures (|history + [m]| % 2 == 1) <==> (|history| % 2 == 0)
  {
    var h := history + [m];
    forall i | 0 <= i < |h| ensures h[i].role == (if i % 2 == 0 then User else Assistant) {
      if i < |history| {
        assert h[i] == history[i];
      }
    }
  }
}
