/** The chat panel of a contestation. Its history and the `initialized` flag belong to the
    page (a `ChatStore` the panel writes through); the panel itself holds only `open`,
    the input text and `loading`, which start afresh whenever the panel is mounted. */
module MiniChat {
  import opened Options
  import opened Text
  import opened Endpoints
  import opened Conversation

  const Greeting: String :=
    "\U{1F4C4} Olá! Estou pronto para responder suas perguntas sobre a contestação gerada. O que gostaria de saber?"
  const Apology: String := "_Desculpe, ocorreu um erro ao processar sua pergunta. Tente novamente._"

  /** The chat state lifted into the page, shared by every panel the page mounts. */
  class ChatStore {
    var messages: seq<ChatMessage>
    var initialized: bool

    constructor()
      ensures messages == [] && !initialized
    {
      messages := [];
      initialized := false;
    }
  }

  /** The assistant's first message: the strategic report when there is one, the greeting
      otherwise. */
  function Opening(reportText: Option<String>): (m: ChatMessage)
    ensures m.role == Assistant
    ensures Truthy(reportText) ==> m.content == reportText.value
    ensures !Truthy(reportText) ==> m.content == Greeting
  {
    ChatMessage(Assistant, OrElse(reportText, Greeting))
  }

  /** One mounted panel: inline in the split view, or a floating button with a popup. */
  class Panel {
    const contestationId: int
    const reportText: Option<String>
    const inline: bool
    const store: ChatStore
    var open: bool
    var input: String
    var loading: bool

    constructor(contestationId: int, reportText: Option<String>, inline: bool, store: ChatStore)
      ensures this.contestationId == contestationId && this.reportText == reportText
      ensures this.inline == inline && this.store == store
      ensures !open && input == "" && !loading
    {
      this.contestationId := contestationId;
      this.reportText := reportText;
      this.inline := inline;
      this.store := store;
      open := false;
      input := "";
      loading := false;
    }

    /** An inline panel is always on screen; a floating one only while it is open. */
    function Visible(): (b: bool)
      reads this
      ensures inline ==> b
      ensures !inline ==> (b <==> open)
    {
      inline || open
    }

    /** The seeding effect: the first time a panel is visible, the shared history becomes
        the single opening message and `initialized` is set; afterwards it never runs. */
    method Seed()
      modifies store
      ensures !old(store.initialized) && Visible() ==>
        store.messages == [Opening(reportText)] && store.initialized
      ensures old(store.initialized) || !Visible() ==>
        store.messages == old(store.messages) && store.initialized == old(store.initialized)
    {
      if !store.initialized && (inline || open) {
        store.messages := [Opening(reportText)];
        store.initialized := true;
      }
    }

    /** The floating button flips `open`; the seeding effect then runs again. */
    method ToggleOpen()
      modifies this, store
      ensures open == !old(open) && input == old(input) && loading == old(loading)
      ensures !old(store.initialized) && Visible() ==>
        store.messages == [Opening(reportText)] && store.initialized
      ensures old(store.initialized) || !Visible() ==>
        store.messages == old(store.messages) && store.initialized == old(store.initialized)
    {
      open := !open;
      Seed();
    }

    /** The close button of the popup. */
    method Close()
      modifies this, store
      ensures !open && input == old(input) && loading == old(loading)
      ensures !old(store.initialized) && inline ==>
        store.messages == [Opening(reportText)] && store.initialized
      ensures old(store.initialized) || !inline ==>
        store.messages == old(store.messages) && store.initialized == old(store.initialized)
    {
      open := false;
      Seed();
    }

    method SetInput(text: String)
      modifies this
      ensures input == text && open == old(open) && loading == old(loading)
    {
      input := text;
    }

    /** `handleSend` up to the request. */
    method Send() returns (request: Option<Request>)
      modifies this, store
      ensures open == old(open) && store.initialized == old(store.initialized)
      ensures Accepts(old(input), old(loading)) ==>
        && store.messages == old(store.messages) + [Question(old(input))]
        && input == "" && loading
        && request == Some(SendContestationMessage(contestationId, Trim(old(input)), old(store.messages)))
      ensures !Accepts(old(input), old(loading)) ==>
        && store.messages == old(store.messages) && input == old(input) && loading == old(loading)
        && request == None
    {
      if !Accepts(input, loading) {
        return None;
      }
      var question := Question(input);
      var history := store.messages;
      store.messages := store.messages + [question];
      input := "";
      loading := true;
      request := Some(SendContestationMessage(contestationId, question.content, history));
    }

    /** `handleSend` after the request. The answer goes to the shared history through the
        page's setter, so it arrives even if this panel has been replaced meanwhile. */
    method Finish(reply: Option<String>)
      requires loading
      modifies this, store
      ensures store.messages == old(store.messages) + [Answer(reply, Apology)]
      ensures store.initialized == old(store.initialized)
      ensures !loading && open == old(open) && input == old(input)
    {
      store.messages := store.messages + [Answer(reply, Apology)];
      loading := false;
    }
  }
}
