/** The chat session: the message list, the conversation context and the
    loading flag. A submission appends the user's message and starts the
    pending reply; completion appends the assistant's reply and ends it. The
    simulated delay between the two is not modelled: `Complete` is the
    timer's callback. */
module Dialogue {
  import opened Text
  import opened Resolver

  /** The component's sender tags 'user' and 'ai'. */
  datatype Sender = User | Ai

  datatype Message = Message(text: string, sender: Sender)

  /** The assistant's opening message. */
  const WelcomeText: string :=
    "Namaste! I'm VrikshaVed AI 🌿\n" +
    "I can help you with:\n" +
    "• Plant care & growing tips\n" +
    "• Medicinal benefits\n" +
    "• Export business guidance\n" +
    "• Market insights\n" +
    "\n" +
    "What would you like to know?"

  /** The shape every message list of a session has: the welcome first, then
      user and assistant messages taking turns, so that the list ends with a
      user message exactly while that message awaits its reply. */
  predicate Alternating(messages: seq<Message>, loading: bool)
  {
    && |messages| > 0
    && messages[0] == Message(WelcomeText, Ai)
    && (forall k :: 0 <= k < |messages| ==> messages[k].sender == (if k % 2 == 0 then Ai else User))
    && (loading <==> |messages| % 2 == 0)
  }

  /** The assistant component's state. `pendingQuery` is the text the
      scheduled reply will answer: the input the timer's closure captured. */
  class Session {
    var messages: seq<Message>
    var context: Topic
    var isLoading: bool
    var pendingQuery: string

    /** The messages alternate as described above, and while a reply is
        pending the last message is the pending text. */
    ghost predicate Valid()
      reads this
    {
      && Alternating(messages, isLoading)
      && (isLoading ==> messages[|messages| - 1] == Message(pendingQuery, User))
    }

    /** A new session holds only the welcome message, has no context and is
        not loading. */
    constructor ()
      ensures Valid()
      ensures messages == [Message(WelcomeText, Ai)] && context == NoTopic && !isLoading
    {
      messages := [Message(WelcomeText, Ai)];
      context := NoTopic;
      isLoading := false;
      pendingQuery := "";
    }

    /** Sending: a blank input, or any input while a reply is pending, changes
        nothing; otherwise the raw, untrimmed input becomes a user message and
        its reply is pending. */
    method Submit(input: string)
      requires Valid()
      modifies this
      ensures Valid()
      ensures Trim(input) == "" || old(isLoading) ==>
                messages == old(messages) && context == old(context) && isLoading == old(isLoading)
                && pendingQuery == old(pendingQuery)
      ensures !(Trim(input) == "" || old(isLoading)) ==>
                messages == old(messages) + [Message(input, User)] && context == old(context)
                && isLoading && pendingQuery == input
    {
      if Trim(input) == "" || isLoading {
        return;
      }
      ghost var before := messages;
      messages := messages + [Message(input, User)];
      assert messages[..|before|] == before;
      pendingQuery := input;
      isLoading := true;
    }

    /** The timer's callback: the reply to the pending text, computed from
        that same raw text and the current context, is appended as an
        assistant message; the context moves on as the resolver says, never
        back to the empty context; the session stops loading. */
    method Complete()
      requires Valid() && isLoading
      modifies this
      ensures Valid()
      ensures var response := Resolve(old(pendingQuery), old(context));
        && messages == old(messages) + [Message(Render(response.reply), Ai)]
        && context == response.context
        && !isLoading
        && pendingQuery == old(pendingQuery)
      ensures old(context) != NoTopic ==> context != NoTopic
    {
      var response := Resolve(pendingQuery, context);
      ResolveNeverResets(pendingQuery, context);
      messages := messages + [Message(Render(response.reply), Ai)];
      context := response.context;
      isLoading := false;
    }
  }
}
