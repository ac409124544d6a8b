/**
  The chat panel's message list: the greeting that opens a conversation about the current
  story, and `handleSendMessage`, which appends the user's turn, asks the service and then
  appends the reply or rolls the turn back. The service's answer and the clock are
  parameters.
*/
module ChatInterface {
  import opened Wrappers
  import opened Text
  import opened Lists
  import opened Asi1Service

  /** A displayed message: a chat turn with its id and timestamp. */
  datatype ChatMessage = ChatMessage(id: string, role: Role, content: string, timestamp: nat)

  const GreetingLead: string :=
    "I'm your story writing assistant! I can help you refine, expand, or modify your story. Here's what we're working with:\n\n"
  const GreetingTail: string := "...\n\nWhat would you like to do next?"
  const ExcerptLength: nat := 200
  const SendFailedText: string := "Failed to send message"

  /** `storyContent.substring(0, 200)`. */
  function Excerpt(story: string): (e: string)
    ensures |e| == Min(|story|, ExcerptLength) && e <= story
  {
    story[..Min(|story|, ExcerptLength)]
  }

  function GreetingText(story: string): string {
    GreetingLead + Excerpt(story) + GreetingTail
  }

  /** The greeting quotes the first 200 characters of the story right after its lead-in. */
  lemma GreetingQuotesStory(story: string)
    ensures GreetingLead <= GreetingText(story)
    ensures GreetingText(story)[|GreetingLead|..|GreetingLead| + |Excerpt(story)|] == Excerpt(story)
    ensures |story| <= ExcerptLength ==> Contains(GreetingText(story), story)
  {
    var g := GreetingText(story);
    var e := Excerpt(story);
    assert g == GreetingLead + e + GreetingTail;
    assert g[|GreetingLead|..|GreetingLead| + |e|] == e;
    if |story| <= ExcerptLength {
      assert e == story;
      assert OccursAt(g, story, |GreetingLead|);
    }
  }

  /** `messages.map((msg) => ({ role: msg.role, content: msg.content }))`. */
  function Conversation(ms: seq<ChatMessage>): (r: seq<Asi1Message>)
    ensures |r| == |ms|
    ensures forall i :: 0 <= i < |ms| ==> r[i] == Asi1Message(ms[i].role, ms[i].content)
  {
    seq(|ms|, i requires 0 <= i < |ms| => Asi1Message(ms[i].role, ms[i].content))
  }

  /** The conversation of a longer list extends the conversation of the shorter one. */
  lemma ConversationConcat(a: seq<ChatMessage>, b: seq<ChatMessage>)
    ensures Conversation(a + b) == Conversation(a) + Conversation(b)
  {
  }

  /** The service sends exactly the panel's list with the new user turn appended. */
  lemma ServiceSeesPanel(ms: seq<ChatMessage>, userTurn: ChatMessage)
    requires userTurn.role == User
    ensures ChatPayload(Conversation(ms), userTurn.content) == Conversation(ms + [userTurn])
  {
    ConversationConcat(ms, [userTurn]);
  }

  class ChatPanel {
    var messages: seq<ChatMessage>
    var input: string
    var isLoading: bool
    var error: string

    constructor ()
      ensures messages == [] && input == "" && !isLoading && error == ""
    {
      messages := [];
      input := "";
      isLoading := false;
      error := "";
    }

    /** The greeting effect: on opening an empty panel about a non-empty story, greet with
        an excerpt of it. */
    method InitGreeting(isOpen: bool, storyContent: Option<string>, now: nat)
      modifies this
      ensures var greet := isOpen && old(messages) == [] && storyContent.Some? && storyContent.value != "";
        && (greet ==> messages == [ChatMessage("0", Assistant, GreetingText(storyContent.value), now)])
        && (!greet ==> messages == old(messages))
      ensures input == old(input) && isLoading == old(isLoading) && error == old(error)
    {
      if isOpen && |messages| == 0 && storyContent.Some? && storyContent.value != "" {
        messages := [ChatMessage("0", Assistant, GreetingText(storyContent.value), now)];
      }
    }

    /** `handleSendMessage`: returns the conversation handed to the service with the user's
        text, or `None` when the send is refused. */
    method HandleSendMessage(reply: Result<string, Thrown>, sentAt: nat, repliedAt: nat)
      returns (sent: Option<(seq<Asi1Message>, string)>)
      modifies this
      ensures AllSpace(old(input)) || old(isLoading) ==>
        sent.None? && messages == old(messages) && input == old(input) && isLoading == old(isLoading) && error == old(error)
      ensures !(AllSpace(old(input)) || old(isLoading)) ==>
        var userTurn := ChatMessage(NatToString(sentAt), User, old(input), sentAt);
        && sent == Some((Conversation(old(messages)), old(input)))
        && input == "" && !isLoading
        && (reply.Ok? ==>
              messages == old(messages) + [userTurn, ChatMessage(NatToString(repliedAt), Assistant, reply.value, repliedAt)]
              && error == "")
        && (reply.Err? ==> messages == old(messages) && error == MessageOr(reply.error, SendFailedText))
    {
      // `!input.trim()`: the input is empty once trimmed exactly when it is all whitespace
      if AllSpace(input) || isLoading {
        return None;
      }
      error := "";
      var userMessage := ChatMessage(NatToString(sentAt), User, input, sentAt);
      var before := messages;
      messages := messages + [userMessage];
      var text := input;
      input := "";
      isLoading := true;
      sent := Some((Conversation(before), text));
      match reply {
        case Ok(response) =>
          var assistantMessage := ChatMessage(NatToString(repliedAt), Assistant, response, repliedAt);
          messages := messages + [assistantMessage];
          assert messages == before + [userMessage, assistantMessage];
        case Err(e) =>
          error := MessageOr(e, SendFailedText);
          messages := messages[..|messages| - 1];
          assert messages == before;
      }
      isLoading := false;
    }
  }
}
