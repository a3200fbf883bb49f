/** The chat input box: its submit guard, the send, and clearing the prompt afterwards. */
module ChatInput {
  import opened Types
  import opened Strings
  import Api
  import opened Page

  /** The send button is disabled, and `handleSubmit` returns early, when the prompt is blank or a
      request is in flight. */
  predicate SendDisabled(prompt: string, isLoading: bool)
  {
    IsBlank(prompt) || isLoading
  }

  /** A prompt of spaces, tabs and newlines is never sent, whatever the loading flag says. */
  lemma WhitespacePromptNotSent(prompt: string, isLoading: bool)
    requires AllWhitespace(prompt)
    ensures SendDisabled(prompt, isLoading)
  {
    BlankIff(prompt);
  }

  /** A prompt with any visible character is sent exactly when no request is in flight. */
  lemma VisiblePromptSent(prompt: string, isLoading: bool, k: nat)
    requires k < |prompt| && !IsWhitespace(prompt[k])
    ensures SendDisabled(prompt, isLoading) <==> isLoading
  {
    BlankIff(prompt);
  }

  /** `handleSubmit`: send the prompt as typed, with role `user`, then clear the input. Since
      `sendMessageToApi` catches every failure, the input is cleared whatever the outcome. */
  method HandleSubmit(home: Home, now: int, later: int, outcome: Api.Outcome, replyId: int) returns (sent: bool)
    requires home.Valid()
    modifies home, home.conversation
    ensures home.Valid()
    ensures sent == !SendDisabled(old(home.prompt), old(home.conversation.isLoading))
    ensures !sent ==> unchanged(home) && unchanged(home.conversation)
    ensures sent ==>
      home.conversation.messages
        == Api.Settled(Api.Started(old(home.conversation.messages), old(home.prompt), User, now, later), outcome, replyId)
      && !home.conversation.isLoading && home.prompt == ""
    ensures home.isDecidingMode == old(home.isDecidingMode) && home.numberOfOptions == old(home.numberOfOptions)
    ensures home.decisionOptions == old(home.decisionOptions) && home.decisionContext == old(home.decisionContext)
  {
    if IsBlank(home.prompt) || home.conversation.isLoading {
      return false;
    }
    home.conversation.SendMessageToApi(home.prompt, User, now, later, outcome, replyId);
    home.prompt := "";
    sent := true;
  }
}
