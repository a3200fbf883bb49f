/** The state of the `Home` page: the conversation, the chat prompt and the decision helper's form. */
module Page {
  import opened Types
  import Api

  /** `Array(n).fill('')`. */
  function EmptyOptions(n: nat): (r: seq<string>)
    ensures |r| == n
    ensures forall i :: 0 <= i < n ==> r[i] == ""
  {
    seq(n, _ => "")
  }

  /** The hint shown in place of the transcript: only with no messages, no request in flight and
      the decision helper closed. */
  predicate ShowsEmptyHint(messages: seq<Message>, isLoading: bool, isDecidingMode: bool)
  {
    |messages| == 0 && !isLoading && !isDecidingMode
  }

  /** Once a submission has settled the transcript is non-empty, so the hint is hidden. */
  lemma HintHiddenAfterSettle(prev: seq<Message>, outcome: Api.Outcome, replyId: int,
                              isLoading: bool, isDecidingMode: bool)
    ensures !ShowsEmptyHint(Api.Settled(prev, outcome, replyId), isLoading, isDecidingMode)
  {
    Api.SettledShape(prev, outcome, replyId);
  }

  class Home {
    var prompt: string
    const conversation: Api.Conversation
    var isDecidingMode: bool
    var numberOfOptions: nat
    var decisionOptions: seq<string>
    var decisionContext: string

    /** The option list always has one entry per selected option, and the count is one the
        selector offers. */
    ghost predicate Valid()
      reads this
    {
      2 <= numberOfOptions <= MAX_OPTIONS && |decisionOptions| == numberOfOptions
    }

    /** The initial state of every `useState`, after the mount-time run of the reset effect. */
    constructor ()
      ensures Valid() && fresh(conversation)
      ensures conversation.messages == [] && !conversation.isLoading && prompt == ""
      ensures !isDecidingMode && numberOfOptions == 2 && decisionOptions == ["", ""]
      ensures decisionContext == ""
      ensures ShowsEmptyHint(conversation.messages, conversation.isLoading, isDecidingMode)
    {
      prompt := "";
      conversation := new Api.Conversation();
      isDecidingMode := false;
      numberOfOptions := 2;
      decisionOptions := EmptyOptions(2);
      decisionContext := "";
    }

    /** `setNumberOfOptions(n)` followed by the effect on `[numberOfOptions]`: a new count replaces
        the options with that many empty strings; setting the same count changes nothing. */
    method SetNumberOfOptions(n: nat)
      requires Valid()
      requires 2 <= n <= MAX_OPTIONS
      modifies this
      ensures Valid()
      ensures numberOfOptions == n
      ensures decisionOptions == if n != old(numberOfOptions) then EmptyOptions(n) else old(decisionOptions)
      ensures prompt == old(prompt) && isDecidingMode == old(isDecidingMode)
      ensures decisionContext == old(decisionContext)
    {
      if n != numberOfOptions {
        numberOfOptions := n;
        decisionOptions := EmptyOptions(n);
      }
    }

    /** The decision-mode toggle: it flips the mode, and does nothing while a request is in flight,
        when the button is disabled. */
    method ToggleDecidingMode() returns (toggled: bool)
      requires Valid()
      modifies this
      ensures Valid()
      ensures toggled == !conversation.isLoading
      ensures isDecidingMode == (old(isDecidingMode) != toggled)
      ensures prompt == old(prompt) && numberOfOptions == old(numberOfOptions)
      ensures decisionOptions == old(decisionOptions) && decisionContext == old(decisionContext)
    {
      toggled := !conversation.isLoading;
      if toggled {
        isDecidingMode := !isDecidingMode;
      }
    }
  }
}
