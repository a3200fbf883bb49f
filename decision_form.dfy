/** The decision helper form: editing an option, building the decision prompt, and submitting it.
    The form's state lives in `Page.Home`; the request goes straight to the chat endpoint. */
module DecisionForm {
  import opened Types
  import opened Strings
  import Api
  import opened Page

  const DECISION_FAILED := "Failed to get decision"

  /** `handleOptionChange(index, value)`: a copy of the options with one position replaced. */
  function UpdateOption(options: seq<string>, index: nat, value: string): (r: seq<string>)
    requires index < |options|
    ensures |r| == |options|
    ensures r[index] == value
    ensures forall j :: 0 <= j < |r| && j != index ==> r[j] == options[j]
  {
    options[index := value]
  }

  /** The values the option-count selector offers: `[...Array(MAX_OPTIONS - 1)].map((_, i) => i + 2)`. */
  function OptionCountChoices(): (r: seq<nat>)
    ensures |r| == MAX_OPTIONS - 1
    ensures forall v :: v in r <==> 2 <= v <= MAX_OPTIONS
    ensures forall i, j :: 0 <= i < j < |r| ==> r[i] < r[j]
  {
    var r := seq(MAX_OPTIONS - 1, i => i + 2);
    assert r[0] == 2 && r[1] == 3 && r[2] == 4 && r[3] == 5;
    r
  }

  /** `options.some(opt => !opt.trim())`. */
  predicate AnyBlank(options: seq<string>)
  {
    exists i :: 0 <= i < |options| && IsBlank(options[i])
  }

  /** The condition that both makes `handleSubmit` return early and disables the submit button. */
  predicate SubmitDisabled(isLoading: bool, options: seq<string>)
  {
    isLoading || AnyBlank(options)
  }

  /** The submit button is enabled exactly when nothing is in flight and every option holds a
      character that is not whitespace. */
  lemma SubmitEnabledIff(isLoading: bool, options: seq<string>)
    ensures !SubmitDisabled(isLoading, options)
        <==> !isLoading && forall i :: 0 <= i < |options| ==> !AllWhitespace(options[i])
  {
    forall i | 0 <= i < |options| {
      BlankIff(options[i]);
    }
  }

  /** The form a submission leaves behind (every option empty) cannot be submitted again until an
      option is filled in. */
  lemma ResetFormDisabled(isLoading: bool, numberOfOptions: nat)
    requires numberOfOptions >= 1
    ensures SubmitDisabled(isLoading, EmptyOptions(numberOfOptions))
  {
    var options := EmptyOptions(numberOfOptions);
    assert TrimStart(options[0]) == "";
    assert IsBlank(options[0]);
  }

  const COUNT_INTRO := "\nI need you to make a decisive choice between "
  const COUNT_OUTRO := " options. You MUST choose one option, even if the information is limited or the options seem similar.\n\nMy Options:\n"
  const CONTEXT_HEADING := "\nAdditional Context:\n"
  const CHOOSE_INSTRUCTION := "Start your response with \"I choose Option X\""
  const INSTRUCTION_LINES: seq<string> := [
    "1. You MUST choose exactly one option - no asking for clarifications or more information.",
    "2. " + CHOOSE_INSTRUCTION + " where X is the number of your chosen option.",
    "3. Then provide a brief explanation of why you chose that option, working with whatever information is available.",
    "4. If options seem similar or information is limited, make reasonable assumptions to differentiate them.",
    "5. Be confident and decisive in your choice, even if you have to make educated guesses."
  ]
  const INSTRUCTIONS_HEADING := "Instructions:\n"
  const INSTRUCTIONS := INSTRUCTIONS_HEADING + Join(INSTRUCTION_LINES, "\n") + "\n"

  /** One line per option, `"<i+1>. <trimmed option>"`, in input order. */
  function OptionLines(options: seq<string>): seq<string>
  {
    seq(|options|, i requires 0 <= i < |options| => OptionLine(i + 1, options[i]))
  }

  function OptionLine(number: nat, option: string): string
  {
    NatToDecimal(number) + ". " + Trim(option)
  }

  /** The context block, present only when the context is not blank. */
  function ContextSection(context: string): string
  {
    if IsBlank(context) then "" else CONTEXT_HEADING + Trim(context) + "\n"
  }

  /** The pieces of the template literal of `handleSubmit`, in order. */
  function PromptParts(numberOfOptions: nat, options: seq<string>, context: string): seq<string>
  {
    [COUNT_INTRO, NatToDecimal(numberOfOptions), COUNT_OUTRO, Join(OptionLines(options), "\n"), "\n\n",
     ContextSection(context), "\n\n", INSTRUCTIONS]
  }

  /** The decision prompt: its pieces, concatenated. */
  function DecisionPrompt(numberOfOptions: nat, options: seq<string>, context: string): string
  {
    Join(PromptParts(numberOfOptions, options, context), "")
  }

  /** Where the `k`-th piece starts in the prompt. */
  function PartOffset(numberOfOptions: nat, options: seq<string>, context: string, k: nat): nat
    requires k <= 8
  {
    JoinOffset(PromptParts(numberOfOptions, options, context), "", k)
  }

  /** The `k`-th piece of the prompt sits at its offset. */
  lemma PartAt(numberOfOptions: nat, options: seq<string>, context: string, k: nat)
    requires k < 8
    ensures ContainsAt(DecisionPrompt(numberOfOptions, options, context),
                       PromptParts(numberOfOptions, options, context)[k], PartOffset(numberOfOptions, options, context, k))
    ensures PartOffset(numberOfOptions, options, context, k + 1)
         == PartOffset(numberOfOptions, options, context, k) + |PromptParts(numberOfOptions, options, context)[k]|
  {
    JoinContains(PromptParts(numberOfOptions, options, context), "", k);
  }

  /** The prompt opens by stating how many options there are: the count follows the opening words. */
  lemma PromptStatesCount(numberOfOptions: nat, options: seq<string>, context: string)
    ensures var p := DecisionPrompt(numberOfOptions, options, context);
      ContainsAt(p, COUNT_INTRO, 0) && ContainsAt(p, NatToDecimal(numberOfOptions), |COUNT_INTRO|)
  {
    PartAt(numberOfOptions, options, context, 0);
    PartAt(numberOfOptions, options, context, 1);
  }

  /** ... and continues with " options." and the demand to pick one. */
  lemma PromptDemandsChoice(numberOfOptions: nat, options: seq<string>, context: string)
    ensures ContainsAt(DecisionPrompt(numberOfOptions, options, context), COUNT_OUTRO,
                       |COUNT_INTRO| + |NatToDecimal(numberOfOptions)|)
  {
    assert PartOffset(numberOfOptions, options, context, 2) == |COUNT_INTRO| + |NatToDecimal(numberOfOptions)| by {
      PartAt(numberOfOptions, options, context, 0);
      PartAt(numberOfOptions, options, context, 1);
    }
    PartAt(numberOfOptions, options, context, 2);
  }

  /** Where option `i`'s line starts in the prompt. */
  function OptionOffset(numberOfOptions: nat, options: seq<string>, context: string, i: nat): nat
    requires i <= |options|
  {
    PartOffset(numberOfOptions, options, context, 3) + JoinOffset(OptionLines(options), "\n", i)
  }

  /** Option `i` is listed as `"<i+1>. <trimmed option>"`, and the next option's line starts one
      character after it: the options appear in input order. */
  lemma OptionListed(numberOfOptions: nat, options: seq<string>, context: string, i: nat)
    requires i < |options|
    ensures ContainsAt(DecisionPrompt(numberOfOptions, options, context),
                       NatToDecimal(i + 1) + ". " + Trim(options[i]), OptionOffset(numberOfOptions, options, context, i))
    ensures OptionOffset(numberOfOptions, options, context, i + 1)
         == OptionOffset(numberOfOptions, options, context, i) + |NatToDecimal(i + 1) + ". " + Trim(options[i])| + 1
  {
    var lines := OptionLines(options);
    OptionLineAt(options, i);
    PartAt(numberOfOptions, options, context, 3);
    JoinContains(lines, "\n", i);
    ContainsAtTrans(DecisionPrompt(numberOfOptions, options, context), Join(lines, "\n"), lines[i],
                    PartOffset(numberOfOptions, options, context, 3), JoinOffset(lines, "\n", i));
  }

  /** What separates the line of option `i` from the next is a single newline. */
  lemma OptionsNewlineSeparated(numberOfOptions: nat, options: seq<string>, context: string, i: nat)
    requires i + 1 < |options|
    ensures ContainsAt(DecisionPrompt(numberOfOptions, options, context), "\n",
                       OptionOffset(numberOfOptions, options, context, i) + |OptionLine(i + 1, options[i])|)
  {
    var lines := OptionLines(options);
    OptionLineAt(options, i);
    PartAt(numberOfOptions, options, context, 3);
    JoinSeparatorAt(lines, "\n", i);
    ContainsAtTrans(DecisionPrompt(numberOfOptions, options, context), Join(lines, "\n"), "\n",
                    PartOffset(numberOfOptions, options, context, 3), JoinOffset(lines, "\n", i) + |lines[i]|);
  }

  lemma OptionLineAt(options: seq<string>, i: nat)
    requires i < |options|
    ensures |OptionLines(options)| == |options|
    ensures OptionLines(options)[i] == OptionLine(i + 1, options[i])
  {
  }

  /** The prompt's length: everything before the context, the context block, and what follows. */
  lemma PromptLength(numberOfOptions: nat, options: seq<string>, context: string)
    ensures |DecisionPrompt(numberOfOptions, options, context)|
         == PartOffset(numberOfOptions, options, context, 5) + |ContextSection(context)| + 2 + |INSTRUCTIONS|
  {
    var parts := PromptParts(numberOfOptions, options, context);
    PartAt(numberOfOptions, options, context, 5);
    PartAt(numberOfOptions, options, context, 6);
    PartAt(numberOfOptions, options, context, 7);
    assert parts[..8] == parts;
  }

  /** What comes before the context block does not depend on the context. */
  lemma ContextOffsetFixed(numberOfOptions: nat, options: seq<string>, context: string)
    ensures PartOffset(numberOfOptions, options, context, 5) == PartOffset(numberOfOptions, options, "", 5)
  {
    assert PromptParts(numberOfOptions, options, context)[..5] == PromptParts(numberOfOptions, options, "")[..5];
  }

  /** A blank context yields exactly the prompt without context, and only a blank one does. */
  lemma ContextSectionIff(numberOfOptions: nat, options: seq<string>, context: string)
    ensures DecisionPrompt(numberOfOptions, options, context) == DecisionPrompt(numberOfOptions, options, "")
        <==> IsBlank(context)
  {
    assert IsBlank("") by { assert TrimStart("") == ""; }
    if IsBlank(context) {
      assert PromptParts(numberOfOptions, options, context) == PromptParts(numberOfOptions, options, "");
    } else {
      PromptLength(numberOfOptions, options, context);
      PromptLength(numberOfOptions, options, "");
      ContextOffsetFixed(numberOfOptions, options, context);
    }
  }

  /** A non-blank context appears trimmed and verbatim, under its heading, after the options and
      a blank line. */
  lemma ContextVerbatim(numberOfOptions: nat, options: seq<string>, context: string)
    requires !IsBlank(context)
    ensures ContainsAt(DecisionPrompt(numberOfOptions, options, context), CONTEXT_HEADING + Trim(context) + "\n",
                       PartOffset(numberOfOptions, options, context, 5))
    ensures PartOffset(numberOfOptions, options, context, 5)
         == OptionOffset(numberOfOptions, options, context, 0) + |Join(OptionLines(options), "\n")| + 2
  {
    PartAt(numberOfOptions, options, context, 5);
    PartAt(numberOfOptions, options, context, 4);
    PartAt(numberOfOptions, options, context, 3);
  }

  /** The five fixed instructions, each at its place under the heading, in order. */
  lemma InstructionLayout()
    ensures forall i :: 0 <= i < |INSTRUCTION_LINES| ==>
      ContainsAt(INSTRUCTIONS, INSTRUCTION_LINES[i], |INSTRUCTIONS_HEADING| + JoinOffset(INSTRUCTION_LINES, "\n", i))
  {
    var joined := Join(INSTRUCTION_LINES, "\n");
    forall i | 0 <= i < |INSTRUCTION_LINES|
      ensures ContainsAt(INSTRUCTIONS, INSTRUCTION_LINES[i], |INSTRUCTIONS_HEADING| + JoinOffset(INSTRUCTION_LINES, "\n", i))
    {
      JoinContains(INSTRUCTION_LINES, "\n", i);
      ContainsAtShift(INSTRUCTIONS_HEADING, joined, "\n", INSTRUCTION_LINES[i], JoinOffset(INSTRUCTION_LINES, "\n", i));
    }
  }

  /** The second instruction asks the reply to start with "I choose Option X". */
  lemma ChooseInstructionAt()
    ensures ContainsAt(INSTRUCTIONS, CHOOSE_INSTRUCTION, |INSTRUCTIONS_HEADING| + JoinOffset(INSTRUCTION_LINES, "\n", 1) + 3)
  {
    var second := INSTRUCTION_LINES[1];
    JoinContains(INSTRUCTION_LINES, "\n", 1);
    ContainsAtShift(INSTRUCTIONS_HEADING, Join(INSTRUCTION_LINES, "\n"), "\n", second, JoinOffset(INSTRUCTION_LINES, "\n", 1));
    ChooseInSecondLine(CHOOSE_INSTRUCTION, " where X is the number of your chosen option.");
    ContainsAtTrans(INSTRUCTIONS, second, CHOOSE_INSTRUCTION,
                    |INSTRUCTIONS_HEADING| + JoinOffset(INSTRUCTION_LINES, "\n", 1), 3);
  }

  lemma ChooseInSecondLine(choose: string, tail: string)
    ensures ContainsAt("2. " + choose + tail, choose, 3)
  {
    assert ("2. " + choose + tail)[3..3 + |choose|] == choose;
  }

  /** Every prompt ends with the fixed instructions. */
  lemma PromptEndsWithInstructions(numberOfOptions: nat, options: seq<string>, context: string)
    ensures var p := DecisionPrompt(numberOfOptions, options, context);
      |INSTRUCTIONS| <= |p| && ContainsAt(p, INSTRUCTIONS, |p| - |INSTRUCTIONS|)
  {
    var parts := PromptParts(numberOfOptions, options, context);
    PartAt(numberOfOptions, options, context, 7);
    assert parts[..8] == parts;
  }

  /** So every prompt carries the "I choose Option X" rule. */
  lemma InstructionsIncluded(numberOfOptions: nat, options: seq<string>, context: string)
    ensures Contains(DecisionPrompt(numberOfOptions, options, context), CHOOSE_INSTRUCTION)
  {
    var p := DecisionPrompt(numberOfOptions, options, context);
    PromptEndsWithInstructions(numberOfOptions, options, context);
    ChooseInstructionAt();
    ContainsAtTrans(p, INSTRUCTIONS, CHOOSE_INSTRUCTION, |p| - |INSTRUCTIONS|,
                    |INSTRUCTIONS_HEADING| + JoinOffset(INSTRUCTION_LINES, "\n", 1) + 3);
  }

  /** The entry a decision submission appends: the model's reply on an ok, parsed response, and
      an error entry otherwise. Never a user message and never a placeholder. */
  function DecisionReply(outcome: Api.Outcome, id: int): (m: Message)
    ensures m.id == id
    ensures m.role == Model || m.role == Error
    ensures m.role == Model <==> outcome.Response? && Api.IsOk(outcome.status) && outcome.body.Json?
    ensures m.role == Model ==> m.content == outcome.body.response
    ensures outcome.Response? && !Api.IsOk(outcome.status) ==> m.content == DECISION_FAILED
    ensures outcome.FetchFailed? ==> m.content == outcome.message
    ensures outcome.Response? && Api.IsOk(outcome.status) && outcome.body.Malformed?
            ==> m.content == outcome.body.parseError
  {
    match outcome
    case FetchFailed(message) => Message(id, Error, message)
    case Response(status, _, body) =>
      if !Api.IsOk(status) then Message(id, Error, DECISION_FAILED)
      else match body
        case Json(response, _) => Message(id, Model, response)
        case Malformed(parseError) => Message(id, Error, parseError)
  }

  /** Two options, Pizza and Sushi, with no context. */
  lemma ExampleLines()
    ensures OptionLine(1, "Pizza") == "1. Pizza" && OptionLine(2, "Sushi") == "2. Sushi"
  {
    assert NatToDecimal(1) == "1" && NatToDecimal(2) == "2";
    assert !IsWhitespace('P') && !IsWhitespace('a') && !IsWhitespace('S') && !IsWhitespace('i');
    assert TrimStart("Pizza") == "Pizza" && TrimEnd("Pizza") == "Pizza";
    assert TrimStart("Sushi") == "Sushi" && TrimEnd("Sushi") == "Sushi";
  }

  lemma PizzaOrSushi(numberOfOptions: nat, options: seq<string>, context: string)
    requires numberOfOptions == 2 && options == ["Pizza", "Sushi"] && context == ""
    ensures var p := DecisionPrompt(numberOfOptions, options, context);
      Contains(p, "1. Pizza") && Contains(p, "2. Sushi") && Contains(p, CHOOSE_INSTRUCTION)
      && p == DecisionPrompt(numberOfOptions, options, "   ")
  {
    var p := DecisionPrompt(numberOfOptions, options, context);
    ExampleLines();
    OptionListed(numberOfOptions, options, context, 0);
    OptionListed(numberOfOptions, options, context, 1);
    assert ContainsAt(p, "1. Pizza", OptionOffset(numberOfOptions, options, context, 0));
    assert ContainsAt(p, "2. Sushi", OptionOffset(numberOfOptions, options, context, 1));
    InstructionsIncluded(numberOfOptions, options, context);
    BlankIff("   ");
    ContextSectionIff(numberOfOptions, options, "   ");
  }

  /** `handleOptionChange`: the typed text replaces one option. */
  method HandleOptionChange(home: Home, index: nat, value: string)
    requires home.Valid() && index < |home.decisionOptions|
    modifies home
    ensures home.Valid()
    ensures home.decisionOptions == UpdateOption(old(home.decisionOptions), index, value)
    ensures home.numberOfOptions == old(home.numberOfOptions) && home.decisionContext == old(home.decisionContext)
    ensures home.isDecidingMode == old(home.isDecidingMode) && home.prompt == old(home.prompt)
  {
    home.decisionOptions := UpdateOption(home.decisionOptions, index, value);
  }

  /** Lines 38-58: the guard, the prompt, and raising the loading flag. Returns the prompt that is
      sent, or `None` when the guard rejects. */
  method BeginDecision(home: Home) returns (sent: Option<string>)
    requires home.Valid()
    modifies home.conversation
    ensures sent.Some? <==> !SubmitDisabled(old(home.conversation.isLoading), home.decisionOptions)
    ensures sent.None? ==> unchanged(home.conversation)
    ensures sent.Some? ==> sent.value == DecisionPrompt(home.numberOfOptions, home.decisionOptions, home.decisionContext)
    ensures sent.Some? ==> home.conversation.isLoading && home.conversation.messages == old(home.conversation.messages)
  {
    if home.conversation.isLoading || AnyBlank(home.decisionOptions) {
      return None;
    }
    var decisionPrompt := DecisionPrompt(home.numberOfOptions, home.decisionOptions, home.decisionContext);
    home.conversation.isLoading := true;
    sent := Some(decisionPrompt);
  }

  /** Lines 60-97: append the reply or the error, clear the flag, then close and reset the form. */
  method SettleDecision(home: Home, outcome: Api.Outcome, replyId: int)
    requires home.Valid()
    modifies home, home.conversation
    ensures home.Valid()
    ensures home.conversation.messages == old(home.conversation.messages) + [DecisionReply(outcome, replyId)]
    ensures !home.conversation.isLoading && !home.isDecidingMode
    ensures home.numberOfOptions == old(home.numberOfOptions)
    ensures home.decisionOptions == EmptyOptions(home.numberOfOptions) && home.decisionContext == ""
    ensures home.prompt == old(home.prompt)
  {
    var thrown: Option<string> := None;
    if outcome.FetchFailed? {
      thrown := Some(outcome.message);
    } else if !Api.IsOk(outcome.status) {
      thrown := Some(DECISION_FAILED);
    } else if outcome.body.Malformed? {
      thrown := Some(outcome.body.parseError);
    } else {
      home.conversation.messages := home.conversation.messages + [Message(replyId, Model, outcome.body.response)];
    }
    if thrown.Some? {
      home.conversation.messages := home.conversation.messages + [Message(replyId, Error, thrown.value)];
    }
    home.conversation.isLoading := false;
    home.isDecidingMode := false;
    home.decisionOptions := EmptyOptions(home.numberOfOptions);
    home.decisionContext := "";
  }

  /** `handleSubmit` of the decision form, run to its end. */
  method HandleSubmit(home: Home, outcome: Api.Outcome, replyId: int) returns (sent: Option<string>)
    requires home.Valid()
    modifies home, home.conversation
    ensures home.Valid()
    ensures sent.Some? <==> !SubmitDisabled(old(home.conversation.isLoading), old(home.decisionOptions))
    ensures sent.None? ==> unchanged(home) && unchanged(home.conversation)
    ensures sent.Some? ==>
      sent.value == DecisionPrompt(old(home.numberOfOptions), old(home.decisionOptions), old(home.decisionContext))
      && home.conversation.messages == old(home.conversation.messages) + [DecisionReply(outcome, replyId)]
      && !home.conversation.isLoading && !home.isDecidingMode
      && home.numberOfOptions == old(home.numberOfOptions)
      && home.decisionOptions == EmptyOptions(home.numberOfOptions) && home.decisionContext == ""
      && home.prompt == old(home.prompt)
  {
    sent := BeginDecision(home);
    if sent.Some? {
      SettleDecision(home, outcome, replyId);
    }
  }

  /** The form's Cancel button: closes the helper, and is disabled while a request is in flight. */
  method Cancel(home: Home) returns (cancelled: bool)
    requires home.Valid()
    modifies home
    ensures home.Valid()
    ensures cancelled == !home.conversation.isLoading
    ensures home.isDecidingMode == (old(home.isDecidingMode) && !cancelled)
    ensures home.numberOfOptions == old(home.numberOfOptions) && home.decisionOptions == old(home.decisionOptions)
    ensures home.decisionContext == old(home.decisionContext) && home.prompt == old(home.prompt)
  {
    cancelled := !home.conversation.isLoading;
    if cancelled {
      home.isDecidingMode := false;
    }
  }
}
