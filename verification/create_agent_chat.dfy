/**
 * The agent-creation questionnaire (components/createAgent/CreateAgentChat.tsx):
 * four fixed questions asked one after the other in a chat, the answers
 * collected by question id. The component's state is the class `AgentChat`.
 * The random message ids are parameters, and each one-second `setTimeout`
 * callback runs as the step right after the submission that schedules it.
 */
module CreateAgentChat {
  import opened Wrappers
  import opened Strings

  datatype InputType = TextInput | SelectInput

  /** An entry of a select question: the stored value and the shown label. */
  datatype Choice = Choice(value: string, caption: string)

  datatype Question = Question(id: string, content: string, inputType: InputType, options: Option<seq<Choice>>)

  datatype Sender = Bot | Person

  /** A chat message; `inputType` and `options` come from the question a bot
      message asks, `completed` marks the user's answers. */
  datatype AgentMessage = AgentMessage(id: string, sender: Sender, content: string,
                                       inputType: Option<InputType>, options: Option<seq<Choice>>,
                                       completed: bool)

  const KnowledgeBases: seq<Choice> :=
    [Choice("kb1", "General Knowledge"), Choice("kb2", "Technical Documentation"), Choice("kb3", "Customer Support")]

  const Prompts: seq<Choice> :=
    [Choice("p1", "Friendly Assistant"), Choice("p2", "Technical Expert"), Choice("p3", "Creative Writer")]

  const Questions: seq<Question> := [
    Question("name", "What would you like to name your AI agent?", TextInput, None),
    Question("purpose", "What's the main purpose of this agent?", TextInput, None),
    Question("knowledge", "Select a knowledge base for your agent:", SelectInput, Some(KnowledgeBases)),
    Question("prompt", "Choose a base personality template:", SelectInput, Some(Prompts))
  ]

  const ClosingText: string := "Great! I have everything I need to create your agent. Processing..."

  /** `options.find((opt) => opt.value === value)`: the index of the first
      entry with that value, if any. */
  function FindChoice(options: seq<Choice>, value: string): (r: Option<nat>)
    ensures r.Some? ==>
      && r.value < |options| && options[r.value].value == value
      && (forall k | 0 <= k < r.value :: options[k].value != value)
    ensures r.None? ==> forall k | 0 <= k < |options| :: options[k].value != value
  {
    if options == [] then None
    else if options[0].value == value then Some(0)
    else match FindChoice(options[1..], value)
      case None => None
      case Some(i) => Some(i + 1)
  }

  /** What the user's message shows for an answer: for a select question
      the label of the chosen entry (`selectedOption?.caption || value`),
      otherwise the answer itself. */
  function DisplayContent(q: Question, value: string): string {
    if q.inputType == SelectInput && q.options.Some? then
      match FindChoice(q.options.value, value)
      case Some(i) => if q.options.value[i].caption != [] then q.options.value[i].caption else value
      case None => value
    else value
  }

  /** Text answers are shown as typed. A select answer shows the label of
      the first entry whose value matches, or the raw value when that label
      is empty or no entry matches. */
  lemma DisplayContentCases(q: Question, value: string)
    ensures q.inputType == TextInput ==> DisplayContent(q, value) == value
    ensures q.inputType == SelectInput && q.options.Some? ==>
      forall k | 0 <= k < |q.options.value| && q.options.value[k].value == value
                 && (forall j | 0 <= j < k :: q.options.value[j].value != value) ::
        DisplayContent(q, value) == if q.options.value[k].caption != [] then q.options.value[k].caption else value
    ensures q.inputType == SelectInput && q.options.Some? && (forall k | 0 <= k < |q.options.value| :: q.options.value[k].value != value) ==>
      DisplayContent(q, value) == value
  {
    if q.inputType == SelectInput && q.options.Some? {
      var options := q.options.value;
      var r := FindChoice(options, value);
      forall k | 0 <= k < |options| && options[k].value == value && (forall j | 0 <= j < k :: options[j].value != value)
        ensures DisplayContent(q, value) == if options[k].caption != [] then options[k].caption else value
      {
        assert r.Some? && r.value == k;
      }
    }
  }

  /** The sample answers show their labels. */
  lemma SampleLabels()
    ensures DisplayContent(Questions[2], "kb2") == "Technical Documentation"
    ensures DisplayContent(Questions[3], "p1") == "Friendly Assistant"
    ensures DisplayContent(Questions[3], "other") == "other"
    ensures DisplayContent(Questions[0], "kb2") == "kb2"
  {
    assert FindChoice(KnowledgeBases, "kb2") == Some(1) by {
      assert KnowledgeBases[1..][1..] == KnowledgeBases[2..];
    }
    assert FindChoice(Prompts, "other") == None by {
      assert Prompts[1..][1..][1..] == [];
    }
  }

  /** The bot message asking `q`. */
  function Ask(id: string, q: Question): AgentMessage {
    AgentMessage(id, Bot, q.content, Some(q.inputType), q.options, false)
  }

  /** The user's answer message. */
  function Answer(id: string, content: string): AgentMessage {
    AgentMessage(id, Person, content, None, None, true)
  }

  /** The closing bot message. */
  function Closing(id: string): AgentMessage {
    AgentMessage(id, Bot, ClosingText, None, None, false)
  }

  /** The last message asks a select question. */
  predicate AwaitsSelect(messages: seq<AgentMessage>) {
    messages != [] && messages[|messages| - 1].inputType == Some(SelectInput)
  }

  /** The text input is disabled while waiting or while a select question is
      open. */
  predicate InputDisabled(isWaiting: bool, messages: seq<AgentMessage>) {
    isWaiting || AwaitsSelect(messages)
  }

  /** The send button is also disabled on a blank input. */
  predicate SendDisabled(isWaiting: bool, input: string, messages: seq<AgentMessage>) {
    isWaiting || Trim(input) == [] || AwaitsSelect(messages)
  }

  /** The send button is disabled exactly when the input is, or when the
      input is blank. */
  lemma SendDisabledIff(isWaiting: bool, input: string, messages: seq<AgentMessage>)
    ensures SendDisabled(isWaiting, input, messages) <==> InputDisabled(isWaiting, messages) || IsBlank(input)
  {
    TrimEmptyIffBlank(input);
  }

  /** The questionnaire's state. */
  class AgentChat {
    var showChat: bool
    var messages: seq<AgentMessage>
    var currentInput: string
    var isWaitingForResponse: bool
    var currentQuestionIndex: nat
    var responses: map<string, string>

    /** The index always names a question. */
    predicate Valid()
      reads this
    {
      currentQuestionIndex < |Questions|
    }

    constructor()
      ensures Valid()
      ensures !showChat && messages == [] && currentInput == [] && !isWaitingForResponse
      ensures currentQuestionIndex == 0 && responses == map[]
    {
      showChat := false;
      messages := [];
      currentInput := [];
      isWaitingForResponse := false;
      currentQuestionIndex := 0;
      responses := map[];
    }

    /** The landing page's button. */
    method Start()
      modifies this
      ensures showChat
      ensures messages == old(messages) && currentInput == old(currentInput)
      ensures isWaitingForResponse == old(isWaitingForResponse)
      ensures currentQuestionIndex == old(currentQuestionIndex) && responses == old(responses)
    {
      showChat := true;
    }

    /** The first-message effect: a shown, empty chat gets exactly the first
        question; otherwise nothing changes. */
    method PostFirstQuestion(id: string)
      modifies this
      ensures messages == if old(showChat) && old(messages) == [] then [Ask(id, Questions[0])] else old(messages)
      ensures showChat == old(showChat) && currentInput == old(currentInput)
      ensures isWaitingForResponse == old(isWaitingForResponse)
      ensures currentQuestionIndex == old(currentQuestionIndex) && responses == old(responses)
    {
      if showChat && |messages| == 0 && |Questions| > 0 {
        messages := messages + [Ask(id, Questions[0])];
      }
    }

    /** `handleSubmit(value)` followed by its timeout callback. `answerId` and
        `botId` are the ids of the answer message and of the next bot
        message. */
    method HandleSubmit(value: string, answerId: string, botId: string)
      requires Valid()
      modifies this
      ensures Valid()
      ensures Trim(value) == [] ==>
        && messages == old(messages) && responses == old(responses) && currentInput == old(currentInput)
        && isWaitingForResponse == old(isWaitingForResponse) && currentQuestionIndex == old(currentQuestionIndex)
      ensures Trim(value) != [] ==>
        var q := Questions[old(currentQuestionIndex)];
        && responses == old(responses)[q.id := value]
        && currentInput == [] && !isWaitingForResponse
        && (old(currentQuestionIndex) < |Questions| - 1 ==>
              currentQuestionIndex == old(currentQuestionIndex) + 1
              && messages == old(messages) + [Answer(answerId, DisplayContent(q, value)),
                                             Ask(botId, Questions[old(currentQuestionIndex) + 1])])
        && (old(currentQuestionIndex) == |Questions| - 1 ==>
              currentQuestionIndex == old(currentQuestionIndex)
              && messages == old(messages) + [Answer(answerId, DisplayContent(q, value)), Closing(botId)])
      ensures showChat == old(showChat)
    {
      if Trim(value) == [] {
        return;
      }
      var currentQuestion := Questions[currentQuestionIndex];
      responses := responses[currentQuestion.id := value];
      var displayContent := DisplayContent(currentQuestion, value);
      messages := messages + [Answer(answerId, displayContent)];
      currentInput := [];
      isWaitingForResponse := true;
      // the timeout callback
      if currentQuestionIndex < |Questions| - 1 {
        var asked := currentQuestionIndex;
        currentQuestionIndex := currentQuestionIndex + 1;
        messages := messages + [Ask(botId, Questions[asked + 1])];
        isWaitingForResponse := false;
      } else {
        messages := messages + [Closing(botId)];
        isWaitingForResponse := false;
      }
    }
  }

  /** Answering the four questions in order from a fresh, shown chat stores
      every answer under its question's id and ends with the closing
      message, the index on the last question. */
  method Questionnaire(name: string, purpose: string, knowledge: string, prompt: string, ids: seq<string>)
    returns (chat: AgentChat)
    requires Trim(name) != [] && Trim(purpose) != [] && Trim(knowledge) != [] && Trim(prompt) != []
    requires |ids| == 9
    ensures chat.responses == map["name" := name, "purpose" := purpose, "knowledge" := knowledge, "prompt" := prompt]
    ensures chat.currentQuestionIndex == |Questions| - 1 && !chat.isWaitingForResponse
    ensures |chat.messages| == 9 && chat.messages[8] == Closing(ids[8])
    ensures chat.messages[0] == Ask(ids[0], Questions[0])
  {
    chat := new AgentChat();
    chat.Start();
    chat.PostFirstQuestion(ids[0]);
    chat.HandleSubmit(name, ids[1], ids[2]);
    chat.HandleSubmit(purpose, ids[3], ids[4]);
    chat.HandleSubmit(knowledge, ids[5], ids[6]);
    chat.HandleSubmit(prompt, ids[7], ids[8]);
  }
}
