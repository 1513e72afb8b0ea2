/** The phishing-chat game (interactives/ChatSimulation.jsx): a scripted conversation, a choice of
    replies, a typing delay after which a System message tells the outcome, and a retry after a bad
    outcome. The delay is the method `Resolve`; the timestamps `Date.now()` supplies are the
    parameter `now`. A reply picked while an earlier one is still "typing" schedules a second
    resolution, so the scheduled ones are kept in order in `pending`. */
module ChatSimulation {
  import opened Common
  import opened Content
  import InteractiveSlide
  import LessonNavigation
  import GameNav

  datatype Message = Message(id: int, sender: string, text: string)

  /** A reply option; `reward` and `consequence` are the optional texts of the System message. */
  datatype ChatOption = ChatOption(text: string, isCorrect: bool, reward: Option<string>, consequence: Option<string>)

  datatype Scenario = Scenario(messages: seq<Message>, options: seq<ChatOption>)

  datatype Outcome = Safe | Hacked

  const DefaultScenario := Scenario(
    [ Message(1, "Госуслуги", "Добрый день! Обнаружена задолженность по налогам на сумму 8 547 ₽"),
      Message(2, "Госуслуги", "Необходимо оплатить в течение 48 часов, иначе будут начислены пени 12% в день. Оплатите по ссылке: gosuslugi-oplata.ru/pay/tax9847") ],
    [ ChatOption("Оплачиваю прямо сейчас", false, None,
                 Some("Вы перешли по ссылке и ввели данные карты. Деньги украдены 😔")),
      ChatOption("Проверю в официальном приложении Госуслуг", true,
                 Some("✅ Вы не попались на уловку мошенников!"), None),
      ChatOption("Спрошу у поддержки через @gosuslugibot", false, None,
                 Some("Вы написали в поддельный бот и рассказали о ситуации мошенникам")) ])

  const SafeFallback := "✅ Угроза предотвращена!"
  const HackedFallback := "❌ Вы попались на мошенничество"
  const EndedText := "Диалог завершен"

  /** The System message that closes a round for `choice`. */
  function SystemText(choice: ChatOption): string
  {
    if choice.isCorrect then OrElse(choice.reward, SafeFallback) else OrElse(choice.consequence, HackedFallback)
  }

  datatype ChatState = ChatState(
    messages: seq<Message>,
    isTyping: bool,
    finished: bool,
    outcome: Option<Outcome>,
    selected: Option<ChatOption>,
    showExplanation: bool,
    pending: seq<ChatOption>)

  /** The first render; a completed game opens on the finished, safe conversation. */
  function Initial(config: Scenario, isCompleted: bool): (s: ChatState)
    ensures s.finished == isCompleted && s.pending == [] && !s.isTyping && s.selected.None?
    ensures isCompleted ==> s.outcome == Some(Safe)
                            && s.messages == config.messages + [Message(999, "System", EndedText)]
    ensures !isCompleted ==> s.outcome.None? && s.messages == config.messages
  {
    ChatState(if isCompleted then config.messages + [Message(999, "System", EndedText)] else config.messages,
              false, isCompleted, if isCompleted then Some(Safe) else None, None, false, [])
  }

  /** `handleChoice`: the reply is echoed as the user's message and its resolution is scheduled. */
  function Choose(s: ChatState, choice: ChatOption, now: int): ChatState
  {
    s.(selected := Some(choice), messages := s.messages + [Message(now, "me", choice.text)],
       isTyping := true, pending := s.pending + [choice])
  }

  /** The end of the typing delay of the oldest scheduled reply. */
  function Resolve(s: ChatState, now: int): ChatState
    requires s.pending != []
  {
    var choice := s.pending[0];
    s.(isTyping := false,
       messages := s.messages + [Message(now + 1, "System", SystemText(choice))],
       outcome := Some(if choice.isCorrect then Safe else Hacked),
       finished := true, showExplanation := true, pending := s.pending[1..])
  }

  /** `handleRetry`: the conversation as it first was; a resolution already scheduled still comes. */
  function Retry(s: ChatState, config: Scenario): ChatState
  {
    ChatState(config.messages, false, false, None, None, false, s.pending)
  }

  /** `isComplete`. */
  predicate IsComplete(s: ChatState)
  {
    s.finished && s.outcome == Some(Safe)
  }

  /** A round: one reply, then its resolution. It adds exactly the user's message and one System
      message, finishes the game, and is won exactly when the reply was the correct one; the System
      message tells the reward of a won round and the consequence of a lost one, each with its
      fallback text. */
  lemma Round(s: ChatState, choice: ChatOption, t1: int, t2: int)
    requires s.pending == []
    ensures var r := Resolve(Choose(s, choice, t1), t2);
            && |r.messages| == |s.messages| + 2
            && r.messages[..|s.messages|] == s.messages
            && r.messages[|s.messages|] == Message(t1, "me", choice.text)
            && r.messages[|s.messages| + 1].sender == "System"
            && r.messages[|s.messages| + 1].id == t2 + 1
            && (IsComplete(r) ==> r.messages[|s.messages| + 1].text == OrElse(choice.reward, SafeFallback))
            && (!IsComplete(r) ==> r.messages[|s.messages| + 1].text == OrElse(choice.consequence, HackedFallback))
            && r.finished && r.showExplanation && !r.isTyping && r.pending == []
            && r.selected == Some(choice)
            && (IsComplete(r) <==> choice.isCorrect)
            && (r.outcome == Some(Hacked) <==> !choice.isCorrect)
  {
  }

  /** With nothing scheduled, a retry is the fresh start of a not-completed game. */
  lemma RetryRestarts(s: ChatState, config: Scenario)
    requires s.pending == []
    ensures Retry(s, config) == Initial(config, false)
  {
  }

  /** A completed game starts complete. */
  lemma CompletedStartsComplete(config: Scenario)
    ensures IsComplete(Initial(config, true)) && !IsComplete(Initial(config, false))
  {
  }

  /** Exactly one reply of the built-in scenario is correct: the second. */
  lemma DefaultScenarioOneCorrect()
    ensures forall i :: 0 <= i < |DefaultScenario.options| ==>
              (DefaultScenario.options[i].isCorrect <==> i == 1)
  {
  }

  /** What the input area offers: the replies while the game is not finished, otherwise the outcome
      panel with a retry button when hacked. */
  datatype InputArea = Replies(options: seq<ChatOption>) | Result(outcome: Option<Outcome>, retry: bool)

  function Input(s: ChatState, config: Scenario): (a: InputArea)
    ensures a.Replies? <==> !s.finished
    ensures a.Replies? ==> a.options == config.options
    ensures a.Result? ==> (a.retry <==> s.outcome == Some(Hacked))
  {
    if !s.finished then Replies(config.options) else Result(s.outcome, s.outcome == Some(Hacked))
  }

  class Chat {
    const props: InteractiveSlide.GameProps
    const config: Scenario
    var messages: seq<Message>
    var isTyping: bool
    var finished: bool
    var outcome: Option<Outcome>
    var selected: Option<ChatOption>
    var showExplanation: bool
    var pending: seq<ChatOption>

    function State(): ChatState
      reads this
    {
      ChatState(messages, isTyping, finished, outcome, selected, showExplanation, pending)
    }

    /** `config = data || defaultScenario`. */
    constructor (props: InteractiveSlide.GameProps, data: Option<Scenario>)
      ensures this.props == props && config == (if data.Some? then data.value else DefaultScenario)
      ensures State() == Initial(config, GameNav.Truthy(props.isCompleted))
    {
      this.props := props;
      config := if data.Some? then data.value else DefaultScenario;
      var s := Initial(if data.Some? then data.value else DefaultScenario, GameNav.Truthy(props.isCompleted));
      messages := s.messages;
      isTyping := s.isTyping;
      finished := s.finished;
      outcome := s.outcome;
      selected := s.selected;
      showExplanation := s.showExplanation;
      pending := s.pending;
    }

    /** A click on one of the offered replies. */
    method HandleChoice(choice: ChatOption, now: int)
      requires Input(State(), config) == Replies(config.options) && choice in config.options
      modifies this
      ensures State() == Choose(old(State()), choice, now)
    {
      selected := Some(choice);
      messages := messages + [Message(now, "me", choice.text)];
      isTyping := true;
      pending := pending + [choice];
    }

    /** The typing delay of the oldest scheduled reply runs out. */
    method ResolveNext(now: int)
      requires pending != []
      modifies this
      ensures State() == Resolve(old(State()), now)
    {
      var choice := pending[0];
      pending := pending[1..];
      isTyping := false;
      messages := messages + [Message(now + 1, "System", SystemText(choice))];
      outcome := Some(if choice.isCorrect then Safe else Hacked);
      finished := true;
      showExplanation := true;
    }

    /** The retry button, shown only after a bad outcome. */
    method HandleRetry()
      requires Input(State(), config).Result? && Input(State(), config).retry
      modifies this
      ensures State() == Retry(old(State()), config)
    {
      messages := config.messages;
      isTyping := false;
      finished := false;
      outcome := None;
      selected := None;
      showExplanation := false;
    }

    /** Closing the explanation panel. */
    method CloseExplanation()
      modifies this
      ensures State() == old(State()).(showExplanation := false)
    {
      showExplanation := false;
    }

    /** The footer has the same shape as the shared one: next calls `onComplete` only once won. */
    function Nav(): (v: LessonNavigation.NavView)
      reads this
      ensures v.next.onClick == Some(props.onComplete) <==> IsComplete(State())
    {
      GameNav.Footer(props, IsComplete(State()))
    }
  }
}
