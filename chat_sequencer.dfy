/** The scripted chat demo of the investment page
    (src/components/InvestmentAI.tsx): a fixed script of user questions and
    AI answers is played back into a transcript, the user lines being "typed"
    into a disabled input one character at a time, and the demo starts again
    from the greeting once the script is exhausted.

    Every timer callback of the original is one step here. `ChatState` holds
    the component state plus the one callback the chain has pending; `Next`
    is what that callback does; `ChatDemo` is the component, whose `Tick` is
    proved to do exactly `Next`. */
module ChatSequencer {

  datatype Sender = User | Ai

  datatype Message = Message(sender: Sender, text: string)

  const Greeting: Message := Message(Ai, "Hi, I'm World Model AI. I analyze global systems, explain causal links, and simulate scenarios. Ask anything about countries, sectors, or risks.")

  /** `conversationFlow`. */
  const ConversationFlow: seq<Message> := [
    Message(User, "How do Red Sea tensions affect global shipping costs?"),
    Message(Ai, "When ships avoid the Suez Canal and go around Africa, trips add about two weeks and roughly 30% more fuel. Freight becomes pricier and deliveries slip, mostly felt in imported goods. The pressure eases as routes normalize."),
    Message(User, "Show a cause–effect chain for oil price drops."),
    Message(Ai, "Brent −$10 lowers diesel about 6% and transport costs around 5%. In the EU that trims headline inflation roughly 0.2pp next quarter, giving households a little more room to spend."),
    Message(User, "Which countries gain leverage from robotics adoption?"),
    Message(Ai, "China installs about half of new robots. Korea has roughly 1000 per 10k workers. Early adopters shorten lead times and gain export leverage; late adopters face higher unit costs and weaker bargaining power.")
  ]

  /** The timer callback the chain is waiting for, if any. */
  datatype Timer =
    | Idle                                    // nothing scheduled
    | StartTimer(index: nat)                  // before simulateUserTyping(index)
    | TypeTimer(index: nat, typedChars: nat)  // before the next typeChar
    | SendTimer(index: nat)                   // before the user line is sent
    | ReplyTimer(index: nat)                  // before the AI answer arrives
    | NextTimer(index: nat)                   // before moving on to index + 2
    | RestartTimer                            // before the demo loops

  datatype ChatState = ChatState(
    messages: seq<Message>,
    currentMessageIndex: nat,
    inputMessage: string,
    isTyping: bool,
    userTyping: bool,
    demoComplete: bool,
    timer: Timer)

  /** The `setMessages` updaters: add `m` unless the transcript already ends
      with a message of the same sender and text. */
  function AppendUnlessLast(msgs: seq<Message>, m: Message): (r: seq<Message>)
    ensures |r| > 0 && r[|r| - 1] == m
    ensures r == msgs || r == msgs + [m]
    ensures r == msgs <==> (|msgs| > 0 && msgs[|msgs| - 1] == m)
  {
    if |msgs| > 0 && msgs[|msgs| - 1] == m then msgs else msgs + [m]
  }

  /** What the two effects keyed on `currentMessageIndex` and `demoComplete`
      schedule: the restart once the demo is complete, otherwise a typing
      cycle when the index holds a user line. */
  function Scheduled(flow: seq<Message>, index: nat, complete: bool): (t: Timer)
    ensures t == RestartTimer <==> complete
    ensures t.StartTimer? <==> !complete && index < |flow| && flow[index].sender == User
    ensures t.StartTimer? ==> t.index == index
    ensures t.Idle? || t.StartTimer? || t.RestartTimer?
  {
    if complete then RestartTimer
    else if index < |flow| && flow[index].sender == User then StartTimer(index)
    else Idle
  }

  /** The component as first rendered. */
  function Initial(greeting: Message, flow: seq<Message>): ChatState
  {
    ChatState([greeting], 0, "", false, false, false, Scheduled(flow, 0, false))
  }

  /** The states the chain can be in. */
  ghost predicate Inv(flow: seq<Message>, s: ChatState)
  {
    && |s.messages| > 0
    && (s.currentMessageIndex < |flow| || s.currentMessageIndex == 0)
    && match s.timer
       case Idle =>
         !s.userTyping && s.inputMessage == ""
       case StartTimer(i) =>
         && i == s.currentMessageIndex && i < |flow| && flow[i].sender == User
         && s.inputMessage == "" && !s.userTyping && !s.isTyping && !s.demoComplete
       case TypeTimer(i, k) =>
         && i == s.currentMessageIndex && i < |flow| && flow[i].sender == User
         && 1 <= k <= |flow[i].text| + 1 && s.inputMessage == flow[i].text[..k - 1]
         && s.userTyping && !s.isTyping && !s.demoComplete
       case SendTimer(i) =>
         && i == s.currentMessageIndex && i < |flow| && flow[i].sender == User
         && s.inputMessage == flow[i].text && s.userTyping && !s.isTyping && !s.demoComplete
       case ReplyTimer(i) =>
         && i == s.currentMessageIndex && i < |flow|
         && s.inputMessage == "" && !s.userTyping && s.isTyping && !s.demoComplete
       case NextTimer(i) =>
         && i == s.currentMessageIndex && i + 2 < |flow|
         && s.inputMessage == "" && !s.userTyping && !s.isTyping && !s.demoComplete
       case RestartTimer =>
         s.inputMessage == "" && !s.userTyping && !s.isTyping && s.demoComplete
  }

  lemma InitialInv(greeting: Message, flow: seq<Message>)
    ensures Inv(flow, Initial(greeting, flow))
  {
  }

  /** One timer callback firing. */
  function Next(greeting: Message, flow: seq<Message>, s: ChatState): (r: ChatState)
    requires Inv(flow, s)
    ensures Inv(flow, r)
    ensures || r.messages == s.messages
            || r.messages == s.messages + [r.messages[|r.messages| - 1]]
            || r.messages == [greeting]
  {
    match s.timer
    case Idle => s
    case StartTimer(i) =>
      // simulateUserTyping: the first typeChar runs at once, showing no character
      if flow[i].sender != User then s.(timer := Idle)
      else s.(userTyping := true, inputMessage := flow[i].text[..0], timer := TypeTimer(i, 1))
    case TypeTimer(i, k) =>
      if k <= |flow[i].text| then s.(inputMessage := flow[i].text[..k], timer := TypeTimer(i, k + 1))
      else s.(timer := SendTimer(i))
    case SendTimer(i) =>
      s.(userTyping := false,
         messages := AppendUnlessLast(s.messages, Message(User, flow[i].text)),
         inputMessage := "",
         isTyping := true,
         timer := ReplyTimer(i))
    case ReplyTimer(i) =>
      if i + 1 < |flow| && flow[i + 1].sender == Ai then
        var msgs := AppendUnlessLast(s.messages, flow[i + 1]);
        if i + 2 < |flow| then s.(messages := msgs, isTyping := false, timer := NextTimer(i))
        else s.(messages := msgs, isTyping := false, demoComplete := true,
                timer := Scheduled(flow, s.currentMessageIndex, true))
      else s.(timer := Idle)
    case NextTimer(i) =>
      s.(currentMessageIndex := i + 2, timer := Scheduled(flow, i + 2, s.demoComplete))
    case RestartTimer =>
      s.(messages := [greeting], currentMessageIndex := 0, demoComplete := false,
         timer := Scheduled(flow, 0, false))
  }

  /** The state after n callbacks. */
  function Run(greeting: Message, flow: seq<Message>, s: ChatState, n: nat): (r: ChatState)
    requires Inv(flow, s)
    ensures Inv(flow, r)
    decreases n
  {
    if n == 0 then s else Run(greeting, flow, Next(greeting, flow, s), n - 1)
  }

  /** The input field's value after each of n callbacks. */
  function Inputs(greeting: Message, flow: seq<Message>, s: ChatState, n: nat): (r: seq<string>)
    requires Inv(flow, s)
    ensures |r| == n
    decreases n
  {
    if n == 0 then [] else [Next(greeting, flow, s).inputMessage] + Inputs(greeting, flow, Next(greeting, flow, s), n - 1)
  }

  lemma {:induction false} RunAdditive(greeting: Message, flow: seq<Message>, s: ChatState, a: nat, b: nat)
    requires Inv(flow, s)
    ensures Run(greeting, flow, s, a + b) == Run(greeting, flow, Run(greeting, flow, s, a), b)
    decreases a
  {
    if a > 0 {
      RunAdditive(greeting, flow, Next(greeting, flow, s), a - 1, b);
    }
  }

  /** `RunAdditive` with the total number of callbacks named. */
  lemma RunSplit(greeting: Message, flow: seq<Message>, s: ChatState, a: nat, b: nat, c: nat)
    requires Inv(flow, s) && c == a + b
    ensures Run(greeting, flow, s, c) == Run(greeting, flow, Run(greeting, flow, s, a), b)
  {
    RunAdditive(greeting, flow, s, a, b);
  }

  /** A restart always brings back exactly the greeting, at index 0, with the
      demo no longer complete. */
  lemma RestartResets(greeting: Message, flow: seq<Message>, s: ChatState)
    requires Inv(flow, s) && s.timer == RestartTimer
    ensures Next(greeting, flow, s) == Initial(greeting, flow)
  {
  }

  /** While a user line is typed, the input shows its prefixes of length
      0, 1, ..., |text| in that order, then the send is scheduled with the
      whole line in the input. */
  lemma {:induction false} TypingFromChar(greeting: Message, flow: seq<Message>, s: ChatState, i: nat, k: nat)
    requires Inv(flow, s) && s.timer == TypeTimer(i, k)
    ensures k <= |flow[i].text| + 1
    ensures Inputs(greeting, flow, s, |flow[i].text| + 1 - k)
         == seq(|flow[i].text| + 1 - k, j requires 0 <= j < |flow[i].text| + 1 - k => flow[i].text[..k + j])
    ensures Run(greeting, flow, s, |flow[i].text| + 2 - k)
         == s.(inputMessage := flow[i].text, timer := SendTimer(i))
    decreases |flow[i].text| + 1 - k
  {
    var text := flow[i].text;
    if k <= |text| {
      var s' := Next(greeting, flow, s);
      TypingFromChar(greeting, flow, s', i, k + 1);
      assert Inputs(greeting, flow, s, |text| + 1 - k) == [text[..k]] + Inputs(greeting, flow, s', |text| - k);
    } else {
      assert text[..k - 1] == text;
      assert Run(greeting, flow, Next(greeting, flow, s), 0) == Next(greeting, flow, s);
    }
  }

  /** A typing cycle started on user line i shows every prefix of that line in
      increasing length before the send. */
  lemma TypingShowsPrefixes(greeting: Message, flow: seq<Message>, s: ChatState, i: nat)
    requires Inv(flow, s) && s.timer == StartTimer(i)
    ensures Inputs(greeting, flow, s, |flow[i].text| + 1)
         == seq(|flow[i].text| + 1, j requires 0 <= j <= |flow[i].text| => flow[i].text[..j])
    ensures Run(greeting, flow, s, |flow[i].text| + 2)
         == s.(inputMessage := flow[i].text, userTyping := true, timer := SendTimer(i))
  {
    var text := flow[i].text;
    var s' := Next(greeting, flow, s);
    TypingFromChar(greeting, flow, s', i, 1);
    assert Inputs(greeting, flow, s, |text| + 1) == [text[..0]] + Inputs(greeting, flow, s', |text|);
  }

  /** A script of user questions each answered by the AI. */
  predicate WellFormed(flow: seq<Message>)
  {
    && |flow| >= 2 && |flow| % 2 == 0
    && forall j :: 0 <= j < |flow| ==> flow[j].sender == (if j % 2 == 0 then User else Ai)
  }

  lemma ConversationFlowWellFormed()
    ensures WellFormed(ConversationFlow)
  {
  }

  /** The state in which the typing of user line i (an even index) is about
      to start, the transcript holding the greeting and the lines before i. */
  function AtStart(greeting: Message, flow: seq<Message>, i: nat): ChatState
    requires i <= |flow|
  {
    ChatState([greeting] + flow[..i], i, "", false, false, false, StartTimer(i))
  }

  /** Callbacks one question and answer take, from the start of the typing to
      the start of the next typing (or, for the last pair, to the restart). */
  function ExchangeLength(flow: seq<Message>, i: nat): nat
    requires i < |flow|
  {
    |flow[i].text| + 5
  }

  /** Callbacks from the start of user line i to the end of the loop. */
  function StepsFrom(flow: seq<Message>, i: nat): nat
    decreases |flow| - i
  {
    if i >= |flow| then 0 else |flow[i].text| + 5 + StepsFrom(flow, i + 2)
  }

  /** The length of one whole loop of the demo. */
  function LoopLength(flow: seq<Message>): nat
  {
    StepsFrom(flow, 0)
  }

  /** Two callbacks in a row. */
  lemma RunTwo(greeting: Message, flow: seq<Message>, s: ChatState)
    requires Inv(flow, s)
    ensures Run(greeting, flow, s, 2) == Next(greeting, flow, Next(greeting, flow, s))
  {
    var s1 := Next(greeting, flow, s);
    assert Run(greeting, flow, s1, 1) == Next(greeting, flow, s1) by { assert Run(greeting, flow, Next(greeting, flow, s1), 0) == Next(greeting, flow, s1); }
  }

  /** One callback. */
  lemma RunOne(greeting: Message, flow: seq<Message>, s: ChatState)
    requires Inv(flow, s)
    ensures Run(greeting, flow, s, 1) == Next(greeting, flow, s)
  {
    assert Run(greeting, flow, Next(greeting, flow, s), 0) == Next(greeting, flow, s);
  }

  /** Sending question i: the transcript ends with the greeting or an answer,
      so the question is appended. */
  lemma SendAppendsQuestion(greeting: Message, flow: seq<Message>, i: nat)
    requires greeting.sender == Ai
    requires WellFormed(flow) && i % 2 == 0 && i < |flow|
    ensures Inv(flow, AtStart(greeting, flow, i).(inputMessage := flow[i].text, userTyping := true, timer := SendTimer(i)))
    ensures Next(greeting, flow, AtStart(greeting, flow, i).(inputMessage := flow[i].text, userTyping := true, timer := SendTimer(i)))
         == ChatState([greeting] + flow[..i + 1], i, "", true, false, false, ReplyTimer(i))
  {
    assert flow[i].sender == User;
    assert i > 0 ==> flow[i - 1].sender == Ai;
    assert Message(User, flow[i].text) == flow[i];
    assert ([greeting] + flow[..i]) + [flow[i]] == [greeting] + flow[..i + 1];
  }

  /** The answer to question i: the transcript ends with the question, so
      the answer is appended; then the demo moves on or completes. */
  lemma ReplyAppendsAnswer(greeting: Message, flow: seq<Message>, i: nat)
    requires WellFormed(flow) && i % 2 == 0 && i < |flow|
    ensures Inv(flow, ChatState([greeting] + flow[..i + 1], i, "", true, false, false, ReplyTimer(i)))
    ensures Next(greeting, flow, ChatState([greeting] + flow[..i + 1], i, "", true, false, false, ReplyTimer(i)))
         == ChatState([greeting] + flow[..i + 2], i, "", false, false, i + 2 >= |flow|,
                      if i + 2 < |flow| then NextTimer(i) else RestartTimer)
  {
    assert flow[i].sender == User && flow[i + 1].sender == Ai;
    assert ([greeting] + flow[..i + 1])[i + 1] == flow[i];
    assert ([greeting] + flow[..i + 1]) + [flow[i + 1]] == [greeting] + flow[..i + 2];
  }

  /** The state right after the answer to question i has been added. */
  function Answered(greeting: Message, flow: seq<Message>, i: nat): ChatState
    requires i + 2 <= |flow|
  {
    ChatState([greeting] + flow[..i + 2], i, "", false, false, i + 2 >= |flow|,
              if i + 2 < |flow| then NextTimer(i) else RestartTimer)
  }

  /** From the start of question i: typing, sending, answering. */
  lemma ToAnswered(greeting: Message, flow: seq<Message>, i: nat)
    requires greeting.sender == Ai
    requires WellFormed(flow) && i % 2 == 0 && i < |flow|
    ensures i + 2 <= |flow|
    ensures Inv(flow, AtStart(greeting, flow, i))
    ensures Run(greeting, flow, AtStart(greeting, flow, i), |flow[i].text| + 4) == Answered(greeting, flow, i)
  {
    var s := AtStart(greeting, flow, i);
    var text := flow[i].text;
    assert flow[i].sender == User;
    assert Inv(flow, s);
    TypingShowsPrefixes(greeting, flow, s, i);
    var sending := s.(inputMessage := text, userTyping := true, timer := SendTimer(i));
    RunSplit(greeting, flow, s, |text| + 2, 2, |text| + 4);
    RunTwo(greeting, flow, sending);
    SendAppendsQuestion(greeting, flow, i);
    ReplyAppendsAnswer(greeting, flow, i);
  }

  /** The transcript grows by exactly the question and its answer, whatever
      the duplicate checks are: in a well-formed script the last message
      before an append always has the other sender. */
  lemma Exchange(greeting: Message, flow: seq<Message>, i: nat)
    requires greeting.sender == Ai
    requires WellFormed(flow) && i % 2 == 0 && i < |flow|
    ensures Inv(flow, AtStart(greeting, flow, i))
    ensures i + 2 < |flow| ==>
      Run(greeting, flow, AtStart(greeting, flow, i), ExchangeLength(flow, i)) == AtStart(greeting, flow, i + 2)
    ensures i + 2 >= |flow| ==>
      Run(greeting, flow, AtStart(greeting, flow, i), ExchangeLength(flow, i)) == Initial(greeting, flow)
  {
    ToAnswered(greeting, flow, i);
    var a := Answered(greeting, flow, i);
    RunSplit(greeting, flow, AtStart(greeting, flow, i), |flow[i].text| + 4, 1, ExchangeLength(flow, i));
    RunOne(greeting, flow, a);
    if i + 2 < |flow| {
      assert flow[i + 2].sender == User;
      assert Next(greeting, flow, a) == AtStart(greeting, flow, i + 2);
    } else {
      RestartResets(greeting, flow, a);
    }
  }

  /** From the start of user line i the demo comes back to its first state
      after `StepsFrom(flow, i)` callbacks. */
  lemma {:induction false} LoopFrom(greeting: Message, flow: seq<Message>, i: nat)
    requires greeting.sender == Ai
    requires WellFormed(flow) && i % 2 == 0 && i < |flow|
    ensures Inv(flow, AtStart(greeting, flow, i))
    ensures Run(greeting, flow, AtStart(greeting, flow, i), StepsFrom(flow, i)) == Initial(greeting, flow)
    decreases |flow| - i
  {
    Exchange(greeting, flow, i);
    if i + 2 < |flow| {
      LoopFrom(greeting, flow, i + 2);
      RunAdditive(greeting, flow, AtStart(greeting, flow, i), ExchangeLength(flow, i), StepsFrom(flow, i + 2));
    } else {
      assert StepsFrom(flow, i + 2) == 0;
    }
  }

  /** A well-formed script starts with the typing of its first question, and
      one loop of the demo ends in exactly the state it started from: the
      single greeting, index 0, the demo not complete. */
  lemma LoopReturnsToGreeting(greeting: Message, flow: seq<Message>)
    requires greeting.sender == Ai
    requires WellFormed(flow)
    ensures Initial(greeting, flow) == AtStart(greeting, flow, 0)
    ensures Run(greeting, flow, Initial(greeting, flow), LoopLength(flow)) == Initial(greeting, flow)
  {
    assert flow[0].sender == User;
    assert [greeting] + flow[..0] == [greeting];
    LoopFrom(greeting, flow, 0);
  }

  /** However many loops the demo has run, it is back at the greeting. */
  lemma {:induction false} LoopsReturnToGreeting(greeting: Message, flow: seq<Message>, cycles: nat)
    requires greeting.sender == Ai
    requires WellFormed(flow)
    ensures Inv(flow, Initial(greeting, flow))
    ensures Run(greeting, flow, Initial(greeting, flow), cycles * LoopLength(flow)) == Initial(greeting, flow)
  {
    InitialInv(greeting, flow);
    if cycles > 0 {
      LoopsReturnToGreeting(greeting, flow, cycles - 1);
      LoopReturnsToGreeting(greeting, flow);
      assert cycles * LoopLength(flow) == LoopLength(flow) + (cycles - 1) * LoopLength(flow);
      RunAdditive(greeting, flow, Initial(greeting, flow), LoopLength(flow), (cycles - 1) * LoopLength(flow));
    }
  }

  /** The chat widget: its state fields and the pending callback. */
  class ChatDemo {
    /** The opening AI message, `Greeting` in the page. */
    const greeting: Message
    const flow: seq<Message>
    var messages: seq<Message>
    var currentMessageIndex: nat
    var inputMessage: string
    var isTyping: bool
    var userTyping: bool
    var demoComplete: bool
    var timer: Timer

    function State(): ChatState
      reads this
    {
      ChatState(messages, currentMessageIndex, inputMessage, isTyping, userTyping, demoComplete, timer)
    }

    ghost predicate Valid()
      reads this
    {
      Inv(flow, State())
    }

    /** Mounting: the greeting alone, and the effect's first scheduling. */
    constructor (script: seq<Message>)
      ensures Valid() && greeting == Greeting && flow == script
      ensures State() == Initial(Greeting, script)
    {
      greeting := Greeting;
      flow := script;
      messages := [greeting];
      currentMessageIndex := 0;
      inputMessage := "";
      isTyping := false;
      userTyping := false;
      demoComplete := false;
      if |script| > 0 && script[0].sender == User {
        timer := StartTimer(0);
      } else {
        timer := Idle;
      }
    }

    /** The pending callback fires. */
    method Tick()
      requires Valid()
      modifies this
      ensures Valid()
      ensures State() == Next(greeting, flow, old(State()))
    {
      ghost var expected := Next(greeting, flow, State());
      match timer
      case Idle =>
      case StartTimer(i) =>
        if flow[i].sender == User {
          userTyping := true;
          var typedChars := 0;
          inputMessage := flow[i].text[..typedChars];
          typedChars := typedChars + 1;
          timer := TypeTimer(i, typedChars);
        }
      case TypeTimer(i, typedChars) =>
        var fullMessage := flow[i].text;
        if typedChars <= |fullMessage| {
          inputMessage := fullMessage[..typedChars];
          timer := TypeTimer(i, typedChars + 1);
        } else {
          timer := SendTimer(i);
        }
      case SendTimer(i) =>
        userTyping := false;
        messages := AppendUnlessLast(messages, Message(User, flow[i].text));
        inputMessage := "";
        isTyping := true;
        timer := ReplyTimer(i);
      case ReplyTimer(i) =>
        if i + 1 < |flow| && flow[i + 1].sender == Ai {
          messages := AppendUnlessLast(messages, flow[i + 1]);
          isTyping := false;
          if i + 2 < |flow| {
            timer := NextTimer(i);
          } else {
            demoComplete := true;
            timer := RestartTimer;
          }
        } else {
          timer := Idle;
        }
      case NextTimer(i) =>
        currentMessageIndex := i + 2;
        timer := Scheduled(flow, currentMessageIndex, demoComplete);
      case RestartTimer =>
        messages := [greeting];
        currentMessageIndex := 0;
        demoComplete := false;
        timer := Scheduled(flow, currentMessageIndex, demoComplete);
    }
  }
}
