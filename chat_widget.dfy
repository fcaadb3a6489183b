/** The chat widget's conversation state and its send handler. */
module Chat {
  import opened Text
  import opened Wrappers
  import opened FaqMatcher

  datatype Sender = User | Bot

  /** One entry of the conversation: `{ type, text }`. */
  datatype Message = Message(sender: Sender, text: string)

  /** The greeting the conversation starts with. */
  const Greeting: string := "Привет! Я помощник Webly AI. Чем могу помочь?"

  /** The questions the apology suggests. */
  const SuggestedQuestions: seq<string> :=
    ["Что такое Webly AI?", "Нужны ли навыки программирования?", "Что включено в бесплатный план?"]

  /** The text the apology opens with, before the first quoted question. */
  const ApologyLead: string := "Извините, я не совсем понял. Попробуйте спросить: \""

  /** The bot message used when the remote chat call fails: it quotes
      the three suggested questions. */
  const Apology: string :=
    ApologyLead + SuggestedQuestions[0] + "\", \"" + SuggestedQuestions[1]
    + "\" или \"" + SuggestedQuestions[2] + "\""

  /** Every suggested question is quoted in the apology text. */
  lemma SuggestedQuestionsInApology()
    ensures forall q :: q in SuggestedQuestions ==> IsSubstring(q, Apology)
  {
    var q0, q1, q2 := SuggestedQuestions[0], SuggestedQuestions[1], SuggestedQuestions[2];
    var a := ApologyLead;
    var b := a + q0 + "\", \"";
    var c := b + q1 + "\" или \"";
    assert Apology == a + q0 + (Apology[|a| + |q0|..]);
    assert OccursAt(q0, Apology, |a|);
    assert Apology == b + q1 + (Apology[|b| + |q1|..]);
    assert OccursAt(q1, Apology, |b|);
    assert Apology == c + q2 + "\"";
    assert OccursAt(q2, Apology, |c|);
  }

  /** What the `/api/chat` request came back with: an ok response whose
      JSON body carries `reply`, or a failure (a transport error, a
      non-ok status, or a body that is not JSON). */
  datatype RemoteOutcome = RemoteOk(reply: string) | RemoteFail

  /** A turn of `handleSend` whose bot reply is still to come: the
      trimmed user message and the matcher's result, both captured by
      the pending timer or request. */
  datatype Turn = Turn(userMessage: string, faqAnswer: Option<string>)

  /** JavaScript truthiness of the matcher's result: `null` and `''` are
      falsy. */
  predicate Truthy(a: Option<string>) {
    a.Some? && a.value != ""
  }

  /** The turn goes to `/api/chat` rather than to the 1000 ms timer. */
  predicate CallsRemote(t: Turn) {
    !Truthy(t.faqAnswer)
  }

  /** The text of the bot message that ends a turn. */
  function ReplyText(faqAnswer: Option<string>, remote: RemoteOutcome): string
  {
    if Truthy(faqAnswer) then faqAnswer.value
    else match remote
      case RemoteOk(reply) => reply
      case RemoteFail => Apology
  }

  /** Every answer in the FAQ table is non-empty and differs from the
      apology text. */
  lemma {:induction false} TableAnswersAreReplies(i: int)
    requires 0 <= i < |FaqData|
    ensures FaqData[i].answer != "" && FaqData[i].answer != Apology
  {
    assert |Apology| == 146;
    assert |FaqData[i].answer| in {161, 122, 113, 156, 142};
  }

  /** A matched question is answered with its FAQ answer, whatever the
      remote endpoint would have said; the remote endpoint is not asked,
      and the apology text never appears on this path. */
  lemma MatchedReply(userMessage: string, remote: RemoteOutcome)
    requires FindFaqAnswer(userMessage).Some?
    ensures !CallsRemote(Turn(userMessage, FindFaqAnswer(userMessage)))
    ensures ReplyText(FindFaqAnswer(userMessage), remote) == FindFaqAnswer(userMessage).value
    ensures ReplyText(FindFaqAnswer(userMessage), remote) != Apology
  {
    var text := Lower(userMessage);
    FirstAnswerIsFirstMatch(FaqData, text);
    var i :| IsFirstMatch(FaqData, text, i) && FindFaqAnswer(userMessage).value == FaqData[i].answer;
    TableAnswersAreReplies(i);
  }

  /** An unmatched question goes to the remote endpoint: its reply on
      success, the apology otherwise. */
  lemma UnmatchedReply(userMessage: string, remote: RemoteOutcome)
    requires FindFaqAnswer(userMessage).None?
    ensures CallsRemote(Turn(userMessage, FindFaqAnswer(userMessage)))
    ensures remote.RemoteOk? ==> ReplyText(FindFaqAnswer(userMessage), remote) == remote.reply
    ensures remote.RemoteFail? ==> ReplyText(FindFaqAnswer(userMessage), remote) == Apology
  {
  }

  /** Each question the apology suggests is answered from the FAQ table,
      so following the suggestion never reaches the remote endpoint. */
  lemma SuggestedQuestionsAreMatched()
    ensures forall q :: q in SuggestedQuestions ==> FindFaqAnswer(q).Some?
  {
    WhatIsWeblyIsMatched();
    NeedSkillsIsMatched();
    FreePlanIsMatched();
  }

  lemma WhatIsWeblyIsMatched()
    ensures FindFaqAnswer(SuggestedQuestions[0]).Some?
  {
    var q := SuggestedQuestions[0];
    assert FaqData[0].keywords[4] == "ai";
    OccursAtByChars("ai", Lower(q), 16);
    KeywordInInputIsMatched(q, 0, 4, 16);
  }

  lemma NeedSkillsIsMatched()
    ensures FindFaqAnswer(SuggestedQuestions[1]).Some?
  {
    var q := SuggestedQuestions[1];
    assert FaqData[1].keywords[2] == "навыки";
    OccursAtByChars("навыки", Lower(q), 9);
    KeywordInInputIsMatched(q, 1, 2, 9);
  }

  lemma FreePlanIsMatched()
    ensures FindFaqAnswer(SuggestedQuestions[2]).Some?
  {
    var q := SuggestedQuestions[2];
    assert FaqData[4].keywords[1] == "план";
    OccursAtByChars("план", Lower(q), 26);
    KeywordInInputIsMatched(q, 4, 1, 26);
  }

  /** The chat widget's state: the conversation, the text field, the
      typing indicator, and the replies still to come. */
  class ChatWidget {
    var messages: seq<Message>
    var inputValue: string
    var isTyping: bool
    /** The turns whose continuation (the 1000 ms timer, or the awaited
        `/api/chat` request) the event loop still holds, oldest first.
        Nothing in `handleSend` itself limits their number. */
    var inFlight: seq<Turn>

    /** The conversation always opens with the greeting. */
    predicate Valid()
      reads this
    {
      |messages| >= 1 && messages[0] == Message(Bot, Greeting)
    }

    /** The discipline the send button is meant to keep: at most one
        reply outstanding, and the typing indicator shown exactly while
        there is one. */
    predicate OneTurnAtATime()
      reads this
    {
      |inFlight| <= 1 && (isTyping <==> |inFlight| == 1)
    }

    /** The send button is enabled. */
    predicate SendEnabled()
      reads this
    {
      Trim(inputValue) != "" && !isTyping
    }

    constructor ()
      ensures Valid() && OneTurnAtATime()
      ensures messages == [Message(Bot, Greeting)]
      ensures inputValue == "" && !isTyping && inFlight == []
    {
      messages := [Message(Bot, Greeting)];
      inputValue := "";
      isTyping := false;
      inFlight := [];
    }

    /** The text field's `onChange`. */
    method SetInput(value: string)
      modifies this
      ensures inputValue == value
      ensures messages == old(messages) && isTyping == old(isTyping) && inFlight == old(inFlight)
    {
      inputValue := value;
    }

    /** The synchronous part of `handleSend`: ignore blank input;
        otherwise append the trimmed user message, clear the field, show
        the typing indicator, run the matcher, and leave the reply to a
        continuation. */
    method BeginSend() returns (turn: Option<Turn>)
      requires Valid()
      modifies this
      ensures Valid()
      ensures Trim(old(inputValue)) == "" ==> turn == None
      ensures Trim(old(inputValue)) == "" ==>
        messages == old(messages) && inputValue == old(inputValue)
        && isTyping == old(isTyping) && inFlight == old(inFlight)
      ensures Trim(old(inputValue)) != "" ==>
        var t := Turn(Trim(old(inputValue)), FindFaqAnswer(Trim(old(inputValue))));
        turn == Some(t)
        && messages == old(messages) + [Message(User, t.userMessage)]
        && inputValue == "" && isTyping
        && inFlight == old(inFlight) + [t]
    {
      var userMessage := Trim(inputValue);
      if userMessage == "" {
        return None;
      }
      messages := messages + [Message(User, userMessage)];
      inputValue := "";
      isTyping := true;
      var t := Turn(userMessage, FindFaqAnswer(userMessage));
      inFlight := inFlight + [t];
      turn := Some(t);
    }

    /** The continuation of turn `k` runs: the timer fires with the FAQ
        answer, or the remote request settles. Exactly one bot message is
        appended and the typing indicator is cleared. */
    method Deliver(k: nat, remote: RemoteOutcome) returns (reply: Message)
      requires Valid()
      requires k < |inFlight|
      modifies this
      ensures Valid()
      ensures reply == Message(Bot, ReplyText(old(inFlight)[k].faqAnswer, remote))
      ensures messages == old(messages) + [reply]
      ensures inFlight == old(inFlight)[..k] + old(inFlight)[k + 1..]
      ensures !isTyping && inputValue == old(inputValue)
    {
      var t := inFlight[k];
      reply := Message(Bot, ReplyText(t.faqAnswer, remote));
      messages := messages + [reply];
      isTyping := false;
      inFlight := inFlight[..k] + inFlight[k + 1..];
    }

    /** A whole `handleSend` turn with its continuation run at once. */
    method HandleSend(remote: RemoteOutcome) returns (turn: Option<Turn>)
      requires Valid()
      modifies this
      ensures Valid()
      ensures Trim(old(inputValue)) == "" ==>
        turn == None && messages == old(messages) && inputValue == old(inputValue)
        && isTyping == old(isTyping) && inFlight == old(inFlight)
      ensures Trim(old(inputValue)) != "" ==>
        var u := Trim(old(inputValue));
        turn == Some(Turn(u, FindFaqAnswer(u)))
        && messages == old(messages)
             + [Message(User, u), Message(Bot, ReplyText(FindFaqAnswer(u), remote))]
        && inputValue == "" && !isTyping && inFlight == old(inFlight)
    {
      ghost var before := inFlight;
      turn := BeginSend();
      if turn.Some? {
        assert inFlight == before + [turn.value];
        var reply := Deliver(|inFlight| - 1, remote);
        assert inFlight == before;
      }
    }

    /** `handleKeyPress`: Enter calls the synchronous part of
        `handleSend` whether or not a reply is outstanding. */
    method PressKey(key: string) returns (turn: Option<Turn>)
      requires Valid()
      modifies this
      ensures Valid()
      ensures key == "Enter" && Trim(old(inputValue)) != "" ==>
        var u := Trim(old(inputValue));
        turn == Some(Turn(u, FindFaqAnswer(u)))
        && messages == old(messages) + [Message(User, u)]
        && inputValue == "" && isTyping && inFlight == old(inFlight) + [turn.value]
      ensures !(key == "Enter" && Trim(old(inputValue)) != "") ==>
        turn == None && messages == old(messages) && inputValue == old(inputValue)
        && isTyping == old(isTyping) && inFlight == old(inFlight)
      ensures old(OneTurnAtATime()) && !old(isTyping) ==> OneTurnAtATime()
      ensures old(OneTurnAtATime()) && old(isTyping) && turn.Some? ==>
        |inFlight| == 2 && !OneTurnAtATime()
    {
      turn := None;
      if key == "Enter" {
        turn := BeginSend();
      }
    }

    /** `handleKeyPress` with the guard the send button has: Enter is
        ignored while a reply is outstanding. */
    method PressKeyGuarded(key: string) returns (turn: Option<Turn>)
      requires Valid()
      modifies this
      ensures Valid()
      ensures key == "Enter" && old(SendEnabled()) ==>
        var u := Trim(old(inputValue));
        turn == Some(Turn(u, FindFaqAnswer(u)))
        && messages == old(messages) + [Message(User, u)]
        && inputValue == "" && isTyping && inFlight == old(inFlight) + [turn.value]
      ensures !(key == "Enter" && old(SendEnabled())) ==>
        turn == None && messages == old(messages) && inputValue == old(inputValue)
        && isTyping == old(isTyping) && inFlight == old(inFlight)
      ensures old(OneTurnAtATime()) ==> OneTurnAtATime()
    {
      turn := None;
      if key == "Enter" && !isTyping {
        turn := BeginSend();
      }
    }

    /** A click on the send button, which fires only while the button is
        enabled. */
    method ClickSend() returns (turn: Option<Turn>)
      requires Valid()
      modifies this
      ensures Valid()
      ensures old(SendEnabled()) ==>
        var u := Trim(old(inputValue));
        turn == Some(Turn(u, FindFaqAnswer(u)))
        && messages == old(messages) + [Message(User, u)]
        && inputValue == "" && isTyping && inFlight == old(inFlight) + [turn.value]
      ensures !old(SendEnabled()) ==>
        turn == None && messages == old(messages) && inputValue == old(inputValue)
        && isTyping == old(isTyping) && inFlight == old(inFlight)
      ensures old(OneTurnAtATime()) ==> OneTurnAtATime()
    {
      turn := None;
      if SendEnabled() {
        turn := BeginSend();
      }
    }
  }

  /** The events the chat widget reacts to. */
  datatype Event =
    | Typed(value: string)
    | KeyPressed(key: string)
    | SendClicked
    | ReplyArrived(k: nat, remote: RemoteOutcome)

  /** Whatever happens, the conversation only grows, by at most one
      message per event, and every earlier message keeps its place. */
  method Dispatch(w: ChatWidget, e: Event)
    requires w.Valid()
    requires e.ReplyArrived? ==> e.k < |w.inFlight|
    modifies w
    ensures w.Valid()
    ensures old(w.messages) <= w.messages
    ensures |w.messages| <= |old(w.messages)| + 1
  {
    match e
    case Typed(value) => w.SetInput(value);
    case KeyPressed(key) => var _ := w.PressKey(key);
    case SendClicked => var _ := w.ClickSend();
    case ReplyArrived(k, remote) => var _ := w.Deliver(k, remote);
  }

  /** Delivering a reply keeps the one-turn discipline. */
  method DeliverKeepsOneTurn(w: ChatWidget, remote: RemoteOutcome)
    requires w.Valid() && w.OneTurnAtATime() && |w.inFlight| == 1
    modifies w
    ensures w.Valid() && w.OneTurnAtATime() && w.inFlight == []
  {
    var _ := w.Deliver(0, remote);
  }

  /** Enter pressed while a reply is outstanding starts a second turn,
      although the send button is disabled: two user messages in a row,
      and the first reply clears the typing indicator while the second
      is still on its way. */
  method EnterWhileTyping(first: string, second: string, remote: RemoteOutcome)
    returns (w: ChatWidget)
    requires Trim(first) != "" && Trim(second) != ""
    ensures !w.OneTurnAtATime()
    ensures !w.isTyping && |w.inFlight| == 1
    ensures w.messages == [
      Message(Bot, Greeting),
      Message(User, Trim(first)),
      Message(User, Trim(second)),
      Message(Bot, ReplyText(FindFaqAnswer(Trim(first)), remote))]
  {
    var u1, u2 := Trim(first), Trim(second);
    var greeting := Message(Bot, Greeting);
    w := new ChatWidget();
    w.SetInput(first);
    assert w.SendEnabled();
    var t1 := w.ClickSend();
    assert t1 == Some(Turn(u1, FindFaqAnswer(u1)));
    assert w.messages == [greeting, Message(User, u1)];
    assert w.inFlight == [t1.value] && w.isTyping;
    w.SetInput(second);
    var t2 := w.PressKey("Enter");
    assert w.messages == [greeting, Message(User, u1), Message(User, u2)];
    assert w.inFlight == [t1.value, t2.value];
    var reply := w.Deliver(0, remote);
    assert w.inFlight == [t2.value];
  }
}
