/** The patient dashboard (src/pages/Dashboard.tsx): the guard that shows only a login prompt
    without a session, the assistant chat whose send appends the patient's message and
    schedules a canned reply, and the avatar initials. Message timestamps are left out; the
    1.5 s delay of the reply is the gap between `HandleSendMessage` returning the scheduled
    reply and `DeliverReply` appending it. */
module Dashboard {
  import opened Wrappers
  import opened Text
  import opened AuthContext

  /** What the page renders. */
  datatype View = LoginPrompt | PatientDashboard

  /** `if (!patient) return <login prompt/>`. */
  function Gate(patient: Option<Patient>): (v: View)
    ensures v == LoginPrompt <==> patient.None?
  {
    if patient.None? then LoginPrompt else PatientDashboard
  }

  /** The dashboard is shown exactly to an authenticated session. */
  lemma GateFollowsSession(auth: AuthProvider)
    ensures Gate(auth.patient) == PatientDashboard <==> auth.IsAuthenticated()
  {
  }

  // ------------------------------------------------------------------ chat

  datatype Sender = Bot | PatientSender

  datatype ChatMessage = ChatMessage(id: int, sender: Sender, text: string)

  const Greeting: string := "Bună ziua! Sunt AEVA, asistentul tău virtual pentru longevitate. Cum te pot ajuta astăzi?"

  const ReplyText: string := "Mulțumesc pentru întrebare! Pe baza analizelor tale recente, îți recomand să discuți cu medicul despre optimizarea nivelului de Vitamina D și considerarea unei terapii IV NAD+ pentru îmbunătățirea energiei celulare. Dorești să programezi o consultație?"

  /** The patient's message as `handleSendMessage` builds it: numbered after the history it
      sees, carrying the text as typed (not trimmed). */
  function PatientMessage(history: seq<ChatMessage>, typed: string): (m: ChatMessage)
    ensures m.id == |history| + 1 && m.sender == PatientSender && m.text == typed
  {
    ChatMessage(|history| + 1, PatientSender, typed)
  }

  /** The reply the timer appends; its id is fixed when the message is sent, from the history
      length seen then. */
  function Reply(lengthAtSend: nat): (m: ChatMessage)
    ensures m.id == lengthAtSend + 2 && m.sender == Bot && m.text == ReplyText
  {
    ChatMessage(lengthAtSend + 2, Bot, ReplyText)
  }

  /** Each message is numbered by its position, starting at 1. */
  predicate IdsArePositions(history: seq<ChatMessage>)
  {
    forall i :: 0 <= i < |history| ==> history[i].id == i + 1
  }

  /** A send followed by its reply, before anything else is sent, keeps the messages
      numbered by position. */
  lemma ExchangeKeepsIds(history: seq<ChatMessage>, typed: string)
    requires IdsArePositions(history)
    ensures IdsArePositions(history + [PatientMessage(history, typed)] + [Reply(|history|)])
  {
    var h := history + [PatientMessage(history, typed)] + [Reply(|history|)];
    assert h[|history|].id == |history| + 1;
    assert h[|history| + 1].id == |history| + 2;
    assert forall i :: 0 <= i < |history| ==> h[i] == history[i];
  }

  /** A second message sent before the first reply arrives gets the id already promised to
      that reply, so the history then holds two messages with the same id. */
  lemma SecondSendBeforeReplySharesId(history: seq<ChatMessage>, first: string, second: string)
    ensures PatientMessage(history + [PatientMessage(history, first)], second).id == Reply(|history|).id
    ensures PatientMessage(history + [PatientMessage(history, first)], second) != Reply(|history|)
  {
  }

  class ChatPanel {
    var chatMessage: string
    var chatHistory: seq<ChatMessage>

    /** The greeting is message 1 and the input is empty. */
    constructor ()
      ensures chatMessage == "" && chatHistory == [ChatMessage(1, Bot, Greeting)]
      ensures IdsArePositions(chatHistory)
    {
      chatMessage := "";
      chatHistory := [ChatMessage(1, Bot, Greeting)];
    }

    /** `handleSendMessage()`: input that trims to nothing changes nothing and schedules
        nothing; otherwise the typed text is appended, the input cleared and the reply
        scheduled with its id fixed now. */
    method HandleSendMessage() returns (scheduled: Option<ChatMessage>)
      modifies this`chatHistory, this`chatMessage
      ensures Trim(old(chatMessage)) == [] ==> (scheduled.None?
        && chatHistory == old(chatHistory) && chatMessage == old(chatMessage))
      ensures Trim(old(chatMessage)) != [] ==> (chatMessage == ""
        && chatHistory == old(chatHistory) + [PatientMessage(old(chatHistory), old(chatMessage))]
        && scheduled == Some(Reply(|old(chatHistory)|)))
    {
      if Trim(chatMessage) == [] {
        return None;
      }
      var sent := PatientMessage(chatHistory, chatMessage);
      scheduled := Some(Reply(|chatHistory|));
      chatHistory := chatHistory + [sent];
      chatMessage := "";
    }

    /** The timer firing: the scheduled reply is appended to whatever the history is by then. */
    method DeliverReply(reply: ChatMessage)
      modifies this`chatHistory
      ensures chatHistory == old(chatHistory) + [reply]
    {
      chatHistory := chatHistory + [reply];
    }
  }

  // ------------------------------------------------------------------ initials

  /** `s[0]` inside a template literal: the first character, or the text "undefined" when
      the string is empty. */
  function FirstInTemplate(s: string): (r: string)
    ensures s != [] ==> r == [s[0]]
    ensures s == [] ==> r == "undefined"
  {
    if s == [] then "undefined" else [s[0]]
  }

  /** `getInitials(firstName, lastName)`. */
  function Initials(firstName: string, lastName: string): string
  {
    ToUpper(FirstInTemplate(firstName) + FirstInTemplate(lastName))
  }

  /** The text of an undefined first character, upper-cased. */
  lemma UpperUndefined()
    ensures ToUpper("undefined") == "UNDEFINED"
  {
    var s, u, e := "undefined", ToUpper("undefined"), "UNDEFINED";
    forall i | 0 <= i < 9
      ensures u[i] == e[i]
    {
      assert u[i] == UpperChar(s[i]);
      if i == 0 { assert s[i] == 'u'; }
      else if i == 1 { assert s[i] == 'n'; }
      else if i == 2 { assert s[i] == 'd'; }
      else if i == 3 { assert s[i] == 'e'; }
      else if i == 4 { assert s[i] == 'f'; }
      else if i == 5 { assert s[i] == 'i'; }
      else if i == 6 { assert s[i] == 'n'; }
      else if i == 7 { assert s[i] == 'e'; }
      else { assert s[i] == 'd'; }
    }
  }

  /** With both names present the initials are the two upper-cased first letters; an empty
      first name shows "UNDEFINED" in their place. */
  lemma InitialsOfNames(firstName: string, lastName: string)
    ensures firstName != [] && lastName != [] ==> Initials(firstName, lastName) == [UpperChar(firstName[0]), UpperChar(lastName[0])]
    ensures firstName == [] ==> Initials(firstName, lastName)[..9] == "UNDEFINED"
  {
    var t := FirstInTemplate(firstName) + FirstInTemplate(lastName);
    if firstName == [] {
      assert t[..9] == "undefined";
      assert ToUpper(t)[..9] == ToUpper(t[..9]);
      UpperUndefined();
    }
  }

  /** The mock login's patient is shown as "IP"; a sign-up with an empty first name, which
      nothing rejects, is shown with "UNDEFINED". */
  lemma SessionInitials(email: string, data: SignupData, now: nat)
    ensures Initials(MockPatient(email).firstName, MockPatient(email).lastName) == "IP"
    ensures data.firstName == [] ==> Initials(NewPatient(data, now).firstName, NewPatient(data, now).lastName)[..9] == "UNDEFINED"
  {
    InitialsOfNames(MockPatient(email).firstName, MockPatient(email).lastName);
    InitialsOfNames(NewPatient(data, now).firstName, NewPatient(data, now).lastName);
  }
}
