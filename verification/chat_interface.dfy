/**
  The chat transcript: an append-only list of messages, the text field, and
  the isGenerating flag, driven by the form's submit handler.

  The handler's one network request is split at its await: Submit runs up to
  the request (guard, user message, flag set) and returns the prompt sent;
  Settle runs after the request settles, given its outcome as a parameter
  (the response text, or a thrown failure), and ends with the `finally` reset.
  Message ids come from Date.now(); the clock readings are parameters.
 */
module ChatInterface {
  import opened Js

  datatype Role = User | Assistant

  datatype Message = Message(id: string, role: Role, content: string)

  /** How the fetch settled: the body text of any response, or a thrown error. */
  datatype FetchOutcome = Resolved(text: string) | Failed

  const Greeting: string :=
    "Hello! I'm your Tiru AI (Perplexity). Ask me anything or describe a machine, and I'll respond instantly."

  const ErrorReply: string := "Error: Failed to get response from server."

  const QuickPrompts: seq<string> := [
    "Industrial robotic arm for welding",
    "Autonomous delivery drone",
    "Precision CNC machine",
    "Collaborative robot for assembly"
  ]

  /** The assistant message appended once the request settles; its id is
      Date.now() + 1 on success and Date.now() + 2 on failure. */
  function Reply(outcome: FetchOutcome, now: nat): (m: Message)
    ensures m.role == Assistant
    ensures outcome.Resolved? ==> m.content == outcome.text && m.id == NatToString(now + 1)
    ensures outcome.Failed? ==> m.content == ErrorReply && m.id == NatToString(now + 2)
  {
    match outcome
    case Resolved(text) => Message(NatToString(now + 1), Assistant, text)
    case Failed => Message(NatToString(now + 2), Assistant, ErrorReply)
  }

  /** After the greeting, user and assistant messages alternate, user first. */
  ghost predicate Alternating(ms: seq<Message>)
  {
    forall i :: 1 <= i < |ms| ==> ms[i].role == (if i % 2 == 1 then User else Assistant)
  }

  /** The send button's `disabled`: blank input or a request in flight. */
  function SendDisabled(input: string, isGenerating: bool): (d: bool)
    ensures !d <==> !IsBlank(input) && !isGenerating
  {
    IsBlank(input) || isGenerating
  }

  /** The quick prompts are offered while the transcript holds at most the greeting. */
  function QuickPromptsShown(messages: seq<Message>): (shown: bool)
    ensures shown <==> |messages| <= 1
  {
    |messages| <= 1
  }

  class ChatSession {
    var messages: seq<Message>
    var input: string
    var isGenerating: bool

    /** The transcript starts with the greeting; while no request is in flight
        it holds the greeting plus complete user/assistant pairs, and while one
        is in flight it ends with the user message that started it. */
    ghost predicate Valid()
      reads this
    {
      |messages| >= 1 &&
      messages[0] == Message("1", Assistant, Greeting) &&
      Alternating(messages) &&
      (isGenerating <==> |messages| % 2 == 0)
    }

    constructor ()
      ensures Valid()
      ensures messages == [Message("1", Assistant, Greeting)]
      ensures input == "" && !isGenerating
    {
      messages := [Message("1", Assistant, Greeting)];
      input := "";
      isGenerating := false;
    }

    /** Typing in the text field. */
    method SetInput(text: string)
      requires Valid()
      modifies this
      ensures Valid()
      ensures input == text && messages == old(messages) && isGenerating == old(isGenerating)
    {
      input := text;
    }

    /** Choosing quick prompt k (the buttons exist only while they are shown). */
    method ChooseQuickPrompt(k: nat)
      requires Valid()
      requires k < |QuickPrompts| && QuickPromptsShown(messages)
      modifies this
      ensures Valid()
      ensures input == QuickPrompts[k] && messages == old(messages) && isGenerating == old(isGenerating)
    {
      input := QuickPrompts[k];
    }

    /** handleSubmit up to the await. A blank input or a request in flight
        makes it a no-op; otherwise the trimmed input is appended as a user
        message with id Date.now(), the flag is set, and the same trimmed text
        is the prompt sent. */
    method Submit(now: nat) returns (prompt: Option<string>)
      requires Valid()
      modifies this
      ensures Valid()
      ensures input == old(input)
      ensures prompt.None? <==> IsBlank(old(input)) || old(isGenerating)
      ensures prompt.None? <==> SendDisabled(old(input), old(isGenerating))
      ensures prompt.None? ==> messages == old(messages) && isGenerating == old(isGenerating)
      ensures prompt.Some? ==>
        prompt.value == Trim(old(input)) &&
        messages == old(messages) + [Message(NatToString(now), User, Trim(old(input)))] &&
        isGenerating
    {
      if IsBlank(input) || isGenerating {
        return None;
      }
      var text := Trim(input);
      messages := messages + [Message(NatToString(now), User, text)];
      isGenerating := true;
      prompt := Some(text);
    }

    /** handleSubmit after the await: exactly one assistant message (the
        response text, whatever the status, or the fixed error text), then the
        `finally` clears the input and the flag. */
    method Settle(outcome: FetchOutcome, now: nat)
      requires Valid() && isGenerating
      modifies this
      ensures Valid()
      ensures messages == old(messages) + [Reply(outcome, now)]
      ensures input == "" && !isGenerating
    {
      messages := messages + [Reply(outcome, now)];
      input := "";
      isGenerating := false;
    }

    /** One whole submit: an accepted one grows the transcript by exactly a
        user message then an assistant message, leaves the earlier messages
        as they were, and always ends idle with an empty input. */
    method HandleSubmit(outcome: FetchOutcome, submittedAt: nat, settledAt: nat)
      returns (prompt: Option<string>)
      requires Valid()
      modifies this
      ensures Valid()
      ensures prompt.None? <==> IsBlank(old(input)) || old(isGenerating)
      ensures prompt.None? ==>
        messages == old(messages) && input == old(input) && isGenerating == old(isGenerating)
      ensures prompt.Some? ==>
        prompt.value == Trim(old(input)) &&
        messages == old(messages) + [Message(NatToString(submittedAt), User, Trim(old(input))),
                                     Reply(outcome, settledAt)] &&
        input == "" && !isGenerating
    {
      prompt := Submit(submittedAt);
      if prompt.Some? {
        Settle(outcome, settledAt);
      }
    }
  }

  /** The quick prompts are offered exactly while the transcript is the greeting
      alone: the first submit hides them for good. */
  lemma QuickPromptsOnlyAtStart(c: ChatSession)
    requires c.Valid()
    ensures QuickPromptsShown(c.messages) <==> c.messages == [Message("1", Assistant, Greeting)]
  {
  }

  /** The text shown for an outcome. */
  function Answer(outcome: FetchOutcome): (text: string)
    ensures outcome.Resolved? ==> text == outcome.text
    ensures outcome.Failed? ==> text == ErrorReply
  {
    Reply(outcome, 0).content
  }

  /** What a transcript shows: each message's role and content, in order. */
  function Shown(ms: seq<Message>): (cs: seq<(Role, string)>)
    ensures |cs| == |ms|
    ensures forall i :: 0 <= i < |ms| ==> cs[i] == (ms[i].role, ms[i].content)
  {
    seq(|ms|, i requires 0 <= i < |ms| => (ms[i].role, ms[i].content))
  }

  /** The expected pairs for questions and their answers: each question
      followed by its answer, in order. */
  function Dialogue(questions: seq<string>, answers: seq<string>): (cs: seq<(Role, string)>)
    requires |questions| == |answers|
    ensures |cs| == 2 * |questions|
  {
    if questions == [] then []
    else
      var n := |questions| - 1;
      Dialogue(questions[..n], answers[..n]) + [(User, questions[n]), (Assistant, answers[n])]
  }

  /** The k-th pair of a dialogue is the k-th question and its answer. */
  lemma {:induction false} DialogueAt(questions: seq<string>, answers: seq<string>, k: nat)
    requires |questions| == |answers| && k < |questions|
    ensures Dialogue(questions, answers)[2 * k] == (User, questions[k])
    ensures Dialogue(questions, answers)[2 * k + 1] == (Assistant, answers[k])
  {
    var n := |questions| - 1;
    var prefix := Dialogue(questions[..n], answers[..n]);
    assert Dialogue(questions, answers) == prefix + [(User, questions[n]), (Assistant, answers[n])];
    if k < n {
      DialogueAt(questions[..n], answers[..n], k);
      assert questions[..n][k] == questions[k] && answers[..n][k] == answers[k];
    }
  }

  /** A dialogue's first k + 1 pairs are its first k pairs and then the next. */
  lemma {:induction false} DialogueGrows(questions: seq<string>, answers: seq<string>, k: nat)
    requires |questions| == |answers| && k < |questions|
    ensures Dialogue(questions[..k + 1], answers[..k + 1]) ==
      Dialogue(questions[..k], answers[..k]) + [(User, questions[k]), (Assistant, answers[k])]
  {
    ghost var qs, rs := questions[..k + 1], answers[..k + 1];
    assert |qs| - 1 == k && qs[k] == questions[k] && rs[k] == answers[k];
    assert qs[..k] == questions[..k] && rs[..k] == answers[..k];
  }

  /** What the user message of each input shows: the trimmed input. */
  function Questions(inputs: seq<string>): (qs: seq<string>)
    ensures |qs| == |inputs|
    ensures forall i :: 0 <= i < |inputs| ==> qs[i] == Trim(inputs[i])
  {
    seq(|inputs|, i requires 0 <= i < |inputs| => Trim(inputs[i]))
  }

  /** What the assistant message of each outcome shows. */
  function Answers(outcomes: seq<FetchOutcome>): (rs: seq<string>)
    ensures |rs| == |outcomes|
    ensures forall i :: 0 <= i < |outcomes| ==> rs[i] == Answer(outcomes[i])
  {
    seq(|outcomes|, i requires 0 <= i < |outcomes| => Answer(outcomes[i]))
  }

  lemma {:induction false} ShownAppend(ms: seq<Message>, a: Message, b: Message)
    ensures Shown(ms + [a, b]) == Shown(ms) + [(a.role, a.content), (b.role, b.content)]
  {
  }

  /** One accepted submit, answered at once, extends the shown dialogue by its pair. */
  method AskAndAnswer(session: ChatSession, inputs: seq<string>, outcomes: seq<FetchOutcome>, k: nat)
    requires |inputs| == |outcomes| && k < |inputs| && !IsBlank(inputs[k])
    requires session.Valid() && !session.isGenerating
    requires Shown(session.messages) ==
      [(Assistant, Greeting)] + Dialogue(Questions(inputs)[..k], Answers(outcomes)[..k])
    modifies session
    ensures session.Valid() && !session.isGenerating && session.input == ""
    ensures Shown(session.messages) ==
      [(Assistant, Greeting)] + Dialogue(Questions(inputs)[..k + 1], Answers(outcomes)[..k + 1])
  {
    ghost var before := session.messages;
    ghost var question := Message(NatToString(2 * k), User, Trim(inputs[k]));
    ghost var answer := Reply(outcomes[k], 2 * k + 1);
    ghost var qs, rs := Questions(inputs), Answers(outcomes);
    session.SetInput(inputs[k]);
    var prompt := session.HandleSubmit(outcomes[k], 2 * k, 2 * k + 1);
    assert session.messages == before + [question, answer];
    ShownAppend(before, question, answer);
    assert (question.role, question.content) == (User, qs[k]);
    assert (answer.role, answer.content) == (Assistant, rs[k]);
    DialogueGrows(qs, rs, k);
    PairAppended((Assistant, Greeting), Shown(before), Dialogue(qs[..k], rs[..k]),
                 [(User, qs[k]), (Assistant, rs[k])]);
  }

  /** Appending the same pair to both sides of an equation of transcripts. */
  lemma PairAppended<T>(first: T, shown: seq<T>, dialogue: seq<T>, pair: seq<T>)
    requires shown == [first] + dialogue
    ensures shown + pair == [first] + (dialogue + pair)
  {
  }

  /** A run of accepted submits, each answered at once: the transcript shows
      the greeting followed by one (question, answer) pair per submit, in order. */
  method Conversation(inputs: seq<string>, outcomes: seq<FetchOutcome>) returns (session: ChatSession)
    requires |inputs| == |outcomes|
    requires forall k :: 0 <= k < |inputs| ==> !IsBlank(inputs[k])
    ensures fresh(session) && session.Valid()
    ensures !session.isGenerating && session.input == ""
    ensures Shown(session.messages) == [(Assistant, Greeting)] + Dialogue(Questions(inputs), Answers(outcomes))
  {
    session := new ChatSession();
    var k := 0;
    while k < |inputs|
      invariant 0 <= k <= |inputs|
      invariant session.Valid() && !session.isGenerating && session.input == ""
      invariant Shown(session.messages) ==
        [(Assistant, Greeting)] + Dialogue(Questions(inputs)[..k], Answers(outcomes)[..k])
    {
      AskAndAnswer(session, inputs, outcomes, k);
      k := k + 1;
    }
    assert Questions(inputs)[..k] == Questions(inputs) && Answers(outcomes)[..k] == Answers(outcomes);
  }
}
