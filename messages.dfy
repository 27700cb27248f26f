/** The tutor chat provider (src/utils/useMessages.tsx): the message list
    seeded with a system prompt and a welcome message built from the route's
    `question` and `answer`, and `addMessage`, which appends the user's
    message and then the model's reply. What `sendMessage` resolves to is a
    parameter: the parsed response body, or nothing when the fetch or the
    parsing failed (src/utils/sendMessage.ts then returns `undefined`). */
module Messages {
  import opened Js
  import opened JsonData

  /** An entry of the list: one the page builds, or the value read from a
      reply's `choices[0].message`, which may be any JSON value or `undefined`. */
  datatype Message = Message(role: string, content: string) | Reply(value: Access)

  const SystemPrompt := "You are ChatGPT, a large language model trained by OpenAI, acting as a Nigerian tutor to educate Nigerian students."

  /** The welcome message: the user's answer and the question, quoted. */
  function WelcomeText(question: string, answer: string): (r: string)
    ensures |r| >= 14 + |answer| + 19 + |question|
    ensures r[14..14 + |answer|] == answer
    ensures r[14 + |answer| + 19..14 + |answer| + 19 + |question|] == question
  {
    "You answered \"" + answer + "\" to the question \"" + question
    + "\" I'm your tutor, here to help you! How did you arrive at this answer?"
  }

  /** The seeding effect: an empty list with a truthy `question` and
      `answer` becomes exactly the system prompt and the welcome message;
      anything else is left as it is. */
  function Seed(messages: seq<Message>, question: Option<string>, answer: Option<string>): (r: seq<Message>)
    ensures messages == [] && TruthyString(question) && TruthyString(answer) ==>
              r == [Message("system", SystemPrompt), Message("assistant", WelcomeText(question.value, answer.value))]
    ensures !(messages == [] && TruthyString(question) && TruthyString(answer)) ==> r == messages
  {
    if |messages| == 0 && TruthyString(question) && TruthyString(answer) then
      [Message("system", SystemPrompt), Message("assistant", WelcomeText(question.value, answer.value))]
    else messages
  }

  /** Seeding happens at most once: running the effect again with the same
      route changes nothing, and once the list is not empty no route changes it. */
  lemma SeedIdempotent(messages: seq<Message>, q: Option<string>, a: Option<string>, q2: Option<string>, a2: Option<string>)
    ensures Seed(Seed(messages, q, a), q, a) == Seed(messages, q, a)
    ensures Seed(messages, q, a) != [] ==> Seed(Seed(messages, q, a), q2, a2) == Seed(messages, q, a)
    ensures Seed(messages, q, a) != [] <==> messages != [] || (TruthyString(q) && TruthyString(a))
  {
  }

  /** `const { data } = await sendMessage(...)` followed by
      `data.choices[0].message`: the reply, or `None` when one of these
      reads throws (also when `sendMessage` returned `undefined`). */
  function ReplyOf(result: Option<Json>): (r: Option<Access>)
    ensures result.None? ==> r.None?
    ensures result == Some(JNull) ==> r.None?
    ensures r.Some? ==> !r.value.TypeError?
  {
    match result
    case None => None
    case Some(body) =>
      var message := Get(Get(Get(Get(Found(body), "data"), "choices"), "0"), "message");
      if message.TypeError? then None else Some(message)
  }

  /** A reply of the usual shape yields its first choice's message. */
  lemma ReplyOfFirstChoice(m: Json, rest: seq<Json>)
    ensures ReplyOf(Some(JObj(map["data" := JObj(map["choices" := JArr([JObj(map["message" := m])] + rest)])])))
         == Some(Found(m))
  {
  }

  /** The chat state: the list and the loading flag. */
  datatype Chat = Chat(messages: seq<Message>, isLoadingAnswer: bool)

  /** `addMessage(content)`: the list sent to the model (the old list and
      the user's message), the new state and whether an error toast is shown. */
  function AddMessageStep(s: Chat, content: string, result: Option<Json>): (r: (seq<Message>, Chat, bool))
    ensures r.0 == s.messages + [Message("user", content)]
    ensures !r.1.isLoadingAnswer
    ensures r.2 <==> ReplyOf(result).None?
    ensures r.2 ==> r.1.messages == r.0
    ensures !r.2 ==> r.1.messages == r.0 + [Reply(ReplyOf(result).value)]
    ensures s.messages <= r.1.messages && |r.1.messages| <= |s.messages| + 2
  {
    var sent := s.messages + [Message("user", content)];
    match ReplyOf(result)
    case None => (sent, Chat(sent, false), true)
    case Some(reply) => (sent, Chat(sent + [Reply(reply)], false), false)
  }

  /** A sequence of `addMessage` calls only ever extends the list: what was
      there stays, in order, and each call adds the user's message. */
  lemma {:induction false} AddMessagesExtend(s: Chat, contents: seq<string>, results: seq<Option<Json>>)
    requires |contents| == |results|
    ensures s.messages <= AddAll(s, contents, results).messages
    ensures |AddAll(s, contents, results).messages| >= |s.messages| + |contents|
    decreases |contents|
  {
    if contents != [] {
      var next := AddMessageStep(s, contents[0], results[0]).1;
      AddMessagesExtend(next, contents[1..], results[1..]);
    }
  }

  function AddAll(s: Chat, contents: seq<string>, results: seq<Option<Json>>): Chat
    requires |contents| == |results|
    decreases |contents|
  {
    if contents == [] then s else AddAll(AddMessageStep(s, contents[0], results[0]).1, contents[1..], results[1..])
  }

  /** The provider instance. */
  class MessagesProvider {
    var messages: seq<Message>
    var isLoadingAnswer: bool

    function State(): Chat
      reads this
    {
      Chat(messages, isLoadingAnswer)
    }

    constructor ()
      ensures State() == Chat([], false)
    {
      messages := [];
      isLoadingAnswer := false;
    }

    /** The effect that seeds the chat from the route's `question` and `answer`. */
    method InitializeChat(question: Option<string>, answer: Option<string>)
      modifies this
      ensures State() == Chat(Seed(old(messages), question, answer), old(isLoadingAnswer))
    {
      if |messages| == 0 && question.Some? && question.value != "" && answer.Some? && answer.value != "" {
        messages := [Message("system", SystemPrompt), Message("assistant", WelcomeText(question.value, answer.value))];
      }
    }

    /** `addMessage(content)`; `result` is what `sendMessage` resolved to. */
    method AddMessage(content: string, result: Option<Json>) returns (sent: seq<Message>, toast: bool)
      modifies this
      ensures (sent, State(), toast) == AddMessageStep(old(State()), content, result)
    {
      isLoadingAnswer := true;
      sent := messages + [Message("user", content)];
      messages := sent;
      var reply := ReplyOf(result);
      toast := reply.None?;
      if reply.Some? {
        messages := sent + [Reply(reply.value)];
      }
      isLoadingAnswer := false;
    }
  }
}
