/**
 * Whole sessions, pass by pass, as a user drives the page. Each method
 * starts a fresh session and states what the session holds at the end.
 * Every pass carries the one event the page delivers at a time: a key
 * submitted, a file chosen, a message sent or the Reset button pressed. The
 * chat box is only shown once a file is in the widget, and the file widget
 * is empty again after a pass that stopped at the key gate.
 */
module Scenarios {
  import opened Wrappers
  import opened Formatter
  import opened SessionState

  /** What the agent would answer on a pass where no message is sent; it is never consulted. */
  const Unasked: Result<Answer, string> := Failure("")

  /** A pass with nothing but the given file in its widget. */
  function Idle(now: string, upload: Option<Upload>): Interaction {
    Interaction("", false, now, upload, "", Unasked, false)
  }

  /**
   * A file is loaded under the first key; the key is reset and a second one
   * entered; a file of the same name but with other contents is then
   * uploaded. The dataset is not read again and the agent is not rebuilt:
   * it still holds the first dataset and the first key.
   */
  method SameNameIsNotReloaded(wrap: (string, nat) -> string, key1: string, key2: string,
                               name: string, first: Frame, second: Frame, now: string)
    returns (agent: Agent, dataset: Frame, builds: nat)
    requires key1 != "" && key2 != ""
    ensures agent == Agent(name, first, Some(key1), 1)
    ensures dataset == first && builds == 1
  {
    var s := new Session(wrap);
    var stage := s.Run(Interaction(key1, true, now, None, "", Unasked, false));
    stage := s.Run(Idle(now, Some(Upload(name, Success(first)))));
    stage := s.Run(Interaction("", false, now, Some(Upload(name, Success(first))), "", Unasked, true));
    stage := s.Run(Idle(now, None));
    assert stage == KeyGate;
    stage := s.Run(Interaction(key2, true, now, None, "", Unasked, false));
    stage := s.Run(Idle(now, Some(Upload(name, Success(second)))));
    assert stage == Ready;
    agent, dataset, builds := s.agent.value, s.df.value, s.builds;
  }

  /**
   * A failed agent call costs the session nothing: the error becomes the
   * reply, and the next message gets its answer as usual. Both turns add a
   * question and a reply; only the answered one rolls the memory. By then
   * four passes have each added a date entry (the one forced by the accepted
   * key, the upload and the two messages), all four are kept, and the
   * memory holds six entries.
   */
  method FailureIsNotFatal(wrap: (string, nat) -> string, key: string, name: string, frame: Frame,
                           now: string, first: string, detail: string, second: string, text: string)
    returns (messages: seq<Message>, memory: seq<Message>)
    requires key != "" && first != "" && second != ""
    ensures messages == [
      Greeting,
      Message(User, first), Message(Assistant, ErrorMessage(detail)),
      Message(User, second), Message(Assistant, FormatText(Text(text), DefaultWidth, wrap))]
    ensures memory == [
      DateEntry(now), DateEntry(now), DateEntry(now), DateEntry(now),
      Message(User, second), Message(Assistant, FormatText(Text(text), DefaultWidth, wrap))]
  {
    var s := new Session(wrap);
    var stage := s.Run(Interaction(key, true, now, None, "", Unasked, false));
    var upload := Some(Upload(name, Success(frame)));
    stage := s.Run(Idle(now, upload));
    assert stage == Ready;
    stage := s.Run(Interaction("", false, now, upload, first, Failure(detail), false));
    assert stage == Ready;
    ghost var dates := [DateEntry(now), DateEntry(now), DateEntry(now)];
    assert s.memory == dates;
    ghost var said := [Greeting, Message(User, first), Message(Assistant, ErrorMessage(detail))];
    assert s.messages == said;
    var answer := FormatText(Text(text), DefaultWidth, wrap);
    ghost var before := s.memory + [DateEntry(now)];
    stage := s.Run(Interaction("", false, now, upload, second, Success(Text(text)), false));
    assert stage == Ready;
    assert s.messages == said + [Message(User, second), Message(Assistant, answer)];
    assert TakeLast(before, MemoryKeep) == before;
    assert s.memory == before + [Message(User, second), Message(Assistant, answer)];
    messages, memory := s.messages, s.memory;
  }

  /**
   * Resetting the key loses nothing else: once a new key is entered the
   * earlier conversation, memory, dataset and agent are all still there,
   * the agent still holding the first key. The pass forced by the Reset
   * button stops at the key gate and changes nothing.
   */
  method ResetKeepsConversation(wrap: (string, nat) -> string, key1: string, key2: string,
                                name: string, frame: Frame, now: string, question: string, answer: string)
    returns (messages: seq<Message>, memory: seq<Message>, agent: Option<Agent>, apiKey: Option<string>)
    requires key1 != "" && key2 != "" && question != ""
    ensures messages == [Greeting, Message(User, question), Message(Assistant, FormatText(Text(answer), DefaultWidth, wrap))]
    ensures memory == [
      DateEntry(now), DateEntry(now), DateEntry(now),
      Message(User, question), Message(Assistant, FormatText(Text(answer), DefaultWidth, wrap)),
      DateEntry(now), DateEntry(now)]
    ensures agent == Some(Agent(name, frame, Some(key1), 1))
    ensures apiKey == Some(key2)
  {
    var s := new Session(wrap);
    var stage := s.Run(Interaction(key1, true, now, None, "", Unasked, false));
    var upload := Some(Upload(name, Success(frame)));
    stage := s.Run(Idle(now, upload));
    ghost var loaded := Some(Agent(name, frame, Some(key1), 1));
    assert s.agent == loaded;
    ghost var before := [DateEntry(now), DateEntry(now), DateEntry(now)];
    assert s.memory + [DateEntry(now)] == before;
    assert TakeLast(before, MemoryKeep) == before;
    stage := s.Run(Interaction("", false, now, upload, question, Success(Text(answer)), false));
    assert stage == Ready;
    ghost var said := [Greeting, Message(User, question), Message(Assistant, FormatText(Text(answer), DefaultWidth, wrap))];
    ghost var kept := before + said[1..];
    assert s.messages == said && s.memory == kept && s.agent == loaded;
    stage := s.Run(Interaction("", false, now, upload, "", Unasked, true));
    assert s.apiKey == None && s.memory == kept + [DateEntry(now)];
    stage := s.Run(Idle(now, None));
    assert stage == KeyGate;
    stage := s.Run(Interaction(key2, true, now, None, "", Unasked, false));
    messages, memory, agent, apiKey := s.messages, s.memory, s.agent, s.apiKey;
  }
}
