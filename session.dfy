/**
 * The per-browser-session state of the chat page and the updates one pass
 * of the page script makes to it (app.py). Each user interaction reruns the
 * script from the top; `Session.Run` is one such pass, built from one method
 * per state update: submitting and clearing the API key, recording the date,
 * loading an uploaded CSV file, and answering one chat message.
 */
module SessionState {
  import opened Wrappers
  import opened Formatter

  datatype Role = User | Assistant | System

  datatype Message = Message(role: Role, content: string)

  /** A parsed CSV dataset. Nothing in the session looks inside it. */
  datatype Frame = Frame(columns: seq<string>, rows: seq<seq<string>>)

  /**
   * The question-answering agent, recorded by what it was built from: the
   * file name and dataset, the API key in force at the time, and which build
   * of the session it is.
   */
  datatype Agent = Agent(file: string, frame: Frame, key: Option<string>, build: nat)

  /** The first entry of every transcript. */
  const Greeting: Message := Message(Assistant, "Hello! Please upload a CSV file to begin.")

  const DatePrefix: string := "Current date: "

  const ErrorPrefix: string := "An error occurred: "

  /** How many earlier entries the rolling memory keeps at each answered turn. */
  const MemoryKeep: nat := 4

  /** The entry each pass past the key gate adds to the memory. */
  function DateEntry(now: string): Message {
    Message(System, DatePrefix + now)
  }

  /** The assistant's reply when the agent fails: the fixed prefix, then the failure's own text. */
  function ErrorMessage(detail: string): (r: string)
    ensures |r| == |ErrorPrefix| + |detail|
    ensures r[..|ErrorPrefix|] == ErrorPrefix && r[|ErrorPrefix|..] == detail
  {
    ErrorPrefix + detail
  }

  function Min(a: nat, b: nat): nat {
    if a <= b then a else b
  }

  /** Python's `m[-n:]`: the last `n` entries of `m`, or all of `m` when it is shorter. */
  function TakeLast(m: seq<Message>, n: nat): seq<Message> {
    if |m| <= n then m else m[|m| - n..]
  }

  /** The memory after an answered turn: what `memory[-4:]` keeps, then the question and its formatted answer. */
  function RollMemory(memory: seq<Message>, prompt: string, answer: string): seq<Message> {
    TakeLast(memory, MemoryKeep) + [Message(User, prompt), Message(Assistant, answer)]
  }

  /**
   * The rolling window: after an answered turn the memory holds at most
   * `MemoryKeep` of the latest earlier entries, unchanged and in order, then
   * the question and the formatted answer; so it never exceeds six entries.
   */
  lemma RollMemoryWindow(memory: seq<Message>, prompt: string, answer: string)
    ensures var r := RollMemory(memory, prompt, answer);
      && 2 <= |r| <= MemoryKeep + 2
      && |r| - 2 == Min(MemoryKeep, |memory|)
      && r[..|r| - 2] == memory[|memory| - (|r| - 2)..]
      && r[|r| - 2] == Message(User, prompt) && r[|r| - 1] == Message(Assistant, answer)
  {
  }

  /**
   * Within one pass the date entry is added just before the turn rolls the
   * memory, so an answered turn's memory always ends with that pass's date
   * entry, the question and the answer.
   */
  lemma RollKeepsRunDate(memory: seq<Message>, now: string, prompt: string, answer: string)
    ensures var r := RollMemory(memory + [DateEntry(now)], prompt, answer);
      3 <= |r| && r[|r| - 3..] == [DateEntry(now), Message(User, prompt), Message(Assistant, answer)]
  {
  }

  /**
   * The transcript shown to the user after `turns` chat turns: the greeting,
   * then one question and one reply per turn, in that order.
   */
  ghost predicate Transcript(ms: seq<Message>, turns: nat) {
    && |ms| == 1 + 2 * turns
    && ms[0] == Greeting
    && forall i :: 1 <= i < |ms| ==> ms[i].role == (if i % 2 == 1 then User else Assistant)
  }

  /** A question followed by a reply extends a transcript by exactly one turn. */
  lemma TranscriptExtend(ms: seq<Message>, turns: nat, prompt: string, reply: string)
    requires Transcript(ms, turns)
    ensures Transcript(ms + [Message(User, prompt), Message(Assistant, reply)], turns + 1)
  {
  }

  /** An upload as the file widget delivers it: the file's name and the result of parsing it as CSV. */
  datatype Upload = Upload(name: string, parsed: Result<Frame, string>)

  /** What `Session.Upload` did with the uploaded file. */
  datatype UploadOutcome = Reused | Reloaded | ParseFailed(detail: string)

  /**
   * Everything one pass of the script reads from the page: the key field and
   * its Submit button, the clock, the file widget, the chat box (empty when
   * nothing was sent), what the agent would answer, and the Reset button.
   */
  datatype Interaction = Interaction(
    keyInput: string,
    submitPressed: bool,
    now: string,
    upload: Option<Upload>,
    prompt: string,
    reply: Result<Answer, string>,
    resetPressed: bool)

  /** Where a pass of the script ended. */
  datatype Stage =
    | KeyGate       // no API key yet: only the key form was shown
    | NoUpload      // past the key gate, but no file in the widget
    | UploadFailed  // the uploaded file could not be parsed
    | Ready         // a dataset and agent are in place; a chat turn ran if a message was sent

  class Session {
    var apiKey: Option<string>
    var messages: seq<Message>
    var memory: seq<Message>
    var df: Option<Frame>
    var currentFile: Option<string>
    var agent: Option<Agent>
    /** How many agents this session has built. */
    var builds: nat
    /** How many chat turns this session has run. */
    ghost var turns: nat
    /** The line wrapper answers are formatted with; it never changes. */
    const wrap: (string, nat) -> string

    ghost predicate Valid()
      reads this
    {
      && (apiKey.Some? ==> apiKey.value != "")
      && Transcript(messages, turns)
      && (df.Some? <==> currentFile.Some?)
      && (agent.Some? <==> df.Some?)
      && (agent.Some? <==> builds > 0)
      && (agent.Some? ==>
            agent.value.file == currentFile.value && agent.value.frame == df.value && agent.value.build == builds)
    }

    /**
     * The first pass of a session: no key, the greeting alone, empty memory,
     * no dataset and no agent. `wrap` is the line wrapper answers are
     * formatted with (`textwrap.fill` in the app).
     */
    constructor (wrap: (string, nat) -> string)
      ensures Valid()
      ensures apiKey == None && messages == [Greeting] && memory == []
      ensures df == None && currentFile == None && agent == None && builds == 0
      ensures this.wrap == wrap
    {
      this.wrap := wrap;
      apiKey := None;
      messages := [Greeting];
      memory := [];
      df := None;
      currentFile := None;
      agent := None;
      builds := 0;
      turns := 0;
    }

    /** The key form's Submit button: an empty key is refused, any other is stored as typed. */
    method SubmitKey(key: string) returns (accepted: bool)
      requires Valid()
      modifies this`apiKey
      ensures Valid()
      ensures accepted <==> key != ""
      ensures apiKey == if accepted then Some(key) else old(apiKey)
    {
      accepted := key != "";
      if accepted {
        apiKey := Some(key);
      }
    }

    /** clear_api_key: forget the key and nothing else. */
    method ClearKey()
      requires Valid()
      modifies this`apiKey
      ensures Valid()
      ensures apiKey == None
    {
      apiKey := None;
    }

    /** Every pass past the key gate adds one date entry to the memory. */
    method AppendDate(now: string)
      requires Valid()
      modifies this`memory
      ensures Valid()
      ensures memory == old(memory) + [DateEntry(now)]
    {
      memory := memory + [DateEntry(now)];
    }

    /**
     * Load the uploaded file, unless a dataset is loaded under the same name:
     * only then is it parsed and a new agent built, with the key in force now.
     * The name alone decides; a file of the same name with new contents is
     * not read again.
     */
    method Upload(name: string, parsed: Result<Frame, string>) returns (outcome: UploadOutcome)
      requires Valid()
      modifies this`df, this`currentFile, this`agent, this`builds
      ensures Valid()
      ensures var stale := old(df).None? || old(currentFile) != Some(name);
        && (!stale ==> outcome == Reused)
        && (stale && parsed.Failure? ==> outcome == ParseFailed(parsed.error))
        && (stale && parsed.Success? ==> outcome == Reloaded)
      ensures outcome.Reloaded? ==>
        && df == Some(parsed.value) && currentFile == Some(name)
        && builds == old(builds) + 1
        && agent == Some(Agent(name, parsed.value, apiKey, builds))
      ensures !outcome.Reloaded? ==>
        df == old(df) && currentFile == old(currentFile) && agent == old(agent) && builds == old(builds)
    {
      if df.None? || currentFile != Some(name) {
        match parsed {
          case Failure(detail) =>
            outcome := ParseFailed(detail);
          case Success(frame) =>
            df := Some(frame);
            currentFile := Some(name);
            builds := builds + 1;
            agent := Some(Agent(name, frame, apiKey, builds));
            outcome := Reloaded;
        }
      } else {
        outcome := Reused;
      }
    }

    /**
     * One chat turn. An empty message does nothing. Otherwise the question is
     * added to the transcript, then exactly one reply: the formatted answer,
     * which also rolls the memory, or the error message, which leaves the
     * memory as it was.
     */
    method ChatTurn(prompt: string, reply: Result<Answer, string>)
      requires Valid()
      modifies this`messages, this`memory, this`turns
      ensures Valid()
      ensures prompt == "" ==> messages == old(messages) && memory == old(memory) && turns == old(turns)
      ensures prompt != "" ==> turns == old(turns) + 1
      ensures prompt != "" && reply.Success? ==>
        var answer := FormatText(reply.value, DefaultWidth, wrap);
        && messages == old(messages) + [Message(User, prompt), Message(Assistant, answer)]
        && memory == RollMemory(old(memory), prompt, answer)
      ensures prompt != "" && reply.Failure? ==>
        && messages == old(messages) + [Message(User, prompt), Message(Assistant, ErrorMessage(reply.error))]
        && memory == old(memory)
    {
      if prompt != "" {
        var text: string;
        match reply {
          case Success(answer) =>
            text := FormatText(answer, DefaultWidth, wrap);
            memory := RollMemory(memory, prompt, text);
          case Failure(detail) =>
            text := ErrorMessage(detail);
        }
        TranscriptExtend(messages, turns, prompt, text);
        messages := messages + [Message(User, prompt), Message(Assistant, text)];
        turns := turns + 1;
      }
    }

    /**
     * One pass of the page script. Without a key only the key form runs; a
     * key it accepts forces an immediate further pass, with no file, no
     * message and no button pressed, which adds its date entry (taken at the
     * same `now`). Otherwise the date entry is added; with a file in the widget the file
     * is loaded if need be and, when that succeeded, a sent message gets its
     * chat turn; last, the Reset button clears the key.
     */
    method Run(i: Interaction) returns (stage: Stage)
      requires Valid()
      modifies this
      ensures Valid()
      ensures stage == KeyGate <==> old(apiKey).None?
      ensures stage == NoUpload <==> old(apiKey).Some? && i.upload.None?
      ensures stage == UploadFailed <==>
        && old(apiKey).Some? && i.upload.Some? && i.upload.value.parsed.Failure?
        && (old(df).None? || old(currentFile) != Some(i.upload.value.name))
      ensures stage == KeyGate ==>
        var accepted := i.submitPressed && i.keyInput != "";
        && apiKey == (if accepted then Some(i.keyInput) else None)
        && memory == old(memory) + (if accepted then [DateEntry(i.now)] else [])
      ensures stage != KeyGate ==> apiKey == (if i.resetPressed && stage != UploadFailed then None else old(apiKey))
      ensures stage != Ready ==> messages == old(messages) && turns == old(turns)
      ensures stage == NoUpload || stage == UploadFailed ==> memory == old(memory) + [DateEntry(i.now)]
      ensures stage != Ready ==>
        df == old(df) && currentFile == old(currentFile) && agent == old(agent) && builds == old(builds)
      ensures stage == Ready ==>
        && i.upload.Some? && currentFile == Some(i.upload.value.name) && agent.Some?
        && (old(df).Some? && old(currentFile) == Some(i.upload.value.name) ==>
              df == old(df) && agent == old(agent) && builds == old(builds))
        && (old(df).None? || old(currentFile) != Some(i.upload.value.name) ==>
              && i.upload.value.parsed.Success?
              && df == Some(i.upload.value.parsed.value) && builds == old(builds) + 1
              && agent == Some(Agent(i.upload.value.name, i.upload.value.parsed.value, old(apiKey), builds)))
      ensures stage == Ready && i.prompt == "" ==>
        messages == old(messages) && memory == old(memory) + [DateEntry(i.now)]
      ensures stage == Ready && i.prompt != "" && i.reply.Success? ==>
        var answer := FormatText(i.reply.value, DefaultWidth, wrap);
        && messages == old(messages) + [Message(User, i.prompt), Message(Assistant, answer)]
        && memory == RollMemory(old(memory) + [DateEntry(i.now)], i.prompt, answer)
      ensures stage == Ready && i.prompt != "" && i.reply.Failure? ==>
        && messages == old(messages) + [Message(User, i.prompt), Message(Assistant, ErrorMessage(i.reply.error))]
        && memory == old(memory) + [DateEntry(i.now)]
    {
      if apiKey.None? {
        if i.submitPressed {
          var accepted := SubmitKey(i.keyInput);
          if accepted {
            AppendDate(i.now);
          }
        }
        return KeyGate;
      }
      AppendDate(i.now);
      match i.upload {
        case None =>
          stage := NoUpload;
        case Some(upload) =>
          var outcome := Upload(upload.name, upload.parsed);
          if outcome.ParseFailed? {
            return UploadFailed;
          }
          ChatTurn(i.prompt, i.reply);
          stage := Ready;
      }
      if i.resetPressed {
        ClearKey();
      }
    }
  }
}
