# CSV Data Chat — session model

A Dafny model of the core of a single-page Streamlit app (`app.py`). The app lets a user
enter an OpenAI API key, upload a CSV file and ask questions about it. A LangChain pandas
agent answers them. The repository's own logic is a small state machine kept in
`st.session_state`, plus one response formatter. Both are modelled here:

- `wrappers.dfy`: `Option` and `Result`. `Result` stands for a call that may raise.
- `text_wrap.dfy` (module `TextWrap`): reading a string as lines, as `str.split("\n")` does,
  and `IsWrapper`, the three facts the formatter relies on from `textwrap.fill`. Every line
  fits the width. No character outside Python's `str.isspace` set is lost or reordered.
  No two words are joined: `textwrap` only adds breaks, so every boundary between two
  words of the text is still a word boundary in the result (`KeepsApart`).
  `textwrap.fill` is library code, so it enters the model as a parameter (`wrap`). The
  session's contracts hold for any wrapper. `FormatPriority` gives the line bound, the
  kept characters and the kept word boundaries for every wrapper that satisfies `IsWrapper`. `Fill` is a greedy filler
  proved to satisfy it, so that premise can be met.
- `formatter.dfy` (module `Formatter`): `format_text`. The answer is a tagged union
  `Table(rendering) | Text(s)`. A tabular answer is fenced. A text answer that holds `"| "`
  is fenced verbatim. Any other answer is passed to the wrapper.
- `session.dfy` (module `SessionState`): class `Session`. It has one field per
  session-state key (`openai_api_key`, `messages`, `memory`, `df`, `current_file`,
  `agent`) and one method per state update. `Session.Run` is one whole pass of the script.
  Streamlit reruns the script on every interaction, so a session is a sequence of `Run`
  calls. The agent is a token that records the file name, the dataset, the key and the
  build number it was made with. A session is created with the wrapper its answers are
  formatted with.
- `scenarios.dfy` (module `Scenarios`): whole sessions driven pass by pass through `Run`.
  Each one proves a property that spans several interactions.

`Session.Valid()` is the invariant every method keeps:
- A stored key is never empty.
- The transcript is the greeting followed by alternating question/reply pairs, one pair
  per turn. So after N turns it holds 1 + 2N entries.
- A dataset, a current file name and an agent are either all present or all absent.
- The agent was built from the current file and dataset, and is the latest build.

How `app.py` treats the memory and the passes of the script:
- An answered turn keeps `memory[-4:]` and adds the question and the answer, so up to six
  entries (app.py:125-128). `memory` is never passed to the agent: `agent.invoke` gets
  the prompt alone (app.py:115).
- Every pass past the key gate appends a date entry (app.py:59-60). So between answered
  turns the memory grows without bound. `Session.Run` and `RollKeepsRunDate` state this
  exactly.
- An accepted key calls `st.rerun()` (app.py:50). This forces an immediate further pass
  with no file, no message and no button pressed, which appends its date entry.
  `Session.Run` includes that pass in the one that accepted the key. The Reset button's
  `st.rerun()` (app.py:144) leads to a pass that stops at the key gate and changes nothing.
- `Session.Run` accepts any combination of events in one pass. The page itself delivers
  one event per pass: a key submitted, a file chosen, a message sent or Reset pressed.
  It shows the chat box only once a file is in the widget, and the file widget is empty
  again after a pass that stopped at the key gate. The scenarios follow that order.

## Model

| member | source | states |
|---|---|---|
| `TextWrap.FillFits` | app.py:35 | For a positive width, every line of the filled text is at most `width` characters long, it keeps the text's non-whitespace characters in order, and every boundary between two of the text's words is still a word boundary of the result: no word is lost, reordered or joined to another |
| `TextWrap.FillIsWrapper` | app.py:35 | What the formatter needs from `textwrap.fill` can be met: the greedy filler satisfies `IsWrapper`, all three facts, at every positive width |
| `TextWrap.WordsCover` | app.py:35 | The words of a text are non-empty and free of whitespace, and together they are exactly its non-whitespace characters |
| `TextWrap.ChunksCover` | app.py:35 | A word longer than the width is cut into non-empty pieces that fit the width and that together are the word |
| `TextWrap.GluingJoinsWords` | app.py:35 | The word-boundary fact has force: a result that turns `"a b"` into `"ab"` does not keep the words apart, so a wrapper doing that fails `IsWrapper` |
| `TextWrap.WordsSep` | app.py:35 | A whitespace character separates words: the words of `x + [c] + y` are the words of `x` followed by the words of `y` |
| `TextWrap.PiecesKeepCuts` | app.py:35 | Cutting long words into pieces keeps every boundary between the words |
| `TextWrap.WordsPack` | app.py:35 | The words of the filled lines are exactly the pieces, in order, each piece one word: the filler never joins two pieces |
| `TextWrap.PackFits` | app.py:35 | Greedy line filling from pieces that fit the width gives lines that fit it and hold no newline, and keeps every non-whitespace character in order |
| `TextWrap.SplitLinesNoNewline` | app.py:31-33 | A text without a newline is exactly one line, itself |
| `TextWrap.SplitJoin` | app.py:35 | Lines without newlines, once joined, split back into exactly the same lines |
| `TextWrap.SplitLinesAppend` | app.py:31-33 | Splitting `a + "\n" + b` into lines gives the lines of `a` followed by the lines of `b` |
| `Formatter.FormatPriority` | app.py:29-36 | `format_text`'s priority. A table is always fenced and never wrapped: its rendering comes back verbatim from the block, line for line. Otherwise text holding `"| "` is fenced verbatim with its line breaks kept. Only the remaining text goes to the wrapper. For any wrapper satisfying `IsWrapper`, that gives lines within the width, with no non-whitespace character lost or reordered and no two words joined. A positive width is needed only for wrapping |
| `Formatter.UnfenceFence` | app.py:31-33 | A fenced block gives back exactly the body it was made from |
| `Formatter.FenceLines` | app.py:31-33 | A fenced block's lines are the body's own lines, untouched, between two fence lines |
| `SessionState.ErrorMessage` | app.py:130 | The failure reply is `"An error occurred: "` followed by the failure's own text, which can be read back from it |
| `SessionState.RollMemoryWindow` | app.py:125-128 | After an answered turn the memory holds between 2 and 6 entries: the last `min(4, len)` earlier entries, unchanged and in order (`memory[-4:]`), then the question and the formatted answer |
| `SessionState.RollKeepsRunDate` | app.py:125-128 | The date entry appended earlier in the same pass (line 60) is always kept, so an answered turn's memory ends with that date entry, the question and the answer |
| `SessionState.TranscriptExtend` | app.py:107-135 | Appending a question and then a reply extends a well-formed transcript by exactly one turn |
| `SessionState.Session.constructor` | app.py:14-23 | The first pass starts with no key, a transcript holding exactly the assistant greeting, an empty memory, and no dataset, file or agent. The session keeps the wrapper it is given |
| `SessionState.Session.SubmitKey` | app.py:47-52 | An empty key is refused and leaves the key as it was. Any other key is stored unchanged. Nothing else changes |
| `SessionState.Session.ClearKey` | app.py:25-26 | `clear_api_key` unsets the key and changes nothing else |
| `SessionState.Session.AppendDate` | app.py:59-60 | Appends exactly one `system` entry `"Current date: …"` to the memory and changes nothing else |
| `SessionState.Session.Upload` | app.py:65-99 | The file is parsed and a new agent built, with the key in force, exactly when no dataset is loaded or the stored file name differs. Otherwise the dataset, name and agent stay as they were, whatever the file holds now. A parse failure changes nothing |
| `SessionState.Session.ChatTurn` | app.py:107-135 | An empty message does nothing. Otherwise exactly two entries are appended: the question, then one reply, with earlier entries unchanged. On success the reply is the answer formatted with the session's wrapper, and the memory rolls. On failure the reply is the error message and the memory is unchanged |
| `SessionState.Session.Run` | app.py:39-144 | One pass of the script. Without a key only the key form acts, and an accepted key adds the date entry of the pass its rerun forces. Past the gate it appends one date entry, then loads the file. A parse failure ends the pass there. A sent message gets its turn only when a file is loaded. Reset is reached only at the end of the pass and clears the key |
| `Scenarios.SameNameIsNotReloaded` | app.py:67-99 | Re-uploading a file under the same name, even with new contents and after the key was reset and replaced, keeps the first dataset and the agent built with the first key. Only one agent is ever built |
| `Scenarios.FailureIsNotFatal` | app.py:113-135 | After a failed agent call, the next message is answered as usual. Each pass carries one event. The transcript is greeting, question, error, question, answer. The memory holds six entries: four date entries (the pass forced by the key, the upload and the two messages), the question and the answer |
| `Scenarios.ResetKeepsConversation` | app.py:140-144 | Resetting the key loses nothing else. The pass forced by Reset stops at the key gate and changes nothing. With a new key, the earlier conversation, memory (with the date entries of the later passes added) and agent are all still there, and the agent still holds the first key |

## Left out

- All Streamlit rendering: the title, columns, the key form's error text, the dataset expander, `chat_message`, `markdown` and the info box. `st.stop()` is the end of a `Run` pass. The pass forced by `st.rerun()` after an accepted key is part of that `Run`. After Reset it is the next `Run`.
- The schema table and sample preview (`df.dtypes`, `df.count()`, `df.isna().sum()`, `df.head()`). They are display only. A dataset is a `Frame` of column names and rows, and nothing in the model looks inside it.
- `pd.read_csv` is an input: the upload carries its result as a `Result`.
- `DataFrame.to_string()` is an input too: a table answer carries its rendering.
- Agent construction (`create_pandas_dataframe_agent`, `ChatOpenAI` and their fixed options) becomes an `Agent` token. Construction is assumed never to raise.
- `agent.invoke` is a network call. Its outcome is the `reply` input of a turn, so failures of every kind (including a missing agent) arrive as `Failure(detail)`.
- `datetime.now()` is wall-clock I/O. The formatted date string is the `now` input. The pass forced by an accepted key is dated with the same `now`.
- TextWrap.IsWrapper: only three properties of `textwrap.fill` are assumed, as `IsWrapper`. Its exact output is not modelled. So the transcript contracts give a reply as "the session's wrapper applied to the answer", not as a concrete text.
- TextWrap.FillFits: `Fill` is not `textwrap.fill`. It breaks at every `str.isspace` character and turns each run of them into one space or a line break. `textwrap` breaks only at ASCII whitespace, writes one space per ASCII whitespace character, and keeps the others (such as U+00A0) unchanged inside a word. It drops whitespace at the start of the text, which `textwrap` keeps when a word follows. It never breaks after a hyphen, where `textwrap` does. It does not expand tabs to 8 columns. It starts a long word on a fresh line, where `textwrap` fills the rest of the current line with its first part. Nothing but `IsWrapper` is claimed from it.
- Formatter.FormatText: `textwrap` raises `ValueError` when the wrapping branch is taken with a width below one. The model has no error path there, and `IsWrapper` says nothing about such widths. The app always uses the default width of 70.
- Answer: a non-string, non-table agent output is modelled by the text `str()` gives for it.
