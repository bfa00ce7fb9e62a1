# Ollama chat front-end: conversation log and streaming turn

This project models the core of a local chat front-end that talks to an Ollama
language-model server. The front-end keeps one process-wide conversation log
(`history`, a list of role/content messages), one configuration dictionary and one
stop flag. A chat turn appends the user's question to the log, sends the whole log to
the server with the sampling options, and consumes the streamed answer fragment by
fragment. Each fragment is added to an accumulator and the full text so far is handed to
the page. The answer goes into the log only if the turn ends normally and the stop
button was never seen pressed. The page keeps its own copy of the conversation and
mirrors each snapshot into it.

Modules:

- `Conversation` (`conversation.dfy`): roles, messages, the greeting log and the
  alternation of user turns.
- `Sampling` (`sampling.dfy`): the sampling options, the slider write-back and the seed
  choice.
- `Streaming` (`streaming.dfy`): the reference behaviour of one streamed turn, as pure
  functions. Given the fragments, the stop-button presses and how the stream ends, it
  gives the snapshots the generator yields and how the turn ends. Lemmas state the
  properties of that behaviour.
- `ChatUI` (`chat_ui.dfy`): class `ChatState` holds the module-level state (`configs`,
  `history`, `stop_generation`). It has one method per callback, plus history loading
  and the display mirror of the submit handler.
- `Scenarios` (`scenarios.dfy`): client methods that run whole turns against the
  contracts: a completed turn, a stopped turn, a stopped turn followed by another
  question, a displayed turn, a stopped displayed turn and two loads.

How the outside world enters the model:

- The server's streamed answer is a parameter `fragments: seq<string>`, the message
  contents of the chunks. A second parameter `ending` says whether the stream ends
  normally (`Done`) or raises a transport error after its last fragment (`Broken`).
- The stop button runs in another callback. It is a parameter `presses: seq<bool>` with
  one entry per check of the flag. `presses[i]` says whether the button was pressed
  before check `i`. The loop reads the next chunk first and checks the flag second, so
  check `i < |fragments|` comes after fragment `i` arrives. Check `|fragments|` is the
  one after the stream ends. A press is modelled as a call of `StopGenerationFn`.
- The random seed draw is a nondeterministic choice in `[0, 1000000000]`.
- An uploaded history file is the parameter `file: HistoryFile`. It is the outcome of
  opening and parsing the file: `Unreadable`, `NonIterable` (a JSON number, boolean or
  null) or `MessageList(messages)`.

The model follows the code, with one exception: history loading. For that, the class
uses the corrected load described under "## Findings". The load as the code writes it
is `ChatUI.ReloadAsWritten`. Behaviours of the code one might not expect:

- One would expect the log never to hold two user turns in a row. The code breaks
  this. A stopped turn leaves the question in the log without an answer, and the
  next turn appends another question. `Conversation.UncommittedTurnsBreakAlternation`
  and `Scenarios.StoppedThenAsked` show it. A committed turn does keep the property
  (`Conversation.CommittedTurnAlternates`, used by `ChatUI.ChatState.ChatToOllama`).
- When a stop is seen, one would expect the server stream to be closed. The code leaves
  the loop and does not close the stream explicitly; whether the connection is released
  then depends on the client library. The model has no transport, so this is not modelled.
- The code accepts any question, the empty string included, and so does the model.
- An empty stream that ends normally commits an empty assistant message to the log. The
  submit handler yields nothing in that case, so the page never shows the turn.
  `ChatUI.ChatState.Respond` promises that the page equals the log only when at least
  one fragment arrived.

## Model

| member | source | states |
|---|---|---|
| `Conversation.GreetingAlternates` | OllamaChatUI.py:68-72 | the reset log, system prompt then greeting, has no two user turns in a row and does not end with a user turn |
| `Conversation.CommittedTurnAlternates` | OllamaChatUI.py:78-95 | appending a question and its committed answer to a log that alternates and does not end with a user turn keeps both properties |
| `Conversation.UncommittedTurnsBreakAlternation` | OllamaChatUI.py:78-95 | a turn that records the question without an answer leaves the log ending with a user turn, and the next question then puts two user turns side by side |
| `Sampling.WithControls` | OllamaChatUI.py:128-133 | after the write-back the five controls read back exactly as written and the context size is unchanged |
| `Sampling.WithControlsOverwrites` | OllamaChatUI.py:128-133 | writing the controls twice equals writing only the second set (last write wins) |
| `Sampling.WithOwnControls` | OllamaChatUI.py:128-133 | writing back the controls the options already hold leaves the options unchanged |
| `Sampling.ResolveSeed` | OllamaChatUI.py:86 | the request seed is never negative; it is the configured seed when that is not negative, otherwise the value drawn for the request |
| `Sampling.RandomSeed` | OllamaChatUI.py:136-137 | the random seed lies in [0, 1000000000], both ends included |
| `Streaming.FirstPress` | OllamaChatUI.py:89-91 | the first check at which the flag is seen set: no press before it, a press at it, or the number of checks when there is none |
| `Streaming.Expected` | OllamaChatUI.py:88-95 | the generator's snapshots are a prefix of the running texts of all fragments, and every turn that was not stopped yielded all of them |
| `Streaming.PartialsTruncate` | OllamaChatUI.py:88-93 | the running texts of the first k fragments are the first k running texts of the whole stream |
| `Streaming.PartialsAt` | OllamaChatUI.py:88-93 | the running text has one entry per fragment, and entry j is the concatenation of fragments 0..j |
| `Streaming.YieldIsConcat` | OllamaChatUI.py:88-93 | every yielded snapshot j comes from a fragment that exists and equals the concatenation of the first j+1 fragments |
| `Streaming.YieldCount` | OllamaChatUI.py:89-93 | the number of snapshots never exceeds the number of fragments; it is the index of the first seen stop when that falls inside the stream, otherwise the number of fragments |
| `Streaming.YieldsArePrefixes` | OllamaChatUI.py:88-93 | each yielded snapshot is a prefix of every later one |
| `Streaming.StopSeenBeforeFragment` | OllamaChatUI.py:89-91 | a stop first seen at check k, before fragment k is added, ends the turn as stopped after exactly k snapshots |
| `Streaming.CompletedIff` | OllamaChatUI.py:89-95 | a turn commits its answer if and only if the stream ends normally and no press happens before any check |
| `Streaming.CompletedCommitsLastYield` | OllamaChatUI.py:88-95 | a committed turn yielded one snapshot per fragment, and the last snapshot equals the concatenation of all fragments, which is the committed text |
| `ChatUI.ReloadAsWritten` | OllamaChatUI.py:116-125 | as written: a file holding a JSON scalar empties the log; for every other file the result is that of the intended load |
| `ChatUI.Reload` | OllamaChatUI.py:116-125 | as intended: a successful load installs exactly the loaded list; every failure leaves the log as it was |
| `ChatUI.ScalarFileEmptiesLog` | OllamaChatUI.py:119-121 | as written, a file holding a JSON scalar empties a greeting log; the intended load keeps it |
| `ChatUI.ReloadDiffersOnlyOnScalar` | OllamaChatUI.py:116-125 | the written and the intended load differ exactly on a scalar file over a non-empty log |
| `ChatUI.MirrorStream` | OllamaChatUI.py:196-202 | the page shows one frame per snapshot, each the original list plus the question plus one assistant entry holding that snapshot; the final list is the last frame, or the list plus the question when nothing was yielded |
| `ChatUI.ChatState.constructor` | OllamaChatUI.py:61-65 | start-up state: the loaded configuration, an empty log, the stop flag clear |
| `ChatUI.ChatState.ModelHistoryRestart` | OllamaChatUI.py:68-72 | the log becomes exactly system prompt then greeting, whatever it held, and is returned; the configuration and the flag are unchanged |
| `ChatUI.ChatState.StopGenerationFn` | OllamaChatUI.py:140-142 | the stop flag is set; the log and the configuration are unchanged |
| `ChatUI.ChatState.UpdateConfig` | OllamaChatUI.py:128-133 | exactly the five sampling options are overwritten; the context size, every other configuration entry, the log and the flag are unchanged |
| `ChatUI.ChatState.LoadHistory` | OllamaChatUI.py:116-125 | on success returns the loaded list and the log becomes exactly that list; on any failure returns None and the log is unchanged (the corrected behaviour, see Findings) |
| `ChatUI.ChatState.ChatToOllama` | OllamaChatUI.py:75-95 | the request carries the old log plus the question, the configured options and the resolved seed; the snapshots and the outcome are those of `Streaming.Expected`; the log ends as the request's messages plus, only on completion, one assistant message holding all fragments joined; the flag is set exactly when the turn stopped; a committed turn keeps an alternating log alternating, and an uncommitted one leaves the log ending with the question |
| `ChatUI.ChatState.Respond` | OllamaChatUI.py:194-202 | the turn is the one `ChatToOllama` runs; there is one frame per snapshot, at most one per fragment, each the page's list plus the question plus the current snapshot; the final list is the last frame, or the page's list plus the question when nothing was yielded (so after a stop the page keeps a partial answer the log never gets); after a completed non-empty turn that started from the log, the page equals the log; the flag is set exactly when the turn stopped |

## Left out

- Reading `Configs.json` at start-up (lines 51-59) is file I/O and is not modelled. The constructor takes the configuration it
  produced. The code has no fallback when the file is missing or corrupt: it raises.
- The built-in default configuration (lines 12-48) is not modelled. Every key is overwritten by the settings file before use.
- `save_history` is not modelled. It writes `history` to a file with a timestamped, random name, which is file I/O and randomness.
- `stop_at_exit`, browser launch, exit hooks and all Gradio layout and event wiring are not modelled (presentation and process
  glue).
- The `ollama.Client(...).chat` call is a foreign network client. It is replaced by the fragment sequence and the ending.
  Closing the connection and server-side effects are not modelled.
- The stop button is a concurrent callback. It is reduced to presses at the flag checks. This covers every interleaving the
  polling loop can observe. The page stopping the generator early (abandoning the stream) is not modelled.
- `ChatUI.ChatState.ChatToOllama`: the clear and load buttons (lines 207 and 209) are wired like the stop button and could
  also run while a turn streams, replacing `history`. Those interleavings are not modelled: the turn is assumed to own the log
  from its first append (line 78) to its commit (line 95). Under such a callback the code would append the answer to whatever
  log the callback left, without its question, and the `history` ensures would not hold.
- `ChatUI.ChatState.Respond`: runs the whole turn first and then mirrors its snapshots, while the code interleaves the two. This
  is equivalent because the page's list and the log are separate objects. The model does not capture aliasing between them.
- `Sampling.RandomSeed`: states only the range of the draw, not that it is uniform. `ChatUI.ChatState.ChatToOllama` likewise
  promises only that a drawn seed lies in that range.
- Sampling values arrive from the page, where the seed box can deliver a float. The model keeps the seed, top-k and context
  size as integers, and the real-valued parameters as reals that are only copied.
- `ChatUI.ChatState.LoadHistory`: models the corrected load, not the code as written. On a file holding a JSON scalar it
  keeps the log, where the code empties it (`ChatUI.ReloadAsWritten`, see Findings). History files holding a JSON string, an object, or an array of values that are not
  role/content messages are not modelled. The code would extend the log with characters, keys or raw values. Roles other
  than system, assistant and user are not modelled either.

## Findings

| source | as written | input that shows it | evidently intended | confidence | as-written member | corrected member |
|---|---|---|---|---|---|---|
| OllamaChatUI.py:119-121 | `history.clear()` runs after a successful `json.load` but before `history.extend`, and `extend` raises on a non-iterable value; the handler reports failure and returns None with the log already emptied | an uploaded file whose whole content is `42` (or `null`, `true`): the log, system prompt included, becomes empty | a failed load leaves the log unchanged, the same as an unreadable file | high, not executed | `ChatUI.ScalarFileEmptiesLog` (over `ChatUI.ReloadAsWritten`) | `ChatUI.Reload`, used by `ChatUI.ChatState.LoadHistory` |
