/** The chat front-end's state and callbacks: the configuration, the conversation log,
    the stop flag, the streaming chat turn, history loading and the display mirror. */
module ChatUI {
  import opened Conversation
  import opened Sampling
  import opened Streaming

  datatype Option<T> = None | Some(value: T)

  /** The configuration dictionary, as read from the settings file at start-up. */
  datatype Configs = Configs(
    host: string,
    port: string,
    uiPort: string,
    modelName: string,
    systemPrompt: string,
    assistantFirstPrompt: string,
    options: Options)

  /** What one chat call hands to the server client: the server address, the model,
      the messages of the conversation and the sampling options (always streamed). */
  datatype Request = Request(url: string, model: string, messages: seq<Message>, options: Options)

  function ServerUrl(host: string, port: string): string
  {
    "http://" + host + ":" + port
  }

  /** What reading and parsing an uploaded history file gives. Unreadable: the file
      cannot be opened or is not valid JSON, so the parser raises. NonIterable: valid JSON
      that is a number, a boolean or null. MessageList: a JSON array of role/content objects. */
  datatype HistoryFile = Unreadable | NonIterable | MessageList(messages: seq<Message>)

  /** The log after a load exactly as the code does it: the parser runs first, then the
      log is cleared, then extended; extending with a non-iterable value raises after the
      clear, and the error is swallowed. */
  function ReloadAsWritten(h: seq<Message>, file: HistoryFile): (r: seq<Message>)
    ensures file.NonIterable? ==> r == []
    ensures !file.NonIterable? ==> r == Reload(h, file)
  {
    match file
    case Unreadable => h
    case NonIterable => []
    case MessageList(m) => m
  }

  /** The log after a load as intended: replaced by the loaded list on success,
      untouched on every failure. */
  function Reload(h: seq<Message>, file: HistoryFile): (r: seq<Message>)
    ensures file.MessageList? ==> r == file.messages
    ensures !file.MessageList? ==> r == h
  {
    if file.MessageList? then file.messages else h
  }

  /** The code as written loses the whole log (system prompt included) on a file holding
      a JSON scalar, although it reports the load as failed. */
  lemma ScalarFileEmptiesLog(systemPrompt: string, firstPrompt: string)
    ensures ReloadAsWritten(Greeting(systemPrompt, firstPrompt), NonIterable) == []
    ensures Reload(Greeting(systemPrompt, firstPrompt), NonIterable)
            == Greeting(systemPrompt, firstPrompt)
  {
  }

  /** The code as written and the intended load differ exactly on a scalar file over a
      non-empty log. */
  lemma ReloadDiffersOnlyOnScalar(h: seq<Message>, file: HistoryFile)
    ensures ReloadAsWritten(h, file) != Reload(h, file) <==> file.NonIterable? && h != []
  {
  }

  /** The display side of a chat turn: the user entry is appended to the displayed list,
      then each streamed snapshot either appends the assistant entry (while the last entry
      is the user's) or overwrites the content of the last entry. frames[j] is the list
      as shown at the j-th step; display is the list when the turn is over. */
  method MirrorStream(chatHistory: seq<Message>, userInput: string, responses: seq<string>)
    returns (frames: seq<seq<Message>>, display: seq<Message>)
    ensures |frames| == |responses|
    ensures forall j :: 0 <= j < |responses| ==>
              frames[j] == chatHistory + [Message(User, userInput), Message(Assistant, responses[j])]
    ensures responses == [] ==> display == chatHistory + [Message(User, userInput)]
    ensures responses != [] ==> display == frames[|responses| - 1]
  {
    var asked := chatHistory + [Message(User, userInput)];
    display := asked;
    frames := [];
    for i := 0 to |responses|
      invariant |frames| == i
      invariant forall j :: 0 <= j < i ==>
                  frames[j] == asked + [Message(Assistant, responses[j])]
      invariant i == 0 ==> display == asked
      invariant i > 0 ==> display == frames[i - 1]
    {
      if |display| > 0 && display[|display| - 1].role == User {
        display := display + [Message(Assistant, responses[i])];
      } else {
        display := display[|display| - 1 := display[|display| - 1].(content := responses[i])];
      }
      frames := frames + [display];
    }
  }

  /** The process-wide state of the front-end: the configuration, the conversation log and
      the flag the stop button sets to interrupt a streaming turn. */
  class ChatState {
    var configs: Configs
    var history: seq<Message>
    var stopGeneration: bool

    /** Start-up: the configuration read from the settings file, an empty log, the flag clear. */
    constructor (configs: Configs)
      ensures this.configs == configs
      ensures history == [] && !stopGeneration
    {
      this.configs := configs;
      history := [];
      stopGeneration := false;
    }

    /** Resets the log to the system prompt and the greeting, whatever it held before,
        and returns the log. */
    method ModelHistoryRestart() returns (h: seq<Message>)
      modifies this
      ensures history == Greeting(configs.systemPrompt, configs.assistantFirstPrompt)
      ensures Alternating(history) && !EndsWithUser(history)
      ensures h == history
      ensures configs == old(configs) && stopGeneration == old(stopGeneration)
    {
      history := [];
      history := history + [Message(System, configs.systemPrompt)];
      history := history + [Message(Assistant, configs.assistantFirstPrompt)];
      GreetingAlternates(configs.systemPrompt, configs.assistantFirstPrompt);
      h := history;
    }

    /** The stop button: sets the flag the streaming loop polls. */
    method StopGenerationFn()
      modifies this
      ensures stopGeneration
      ensures configs == old(configs) && history == old(history)
    {
      stopGeneration := true;
    }

    /** The sampling controls: overwrite exactly the five sampling options. */
    method UpdateConfig(temperature: real, topK: int, topP: real, repeatPenalty: real, seed: int)
      modifies this
      ensures configs == old(configs).(options := WithControls(old(configs).options,
                                         Controls(temperature, topK, topP, repeatPenalty, seed)))
      ensures ControlsOf(configs.options) == Controls(temperature, topK, topP, repeatPenalty, seed)
      ensures configs.options.numCtx == old(configs).options.numCtx
      ensures history == old(history) && stopGeneration == old(stopGeneration)
    {
      var o := configs.options;
      o := o.(temperature := temperature);
      o := o.(topK := topK);
      o := o.(topP := topP);
      o := o.(repeatPenalty := repeatPenalty);
      o := o.(seed := seed);
      configs := configs.(options := o);
    }

    /** Loading an uploaded history file: on success the log is replaced by the loaded
        list, which is returned; on failure None is returned and the log is untouched. */
    method LoadHistory(file: HistoryFile) returns (r: Option<seq<Message>>)
      modifies this
      ensures r == if file.MessageList? then Some(file.messages) else None
      ensures history == Reload(old(history), file)
      ensures configs == old(configs) && stopGeneration == old(stopGeneration)
    {
      match file {
        case MessageList(loaded) =>
          history := [];
          history := history + loaded;
          r := Some(loaded);
        case _ =>
          r := None;
      }
    }

    /** One chat turn, with the server's answer given as the fragments it streams and how
        the stream ends, and the stop button given as presses: presses[i] says whether it
        was pressed before the i-th check of the flag (one check after each fragment
        arrives, one after the stream ends). Returns the request sent and the generator's
        transcript: the full-text snapshots it yielded and how the turn ended. */
    method ChatToOllama(userInput: string, fragments: seq<string>, presses: seq<bool>, ending: Ending)
      returns (request: Request, t: Transcript)
      requires |presses| == |fragments| + 1
      modifies this
      ensures request.url == ServerUrl(configs.host, configs.port)
      ensures request.model == configs.modelName
      ensures request.messages == old(history) + [Message(User, userInput)]
      ensures request.options == configs.options.(seed := request.options.seed)
      ensures configs.options.seed >= 0 ==> request.options.seed == configs.options.seed
      ensures configs.options.seed < 0 ==> 0 <= request.options.seed <= SeedMax
      ensures t == Expected(fragments, presses, ending)
      ensures history == request.messages
              + if t.outcome == Completed then [Message(Assistant, Concat(fragments))] else []
      ensures stopGeneration == (t.outcome == Stopped)
      ensures t.outcome == Completed && Alternating(old(history)) && !EndsWithUser(old(history))
              ==> Alternating(history) && !EndsWithUser(history)
      ensures t.outcome != Completed ==> EndsWithUser(history)
      ensures configs == old(configs)
    {
      ghost var before := history;
      stopGeneration := false;
      history := history + [Message(User, userInput)];
      var drawn := 0;
      if configs.options.seed < 0 {
        drawn := RandomSeed();
      }
      var seed := ResolveSeed(configs.options.seed, drawn);
      request := Request(ServerUrl(configs.host, configs.port), configs.modelName, history,
                         configs.options.(seed := seed));

      var response := "";
      var snapshots: seq<string> := [];
      var i := 0;
      while i < |fragments|
        invariant 0 <= i <= |fragments|
        invariant history == request.messages && configs == old(configs)
        invariant !stopGeneration
        invariant forall j :: 0 <= j < i ==> !presses[j]
        invariant response == Concat(fragments[..i])
        invariant snapshots == Partials(fragments[..i])
      {
        if presses[i] {
          StopGenerationFn();
        }
        if stopGeneration {
          break;
        }
        assert fragments[..i + 1][..i] == fragments[..i];
        response := response + fragments[i];
        snapshots := snapshots + [response];
        i := i + 1;
      }
      if !stopGeneration {
        assert fragments[..i] == fragments;
        if ending == Broken {
          // the stream raises: the exception leaves the generator before the commit
          t := Transcript(snapshots, Failed);
          return;
        }
        if presses[i] {
          StopGenerationFn();
        }
      }
      if !stopGeneration {
        history := history + [Message(Assistant, response)];
        assert history == before + [Message(User, userInput), Message(Assistant, response)];
        if Alternating(before) && !EndsWithUser(before) {
          CommittedTurnAlternates(before, userInput, response);
        }
      }
      t := Transcript(snapshots, if stopGeneration then Stopped else Completed);
    }

    /** The submit handler: runs a chat turn and mirrors each snapshot into the displayed
        list chatHistory, returning the list as shown at each step and at the end. */
    method Respond(userInput: string, chatHistory: seq<Message>, fragments: seq<string>,
                   presses: seq<bool>, ending: Ending)
      returns (frames: seq<seq<Message>>, display: seq<Message>, t: Transcript)
      requires |presses| == |fragments| + 1
      modifies this
      ensures t == Expected(fragments, presses, ending)
      ensures |frames| == |t.snapshots| <= |fragments|
      ensures forall j :: 0 <= j < |frames| ==>
                frames[j] == chatHistory + [Message(User, userInput), Message(Assistant, t.snapshots[j])]
      ensures history == old(history) + [Message(User, userInput)]
              + if t.outcome == Completed then [Message(Assistant, Concat(fragments))] else []
      ensures frames != [] ==> display == frames[|frames| - 1]
      ensures frames == [] ==> display == chatHistory + [Message(User, userInput)]
      ensures t.outcome == Completed && fragments != [] && chatHistory == old(history)
              ==> display == history
      ensures stopGeneration == (t.outcome == Stopped)
      ensures configs == old(configs)
    {
      var request;
      request, t := ChatToOllama(userInput, fragments, presses, ending);
      YieldCount(fragments, presses, ending);
      frames, display := MirrorStream(chatHistory, userInput, t.snapshots);
      if t.outcome == Completed && fragments != [] {
        CompletedCommitsLastYield(fragments, presses, ending);
      }
    }
  }
}
