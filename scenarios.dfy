/** Client code: whole turns of the front-end, checked from the callbacks' contracts alone. */
module Scenarios {
  import opened Conversation
  import opened Sampling
  import opened Streaming
  import opened ChatUI

  function SampleConfigs(seed: int): Configs
  {
    Configs("127.0.0.1", "11434", "7866", "qwq-7b", "S", "G",
            Options(1.0, 4096, 50, 0.9, 1.2, seed))
  }

  /** The running texts of the two-fragment answer "Hi", " there". */
  lemma HiThere()
    ensures Concat(["Hi"]) == "Hi"
    ensures Concat(["Hi", " there"]) == "Hi there"
    ensures Partials(["Hi"]) == ["Hi"]
    ensures Partials(["Hi", " there"]) == ["Hi", "Hi there"]
  {
  }

  /** "Hello" answered by "Hi" and " there": two snapshots, and the answer is committed. */
  method CompletedTurn()
  {
    var ui := new ChatState(SampleConfigs(-1));
    var h := ui.ModelHistoryRestart();
    var request, t := ui.ChatToOllama("Hello", ["Hi", " there"], [false, false, false], Done);
    HiThere();
    assert t.snapshots == ["Hi", "Hi there"];
    assert t.outcome == Completed;
    assert request.messages == [Message(System, "S"), Message(Assistant, "G"), Message(User, "Hello")];
    assert 0 <= request.options.seed <= SeedMax;
    assert ui.history == [Message(System, "S"), Message(Assistant, "G"),
                          Message(User, "Hello"), Message(Assistant, "Hi there")];
  }

  /** The stop button pressed while the second fragment is awaited: one snapshot, the
      question stays in the log and no answer is committed. */
  method StoppedTurn()
  {
    var ui := new ChatState(SampleConfigs(7));
    var h := ui.ModelHistoryRestart();
    var fs, presses := ["Hi", " there"], [false, true, false];
    assert FirstPress(presses) == 1 by {
      assert !presses[0] && presses[1];
    }
    assert fs[..1] == ["Hi"];
    HiThere();
    assert Expected(fs, presses, Done) == Transcript(["Hi"], Stopped);
    var request, t := ui.ChatToOllama("Hello", fs, presses, Done);
    assert t.snapshots == ["Hi"] && t.outcome == Stopped;
    assert request.options.seed == 7;
    assert ui.history == [Message(System, "S"), Message(Assistant, "G"), Message(User, "Hello")];
  }

  /** A stopped turn followed by another question leaves two user turns side by side. */
  method StoppedThenAsked()
  {
    var ui := new ChatState(SampleConfigs(7));
    var h := ui.ModelHistoryRestart();
    var r1, t1 := ui.ChatToOllama("Hello", ["Hi"], [true, false], Done);
    assert t1.outcome == Stopped;
    var r2, t2 := ui.ChatToOllama("Again", [], [false], Done);
    assert t2.outcome == Completed;
    assert ui.history[2] == Message(User, "Hello") && ui.history[3] == Message(User, "Again");
    assert !Alternating(ui.history);
  }

  /** The display list follows the snapshots and ends equal to the log. */
  method DisplayedTurn()
  {
    var ui := new ChatState(SampleConfigs(-1));
    var h := ui.ModelHistoryRestart();
    var frames, display, t := ui.Respond("Hello", h, ["Hi", " there"], [false, false, false], Done);
    HiThere();
    assert t.snapshots == ["Hi", "Hi there"];
    assert frames[0] == h + [Message(User, "Hello"), Message(Assistant, "Hi")];
    assert display == ui.history;
  }

  /** A stopped turn on the page: the page keeps the partial answer, the log only the question. */
  method StoppedDisplay()
  {
    var ui := new ChatState(SampleConfigs(-1));
    var h := ui.ModelHistoryRestart();
    var fs, presses := ["Hi", " there"], [false, true, false];
    assert FirstPress(presses) == 1 by {
      assert !presses[0] && presses[1];
    }
    assert fs[..1] == ["Hi"];
    HiThere();
    assert Expected(fs, presses, Done) == Transcript(["Hi"], Stopped);
    var frames, display, t := ui.Respond("Hello", h, fs, presses, Done);
    assert display == h + [Message(User, "Hello"), Message(Assistant, "Hi")];
    assert ui.history == h + [Message(User, "Hello")];
  }

  /** The corrected load: a file holding a JSON scalar keeps the log (the code as written
      empties it, see ScalarFileEmptiesLog); a successful load replaces the log. */
  method Loads()
  {
    var ui := new ChatState(SampleConfigs(-1));
    var h := ui.ModelHistoryRestart();
    var r := ui.LoadHistory(NonIterable);
    assert r == None && ui.history == h;
    var saved := [Message(User, "Q"), Message(Assistant, "A")];
    r := ui.LoadHistory(MessageList(saved));
    assert r == Some(saved) && ui.history == saved;
  }
}
