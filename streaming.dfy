/** The reference behaviour of one streamed chat turn: which full-text snapshots the
    generator yields and how it ends, given the fragments the server sends, when the
    stop button is pressed and whether the stream ends normally. */
module Streaming {

  /** How the server's fragment stream ends after its last fragment. */
  datatype Ending = Done | Broken

  /** How a turn ends: the answer is committed, the stop flag was seen, or the
      stream raised a transport error. */
  datatype Outcome = Completed | Stopped | Failed

  /** What the generator produced: the snapshots it yielded and how it ended. */
  datatype Transcript = Transcript(snapshots: seq<string>, outcome: Outcome)

  /** The fragments joined in order. */
  function Concat(fs: seq<string>): string
  {
    if fs == [] then "" else Concat(fs[..|fs| - 1]) + fs[|fs| - 1]
  }

  /** The running text after each fragment: the accumulator at each yield. */
  function Partials(fs: seq<string>): seq<string>
  {
    if fs == [] then [] else Partials(fs[..|fs| - 1]) + [Concat(fs)]
  }

  /** The first check at which the stop flag is seen set, or |presses| when it never is.
      presses[i] says whether the stop button was pressed before check i. */
  function FirstPress(presses: seq<bool>): (k: nat)
    ensures k <= |presses|
    ensures forall j :: 0 <= j < k ==> !presses[j]
    ensures k < |presses| ==> presses[k]
  {
    if presses == [] then 0
    else if presses[0] then 0
    else 1 + FirstPress(presses[1..])
  }

  /** The turn as the generator runs it. There is a check after each fragment arrives
      (checks 0 .. |fs| - 1) and one after the stream ends (check |fs|); a transport error
      is raised before that last check, and a seen stop flag ends the turn uncommitted. */
  function Expected(fs: seq<string>, presses: seq<bool>, ending: Ending): (r: Transcript)
    requires |presses| == |fs| + 1
    ensures |r.snapshots| <= |Partials(fs)|
    ensures r.snapshots == Partials(fs)[..|r.snapshots|]
    ensures r.outcome != Stopped ==> r.snapshots == Partials(fs)
  {
    var k := FirstPress(presses);
    PartialsAt(fs);
    if k < |fs| then PartialsTruncate(fs, k); Transcript(Partials(fs[..k]), Stopped)
    else if ending == Broken then Transcript(Partials(fs), Failed)
    else if k == |fs| then Transcript(Partials(fs), Stopped)
    else Transcript(Partials(fs), Completed)
  }

  lemma {:induction false} ConcatAppend(a: seq<string>, b: seq<string>)
    ensures Concat(a + b) == Concat(a) + Concat(b)
    decreases |b|
  {
    if b == [] {
      assert a + b == a;
    } else {
      var b' := b[..|b| - 1];
      assert (a + b)[..|a + b| - 1] == a + b';
      ConcatAppend(a, b');
    }
  }

  /** The j-th snapshot is the concatenation of the first j + 1 fragments. */
  lemma {:induction false} PartialsAt(fs: seq<string>)
    ensures |Partials(fs)| == |fs|
    ensures forall j :: 0 <= j < |fs| ==> Partials(fs)[j] == Concat(fs[..j + 1])
  {
    if fs != [] {
      var init := fs[..|fs| - 1];
      PartialsAt(init);
      forall j | 0 <= j < |fs| ensures Partials(fs)[j] == Concat(fs[..j + 1]) {
        if j < |fs| - 1 {
          assert init[..j + 1] == fs[..j + 1];
        } else {
          assert fs[..j + 1] == fs;
        }
      }
    }
  }

  /** The running texts of a prefix of the fragments are a prefix of the running texts. */
  lemma PartialsTruncate(fs: seq<string>, k: nat)
    requires k <= |fs|
    ensures |Partials(fs)| == |fs|
    ensures Partials(fs[..k]) == Partials(fs)[..k]
  {
    PartialsAt(fs);
    PartialsAt(fs[..k]);
    forall j | 0 <= j < k ensures Partials(fs[..k])[j] == Partials(fs)[j] {
      assert fs[..k][..j + 1] == fs[..j + 1];
    }
  }

  /** Every yielded snapshot is the concatenation of the fragments received so far, and
      there are never more snapshots than fragments. */
  lemma YieldIsConcat(fs: seq<string>, presses: seq<bool>, ending: Ending, j: nat)
    requires |presses| == |fs| + 1
    requires j < |Expected(fs, presses, ending).snapshots|
    ensures j < |fs|
    ensures Expected(fs, presses, ending).snapshots[j] == Concat(fs[..j + 1])
  {
    var k := FirstPress(presses);
    if k < |fs| {
      PartialsAt(fs[..k]);
      assert fs[..k][..j + 1] == fs[..j + 1];
    } else {
      PartialsAt(fs);
    }
  }

  /** The snapshots are exactly one per fragment handled before the first seen stop. */
  lemma YieldCount(fs: seq<string>, presses: seq<bool>, ending: Ending)
    requires |presses| == |fs| + 1
    ensures |Expected(fs, presses, ending).snapshots| <= |fs|
    ensures |Expected(fs, presses, ending).snapshots|
            == if FirstPress(presses) < |fs| then FirstPress(presses) else |fs|
  {
    var k := FirstPress(presses);
    if k < |fs| {
      PartialsAt(fs[..k]);
    } else {
      PartialsAt(fs);
    }
  }

  /** Each snapshot extends the ones before it. */
  lemma YieldsArePrefixes(fs: seq<string>, presses: seq<bool>, ending: Ending, i: nat, j: nat)
    requires |presses| == |fs| + 1
    requires i <= j < |Expected(fs, presses, ending).snapshots|
    ensures Expected(fs, presses, ending).snapshots[i] <= Expected(fs, presses, ending).snapshots[j]
  {
    YieldIsConcat(fs, presses, ending, i);
    YieldIsConcat(fs, presses, ending, j);
    assert fs[..j + 1] == fs[..i + 1] + fs[i + 1..j + 1];
    ConcatAppend(fs[..i + 1], fs[i + 1..j + 1]);
  }

  /** A stop first seen at check k < |fs| ends the turn uncommitted after exactly k snapshots. */
  lemma StopSeenBeforeFragment(fs: seq<string>, presses: seq<bool>, ending: Ending, k: nat)
    requires |presses| == |fs| + 1
    requires k < |fs| && presses[k]
    requires forall j :: 0 <= j < k ==> !presses[j]
    ensures Expected(fs, presses, ending).outcome == Stopped
    ensures |Expected(fs, presses, ending).snapshots| == k
  {
    PartialsAt(fs[..k]);
  }

  /** A turn commits exactly when the stream ends normally and the stop flag is never seen. */
  lemma CompletedIff(fs: seq<string>, presses: seq<bool>, ending: Ending)
    requires |presses| == |fs| + 1
    ensures Expected(fs, presses, ending).outcome == Completed
            <==> ending == Done && forall j :: 0 <= j < |presses| ==> !presses[j]
  {
  }

  /** A committed turn yielded one snapshot per fragment, and the committed text, the
      concatenation of all fragments, is the last snapshot. */
  lemma CompletedCommitsLastYield(fs: seq<string>, presses: seq<bool>, ending: Ending)
    requires |presses| == |fs| + 1
    requires Expected(fs, presses, ending).outcome == Completed
    ensures |Expected(fs, presses, ending).snapshots| == |fs|
    ensures fs != [] ==> Expected(fs, presses, ending).snapshots[|fs| - 1] == Concat(fs)
  {
    PartialsAt(fs);
    if fs != [] {
      assert fs[..|fs|] == fs;
    }
  }
}
