/**
 The watch around the history parser: it feeds what was appended, saves its offset after a whole chunk, and is
 restarted with a fresh parser at the saved offset when the parser raises.
 */
module HistoryWatch {
  import opened HistoryParser

  /**
   `saved` is the offset in lines; the attempt running now began at `start` and its parser has been given
   `inputs`.
   */
  datatype Watch = Watch(file: seq<Line>, saved: nat, start: nat, inputs: seq<Input>)

  datatype Action =
    | Grow(more: seq<Line>)   // Aider appends
    | Poll                    // a cycle that finds the file grown
    | Settle                  // the cycle that flushes because the file has gone quiet
    | Restart                 // after an error, or a restart of the server

  function Feeding(lines: seq<Line>): (inputs: seq<Input>)
    ensures |inputs| == |lines| && forall i :: 0 <= i < |lines| ==> inputs[i] == Feeds(lines[i])
  {
    if lines == [] then [] else Feeding(lines[..|lines| - 1]) + [Feeds(lines[|lines| - 1])]
  }

  predicate Enabled(w: Watch, a: Action) {
    match a
    case Grow(_) => true
    case Poll => !Play(w.inputs).raised && w.saved <= |w.file|
    case Settle => !Play(w.inputs).raised
    case Restart => true
  }

  /** An error leaves the cycle before the offset is saved. */
  function Step(w: Watch, a: Action): Watch
    requires Enabled(w, a)
  {
    match a
    case Grow(more) => w.(file := w.file + more)
    case Poll =>
      var inputs := w.inputs + Feeding(w.file[w.saved..]);
      if Play(inputs).raised then w.(inputs := inputs) else w.(inputs := inputs, saved := |w.file|)
    case Settle => w.(inputs := w.inputs + [Quiet])
    case Restart => w.(start := w.saved, inputs := [])
  }

  ghost predicate IsRun(from: nat, file: seq<Line>, watches: seq<Watch>, actions: seq<Action>) {
    && |watches| == |actions| + 1
    && watches[0] == Watch(file, from, from, [])
    && forall i :: 0 <= i < |actions| ==> Enabled(watches[i], actions[i]) && watches[i + 1] == Step(watches[i], actions[i])
  }

  predicate Bad(line: Line) { Impossible(Feeds(line)) }

  /** What an attempt has reported so far. */
  function Reported(w: Watch): seq<Item> { Items(Play(w.inputs).out) }

  // -------------------------------------------------------------- invariant

  /** `b` is where the first bad line at or after `from` stands, or will stand. */
  ghost predicate FirstBad(from: nat, b: nat, file: seq<Line>) {
    && from <= b && (forall k :: from <= k < b && k < |file| ==> !Bad(file[k]))
    && (b < |file| ==> Bad(file[b]))
  }

  /** The attempt's parser has been given the lines from its start to the saved offset. */
  ghost predicate Running(w: Watch) {
    && w.start <= w.saved <= |w.file|
    && Clean(w.inputs) && LinesIn(w.inputs) == w.file[w.start..w.saved]
  }

  /** It raised at the bad line, after `k` inputs. */
  ghost predicate StuckAt(b: nat, w: Watch, k: nat) {
    && w.start <= w.saved <= b < |w.file|
    && FirstImpossible(w.inputs, k) && LinesIn(w.inputs[..k]) == w.file[w.start..b]
  }

  ghost predicate Stuck(b: nat, w: Watch) {
    exists k: nat :: StuckAt(b, w, k)
  }

  ghost predicate Inv(from: nat, b: nat, w: Watch) {
    && from <= w.start && w.saved <= b && FirstBad(from, b, w.file)
    && (Running(w) || Stuck(b, w))
  }

  lemma {:induction false} LinesOfFeeding(inputs: seq<Input>, lines: seq<Line>)
    ensures LinesIn(inputs + Feeding(lines)) == LinesIn(inputs) + lines
  {
    if lines == [] {
      assert inputs + [] == inputs;
    } else {
      var n := |lines| - 1;
      var before := inputs + Feeding(lines[..n]);
      assert inputs + Feeding(lines) == before + [Feeds(lines[n])];
      assert (before + [Feeds(lines[n])])[..|before|] == before;
      LinesOfFeeding(inputs, lines[..n]);
    }
  }

  lemma CleanFeeding(inputs: seq<Input>, lines: seq<Line>)
    requires Clean(inputs) && forall k :: 0 <= k < |lines| ==> !Bad(lines[k])
    ensures Clean(inputs + Feeding(lines))
  {
    hide Impossible;
    var all := inputs + Feeding(lines);
    forall k | 0 <= k < |all| ensures !Impossible(all[k]) {
      if k >= |inputs| {
        assert !Bad(lines[k - |inputs|]);
      }
    }
  }

  lemma RunningHasNotRaised(w: Watch)
    requires Running(w)
    ensures !Play(w.inputs).raised
    ensures Reported(w) + Held(w.inputs) == Conversation(w.file[w.start..w.saved])
  {
    CleanRunTells(w.inputs);
    HeldIsPending(w.inputs);
  }

  lemma StuckHasRaised(b: nat, w: Watch) returns (held: seq<Item>)
    requires Stuck(b, w)
    ensures Play(w.inputs).raised && Reported(w) + held == Conversation(w.file[w.start..b])
  {
    var k: nat :| StuckAt(b, w, k);
    RunEndsAt(w.inputs, k);
    held := Held(w.inputs[..k]);
  }

  lemma SafePoll(from: nat, b: nat, w: Watch)
    requires Inv(from, b, w) && Running(w) && |w.file| <= b
    ensures Running(w.(inputs := w.inputs + Feeding(w.file[w.saved..]), saved := |w.file|))
  {
    hide Clean, LinesIn, Bad;
    var chunk := w.file[w.saved..];
    LinesOfFeeding(w.inputs, chunk);
    assert w.file[w.start..|w.file|] == w.file[w.start..w.saved] + chunk;
    forall k | 0 <= k < |chunk| ensures !Bad(chunk[k]) {
      assert chunk[k] == w.file[w.saved + k];
    }
    CleanFeeding(w.inputs, chunk);
  }

  /** The inputs an attempt is given before the bad line. */
  function Before(b: nat, w: Watch): seq<Input>
    requires w.saved <= b <= |w.file|
  {
    w.inputs + Feeding(w.file[w.saved..b])
  }

  lemma FeedingCut(inputs: seq<Input>, lines: seq<Line>, m: nat)
    requires m < |lines|
    ensures var all := inputs + Feeding(lines);
            && all[..|inputs| + m] == inputs + Feeding(lines[..m]) && all[|inputs| + m] == Feeds(lines[m])
  {
    hide Feeding;
    var all, cut := inputs + Feeding(lines), inputs + Feeding(lines[..m]);
    assert forall i :: 0 <= i < |cut| ==> all[i] == cut[i];
  }

  lemma FatalPoll(from: nat, b: nat, w: Watch)
    requires Inv(from, b, w) && Running(w) && b < |w.file|
    ensures var v := w.(inputs := w.inputs + Feeding(w.file[w.saved..]));
            && StuckAt(b, v, |Before(b, w)|) && v.inputs[..|Before(b, w)|] == Before(b, w)
  {
    hide LinesIn, Clean, Impossible, Feeding;
    var chunk, safe := w.file[w.saved..], w.file[w.saved..b];
    var all, k := w.inputs + Feeding(chunk), |Before(b, w)|;
    assert chunk[..b - w.saved] == safe && chunk[b - w.saved] == w.file[b];
    FeedingCut(w.inputs, chunk, b - w.saved);
    forall i | 0 <= i < |safe| ensures !Bad(safe[i]) {
      assert safe[i] == w.file[w.saved + i];
    }
    CleanFeeding(w.inputs, safe);
    LinesOfFeeding(w.inputs, safe);
    CleanUpTo(all, k);
    assert w.file[w.start..b] == w.file[w.start..w.saved] + safe;
  }

  lemma CleanUpTo(inputs: seq<Input>, k: nat)
    requires k <= |inputs| && Clean(inputs[..k])
    ensures forall j :: 0 <= j < k ==> !Impossible(inputs[j])
  {
    hide Impossible;
    assert forall j :: 0 <= j < k ==> inputs[..k][j] == inputs[j];
  }

  lemma Witness(b: nat, w: Watch, k: nat)
    requires StuckAt(b, w, k)
    ensures Stuck(b, w)
  {
  }

  lemma PollKeeps(from: nat, b: nat, w: Watch)
    requires Inv(from, b, w) && Enabled(w, Poll)
    ensures Inv(from, b, Step(w, Poll))
  {
    hide Running, Stuck, Play, FirstBad;
    if Stuck(b, w) {
      var _ := StuckHasRaised(b, w);
    } else {
      OffsetIn(w);
      var fed := w.(inputs := w.inputs + Feeding(w.file[w.saved..]));
      if |w.file| <= b {
        SafePoll(from, b, w);
        RunningHasNotRaised(fed.(saved := |w.file|));
      } else {
        FatalPoll(from, b, w);
        Witness(b, fed, |Before(b, w)|);
        var _ := StuckHasRaised(b, fed);
      }
    }
  }

  lemma OffsetIn(w: Watch)
    requires Running(w)
    ensures w.start <= w.saved <= |w.file|
  {
  }

  lemma GrowKeeps(from: nat, b: nat, w: Watch, more: seq<Line>)
    requires Inv(from, b, w) && FirstBad(from, b, w.file + more)
    ensures Inv(from, b, w.(file := w.file + more))
  {
    hide FirstBad, Clean, LinesIn, FirstImpossible;
    var v := w.(file := w.file + more);
    if Running(w) {
      assert v.file[w.start..w.saved] == w.file[w.start..w.saved];
    } else {
      var k: nat :| StuckAt(b, w, k);
      assert v.file[w.start..b] == w.file[w.start..b];
      assert StuckAt(b, v, k);
    }
  }

  lemma QuietWhileRunning(w: Watch)
    requires Running(w)
    ensures Running(w.(inputs := w.inputs + [Quiet]))
  {
    var inputs := w.inputs + [Quiet];
    assert inputs[..|w.inputs|] == w.inputs;
    assert LinesIn(w.inputs) + [] == LinesIn(w.inputs);
  }

  lemma SettleKeeps(from: nat, b: nat, w: Watch)
    requires Inv(from, b, w) && Enabled(w, Settle)
    ensures Inv(from, b, Step(w, Settle))
  {
    hide Running, Stuck, Play, FirstBad;
    if Running(w) {
      QuietWhileRunning(w);
    } else {
      var _ := StuckHasRaised(b, w);
    }
  }

  lemma RestartKeeps(from: nat, b: nat, w: Watch)
    requires Inv(from, b, w)
    ensures Inv(from, b, w.(start := w.saved, inputs := []))
  {
    assert w.start <= w.saved <= |w.file| by {
      if !Running(w) {
        var k: nat :| StuckAt(b, w, k);
      }
    }
    assert w.file[w.saved..w.saved] == [];
  }

  lemma StepKeeps(from: nat, b: nat, w: Watch, a: Action)
    requires Inv(from, b, w) && Enabled(w, a) && FirstBad(from, b, Step(w, a).file)
    ensures Inv(from, b, Step(w, a))
  {
    match a
    case Grow(more) => GrowKeeps(from, b, w, more);
    case Poll => PollKeeps(from, b, w);
    case Settle => SettleKeeps(from, b, w);
    case Restart => RestartKeeps(from, b, w);
  }

  lemma BadStaysFirst(from: nat, b: nat, w: Watch, a: Action)
    requires Enabled(w, a) && FirstBad(from, b, Step(w, a).file)
    ensures FirstBad(from, b, w.file)
  {
    hide Bad, Play;
    if a.Grow? {
      assert forall k :: 0 <= k < |w.file| ==> (w.file + a.more)[k] == w.file[k];
    }
  }

  lemma {:induction false} RunKeeps(from: nat, b: nat, file: seq<Line>, watches: seq<Watch>, actions: seq<Action>, i: nat)
    requires IsRun(from, file, watches, actions) && i < |watches| && from <= |file|
    requires FirstBad(from, b, watches[i].file)
    ensures Inv(from, b, watches[i])
  {
    if i == 0 {
      assert file[from..from] == [];
    } else {
      hide Inv, FirstBad;
      BadStaysFirst(from, b, watches[i - 1], actions[i - 1]);
      RunKeeps(from, b, file, watches, actions, i - 1);
      StepKeeps(from, b, watches[i - 1], actions[i - 1]);
    }
  }

  /** Once the file has gone quiet an attempt has reported all it was fed, and nothing is held back. */
  lemma SettledTellsAll(w: Watch)
    requires Running(w) && Enabled(w, Settle)
    ensures var v := Step(w, Settle);
            Reported(v) == Conversation(w.file[w.start..w.saved]) && Held(v.inputs) == [] && v.saved == w.saved
  {
    var v := Step(w, Settle);
    QuietWhileRunning(w);
    RunningHasNotRaised(v);
    hide Play, Conversation, Items;
    assert v.inputs[|v.inputs| - 1] == Quiet;
    assert Held(v.inputs) == [];
    assert Reported(v) + [] == Reported(v);
  }

  /** The line an attempt has got to: where it raised, or the saved offset. */
  function Reached(b: nat, w: Watch): nat { if Play(w.inputs).raised then b else w.saved }

  /**
   However the file grows and however often the watch is restarted, the offset never passes the first chat start
   with an impossible time, every attempt reports only what stands before it, and nothing after it is ever
   reported.
   */
  lemma NothingPastTheBadLine(from: nat, b: nat, file: seq<Line>, watches: seq<Watch>, actions: seq<Action>, i: nat)
    requires IsRun(from, file, watches, actions) && i < |watches| && from <= |file|
    requires FirstBad(from, b, watches[i].file)
    ensures var w := watches[i];
            && w.saved <= b && w.start <= Reached(b, w) <= |w.file| && Reached(b, w) <= b
            && Reported(w) <= Conversation(w.file[w.start..Reached(b, w)])
  {
    RunKeeps(from, b, file, watches, actions, i);
    hide Play, Reported, Conversation, Held, Bad;
    var w := watches[i];
    if Stuck(b, w) {
      var held := StuckHasRaised(b, w);
      var k: nat :| StuckAt(b, w, k);
    } else {
      RunningHasNotRaised(w);
    }
  }

  /**
   Every attempt that is fed the bad line raises, keeps the offset, and has reported once more everything from the
   offset on, but for what was held back just before it.
   */
  lemma EveryAttemptRaises(from: nat, b: nat, file: seq<Line>, watches: seq<Watch>, actions: seq<Action>, i: nat)
    requires IsRun(from, file, watches, actions) && i < |watches| && from <= |file|
    requires FirstBad(from, b, watches[i].file) && b < |watches[i].file| && !Play(watches[i].inputs).raised
    ensures var w := watches[i];
            && w.start <= w.saved <= b && Enabled(w, Poll)
            && var v := Step(w, Poll);
               && Play(v.inputs).raised && v.saved == w.saved && v.start == w.start
               && Reported(v) + Held(Before(b, w)) == Conversation(w.file[w.start..b])
  {
    RunKeeps(from, b, file, watches, actions, i);
    hide Play, Conversation, Bad, Held, Items;
    var w := watches[i];
    if Stuck(b, w) {
      var _ := StuckHasRaised(b, w);
      assert false;
    }
    OffsetIn(w);
    FatalPoll(from, b, w);
    RunEndsAt(w.inputs + Feeding(w.file[w.saved..]), |Before(b, w)|);
  }
}
