/**
 What all attempts of the watch report together. A restart begins with a fresh parser at the saved offset: text
 held back is gone with the old parser, and edits are numbered from one again.
 */
module HistoryRestarts {
  import opened HistoryParser
  import opened HistoryWatch

  // ---------------------------------------------------------- pieces of text

  function Unnumbered(item: Item): Item {
    if item.Edited? then Edited(0, item.path) else item
  }

  /** The items without the numbers of the edits. */
  function Plain(items: seq<Item>): (plain: seq<Item>)
    ensures |plain| == |items| && forall i :: 0 <= i < |items| ==> plain[i] == Unnumbered(items[i])
  {
    seq(|items|, i requires 0 <= i < |items| => Unnumbered(items[i]))
  }

  /** The conversation of some lines with `before` edits already counted. */
  function Numbered(lines: seq<Line>, before: nat): seq<Item> {
    if lines == [] then []
    else
      var n := |lines| - 1;
      Numbered(lines[..n], before) + Says(lines[n], before + EditsOf(lines[..n]))
  }

  lemma {:induction false} EditsAdd(a: seq<Line>, b: seq<Line>)
    ensures EditsOf(a + b) == EditsOf(a) + EditsOf(b)
  {
    if b == [] {
      assert a + b == a;
    } else {
      var n := |b| - 1;
      assert (a + b)[..|a| + n] == a + b[..n] && (a + b)[|a| + n] == b[n];
      EditsAdd(a, b[..n]);
    }
  }

  /** A conversation is that of its front, followed by that of the rest with the front's edits counted. */
  lemma {:induction false} ConversationCut(a: seq<Line>, b: seq<Line>)
    ensures Conversation(a + b) == Conversation(a) + Numbered(b, EditsOf(a))
  {
    hide Says;
    if b == [] {
      assert a + b == a && Conversation(a) + [] == Conversation(a);
    } else {
      var n := |b| - 1;
      var ab := a + b;
      assert ab[..|ab| - 1] == a + b[..n] && ab[|ab| - 1] == b[n];
      ConversationCut(a, b[..n]);
      EditsAdd(a, b[..n]);
      ConversationLast(ab);
      Joined(Conversation(a), Numbered(b[..n], EditsOf(a)), Says(b[n], EditsOf(a) + EditsOf(b[..n])));
    }
  }

  lemma ConversationLast(lines: seq<Line>)
    requires lines != []
    ensures var n := |lines| - 1; Conversation(lines) == Conversation(lines[..n]) + Says(lines[n], EditsOf(lines[..n]))
  {
  }

  lemma Joined(a: seq<Item>, b: seq<Item>, c: seq<Item>)
    ensures (a + b) + c == a + (b + c)
  {
  }

  lemma SaysPlainly(line: Line, m: nat, n: nat)
    ensures Plain(Says(line, m)) == Plain(Says(line, n))
    ensures Says(line, m) == Says(line, n) <==> m == n || EditsIn(line) == 0
  {
  }

  lemma PlainConcat(a: seq<Item>, b: seq<Item>)
    ensures Plain(a + b) == Plain(a) + Plain(b)
  {
  }

  /** Counting from elsewhere changes the numbers of the edits, and nothing else. */
  lemma {:induction false} NumberedPlainly(lines: seq<Line>, before: nat)
    ensures Plain(Numbered(lines, before)) == Plain(Conversation(lines))
    ensures |Numbered(lines, before)| == |Conversation(lines)|
    ensures Numbered(lines, before) == Conversation(lines) <==> before == 0 || EditsOf(lines) == 0
  {
    if lines != [] {
      NumberedPlainly(lines[..|lines| - 1], before);
      OneMoreLine(lines, before);
    }
  }

  lemma OneMoreLine(lines: seq<Line>, before: nat)
    requires lines != []
    requires var n := |lines| - 1; var a, c := Numbered(lines[..n], before), Conversation(lines[..n]);
             Plain(a) == Plain(c) && |a| == |c| && (a == c <==> before == 0 || EditsOf(lines[..n]) == 0)
    ensures var a, c := Numbered(lines, before), Conversation(lines);
            Plain(a) == Plain(c) && |a| == |c| && (a == c <==> before == 0 || EditsOf(lines) == 0)
  {
    hide Says, Plain, EditsIn, Numbered, Conversation, EditsOf;
    var n := |lines| - 1;
    var k := EditsOf(lines[..n]);
    var a, b, c, d := Numbered(lines[..n], before), Says(lines[n], before + k), Conversation(lines[..n]), Says(lines[n], k);
    LastLine(lines, before);
    SaysPlainly(lines[n], before + k, k);
    assert Plain(b) == Plain(d) && |b| == |d|;
    PlainConcat(a, b);
    PlainConcat(c, d);
    SameParts(a, b, c, d);
  }

  lemma LastLine(lines: seq<Line>, before: nat)
    requires lines != []
    ensures var n := |lines| - 1;
            var k := EditsOf(lines[..n]);
            && Numbered(lines, before) == Numbered(lines[..n], before) + Says(lines[n], before + k)
            && Conversation(lines) == Conversation(lines[..n]) + Says(lines[n], k)
            && EditsOf(lines) == k + EditsIn(lines[n])
  {
    hide Says, EditsIn;
  }

  lemma SameParts(a: seq<Item>, b: seq<Item>, c: seq<Item>, d: seq<Item>)
    requires |a| == |c|
    ensures a + b == c + d <==> a == c && b == d
  {
    if a + b == c + d {
      assert a == (a + b)[..|a|] && c == (c + d)[..|c|];
      assert b == (a + b)[|a|..] && d == (c + d)[|c|..];
    }
  }

  // ------------------------------------------------------------ all attempts

  /** What the attempts that are over have reported. */
  function Earlier(watches: seq<Watch>, actions: seq<Action>, i: nat): seq<Item>
    requires i < |watches| && i <= |actions|
  {
    if i == 0 then []
    else if actions[i - 1].Restart? then Earlier(watches, actions, i - 1) + Reported(watches[i - 1])
    else Earlier(watches, actions, i - 1)
  }

  /** No restart came while text was held back. */
  ghost predicate AllFlushed(watches: seq<Watch>, actions: seq<Action>, i: nat)
    requires i < |watches| && i <= |actions|
  {
    forall j :: 0 <= j < i && actions[j].Restart? ==> Held(watches[j].inputs) == []
  }

  /** The attempt has edits of its own after edits that earlier attempts had counted. */
  predicate Renumbers(from: nat, w: Watch)
    requires from <= w.start <= w.saved <= |w.file|
  {
    EditsOf(w.file[from..w.start]) > 0 && EditsOf(w.file[w.start..w.saved]) > 0
  }

  ghost predicate Placed(from: nat, w: Watch) {
    from <= w.start <= w.saved <= |w.file|
  }

  ghost predicate NoneRenumbers(from: nat, watches: seq<Watch>, actions: seq<Action>, i: nat)
    requires i < |watches| && i <= |actions|
  {
    forall j :: 0 <= j < i && actions[j].Restart? && Placed(from, watches[j]) ==> !Renumbers(from, watches[j])
  }

  /** Nothing that this run has come to is a bad line. */
  ghost predicate GoodRun(from: nat, file: seq<Line>, watches: seq<Watch>, actions: seq<Action>, i: nat) {
    && IsRun(from, file, watches, actions) && i < |watches| && from <= |file|
    && forall k :: from <= k < |watches[i].file| ==> !Bad(watches[i].file[k])
  }

  lemma GoodBefore(from: nat, file: seq<Line>, watches: seq<Watch>, actions: seq<Action>, i: nat)
    requires GoodRun(from, file, watches, actions, i) && i > 0
    ensures GoodRun(from, file, watches, actions, i - 1)
    ensures watches[i - 1].file <= watches[i].file
  {
    hide Bad, Play;
    var v, w := watches[i - 1], watches[i];
    assert Enabled(v, actions[i - 1]) && w == HistoryWatch.Step(v, actions[i - 1]);
    assert v.file <= w.file;
    assert forall k :: 0 <= k < |v.file| ==> v.file[k] == w.file[k];
  }

  lemma GoodIsRunning(from: nat, file: seq<Line>, watches: seq<Watch>, actions: seq<Action>, i: nat)
    requires GoodRun(from, file, watches, actions, i)
    ensures var w := watches[i];
            && Placed(from, w) && Reported(w) + Held(w.inputs) == Conversation(w.file[w.start..w.saved])
  {
    hide Play, Bad, Held, Conversation;
    var w := watches[i];
    FileStays(from, file, watches, actions, i);
    RunKeeps(from, |w.file|, file, watches, actions, i);
    RunningHasNotRaised(w);
  }

  lemma {:induction false} FileStays(from: nat, file: seq<Line>, watches: seq<Watch>, actions: seq<Action>, i: nat)
    requires GoodRun(from, file, watches, actions, i)
    ensures |file| <= |watches[i].file|
  {
    if i > 0 {
      GoodBefore(from, file, watches, actions, i);
      FileStays(from, file, watches, actions, i - 1);
    }
  }

  /** Reports of earlier attempts against the conversation they should add up to. */
  ghost predicate Accounts(from: nat, told: seq<Item>, lines: seq<Line>, flushed: bool, numbered: bool) {
    var all := Conversation(lines);
    && |told| <= |all| && (|told| == |all| <==> flushed)
    && (flushed ==> Plain(told) == Plain(all) && (told == all <==> numbered))
  }

  /** One more attempt over. */
  lemma AccountsFurther(from: nat, told: seq<Item>, front: seq<Line>, flushed: bool, numbered: bool,
                        reported: seq<Item>, held: seq<Item>, part: seq<Line>)
    requires Accounts(from, told, front, flushed, numbered) && reported + held == Conversation(part)
    ensures Accounts(from, told + reported, front + part, flushed && held == [],
                     numbered && (EditsOf(front) == 0 || EditsOf(part) == 0))
  {
    hide Conversation, Plain, EditsOf;
    var rest := Numbered(part, EditsOf(front));
    ConversationCut(front, part);
    NumberedPlainly(part, EditsOf(front));
    if flushed && held == [] {
      assert reported == Conversation(part);
      PlainConcat(told, reported);
      PlainConcat(Conversation(front), rest);
      SameParts(told, reported, Conversation(front), rest);
    }
  }

  lemma {:induction false} EarlierAccounts(from: nat, file: seq<Line>, watches: seq<Watch>, actions: seq<Action>, i: nat)
    requires GoodRun(from, file, watches, actions, i)
    ensures var w := watches[i];
            && Placed(from, w)
            && Accounts(from, Earlier(watches, actions, i), w.file[from..w.start],
                        AllFlushed(watches, actions, i), NoneRenumbers(from, watches, actions, i))
  {
    hide Play, Bad, Held, Conversation, Plain, EditsOf, Accounts, Reported;
    GoodIsRunning(from, file, watches, actions, i);
    var w := watches[i];
    if i == 0 {
      FirstAttempt(from, file, watches, actions);
    } else {
      var v := watches[i - 1];
      GoodBefore(from, file, watches, actions, i);
      EarlierAccounts(from, file, watches, actions, i - 1);
      if actions[i - 1].Restart? {
        GoodIsRunning(from, file, watches, actions, i - 1);
        AccountsFurther(from, Earlier(watches, actions, i - 1), v.file[from..v.start],
                        AllFlushed(watches, actions, i - 1), NoneRenumbers(from, watches, actions, i - 1),
                        Reported(v), Held(v.inputs), v.file[v.start..v.saved]);
        Restarted(from, file, watches, actions, i);
      } else {
        SameAttempt(from, file, watches, actions, i);
      }
    }
  }

  lemma FirstAttempt(from: nat, file: seq<Line>, watches: seq<Watch>, actions: seq<Action>)
    requires GoodRun(from, file, watches, actions, 0)
    ensures var w := watches[0];
            && Placed(from, w)
            && Accounts(from, Earlier(watches, actions, 0), w.file[from..w.start],
                        AllFlushed(watches, actions, 0), NoneRenumbers(from, watches, actions, 0))
  {
    assert watches[0].file[from..from] == [];
    assert Conversation([]) == [];
  }

  lemma Restarted(from: nat, file: seq<Line>, watches: seq<Watch>, actions: seq<Action>, i: nat)
    requires GoodRun(from, file, watches, actions, i) && i > 0 && actions[i - 1].Restart?
    requires Placed(from, watches[i - 1])
    ensures var v, w := watches[i - 1], watches[i];
            && w.start == v.saved && w.file == v.file
            && w.file[from..w.start] == v.file[from..v.start] + v.file[v.start..v.saved]
            && (AllFlushed(watches, actions, i) <==> AllFlushed(watches, actions, i - 1) && Held(v.inputs) == [])
            && (NoneRenumbers(from, watches, actions, i) <==>
                  && NoneRenumbers(from, watches, actions, i - 1)
                  && (EditsOf(v.file[from..v.start]) == 0 || EditsOf(v.file[v.start..v.saved]) == 0))
  {
    hide Bad, Play, Held, EditsOf;
    var v := watches[i - 1];
    assert watches[i] == HistoryWatch.Step(v, actions[i - 1]);
    assert Renumbers(from, v) <==> EditsOf(v.file[from..v.start]) > 0 && EditsOf(v.file[v.start..v.saved]) > 0;
  }

  lemma SameAttempt(from: nat, file: seq<Line>, watches: seq<Watch>, actions: seq<Action>, i: nat)
    requires GoodRun(from, file, watches, actions, i) && i > 0 && !actions[i - 1].Restart?
    requires Placed(from, watches[i - 1]) && Placed(from, watches[i])
    ensures var v, w := watches[i - 1], watches[i];
            && w.start == v.start && w.file[from..w.start] == v.file[from..v.start]
            && (AllFlushed(watches, actions, i) <==> AllFlushed(watches, actions, i - 1))
            && (NoneRenumbers(from, watches, actions, i) <==> NoneRenumbers(from, watches, actions, i - 1))
  {
    hide Bad, Play, Held, EditsOf;
    var v := watches[i - 1];
    assert watches[i] == HistoryWatch.Step(v, actions[i - 1]);
  }

  /**
   All attempts together, with what a last flush would add, report the conversation up to the saved offset - but
   for the numbers of the edits - if and only if no restart came while text was held back. The numbers are right,
   too, if and only if in addition no attempt has edits of its own after edits of an earlier one.
   */
  lemma ReportsAreComplete(from: nat, file: seq<Line>, watches: seq<Watch>, actions: seq<Action>, i: nat)
    requires GoodRun(from, file, watches, actions, i)
    ensures var w := watches[i];
            var all := Earlier(watches, actions, i) + Reported(w) + Held(w.inputs);
            && Placed(from, w)
            && (Plain(all) == Plain(Conversation(w.file[from..w.saved])) <==> AllFlushed(watches, actions, i))
            && (all == Conversation(w.file[from..w.saved]) <==>
                  && AllFlushed(watches, actions, i)
                  && NoneRenumbers(from, watches, actions, i) && !Renumbers(from, w))
  {
    hide Play, Bad, Held, Conversation, Plain, EditsOf, Reported, AllFlushed, NoneRenumbers;
    var w := watches[i];
    var told := Earlier(watches, actions, i);
    EarlierAccounts(from, file, watches, actions, i);
    GoodIsRunning(from, file, watches, actions, i);
    var now := Reported(w) + Held(w.inputs);
    assert now + [] == now;
    AccountsFurther(from, told, w.file[from..w.start], AllFlushed(watches, actions, i),
                    NoneRenumbers(from, watches, actions, i), now, [], w.file[w.start..w.saved]);
    Joined(told, Reported(w), Held(w.inputs));
    assert w.file[from..w.saved] == w.file[from..w.start] + w.file[w.start..w.saved];
  }
}
