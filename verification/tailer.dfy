/**
 Tailing an append-only transcript: read what was appended, split off complete lines, keep the partial
 one, and remember where the last complete line ended.
 */
module Tailer {

  /** One byte of the file, decoded on its own. */
  type Byte = char

  const LF: Byte := '\n'
  const CR: Byte := '\r'

  /** The one-byte line boundaries of `str.splitlines`. */
  predicate IsBreak(b: Byte) {
    b == LF || b == CR || b == '\U{000B}' || b == '\U{000C}'
    || b == '\U{001C}' || b == '\U{001D}' || b == '\U{001E}'
  }

  predicate IsSpace(b: Byte) {
    IsBreak(b) || b == '\t' || b == '\U{001F}' || b == ' '
  }

  // ------------------------------------------------------------------- lines

  /** How much a boundary at the front takes: a carriage return and a line feed are one. */
  function BreakLength(s: seq<Byte>): (n: nat)
    requires s != []
    ensures 1 <= n <= |s|
  {
    if s[0] == CR && 1 < |s| && s[1] == LF then 2 else 1
  }

  function Prepend(b: Byte, lines: seq<seq<Byte>>): seq<seq<Byte>>
    requires lines != []
  {
    [[b] + lines[0]] + lines[1..]
  }

  /** `splitlines`: no empty line after a final boundary. */
  function Lines(s: seq<Byte>): (lines: seq<seq<Byte>>)
    ensures lines == [] <==> s == []
  {
    if s == [] then []
    else if IsBreak(s[0]) then [[]] + Lines(s[BreakLength(s)..])
    else if |s| == 1 then [s]
    else Prepend(s[0], Lines(s[1..]))
  }

  predicate Blank(line: seq<Byte>) {
    forall k :: 0 <= k < |line| ==> IsSpace(line[k])
  }

  /** What the parser looks at: it skips blank lines. */
  function NonBlank(lines: seq<seq<Byte>>): seq<seq<Byte>> {
    if lines == [] then []
    else (if Blank(lines[0]) then [] else [lines[0]]) + NonBlank(lines[1..])
  }

  lemma {:induction false} NonBlankConcat(a: seq<seq<Byte>>, b: seq<seq<Byte>>)
    ensures NonBlank(a + b) == NonBlank(a) + NonBlank(b)
  {
    if a == [] {
      assert a + b == b;
    } else {
      assert (a + b)[1..] == a[1..] + b;
      NonBlankConcat(a[1..], b);
    }
  }

  /** The empty line a line feed closes when the text before it is already complete. */
  function Closed(a: seq<Byte>): seq<seq<Byte>> {
    if a == [] || (IsBreak(a[|a| - 1]) && a[|a| - 1] != CR) then [[]] else []
  }

  lemma PrependConcat(c: Byte, a: seq<seq<Byte>>, b: seq<seq<Byte>>)
    requires a != []
    ensures Prepend(c, a + b) == Prepend(c, a) + b
  {
  }

  lemma LineThenFeed(c: Byte, b: seq<Byte>)
    requires !IsBreak(c)
    ensures Lines([c] + [LF] + b) == [[c]] + Lines(b)
  {
    var s := [c] + [LF] + b;
    assert s[1..] == [LF] + b && ([LF] + b)[1..] == b;
    assert Lines([LF] + b) == [[]] + Lines(b);
    PrependConcat(c, [[]], Lines(b));
    assert [c] + [] == [c];
  }

  lemma LetterThenText(a: seq<Byte>, b: seq<Byte>)
    requires |a| > 1 && !IsBreak(a[0])
    requires Lines(a[1..] + [LF] + b) == Lines(a[1..]) + Closed(a[1..]) + Lines(b)
    ensures Lines(a + [LF] + b) == Lines(a) + Closed(a) + Lines(b)
  {
    var s := a + [LF] + b;
    assert s[1..] == a[1..] + [LF] + b;
    PrependConcat(a[0], Lines(a[1..]) + Closed(a[1..]), Lines(b));
    PrependConcat(a[0], Lines(a[1..]), Closed(a[1..]));
    assert Lines(s) == Prepend(a[0], Lines(s[1..]));
    assert Lines(a) == Prepend(a[0], Lines(a[1..]));
    assert Closed(a) == Closed(a[1..]);
  }

  lemma BreakThenText(a: seq<Byte>, b: seq<Byte>, n: nat)
    requires a != [] && IsBreak(a[0]) && (|a| == 1 ==> a[0] != CR) && n == BreakLength(a)
    requires Lines(a[n..] + [LF] + b) == Lines(a[n..]) + Closed(a[n..]) + Lines(b)
    ensures Lines(a + [LF] + b) == Lines(a) + Closed(a) + Lines(b)
  {
    hide Lines, Closed;
    var s := a + [LF] + b;
    assert BreakLength(s) == n;
    assert s[n..] == a[n..] + [LF] + b;
    LinesOfBreak(s, n);
    LinesOfBreak(a, n);
    ClosedAfter(a, n);
    Regroup([[]], Lines(a[n..]), Closed(a), Lines(b));
  }

  lemma LinesOfBreak(s: seq<Byte>, n: nat)
    requires s != [] && IsBreak(s[0]) && n == BreakLength(s)
    ensures Lines(s) == [[]] + Lines(s[n..])
  {
  }

  lemma Regroup(w: seq<seq<Byte>>, x: seq<seq<Byte>>, y: seq<seq<Byte>>, z: seq<seq<Byte>>)
    ensures w + (x + y + z) == (w + x) + y + z
  {
  }

  /** A line feed ends the last line before it; what follows starts afresh. */
  lemma {:induction false} LinesAcrossFeed(a: seq<Byte>, b: seq<Byte>)
    ensures Lines(a + [LF] + b) == Lines(a) + Closed(a) + Lines(b)
    decreases |a|
  {
    var s := a + [LF] + b;
    if a == [] {
      assert s[1..] == b;
    } else if |a| == 1 && !IsBreak(a[0]) {
      assert a == [a[0]];
      LineThenFeed(a[0], b);
    } else if !IsBreak(a[0]) {
      LinesAcrossFeed(a[1..], b);
      LetterThenText(a, b);
    } else if |a| == 1 && a[0] == CR {
      assert s[2..] == b && a[1..] == [];
    } else {
      LinesAcrossFeed(a[BreakLength(a)..], b);
      BreakThenText(a, b, BreakLength(a));
    }
  }

  lemma ClosedAfter(a: seq<Byte>, n: nat)
    requires a != [] && n == BreakLength(a) && IsBreak(a[0]) && (|a| == 1 ==> a[0] != CR)
    ensures Closed(a[n..]) == Closed(a)
  {
  }

  /** Splitting at a line feed splits the non-blank lines. */
  lemma NonBlankAcrossFeed(a: seq<Byte>, b: seq<Byte>)
    ensures NonBlank(Lines(a + [LF] + b)) == NonBlank(Lines(a)) + NonBlank(Lines(b))
  {
    LinesAcrossFeed(a, b);
    NonBlankConcat(Lines(a) + Closed(a), Lines(b));
    NonBlankConcat(Lines(a), Closed(a));
    assert NonBlank(Closed(a)) == [];
  }

  /** The seven one-byte boundaries, by their codes. */
  predicate EndsALine(b: Byte) {
    b as int in {10, 11, 12, 13, 28, 29, 30}
  }

  predicate OneLine(s: seq<Byte>) {
    forall k :: 0 <= k < |s| ==> !EndsALine(s[k])
  }

  lemma BreaksByCode(b: Byte)
    ensures IsBreak(b) <==> EndsALine(b)
    ensures IsSpace(b) <==> b as int in {9, 10, 11, 12, 13, 28, 29, 30, 31, 32}
  {
  }

  lemma AddressedLine(x: Byte, a: seq<Byte>, rest: seq<Byte>, more: seq<seq<Byte>>)
    requires !EndsALine(x) && rest != [] && Lines(a + rest) == [a] + more
    ensures Lines([x] + a + rest) == [[x] + a] + more
  {
    BreaksByCode(x);
    assert ([x] + a + rest)[1..] == a + rest;
    assert ([a] + more)[1..] == more;
  }

  /** Splitting cuts off one line after the other: up to its boundary, a carriage return and a line feed being one. */
  lemma {:induction false} LinesExactly(a: seq<Byte>, b: Byte, rest: seq<Byte>)
    requires OneLine(a) && EndsALine(b)
    ensures a != [] ==> Lines(a) == [a]
    ensures Lines(a + [b] + rest) ==
              [a] + Lines(if b as int == 13 && rest != [] && rest[0] as int == 10 then rest[1..] else rest)
  {
    hide Lines;
    var more := Lines(AfterBreak(b, rest));
    BreakFirst(b, rest);
    if a == [] {
      assert a + [b] + rest == [b] + rest;
      assert [[]] + more == [a] + more;
    } else {
      LinesExactly(a[1..], b, rest);
      assert a[1..] + [b] + rest == a[1..] + ([b] + rest);
      AddressedLine(a[0], a[1..], [b] + rest, more);
      assert a == [a[0]] + a[1..];
      assert a + [b] + rest == [a[0]] + a[1..] + ([b] + rest);
      LastLine(a);
    }
  }

  function AfterBreak(b: Byte, rest: seq<Byte>): seq<Byte> {
    if b as int == 13 && rest != [] && rest[0] as int == 10 then rest[1..] else rest
  }

  lemma BreakFirst(b: Byte, rest: seq<Byte>)
    requires EndsALine(b)
    ensures Lines([b] + rest) == [[]] + Lines(AfterBreak(b, rest))
  {
    BreaksByCode(b);
    var s := [b] + rest;
    assert s[1..] == rest;
    assert rest != [] ==> s[1] == rest[0] && s[2..] == rest[1..];
  }

  lemma {:induction false} LastLine(a: seq<Byte>)
    requires OneLine(a) && a != []
    ensures Lines(a) == [a]
  {
    BreaksByCode(a[0]);
    if |a| > 1 {
      LastLine(a[1..]);
      assert a == [a[0]] + a[1..];
    }
  }

  // ------------------------------------------------------------- split_lines

  predicate NoFeed(s: seq<Byte>) {
    forall k :: 0 <= k < |s| ==> s[k] != LF
  }

  /** The index of the last line feed, -1 when there is none. */
  function LastFeed(s: seq<Byte>): (i: int)
    ensures -1 <= i < |s| && (i >= 0 ==> s[i] == LF) && forall k :: i < k < |s| ==> s[k] != LF
  {
    if s == [] then -1
    else if s[|s| - 1] == LF then |s| - 1
    else LastFeed(s[..|s| - 1])
  }

  /** Complete lines, and the trailing partial line. */
  function SplitLines(data: seq<Byte>): (seq<seq<Byte>>, seq<Byte>) {
    var i := LastFeed(data);
    if i < 0 then ([], data) else (Lines(data[..i]), data[i + 1..])
  }

  /** The non-blank lines of the newline-terminated part. */
  function Delivered(data: seq<Byte>): seq<seq<Byte>> {
    NonBlank(SplitLines(data).0)
  }

  /** Empty, or ending with a line feed. */
  predicate EndsLine(s: seq<Byte>) {
    s == [] || s[|s| - 1] == LF
  }

  lemma LastFeedIs(s: seq<Byte>, i: nat)
    requires i < |s| && s[i] == LF && forall k :: i < k < |s| ==> s[k] != LF
    ensures LastFeed(s) == i
  {
  }

  /** Cutting at a line boundary cuts the delivered lines: reading in chunks or at once is the same. */
  lemma DeliveredConcat(a: seq<Byte>, b: seq<Byte>)
    requires EndsLine(a)
    ensures Delivered(a + b) == Delivered(a) + Delivered(b)
  {
    if a == [] {
      assert a + b == b;
    } else if LastFeed(b) < 0 {
      LastFeedIs(a, |a| - 1);
      LastFeedIs(a + b, |a| - 1);
      assert (a + b)[..|a| - 1] == a[..|a| - 1];
    } else {
      FeedInBoth(a, b, LastFeed(b));
    }
  }

  /** What is delivered is decided by what stands before the last line feed. */
  lemma DeliveredUpTo(s: seq<Byte>, whole: seq<Byte>, rest: seq<Byte>)
    requires s == whole + [LF] + rest && NoFeed(rest)
    ensures Delivered(s) == NonBlank(Lines(whole))
  {
    LastFeedIs(s, |whole|);
    assert s[..|whole|] == whole;
  }

  /** Complete lines are those before the last line feed; what follows it is kept back. */
  lemma SplitExactly(whole: seq<Byte>, rest: seq<Byte>)
    requires NoFeed(rest)
    ensures SplitLines(whole + [LF] + rest) == (Lines(whole), rest) && SplitLines(rest) == ([], rest)
  {
    LastFeedIs(whole + [LF] + rest, |whole|);
    assert (whole + [LF] + rest)[..|whole|] == whole;
  }

  lemma Around(s: seq<Byte>, i: nat)
    requires i < |s| && s[i] == LF
    ensures s == s[..i] + [LF] + s[i + 1..]
  {
  }

  lemma JoinedAround(a: seq<Byte>, b: seq<Byte>, whole: seq<Byte>, inner: seq<Byte>, rest: seq<Byte>)
    requires a == whole + [LF] && b == inner + [LF] + rest
    ensures a == whole + [LF] + [] && a + b == (whole + [LF] + inner) + [LF] + rest
  {
  }

  lemma FeedInBoth(a: seq<Byte>, b: seq<Byte>, j: nat)
    requires a != [] && a[|a| - 1] == LF && LastFeed(b) == j
    ensures Delivered(a + b) == Delivered(a) + Delivered(b)
  {
    var whole, inner, rest := a[..|a| - 1], b[..j], b[j + 1..];
    Around(b, j);
    JoinedAround(a, b, whole, inner, rest);
    DeliveredUpTo(b, inner, rest);
    DeliveredUpTo(a, whole, []);
    DeliveredUpTo(a + b, whole + [LF] + inner, rest);
    NonBlankAcrossFeed(whole, inner);
  }

  lemma NothingComplete(s: seq<Byte>)
    requires NoFeed(s)
    ensures LastFeed(s) == -1 && Delivered(s) == []
  {
  }

  // -------------------------------------------------------------------- tail

  /** A watch: `offset` bytes read, the partial line kept back, and the offset saved for a restart. */
  datatype TailState = Tail(offset: nat, remainder: seq<Byte>, saved: nat)

  type Tail = t: TailState | |t.remainder| <= t.offset witness Tail(0, [], 0)

  function Watch(offset: nat): Tail { Tail(offset, [], offset) }

  /** One cycle of the loop over the file as it is now; a shorter file starts over. */
  function Cycle(t: Tail, file: seq<Byte>): (Tail, seq<seq<Byte>>) {
    var u := if |file| < t.offset then t.(offset := 0, remainder := []) else t;
    if |file| > u.offset then
      var data := u.remainder + file[u.offset..];
      RestIsSuffix(data);
      var (lines, rest) := SplitLines(data);
      (Tail(|file|, rest, |file| - |rest|), lines)
    else (u, [])
  }

  /** A file that has become shorter is read again from its start, whatever had been read of it. */
  lemma TruncationStartsOver(t: Tail, file: seq<Byte>)
    requires 0 < |file| < t.offset
    ensures var (u, lines) := Cycle(t, file);
            && (lines, u.remainder) == SplitLines(file)
            && u.offset == |file| && u.saved == |file| - |u.remainder|
  {
    assert [] + file[0..] == file;
  }

  /** A cycle with nothing new leaves everything as it is; one with news delivers what the news completes. */
  lemma CycleExactly(t: Tail, file: seq<Byte>)
    requires t.offset <= |file|
    ensures var (u, lines) := Cycle(t, file);
            if file[t.offset..] == [] then u == t && lines == []
            else (lines, u.remainder) == SplitLines(t.remainder + file[t.offset..])
                 && u.offset == |file| && u.saved == |file| - |u.remainder|
  {
  }

  /** Splitting what was kept back and what is new cuts it at a line boundary and delivers what completes. */
  lemma SplitDelivers(done: seq<Byte>, data: seq<Byte>, lines: seq<seq<Byte>>, fin: seq<Byte>, rest: seq<Byte>)
    requires EndsLine(done) && SplitLines(data) == (lines, rest)
    requires |rest| <= |data| && fin == data[..|data| - |rest|]
    ensures NoFeed(rest) && data == fin + rest && EndsLine(done + fin)
    ensures Delivered(done + fin) == Delivered(done) + NonBlank(lines)
  {
    RestIsSuffix(data);
    SavedIsBoundary(done, data);
    DeliveredConcat(done, data);
    CompletedPart(done, fin, rest, data);
  }

  lemma CompletedPart(done: seq<Byte>, fin: seq<Byte>, rest: seq<Byte>, data: seq<Byte>)
    requires data == fin + rest && EndsLine(done + fin) && NoFeed(rest)
    ensures Delivered(done + data) == Delivered(done + fin)
  {
    KeptDelivers(done + fin, rest);
    Assoc(done, fin, rest);
  }

  lemma Assoc(a: seq<Byte>, b: seq<Byte>, c: seq<Byte>)
    ensures (a + b) + c == a + (b + c)
  {
  }

  lemma RestIsSuffix(data: seq<Byte>)
    ensures var rest := SplitLines(data).1;
            |rest| <= |data| && rest == data[|data| - |rest|..] && NoFeed(rest)
  {
  }

  lemma SavedIsBoundary(done: seq<Byte>, data: seq<Byte>)
    requires EndsLine(done)
    ensures var rest := SplitLines(data).1;
            |rest| <= |data| && EndsLine(done + data[..|data| - |rest|])
  {
    RestIsSuffix(data);
    var i := LastFeed(data);
    if i < 0 {
      assert done + data[..0] == done;
    } else {
      assert data[..|data| - |data[i + 1..]|] == data[..i + 1];
    }
  }

  /** The partial line kept back delivers nothing. */
  lemma KeptDelivers(done: seq<Byte>, kept: seq<Byte>)
    requires EndsLine(done) && NoFeed(kept)
    ensures Delivered(done + kept) == Delivered(done)
  {
    DeliveredConcat(done, kept);
    NothingComplete(kept);
  }

  /** A cycle that reads `more` after what was kept back. */
  lemma CycleReads(t: Tail, file: seq<Byte>, more: seq<Byte>)
    requires t.offset <= |file| && file[t.offset..] == more
    ensures var (lines, rest) := SplitLines(t.remainder + more);
            |rest| <= |file| && Cycle(t, file) == if more == [] then (t, []) else (Tail(|file|, rest, |file| - |rest|), lines)
  {
    RestIsSuffix(t.remainder + more);
  }

  /** Of what was kept back and what is new, `fin` completes: it is delivered and joins what is done. */
  lemma CycleDelivers(t: Tail, file: seq<Byte>, done: seq<Byte>, more: seq<Byte>, fed: seq<seq<Byte>>)
    returns (fin: seq<Byte>, u: Tail, lines: seq<seq<Byte>>)
    requires t.offset <= |file| && file[t.offset..] == more && t.offset == t.saved + |t.remainder|
    requires EndsLine(done) && NoFeed(t.remainder) && NonBlank(fed) == Delivered(done)
    ensures (u, lines) == Cycle(t, file) && u.offset == |file| && u.saved == t.saved + |fin|
    ensures t.remainder + more == fin + u.remainder
    ensures EndsLine(done + fin) && NoFeed(u.remainder) && NonBlank(fed + lines) == Delivered(done + fin)
  {
    var data := t.remainder + more;
    CycleReads(t, file, more);
    if more == [] {
      fin, u, lines := [], t, [];
      assert data == t.remainder && done + fin == done && fed + lines == fed;
    } else {
      var rest := SplitLines(data).1;
      lines := SplitLines(data).0;
      fin := data[..|data| - |rest|];
      u := Tail(|file|, rest, |file| - |rest|);
      SplitDelivers(done, data, lines, fin, rest);
      NonBlankConcat(fed, lines);
    }
  }

  // ---------------------------------------------------------- growth, restart

  /** `done` (auxiliary) is the part from the start up to the saved offset. */
  datatype World = World(file: seq<Byte>, tail: Tail, fed: seq<seq<Byte>>, done: seq<Byte>)

  datatype Action = Grow(more: seq<Byte>) | Poll | Restart

  function Step(w: World, start: nat, a: Action): World {
    match a
    case Grow(more) => w.(file := w.file + more)
    case Poll =>
      var (t, lines) := Cycle(w.tail, w.file);
      w.(tail := t, fed := w.fed + lines,
         done := if start <= t.saved <= |w.file| then w.file[start..t.saved] else [])
    case Restart => w.(tail := Watch(w.tail.saved))
  }

  /** A restart knows the saved offset and nothing else; growth touches the file only. */
  lemma RestartForgets(w: World, start: nat, more: seq<Byte>)
    ensures Step(w, start, Restart) == w.(tail := Tail(w.tail.saved, [], w.tail.saved))
    ensures Step(w, start, Grow(more)) == w.(file := w.file + more)
  {
  }

  ghost predicate IsRun(file: seq<Byte>, start: nat, worlds: seq<World>, actions: seq<Action>) {
    && |worlds| == |actions| + 1
    && worlds[0] == World(file, Watch(start), [], [])
    && forall i :: 0 <= i < |actions| ==> worlds[i + 1] == Step(worlds[i], start, actions[i])
  }

  /** The file from the start on is what was done, what is kept back, and what is unread. */
  ghost predicate Placed(start: nat, file: seq<Byte>, t: Tail, done: seq<Byte>) {
    && start <= |file| && t.saved == start + |done| && t.offset == t.saved + |t.remainder| <= |file|
    && file[start..] == done + t.remainder + file[t.offset..]
  }

  ghost predicate Inv(start: nat, w: World) {
    && Placed(start, w.file, w.tail, w.done)
    && EndsLine(w.done) && NoFeed(w.tail.remainder) && NonBlank(w.fed) == Delivered(w.done)
  }

  lemma PlacedAfter(start: nat, file: seq<Byte>, t: Tail, done: seq<Byte>, fin: seq<Byte>, u: Tail)
    requires Placed(start, file, t, done) && t.remainder + file[t.offset..] == fin + u.remainder
    requires u.offset == |file| && u.saved == t.saved + |fin|
    ensures Placed(start, file, u, done + fin)
  {
    assert file[u.offset..] == [];
    assert done + t.remainder + file[t.offset..] == done + (t.remainder + file[t.offset..]);
    assert (done + fin) + u.remainder == done + (fin + u.remainder);
  }

  lemma PlacedSlice(start: nat, file: seq<Byte>, t: Tail, done: seq<Byte>)
    requires Placed(start, file, t, done)
    ensures file[start..t.saved] == done && file[start..t.offset] == done + t.remainder
    ensures file[t.saved..] == t.remainder + file[t.offset..]
  {
    assert file[start..][..|done|] == done;
    assert file[start..][..|done| + |t.remainder|] == done + t.remainder;
    assert file[start..][|done|..] == t.remainder + file[t.offset..];
  }

  lemma PollKeeps(start: nat, w: World)
    requires Inv(start, w)
    ensures Inv(start, Step(w, start, Poll))
  {
    var fin, u, lines := CycleDelivers(w.tail, w.file, w.done, w.file[w.tail.offset..], w.fed);
    PlacedAfter(start, w.file, w.tail, w.done, fin, u);
    PlacedSlice(start, w.file, u, w.done + fin);
  }

  lemma GrowKeeps(start: nat, file: seq<Byte>, more: seq<Byte>, t: Tail, done: seq<Byte>)
    requires Placed(start, file, t, done)
    ensures Placed(start, file + more, t, done)
  {
    assert (file + more)[start..] == file[start..] + more;
    assert (file + more)[t.offset..] == file[t.offset..] + more;
  }

  lemma StepKeeps(start: nat, w: World, a: Action)
    requires Inv(start, w)
    ensures Inv(start, Step(w, start, a))
  {
    match a
    case Grow(more) => GrowKeeps(start, w.file, more, w.tail, w.done);
    case Poll => PollKeeps(start, w);
    case Restart => PlacedSlice(start, w.file, w.tail, w.done);
  }

  lemma {:induction false} RunKeeps(file: seq<Byte>, start: nat, worlds: seq<World>, actions: seq<Action>, i: nat)
    requires start <= |file| && IsRun(file, start, worlds, actions) && i < |worlds|
    ensures Inv(start, worlds[i])
  {
    if i > 0 {
      RunKeeps(file, start, worlds, actions, i - 1);
      StepKeeps(start, worlds[i - 1], actions[i - 1]);
    }
  }

  /**
   Tailing is chunk-independent and resumable: however the file grows, however polls fall, and however often
   the watch restarts from its saved offset between cycles, the non-blank lines fed to the parser are those
   of the newline-terminated part read so far, each once and in order; the saved offset is a line boundary
   and the partial line kept back holds no line feed.
   */
  lemma TailingIsChunkIndependent(file: seq<Byte>, start: nat, worlds: seq<World>, actions: seq<Action>, i: nat)
    requires start <= |file| && IsRun(file, start, worlds, actions) && i < |worlds|
    ensures var w := worlds[i];
            && start <= w.tail.saved <= w.tail.offset <= |w.file|
            && NonBlank(w.fed) == Delivered(w.file[start..w.tail.offset])
            && EndsLine(w.file[start..w.tail.saved]) && NoFeed(w.tail.remainder)
  {
    RunKeeps(file, start, worlds, actions, i);
    var w := worlds[i];
    PlacedSlice(start, w.file, w.tail, w.done);
    KeptDelivers(w.done, w.tail.remainder);
  }

  /** Caught up: what was fed in pieces is what one read of the whole file would have fed. */
  lemma StreamingEqualsBatch(file: seq<Byte>, start: nat, worlds: seq<World>, actions: seq<Action>, i: nat)
    requires start <= |file| && IsRun(file, start, worlds, actions) && i < |worlds|
    requires worlds[i].tail.offset == |worlds[i].file|
    ensures start <= |worlds[i].file| && NonBlank(worlds[i].fed) == NonBlank(SplitLines(worlds[i].file[start..]).0)
  {
    TailingIsChunkIndependent(file, start, worlds, actions, i);
    assert worlds[i].file[start..|worlds[i].file|] == worlds[i].file[start..];
  }

  /** Empty lines are lost at the end of a chunk: only non-blank lines are comparable. */
  lemma EmptyLinesDependOnChunks(a: seq<Byte>, b: seq<Byte>)
    requires a == ['a', LF, LF] && b == ['b', LF]
    ensures SplitLines(a + b).0 == SplitLines(a).0 + [[]] + SplitLines(b).0
  {
    LastFeedIs(a, 2);
    LastFeedIs(b, 1);
    LastFeedIs(a + b, 4);
    assert (a + b)[..4] == a[..2] + [LF] + b[..1];
    LinesAcrossFeed(a[..2], b[..1]);
  }

  // ---------------------------------------------------------- initial offset

  /** Position after the first line feed at or after `start`, or the end of the file. */
  function AfterNextFeed(file: seq<Byte>, start: nat): (p: nat)
    requires start <= |file|
    ensures start <= p <= |file|
    ensures LF in file[start..] ==> p > start && file[p - 1] == LF
    ensures LF !in file[start..] ==> p == |file|
    decreases |file| - start
  {
    if start == |file| then start
    else if file[start] == LF then start + 1
    else
      assert file[start..] == [file[start]] + file[start + 1..];
      AfterNextFeed(file, start + 1)
  }

  /** The first-ever watch replays history, capped for huge transcripts. */
  function InitialOffset(file: seq<Byte>, cap: nat): (p: nat)
    ensures p <= |file|
  {
    if |file| <= cap then 0 else AfterNextFeed(file, |file| - cap)
  }

  /** The capped replay starts at a line boundary exactly when the capped tail holds a line feed. */
  lemma InitialOffsetIsBoundary(file: seq<Byte>, cap: nat)
    requires cap > 0
    ensures EndsLine(file[..InitialOffset(file, cap)]) <==> |file| <= cap || LF in file[|file| - cap..]
  {
    if |file| > cap && LF !in file[|file| - cap..] {
      assert file[|file| - cap..][cap - 1] == file[|file| - 1];
      assert file[..|file|] == file;
    }
  }

  /** A short file is replayed whole; a long one from behind the first line feed of its last `cap` bytes. */
  lemma InitialOffsetExactly(file: seq<Byte>, cap: nat, k: nat)
    requires |file| > cap ==> |file| - cap <= k < |file| && file[k] == LF && LF !in file[|file| - cap..k]
    ensures InitialOffset(file, cap) == if |file| <= cap then 0 else k + 1
  {
    if |file| > cap {
      NextFeedIs(file, |file| - cap, k);
    }
  }

  lemma {:induction false} NextFeedIs(file: seq<Byte>, start: nat, k: nat)
    requires start <= k < |file| && file[k] == LF && LF !in file[start..k]
    ensures AfterNextFeed(file, start) == k + 1
    decreases k - start
  {
    if start < k {
      assert file[start..k] == [file[start]] + file[start + 1..k];
      NextFeedIs(file, start + 1, k);
    }
  }

  // --------------------------------------------------------------- the watch

  class TranscriptWatch {
    var offset: nat
    var remainder: seq<Byte>
    var saved: nat
    var caughtUp: bool

    function View(): TailState
      reads this
    {
      Tail(offset, remainder, saved)
    }

    /** A saved offset wins; the first-ever watch starts at the capped replay position. */
    constructor (known: bool, at: nat, file: seq<Byte>, cap: nat)
      ensures View() == Watch(if known then at else InitialOffset(file, cap)) && !caughtUp
    {
      offset := if known then at else InitialOffset(file, cap);
      saved := if known then at else InitialOffset(file, cap);
      remainder, caughtUp := [], false;
    }

    /** One cycle; `activity` says that lines arrived after the history had been caught up. */
    method PollFile(file: seq<Byte>) returns (lines: seq<seq<Byte>>, activity: bool)
      requires |remainder| <= offset
      modifies this
      ensures |remainder| <= offset && caughtUp
      ensures (View(), lines) == Cycle(old(View()), file)
      ensures activity <==> old(caughtUp) && file != [] && |file| != old(offset)
    {
      if |file| < offset {
        offset, remainder := 0, [];
      }
      lines, activity := ReadAppended(file);
    }

    method ReadAppended(file: seq<Byte>) returns (lines: seq<seq<Byte>>, activity: bool)
      requires |remainder| <= offset <= |file|
      modifies this
      ensures |remainder| <= offset && caughtUp
      ensures (View(), lines) == Cycle(old(View()), file)
      ensures activity <==> old(caughtUp) && |file| > old(offset)
    {
      lines, activity := [], false;
      CycleReads(View(), file, file[offset..]);
      if |file| > offset {
        activity := caughtUp;
        var split := SplitLines(remainder + file[offset..]);
        offset := |file|;
        lines, remainder := split.0, split.1;
        saved := offset - |remainder|;
      }
      caughtUp := true;
    }
  }
}
