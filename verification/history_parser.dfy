/**
 Aider's chat history, parsed line by line: prompts and answers are buffered, everything else is structure.
 */
module HistoryParser {
  import opened Calendar
  import opened DecimalText
  import Envelope

  /** The characters that `str.strip`, `str.split` and `\s` take for whitespace. */
  predicate IsSpace(c: char) {
    '\t' <= c <= '\r' || '\U{001C}' <= c <= ' ' || c == '\U{0085}' || c == '\U{00A0}' || c == '\U{1680}'
    || '\U{2000}' <= c <= '\U{200A}' || c == '\U{2028}' || c == '\U{2029}' || c == '\U{202F}'
    || c == '\U{205F}' || c == '\U{3000}'
  }

  predicate Blank(s: string) {
    forall k :: 0 <= k < |s| ==> IsSpace(s[k])
  }

  function StripLeft(s: string): (r: string)
    ensures |r| <= |s| && (r == [] || !IsSpace(r[0]))
  {
    if s != [] && IsSpace(s[0]) then StripLeft(s[1..]) else s
  }

  function StripRight(s: string): (r: string)
    ensures r <= s && (r == [] || !IsSpace(r[|r| - 1]))
  {
    if s != [] && IsSpace(s[|s| - 1]) then StripRight(s[..|s| - 1]) else s
  }

  function Strip(s: string): string { StripRight(StripLeft(s)) }

  /** `"\n".join(lines)`. */
  function Join(lines: seq<string>): string {
    if lines == [] then [] else if |lines| == 1 then lines[0] else lines[0] + ['\n'] + Join(lines[1..])
  }

  // ---------------------------------------------------------------- lines

  const STARTED := "# aider chat started at "

  /** `dddd-dd-dd dd:dd:dd` at the front. */
  predicate HasStamp(s: string) {
    && |s| >= 19 && s[4] == '-' && s[7] == '-' && s[10] == ' ' && s[13] == ':' && s[16] == ':'
    && (forall k :: 0 <= k < 19 && k != 4 && k != 7 && k != 10 && k != 13 && k != 16 ==> IsDigit(s[k]))
  }

  datatype Stamp = Stamp(date: Date, hour: int, minute: int, second: int)

  function StampOf(s: string): Stamp
    requires HasStamp(s)
  {
    Stamp(Date(Number(s[..4]), Number(s[5..7]), Number(s[8..10])),
          Number(s[11..13]), Number(s[14..16]), Number(s[17..19]))
  }

  /** What `strptime` accepts. */
  predicate IsTime(t: Stamp) {
    IsDate(t.date) && t.hour <= 23 && t.minute <= 59 && t.second <= 59
  }

  datatype Fact =
    | NoFact
    | Version(v: string)
    | Model(m: string)
    | Edit(path: string)
    | Tokens
    | Remark(text: string)

  /** The longest front of non-space characters. */
  function Word(s: string): string {
    if s == [] || IsSpace(s[0]) then [] else [s[0]] + Word(s[1..])
  }

  function FirstLine(s: string): string {
    if s == [] || s[0] == '\n' then [] else [s[0]] + FirstLine(s[1..])
  }

  function FactOf(text: string): Fact {
    if text == "" then NoFact
    else if Envelope.StartsWith(text, "Aider v") && Word(text[7..]) != "" then Version(Word(text[7..]))
    else if Envelope.StartsWith(text, "Model: ") && Word(text[7..]) != "" then Model(Word(text[7..]))
    else if Envelope.StartsWith(text, "Applied edit to ") && FirstLine(text[16..]) != "" then Edit(FirstLine(text[16..]))
    else if Envelope.StartsWith(text, "Tokens: ") then Tokens
    else Remark(text)
  }

  datatype Line =
    | ChatStart(stamp: Stamp)
    | Prompt(text: string)
    | PromptBreak
    | Info(fact: Fact)
    | Answer(text: string)

  function TrimFeeds(line: string): string {
    if line != [] && line[|line| - 1] == '\n' then TrimFeeds(line[..|line| - 1]) else line
  }

  function Classify(raw: string): Line {
    var line := TrimFeeds(raw);
    if Envelope.StartsWith(line, STARTED) && HasStamp(line[|STARTED|..]) then ChatStart(StampOf(line[|STARTED|..]))
    else if Envelope.StartsWith(line, "#### ") then Prompt(line[5..])
    else if line == "####" then PromptBreak
    else if Envelope.StartsWith(line, "> ") then Info(FactOf(Strip(line[2..])))
    else if line == ">" then Info(NoFact)
    else Answer(line)
  }

  // ------------------------------------------------------------ observations

  datatype Role = User | Assistant | System

  datatype Observation =
    | TurnStarted
    | TurnCompleted
    | Output(role: Role, text: string)
    | EditFinished(number: nat, path: string)

  /** What a reader sees in order: each visible character with its speaker, each edit, each end of a turn. */
  datatype Item = Ink(role: Role, c: char) | Edited(number: nat, path: string) | TurnEnd

  function InkOf(role: Role, s: string): seq<Item> {
    if s == [] then [] else (if IsSpace(s[0]) then [] else [Ink(role, s[0])]) + InkOf(role, s[1..])
  }

  function ItemsOf(o: Observation): seq<Item> {
    match o
    case TurnStarted => []
    case TurnCompleted => [TurnEnd]
    case Output(role, text) => InkOf(role, text)
    case EditFinished(number, path) => [Edited(number, path)]
  }

  function Items(os: seq<Observation>): seq<Item> {
    if os == [] then [] else ItemsOf(os[0]) + Items(os[1..])
  }

  /** What a line says on its own; `edits` is the number of edits reported before it. */
  function Says(line: Line, edits: nat): seq<Item> {
    match line
    case ChatStart(_) => []
    case Prompt(text) => InkOf(User, text)
    case PromptBreak => []
    case Answer(text) => InkOf(Assistant, text)
    case Info(fact) => SaysFact(fact, edits)
  }

  function SaysFact(fact: Fact, edits: nat): seq<Item> {
    match fact
    case Edit(path) => [Edited(edits + 1, path)]
    case Tokens => [TurnEnd]
    case Remark(text) => InkOf(System, text)
    case _ => []
  }

  function EditsIn(line: Line): nat {
    if line.Info? && line.fact.Edit? then 1 else 0
  }

  // ------------------------------------------------------------- the parser

  datatype Meta = Meta(title: string, model: string, version: string, startedAt: Envelope.Option<Stamp>)

  datatype Parser = Parser(meta: Meta, dirty: bool, user: seq<string>, assistant: seq<string>, edits: nat)

  const FRESH := Parser(Meta("", "", "", Envelope.None), false, [], [], 0)

  const MAX_TITLE := 80

  function Clip(s: string): string {
    if |s| <= MAX_TITLE then s else s[..MAX_TITLE - 1] + ['\U{2026}']
  }

  /** `" ".join(text.split())`. */
  function Squeeze(s: string): string
    decreases |s|
  {
    var t := StripLeft(s);
    var word := Word(t);
    if t == [] then []
    else
      WordIsFront(t);
      var rest := StripLeft(t[|word|..]);
      if rest == [] then word else word + [' '] + Squeeze(rest)
  }

  lemma WordIsFront(s: string)
    ensures |Word(s)| <= |s| && (s != [] && !IsSpace(s[0]) ==> |Word(s)| > 0)
  {
    if s != [] {
      WordIsFront(s[1..]);
    }
  }

  function FlushUser(p: Parser): (Parser, seq<Observation>) {
    var text := Strip(Join(p.user));
    var q := p.(user := []);
    if text == "" then (q, [])
    else
      var named := if p.meta.title == "" then q.(meta := p.meta.(title := Clip(Squeeze(text))), dirty := true) else q;
      (named, [TurnStarted, Output(User, text)])
  }

  function FlushAssistant(p: Parser): (Parser, seq<Observation>) {
    var text := Strip(Join(p.assistant));
    (p.(assistant := []), if text == "" then [] else [Output(Assistant, text)])
  }

  function Flush(p: Parser): (Parser, seq<Observation>) {
    var (q, users) := FlushUser(p);
    var (r, assistants) := FlushAssistant(q);
    (r, users + assistants)
  }

  function Note(p: Parser, fact: Fact): (Parser, seq<Observation>) {
    match fact
    case NoFact => (p, [])
    case Version(v) => (if p.meta.version == v then p else p.(meta := p.meta.(version := v), dirty := true), [])
    case Model(m) => (if p.meta.model == m then p else p.(meta := p.meta.(model := m), dirty := true), [])
    case Edit(path) => (p.(edits := p.edits + 1), [EditFinished(p.edits + 1, path)])
    case Tokens => (p, [TurnCompleted])
    case Remark(text) => (p, [Output(System, text)])
  }

  /** An answer does not begin with a blank line. */
  function WithAnswer(p: Parser, text: string): Parser {
    if Strip(text) != "" || p.assistant != [] then p.(assistant := p.assistant + [text]) else p
  }

  datatype Outcome = Fed(out: seq<Observation>) | ValueError

  function Feed(p: Parser, line: Line): (Parser, Outcome) {
    match line
    case ChatStart(stamp) =>
      var (q, out) := Flush(p);
      if IsTime(stamp) then (q.(meta := q.meta.(startedAt := Envelope.Some(stamp)), dirty := true), Fed(out))
      else (q, ValueError)
    case Prompt(text) =>
      var (q, out) := FlushAssistant(p);
      (q.(user := q.user + [text]), Fed(out))
    case PromptBreak => (p.(user := p.user + [""]), Fed([]))
    case Info(fact) =>
      var (q, out) := Flush(p);
      var (r, more) := Note(q, fact);
      (r, Fed(out + more))
    case Answer(text) =>
      var (q, out) := FlushUser(p);
      (WithAnswer(q, text), Fed(out))
  }

  /** Not yet emitted: an answer in the making is never preceded by prompt text. */
  function Pending(p: Parser): seq<Item> {
    InkOf(User, Join(p.user)) + InkOf(Assistant, Join(p.assistant))
  }

  predicate Exclusive(p: Parser) {
    && (p.assistant != [] ==> forall k :: 0 <= k < |p.user| ==> p.user[k] == "")
    && (p.assistant != [] ==> InkOf(Assistant, Join(p.assistant)) != [])
  }

  // ------------------------------------------------------------- ink lemmas

  lemma {:induction false} InkConcat(role: Role, a: string, b: string)
    ensures InkOf(role, a + b) == InkOf(role, a) + InkOf(role, b)
  {
    if a == [] {
      assert a + b == b;
    } else {
      assert (a + b)[1..] == a[1..] + b;
      InkConcat(role, a[1..], b);
    }
  }

  lemma InkOfSpace(role: Role, c: char)
    requires IsSpace(c)
    ensures InkOf(role, [c]) == []
  {
    assert [c][1..] == "";
  }

  lemma {:induction false} InkStripLeft(role: Role, s: string)
    ensures InkOf(role, StripLeft(s)) == InkOf(role, s)
  {
    if s != [] && IsSpace(s[0]) {
      InkStripLeft(role, s[1..]);
    }
  }

  lemma {:induction false} InkStripRight(role: Role, s: string)
    ensures InkOf(role, StripRight(s)) == InkOf(role, s)
  {
    if s != [] && IsSpace(s[|s| - 1]) {
      var front, last := s[..|s| - 1], s[|s| - 1];
      InkStripRight(role, front);
      InkOfSpace(role, last);
      InkConcat(role, front, [last]);
      assert s == front + [last];
    }
  }

  /** Stripping loses no ink, and leaves nothing exactly when there is none. */
  lemma InkOfStrip(role: Role, s: string)
    ensures InkOf(role, Strip(s)) == InkOf(role, s)
    ensures Strip(s) == "" <==> InkOf(role, s) == []
  {
    InkStripLeft(role, s);
    InkStripRight(role, StripLeft(s));
    StripKeepsFront(s);
  }

  lemma StripKeepsFront(s: string)
    ensures Strip(s) == "" || !IsSpace(Strip(s)[0])
  {
    var t := StripLeft(s);
    if Strip(s) != "" {
      assert Strip(s)[0] == t[0];
    }
  }

  lemma JoinOfMore(lines: seq<string>)
    requires |lines| > 1
    ensures Join(lines) == lines[0] + ['\n'] + Join(lines[1..])
  {
  }

  lemma {:induction false} JoinGrows(lines: seq<string>, last: string)
    requires lines != []
    ensures Join(lines + [last]) == Join(lines) + ['\n'] + last
  {
    var all := lines + [last];
    JoinOfMore(all);
    assert all[1..] == lines[1..] + [last];
    if |lines| == 1 {
      assert all[1..] == [last] && Join([last]) == last;
    } else {
      JoinOfMore(lines);
      JoinGrows(lines[1..], last);
      Regroup(lines[0], ['\n'], Join(lines[1..]), last);
    }
  }

  lemma Regroup(a: string, b: string, c: string, d: string)
    ensures a + b + (c + b + d) == (a + b + c) + b + d
  {
  }

  lemma InkOfJoin(role: Role, lines: seq<string>, last: string)
    ensures InkOf(role, Join(lines + [last])) == InkOf(role, Join(lines)) + InkOf(role, last)
  {
    if lines == [] {
      assert lines + [last] == [last];
    } else {
      JoinGrows(lines, last);
      InkOfLine(role, Join(lines), last);
    }
  }

  lemma InkOfLine(role: Role, line: string, rest: string)
    ensures InkOf(role, line + ['\n'] + rest) == InkOf(role, line) + InkOf(role, rest)
  {
    InkOfSpace(role, '\n');
    InkConcat(role, line, ['\n']);
    InkConcat(role, line + ['\n'], rest);
  }

  lemma {:induction false} InkOfBreaks(role: Role, lines: seq<string>)
    requires forall k :: 0 <= k < |lines| ==> lines[k] == ""
    ensures InkOf(role, Join(lines)) == []
  {
    if |lines| > 1 {
      InkOfBreaks(role, lines[1..]);
      InkOfLine(role, lines[0], Join(lines[1..]));
    }
  }

  lemma {:induction false} ItemsConcat(a: seq<Observation>, b: seq<Observation>)
    ensures Items(a + b) == Items(a) + Items(b)
  {
    if a == [] {
      assert a + b == b;
    } else {
      assert (a + b)[1..] == a[1..] + b;
      ItemsConcat(a[1..], b);
    }
  }

  lemma ItemsOfOne(o: Observation)
    ensures Items([o]) == ItemsOf(o)
  {
    assert [o][1..] == [];
  }

  lemma ItemsOfTurn(text: string)
    ensures Items([TurnStarted, Output(User, text)]) == InkOf(User, text)
  {
    assert [TurnStarted, Output(User, text)][1..] == [Output(User, text)];
    ItemsOfOne(Output(User, text));
  }

  // ------------------------------------------------------------ conservation

  lemma FlushUserSays(p: Parser)
    ensures Items(FlushUser(p).1) == InkOf(User, Join(p.user))
    ensures FlushUser(p).0.user == [] && FlushUser(p).0.assistant == p.assistant && FlushUser(p).0.edits == p.edits
  {
    InkOfStrip(User, Join(p.user));
    ItemsOfTurn(Strip(Join(p.user)));
  }

  lemma FlushAssistantSays(p: Parser)
    ensures Items(FlushAssistant(p).1) == InkOf(Assistant, Join(p.assistant))
  {
    InkOfStrip(Assistant, Join(p.assistant));
    ItemsOfOne(Output(Assistant, Strip(Join(p.assistant))));
  }

  /** A flush emits exactly what was pending, in the order it was read. */
  lemma FlushSays(p: Parser)
    ensures Items(Flush(p).1) == Pending(p)
    ensures Flush(p).0.user == [] && Flush(p).0.assistant == [] && Flush(p).0.edits == p.edits
    ensures Pending(Flush(p).0) == [] && Exclusive(Flush(p).0)
  {
    FlushUserSays(p);
    FlushAssistantSays(FlushUser(p).0);
    ItemsConcat(FlushUser(p).1, FlushAssistant(FlushUser(p).0).1);
  }

  lemma NoteSays(p: Parser, fact: Fact)
    ensures Items(Note(p, fact).1) == SaysFact(fact, p.edits)
    ensures var q := Note(p, fact).0;
            q.user == p.user && q.assistant == p.assistant && q.edits == p.edits + EditsIn(Info(fact))
  {
    match fact
    case Edit(path) => ItemsOfOne(EditFinished(p.edits + 1, path));
    case Tokens => ItemsOfOne(TurnCompleted);
    case Remark(text) => ItemsOfOne(Output(System, text));
    case _ =>
  }

  /** Nothing is lost, invented, reordered or given to another speaker by one line. */
  predicate Conserves(p: Parser, line: Line, q: Parser, out: seq<Observation>) {
    && Items(out) + Pending(q) == Pending(p) + Says(line, p.edits)
    && q.edits == p.edits + EditsIn(line) && Exclusive(q)
  }

  lemma Glue(p: Parser, line: Line, q: Parser, out: seq<Observation>)
    requires Items(out) + Pending(q) == Pending(p) + Says(line, p.edits)
    requires q.edits == p.edits + EditsIn(line) && Exclusive(q)
    ensures Conserves(p, line, q, out)
  {
  }

  lemma PendingUser(p: Parser, text: string)
    requires p.assistant == []
    ensures Pending(p.(user := p.user + [text])) == InkOf(User, Join(p.user)) + InkOf(User, text)
  {
    InkOfJoin(User, p.user, text);
  }

  lemma PromptConserves(p: Parser, text: string)
    requires Exclusive(p)
    ensures Conserves(p, Prompt(text), Feed(p, Prompt(text)).0, Feed(p, Prompt(text)).1.out)
  {
    hide Items, InkOf, Join;
    var (q, out) := FlushAssistant(p);
    FlushAssistantSays(p);
    PendingUser(q, text);
    if p.assistant != [] {
      InkOfBreaks(User, p.user);
    } else {
      InkOfBreaks(Assistant, p.assistant);
    }
  }

  lemma BreakConserves(p: Parser)
    requires Exclusive(p)
    ensures Conserves(p, PromptBreak, Feed(p, PromptBreak).0, [])
  {
    InkOfJoin(User, p.user, "");
  }

  lemma PendingAssistant(p: Parser, text: string)
    requires p.user == []
    ensures Pending(p.(assistant := p.assistant + [text])) == InkOf(Assistant, Join(p.assistant)) + InkOf(Assistant, text)
    ensures InkOf(Assistant, text) != [] || InkOf(Assistant, Join(p.assistant)) != [] ==>
              Exclusive(p.(assistant := p.assistant + [text]))
  {
    InkOfJoin(Assistant, p.assistant, text);
  }

  lemma AnswerPending(p: Parser, text: string)
    requires Exclusive(p) && p.user == []
    ensures Pending(WithAnswer(p, text)) == InkOf(Assistant, Join(p.assistant)) + InkOf(Assistant, text)
    ensures Exclusive(WithAnswer(p, text))
  {
    InkOfStrip(Assistant, text);
    PendingAssistant(p, text);
  }

  lemma AnswerConserves(p: Parser, text: string)
    requires Exclusive(p)
    ensures Conserves(p, Line.Answer(text), Feed(p, Line.Answer(text)).0, Feed(p, Line.Answer(text)).1.out)
  {
    hide InkOf, Join, Items;
    var (q, out) := FlushUser(p);
    FlushUserSays(p);
    AnswerPending(q, text);
    if p.assistant != [] {
      InkOfBreaks(User, p.user);
    }
    Glue(p, Line.Answer(text), WithAnswer(q, text), out);
  }

  lemma InfoConserves(p: Parser, fact: Fact)
    requires Exclusive(p)
    ensures Conserves(p, Info(fact), Feed(p, Info(fact)).0, Feed(p, Info(fact)).1.out)
  {
    hide InkOf, Join, Items;
    var (q, out) := Flush(p);
    FlushSays(p);
    NoteSays(q, fact);
    ItemsConcat(out, Note(q, fact).1);
    Glue(p, Info(fact), Note(q, fact).0, out + Note(q, fact).1);
  }

  /**
   One line conserves the conversation, unless it is a chat start with an impossible time: that raises after
   the buffers were flushed, and exactly what was pending is lost.
   */
  lemma FeedConserves(p: Parser, line: Line)
    requires Exclusive(p)
    ensures var (q, outcome) := Feed(p, line);
            && (outcome.ValueError? <==> line.ChatStart? && !IsTime(line.stamp))
            && (outcome.Fed? ==> Conserves(p, line, q, outcome.out))
            && (outcome.ValueError? ==> Pending(q) == [] && Exclusive(q) && q.edits == p.edits)
  {
    match line
    case ChatStart(_) => FlushSays(p);
    case Prompt(text) => PromptConserves(p, text);
    case PromptBreak => BreakConserves(p);
    case Info(fact) => InfoConserves(p, fact);
    case Answer(text) => AnswerConserves(p, text);
  }

  // -------------------------------------------------------------------- runs

  /** The adapter feeds lines, and flushes whenever the file has gone quiet. */
  datatype Input = Feeds(line: Line) | Quiet

  predicate Impossible(input: Input) {
    input.Feeds? && input.line.ChatStart? && !IsTime(input.line.stamp)
  }

  /** One parser's life: it ends with the first error. `lines` (auxiliary) are those fed to it. */
  datatype World = World(parser: Parser, out: seq<Observation>, lines: seq<Line>, raised: bool)

  const START := World(FRESH, [], [], false)

  function Step(w: World, input: Input): World {
    if w.raised then w
    else
      match input
      case Quiet =>
        var (q, more) := Flush(w.parser);
        w.(parser := q, out := w.out + more)
      case Feeds(line) =>
        var (q, outcome) := Feed(w.parser, line);
        match outcome
        case Fed(more) => World(q, w.out + more, w.lines + [line], false)
        case ValueError => World(q, w.out, w.lines + [line], true)
  }

  function Play(inputs: seq<Input>): World {
    if inputs == [] then START else Step(Play(inputs[..|inputs| - 1]), inputs[|inputs| - 1])
  }

  function EditsOf(lines: seq<Line>): nat {
    if lines == [] then 0 else EditsOf(lines[..|lines| - 1]) + EditsIn(lines[|lines| - 1])
  }

  /** The whole conversation, line by line, with its edits numbered from one. */
  function Conversation(lines: seq<Line>): seq<Item> {
    if lines == [] then []
    else Conversation(lines[..|lines| - 1]) + Says(lines[|lines| - 1], EditsOf(lines[..|lines| - 1]))
  }

  lemma ConversationGrows(lines: seq<Line>, line: Line)
    ensures Conversation(lines + [line]) == Conversation(lines) + Says(line, EditsOf(lines))
    ensures EditsOf(lines + [line]) == EditsOf(lines) + EditsIn(line)
  {
    assert (lines + [line])[..|lines|] == lines;
  }

  function LinesIn(inputs: seq<Input>): seq<Line> {
    if inputs == [] then []
    else
      LinesIn(inputs[..|inputs| - 1]) + match inputs[|inputs| - 1] case Feeds(line) => [line] case Quiet => []
  }

  /** What was emitted and what is pending is the conversation so far. */
  ghost predicate Told(w: World) {
    && Exclusive(w.parser) && w.parser.edits == EditsOf(w.lines)
    && Items(w.out) + Pending(w.parser) == Conversation(w.lines)
  }

  lemma FedTells(w: World, line: Line, q: Parser, more: seq<Observation>)
    requires Told(w) && Conserves(w.parser, line, q, more)
    ensures Told(World(q, w.out + more, w.lines + [line], false))
  {
    ConversationGrows(w.lines, line);
    ItemsConcat(w.out, more);
    Tell(Items(w.out), Items(more), Pending(w.parser), Pending(q), Conversation(w.lines), Says(line, w.parser.edits));
  }

  lemma Tell(said: seq<Item>, more: seq<Item>, pending: seq<Item>, next: seq<Item>, all: seq<Item>, says: seq<Item>)
    requires more + next == pending + says && said + pending == all
    ensures (said + more) + next == all + says
  {
    assert (said + more) + next == said + (more + next);
    assert said + (pending + says) == (said + pending) + says;
  }

  lemma QuietTells(w: World)
    requires Told(w) && !w.raised
    ensures Told(Step(w, Quiet)) && Pending(Step(w, Quiet).parser) == []
  {
    FlushSays(w.parser);
    ItemsConcat(w.out, Flush(w.parser).1);
  }

  /** One step of a parser that has not raised: it raises exactly on an impossible time. */
  lemma StepTells(w: World, input: Input)
    requires Told(w) && !w.raised
    ensures Step(w, input).raised <==> Impossible(input)
    ensures !Impossible(input) ==> Told(Step(w, input))
  {
    match input
    case Quiet => QuietTells(w);
    case Feeds(line) =>
      FeedConserves(w.parser, line);
      if !Impossible(input) {
        var (q, outcome) := Feed(w.parser, line);
        FedTells(w, line, q, outcome.out);
      }
  }

  predicate Clean(inputs: seq<Input>) {
    forall k :: 0 <= k < |inputs| ==> !Impossible(inputs[k])
  }

  lemma {:induction false} CleanRunTells(inputs: seq<Input>)
    requires Clean(inputs)
    ensures !Play(inputs).raised && Told(Play(inputs)) && Play(inputs).lines == LinesIn(inputs)
  {
    if inputs != [] {
      var n := |inputs| - 1;
      CleanRunTells(inputs[..n]);
      hide Told;
      StepTells(Play(inputs[..n]), inputs[n]);
      StepFeeds(Play(inputs[..n]), inputs[n]);
    }
  }

  lemma StepFeeds(w: World, input: Input)
    requires !w.raised
    ensures Step(w, input).lines == w.lines + match input case Feeds(line) => [line] case Quiet => []
  {
  }

  // ------------------------------------------------------- what is held back

  /** The items if `role` spoke them. */
  function SpokenBy(role: Role, items: seq<Item>): seq<Item> {
    if items != [] && items[0].Ink? && items[0].role == role then items else []
  }

  /** What a line leaves waiting for the next flush. */
  function HeldAfter(held: seq<Item>, line: Line): seq<Item> {
    match line
    case Prompt(text) => SpokenBy(User, held) + InkOf(User, text)
    case Answer(text) => SpokenBy(Assistant, held) + InkOf(Assistant, text)
    case PromptBreak => held
    case _ => []
  }

  /**
   Read off the input alone: the ink of the block of prompt lines, or of answer lines, since the last quiet
   moment, structural line or change of speaker.
   */
  function Held(inputs: seq<Input>): seq<Item> {
    if inputs == [] then []
    else
      match inputs[|inputs| - 1]
      case Quiet => []
      case Feeds(line) => HeldAfter(Held(inputs[..|inputs| - 1]), line)
  }

  lemma {:induction false} InkIsSpokenBy(role: Role, s: string)
    ensures InkOf(role, s) != [] ==> InkOf(role, s)[0].Ink? && InkOf(role, s)[0].role == role
  {
    if s != [] {
      InkIsSpokenBy(role, s[1..]);
    }
  }

  lemma PendingSpokenBy(p: Parser)
    requires Exclusive(p)
    ensures SpokenBy(User, Pending(p)) == InkOf(User, Join(p.user))
    ensures SpokenBy(Assistant, Pending(p)) == InkOf(Assistant, Join(p.assistant))
  {
    InkIsSpokenBy(User, Join(p.user));
    InkIsSpokenBy(Assistant, Join(p.assistant));
    if p.assistant != [] {
      InkOfBreaks(User, p.user);
    }
  }

  lemma PromptHeld(p: Parser, text: string)
    requires Exclusive(p)
    ensures Pending(Feed(p, Prompt(text)).0) == HeldAfter(Pending(p), Prompt(text))
  {
    PendingSpokenBy(p);
    PendingUser(FlushAssistant(p).0, text);
  }

  lemma AnswerHeld(p: Parser, text: string)
    requires Exclusive(p)
    ensures Pending(Feed(p, Line.Answer(text)).0) == HeldAfter(Pending(p), Line.Answer(text))
  {
    PendingSpokenBy(p);
    FlushUserSays(p);
    AnswerPending(FlushUser(p).0, text);
  }

  lemma FeedHeld(p: Parser, line: Line)
    requires Exclusive(p)
    ensures Pending(Feed(p, line).0) == HeldAfter(Pending(p), line)
  {
    match line
    case ChatStart(_) => FlushSays(p);
    case Prompt(text) => PromptHeld(p, text);
    case PromptBreak => InkOfJoin(User, p.user, "");
    case Info(fact) =>
      FlushSays(p);
      NoteSays(Flush(p).0, fact);
    case Answer(text) => AnswerHeld(p, text);
  }

  /** The parser's buffers hold exactly that. */
  lemma {:induction false} HeldIsPending(inputs: seq<Input>)
    requires Clean(inputs)
    ensures Pending(Play(inputs).parser) == Held(inputs)
  {
    if inputs != [] {
      var n := |inputs| - 1;
      var w := Play(inputs[..n]);
      HeldIsPending(inputs[..n]);
      CleanRunTells(inputs[..n]);
      hide Pending, Held;
      match inputs[n]
      case Quiet =>
        QuietTells(w);
        HeldStep(inputs);
      case Feeds(line) =>
        assert !Impossible(inputs[n]);
        FeedHeld(w.parser, line);
        FeedConserves(w.parser, line);
        HeldStep(inputs);
    }
  }

  lemma HeldStep(inputs: seq<Input>)
    requires inputs != []
    ensures var n := |inputs| - 1;
            Held(inputs) == match inputs[n] case Quiet => [] case Feeds(line) => HeldAfter(Held(inputs[..n]), line)
  {
  }

  // -------------------------------------------------------------- the theorem

  /** What a run has emitted once a final flush is added - which a parser that raised does not get. */
  function Spoken(w: World): seq<Item> {
    if w.raised then Items(w.out) else Items(w.out + Flush(w.parser).1)
  }

  predicate TellsAll(inputs: seq<Input>) { Spoken(Play(inputs)) == Conversation(LinesIn(inputs)) }

  predicate Silent(input: Input) {
    input.Quiet? || Says(input.line, 0) == []
  }

  predicate FirstImpossible(inputs: seq<Input>, k: nat) {
    k < |inputs| && Impossible(inputs[k]) && forall j :: 0 <= j < k ==> !Impossible(inputs[j])
  }

  lemma UnfoldRun(inputs: seq<Input>)
    requires inputs != []
    ensures var n := |inputs| - 1;
            && Play(inputs) == Step(Play(inputs[..n]), inputs[n])
            && LinesIn(inputs) == LinesIn(inputs[..n]) + match inputs[n] case Feeds(line) => [line] case Quiet => []
  {
  }

  lemma EndsHere(inputs: seq<Input>, last: Input)
    requires Clean(inputs) && Impossible(last)
    ensures var w := Step(Play(inputs), last);
            && w.raised && w.lines == LinesIn(inputs) + [last.line]
            && Items(w.out) + Held(inputs) == Conversation(LinesIn(inputs))
  {
    hide Held;
    CleanRunTells(inputs);
    HeldIsPending(inputs);
    StepTells(Play(inputs), last);
    StepFeeds(Play(inputs), last);
  }

  /** An impossible time ends the run: what was held back and whatever follows is not told. */
  lemma {:induction false} RunEndsAt(inputs: seq<Input>, k: nat)
    requires FirstImpossible(inputs, k)
    ensures var w := Play(inputs);
            && w.raised && w.lines == LinesIn(inputs[..k]) + [inputs[k].line]
            && Items(w.out) + Held(inputs[..k]) == Conversation(LinesIn(inputs[..k]))
  {
    hide Play, Held, Items, Conversation, LinesIn, Impossible;
    var n := |inputs| - 1;
    UnfoldRun(inputs);
    if k == n {
      EndsHere(inputs[..k], inputs[k]);
    } else {
      assert inputs[..n][..k] == inputs[..k];
      RunEndsAt(inputs[..n], k);
    }
  }

  lemma SilentAnywhere(line: Line, edits: nat)
    ensures Says(line, edits) == [] <==> Says(line, 0) == []
  {
  }

  /** What the inputs from `k` on add to the conversation: nothing exactly when they are all silent. */
  lemma {:induction false} Added(inputs: seq<Input>, k: nat) returns (tail: seq<Item>)
    requires k <= |inputs|
    ensures Conversation(LinesIn(inputs)) == Conversation(LinesIn(inputs[..k])) + tail
    ensures tail == [] <==> forall j :: k <= j < |inputs| ==> Silent(inputs[j])
  {
    hide Conversation, LinesIn, Silent;
    if k == |inputs| {
      assert inputs[..k] == inputs;
      tail := [];
    } else {
      var n := |inputs| - 1;
      UnfoldRun(inputs);
      assert inputs[..n][..k] == inputs[..k];
      var rest := Added(inputs[..n], k);
      var more := AddedOne(LinesIn(inputs[..n]), inputs[n]);
      tail := rest + more;
      AllSilent(inputs, k);
    }
  }

  lemma AddedOne(lines: seq<Line>, input: Input) returns (more: seq<Item>)
    ensures more == [] <==> Silent(input)
    ensures Conversation(lines + match input case Feeds(line) => [line] case Quiet => []) == Conversation(lines) + more
  {
    match input
    case Quiet =>
      assert lines + [] == lines;
      more := [];
    case Feeds(line) =>
      ConversationGrows(lines, line);
      SilentAnywhere(line, EditsOf(lines));
      more := Says(line, EditsOf(lines));
  }

  lemma AllSilent(inputs: seq<Input>, k: nat)
    requires k < |inputs|
    ensures var n := |inputs| - 1;
            (forall j :: k <= j < |inputs| ==> Silent(inputs[j])) <==>
            (forall j :: k <= j < n ==> Silent(inputs[..n][j])) && Silent(inputs[n])
  {
    hide Silent;
    var n := |inputs| - 1;
    assert forall j :: k <= j < n ==> inputs[..n][j] == inputs[j];
  }

  /**
   A parser tells the whole conversation - every visible character with its speaker, every edit and every end
   of a turn, once and in order - if and only if at the first chat start with an impossible time (if there is
   one) nothing is held back and nothing but silence follows.
   */
  lemma {:induction false} FinalFlushTellsAll(inputs: seq<Input>)
    ensures TellsAll(inputs) <==>
            forall k: nat :: FirstImpossible(inputs, k) ==>
              Held(inputs[..k]) == [] && forall j :: k < j < |inputs| ==> Silent(inputs[j])
  {
    hide Held, Spoken, Conversation, LinesIn, Play, Impossible, Silent;
    if Clean(inputs) {
      CleanTellsAll(inputs);
    } else {
      var k := FirstOf(inputs);
      EndedTellsAll(inputs, k);
      assert forall m: nat :: FirstImpossible(inputs, m) ==> m == k;
    }
  }

  lemma CleanTellsAll(inputs: seq<Input>)
    requires Clean(inputs)
    ensures TellsAll(inputs)
    ensures forall k: nat :: !FirstImpossible(inputs, k)
  {
    CleanRunTells(inputs);
    QuietTells(Play(inputs));
  }

  lemma {:induction false} FirstOf(inputs: seq<Input>) returns (k: nat)
    requires !Clean(inputs)
    ensures FirstImpossible(inputs, k)
  {
    hide Impossible;
    var n := |inputs| - 1;
    if Clean(inputs[..n]) {
      assert forall i :: 0 <= i < n ==> inputs[..n][i] == inputs[i];
      k := n;
    } else {
      k := FirstOf(inputs[..n]);
      assert forall i :: 0 <= i <= k ==> inputs[..n][i] == inputs[i];
    }
  }

  lemma EndedTellsAll(inputs: seq<Input>, k: nat)
    requires FirstImpossible(inputs, k)
    ensures TellsAll(inputs) <==> Held(inputs[..k]) == [] && forall j :: k < j < |inputs| ==> Silent(inputs[j])
  {
    hide Held, Conversation, LinesIn, Play, Items;
    RunEndsAt(inputs, k);
    var tail := Added(inputs, k);
    assert Silent(inputs[k]);
    var said, held := Items(Play(inputs).out), Held(inputs[..k]);
    assert said + (held + tail) == (said + held) + tail;
    if held + tail == [] {
      assert held == [] && tail == [];
    }
  }

  /** Where the idle flushes fell does not matter. */
  lemma {:induction false} QuietMomentsDoNotMatter(a: seq<Input>, b: seq<Input>)
    requires LinesIn(a) == LinesIn(b) && Clean(a) && Clean(b)
    ensures Spoken(Play(a)) == Spoken(Play(b))
  {
    CleanTellsAll(a);
    CleanTellsAll(b);
  }

  /**
   The documentation promises that drift never crashes the watch; an impossible time raises, and the prompt
   read just before is never reported.
   */
  lemma ImpossibleTimeLosesThePrompt(text: string, stamp: Stamp)
    requires InkOf(User, text) != [] && !IsTime(stamp)
    ensures var inputs := [Feeds(Prompt(text)), Feeds(ChatStart(stamp))];
            Play(inputs).raised && Spoken(Play(inputs)) == [] && Conversation(LinesIn(inputs)) == InkOf(User, text)
  {
    var one, two := [Feeds(Prompt(text))], [Feeds(Prompt(text)), Feeds(ChatStart(stamp))];
    assert two[..1] == one && one[..0] == [];
    PromptHeldFirst(text);
    RunEndsAt(two, 1);
    assert LinesIn(two) == LinesIn(one) + [ChatStart(stamp)];
    ConversationGrows(LinesIn(one), ChatStart(stamp));
  }

  lemma PromptHeldFirst(text: string)
    ensures var one := [Feeds(Prompt(text))];
            Held(one) == InkOf(User, text) && LinesIn(one) == [Prompt(text)]
            && Conversation(LinesIn(one)) == InkOf(User, text)
  {
    hide InkOf, EditsOf, EditsIn;
    var one, ink := [Feeds(Prompt(text))], InkOf(User, text);
    assert one[..0] == [] && [] + ink == ink;
    assert Held(one) == HeldAfter(Held([]), Prompt(text));
    assert [] + [Prompt(text)] == [Prompt(text)];
    ConversationGrows([], Prompt(text));
  }

  // ------------------------------------------------------------- well-formed

  predicate Opens(out: seq<Observation>, k: nat)
    requires k < |out|
  {
    out[k].TurnStarted? <==> k + 1 < |out| && IsPrompt(out[k + 1])
  }

  /** Every prompt opens a turn, nothing else does, and no output is blank or padded. */
  predicate Announced(out: seq<Observation>) {
    && (forall k :: 0 <= k < |out| ==> Opens(out, k))
    && (forall k :: 0 <= k < |out| && out[k].Output? ==> Tidy(out[k].text))
    && (out != [] ==> !IsPrompt(out[0]))
  }

  predicate Tidy(text: string) {
    text != "" && !IsSpace(text[0]) && !IsSpace(text[|text| - 1])
  }

  predicate IsPrompt(o: Observation) { o.Output? && o.role == User }

  lemma StripIsTidy(s: string)
    ensures Strip(s) == "" || Tidy(Strip(s))
  {
    StripKeepsFront(s);
  }

  lemma AnnouncedConcat(a: seq<Observation>, b: seq<Observation>)
    requires Announced(a) && Announced(b)
    ensures Announced(a + b)
  {
    var all := a + b;
    forall k | 0 <= k < |all|
      ensures Opens(all, k)
    {
      if k < |a| {
        assert Opens(a, k);
      } else {
        assert Opens(b, k - |a|);
      }
    }
  }

  lemma FlushUserAnnounces(p: Parser)
    ensures Announced(FlushUser(p).1)
  {
    StripIsTidy(Join(p.user));
  }

  lemma FlushAssistantAnnounces(p: Parser)
    ensures Announced(FlushAssistant(p).1)
  {
    StripIsTidy(Join(p.assistant));
  }

  lemma FlushAnnounces(p: Parser)
    ensures Announced(Flush(p).1)
  {
    FlushUserAnnounces(p);
    FlushAssistantAnnounces(FlushUser(p).0);
    AnnouncedConcat(FlushUser(p).1, FlushAssistant(FlushUser(p).0).1);
  }

  predicate TidyLine(line: Line) {
    line.Info? && line.fact.Remark? ==> Tidy(line.fact.text)
  }

  /** The remarks that the classification yields are stripped and not empty. */
  lemma ClassifiedIsTidy(raw: string)
    ensures TidyLine(Classify(raw))
  {
    var line := TrimFeeds(raw);
    if Envelope.StartsWith(line, "> ") {
      StripIsTidy(line[2..]);
    }
  }

  lemma FeedAnnounces(p: Parser, line: Line)
    requires Feed(p, line).1.Fed? && TidyLine(line)
    ensures Announced(Feed(p, line).1.out)
  {
    match line
    case ChatStart(_) => FlushAnnounces(p);
    case Prompt(_) => FlushAssistantAnnounces(p);
    case PromptBreak =>
    case Info(fact) =>
      FlushAnnounces(p);
      NoteAnnounces(Flush(p).0, fact);
      AnnouncedConcat(Flush(p).1, Note(Flush(p).0, fact).1);
    case Answer(_) => FlushUserAnnounces(p);
  }

  lemma NoteAnnounces(p: Parser, fact: Fact)
    requires fact.Remark? ==> Tidy(fact.text)
    ensures Announced(Note(p, fact).1)
  {
  }

  /** In every run, every prompt opens exactly one turn, and every output is stripped and not empty. */
  lemma {:induction false} RunAnnounces(inputs: seq<Input>)
    requires forall k :: 0 <= k < |inputs| && inputs[k].Feeds? ==> TidyLine(inputs[k].line)
    ensures Announced(Play(inputs).out)
  {
    if inputs != [] {
      var before, input := Play(inputs[..|inputs| - 1]), inputs[|inputs| - 1];
      RunAnnounces(inputs[..|inputs| - 1]);
      match input
      case Quiet =>
        FlushAnnounces(before.parser);
        AnnouncedConcat(before.out, Flush(before.parser).1);
      case Feeds(line) =>
        if Feed(before.parser, line).1.Fed? {
          FeedAnnounces(before.parser, line);
          AnnouncedConcat(before.out, Feed(before.parser, line).1.out);
        }
    }
  }

  // ------------------------------------------------------------------ title

  function FirstPrompt(out: seq<Observation>): Envelope.Option<string> {
    if out == [] then Envelope.None
    else if IsPrompt(out[0]) then Envelope.Some(out[0].text)
    else FirstPrompt(out[1..])
  }

  lemma {:induction false} FirstPromptConcat(a: seq<Observation>, b: seq<Observation>)
    ensures FirstPrompt(a + b) == if FirstPrompt(a).Some? then FirstPrompt(a) else FirstPrompt(b)
  {
    if a == [] {
      assert a + b == b;
    } else {
      assert (a + b)[0] == a[0] && (a + b)[1..] == a[1..] + b;
      FirstPromptConcat(a[1..], b);
    }
  }

  /** The title is the first prompt reported, squeezed and clipped, and there is none before. */
  predicate Titled(p: Parser, out: seq<Observation>) {
    match FirstPrompt(out)
    case None => p.meta.title == ""
    case Some(text) => p.meta.title == Clip(Squeeze(text)) && p.meta.title != ""
  }

  lemma SqueezeSaysSomething(text: string)
    requires Tidy(text)
    ensures Clip(Squeeze(text)) != "" && |Clip(Squeeze(text))| <= MAX_TITLE
  {
    WordIsFront(text);
    assert StripLeft(text) == text;
  }

  lemma FlushUserTitles(p: Parser, out: seq<Observation>)
    requires Titled(p, out)
    ensures Titled(FlushUser(p).0, out + FlushUser(p).1)
  {
    var text := Strip(Join(p.user));
    FirstPromptConcat(out, FlushUser(p).1);
    if text != "" {
      StripIsTidy(Join(p.user));
      SqueezeSaysSomething(text);
      hide Squeeze, Clip, Join, Strip;
      assert FirstPrompt([TurnStarted, Output(User, text)]) == Envelope.Some(text) by {
        assert [TurnStarted, Output(User, text)][1..] == [Output(User, text)];
      }
    }
  }

  lemma NoPromptTitles(p: Parser, q: Parser, out: seq<Observation>, more: seq<Observation>)
    requires Titled(p, out) && q.meta.title == p.meta.title && FirstPrompt(more).None?
    ensures Titled(q, out + more)
  {
    hide Squeeze, Clip;
    FirstPromptConcat(out, more);
  }

  lemma FlushTitles(p: Parser, out: seq<Observation>)
    requires Titled(p, out)
    ensures Titled(Flush(p).0, out + Flush(p).1)
  {
    hide Titled, Squeeze, Clip, Join, Strip;
    FlushUserTitles(p, out);
    var (q, users) := FlushUser(p);
    var (r, assistants) := FlushAssistant(q);
    NoPromptTitles(q, r, out + users, assistants);
    assert (out + users) + assistants == out + (users + assistants);
  }

  lemma SameTitle(p: Parser, q: Parser, out: seq<Observation>)
    requires Titled(p, out) && q.meta.title == p.meta.title
    ensures Titled(q, out)
  {
  }

  lemma InfoTitles(p: Parser, fact: Fact, out: seq<Observation>)
    requires Titled(p, out)
    ensures Titled(Feed(p, Info(fact)).0, out + Feed(p, Info(fact)).1.out)
  {
    hide Titled, Flush;
    FlushTitles(p, out);
    var (q, flushed) := Flush(p);
    var (r, more) := Note(q, fact);
    NoPromptTitles(q, r, out + flushed, more);
    assert (out + flushed) + more == out + (flushed + more);
  }

  lemma FeedTitles(p: Parser, line: Line, out: seq<Observation>)
    requires Titled(p, out) && Feed(p, line).1.Fed?
    ensures Titled(Feed(p, line).0, out + Feed(p, line).1.out)
  {
    hide Titled, Squeeze, Clip, Join, Strip, Flush, FlushUser, Note;
    var q := Feed(p, line).0;
    match line
    case ChatStart(_) =>
      FlushTitles(p, out);
      SameTitle(Flush(p).0, q, out + Flush(p).1);
    case Prompt(_) => NoPromptTitles(p, q, out, FlushAssistant(p).1);
    case PromptBreak =>
      SameTitle(p, q, out);
      assert out + [] == out;
    case Info(fact) => InfoTitles(p, fact, out);
    case Answer(text) =>
      FlushUserTitles(p, out);
      SameTitle(FlushUser(p).0, q, out + FlushUser(p).1);
  }

  /** In every run without an impossible time the title is fixed by the first prompt that was reported. */
  lemma {:induction false} RunTitles(inputs: seq<Input>)
    requires forall k :: 0 <= k < |inputs| && inputs[k].Feeds? && inputs[k].line.ChatStart? ==> IsTime(inputs[k].line.stamp)
    ensures Titled(Play(inputs).parser, Play(inputs).out)
  {
    if inputs != [] {
      var n := |inputs| - 1;
      var before := Play(inputs[..n]);
      RunTitles(inputs[..n]);
      hide Titled, Flush;
      match inputs[n]
      case Quiet => FlushTitles(before.parser, before.out);
      case Feeds(line) => FeedTitles(before.parser, line, before.out);
    }
  }

  // ------------------------------------------------------------- the parser

  class ChatHistory {
    var meta: Meta
    var metaDirty: bool
    var userBuffer: seq<string>
    var assistantBuffer: seq<string>
    var editCounter: nat

    function View(): Parser
      reads this
    {
      Parser(meta, metaDirty, userBuffer, assistantBuffer, editCounter)
    }

    constructor ()
      ensures View() == FRESH
    {
      meta, metaDirty, userBuffer, assistantBuffer, editCounter := FRESH.meta, false, [], [], 0;
    }

    /** Reading the flag clears it and nothing else. */
    method ConsumeMetaDirty() returns (dirty: bool)
      modifies this
      ensures dirty == old(metaDirty) && View() == old(View()).(dirty := false)
    {
      dirty, metaDirty := metaDirty, false;
    }

    method FeedLine(raw: string) returns (outcome: Outcome)
      modifies this
      ensures (View(), outcome) == Feed(old(View()), Classify(raw))
    {
      var out, more;
      match Classify(raw) {
        case ChatStart(stamp) =>
          out := FlushBuffers();
          if !IsTime(stamp) {
            return ValueError;
          }
          meta, metaDirty := meta.(startedAt := Envelope.Some(stamp)), true;
        case Prompt(text) =>
          out := EmitAssistant();
          userBuffer := userBuffer + [text];
        case PromptBreak =>
          userBuffer, out := userBuffer + [""], [];
        case Info(fact) =>
          out := FlushBuffers();
          more := ParseInfo(fact);
          out := out + more;
        case Answer(text) =>
          out := Append(text);
      }
      return Fed(out);
    }

    /** Assistant markdown also ends a pending prompt. */
    method Append(text: string) returns (out: seq<Observation>)
      modifies this
      ensures (View(), Fed(out)) == Feed(old(View()), Line.Answer(text))
    {
      out := EmitUser();
      if Strip(text) != "" || assistantBuffer != [] {
        assistantBuffer := assistantBuffer + [text];
      }
    }

    method FlushBuffers() returns (out: seq<Observation>)
      modifies this
      ensures (View(), out) == Flush(old(View()))
    {
      var users := EmitUser();
      var assistants := EmitAssistant();
      out := users + assistants;
    }

    method ParseInfo(fact: Fact) returns (out: seq<Observation>)
      modifies this
      ensures (View(), out) == Note(old(View()), fact)
    {
      out := [];
      match fact {
        case NoFact =>
        case Version(v) =>
          if meta.version != v {
            meta, metaDirty := meta.(version := v), true;
          }
        case Model(m) =>
          if meta.model != m {
            meta, metaDirty := meta.(model := m), true;
          }
        case Edit(path) =>
          editCounter := editCounter + 1;
          out := [EditFinished(editCounter, path)];
        case Tokens => out := [TurnCompleted];
        case Remark(text) => out := [Output(System, text)];
      }
    }

    method EmitUser() returns (out: seq<Observation>)
      modifies this
      ensures (View(), out) == FlushUser(old(View()))
    {
      var text := Strip(Join(userBuffer));
      userBuffer, out := [], [];
      if text != "" {
        if meta.title == "" {
          meta, metaDirty := meta.(title := Clip(Squeeze(text))), true;
        }
        out := [TurnStarted, Output(User, text)];
      }
    }

    method EmitAssistant() returns (out: seq<Observation>)
      modifies this
      ensures (View(), out) == FlushAssistant(old(View()))
    {
      var text := Strip(Join(assistantBuffer));
      assistantBuffer, out := [], [];
      if text != "" {
        out := [Output(Assistant, text)];
      }
    }
  }
}
