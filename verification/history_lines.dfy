/**
 What the lines of Aider's history mean, kind by kind, and what the parser makes of them beside the conversation: ink,
 titles and the facts it remembers.
 */
module HistoryLines {
  import opened Calendar
  import opened DecimalText
  import opened HistoryParser
  import E = Envelope

  // -------------------------------------------------------------- whitespace

  /** The whitespace characters, by their codes. */
  lemma SpacesByCode(c: char)
    ensures IsSpace(c) <==>
              || 9 <= c as int <= 13 || 28 <= c as int <= 32 || c as int in {0x85, 0xA0, 0x1680}
              || 0x2000 <= c as int <= 0x200A || c as int in {0x2028, 0x2029, 0x202F, 0x205F, 0x3000}
  {
  }

  /** Ink is what is left of a text without whitespace, character by character and in order. */
  lemma InkExactly(role: Role, s: string, c: char)
    ensures InkOf(role, "") == []
    ensures InkOf(role, s + [c]) == InkOf(role, s) + if IsSpace(c) then [] else [Ink(role, c)]
  {
    InkConcat(role, s, [c]);
    assert [c][1..] == "";
    assert InkOf(role, [c]) == (if IsSpace(c) then [] else [Ink(role, c)]) + InkOf(role, [c][1..]);
  }

  /** Stripping takes whitespace off both ends and nothing else. */
  lemma StripExactly(s: string)
    ensures exists before: string, behind: string :: Blank(before) && Blank(behind) && s == before + Strip(s) + behind
    ensures Strip(s) != "" ==> !IsSpace(Strip(s)[0]) && !IsSpace(Strip(s)[|Strip(s)| - 1])
  {
    hide StripLeft, StripRight, IsSpace, Blank;
    var t := StripLeft(s);
    StripLeftCuts(s);
    StripRightCuts(t);
    var before, behind := s[..|s| - |t|], t[|Strip(s)|..];
    assert s == before + Strip(s) + behind;
    assert Strip(s) != "" ==> Strip(s)[0] == t[0];
  }

  lemma {:induction false} StripLeftCuts(s: string)
    ensures |StripLeft(s)| <= |s| && StripLeft(s) == s[|s| - |StripLeft(s)|..] && Blank(s[..|s| - |StripLeft(s)|])
  {
    hide IsSpace;
    if s != "" && IsSpace(s[0]) {
      StripLeftCuts(s[1..]);
      assert s[..|s| - |StripLeft(s)|] == [s[0]] + s[1..][..|s| - 1 - |StripLeft(s)|];
    }
  }

  lemma {:induction false} StripRightCuts(s: string)
    ensures StripRight(s) <= s && Blank(s[|StripRight(s)|..])
  {
    hide IsSpace;
    if s != "" && IsSpace(s[|s| - 1]) {
      var front := s[..|s| - 1];
      StripRightCuts(front);
      assert StripRight(s) == StripRight(front);
      assert s[|StripRight(s)|..] == front[|StripRight(front)|..] + [s[|s| - 1]];
    }
  }

  // ------------------------------------------------------------------- lines

  predicate Unbroken(text: string) {
    text != "" ==> text[|text| - 1] != '\n'
  }

  lemma Untrimmed(text: string)
    requires Unbroken(text)
    ensures TrimFeeds(text) == text
  {
  }

  lemma Prefixed(prefix: string, text: string)
    ensures E.StartsWith(prefix + text, prefix) && (prefix + text)[|prefix|..] == text
  {
  }

  lemma NotPrefixed(s: string, prefix: string, k: nat)
    requires k < |prefix| && (k < |s| ==> s[k] != prefix[k])
    ensures !E.StartsWith(s, prefix)
  {
  }

  /** A line feed at the end makes no difference. */
  lemma FeedIsIgnored(raw: string)
    ensures Classify(raw + ['\n']) == Classify(raw)
  {
    assert (raw + ['\n'])[..|raw|] == raw;
  }

  /** A prompt line carries the text behind its marker; the marker alone separates prompts. */
  lemma PromptLine(text: string)
    requires Unbroken(text)
    ensures Classify("#### " + text) == Prompt(text)
    ensures Classify("####") == PromptBreak
  {
    var raw := "#### " + text;
    Untrimmed(raw);
    Prefixed("#### ", text);
    NotPrefixed(raw, STARTED, 1);
    Untrimmed("####");
    NotPrefixed("####", STARTED, 1);
  }

  /** An info line is what its text, stripped, says; an empty one says nothing. */
  lemma InfoLine(text: string)
    requires Unbroken(text)
    ensures Classify("> " + text) == Info(FactOf(Strip(text)))
    ensures Classify(">") == Info(NoFact)
  {
    var raw := "> " + text;
    Untrimmed(raw);
    Prefixed("> ", text);
    NotPrefixed(raw, STARTED, 0);
    NotPrefixed(raw, "#### ", 0);
    assert raw[0] == '>' && "####"[0] == '#';
    Untrimmed(">");
    NotPrefixed(">", STARTED, 0);
    NotPrefixed(">", "#### ", 0);
    NotPrefixed(">", "> ", 1);
    assert "####" != ">";
  }

  /** Anything else belongs to the answer, as it is. */
  lemma AnswerLine(raw: string)
    requires Unbroken(raw) && raw != "####" && raw != ">"
    requires !E.StartsWith(raw, "#### ") && !E.StartsWith(raw, "> ") && !E.StartsWith(raw, "# aider chat started at ")
    ensures Classify(raw) == Line.Answer(raw)
  {
    Untrimmed(raw);
  }

  // ------------------------------------------------------------------- stamps

  function Two(n: nat): string
    requires n < 100
  {
    [Digit(n / 10), Digit(n % 10)]
  }

  function StampText(year: nat, month: nat, day: nat, hour: nat, minute: nat, second: nat): string
    requires year < 10000 && month < 100 && day < 100 && hour < 100 && minute < 100 && second < 100
  {
    Two(year / 100) + Two(year % 100) + "-" + Two(month) + "-" + Two(day) + " " +
    Two(hour) + ":" + Two(minute) + ":" + Two(second)
  }

  lemma TwoReads(n: nat)
    requires n < 100
    ensures IsDigit(Two(n)[0]) && IsDigit(Two(n)[1]) && Number(Two(n)) == n
  {
    hide Digit;
    OneMoreDigit("", n / 10);
    assert "" + [Digit(n / 10)] == [Digit(n / 10)];
    OneMoreDigit([Digit(n / 10)], n % 10);
    assert [Digit(n / 10)] + [Digit(n % 10)] == Two(n);
  }

  lemma FourRead(year: nat)
    requires year < 10000
    ensures var s := Two(year / 100) + Two(year % 100);
            (forall k :: 0 <= k < 4 ==> IsDigit(s[k])) && Number(s) == year
  {
    hide Digit;
    var a, b := year / 100, year % 100;
    TwoReads(a);
    TwoReads(b);
    var front := Two(a) + [Digit(b / 10)];
    OneMoreDigit(Two(a), b / 10);
    OneMoreDigit(front, b % 10);
    assert front + [Digit(b % 10)] == Two(a) + Two(b);
  }

  lemma StampParts(year: nat, month: nat, day: nat, hour: nat, minute: nat, second: nat)
    requires year < 10000 && month < 100 && day < 100 && hour < 100 && minute < 100 && second < 100
    ensures var s := StampText(year, month, day, hour, minute, second);
            && |s| == 19 && s[4] == '-' && s[7] == '-' && s[10] == ' ' && s[13] == ':' && s[16] == ':'
            && s[..4] == Two(year / 100) + Two(year % 100) && s[5..7] == Two(month) && s[8..10] == Two(day)
            && s[11..13] == Two(hour) && s[14..16] == Two(minute) && s[17..19] == Two(second)
  {
    hide Digit;
    var s := StampText(year, month, day, hour, minute, second);
    assert s[5..7] == [s[5], s[6]] && s[8..10] == [s[8], s[9]] && s[11..13] == [s[11], s[12]];
    assert s[14..16] == [s[14], s[15]] && s[17..19] == [s[17], s[18]];
  }

  /** A chat start is read back from its printed form, whether or not it is a possible time. */
  lemma ChatStartLine(year: nat, month: nat, day: nat, hour: nat, minute: nat, second: nat)
    requires year < 10000 && month < 100 && day < 100 && hour < 100 && minute < 100 && second < 100
    ensures Classify("# aider chat started at " + StampText(year, month, day, hour, minute, second)) ==
              ChatStart(Stamp(Date(year, month, day), hour, minute, second))
  {
    hide Two, Number, StampText;
    var s := StampText(year, month, day, hour, minute, second);
    var raw := "# aider chat started at " + s;
    StampParts(year, month, day, hour, minute, second);
    StampHasDigits(year, month, day, hour, minute, second);
    assert raw[|raw| - 1] == s[18];
    Untrimmed(raw);
    Prefixed("# aider chat started at ", s);
    FourRead(year);
    TwoReads(month);
    TwoReads(day);
    TwoReads(hour);
    TwoReads(minute);
    TwoReads(second);
  }

  lemma StampHasDigits(year: nat, month: nat, day: nat, hour: nat, minute: nat, second: nat)
    requires year < 10000 && month < 100 && day < 100 && hour < 100 && minute < 100 && second < 100
    ensures HasStamp(StampText(year, month, day, hour, minute, second))
    ensures IsDigit(StampText(year, month, day, hour, minute, second)[18])
  {
    hide Digit, StampText;
    var s := StampText(year, month, day, hour, minute, second);
    StampParts(year, month, day, hour, minute, second);
    FourRead(year);
    TwoReads(month);
    TwoReads(day);
    TwoReads(hour);
    TwoReads(minute);
    TwoReads(second);
    assert forall k :: 0 <= k < 4 ==> s[..4][k] == s[k];
    assert s[5..7][0] == s[5] && s[5..7][1] == s[6] && s[8..10][0] == s[8] && s[8..10][1] == s[9];
    assert s[11..13][0] == s[11] && s[11..13][1] == s[12] && s[14..16][0] == s[14] && s[14..16][1] == s[15];
    assert s[17..19][0] == s[17] && s[17..19][1] == s[18];
  }

  /** A possible time is a day of the calendar and a time of day. */
  lemma TimesExactly(t: Stamp)
    ensures IsTime(t) <==>
              && 1 <= t.date.year <= 9999 && 1 <= t.date.month <= 12 && 1 <= t.date.day
              && t.date.day <= (if t.date.month in {4, 6, 9, 11} then 30
                                else if t.date.month != 2 then 31
                                else if t.date.year % 400 == 0 || (t.date.year % 4 == 0 && t.date.year % 100 != 0) then 29 else 28)
              && t.hour < 24 && t.minute < 60 && t.second < 60
  {
  }

  // -------------------------------------------------------------------- facts

  predicate IsWord(s: string) {
    s != "" && forall k :: 0 <= k < |s| ==> !IsSpace(s[k])
  }

  lemma {:induction false} WordThen(word: string, rest: string)
    requires IsWord(word) && (rest != "" ==> IsSpace(rest[0]))
    ensures Word(word + rest) == word
  {
    assert (word + rest)[1..] == word[1..] + rest;
    if |word| > 1 {
      WordThen(word[1..], rest);
    } else {
      assert word[1..] + rest == rest;
    }
    assert word == [word[0]] + word[1..];
  }

  lemma {:induction false} LineThen(line: string)
    requires '\n' !in line
    ensures FirstLine(line) == line
  {
    if line != "" {
      LineThen(line[1..]);
      assert line == [line[0]] + line[1..];
    }
  }

  /** The version and the model are the word behind their label. */
  lemma LabelledWord(word: string, rest: string)
    requires IsWord(word) && (rest != "" ==> IsSpace(rest[0]))
    ensures FactOf("Aider v" + word + rest) == Version(word)
    ensures FactOf("Model: " + word + rest) == Model(word)
  {
    WordThen(word, rest);
    assert "Aider v" + word + rest == "Aider v" + (word + rest);
    assert "Model: " + word + rest == "Model: " + (word + rest);
    Prefixed("Aider v", word + rest);
    Prefixed("Model: ", word + rest);
    NotPrefixed("Model: " + (word + rest), "Aider v", 0);
  }

  /** An applied edit names its file, and the accounting line ends the turn. */
  lemma LabelledEdit(path: string, text: string)
    requires path != "" && '\n' !in path
    ensures FactOf("Applied edit to " + path) == Edit(path)
    ensures FactOf("Tokens: " + text) == Tokens
    ensures FactOf("") == NoFact
  {
    LineThen(path);
    Prefixed("Applied edit to ", path);
    NotPrefixed("Applied edit to " + path, "Aider v", 1);
    NotPrefixed("Applied edit to " + path, "Model: ", 0);
    Prefixed("Tokens: ", text);
    NotPrefixed("Tokens: " + text, "Aider v", 0);
    NotPrefixed("Tokens: " + text, "Model: ", 0);
    NotPrefixed("Tokens: " + text, "Applied edit to ", 0);
  }

  /** Any other info text is passed on as a remark. */
  lemma OtherIsRemark(text: string)
    requires text != "" && !E.StartsWith(text, "Aider v") && !E.StartsWith(text, "Model: ")
    requires !E.StartsWith(text, "Applied edit to ") && !E.StartsWith(text, "Tokens: ")
    ensures FactOf(text) == Remark(text)
  {
  }

  /** What each kind of fact makes the parser report. */
  lemma FactsInWords(p: Parser, fact: Fact)
    ensures Note(p, fact).1 ==
              match fact
              case Edit(path) => [EditFinished(p.edits + 1, path)]
              case Tokens => [TurnCompleted]
              case Remark(text) => [Output(System, text)]
              case _ => []
    ensures Note(p, fact).0.edits == if fact.Edit? then p.edits + 1 else p.edits
  {
  }

  /** What a line says by itself, and what a report tells its reader: all of it is accounted for. */
  lemma ItemsInWords(line: Line, edits: nat, role: Role, text: string, number: nat, path: string)
    ensures Says(line, edits) ==
              match line
              case Prompt(t) => InkOf(User, t)
              case Answer(t) => InkOf(Assistant, t)
              case Info(Remark(t)) => InkOf(System, t)
              case Info(Edit(t)) => [Edited(edits + 1, t)]
              case Info(Tokens) => [TurnEnd]
              case _ => []
    ensures Items([]) == [] && Items([TurnStarted]) == []
    ensures Items([TurnCompleted]) == [TurnEnd] && Items([Output(role, text)]) == InkOf(role, text)
    ensures Items([EditFinished(number, path)]) == [Edited(number, path)]
  {
    ItemsOfOne(TurnStarted);
    ItemsOfOne(TurnCompleted);
    ItemsOfOne(Output(role, text));
    ItemsOfOne(EditFinished(number, path));
  }

  // ------------------------------------------------------------------- titles

  /** A title has at most 80 characters: a longer text is cut and marked. */
  lemma ClipExactly(s: string)
    ensures if |s| <= 80 then Clip(s) == s
            else |Clip(s)| == 80 && Clip(s)[..79] == s[..79] && Clip(s)[79] == '\U{2026}'
  {
  }

  lemma {:induction false} InkOfFront(role: Role, s: string)
    ensures |Word(s)| <= |s| && Word(s) == s[..|Word(s)|]
    ensures |Word(s)| < |s| ==> IsSpace(s[|Word(s)|])
    ensures forall k :: 0 <= k < |Word(s)| ==> !IsSpace(Word(s)[k])
  {
    if s != "" && !IsSpace(s[0]) {
      InkOfFront(role, s[1..]);
    }
  }

  /** Squeezing whitespace keeps every visible character, in order. */
  lemma {:induction false} SqueezeKeepsInk(role: Role, s: string)
    ensures InkOf(role, Squeeze(s)) == InkOf(role, s)
    decreases |s|
  {
    hide InkOf;
    var t := StripLeft(s);
    InkStripLeft(role, s);
    if t != "" {
      var word := Word(t);
      WordIsFront(t);
      InkOfFront(role, t);
      var behind := t[|word|..];
      var rest := StripLeft(behind);
      assert t == word + behind;
      InkConcat(role, word, behind);
      InkStripLeft(role, behind);
      InkOfNothing(role);
      if rest != "" {
        SqueezeKeepsInk(role, rest);
        InkOfSpace(role, ' ');
        InkConcat(role, word, [' ']);
        InkConcat(role, word + [' '], Squeeze(rest));
        assert Squeeze(s) == word + [' '] + Squeeze(rest);
      }
    } else {
      InkOfNothing(role);
    }
  }

  lemma InkOfNothing(role: Role)
    ensures InkOf(role, "") == []
  {
  }

  /** Words stand one space apart, with none before the first or after the last. */
  ghost predicate Single(s: string) {
    && (s != "" ==> !IsSpace(s[0]) && !IsSpace(s[|s| - 1]))
    && forall k :: 0 < k < |s| && IsSpace(s[k]) ==> s[k] == ' ' && !IsSpace(s[k - 1])
  }

  lemma SingleJoined(word: string, rest: string)
    requires IsWord(word) && rest != "" && Single(rest)
    ensures Single(word + [' '] + rest)
  {
    var s := word + [' '] + rest;
    forall k | 0 < k < |s| && IsSpace(s[k]) ensures s[k] == ' ' && !IsSpace(s[k - 1]) {
      if k > |word| + 1 {
        assert s[k] == rest[k - |word| - 1] && s[k - 1] == rest[k - |word| - 2];
      }
    }
  }

  lemma {:induction false} SqueezeIsSingle(s: string)
    ensures Single(Squeeze(s)) && (Squeeze(s) == "" <==> StripLeft(s) == "")
    decreases |s|
  {
    var t := StripLeft(s);
    if t != "" {
      var word := Word(t);
      WordIsFront(t);
      InkOfFront(User, t);
      var rest := StripLeft(t[|word|..]);
      if rest != "" {
        SqueezeIsSingle(rest);
        StripLeftTwice(t[|word|..]);
        SingleJoined(word, Squeeze(rest));
      }
    }
  }

  lemma StripLeftTwice(s: string)
    ensures StripLeft(StripLeft(s)) == StripLeft(s)
  {
  }

  lemma TitleHasText(text: string)
    requires text != "" && !IsSpace(text[0])
    ensures Clip(Squeeze(text)) != ""
  {
    WordIsFront(text);
    assert StripLeft(text) == text;
  }

  lemma FlushIsDirty(p: Parser)
    ensures FlushUser(p).0.dirty <==> p.dirty || FlushUser(p).0.meta != p.meta
    ensures Flush(p).0.dirty <==> p.dirty || Flush(p).0.meta != p.meta
    ensures FlushAssistant(p).0.dirty == p.dirty && FlushAssistant(p).0.meta == p.meta
  {
    var text := Strip(Join(p.user));
    hide Strip, Join, Clip, Squeeze, IsSpace;
    StripExactly(Join(p.user));
    if text != "" {
      TitleHasText(text);
    }
  }

  /** The dirty flag is set exactly by lines that change what is known, and by every chat start. */
  lemma DirtyExactly(p: Parser, line: Line)
    requires Feed(p, line).1.Fed?
    ensures var q := Feed(p, line).0; q.dirty <==> p.dirty || q.meta != p.meta || line.ChatStart?
  {
    hide Flush, FlushUser, FlushAssistant, Strip;
    FlushIsDirty(p);
    FlushForgetsNothing(p);
  }

  // ---------------------------------------------------------------- memory

  /** The model, the version and the chat start that a run was told last. */
  function LatestModel(inputs: seq<Input>): string {
    if inputs == [] then ""
    else
      var input := inputs[|inputs| - 1];
      if input.Feeds? && input.line.Info? && input.line.fact.Model? then input.line.fact.m
      else LatestModel(inputs[..|inputs| - 1])
  }

  function LatestVersion(inputs: seq<Input>): string {
    if inputs == [] then ""
    else
      var input := inputs[|inputs| - 1];
      if input.Feeds? && input.line.Info? && input.line.fact.Version? then input.line.fact.v
      else LatestVersion(inputs[..|inputs| - 1])
  }

  function LatestStart(inputs: seq<Input>): E.Option<Stamp> {
    if inputs == [] then E.None
    else
      var input := inputs[|inputs| - 1];
      if input.Feeds? && input.line.ChatStart? then E.Some(input.line.stamp)
      else LatestStart(inputs[..|inputs| - 1])
  }

  lemma FlushForgetsNothing(p: Parser)
    ensures SameFacts(Flush(p).0.meta, p.meta) && SameFacts(FlushUser(p).0.meta, p.meta)
    ensures SameFacts(FlushAssistant(p).0.meta, p.meta)
    ensures forall text :: SameFacts(WithAnswer(p, text).meta, p.meta)
  {
    hide Strip, Join, Clip, Squeeze;
  }

  predicate SameFacts(a: Meta, b: Meta) {
    a.model == b.model && a.version == b.version && a.startedAt == b.startedAt
  }

  lemma StepRemembers(w: World, input: Input)
    requires !w.raised && !Impossible(input)
    ensures var v, m := Step(w, input), w.parser.meta;
            && !v.raised
            && v.parser.meta.model == (if input.Feeds? && input.line.Info? && input.line.fact.Model? then input.line.fact.m else m.model)
            && v.parser.meta.version ==
                 (if input.Feeds? && input.line.Info? && input.line.fact.Version? then input.line.fact.v else m.version)
            && v.parser.meta.startedAt ==
                 (if input.Feeds? && input.line.ChatStart? then E.Some(input.line.stamp) else m.startedAt)
  {
    hide IsTime, Flush, FlushUser, FlushAssistant, WithAnswer;
    FlushForgetsNothing(w.parser);
    FlushForgetsNothing(FlushUser(w.parser).0);
  }

  /** In every run without an impossible time the parser knows the last model, version and chat start. */
  lemma {:induction false} RunRemembers(inputs: seq<Input>)
    requires Clean(inputs)
    ensures var m := Play(inputs).parser.meta;
            && !Play(inputs).raised
            && m.model == LatestModel(inputs) && m.version == LatestVersion(inputs) && m.startedAt == LatestStart(inputs)
  {
    hide Step, Impossible;
    if inputs != [] {
      var n := |inputs| - 1;
      assert !Impossible(inputs[n]);
      RunRemembers(inputs[..n]);
      StepRemembers(Play(inputs[..n]), inputs[n]);
    }
  }
}
