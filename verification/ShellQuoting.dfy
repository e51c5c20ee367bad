/** Printing commands as shell text, and the law that the reader of
    src/activity/curl-request-urls.ts gives back exactly what was printed. */
module ShellQuoting {
  import opened Prelude
  import opened ShellSyntax

  // ----- the printer

  /** One way of writing part of a word.  `Quoted` is the POSIX quoting of a
      whole word: single quotes, each inner single quote written '\''. */
  datatype Segment =
    | Quoted(text: string)
    | DoubleQuoted(text: string)
    | Escaped(c: char)
    | Bare(c: char)

  type Word = seq<Segment>

  /** A character that means itself wherever it stands outside quotes. */
  predicate IsPlain(c: char) {
    !IsSpace(c) && c !in "\\'\"`$#&<>;|(){}"
  }

  predicate ValidSegment(s: Segment) {
    match s
    case Quoted(_) => true
    case DoubleQuoted(_) => true
    case Escaped(c) => c != '\n'
    case Bare(c) => IsPlain(c)
  }

  predicate ValidWord(w: Word) {
    w != [] && forall s <- w :: ValidSegment(s)
  }

  function InSingleText(text: string): string {
    if text == "" then ""
    else (if text[0] == '\'' then "'\\''" else [text[0]]) + InSingleText(text[1..])
  }

  function InDoubleText(text: string): string {
    if text == "" then ""
    else (if text[0] in "\"\\`$" then ['\\', text[0]] else [text[0]]) + InDoubleText(text[1..])
  }

  function SegmentText(s: Segment): string {
    match s
    case Quoted(text) => "'" + InSingleText(text) + "'"
    case DoubleQuoted(text) => "\"" + InDoubleText(text) + "\""
    case Escaped(c) => ['\\', c]
    case Bare(c) => [c]
  }

  function SegmentMeaning(s: Segment): string {
    match s
    case Quoted(text) => text
    case DoubleQuoted(text) => text
    case Escaped(c) => [c]
    case Bare(c) => [c]
  }

  function WordText(w: Word): string {
    if w == [] then "" else SegmentText(w[0]) + WordText(w[1..])
  }

  function WordMeaning(w: Word): string {
    if w == [] then "" else SegmentMeaning(w[0]) + WordMeaning(w[1..])
  }

  /** A word of the command, or a redirection to or from a file. */
  datatype Item =
    | Arg(word: Word)
    | Redir(fd: string, op: string, target: Word)

  predicate IsOutput(op: string) {
    op in [">", ">>", ">|", ">&", "<>", "&>", "&>>"]
  }

  predicate ValidItem(i: Item) {
    match i
    case Arg(word) => ValidWord(word)
    case Redir(fd, op, target) =>
      && (fd == "" || AllDigits(fd))
      && (IsOutput(op) || op in ["<", "<&"])
      && (op in ["&>", "&>>"] ==> fd == "")
      && ValidWord(target) && WordMeaning(target) != ""
  }

  function ItemText(i: Item): string {
    match i
    case Arg(word) => WordText(word) + " "
    case Redir(fd, op, target) => fd + (op + WordText(target) + " ")
  }

  function ItemsText(items: seq<Item>): string {
    if items == [] then "" else ItemText(items[0]) + ItemsText(items[1..])
  }

  function ItemWords(items: seq<Item>): seq<string> {
    if items == [] then []
    else (if items[0].Arg? then [WordMeaning(items[0].word)] else []) + ItemWords(items[1..])
  }

  predicate HasOutput(items: seq<Item>) {
    exists i <- items :: i.Redir? && IsOutput(i.op)
  }

  /** A command and the operator that ends it; the last one needs none. */
  datatype Line = Line(items: seq<Item>, separator: string)

  predicate ValidLine(l: Line) {
    && (forall i <- l.items :: ValidItem(i))
    && l.separator in ["\n", ";", "|", "&", "||", "&&"]
  }

  predicate ValidScript(lines: seq<Line>, last: seq<Item>) {
    (forall l <- lines :: ValidLine(l)) && forall i <- last :: ValidItem(i)
  }

  function ScriptText(lines: seq<Line>, last: seq<Item>): string {
    if lines == [] then ItemsText(last)
    else ItemsText(lines[0].items) + (lines[0].separator + (" " + ScriptText(lines[1..], last)))
  }

  /** The command a reader should see; one with no words and no output is none. */
  function Command(items: seq<Item>): seq<ParsedCommand> {
    if ItemWords(items) == [] && !HasOutput(items) then []
    else [ParsedCommand(ItemWords(items), HasOutput(items))]
  }

  function ScriptMeaning(lines: seq<Line>, last: seq<Item>): seq<ParsedCommand> {
    if lines == [] then Command(last) else Command(lines[0].items) + ScriptMeaning(lines[1..], last)
  }

  // ----- reading

  /** Reading `text` takes the scanner from one state to the other, whatever follows. */
  ghost predicate Reads(text: string, from: Scan, to: Scan) {
    forall rest :: Run(text + rest, from) == Run(rest, to)
  }

  lemma RunOneStep(src: string, from: Scan, rest: string, to: Scan)
    requires src != "" && Step(src, from) == Continue(rest, to)
    ensures Run(src, from) == Run(rest, to)
  {
  }

  lemma ReadsBoth(a: string, b: string, from: Scan, mid: Scan, to: Scan)
    requires Reads(a, from, mid) && Reads(b, mid, to)
    ensures Reads(a + b, from, to)
  {
    forall rest ensures Run(a + b + rest, from) == Run(rest, to) {
      assert a + b + rest == a + (b + rest);
    }
  }

  lemma ReadsNothing(st: Scan)
    ensures Reads("", st, st)
  {
    forall rest ensures Run("" + rest, st) == Run(rest, st) {
      assert "" + rest == rest;
    }
  }

  /** A token that the scanner sees whatever follows is read by acting on it. */
  lemma ReadsToken(text: string, action: Action, from: Scan, to: Scan)
    requires text != ""
    requires forall rest :: Lex(text + rest, from.quote, from.wordStarted) == Token(action, rest)
    requires forall rest :: Act(Token(action, rest), from) == Continue(rest, to)
    ensures Reads(text, from, to)
  {
    forall rest ensures Run(text + rest, from) == Run(rest, to) {
      assert Step(text + rest, from) == Continue(rest, to);
    }
  }

  /** `st` once `text` has been read into its word. */
  function Took(st: Scan, text: string): Scan {
    st.(wordStarted := true, word := st.word + text)
  }

  lemma TookTwice(st: Scan, a: string, b: string)
    ensures Took(Took(st, a), b) == Took(st, a + b)
  {
    assert st.word + (a + b) == st.word + a + b;
  }

  // ----- reading one character

  lemma ReadsQuotedChar(text: string, c: char, st: Scan)
    requires st.quote != Unquoted && st.wordStarted
    requires (text == [c] && c != '\'' && (st.quote == InDouble ==> c !in "\"\\`$"))
             || (text == ['\\', c] && st.quote == InDouble && c != '\n')
    ensures Reads(text, st, Took(st, [c]))
  {
    forall rest ensures Lex(text + rest, st.quote, st.wordStarted) == Token(Append(c), rest) {
      assert (text + rest)[|text|..] == rest;
    }
    ReadsToken(text, Append(c), st, Took(st, [c]));
  }

  lemma ReadsInnerQuote(st: Scan)
    requires st.quote == InDouble && st.wordStarted
    ensures Reads("'", st, Took(st, "'"))
  {
    forall rest ensures Lex("'" + rest, st.quote, st.wordStarted) == Token(Append('\''), rest) {
      assert ("'" + rest)[1..] == rest;
    }
    ReadsToken("'", Append('\''), st, Took(st, "'"));
  }

  lemma ReadsEscaped(c: char, st: Scan)
    requires st.quote == Unquoted && c != '\n'
    ensures Reads(['\\', c], st, Took(st, [c]))
  {
    forall rest ensures Lex(['\\', c] + rest, st.quote, st.wordStarted) == Token(Add(c), rest) {
      assert (['\\', c] + rest)[2..] == rest;
    }
    ReadsToken(['\\', c], Add(c), st, Took(st, [c]));
  }

  lemma ReadsPlain(c: char, st: Scan)
    requires st.quote == Unquoted && IsPlain(c)
    ensures Reads([c], st, Took(st, [c]))
  {
    assert IsSpace('\n');
    forall rest ensures Lex([c] + rest, st.quote, st.wordStarted) == Token(Add(c), rest) {
      assert ([c] + rest)[1..] == rest;
    }
    ReadsToken([c], Add(c), st, Took(st, [c]));
  }

  function Mark(q: Quote): string
    requires q != Unquoted
  {
    if q == InSingle then "'" else "\""
  }

  lemma ReadsOpen(q: Quote, st: Scan)
    requires st.quote == Unquoted && q != Unquoted
    ensures Reads(Mark(q), st, st.(quote := q, wordStarted := true))
  {
    forall rest ensures Lex(Mark(q) + rest, st.quote, st.wordStarted) == Token(OpenQuote(q), rest) {
      assert (Mark(q) + rest)[1..] == rest;
    }
    ReadsToken(Mark(q), OpenQuote(q), st, st.(quote := q, wordStarted := true));
  }

  lemma ReadsClose(q: Quote, st: Scan)
    requires st.quote == q && q != Unquoted
    ensures Reads(Mark(q), st, st.(quote := Unquoted))
  {
    forall rest ensures Lex(Mark(q) + rest, st.quote, st.wordStarted) == Token(CloseQuote, rest) {
      assert (Mark(q) + rest)[1..] == rest;
    }
    ReadsToken(Mark(q), CloseQuote, st, st.(quote := Unquoted));
  }

  // ----- reading one word

  /** The quote closes, a quote character follows the backslash, the quote opens again. */
  lemma ReadsBrokenQuote(st: Scan)
    requires st.quote == InSingle && st.wordStarted
    ensures Reads("'\\''", st, Took(st, "'"))
  {
    var out := st.(quote := Unquoted);
    ReadsBreak(st);
    ReadsOpen(InSingle, Took(out, "'"));
    ReadsBoth("'" + ['\\', '\''], "'", st, Took(out, "'"), Took(st, "'"));
    assert "'\\''" == "'" + ['\\', '\''] + "'";
  }

  lemma ReadsBreak(st: Scan)
    requires st.quote == InSingle && st.wordStarted
    ensures Reads("'" + ['\\', '\''], st, Took(st.(quote := Unquoted), "'"))
  {
    var out := st.(quote := Unquoted);
    ReadsClose(InSingle, st);
    ReadsEscaped('\'', out);
    ReadsBoth("'", ['\\', '\''], st, out, Took(out, "'"));
  }

  lemma {:induction false} ReadsSingleText(text: string, st: Scan)
    requires st.quote == InSingle && st.wordStarted
    ensures Reads(InSingleText(text), st, Took(st, text))
    decreases |text|
  {
    if text == "" {
      ReadsNothing(st);
      assert Took(st, "") == st;
    } else {
      var next := Took(st, [text[0]]);
      if text[0] == '\'' {
        ReadsBrokenQuote(st);
      } else {
        ReadsQuotedChar([text[0]], text[0], st);
      }
      ReadsSingleText(text[1..], next);
      ReadsBoth(InSingleText(text)[..|InSingleText(text)| - |InSingleText(text[1..])|],
                InSingleText(text[1..]), st, next, Took(next, text[1..]));
      TookTwice(st, [text[0]], text[1..]);
      assert [text[0]] + text[1..] == text;
    }
  }

  lemma {:induction false} ReadsDoubleText(text: string, st: Scan)
    requires st.quote == InDouble && st.wordStarted
    ensures Reads(InDoubleText(text), st, Took(st, text))
    decreases |text|
  {
    if text == "" {
      ReadsNothing(st);
      assert Took(st, "") == st;
    } else {
      var c := text[0];
      var head := if c in "\"\\`$" then ['\\', c] else [c];
      var next := Took(st, [c]);
      if c == '\'' { ReadsInnerQuote(st); } else { ReadsQuotedChar(head, c, st); }
      ReadsDoubleText(text[1..], next);
      ReadsBoth(head, InDoubleText(text[1..]), st, next, Took(next, text[1..]));
      TookTwice(st, [c], text[1..]);
      assert [c] + text[1..] == text;
    }
  }

  lemma ReadsBetweenMarks(q: Quote, inner: string, text: string, st: Scan)
    requires st.quote == Unquoted && q != Unquoted
    requires var open := st.(quote := q, wordStarted := true); Reads(inner, open, Took(open, text))
    ensures Reads(Mark(q) + inner + Mark(q), st, Took(st, text))
  {
    var open := st.(quote := q, wordStarted := true);
    ReadsOpen(q, st);
    ReadsBoth(Mark(q), inner, st, open, Took(open, text));
    ReadsClose(q, Took(open, text));
    ReadsBoth(Mark(q) + inner, Mark(q), st, Took(open, text), Took(st, text));
  }

  lemma ReadsSegment(s: Segment, st: Scan)
    requires st.quote == Unquoted && ValidSegment(s)
    ensures Reads(SegmentText(s), st, Took(st, SegmentMeaning(s)))
  {
    match s
    case Quoted(text) =>
      ReadsSingleText(text, st.(quote := InSingle, wordStarted := true));
      ReadsBetweenMarks(InSingle, InSingleText(text), text, st);
    case DoubleQuoted(text) =>
      ReadsDoubleText(text, st.(quote := InDouble, wordStarted := true));
      ReadsBetweenMarks(InDouble, InDoubleText(text), text, st);
    case Escaped(c) => ReadsEscaped(c, st);
    case Bare(c) => ReadsPlain(c, st);
  }

  lemma {:induction false} ReadsWord(w: Word, st: Scan)
    requires st.quote == Unquoted && ValidWord(w)
    ensures Reads(WordText(w), st, Took(st, WordMeaning(w)))
    decreases |w|
  {
    var next := Took(st, SegmentMeaning(w[0]));
    ReadsSegment(w[0], st);
    if |w| == 1 {
      assert WordText(w) == SegmentText(w[0]) && WordMeaning(w) == SegmentMeaning(w[0]);
    } else {
      ReadsWord(w[1..], next);
      ReadsBoth(SegmentText(w[0]), WordText(w[1..]), st, next, Took(next, WordMeaning(w[1..])));
      TookTwice(st, SegmentMeaning(w[0]), WordMeaning(w[1..]));
    }
  }

  // ----- reading one item

  lemma ReadsSpace(st: Scan)
    requires st.quote == Unquoted && !FinishWord(st).invalid
    ensures Reads(" ", st, FinishWord(st))
  {
    forall rest ensures Lex(" " + rest, st.quote, st.wordStarted) == Token(EndWord, rest) {
      assert (" " + rest)[1..] == rest;
    }
    ReadsToken(" ", EndWord, st, FinishWord(st));
  }

  lemma {:induction false} ReadsDigits(fd: string, st: Scan)
    requires st.quote == Unquoted && AllDigits(fd)
    ensures Reads(fd, st, Took(st, fd))
    decreases |fd|
  {
    ReadsPlain(fd[0], st);
    if |fd| == 1 {
      assert fd == [fd[0]];
    } else {
      assert [fd[0]] + fd[1..] == fd;
      var next := Took(st, [fd[0]]);
      ReadsDigits(fd[1..], next);
      ReadsBoth([fd[0]], fd[1..], st, next, Took(next, fd[1..]));
      TookTwice(st, [fd[0]], fd[1..]);
    }
  }

  /** Nothing is under way between two items of a command. */
  predicate Between(st: Scan) {
    && st.quote == Unquoted && !st.invalid && st.hereDocs == []
    && !st.wordStarted && st.word == "" && st.pending == NoRedirection
  }

  lemma FirstOfWord(w: Word)
    requires ValidWord(w)
    ensures WordText(w) != "" && WordText(w)[0] !in "<>&|"
  {
    assert ValidSegment(w[0]);
  }

  predicate IsOperator(op: string) {
    IsOutput(op) || op in ["<", "<&"]
  }

  lemma LexOperator(op: string, rest: string, wordStarted: bool)
    requires IsOperator(op)
    requires rest != "" && rest[0] !in "<>&|"
    ensures Lex(op + rest, Unquoted, wordStarted) == Token(Redirect(ToFile, IsOutput(op)), rest)
  {
    var src := op + rest;
    assert src[|op|..] == rest && src[|op|] == rest[0];
    if |op| == 1 {
      assert src[0] == op[0] && src[1] == rest[0];
    } else if |op| == 2 {
      LexTwoChars(op, rest, wordStarted);
    } else {
      assert op == "&>>" && src[0] == '&' && src[1] == '>' && src[2] == '>';
    }
  }

  lemma LexTwoChars(op: string, rest: string, wordStarted: bool)
    requires IsOperator(op) && |op| == 2
    requires rest != "" && rest[0] !in "<>&|"
    ensures Lex(op + rest, Unquoted, wordStarted) == Token(Redirect(ToFile, IsOutput(op)), rest)
  {
    var src := op + rest;
    assert src[2..] == rest && src[2] == rest[0] && src[0] == op[0] && src[1] == op[1];
  }

  /** An operator, and the word that it must not run into. */
  lemma ReadsOperator(op: string, target: Word, from: Scan, at: Scan)
    requires IsOperator(op) && ValidWord(target)
    requires from.quote == Unquoted && at == BeginRedirection(from, ToFile, IsOutput(op)) && at.quote == Unquoted
    ensures Reads(op + WordText(target), from, Took(at, WordMeaning(target)))
  {
    ReadsWord(target, at);
    FirstOfWord(target);
    forall rest ensures Run(op + WordText(target) + rest, from) == Run(rest, Took(at, WordMeaning(target))) {
      Regroup(op, WordText(target), rest);
      RunOperator(op, WordText(target) + rest, from, at);
    }
  }

  lemma RunOperator(op: string, more: string, from: Scan, at: Scan)
    requires IsOperator(op) && from.quote == Unquoted && more != "" && more[0] !in "<>&|"
    requires at == BeginRedirection(from, ToFile, IsOutput(op))
    ensures Run(op + more, from) == Run(more, at)
  {
    StepOperator(op, more, from);
    RunOneStep(op + more, from, more, at);
  }

  lemma StepOperator(op: string, more: string, from: Scan)
    requires IsOperator(op) && from.quote == Unquoted && more != "" && more[0] !in "<>&|"
    ensures Step(op + more, from) == Continue(more, BeginRedirection(from, ToFile, IsOutput(op)))
  {
    LexOperator(op, more, from.wordStarted);
  }

  lemma ReadsRedirection(fd: string, op: string, target: Word, st: Scan)
    requires Between(st) && ValidItem(Redir(fd, op, target))
    ensures Reads(fd + (op + WordText(target) + " "), st, st.(hasOutput := st.hasOutput || IsOutput(op)))
  {
    var at := st.(pending := ToFile, hasOutput := st.hasOutput || IsOutput(op));
    var full := Took(at, WordMeaning(target));
    ReadsSpace(full);
    var tail := op + WordText(target);
    if fd == "" {
      ReadsOperator(op, target, st, at);
      ReadsBoth(tail, " ", st, full, FinishWord(full));
      assert fd + (tail + " ") == tail + " ";
    } else {
      assert Took(st, fd).word == fd;
      ReadsDigits(fd, st);
      ReadsOperator(op, target, Took(st, fd), at);
      ReadsBoth(tail, " ", Took(st, fd), full, FinishWord(full));
      ReadsBoth(fd, tail + " ", st, Took(st, fd), FinishWord(full));
    }
  }

  function WithItems(st: Scan, items: seq<Item>): Scan {
    st.(words := st.words + ItemWords(items), hasOutput := st.hasOutput || HasOutput(items))
  }

  lemma ReadsArg(word: Word, st: Scan)
    requires Between(st) && ValidWord(word)
    ensures Reads(WordText(word) + " ", st, st.(words := st.words + [WordMeaning(word)]))
  {
    var full := Took(st, WordMeaning(word));
    assert st.word + WordMeaning(word) == WordMeaning(word);
    assert FinishWord(full) == st.(words := st.words + [WordMeaning(word)]);
    ReadsWord(word, st);
    ReadsSpace(full);
    ReadsBoth(WordText(word), " ", st, full, FinishWord(full));
  }

  lemma ReadsItem(i: Item, st: Scan)
    requires Between(st) && ValidItem(i)
    ensures Reads(ItemText(i), st, WithItems(st, [i]))
  {
    match i
    case Arg(word) =>
      ReadsArg(word, st);
      assert ItemWords([i]) == [WordMeaning(word)];
      assert !HasOutput([i]);
    case Redir(fd, op, target) =>
      ReadsRedirection(fd, op, target, st);
      assert i in [i];
      assert HasOutput([i]) == IsOutput(op);
      assert ItemWords([i]) == [];
      assert st.words + ItemWords([i]) == st.words;
  }

  lemma WithOneMore(st: Scan, items: seq<Item>)
    requires items != []
    ensures WithItems(st, items) == WithItems(WithItems(st, [items[0]]), items[1..])
  {
    var one := [items[0]];
    OutputOfBoth(items);
    assert ItemWords(items) == ItemWords(one) + ItemWords(items[1..]);
    Regroup(st.words, ItemWords(one), ItemWords(items[1..]));
  }

  lemma OutputOfBoth(items: seq<Item>)
    requires items != []
    ensures HasOutput(items) == (HasOutput([items[0]]) || HasOutput(items[1..]))
  {
    assert items == [items[0]] + items[1..];
  }

  lemma {:induction false} ReadsItems(items: seq<Item>, st: Scan)
    requires Between(st) && forall i <- items :: ValidItem(i)
    ensures Reads(ItemsText(items), st, WithItems(st, items))
    decreases |items|
  {
    if items == [] {
      ReadsNothing(st);
      assert st.words + ItemWords(items) == st.words;
    } else {
      var next := WithItems(st, [items[0]]);
      ReadsItem(items[0], st);
      ReadsItems(items[1..], next);
      ReadsBoth(ItemText(items[0]), ItemsText(items[1..]), st, next, WithItems(next, items[1..]));
      WithOneMore(st, items);
    }
  }

  // ----- reading a script

  lemma LexSeparator(separator: string, rest: string)
    requires separator in ["\n", ";", "|", "&", "||", "&&"]
    ensures Lex(separator + (" " + rest), Unquoted, false)
         == Token(if separator == "\n" then EndLine else EndCommand, " " + rest)
  {
    var src := separator + (" " + rest);
    assert src[|separator|..] == " " + rest;
    assert src[0] == separator[0] && src[1] == if |separator| > 1 then separator[1] else ' ';
  }

  lemma ReadsSeparator(separator: string, st: Scan)
    requires Between(st) && separator in ["\n", ";", "|", "&", "||", "&&"]
    ensures Reads(separator + " ", st, FinishCommand(st))
  {
    var f := FinishCommand(st);
    ReadsSpace(f);
    forall rest ensures Run(separator + " " + rest, st) == Run(rest, f) {
      assert separator + " " + rest == separator + (" " + rest);
      StepSeparator(separator, rest, st);
      RunOneStep(separator + (" " + rest), st, " " + rest, f);
    }
  }

  lemma StepSeparator(separator: string, rest: string, st: Scan)
    requires Between(st) && separator in ["\n", ";", "|", "&", "||", "&&"]
    ensures Step(separator + (" " + rest), st) == Continue(" " + rest, FinishCommand(st))
  {
    LexSeparator(separator, rest);
  }

  lemma ReadsLine(line: Line, done: seq<ParsedCommand>)
    requires ValidLine(line)
    ensures Reads(ItemsText(line.items) + (line.separator + " "),
                  INIT.(commands := done), INIT.(commands := done + Command(line.items)))
  {
    var st := INIT.(commands := done);
    var at := WithItems(st, line.items);
    ReadsItems(line.items, st);
    ReadsSeparator(line.separator, at);
    ReadsBoth(ItemsText(line.items), line.separator + " ", st, at, FinishCommand(at));
    ClosesCommand(line.items, done);
  }

  lemma ClosesCommand(items: seq<Item>, done: seq<ParsedCommand>)
    ensures FinishCommand(WithItems(INIT.(commands := done), items))
         == INIT.(commands := done + Command(items))
  {
    assert [] + ItemWords(items) == ItemWords(items);
    assert done + [] == done;
  }

  lemma RunLine(line: Line, more: string, done: seq<ParsedCommand>)
    requires ValidLine(line)
    ensures Run(ItemsText(line.items) + (line.separator + " ") + more, INIT.(commands := done))
         == Run(more, INIT.(commands := done + Command(line.items)))
  {
    ReadsLine(line, done);
  }

  lemma RunLast(last: seq<Item>, done: seq<ParsedCommand>)
    requires forall i <- last :: ValidItem(i)
    ensures Close(Run(ItemsText(last), INIT.(commands := done))) == Some(done + Command(last))
  {
    var st := INIT.(commands := done);
    ReadsItems(last, st);
    assert ItemsText(last) + "" == ItemsText(last);
    assert Run("", WithItems(st, last)) == Some(WithItems(st, last));
    ClosesCommand(last, done);
  }

  lemma {:induction false} RunScript(lines: seq<Line>, last: seq<Item>, done: seq<ParsedCommand>)
    requires ValidScript(lines, last)
    ensures Close(Run(ScriptText(lines, last), INIT.(commands := done)))
         == Some(done + ScriptMeaning(lines, last))
    decreases |lines|
  {
    if lines == [] {
      RunLast(last, done);
    } else {
      RunLine(lines[0], ScriptText(lines[1..], last), done);
      RunScript(lines[1..], last, done + Command(lines[0].items));
      FirstLine(lines, last, done);
    }
  }

  lemma FirstLine(lines: seq<Line>, last: seq<Item>, done: seq<ParsedCommand>)
    requires lines != []
    ensures var line := lines[0];
            && ScriptText(lines, last)
               == ItemsText(line.items) + (line.separator + " ") + ScriptText(lines[1..], last)
            && done + ScriptMeaning(lines, last)
               == done + Command(line.items) + ScriptMeaning(lines[1..], last)
  {
    var line, more := lines[0], ScriptText(lines[1..], last);
    var a, b := ItemsText(line.items), line.separator;
    Regroup(b, " ", more);
    Regroup(a, b + " ", more);
    Regroup(done, Command(line.items), ScriptMeaning(lines[1..], last));
  }

  /** Quote and parse: whatever the words say, however each is quoted, and
      wherever redirections stand between them, reading the printed script
      gives exactly its commands. */
  lemma RoundTrip(lines: seq<Line>, last: seq<Item>)
    requires ValidScript(lines, last)
    ensures Parse(ScriptText(lines, last)) == Some(ScriptMeaning(lines, last))
  {
    RunScript(lines, last, []);
    assert [] + ScriptMeaning(lines, last) == ScriptMeaning(lines, last);
  }

  /** Any words at all can be printed: each in POSIX quoting. */
  function PosixQuoted(words: seq<string>): (items: seq<Item>)
    ensures |items| == |words|
    ensures forall i :: 0 <= i < |words| ==> items[i] == Arg([Quoted(words[i])])
  {
    if words == [] then [] else [Arg([Quoted(words[0])])] + PosixQuoted(words[1..])
  }

  lemma {:induction false} PosixQuotedWords(words: seq<string>)
    ensures ItemWords(PosixQuoted(words)) == words
    decreases |words|
  {
    if words != [] {
      PosixQuotedWords(words[1..]);
      assert PosixQuoted(words)[1..] == PosixQuoted(words[1..]);
      assert WordMeaning([Quoted(words[0])]) == words[0];
    }
  }

  lemma PosixQuotedIsValid(words: seq<string>)
    ensures ValidScript([], PosixQuoted(words)) && !HasOutput(PosixQuoted(words))
  {
  }

  lemma PosixRoundTrip(words: seq<string>)
    requires words != []
    ensures Parse(ItemsText(PosixQuoted(words))) == Some([ParsedCommand(words, false)])
  {
    PosixQuotedWords(words);
    PosixQuotedIsValid(words);
    RoundTrip([], PosixQuoted(words));
  }

  /** The reader is not a POSIX shell: `"\a"` is read as the one letter a, where
      POSIX keeps the backslash.  Before a newline both characters go away. */
  lemma DoubleQuotedBackslashGoesAway(c: char)
    ensures Parse("\"" + ['\\', c] + "\"") == Some([ParsedCommand([if c == '\n' then "" else [c]], false)])
  {
    if c == '\n' { DoubleQuotedNewlineGoesAway(); } else { DoubleQuotedCharStays(c); }
  }

  lemma DoubleQuotedNewlineGoesAway()
    ensures Parse("\"" + ['\\', '\n'] + "\"") == Some([ParsedCommand([""], false)])
  {
    var text, open := "\"" + ['\\', '\n'] + "\"", INIT.(quote := InDouble, wordStarted := true);
    var end := INIT.(wordStarted := true);
    assert text[1..] == ['\\', '\n'] + "\"" && text[1..][2..] == "\"" && "\""[1..] == "";
    assert Step(text, INIT) == Continue(text[1..], open);
    assert Step(text[1..], open) == Continue("\"", open);
    assert Step("\"", open) == Continue("", end);
    RunOneStep("\"", open, "", end);
    RunOneStep(text[1..], open, "\"", open);
    RunOneStep(text, INIT, text[1..], open);
    assert Run("", end) == Some(end);
    assert Run(text, INIT) == Some(end);
    ClosesEmptyWord(end);
  }

  lemma ClosesEmptyWord(end: Scan)
    requires end == INIT.(wordStarted := true)
    ensures Close(Some(end)) == Some([ParsedCommand([""], false)])
  {
    var f := FinishWord(end);
    assert f == INIT.(words := [] + [""]);
    assert f.words == [""] && [] + [ParsedCommand([""], false)] == [ParsedCommand([""], false)];
    assert FinishCommand(end) == INIT.(commands := [] + [ParsedCommand(f.words, false)]);
  }

  lemma DoubleQuotedCharStays(c: char)
    requires c != '\n'
    ensures Parse("\"" + ['\\', c] + "\"") == Some([ParsedCommand([[c]], false)])
  {
    var open := INIT.(quote := InDouble, wordStarted := true);
    ReadsQuotedChar(['\\', c], c, open);
    assert Took(open, [c]).word == [c];
    ReadsBetweenMarks(InDouble, ['\\', c], [c], INIT);
    var text := "\"" + ['\\', c] + "\"";
    assert text + "" == text;
    assert Took(INIT, [c]).word == [c];
    var end := Took(INIT, [c]);
    assert Run("", end) == Some(end);
    assert Parse(text) == Close(Some(end));
    assert FinishWord(end).words == [[c]];
    var f := FinishCommand(end);
    assert !f.invalid;
    assert f.commands == [ParsedCommand([[c]], false)];
  }
}
