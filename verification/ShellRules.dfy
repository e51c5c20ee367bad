/** The rules of the shell reader in plain text: what joins a word, what ends
    one, what a redirection takes, and what makes a source unreadable.  They are
    stated on whole reads, for every state of the scanner. */
module ShellRules {
  import opened Prelude
  import opened ShellSyntax
  import opened ShellLaws
  import opened ShellQuoting

  // ----- what is refused wherever it stands

  /** Command substitution is refused outside single quotes. */
  lemma SubstitutionIsRefused(rest: string, st: Scan)
    requires st.quote != InSingle
    ensures Run("$(" + rest, st) == None
    ensures Run("`" + rest, st) == None
  {
    assert ("$(" + rest)[0] == '$' && ("$(" + rest)[1] == '(' && ("`" + rest)[0] == '`';
  }

  /** So are, outside quotes, subshells and groups, */
  lemma GroupingIsRefused(c: char, rest: string, st: Scan)
    requires st.quote == Unquoted && c in "(){}"
    ensures Run([c] + rest, st) == None
  {
    assert ([c] + rest)[0] == c;
  }

  /** here-strings, */
  lemma HereStringIsRefused(rest: string, st: Scan)
    requires st.quote == Unquoted
    ensures Run("<<<" + rest, st) == None
  {
    var src := "<<<" + rest;
    assert src[0] == '<' && src[1] == '<' && src[2] == '<';
  }

  /** and a backslash that ends the source. */
  lemma LastBackslashIsRefused(st: Scan)
    requires st.quote == Unquoted
    ensures Run("\\", st) == None
  {
  }

  /** A quote that is not closed. */
  lemma {:induction false} UnclosedQuote(text: string, st: Scan)
    requires st.quote != Unquoted && Mark(st.quote)[0] !in text
    ensures Close(Run(text, st)) == None
    decreases |text|
  {
    if text != "" {
      var o := Step(text, st);
      if o.Continue? { UnclosedQuote(o.rest, o.st); }
    }
  }

  /** The scanner may go on after a wrong redirection, but to no end. */
  lemma {:induction false} InvalidIsRefused(src: string, st: Scan)
    requires st.invalid
    ensures Close(Run(src, st)) == None
    decreases |src|
  {
    if src != "" {
      var t := Lex(src, st.quote, st.wordStarted);
      ActKeepsInvalid(t, st);
      var o := Act(t, st);
      if o.Continue? { InvalidIsRefused(o.rest, o.st); }
    }
  }

  lemma ActKeepsInvalid(t: Token, st: Scan)
    requires st.invalid
    ensures Act(t, st).Continue? ==> Act(t, st).st.invalid
  {
  }

  /** A redirection must not begin while another waits for its target. */
  lemma RedirectionsDoNotNest(op: string, rest: string, st: Scan)
    requires st.quote == Unquoted && st.pending != NoRedirection && op in ["<", ">", "&>"]
    ensures Close(Run(op + rest, st)) == None
  {
    var src := op + rest;
    LexesRedirection(op, rest, st.wordStarted);
    var t := Lex(src, st.quote, st.wordStarted);
    if t.action == Stop {
      assert Step(src, st) == Reject;
    } else {
      assert Step(src, st) == Continue(t.rest, st.(invalid := true));
      InvalidIsRefused(t.rest, st.(invalid := true));
      RunOneStep(src, st, t.rest, st.(invalid := true));
    }
  }

  lemma LexesRedirection(op: string, rest: string, wordStarted: bool)
    requires op in ["<", ">", "&>"]
    ensures var t := Lex(op + rest, Unquoted, wordStarted); t.action.Redirect? || t.action == Stop
  {
    var src := op + rest;
    assert src[0] == op[0] && (|op| == 2 ==> src[1] == op[1]);
  }

  // ----- words

  /** ECMAScript's white space and line terminators, without the newline. */
  predicate Blank(c: char) {
    c as int in {0x09, 0x0B, 0x0C, 0x0D, 0x20, 0xA0, 0x1680, 0x2000, 0x2001, 0x2002, 0x2003, 0x2004, 0x2005,
                 0x2006, 0x2007, 0x2008, 0x2009, 0x200A, 0x2028, 0x2029, 0x202F, 0x205F, 0x3000, 0xFEFF}
  }

  /** The word under way, if any, ends: it is an argument, the target of a
      redirection, or the delimiter of a here-document.  The last two must not
      be empty. */
  function WordEnded(st: Scan): Option<Scan> {
    if !st.wordStarted then Some(st)
    else if st.pending != NoRedirection && st.word == "" then None
    else
      Some(st.(words := if st.pending == NoRedirection then st.words + [st.word] else st.words,
               hereDocs := if st.pending.ToHereDoc? then st.hereDocs + [HereDoc(st.word, st.pending.stripTabs)]
                           else st.hereDocs,
               pending := NoRedirection, word := "", wordStarted := false))
  }

  /** A blank ends the word and no more. */
  lemma BlankEndsWord(c: char, rest: string, st: Scan)
    requires st.quote == Unquoted && !st.invalid && Blank(c)
    ensures Run([c] + rest, st) == if WordEnded(st).None? then None else Run(rest, WordEnded(st).value)
  {
    LexBlank(c, rest, st.wordStarted);
    FinishesEnded(st);
    var src := [c] + rest;
    assert Step(src, st) == Checked(FinishWord(st), rest);
    if WordEnded(st).None? {
      RunRejected(src, st);
    } else {
      RunOneStep(src, st, rest, WordEnded(st).value);
    }
  }

  lemma RunRejected(src: string, st: Scan)
    requires src != "" && Step(src, st) == Reject
    ensures Run(src, st) == None
  {
  }

  lemma FinishesEnded(st: Scan)
    requires !st.invalid
    ensures var f := FinishWord(st); if f.invalid then WordEnded(st).None? else WordEnded(st) == Some(f)
  {
  }

  lemma LexBlank(c: char, rest: string, wordStarted: bool)
    requires Blank(c)
    ensures Lex([c] + rest, Unquoted, wordStarted) == Token(EndWord, rest)
  {
    assert ([c] + rest)[1..] == rest;
  }

  lemma RunAct(src: string, t: Token, st: Scan)
    requires src != "" && Lex(src, st.quote, st.wordStarted) == t
    ensures Run(src, st) == match Act(t, st) case Reject => None case Continue(rest, next) => Run(rest, next)
  {
  }

  /** Any other character that does not quote, redirect or separate joins the
      word; a hash does within a word, and a dollar unless it opens a substitution. */
  lemma OtherJoinsWord(c: char, rest: string, st: Scan)
    requires st.quote == Unquoted && !Blank(c) && c !in "\n\\'\"`&<>;|(){}"
    requires c == '#' ==> st.wordStarted
    requires c == '$' ==> rest == "" || rest[0] != '('
    ensures Run([c] + rest, st) == Run(rest, st.(wordStarted := true, word := st.word + [c]))
  {
    LexOther(c, rest, st.wordStarted);
    RunAct([c] + rest, Token(Add(c), rest), st);
  }

  lemma LexOther(c: char, rest: string, wordStarted: bool)
    requires !Blank(c) && c !in "\n\\'\"`&<>;|(){}" && (c == '#' ==> wordStarted)
    requires c == '$' ==> rest == "" || rest[0] != '('
    ensures Lex([c] + rest, Unquoted, wordStarted) == Token(Add(c), rest)
  {
    var src := [c] + rest;
    assert src[1..] == rest && (c == '$' && |src| > 1 ==> src[1] == rest[0]);
  }

  /** Between double quotes every character does, but for the quote, the
      backslash and what opens a substitution. */
  lemma OtherJoinsDoubleQuoted(c: char, rest: string, st: Scan)
    requires st.quote == InDouble && c !in "\"\\`" && (c == '$' ==> rest == "" || rest[0] != '(')
    ensures Run([c] + rest, st) == Run(rest, st.(word := st.word + [c]))
  {
    var src := [c] + rest;
    assert src[1..] == rest && (c == '$' && |src| > 1 ==> src[1] == rest[0]);
    assert Lex(src, st.quote, st.wordStarted) == Token(Append(c), rest);
  }

  // ----- redirections

  predicate WritesFile(op: string) {
    op in [">", ">>", ">|", ">&", "<>", "&>", "&>>"]
  }

  predicate ReadsFile(op: string) {
    op in ["<", "<&", "<|"]
  }

  /** `rest` does not go on with the operator. */
  predicate Complete(op: string, rest: string) {
    rest == "" ||
    match op
    case ">" => rest[0] !in ">&|"
    case "<" => rest[0] !in "<>&|"
    case "&>" => rest[0] != '>'
    case "<<" => rest[0] !in "<-"
    case _ => true
  }

  /** The word that touches an operator is an argument, unless it is nothing but
      digits, however they are quoted; those name the descriptor. */
  function Opened(st: Scan, r: Redirection, output: bool): Scan {
    var descriptor := st.word != "" && forall i :: 0 <= i < |st.word| ==> '0' <= st.word[i] <= '9';
    st.(words := if st.wordStarted && !descriptor then st.words + [st.word] else st.words,
        word := "", wordStarted := false, pending := r, hasOutput := st.hasOutput || output)
  }

  lemma BeginsOpened(st: Scan, r: Redirection, output: bool)
    requires Good(st) && st.pending == NoRedirection
    ensures BeginRedirection(st, r, output) == Opened(st, r, output)
  {
  }

  function OpenedBy(op: string): Redirection {
    if op == "<<-" then ToHereDoc(true) else if op == "<<" then ToHereDoc(false) else ToFile
  }

  /** What each operator opens, and whether it writes. */
  lemma RedirectionOpens(op: string, rest: string, st: Scan)
    requires Good(st) && st.quote == Unquoted && st.pending == NoRedirection
    requires (WritesFile(op) || ReadsFile(op) || op == "<<" || op == "<<-") && Complete(op, rest)
    ensures Run(op + rest, st) == Run(rest, Opened(st, OpenedBy(op), WritesFile(op)))
  {
    if op == "<<" || op == "<<-" {
      LexHereDoc(op, rest, st.wordStarted);
    } else {
      LexFileOperator(op, rest, st.wordStarted);
    }
    RunOpened(op + rest, OpenedBy(op), WritesFile(op), rest, st);
  }

  lemma RunOpened(src: string, r: Redirection, output: bool, rest: string, st: Scan)
    requires Good(st) && st.pending == NoRedirection && src != ""
    requires Lex(src, st.quote, st.wordStarted) == Token(Redirect(r, output), rest)
    ensures Run(src, st) == Run(rest, Opened(st, r, output))
  {
    BeginsOpened(st, r, output);
    assert Step(src, st) == Continue(rest, Opened(st, r, output));
    RunOneStep(src, st, rest, Opened(st, r, output));
  }

  lemma LexFileOperator(op: string, rest: string, wordStarted: bool)
    requires (WritesFile(op) || ReadsFile(op)) && Complete(op, rest)
    ensures Lex(op + rest, Unquoted, wordStarted) == Token(Redirect(ToFile, WritesFile(op)), rest)
  {
    var src := op + rest;
    assert src[|op|..] == rest && src[0] == op[0];
    assert |op| > 1 ==> src[1] == op[1];
    assert |op| > 2 ==> src[2] == op[2];
    assert rest != "" ==> src[|op|] == rest[0];
  }

  lemma LexHereDoc(op: string, rest: string, wordStarted: bool)
    requires (op == "<<" || op == "<<-") && Complete(op, rest)
    ensures Lex(op + rest, Unquoted, wordStarted) == Token(Redirect(ToHereDoc(op == "<<-"), false), rest)
  {
    var src := op + rest;
    assert src[|op|..] == rest && src[0] == '<' && src[1] == '<';
    assert |op| > 2 ==> src[2] == op[2];
    assert rest != "" ==> src[|op|] == rest[0];
  }

  // ----- the end of a command

  predicate Separates(op: string) {
    op in ["\n", ";", "|", "||", "&", "&&"]
  }

  /** `rest` does not go on with the separator. */
  predicate Separated(op: string, rest: string) {
    rest == "" ||
    match op
    case "|" => rest[0] != '|'
    case "&" => rest[0] !in "&>"
    case _ => true
  }

  /** A separator ends the word before it as a blank does, and so does the end of the source. */
  lemma SeparatorEndsWord(op: string, rest: string, st: Scan)
    requires st.quote == Unquoted && !st.invalid && Separates(op) && Separated(op, rest)
    ensures Run(op + rest, st) == if WordEnded(st).None? then None else Run(op + rest, WordEnded(st).value)
    ensures Close(Some(st)) == if WordEnded(st).None? then None else Close(Some(WordEnded(st).value))
  {
    FinishesEnded(st);
    FinishesTwice(st);
    StepEndsWord(op, rest, st);
    if WordEnded(st).Some? { SameStep(op + rest, st, WordEnded(st).value); }
  }

  lemma SameStep(src: string, a: Scan, b: Scan)
    requires src != "" && Step(src, a) == Step(src, b)
    ensures Run(src, a) == Run(src, b)
  {
  }

  lemma StepEndsWord(op: string, rest: string, st: Scan)
    requires st.quote == Unquoted && Separates(op) && Separated(op, rest)
    ensures var f := FinishWord(st);
            if f.invalid then Step(op + rest, st) == Reject else Step(op + rest, st) == Step(op + rest, f)
  {
    LexSeparates(op, rest, st.wordStarted);
    LexSeparates(op, rest, FinishWord(st).wordStarted);
    FinishesTwice(st);
  }

  lemma FinishesTwice(st: Scan)
    ensures var f := FinishWord(st);
            && f.quote == st.quote && (f.invalid ==> FinishCommand(st).invalid)
            && (!f.invalid ==> FinishCommand(f) == FinishCommand(st))
  {
  }

  lemma LexSeparates(op: string, rest: string, wordStarted: bool)
    requires Separates(op) && Separated(op, rest)
    ensures Lex(op + rest, Unquoted, wordStarted) == Token(if op == "\n" then EndLine else EndCommand, rest)
  {
    var src := op + rest;
    assert src[|op|..] == rest && src[0] == op[0];
    assert |op| > 1 ==> src[1] == op[1];
    assert rest != "" ==> src[|op|] == rest[0];
  }

  lemma RunSeparator(op: string, rest: string, st: Scan)
    requires st.quote == Unquoted && Separates(op) && Separated(op, rest)
    ensures var f := FinishCommand(st);
            Run(op + rest, st) ==
            if f.invalid then None
            else if op != "\n" then Run(rest, f)
            else match EndLineAct(rest, st) case Reject => None case Continue(below, next) => Run(below, next)
  {
    LexSeparates(op, rest, st.wordStarted);
    RunAct(op + rest, Token(if op == "\n" then EndLine else EndCommand, rest), st);
  }

  /** Between words it ends the command: a redirection must not be waiting for
      its target, and a command with no words and no output redirection is none.
      A newline does no more when no here-document is open. */
  lemma SeparatorEndsCommand(op: string, rest: string, st: Scan)
    requires st.quote == Unquoted && !st.invalid && !st.wordStarted
    requires Separates(op) && Separated(op, rest) && (op == "\n" ==> st.hereDocs == [])
    ensures st.pending != NoRedirection ==> Run(op + rest, st) == None && Close(Some(st)) == None
    ensures st.pending == NoRedirection ==>
              var commands := if st.words == [] && !st.hasOutput then st.commands
                              else st.commands + [ParsedCommand(st.words, st.hasOutput)];
              && Run(op + rest, st) == Run(rest, st.(commands := commands, words := [], hasOutput := false))
              && Close(Some(st)) == Some(commands)
  {
    RunSeparator(op, rest, st);
  }

  // ----- over whole sources

  /** What is refused is refused behind any text that is read by itself. */
  lemma RefusedBehind(before: string, text: string, st: Scan)
    requires Reads(before, INIT, st) && Close(Run(text, st)) == None
    ensures Parse(before + text) == None
  {
  }

  lemma RefusedBelow(script: string, line: string)
    requires Parse(script).Some? && OpenDocs(script) == [] && Parse(line) == None
    ensures Parse(script + "\n" + line) == None
  {
    ScriptsCompose(script, line);
  }

  /** No source with a command substitution is read, whatever script stands
      above it and whatever readable text before it. */
  lemma NoSubstitution(script: string, before: string, rest: string, st: Scan)
    requires Parse(script).Some? && OpenDocs(script) == []
    requires Reads(before, INIT, st) && st.quote != InSingle
    ensures Parse(before + ("$(" + rest)) == None && Parse(before + ("`" + rest)) == None
    ensures Parse(script + "\n" + (before + ("$(" + rest))) == None
    ensures Parse(script + "\n" + (before + ("`" + rest))) == None
  {
    SubstitutionIsRefused(rest, st);
    RefusedBehind(before, "$(" + rest, st);
    RefusedBehind(before, "`" + rest, st);
    RefusedBelow(script, before + ("$(" + rest));
    RefusedBelow(script, before + ("`" + rest));
  }

  lemma NoGrouping(script: string, before: string, c: char, rest: string, st: Scan)
    requires Parse(script).Some? && OpenDocs(script) == []
    requires Reads(before, INIT, st) && st.quote == Unquoted && c in "(){}"
    ensures Parse(before + ([c] + rest)) == None
    ensures Parse(script + "\n" + (before + ([c] + rest))) == None
  {
    GroupingIsRefused(c, rest, st);
    RefusedBehind(before, [c] + rest, st);
    RefusedBelow(script, before + ([c] + rest));
  }

  /** In particular inside a double-quoted argument, as in "https://host/$(whoami)". */
  lemma NoSubstitutionInArgument(items: seq<Item>, text: string, rest: string)
    requires forall i <- items :: ValidItem(i)
    ensures Parse(ItemsText(items) + ("\"" + InDoubleText(text) + ("$(" + rest))) == None
    ensures Parse(ItemsText(items) + ("\"" + InDoubleText(text) + ("`" + rest))) == None
  {
    var st := WithItems(INIT, items);
    var open := st.(quote := InDouble, wordStarted := true);
    ReadsItems(items, INIT);
    ReadsOpen(InDouble, st);
    ReadsDoubleText(text, open);
    ReadsBoth("\"", InDoubleText(text), st, open, Took(open, text));
    ReadsBoth(ItemsText(items), "\"" + InDoubleText(text), INIT, st, Took(open, text));
    SubstitutionIsRefused(rest, Took(open, text));
    var before := ItemsText(items) + ("\"" + InDoubleText(text));
    RefusedBehind(before, "$(" + rest, Took(open, text));
    RefusedBehind(before, "`" + rest, Took(open, text));
    Regroup(ItemsText(items), "\"" + InDoubleText(text), "$(" + rest);
    Regroup(ItemsText(items), "\"" + InDoubleText(text), "`" + rest);
  }

  // ----- here-documents

  /** The line that ends a here-document is the delimiter, with at most one
      carriage return after it, and only for `<<-` behind any number of tabs. */
  lemma DelimiterLineEnds(tabs: string, cr: string, doc: HereDoc)
    requires forall t <- tabs :: t == '\t'
    requires tabs != "" ==> doc.stripTabs
    requires doc.stripTabs && doc.delimiter != "" ==> doc.delimiter[0] != '\t'
    requires cr == "\r" || (cr == "" && (doc.delimiter == "" || doc.delimiter[|doc.delimiter| - 1] != '\r'))
    ensures Ends(tabs + doc.delimiter + cr, doc)
  {
    var text := tabs + doc.delimiter;
    if doc.delimiter == "" && tabs != "" { assert tabs[|tabs| - 1] in tabs; }
    assert cr == "" && text != "" ==> text[|text| - 1] != '\r';
    TrimsReturn(text, cr, doc.stripTabs);
    if doc.stripTabs {
      StripsTabs(tabs, doc.delimiter);
    } else {
      assert text == doc.delimiter;
    }
  }

  lemma TrimsReturn(text: string, cr: string, stripTabs: bool)
    requires cr == "\r" || (cr == "" && (text == "" || text[|text| - 1] != '\r'))
    ensures TrimLine(text + cr, stripTabs) == if stripTabs then StripTabs(text) else text
  {
    var line := text + cr;
    if cr == "" {
      assert line == text;
    } else {
      assert line[|line| - 1] == '\r' && line[..|line| - 1] == text;
    }
  }

  lemma {:induction false} StripsTabs(tabs: string, line: string)
    requires (forall t <- tabs :: t == '\t') && (line == "" || line[0] != '\t')
    ensures StripTabs(tabs + line) == line
    decreases |tabs|
  {
    if tabs == "" {
      assert tabs + line == line;
    } else {
      assert tabs[0] in tabs && (tabs + line)[1..] == tabs[1..] + line;
      forall t | t in tabs[1..] ensures t == '\t' { assert t in tabs; }
      StripsTabs(tabs[1..], line);
    }
  }

  /** And conversely. */
  lemma EndsAtDelimiter(line: string, doc: HereDoc) returns (tabs: string, cr: string)
    requires Ends(line, doc)
    ensures line == tabs + doc.delimiter + cr && (forall t <- tabs :: t == '\t')
    ensures tabs != "" ==> doc.stripTabs
    ensures doc.stripTabs && doc.delimiter != "" ==> doc.delimiter[0] != '\t'
    ensures cr == "\r" || (cr == "" && (line == "" || line[|line| - 1] != '\r'))
  {
    var text;
    if line != "" && line[|line| - 1] == '\r' {
      text, cr := line[..|line| - 1], "\r";
    } else {
      text, cr := line, "";
    }
    assert line == text + cr;
    if doc.stripTabs {
      tabs := StrippedTabs(text);
    } else {
      tabs := "";
      assert tabs + doc.delimiter == text;
    }
  }

  lemma {:induction false} StrippedTabs(line: string) returns (tabs: string)
    ensures line == tabs + StripTabs(line) && forall t <- tabs :: t == '\t'
    ensures StripTabs(line) != "" ==> StripTabs(line)[0] != '\t'
    decreases |line|
  {
    if line != "" && line[0] == '\t' {
      var more := StrippedTabs(line[1..]);
      tabs := "\t" + more;
    } else {
      tabs := "";
    }
  }

  /** A command with a here-document, its body and the text below: the document
      is open to its delimiter, and the command is read as if it stood alone. */
  lemma HereDocRoundTrip(items: seq<Item>, op: string, word: Word, body: Body, rest: string)
    requires forall i <- items :: ValidItem(i)
    requires op == "<<" || op == "<<-"
    requires ValidWord(word) && WordMeaning(word) != "" && Complete(op, WordText(word))
    requires BodyOf(body, HereDoc(WordMeaning(word), op == "<<-"))
    ensures Parse(ItemsText(items) + (op + WordText(word)) + "\n" + (BodyText(body) + rest))
         == Prepend(Command(items), Parse(rest))
  {
    var script := ItemsText(items) + (op + WordText(word));
    OpensHereDoc(items, op, word);
    assert [body][0] == body;
    var docs := OpenDocs(script);
    SkipsBody(body, docs[0], rest);
    assert docs[1..] == [];
    assert SkipDocs(rest, docs[1..]) == Some(rest);
    ScriptThenText(script, BodyText(body) + rest);
  }

  lemma OpensHereDoc(items: seq<Item>, op: string, word: Word)
    requires forall i <- items :: ValidItem(i)
    requires op == "<<" || op == "<<-"
    requires ValidWord(word) && WordMeaning(word) != "" && Complete(op, WordText(word))
    ensures var script := ItemsText(items) + (op + WordText(word));
            && OpenDocs(script) == [HereDoc(WordMeaning(word), op == "<<-")]
            && Parse(script) == Some(Command(items))
  {
    var st := WithItems(INIT, items);
    var full := Took(Opened(st, OpenedBy(op), false), WordMeaning(word));
    ReadsItems(items, INIT);
    RunsToDelimiter(op, word, st);
    ClosesHereDoc(items, op, WordMeaning(word));
    EndsIn(ItemsText(items), op + WordText(word), st, full);
  }

  lemma EndsIn(before: string, text: string, st: Scan, end: Scan)
    requires Reads(before, INIT, st) && Run(text, st) == Some(end)
    ensures Parse(before + text) == Close(Some(end)) && OpenDocs(before + text) == FinishCommand(end).hereDocs
  {
    assert Run(before + text, INIT) == Some(end);
  }

  lemma RunsToDelimiter(op: string, word: Word, st: Scan)
    requires Between(st) && (op == "<<" || op == "<<-") && ValidWord(word) && Complete(op, WordText(word))
    ensures Run(op + WordText(word), st) == Some(Took(Opened(st, OpenedBy(op), false), WordMeaning(word)))
  {
    var open := Opened(st, OpenedBy(op), false);
    RedirectionOpens(op, WordText(word), st);
    ReadsWord(word, open);
    RunsThrough(WordText(word), open, Took(open, WordMeaning(word)));
  }

  lemma RunsThrough(text: string, from: Scan, to: Scan)
    requires Reads(text, from, to)
    ensures Run(text, from) == Some(to)
  {
    assert text + "" == text && Run(text + "", from) == Run("", to);
  }

  lemma ClosesHereDoc(items: seq<Item>, op: string, delimiter: string)
    requires (op == "<<" || op == "<<-") && delimiter != ""
    ensures var full := Took(Opened(WithItems(INIT, items), OpenedBy(op), false), delimiter);
            && Close(Some(full)) == Some(Command(items))
            && FinishCommand(full).hereDocs == [HereDoc(delimiter, op == "<<-")]
  {
    var st := WithItems(INIT, items);
    var full := Took(Opened(st, OpenedBy(op), false), delimiter);
    assert full.word == delimiter;
    assert FinishWord(full) == st.(hereDocs := [] + [HereDoc(delimiter, op == "<<-")]);
    assert [] + ItemWords(items) == ItemWords(items);
    assert [] + Command(items) == Command(items);
  }
}
