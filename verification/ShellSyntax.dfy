/** What the conservative shell reader of src/activity/curl-request-urls.ts
    computes, stated on the text still to be read.  `Step` is one turn of the
    scanner's loop, `Run` the loop, and `Parse` the whole function.  The
    imperative scanner in ShellScanner.dfy is proved equal to `Parse`. */
module ShellSyntax {
  import opened Prelude

  datatype ParsedCommand = ParsedCommand(words: seq<string>, hasOutputRedirection: bool)

  datatype Quote = Unquoted | InSingle | InDouble

  datatype HereDoc = HereDoc(delimiter: string, stripTabs: bool)

  datatype Redirection = NoRedirection | ToFile | ToHereDoc(stripTabs: bool)

  /** The scanner's variables between two turns of its loop. */
  datatype Scan = Scan(
    commands: seq<ParsedCommand>,
    words: seq<string>,
    word: string,
    wordStarted: bool,
    quote: Quote,
    pending: Redirection,
    hereDocs: seq<HereDoc>,
    hasOutput: bool,
    invalid: bool)

  const INIT := Scan([], [], "", false, Unquoted, NoRedirection, [], false, false)

  /** One turn of the loop either rejects the whole source or leaves some of it to read. */
  datatype Outcome = Reject | Continue(rest: string, st: Scan)

  // ECMAScript's \s: white space and line terminators.
  predicate IsSpace(c: char) {
    var n := c as int;
    0x09 <= n <= 0x0D || n == 0x20 || n == 0xA0 || n == 0x1680 || 0x2000 <= n <= 0x200A
    || n == 0x2028 || n == 0x2029 || n == 0x202F || n == 0x205F || n == 0x3000 || n == 0xFEFF
  }

  function FinishWord(st: Scan): Scan {
    if !st.wordStarted then st
    else
      var cleared := st.(word := "", wordStarted := false);
      match st.pending
      case NoRedirection => cleared.(words := st.words + [st.word])
      case ToFile =>
        if st.word == "" then cleared.(invalid := true)
        else cleared.(pending := NoRedirection)
      case ToHereDoc(stripTabs) =>
        if st.word == "" then cleared.(invalid := true)
        else cleared.(pending := NoRedirection, hereDocs := st.hereDocs + [HereDoc(st.word, stripTabs)])
  }

  function FinishCommand(st: Scan): Scan {
    var f := FinishWord(st);
    if f.pending != NoRedirection then f.(invalid := true)
    else
      var commands :=
        if f.words != [] || f.hasOutput then f.commands + [ParsedCommand(f.words, f.hasOutput)]
        else f.commands;
      f.(commands := commands, words := [], hasOutput := false)
  }

  function BeginRedirection(st: Scan, redirection: Redirection, output: bool): Scan {
    if st.pending != NoRedirection then st.(invalid := true)
    else
      // A numeric word that touches the operator is a file descriptor.
      var f :=
        if st.wordStarted && AllDigits(st.word) then st.(word := "", wordStarted := false)
        else FinishWord(st);
      f.(pending := redirection, hasOutput := f.hasOutput || output)
  }

  /** A line of a here-document as it is compared with the delimiter. */
  function TrimLine(raw: string, stripTabs: bool): string {
    var line := if raw != "" && raw[|raw| - 1] == '\r' then raw[..|raw| - 1] else raw;
    if stripTabs then StripTabs(line) else line
  }

  function StripTabs(line: string): string {
    if line != "" && line[0] == '\t' then StripTabs(line[1..]) else line
  }

  /** What is left of `src` after one here-document, through its delimiter line. */
  function SkipDoc(src: string, doc: HereDoc): (rest: Option<string>)
    ensures rest.Some? ==> IsSuffix(rest.value, src)
  {
    var nl := IndexOf(src, '\n');
    var below := if nl == |src| then "" else src[nl + 1..];
    if TrimLine(src[..nl], doc.stripTabs) == doc.delimiter then Some(below)
    else if nl == |src| then None
    else SkipDoc(below, doc)
  }

  /** What is left of `src` after the queued here-documents, in order. */
  function SkipDocs(src: string, docs: seq<HereDoc>): (rest: Option<string>)
    ensures rest.Some? ==> IsSuffix(rest.value, src)
    decreases |docs|
  {
    if docs == [] then Some(src)
    else
      match SkipDoc(src, docs[0])
      case None => None
      case Some(rest) => SkipDocs(rest, docs[1..])
  }

  predicate IsSuffix(rest: string, src: string) {
    |rest| <= |src| && rest == src[|src| - |rest|..]
  }

  /** What a turn of the loop decides to do, from the text alone. */
  datatype Action =
    | Stop
    | Pass
    | Append(c: char)                       // inside quotes, where a word is under way
    | Add(c: char)
    | OpenQuote(quote: Quote)
    | CloseQuote
    | Redirect(redirection: Redirection, output: bool)
    | EndLine
    | EndCommand
    | EndWord

  /** An action and the text that it leaves. */
  datatype Token = Token(action: Action, rest: string)

  predicate Opens(src: string)
    requires src != ""
  {
    src[0] == '`' || (src[0] == '$' && |src| > 1 && src[1] == '(')
  }

  function LexSingle(src: string): Token
    requires src != ""
  {
    Token(if src[0] == '\'' then CloseQuote else Append(src[0]), src[1..])
  }

  // A backslash inside double quotes goes away before any character, which is
  // more than section 2.2.3 of the POSIX Shell Command Language removes.
  function LexDouble(src: string): Token
    requires src != ""
  {
    var c := src[0];
    if c == '"' then Token(CloseQuote, src[1..])
    else if Opens(src) then Token(Stop, src[1..])
    else if c == '\\' && |src| > 1 then Token(if src[1] == '\n' then Pass else Append(src[1]), src[2..])
    else Token(Append(c), src[1..])
  }

  function LexRedirection(src: string): Token
    requires src != "" && (src[0] == '<' || src[0] == '>')
  {
    var c := src[0];
    var two := |src| > 1;
    if c == '<' && two && src[1] == '<' then
      if |src| > 2 && src[2] == '<' then Token(Stop, src[1..])
      else if |src| > 2 && src[2] == '-' then Token(Redirect(ToHereDoc(true), false), src[3..])
      else Token(Redirect(ToHereDoc(false), false), src[2..])
    else
      var output := c == '>' || (two && src[1] == '>');
      var wide := two && (src[1] == c || src[1] == '&' || src[1] == '|' || (c == '<' && src[1] == '>'));
      Token(Redirect(ToFile, output), if wide then src[2..] else src[1..])
  }

  function LexUnquoted(src: string, wordStarted: bool): Token
    requires src != ""
  {
    var c := src[0];
    var two := |src| > 1;
    if Opens(src) then Token(Stop, src[1..])
    else if c == '\\' then
      if !two then Token(Stop, src[1..])
      else Token(if src[1] == '\n' then Pass else Add(src[1]), src[2..])
    else if c == '\'' then Token(OpenQuote(InSingle), src[1..])
    else if c == '"' then Token(OpenQuote(InDouble), src[1..])
    else if c == '#' && !wordStarted then Token(Pass, src[1 + IndexOf(src[1..], '\n')..])
    else if c == '&' && two && src[1] == '>' then
      Token(Redirect(ToFile, true), if |src| > 2 && src[2] == '>' then src[3..] else src[2..])
    else if c == '<' || c == '>' then LexRedirection(src)
    else if c == '\n' then Token(EndLine, src[1..])
    else if c == ';' || c == '|' || c == '&' then
      Token(EndCommand, if two && src[1] == c && c != ';' then src[2..] else src[1..])
    else if IsSpace(c) then Token(EndWord, src[1..])
    else if c == '(' || c == ')' || c == '{' || c == '}' then Token(Stop, src[1..])
    else Token(Add(c), src[1..])
  }

  /** The decision of one turn; it depends on the quoting and on whether a word
      is under way, and it always uses some text. */
  function Lex(src: string, quote: Quote, wordStarted: bool): (t: Token)
    requires src != ""
    ensures |t.rest| < |src| && IsSuffix(t.rest, src)
  {
    match quote
    case InSingle => LexSingle(src)
    case InDouble => LexDouble(src)
    case Unquoted => LexUnquoted(src, wordStarted)
  }

  function Checked(st: Scan, rest: string): Outcome {
    if st.invalid then Reject else Continue(rest, st)
  }

  function EndLineAct(rest: string, st: Scan): Outcome {
    var f := FinishCommand(st);
    if f.invalid then Reject
    else
      match SkipDocs(rest, f.hereDocs)
      case None => Reject
      case Some(below) => Continue(below, f.(hereDocs := []))
  }

  /** What the decision does to the scanner's variables. */
  function Act(t: Token, st: Scan): Outcome {
    match t.action
    case Stop => Reject
    case Pass => Continue(t.rest, st)
    case Append(c) => Continue(t.rest, st.(word := st.word + [c]))
    case Add(c) => Continue(t.rest, st.(wordStarted := true, word := st.word + [c]))
    case OpenQuote(q) => Continue(t.rest, st.(quote := q, wordStarted := true))
    case CloseQuote => Continue(t.rest, st.(quote := Unquoted))
    case Redirect(r, output) => Continue(t.rest, BeginRedirection(st, r, output))
    case EndLine => EndLineAct(t.rest, st)
    case EndCommand => Checked(FinishCommand(st), t.rest)
    case EndWord => Checked(FinishWord(st), t.rest)
  }

  /** One turn of the loop.  Every jump moves forward and stays in the source. */
  function Step(src: string, st: Scan): (o: Outcome)
    requires src != ""
    ensures o.Continue? ==> |o.rest| < |src| && IsSuffix(o.rest, src)
  {
    Act(Lex(src, st.quote, st.wordStarted), st)
  }

  /** The scanner's variables once `src` is used up, unless some turn rejects it. */
  function Run(src: string, st: Scan): Option<Scan>
    decreases |src|
  {
    if src == "" then Some(st)
    else
      match Step(src, st)
      case Reject => None
      case Continue(rest, next) => Run(rest, next)
  }

  /** The checks after the loop. */
  function Close(end: Option<Scan>): Option<seq<ParsedCommand>> {
    if end.None? || end.value.quote != Unquoted then None
    else
      var f := FinishCommand(end.value);
      if f.invalid then None else Some(f.commands)
  }

  function Parse(source: string): Option<seq<ParsedCommand>> {
    Close(Run(source, INIT))
  }

  /** Here-documents announced but not read when the source ends. */
  function OpenDocs(source: string): seq<HereDoc> {
    var end := Run(source, INIT);
    if end.None? then [] else FinishCommand(end.value).hereDocs
  }
}
