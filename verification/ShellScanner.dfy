/** The hand-written scanner of src/activity/curl-request-urls.ts in its own
    imperative form: an object whose fields are the variables that the inner
    closures share, and an index that jumps forward through the source. */
module ShellScanner {
  import opened Prelude
  import opened ShellSyntax
  import ShellLaws

  /** The characters that quote. */
  predicate Quotes(c: char) {
    c == '\\' || c == '"' || c == '\''
  }

  /** The characters that end a command. */
  predicate Separates(c: char) {
    c == '&' || c == ';' || c == '|' || c == '\n'
  }

  /** `at` is the index in `source` where what is left to read begins. */
  ghost predicate IsAt(at: Option<nat>, rest: string, source: string) {
    at.Some? && at.value <= |source| && source[at.value..] == rest
  }

  /** `next` and `view` are what `o` says. */
  ghost predicate Follows(next: Option<nat>, source: string, o: Outcome, view: Scan) {
    match o
    case Reject => next == None
    case Continue(rest, st) => IsAt(next, rest, source) && view == st
  }

  class Scanner {
    var commands: seq<ParsedCommand>
    var words: seq<string>
    var word: string
    var wordStarted: bool
    var quote: Quote
    var pending: Redirection
    var hereDocs: seq<HereDoc>
    var hasOutput: bool
    var invalid: bool

    /** The fields as one value. */
    function View(): Scan
      reads this
    {
      Scan(commands, words, word, wordStarted, quote, pending, hereDocs, hasOutput, invalid)
    }

    constructor ()
      ensures View() == INIT
    {
      commands, words, word, wordStarted := [], [], "", false;
      quote, pending, hereDocs, hasOutput, invalid := Unquoted, NoRedirection, [], false, false;
    }

    method FinishWord()
      modifies this
      ensures View() == ShellSyntax.FinishWord(old(View()))
    {
      if !wordStarted { return; }
      var finished := word;
      word := "";
      wordStarted := false;
      if pending != NoRedirection {
        if finished == "" {
          invalid := true;
          return;
        }
        if pending.ToHereDoc? {
          hereDocs := hereDocs + [HereDoc(finished, pending.stripTabs)];
        }
        pending := NoRedirection;
        return;
      }
      words := words + [finished];
    }

    method FinishCommand()
      modifies this
      ensures View() == ShellSyntax.FinishCommand(old(View()))
    {
      FinishWord();
      if pending != NoRedirection {
        invalid := true;
        return;
      }
      if |words| > 0 || hasOutput {
        commands := commands + [ParsedCommand(words, hasOutput)];
      }
      words := [];
      hasOutput := false;
    }

    method BeginRedirection(redirection: Redirection, output: bool)
      modifies this
      ensures View() == ShellSyntax.BeginRedirection(old(View()), redirection, output)
    {
      if pending != NoRedirection {
        invalid := true;
        return;
      }
      if wordStarted && AllDigits(word) {
        word := "";
        wordStarted := false;
      } else {
        FinishWord();
      }
      pending := redirection;
      if output { hasOutput := true; }
    }

    /** One turn of the loop at `index`: the index of the next turn, or None
        when the source is rejected. */
    method Turn(source: string, index: nat) returns (next: Option<nat>)
      requires index < |source|
      modifies this
      ensures Follows(next, source, Step(source[index..], old(View())), View())
    {
      var c := source[index];
      var follows := index + 1 < |source|;
      if quote == InSingle {
        if c == '\'' { quote := Unquoted; } else { word := word + [c]; }
        return Some(index + 1);
      }
      if quote == InDouble {
        if c == '"' {
          quote := Unquoted;
          return Some(index + 1);
        }
        if c == '`' || (c == '$' && follows && source[index + 1] == '(') { return None; }
        if c == '\\' && follows {
          if source[index + 1] != '\n' { word := word + [source[index + 1]]; }
          return Some(index + 2);
        }
        word := word + [c];
        return Some(index + 1);
      }
      next := TurnUnquoted(source, index);
    }

    method TurnHereDoc(source: string, index: nat) returns (next: Option<nat>)
      requires index + 1 < |source| && source[index] == '<' && source[index + 1] == '<' && quote == Unquoted
      modifies this
      ensures Follows(next, source, Step(source[index..], old(View())), View())
    {
      if index + 2 < |source| && source[index + 2] == '<' { return None; }
      var stripTabs := index + 2 < |source| && source[index + 2] == '-';
      BeginRedirection(ToHereDoc(stripTabs), false);
      return Some(index + if stripTabs then 3 else 2);
    }

    method TurnRedirection(source: string, index: nat) returns (next: Option<nat>)
      requires index < |source| && (source[index] == '<' || source[index] == '>') && quote == Unquoted
      modifies this
      ensures Follows(next, source, Step(source[index..], old(View())), View())
    {
      var c := source[index];
      var follows := index + 1 < |source|;
      if c == '<' && follows && source[index + 1] == '<' {
        next := TurnHereDoc(source, index);
        return;
      }
      var output := c == '>' || (follows && source[index + 1] == '>');
      BeginRedirection(ToFile, output);
      if follows && (source[index + 1] == c || source[index + 1] == '&' || source[index + 1] == '|'
                     || (c == '<' && source[index + 1] == '>')) {
        return Some(index + 2);
      }
      return Some(index + 1);
    }

    method TurnNewline(source: string, index: nat) returns (next: Option<nat>)
      requires index < |source| && source[index] == '\n' && quote == Unquoted
      modifies this
      ensures Follows(next, source, Step(source[index..], old(View())), View())
    {
      assert source[index..][1..] == source[index + 1..];
      ShellLaws.EndsLine(View(), source[index..]);
      FinishCommand();
      if invalid { return None; }
      if |hereDocs| > 0 {
        var after := ConsumeHereDocuments(source, index + 1, hereDocs);
        if after.None? { return None; }
        hereDocs := [];
        return after;
      }
      return Some(index + 1);
    }

    method TurnBackslash(source: string, index: nat) returns (next: Option<nat>)
      requires index < |source| && source[index] == '\\' && quote == Unquoted
      modifies this
      ensures Follows(next, source, Step(source[index..], old(View())), View())
    {
      if index + 1 == |source| { return None; }
      if source[index + 1] != '\n' {
        wordStarted := true;
        word := word + [source[index + 1]];
      }
      return Some(index + 2);
    }

    method TurnUnquoted(source: string, index: nat) returns (next: Option<nat>)
      requires index < |source| && quote == Unquoted
      modifies this
      ensures Follows(next, source, Step(source[index..], old(View())), View())
    {
      var c := source[index];
      var follows := index + 1 < |source|;
      if c == '`' || (c == '$' && follows && source[index + 1] == '(') { return None; }
      if c == '\\' {
        next := TurnBackslash(source, index);
        return;
      }
      if c == '\'' || c == '"' {
        quote := if c == '\'' then InSingle else InDouble;
        wordStarted := true;
        return Some(index + 1);
      }
      if c == '#' && !wordStarted {
        assert source[index..][1..] == source[index + 1..];
        return Some(index + 1 + IndexOf(source[index + 1..], '\n'));
      }
      next := TurnOperator(source, index);
    }

    method TurnOperator(source: string, index: nat) returns (next: Option<nat>)
      requires index < |source| && quote == Unquoted && !Opens(source[index..])
      requires !Quotes(source[index]) && (source[index] == '#' ==> wordStarted)
      modifies this
      ensures Follows(next, source, Step(source[index..], old(View())), View())
    {
      ghost var src := source[index..];
      var c := source[index];
      var follows := index + 1 < |source|;
      assert Lex(src, quote, wordStarted) == LexUnquoted(src, wordStarted);
      if c == '&' && follows && source[index + 1] == '>' {
        BeginRedirection(ToFile, true);
        return Some(index + if index + 2 < |source| && source[index + 2] == '>' then 3 else 2);
      }
      if c == '<' || c == '>' {
        next := TurnRedirection(source, index);
        return;
      }
      next := TurnSeparator(source, index);
    }

    method TurnSeparator(source: string, index: nat) returns (next: Option<nat>)
      requires index < |source| && quote == Unquoted && !Opens(source[index..])
      requires !Quotes(source[index]) && source[index] !in "<>" && (source[index] == '#' ==> wordStarted)
      requires source[index] == '&' && index + 1 < |source| ==> source[index + 1] != '>'
      modifies this
      ensures Follows(next, source, Step(source[index..], old(View())), View())
    {
      ghost var src := source[index..];
      var c := source[index];
      var follows := index + 1 < |source|;
      assert Lex(src, quote, wordStarted) == LexUnquoted(src, wordStarted);
      if c == '\n' {
        next := TurnNewline(source, index);
        return;
      }
      if c == ';' || c == '|' || c == '&' {
        FinishCommand();
        if invalid { return None; }
        return Some(index + if follows && source[index + 1] == c && (c == '|' || c == '&') then 2 else 1);
      }
      next := TurnCharacter(source, index);
    }

    method TurnCharacter(source: string, index: nat) returns (next: Option<nat>)
      requires index < |source| && quote == Unquoted && !Opens(source[index..])
      requires !Quotes(source[index]) && !Separates(source[index]) && source[index] !in "<>"
      requires source[index] == '#' ==> wordStarted
      modifies this
      ensures Follows(next, source, Step(source[index..], old(View())), View())
    {
      ghost var src := source[index..];
      var c := source[index];
      assert Lex(src, quote, wordStarted) == LexUnquoted(src, wordStarted);
      if IsSpace(c) {
        FinishWord();
        if invalid { return None; }
        return Some(index + 1);
      }
      if c == '(' || c == ')' || c == '{' || c == '}' { return None; }
      wordStarted := true;
      word := word + [c];
      return Some(index + 1);
    }
  }

  /** The cursor after the first line, from `start` on, that equals the delimiter. */
  method ConsumeHereDocument(source: string, start: nat, document: HereDoc) returns (after: Option<nat>)
    requires start <= |source|
    ensures Reaches(after, source, SkipDoc(source[start..], document))
  {
    var cursor := start;
    while cursor <= |source|
      invariant start <= cursor <= |source|
      invariant SkipDoc(source[start..], document) == SkipDoc(source[cursor..], document)
      decreases |source| - cursor
    {
      var rest := source[cursor..];
      var nl := IndexOf(rest, '\n');
      var line := TrimLine(rest[..nl], document.stripTabs);
      var next := if nl == |rest| then |source| else cursor + nl + 1;
      if line == document.delimiter { return Some(next); }
      if nl == |rest| { break; }
      assert source[next..] == rest[nl + 1..];
      cursor := next;
    }
    return None;
  }

  /** The cursor after the queued here-documents, taken in order. */
  method ConsumeHereDocuments(source: string, start: nat, documents: seq<HereDoc>)
    returns (after: Option<nat>)
    requires start <= |source|
    ensures Reaches(after, source, SkipDocs(source[start..], documents))
  {
    var cursor := start;
    for d := 0 to |documents|
      invariant start <= cursor <= |source|
      invariant SkipDocs(source[start..], documents) == SkipDocs(source[cursor..], documents[d..])
    {
      var next := ConsumeHereDocument(source, cursor, documents[d]);
      assert documents[d..][0] == documents[d] && documents[d..][1..] == documents[d + 1..];
      if next.None? { return None; }
      cursor := next.value;
    }
    return Some(cursor);
  }

  /** `after` is where `rest` begins, or both are absent. */
  ghost predicate Reaches(after: Option<nat>, source: string, rest: Option<string>) {
    if rest.None? then after == None else IsAt(after, rest.value, source)
  }

  /** The whole function: it computes `Parse`, and it always stops. */
  method ParseShellCommands(source: string) returns (r: Option<seq<ParsedCommand>>)
    ensures r == Parse(source)
  {
    var scanner := new Scanner();
    var index := 0;
    while index < |source|
      invariant index <= |source|
      invariant Run(source, INIT) == Run(source[index..], scanner.View())
    {
      var next := scanner.Turn(source, index);
      if next.None? { return None; }
      index := next.value;
    }
    if scanner.quote != Unquoted { return None; }
    scanner.FinishCommand();
    return if scanner.invalid then None else Some(scanner.commands);
  }
}
