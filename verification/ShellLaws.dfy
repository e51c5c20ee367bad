/** Laws of the shell reader over whole scripts: scripts compose at a newline,
    and here-documents are opaque. */
module ShellLaws {
  import opened Prelude
  import opened ShellSyntax

  /** What every reachable scanner state keeps. */
  predicate Good(st: Scan) {
    && (!st.wordStarted ==> st.word == "")
    && (st.quote != Unquoted ==> st.wordStarted)
    && forall d <- st.hereDocs :: d.delimiter != ""
  }

  lemma FinishWordKeepsGood(st: Scan)
    requires Good(st) && st.quote == Unquoted
    ensures Good(FinishWord(st))
  {
    var docs := FinishWord(st).hereDocs;
    forall d <- docs ensures d.delimiter != "" {
      assert d in st.hereDocs || d.delimiter == st.word != "";
    }
  }

  /** Quoted text is only added to a word, and unquoted text starts its word. */
  predicate Fits(a: Action, quote: Quote) {
    if quote == Unquoted then !a.Append? && !a.CloseQuote?
    else a.Stop? || a.Pass? || a.Append? || a.CloseQuote?
  }

  lemma ActKeepsGood(t: Token, st: Scan)
    requires Good(st) && Fits(t.action, st.quote)
    ensures Act(t, st).Continue? ==> Good(Act(t, st).st)
  {
    if st.quote == Unquoted {
      if t.action.Redirect? {
        BeginKeepsGood(st, t.action.redirection, t.action.output);
      } else {
        FinishWordKeepsGood(st);
      }
    }
  }

  lemma BeginKeepsGood(st: Scan, r: Redirection, output: bool)
    requires Good(st) && st.quote == Unquoted
    ensures Good(BeginRedirection(st, r, output))
  {
    FinishWordKeepsGood(st);
  }

  lemma StepKeepsGood(src: string, st: Scan)
    requires src != "" && Good(st)
    ensures Step(src, st).Continue? ==> Good(Step(src, st).st)
  {
    var t := Lex(src, st.quote, st.wordStarted);
    ActKeepsGood(t, st);
  }

  lemma {:induction false} RunKeepsGood(src: string, st: Scan)
    requires Good(st)
    ensures Run(src, st).Some? ==> Good(Run(src, st).value)
    decreases |src|
  {
    if src != "" {
      StepKeepsGood(src, st);
      var o := Step(src, st);
      if o.Continue? { RunKeepsGood(o.rest, o.st); }
    }
  }

  // ----- text after a newline does not change how the text before it is read

  lemma SkipDocBefore(src: string, doc: HereDoc, tail: string)
    requires SkipDoc(src, doc).Some? && tail != "" && tail[0] == '\n'
    ensures var rest := SkipDoc(src, doc).value;
            SkipDoc(src + tail, doc) == Some(rest + tail)
            || (rest == "" && SkipDoc(src + tail, doc) == Some(tail[1..]))
  {
    var nl := IndexOf(src, '\n');
    IndexOfIsFirst(src + tail, '\n', nl);
    assert (src + tail)[..nl] == src[..nl];
    if nl < |src| {
      assert (src + tail)[nl + 1..] == src[nl + 1..] + tail;
      if TrimLine(src[..nl], doc.stripTabs) != doc.delimiter {
        SkipDocBefore(src[nl + 1..], doc, tail);
      }
    } else {
      assert (src + tail)[nl + 1..] == tail[1..];
    }
  }

  lemma {:induction false} SkipDocsBefore(src: string, docs: seq<HereDoc>, tail: string)
    requires SkipDocs(src, docs).Some? && tail != "" && tail[0] == '\n'
    requires forall d <- docs :: d.delimiter != ""
    ensures var rest := SkipDocs(src, docs).value;
            SkipDocs(src + tail, docs) == Some(rest + tail)
            || (rest == "" && docs != [] && SkipDocs(src + tail, docs) == Some(tail[1..]))
    decreases |docs|
  {
    if docs != [] {
      var rest := SkipDoc(src, docs[0]).value;
      SkipDocBefore(src, docs[0], tail);
      if SkipDoc(src + tail, docs[0]) == Some(rest + tail) {
        SkipDocsBefore(rest, docs[1..], tail);
      }
    }
  }

  /** Nothing is under way: the next newline only moves past itself. */
  predicate Idle(st: Scan) {
    st.quote == Unquoted && !st.invalid && st.hereDocs == [] && FinishCommand(st) == st
  }

  lemma CommentBefore(src: string, tail: string)
    requires src != "" && tail != "" && tail[0] == '\n'
    ensures (src + tail)[1 + IndexOf((src + tail)[1..], '\n')..] == src[1 + IndexOf(src[1..], '\n')..] + tail
  {
    var i := IndexOf(src[1..], '\n');
    IndexOfIsFirst((src + tail)[1..], '\n', i);
    assert (src + tail)[1 + i..] == src[1 + i..] + tail;
  }

  lemma UnquotedBefore(src: string, wordStarted: bool, tail: string)
    requires src != "" && tail != "" && tail[0] == '\n' && src != "\\"
    ensures var t := LexUnquoted(src, wordStarted);
            LexUnquoted(src + tail, wordStarted) == Token(t.action, t.rest + tail) || t.action == Stop
  {
    if src[0] == '#' && !wordStarted {
      CommentedBefore(src, tail);
    } else if src[0] == '<' || src[0] == '>' {
      RedirectedBefore(src, wordStarted, tail);
    } else if src[0] in "`$\\'\"" {
      QuotingBefore(src, wordStarted, tail);
    } else if src[0] in "&;|\n" {
      OperatorBefore(src, wordStarted, tail);
    } else {
      PlainBefore(src, wordStarted, tail);
    }
  }

  lemma QuotingBefore(src: string, wordStarted: bool, tail: string)
    requires src != "" && tail != "" && tail[0] == '\n' && src != "\\" && src[0] in "`$\\'\""
    ensures var t := LexUnquoted(src, wordStarted);
            LexUnquoted(src + tail, wordStarted) == Token(t.action, t.rest + tail) || t.action == Stop
  {
  }

  lemma OperatorBefore(src: string, wordStarted: bool, tail: string)
    requires src != "" && tail != "" && tail[0] == '\n' && src[0] in "&;|\n"
    ensures var t := LexUnquoted(src, wordStarted);
            LexUnquoted(src + tail, wordStarted) == Token(t.action, t.rest + tail)
  {
  }

  lemma CommentedBefore(src: string, tail: string)
    requires src != "" && tail != "" && tail[0] == '\n' && src[0] == '#'
    ensures var t := LexUnquoted(src, false); LexUnquoted(src + tail, false) == Token(t.action, t.rest + tail)
  {
    CommentBefore(src, tail);
    assert (src + tail)[0] == '#';
  }

  lemma RedirectedBefore(src: string, wordStarted: bool, tail: string)
    requires src != "" && tail != "" && tail[0] == '\n' && (src[0] == '<' || src[0] == '>')
    ensures var t := LexUnquoted(src, wordStarted);
            LexUnquoted(src + tail, wordStarted) == Token(t.action, t.rest + tail) || t.action == Stop
  {
    assert (src + tail)[0] == src[0];
  }

  /** A character that the next one does not change. */
  lemma PlainBefore(src: string, wordStarted: bool, tail: string)
    requires src != "" && src[0] !in "`$\\'\"<>&;|\n" && (src[0] == '#' ==> wordStarted)
    ensures var t := LexUnquoted(src, wordStarted);
            LexUnquoted(src + tail, wordStarted) == Token(t.action, t.rest + tail)
  {
    assert (src + tail)[0] == src[0] && (src + tail)[1..] == src[1..] + tail;
  }

  /** Looking ahead past the end of `src` into a newline decides nothing new,
      except for a backslash that ends the text. */
  lemma LexBefore(src: string, quote: Quote, wordStarted: bool, tail: string)
    requires src != "" && tail != "" && tail[0] == '\n'
    requires src == "\\" ==> quote == InSingle
    ensures var t := Lex(src, quote, wordStarted);
            Lex(src + tail, quote, wordStarted) == Token(t.action, t.rest + tail) || t.action == Stop
  {
    if quote == Unquoted { UnquotedBefore(src, wordStarted, tail); }
  }

  lemma FinishIsIdle(st: Scan)
    requires st.quote == Unquoted && !FinishCommand(st).invalid
    ensures Idle(FinishCommand(st).(hereDocs := []))
  {
  }

  /** A turn on a longer text does the same, unless the text before the tail
      ended inside a here-document's last line. */
  lemma ActBefore(t: Token, st: Scan, tail: string)
    requires tail != "" && tail[0] == '\n' && Good(st) && st.quote == Unquoted
    requires Act(t, st).Continue?
    ensures var o, longer := Act(t, st), Act(Token(t.action, t.rest + tail), st);
            longer == Continue(o.rest + tail, o.st)
            || (o.rest == "" && Idle(o.st) && longer == Continue(tail[1..], o.st))
  {
    if t.action == EndLine {
      FinishWordKeepsGood(st);
      SkipDocsBefore(t.rest, FinishCommand(st).hereDocs, tail);
      FinishIsIdle(st);
    }
  }

  lemma StepBefore(src: string, st: Scan, tail: string)
    requires src != "" && tail != "" && tail[0] == '\n' && Good(st)
    requires Step(src, st).Continue? && (src == "\\" ==> st.quote == InSingle)
    ensures var o, longer := Step(src, st), Step(src + tail, st);
            longer == Continue(o.rest + tail, o.st)
            || (o.rest == "" && Idle(o.st) && longer == Continue(tail[1..], o.st))
  {
    LexBefore(src, st.quote, st.wordStarted, tail);
    if st.quote == Unquoted {
      ActBefore(Lex(src, st.quote, st.wordStarted), st, tail);
    }
  }

  lemma EndsLine(st: Scan, tail: string)
    requires tail != "" && tail[0] == '\n' && st.quote == Unquoted
    ensures Step(tail, st) == EndLineAct(tail[1..], st)
  {
    assert Lex(tail, st.quote, st.wordStarted) == Token(EndLine, tail[1..]);
  }

  lemma IdleAtNewline(st: Scan, tail: string)
    requires tail != "" && tail[0] == '\n' && Idle(st)
    ensures Run(tail, st) == Run(tail[1..], st)
  {
    EndsLine(st, tail);
  }

  /** Reading `src` and then a newline and more is reading on from where `src` ends. */
  lemma {:induction false} RunBefore(src: string, st: Scan, tail: string)
    requires tail != "" && tail[0] == '\n' && Good(st)
    requires Run(src, st).Some? && Run(src, st).value.quote == Unquoted
    ensures Run(src + tail, st) == Run(tail, Run(src, st).value)
    decreases |src|
  {
    if src == "" {
      assert src + tail == tail;
    } else {
      var o := Step(src, st);
      StepKeepsGood(src, st);
      assert src == "\\" && st.quote == InDouble ==> o == Continue("", st.(word := st.word + src));
      StepBefore(src, st, tail);
      if Step(src + tail, st) == Continue(o.rest + tail, o.st) {
        RunBefore(o.rest, o.st, tail);
      } else {
        IdleAtNewline(o.st, tail);
      }
    }
  }

  // ----- commands already read do not change how the rest is read

  function After(earlier: seq<ParsedCommand>, st: Scan): Scan {
    st.(commands := earlier + st.commands)
  }

  function OutcomeAfter(earlier: seq<ParsedCommand>, o: Outcome): Outcome {
    match o
    case Reject => Reject
    case Continue(rest, st) => Continue(rest, After(earlier, st))
  }

  lemma FinishWordAfter(earlier: seq<ParsedCommand>, st: Scan)
    ensures FinishWord(After(earlier, st)) == After(earlier, FinishWord(st))
  {
  }

  lemma FinishCommandAfter(earlier: seq<ParsedCommand>, st: Scan)
    ensures FinishCommand(After(earlier, st)) == After(earlier, FinishCommand(st))
  {
    FinishWordAfter(earlier, st);
    var f := FinishWord(st);
    var one := [ParsedCommand(f.words, f.hasOutput)];
    assert earlier + (f.commands + one) == earlier + f.commands + one;
  }

  lemma ActAfter(earlier: seq<ParsedCommand>, t: Token, st: Scan)
    ensures Act(t, After(earlier, st)) == OutcomeAfter(earlier, Act(t, st))
  {
    if t.action.EndLine? {
      EndLineAfter(earlier, t.rest, st);
    } else if t.action.EndCommand? {
      FinishCommandAfter(earlier, st);
    } else if t.action.Redirect? {
      BeginAfter(earlier, st, t.action.redirection, t.action.output);
    } else if t.action.EndWord? {
      FinishWordAfter(earlier, st);
    }
  }

  lemma BeginAfter(earlier: seq<ParsedCommand>, st: Scan, r: Redirection, output: bool)
    ensures BeginRedirection(After(earlier, st), r, output) == After(earlier, BeginRedirection(st, r, output))
  {
    if st.pending == NoRedirection {
      if st.wordStarted && AllDigits(st.word) {
        assert BeginRedirection(st, r, output)
            == st.(word := "", wordStarted := false, pending := r, hasOutput := st.hasOutput || output);
      } else {
        FinishWordAfter(earlier, st);
      }
    }
  }

  lemma EndLineAfter(earlier: seq<ParsedCommand>, rest: string, st: Scan)
    ensures EndLineAct(rest, After(earlier, st)) == OutcomeAfter(earlier, EndLineAct(rest, st))
  {
    FinishCommandAfter(earlier, st);
  }

  lemma StepAfter(earlier: seq<ParsedCommand>, src: string, st: Scan)
    requires src != ""
    ensures Step(src, After(earlier, st)) == OutcomeAfter(earlier, Step(src, st))
  {
    ActAfter(earlier, Lex(src, st.quote, st.wordStarted), st);
  }

  lemma {:induction false} RunAfter(earlier: seq<ParsedCommand>, src: string, st: Scan)
    ensures Close(Run(src, After(earlier, st))) == Prepend(earlier, Close(Run(src, st)))
    decreases |src|
  {
    if src == "" {
      FinishCommandAfter(earlier, st);
    } else {
      StepAfter(earlier, src, st);
      var o := Step(src, st);
      if o.Continue? { RunAfter(earlier, o.rest, o.st); }
    }
  }

  function Prepend<T>(earlier: seq<T>, later: Option<seq<T>>): Option<seq<T>> {
    match later
    case None => None
    case Some(commands) => Some(earlier + commands)
  }

  // ----- composition

  lemma NewlineAtEnd(end: Scan, text: string)
    requires end.quote == Unquoted && Good(end) && !FinishCommand(end).invalid
    ensures var f := FinishCommand(end);
            Run("\n" + text, end) ==
            match SkipDocs(text, f.hereDocs)
            case None => None
            case Some(rest) => Run(rest, After(f.commands, INIT))
  {
    var f := FinishCommand(end);
    assert ("\n" + text)[1..] == text;
    RunsEndLine("\n" + text, end);
    FinishedIsInitial(end);
  }

  lemma RunsEndLine(tail: string, st: Scan)
    requires tail != "" && tail[0] == '\n' && st.quote == Unquoted
    ensures Run(tail, st) ==
            match EndLineAct(tail[1..], st)
            case Reject => None
            case Continue(rest, next) => Run(rest, next)
  {
    EndsLine(st, tail);
  }

  lemma FinishedIsInitial(end: Scan)
    requires end.quote == Unquoted && Good(end) && !FinishCommand(end).invalid
    ensures var f := FinishCommand(end); f.(hereDocs := []) == After(f.commands, INIT)
  {
    var f := FinishCommand(end);
    assert f.commands + INIT.commands == f.commands;
  }

  lemma RunThenNewline(script: string, text: string)
    requires Run(script, INIT).Some? && Run(script, INIT).value.quote == Unquoted
    ensures Run(script + "\n" + text, INIT) == Run("\n" + text, Run(script, INIT).value)
  {
    RunBefore(script, INIT, "\n" + text);
    assert script + "\n" + text == script + ("\n" + text);
  }

  /** A script that parses, a newline, and any text: the text first feeds the
      here-documents that the script left open, and what they leave is read as
      a script of its own. */
  lemma ScriptThenText(script: string, text: string)
    requires Parse(script).Some?
    ensures Parse(script + "\n" + text) ==
            match SkipDocs(text, OpenDocs(script))
            case None => None
            case Some(rest) => Prepend(Parse(script).value, Parse(rest))
  {
    var end := Run(script, INIT).value;
    var f := FinishCommand(end);
    RunKeepsGood(script, INIT);
    RunThenNewline(script, text);
    NewlineAtEnd(end, text);
    var skipped := SkipDocs(text, f.hereDocs);
    if skipped.Some? {
      RunAfter(f.commands, skipped.value, INIT);
    }
  }

  /** Scripts compose: with no here-document left open, joining two scripts
      with a newline joins their commands, and the second alone decides whether
      the whole is readable. */
  lemma ScriptsCompose(first: string, second: string)
    requires Parse(first).Some? && OpenDocs(first) == []
    ensures Parse(first + "\n" + second) == Prepend(Parse(first).value, Parse(second))
  {
    ScriptThenText(first, second);
  }

  // ----- text that says nothing

  /** A comment says nothing, whatever its text: it starts where no word is under
      way and ends before the newline. */
  lemma CommentSaysNothing(text: string, tail: string, st: Scan)
    requires st.quote == Unquoted && !st.wordStarted
    requires '\n' !in text && (tail == "" || tail[0] == '\n')
    ensures Run("#" + text + tail, st) == Run(tail, st)
  {
    var src := "#" + text + tail;
    assert src[1..] == text + tail;
    assert forall k :: 0 <= k < |text| ==> src[1..][k] == text[k];
    IndexOfIsFirst(src[1..], '\n', |text|);
    assert src[1 + |text|..] == tail;
    assert Lex(src, st.quote, st.wordStarted) == Token(Pass, tail);
    assert Step(src, st) == Continue(tail, st);
  }

  /** A backslash joins two lines, outside single quotes. */
  lemma ContinuationSaysNothing(tail: string, st: Scan)
    requires st.quote != InSingle
    ensures Run("\\\n" + tail, st) == Run(tail, st)
  {
    var src := "\\\n" + tail;
    assert src[0] == '\\' && src[1] == '\n' && src[2..] == tail;
  }

  // ----- here-documents

  /** The text of one here-document: lines, none of which ends it, and then the
      line that does. */
  datatype Body = Body(lines: seq<string>, last: string)

  predicate Ends(line: string, doc: HereDoc) {
    TrimLine(line, doc.stripTabs) == doc.delimiter
  }

  ghost predicate BodyOf(body: Body, doc: HereDoc) {
    && '\n' !in body.last && Ends(body.last, doc)
    && forall l <- body.lines :: '\n' !in l && !Ends(l, doc)
  }

  ghost predicate BodiesOf(bodies: seq<Body>, docs: seq<HereDoc>) {
    |bodies| == |docs| && forall i :: 0 <= i < |docs| ==> BodyOf(bodies[i], docs[i])
  }

  function Lines(lines: seq<string>): string {
    if lines == [] then "" else lines[0] + "\n" + Lines(lines[1..])
  }

  function BodyText(body: Body): string {
    Lines(body.lines) + body.last + "\n"
  }

  function BodiesText(bodies: seq<Body>): string {
    if bodies == [] then "" else BodyText(bodies[0]) + BodiesText(bodies[1..])
  }

  lemma FirstLine(line: string, below: string)
    requires '\n' !in line
    ensures var src := line + "\n" + below;
            IndexOf(src, '\n') == |line| && src[..|line|] == line && src[|line| + 1..] == below
  {
    var src := line + "\n" + below;
    assert forall k :: 0 <= k < |line| ==> src[k] == line[k];
    IndexOfIsFirst(src, '\n', |line|);
  }

  lemma {:induction false} SkipsBody(body: Body, doc: HereDoc, rest: string)
    requires BodyOf(body, doc)
    ensures SkipDoc(BodyText(body) + rest, doc) == Some(rest)
    decreases |body.lines|
  {
    if body.lines == [] {
      assert BodyText(body) + rest == body.last + "\n" + rest;
      FirstLine(body.last, rest);
    } else {
      var line, below := body.lines[0], body.(lines := body.lines[1..]);
      assert BodyText(body) + rest == line + "\n" + (BodyText(below) + rest);
      FirstLine(line, BodyText(below) + rest);
      SkipsBody(below, doc, rest);
    }
  }

  /** The queued documents are consumed in order, each through its first
      matching line, whatever the lines before it say. */
  lemma {:induction false} SkipsBodies(bodies: seq<Body>, docs: seq<HereDoc>, rest: string)
    requires BodiesOf(bodies, docs)
    ensures SkipDocs(BodiesText(bodies) + rest, docs) == Some(rest)
    decreases |docs|
  {
    if docs == [] {
      assert BodiesText(bodies) + rest == rest;
    } else {
      var more := BodiesText(bodies[1..]) + rest;
      assert BodiesText(bodies) + rest == BodyText(bodies[0]) + more;
      SkipsBody(bodies[0], docs[0], more);
      SkipsBodies(bodies[1..], docs[1..], rest);
    }
  }

  /** Conversely, a document that is found is such a body.  The source may stop
      right after the delimiter, without the newline that section 2.7.4 of the
      POSIX Shell Command Language asks for. */
  lemma {:induction false} SkippedIsBody(src: string, doc: HereDoc) returns (body: Body)
    requires SkipDoc(src, doc).Some?
    ensures BodyOf(body, doc)
    ensures var rest := SkipDoc(src, doc).value;
            src == BodyText(body) + rest || (rest == "" && src + "\n" == BodyText(body))
    decreases |src|
  {
    var line, below := src[..IndexOf(src, '\n')], Below(src);
    SplitFirstLine(src);
    if Ends(line, doc) {
      body := Body([], line);
    } else {
      var more := SkippedIsBody(below, doc);
      body := Body([line] + more.lines, more.last);
      MoreLines(src, doc, line, more);
    }
  }

  lemma MoreLines(src: string, doc: HereDoc, line: string, more: Body)
    requires var nl := IndexOf(src, '\n'); nl < |src| && line == src[..nl] && !Ends(line, doc)
    requires SkipDoc(Below(src), doc).Some? && BodyOf(more, doc)
    requires var rest := SkipDoc(Below(src), doc).value;
             Below(src) == BodyText(more) + rest || (rest == "" && Below(src) + "\n" == BodyText(more))
    ensures var body := Body([line] + more.lines, more.last);
            var rest := SkipDoc(Below(src), doc).value;
            && BodyOf(body, doc)
            && (src == BodyText(body) + rest || (rest == "" && src + "\n" == BodyText(body)))
  {
    SplitFirstLine(src);
    AddLine(line, more);
    var rest := SkipDoc(Below(src), doc).value;
    Regroup(line + "\n", BodyText(more), rest);
    Regroup(line + "\n", Below(src), "\n");
  }

  /** The text below the first line. */
  function Below(src: string): string {
    var nl := IndexOf(src, '\n');
    if nl == |src| then "" else src[nl + 1..]
  }

  lemma SplitFirstLine(src: string)
    ensures var nl := IndexOf(src, '\n');
            if nl == |src| then src[..nl] == src else src == src[..nl] + "\n" + Below(src)
  {
  }

  lemma AddLine(line: string, below: Body)
    ensures BodyText(Body([line] + below.lines, below.last)) == line + "\n" + BodyText(below)
  {
    assert ([line] + below.lines)[1..] == below.lines;
  }

  /** Here-documents are opaque: two scripts that differ only in what their
      here-documents say before the delimiter lines have the same commands. */
  lemma HereDocsAreOpaque(script: string, bodies: seq<Body>, others: seq<Body>, rest: string)
    requires Parse(script).Some?
    requires BodiesOf(bodies, OpenDocs(script)) && BodiesOf(others, OpenDocs(script))
    ensures Parse(script + "\n" + (BodiesText(bodies) + rest))
         == Parse(script + "\n" + (BodiesText(others) + rest))
         == Prepend(Parse(script).value, Parse(rest))
  {
    ScriptThenText(script, BodiesText(bodies) + rest);
    ScriptThenText(script, BodiesText(others) + rest);
    SkipsBodies(bodies, OpenDocs(script), rest);
    SkipsBodies(others, OpenDocs(script), rest);
  }

  /** A document whose delimiter line never comes makes the source unreadable. */
  lemma {:induction false} UnendedDoc(lines: seq<string>, last: string, doc: HereDoc)
    requires forall l <- lines + [last] :: '\n' !in l && !Ends(l, doc)
    ensures SkipDoc(Lines(lines) + last, doc) == None
    decreases |lines|
  {
    if lines == [] {
      assert Lines(lines) + last == last;
      assert last in lines + [last];
      IndexOfIsFirst(last, '\n', |last|);
      assert last[..|last|] == last;
    } else {
      var below := Lines(lines[1..]) + last;
      assert Lines(lines) + last == lines[0] + "\n" + below;
      assert lines[0] in lines + [last];
      FirstLine(lines[0], below);
      forall l | l in lines[1..] + [last] ensures l in lines + [last] {}
      UnendedDoc(lines[1..], last, doc);
    }
  }
}
