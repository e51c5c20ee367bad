/** The curl argument loops of src/activity/curl-request-urls.ts in their own
    imperative form: a transfer object changed in place, and indexes that jump
    over the values of options. */
module CurlReader {
  import opened Prelude
  import opened CurlSyntax
  import ShellSyntax
  import ShellScanner

  class CurlTransfer {
    var urls: seq<string>
    var explicitMethod: Option<string>
    var hasData: bool
    var hasUpload: bool
    var forceGet: bool
    var head: bool

    function View(): Transfer
      reads this
    {
      Transfer(urls, explicitMethod, hasData, hasUpload, forceGet, head)
    }

    constructor ()
      ensures View() == EMPTY_TRANSFER
    {
      urls, explicitMethod := [], None;
      hasData, hasUpload, forceGet, head := false, false, false, false;
    }

    /** Adds the URL that `word` spells, if it spells one. */
    method PushUrl(rules: Rules, word: string) returns (ok: bool)
      modifies this
      ensures ok == AddUrl(rules, word, old(View())).Some?
      ensures View() == if ok then AddUrl(rules, word, old(View())).value else old(View())
    {
      var url := LiteralHttpsUrl(rules, word);
      if url.None? { return false; }
      urls := urls + [url.value];
      return true;
    }

    /** Records what a long option with a value says. */
    method Apply(rules: Rules, flag: string, value: string) returns (ok: bool)
      modifies this
      ensures ok == ApplyLong(rules, flag, value, old(View())).Some?
      ensures View() == if ok then ApplyLong(rules, flag, value, old(View())).value else old(View())
    {
      if flag == "--url" {
        ok := PushUrl(rules, value);
        return;
      } else if flag == "--request" {
        var verb := NormalizeHttpMethod(value);
        if verb.None? { return false; }
        explicitMethod := verb;
      } else if flag == "--upload-file" {
        hasUpload := true;
      } else if flag in rules.data {
        hasData := true;
      }
      return true;
    }
  }

  /** The outcome of reading one option word, as an index into all the words. */
  ghost predicate ReadTo(next: Option<nat>, args: seq<string>, read: Option<(seq<string>, Transfer)>, view: Transfer) {
    if read.None? then next == None
    else next.Some? && next.value <= |args| && args[next.value..] == read.value.0 && view == read.value.1
  }

  /** The letters of the short option word at `at`. */
  method ApplyShortCurlOptions(rules: Rules, args: seq<string>, at: nat, transfer: CurlTransfer)
    returns (next: Option<nat>)
    requires at < |args| && args[at] != ""
    modifies transfer
    ensures ReadTo(next, args, ReadShort(rules, args[at][1..], args[at + 1..], old(transfer.View())), transfer.View())
  {
    var arg := args[at];
    ghost var after := args[at + 1..];
    var index := 1;
    while index < |arg|
      invariant 1 <= index <= |arg|
      invariant ReadShort(rules, arg[1..], after, old(transfer.View()))
             == ReadShort(rules, arg[index..], after, transfer.View())
    {
      var flag := arg[index];
      assert arg[index..][1..] == arg[index + 1..];
      if flag in rules.shortNoValue {
        if flag == 'G' { transfer.forceGet := true; }
        if flag == 'I' { transfer.head := true; }
        index := index + 1;
        continue;
      }
      if flag == 'K' { return None; }
      var attached := arg[index + 1..];
      var value := if attached != "" then attached else if at + 1 < |args| then args[at + 1] else "";
      if value == "" { return None; }
      if flag == 'X' {
        var verb := NormalizeHttpMethod(value);
        if verb.None? { return None; }
        transfer.explicitMethod := verb;
      } else if flag == 'd' || flag == 'F' {
        transfer.hasData := true;
      } else if flag == 'T' {
        transfer.hasUpload := true;
      }
      return Some(if attached != "" then at + 1 else at + 2);
    }
    assert arg[|arg|..] == "";
    return Some(at + 1);
  }

  /** The long option word at `at`, with its value there or in the next word. */
  method ApplyLongCurlOption(rules: Rules, args: seq<string>, at: nat, transfer: CurlTransfer)
    returns (next: Option<nat>)
    requires at < |args|
    modifies transfer
    ensures ReadTo(next, args, ReadLong(rules, args[at], args[at + 1..], old(transfer.View())), transfer.View())
  {
    var arg := args[at];
    var equalsAt := IndexOf(arg, '=');
    var inlined := equalsAt < |arg|;
    var flag := if inlined then arg[..equalsAt] else arg;
    if flag == "--get" || flag == "--head" {
      if inlined { return None; }
      if flag == "--get" { transfer.forceGet := true; } else { transfer.head := true; }
      return Some(at + 1);
    }
    if flag in rules.noValue {
      if inlined { return None; }
      return Some(at + 1);
    }
    if flag == "--config" || !TakesValue(rules, flag) { return None; }
    var value := if inlined then arg[equalsAt + 1..] else if at + 1 < |args| then args[at + 1] else "";
    if value == "" { return None; }
    var ok := transfer.Apply(rules, flag, value);
    if !ok { return None; }
    return Some(if inlined then at + 1 else at + 2);
  }

  /** The whole argument loop: it computes `CurlRequests`. */
  method CurlRequestsFromArgs(rules: Rules, args: seq<string>) returns (r: Option<seq<Request>>)
    ensures r == CurlRequests(rules, args)
  {
    var requests: seq<Request> := [];
    var transfer := new CurlTransfer();
    var afterOptions := false;
    var index := 0;
    while index < |args|
      invariant index <= |args| && fresh(transfer)
      invariant Read(rules, args, START)
             == Read(rules, args[index..], Reader(requests, transfer.View(), afterOptions))
      decreases |args| - index
    {
      var arg := args[index];
      ghost var reader := Reader(requests, transfer.View(), afterOptions);
      ghost var turn := ReadArg(rules, arg, args[index + 1..], reader);
      ReadArgShrinks(rules, arg, args[index + 1..], reader);
      assert args[index..][0] == arg && args[index..][1..] == args[index + 1..];
      assert Read(rules, args[index..], reader)
          == if turn.Refuse? then None else Read(rules, turn.rest, turn.reader);
      if afterOptions {
        var ok := transfer.PushUrl(rules, arg);
        if !ok { return None; }
        index := index + 1;
      } else if arg == "--" {
        afterOptions := true;
        index := index + 1;
      } else if arg == "--next" {
        var verb := EffectiveMethod(transfer.View());
        if |transfer.urls| == 0 || verb.None? { return None; }
        requests := requests + RequestsFor(transfer.urls, verb.value);
        transfer := new CurlTransfer();
        index := index + 1;
      } else if StartsWith(arg, "--") {
        var next := ApplyLongCurlOption(rules, args, index, transfer);
        if next.None? { return None; }
        index := next.value;
      } else if StartsWith(arg, "-") && arg != "-" {
        var next := ApplyShortCurlOptions(rules, args, index, transfer);
        if next.None? { return None; }
        index := next.value;
      } else {
        var ok := transfer.PushUrl(rules, arg);
        if !ok { return None; }
        index := index + 1;
      }
    }
    if |transfer.urls| > 0 {
      var verb := EffectiveMethod(transfer.View());
      if verb.None? { return None; }
      requests := requests + RequestsFor(transfer.urls, verb.value);
    }
    return Some(requests);
  }

  /** Where the leading assignments of a command end. */
  method CommandIndex(words: seq<string>) returns (at: nat)
    ensures at <= |words| && SkipAssignments(words) == words[at..]
  {
    at := 0;
    while at < |words| && IsAssignment(words[at])
      invariant at <= |words|
      invariant SkipAssignments(words) == SkipAssignments(words[at..])
    {
      assert words[at..][1..] == words[at + 1..];
      at := at + 1;
    }
  }

  /** What one command of a script requests, if it runs curl. */
  method RequestsOfCommand(rules: Rules, command: ShellSyntax.ParsedCommand) returns (r: Option<seq<Request>>)
    ensures r == CommandRequests(rules, command)
  {
    var words := command.words;
    var at := CommandIndex(words);
    ghost var named := words[at..];
    if at < |words| && words[at] == "command" {
      assert named[1..] == words[at + 1..];
      at := at + 1;
    }
    ghost var run := words[at..];
    if at < |words| && words[at] == "curl" {
      assert run[1..] == words[at + 1..];
      r := CurlRequestsFromArgs(rules, words[at + 1..]);
    } else {
      r := Some([]);
    }
  }

  /** The requests of every curl command of a script: it computes the
      specification, and gives up with the first command it cannot read. */
  method ExtractCurlRequests(rules: Rules, source: string) returns (r: Option<seq<Request>>)
    ensures r == CurlSyntax.ExtractCurlRequests(rules, source)
  {
    var parsed := ShellScanner.ParseShellCommands(source);
    if parsed.None? { return None; }
    var commands := parsed.value;
    var requests: seq<Request> := [];
    assert commands[0..] == commands;
    JoinedToNothing(AllRequests(rules, commands));
    for i := 0 to |commands|
      invariant AllRequests(rules, commands) == Joined(requests, AllRequests(rules, commands[i..]))
    {
      var found := RequestsOfCommand(rules, commands[i]);
      JoinOne(rules, commands, i, requests);
      if found.None? { return None; }
      requests := requests + found.value;
    }
    assert commands[|commands|..] == [] && requests + [] == requests;
    return Some(requests);
  }

  ghost function Joined(earlier: seq<Request>, later: Option<seq<Request>>): Option<seq<Request>> {
    if later.None? then None else Some(earlier + later.value)
  }

  lemma JoinOne(rules: Rules, commands: seq<ShellSyntax.ParsedCommand>, i: nat, requests: seq<Request>)
    requires i < |commands|
    ensures Joined(requests, AllRequests(rules, commands[i..])) ==
            match CommandRequests(rules, commands[i])
            case None => None
            case Some(found) => Joined(requests + found, AllRequests(rules, commands[i + 1..]))
  {
    var rest := AllRequests(rules, commands[i + 1..]);
    assert commands[i..][0] == commands[i] && commands[i..][1..] == commands[i + 1..];
    var found := CommandRequests(rules, commands[i]);
    if found.Some? && rest.Some? {
      assert requests + (found.value + rest.value) == requests + found.value + rest.value;
    }
  }

  lemma JoinedToNothing(later: Option<seq<Request>>)
    ensures Joined([], later) == later
  {
    if later.Some? { assert [] + later.value == later.value; }
  }
}
