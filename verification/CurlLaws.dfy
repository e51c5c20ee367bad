/** Laws of reading curl commands: transfers concatenate at --next, the two
    spellings of an option mean the same, and whole scripts compose. */
module CurlLaws {
  import opened Prelude
  import opened ShellSyntax
  import opened CurlSyntax
  import ShellLaws
  import ShellQuoting

  // ----- words that come later do not change how a word is read

  lemma {:induction false} ShortBefore(
      rules: Rules, letters: string, after: seq<string>, t: Transfer, tail: seq<string>)
    requires ReadShort(rules, letters, after, t).Some?
    ensures var read := ReadShort(rules, letters, after, t).value;
            ReadShort(rules, letters, after + tail, t) == Some((read.0 + tail, read.1))
    decreases |letters|
  {
    if letters != "" {
      if letters[0] in rules.shortNoValue {
        ShortBefore(rules, letters[1..], after, ApplyNoValue(letters[0], t), tail);
      } else if letters[1..] == "" {
        assert (after + tail)[1..] == after[1..] + tail;
      }
    }
  }

  lemma FlagBefore(
      rules: Rules, flag: string, inlined: Option<string>, after: seq<string>, t: Transfer, tail: seq<string>)
    requires ReadFlag(rules, flag, inlined, after, t).Some?
    ensures var read := ReadFlag(rules, flag, inlined, after, t).value;
            ReadFlag(rules, flag, inlined, after + tail, t) == Some((read.0 + tail, read.1))
  {
    if after != [] { assert (after + tail)[1..] == after[1..] + tail; }
  }

  lemma ArgBefore(rules: Rules, arg: string, after: seq<string>, r: Reader, tail: seq<string>)
    requires ReadArg(rules, arg, after, r).Next?
    ensures var turn := ReadArg(rules, arg, after, r);
            ReadArg(rules, arg, after + tail, r) == Next(turn.rest + tail, turn.reader)
  {
    if r.afterOptions || arg == "--" || arg == "--next" {
    } else if StartsWith(arg, "--") {
      var equalsAt := IndexOf(arg, '=');
      if equalsAt == |arg| {
        FlagBefore(rules, arg, None, after, r.transfer, tail);
      } else {
        FlagBefore(rules, arg[..equalsAt], Some(arg[equalsAt + 1..]), after, r.transfer, tail);
      }
    } else if StartsWith(arg, "-") && arg != "-" {
      ShortBefore(rules, arg[1..], after, r.transfer, tail);
    }
  }

  lemma {:induction false} ReadBefore(rules: Rules, args: seq<string>, r: Reader, tail: seq<string>)
    requires Read(rules, args, r).Some?
    ensures Read(rules, args + tail, r) == Read(rules, tail, Read(rules, args, r).value)
    decreases |args|
  {
    if args == [] {
      assert args + tail == tail;
    } else {
      var turn := ReadArg(rules, args[0], args[1..], r);
      ReadArgShrinks(rules, args[0], args[1..], r);
      ArgBefore(rules, args[0], args[1..], r, tail);
      assert (args + tail)[0] == args[0] && (args + tail)[1..] == args[1..] + tail;
      ReadBefore(rules, turn.rest, turn.reader, tail);
    }
  }

  lemma ReadPast(rules: Rules, before: seq<string>, args: seq<string>, more: seq<string>)
    requires Read(rules, before, START).Some?
    ensures Read(rules, before + args + more, START) == Read(rules, args + more, Read(rules, before, START).value)
  {
    Regroup(before, args, more);
    ReadBefore(rules, before, START, args + more);
  }

  // ----- requests already made do not change how the rest is read

  function After(earlier: seq<Request>, r: Reader): Reader {
    r.(requests := earlier + r.requests)
  }

  lemma FinishAfter(earlier: seq<Request>, r: Reader)
    ensures FinishTransfer(After(earlier, r)) ==
            match FinishTransfer(r)
            case None => None
            case Some(next) => Some(After(earlier, next))
  {
    var verb := EffectiveMethod(r.transfer);
    if verb.Some? {
      var more := RequestsFor(r.transfer.urls, verb.value);
      assert earlier + (r.requests + more) == earlier + r.requests + more;
    }
  }

  lemma ArgAfter(earlier: seq<Request>, rules: Rules, arg: string, after: seq<string>, r: Reader)
    ensures ReadArg(rules, arg, after, After(earlier, r)) ==
            match ReadArg(rules, arg, after, r)
            case Refuse => Refuse
            case Next(rest, next) => Next(rest, After(earlier, next))
  {
    FinishAfter(earlier, r);
  }

  lemma {:induction false} ReadAfter(earlier: seq<Request>, rules: Rules, args: seq<string>, r: Reader)
    ensures CurlSyntax.Close(Read(rules, args, After(earlier, r)))
         == ShellLaws.Prepend(earlier, CurlSyntax.Close(Read(rules, args, r)))
    decreases |args|
  {
    if args == [] {
      FinishAfter(earlier, r);
    } else {
      ArgAfter(earlier, rules, args[0], args[1..], r);
      ReadArgShrinks(rules, args[0], args[1..], r);
      var turn := ReadArg(rules, args[0], args[1..], r);
      if turn.Next? { ReadAfter(earlier, rules, turn.rest, turn.reader); }
    }
  }

  // ----- the laws

  /** --next cuts an argument list into independent transfers: it is accepted
      exactly outside -- and after a URL, and then both sides are read alone. */
  lemma NextConcatenates(rules: Rules, args: seq<string>, more: seq<string>)
    requires CurlRequests(rules, args).Some?
    ensures var r := Read(rules, args, START).value;
            CurlRequests(rules, args + ["--next"] + more) ==
              if r.afterOptions || r.transfer.urls == [] then None
              else ShellLaws.Prepend(CurlRequests(rules, args).value, CurlRequests(rules, more))
  {
    var r := Read(rules, args, START).value;
    var tail := ["--next"] + more;
    assert args + ["--next"] + more == args + tail;
    assert tail[0] == "--next" && tail[1..] == more;
    ReadBefore(rules, args, START, tail);
    if !r.afterOptions && r.transfer.urls != [] {
      var done := FinishTransfer(r).value.requests;
      assert FinishTransfer(r).value == After(done, START);
      ReadAfter(done, rules, more, START);
    }
  }

  /** `--flag=value` and `--flag value` are read alike, at any position where an
      option can stand, for every flag that takes a value. */
  lemma InlineValueIsNextWord(rules: Rules, before: seq<string>, flag: string, value: string, more: seq<string>)
    requires var r := Read(rules, before, START); r.Some? && !r.value.afterOptions
    requires StartsWith(flag, "--") && '=' !in flag && flag !in ["--", "--next", "--get", "--head"]
    requires flag !in rules.noValue
    ensures CurlRequests(rules, before + [flag + "=" + value] + more)
         == CurlRequests(rules, before + [flag, value] + more)
  {
    var r := Read(rules, before, START).value;
    ReadPast(rules, before, [flag + "=" + value], more);
    ReadPast(rules, before, [flag, value], more);
    InlineReadsAlike(rules, flag, value, more, r);
    TwoWords(flag, value, more);
  }

  lemma InlineReadsAlike(rules: Rules, flag: string, value: string, more: seq<string>, r: Reader)
    requires !r.afterOptions && StartsWith(flag, "--") && '=' !in flag && flag !in ["--", "--next", "--get", "--head"]
    requires flag !in rules.noValue
    ensures Read(rules, [flag + "=" + value] + more, r) == Read(rules, [flag] + ([value] + more), r)
  {
    var arg := flag + "=" + value;
    SplitAtEquals(flag, value);
    assert ([arg] + more)[1..] == more && ([flag] + ([value] + more))[1..] == [value] + more;
    assert ReadArg(rules, arg, more, r) == ReadArg(rules, flag, [value] + more, r);
  }

  lemma SplitAtEquals(flag: string, value: string)
    requires '=' !in flag
    ensures var arg := flag + "=" + value;
            IndexOf(arg, '=') == |flag| && arg[..|flag|] == flag && arg[|flag| + 1..] == value
    ensures IndexOf(flag, '=') == |flag|
  {
    var arg := flag + "=" + value;
    assert forall k :: 0 <= k < |flag| ==> arg[k] == flag[k];
    IndexOfIsFirst(arg, '=', |flag|);
    IndexOfIsFirst(flag, '=', |flag|);
  }

  /** A flag without a value never accepts one in the same word. */
  lemma NoValueRefusesInline(rules: Rules, before: seq<string>, flag: string, value: string, more: seq<string>)
    requires var r := Read(rules, before, START); r.Some? && !r.value.afterOptions
    requires StartsWith(flag, "--") && '=' !in flag
    requires flag in rules.noValue || flag in ["--get", "--head"]
    ensures CurlRequests(rules, before + [flag + "=" + value] + more) == None
  {
    var r := Read(rules, before, START).value;
    var arg := flag + "=" + value;
    ReadPast(rules, before, [arg], more);
    SplitAtEquals(flag, value);
    assert ([arg] + more)[1..] == more;
    assert '=' in arg by { assert arg[|flag|] == '='; }
  }

  /** A short option's value reads alike in its word and in the next one. */
  lemma AttachedValueIsNextWord(rules: Rules, letter: char, value: string, more: seq<string>, t: Transfer)
    requires letter !in rules.shortNoValue && value != ""
    ensures ReadShort(rules, [letter] + value, more, t) == ReadShort(rules, [letter], [value] + more, t)
  {
    assert ([letter] + value)[1..] == value;
    assert ([value] + more)[1..] == more;
  }

  /** The long options that each short letter spells. */
  function LongOf(letter: char): string {
    match letter
    case 'X' => "--request"
    case 'T' => "--upload-file"
    case 'd' => "--data"
    case 'F' => "--form"
    case 'G' => "--get"
    case 'I' => "--head"
    case _ => ""
  }

  /** The tables have these options where both spellings expect them. */
  predicate PairsOptions(rules: Rules) {
    && LongOf('d') in rules.data && LongOf('F') in rules.data
    && LongOf('X') !in rules.data && LongOf('T') !in rules.data
    && (forall letter <- "XTdFGI" :: LongOf(letter) !in rules.noValue)
    && (forall letter <- "XTdFGI" :: letter in rules.shortNoValue <==> letter == 'G' || letter == 'I')
  }

  /** Short and long spellings of an option that shapes the request change a
      transfer alike. */
  lemma ShortSpellsLong(rules: Rules, letter: char, more: seq<string>, t: Transfer)
    requires PairsOptions(rules) && letter in "XTdFGI"
    ensures ReadShort(rules, [letter], more, t) == ReadFlag(rules, LongOf(letter), None, more, t)
  {
    assert [letter][1..] == "";
  }

  /** What reading a short option and the words after it comes to. */
  lemma ReadsShortOption(rules: Rules, letters: string, more: seq<string>, r: Reader)
    requires letters != "" && letters[0] != '-' && !r.afterOptions
    ensures Read(rules, ["-" + letters] + more, r) ==
            match ReadShort(rules, letters, more, r.transfer)
            case None => None
            case Some(read) => Read(rules, read.0, r.(transfer := read.1))
  {
    var arg := "-" + letters;
    assert arg[1..] == letters && arg[1] == letters[0];
    assert StartsWith(arg, "-") && !StartsWith(arg, "--") && arg != "-";
    assert ([arg] + more)[1..] == more;
  }

  /** Letters that take no value may be split off the front of a short option,
      as long as what remains is a short option itself. */
  lemma ClusterSplits(rules: Rules, before: seq<string>, cluster: string, rest: string, more: seq<string>)
    requires var r := Read(rules, before, START); r.Some? && !r.value.afterOptions
    requires cluster != "" && (forall c <- cluster :: c in rules.shortNoValue) && '-' !in rules.shortNoValue
    requires rest != "" && rest[0] != '-'
    ensures CurlRequests(rules, before + ["-" + cluster + rest] + more)
         == CurlRequests(rules, before + ["-" + cluster, "-" + rest] + more)
  {
    var r := Read(rules, before, START).value;
    var joined, first, second := "-" + cluster + rest, "-" + cluster, "-" + rest;
    ReadPast(rules, before, [joined], more);
    ReadPast(rules, before, [first, second], more);
    Regroup("-", cluster, rest);
    ClusterThenRest(rules, cluster, rest, more, r);
    TwoWords(first, second, more);
    assert Read(rules, [joined] + more, r) == Read(rules, [first, second] + more, r);
  }

  lemma TwoWords(first: string, second: string, more: seq<string>)
    ensures [first, second] + more == [first] + ([second] + more)
  {
  }

  lemma ClusterThenRest(rules: Rules, cluster: string, rest: string, more: seq<string>, r: Reader)
    requires cluster != "" && (forall c <- cluster :: c in rules.shortNoValue) && '-' !in rules.shortNoValue
    requires rest != "" && rest[0] != '-' && !r.afterOptions
    ensures Read(rules, ["-" + (cluster + rest)] + more, r) == Read(rules, ["-" + cluster] + (["-" + rest] + more), r)
  {
    assert cluster[0] in cluster;
    ClusterReads(rules, cluster, rest, more, r.transfer);
    ClusterReads(rules, cluster, "", ["-" + rest] + more, r.transfer);
    assert cluster + "" == cluster;
    ReadsShortOption(rules, cluster + rest, more, r);
    ReadsShortOption(rules, cluster, ["-" + rest] + more, r);
    ReadsShortOption(rules, rest, more, r.(transfer := AfterCluster(cluster, r.transfer)));
  }

  function AfterCluster(cluster: string, t: Transfer): Transfer {
    if cluster == "" then t else AfterCluster(cluster[1..], ApplyNoValue(cluster[0], t))
  }

  lemma {:induction false} ClusterReads(rules: Rules, cluster: string, rest: string, after: seq<string>, t: Transfer)
    requires forall c <- cluster :: c in rules.shortNoValue
    ensures ReadShort(rules, cluster + rest, after, t) == ReadShort(rules, rest, after, AfterCluster(cluster, t))
    decreases |cluster|
  {
    if cluster == "" {
      assert cluster + rest == rest;
    } else {
      assert (cluster + rest)[1..] == cluster[1..] + rest;
      ClusterReads(rules, cluster[1..], rest, after, ApplyNoValue(cluster[0], t));
    }
  }

  /** How many kinds of request the flags of a transfer ask for: a HEAD, an
      upload, or a body or query. */
  function Kinds(t: Transfer): nat {
    (if t.head then 1 else 0) + (if t.hasUpload then 1 else 0) + (if t.forceGet || t.hasData then 1 else 0)
  }

  /** The method is the explicit one if there is one; else it is undecided
      exactly when the flags ask for two kinds of request, and each kind alone
      has its own method. */
  lemma MethodOfTransfer(t: Transfer)
    requires t.explicitMethod != Some("")
    ensures t.explicitMethod.Some? ==> EffectiveMethod(t) == t.explicitMethod
    ensures t.explicitMethod.None? ==> (EffectiveMethod(t).None? <==> Kinds(t) > 1)
    ensures t.explicitMethod.None? && Kinds(t) <= 1 ==>
              && (EffectiveMethod(t) == Some("HEAD") <==> t.head)
              && (EffectiveMethod(t) == Some("PUT") <==> t.hasUpload)
              && (EffectiveMethod(t) == Some("POST") <==> t.hasData && !t.forceGet)
              && (EffectiveMethod(t) == Some("GET") <==> t.forceGet || Kinds(t) == 0)
  {
  }

  // ----- whole scripts

  lemma {:induction false} AllRequestsOfBoth(rules: Rules, first: seq<ParsedCommand>, second: seq<ParsedCommand>)
    ensures AllRequests(rules, first + second) ==
            match AllRequests(rules, first)
            case None => None
            case Some(requests) => ShellLaws.Prepend(requests, AllRequests(rules, second))
    decreases |first|
  {
    var later := AllRequests(rules, second);
    if first == [] {
      assert first + second == second;
      if later.Some? { assert [] + later.value == later.value; }
    } else {
      var more := first[1..];
      assert (first + second)[1..] == more + second;
      AllRequestsOfBoth(rules, more, second);
      var one, rest := CommandRequests(rules, first[0]), AllRequests(rules, more);
      if one.Some? && rest.Some? && later.Some? {
        Regroup(one.value, rest.value, later.value);
      }
    }
  }

  /** The requests of two scripts joined by a newline are the requests of the
      one and then of the other. */
  lemma RequestsCompose(rules: Rules, first: string, second: string)
    requires ExtractCurlRequests(rules, first).Some? && OpenDocs(first) == []
    ensures ExtractCurlRequests(rules, first + "\n" + second)
         == ShellLaws.Prepend(ExtractCurlRequests(rules, first).value, ExtractCurlRequests(rules, second))
  {
    ShellLaws.ScriptsCompose(first, second);
    if Parse(second).Some? {
      AllRequestsOfBoth(rules, Parse(first).value, Parse(second).value);
    }
  }

  /** Quoting any arguments and extracting gives what curl's arguments ask for. */
  lemma QuotedCurlCommand(rules: Rules, args: seq<string>)
    ensures ExtractCurlRequests(rules, ShellQuoting.ItemsText(ShellQuoting.PosixQuoted(["curl"] + args)))
         == CurlRequests(rules, args)
  {
    var words := ["curl"] + args;
    ShellQuoting.PosixRoundTrip(words);
    CurlIsCalled(args);
    OneCommand(rules, ParsedCommand(words, false));
  }

  lemma CurlIsCalled(args: seq<string>)
    ensures CurlArgs(["curl"] + args) == Some(args)
  {
    var words := ["curl"] + args;
    assert words[1..] == args;
    assert IndexOf("curl", '=') == 4 by { IndexOfIsFirst("curl", '=', 4); }
  }

  lemma OneCommand(rules: Rules, command: ParsedCommand)
    ensures AllRequests(rules, [command]) == CommandRequests(rules, command)
  {
    var r := CommandRequests(rules, command);
    if r.Some? { assert r.value + [] == r.value; }
  }

  // ----- the tables of the program

  const LONG_NO_VALUE: set<string> := {
    "--compressed", "--fail", "--fail-with-body", "--globoff", "--http1.0", "--http1.1", "--http2",
    "--http2-prior-knowledge", "--http3", "--include", "--insecure", "--ipv4", "--ipv6", "--location",
    "--location-trusted", "--no-buffer", "--no-progress-meter", "--parallel", "--parallel-immediate",
    "--path-as-is", "--remote-header-name", "--remote-name", "--retry-all-errors", "--retry-connrefused",
    "--show-error", "--silent", "--ssl-no-revoke", "--verbose" }

  const LONG_WITH_VALUE: set<string> := {
    "--cacert", "--capath", "--cert", "--cert-type", "--ciphers", "--connect-timeout", "--connect-to",
    "--cookie", "--cookie-jar", "--crlfile", "--doh-url", "--dump-header", "--etag-compare", "--etag-save",
    "--expect100-timeout", "--header", "--interface", "--key", "--key-type", "--limit-rate", "--local-port",
    "--max-filesize", "--max-redirs", "--max-time", "--netrc-file", "--oauth2-bearer", "--output", "--pass",
    "--pinnedpubkey", "--proxy", "--proxy-cacert", "--proxy-capath", "--proxy-cert", "--proxy-header",
    "--proxy-key", "--proxy-pass", "--proxy-user", "--pubkey", "--quote", "--range", "--referer",
    "--request-target", "--resolve", "--retry", "--retry-delay", "--retry-max-time", "--service-name",
    "--speed-limit", "--speed-time", "--stderr", "--telnet-option", "--tftp-blksize", "--time-cond",
    "--tls-max", "--unix-socket", "--user", "--user-agent", "--write-out" }

  const LONG_DATA: set<string> := {
    "--data", "--data-ascii", "--data-binary", "--data-raw", "--data-urlencode", "--form", "--form-string",
    "--json" }

  const SHORT_NO_VALUE: set<char> := {
    '0', '1', '2', '3', '4', '6', 'a', 'B', 'f', 'g', 'G', 'h', 'I', 'i', 'J', 'j',
    'k', 'l', 'L', 'M', 'n', 'N', 'O', 'q', 'R', 's', 'S', 'v', 'V', 'Z', '#' }

  /** The option tables of the program, with any URL parser. */
  function CurlTables(href: string -> Option<string>): Rules {
    Rules(LONG_NO_VALUE, LONG_WITH_VALUE, LONG_DATA, SHORT_NO_VALUE, href)
  }

  /** The laws above apply to these tables. */
  lemma TablesFit(href: string -> Option<string>)
    ensures '-' !in CurlTables(href).shortNoValue && PairsOptions(CurlTables(href))
  {
    LongOptionsFit();
    ShortOptionsFit();
  }

  lemma ShortOptionsFit()
    ensures '-' !in SHORT_NO_VALUE
    ensures forall letter <- "XTdFGI" :: letter in SHORT_NO_VALUE <==> letter == 'G' || letter == 'I'
  {
  }

  lemma LongOptionsFit()
    ensures LongOf('d') in LONG_DATA && LongOf('F') in LONG_DATA
    ensures LongOf('X') !in LONG_DATA && LongOf('T') !in LONG_DATA
    ensures forall letter <- "XTdFGI" :: LongOf(letter) !in LONG_NO_VALUE
  {
  }
}
