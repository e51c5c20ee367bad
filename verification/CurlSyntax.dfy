/** What the second parser of src/activity/curl-request-urls.ts reads from the
    words of a curl command, stated on the words still to be read. */
module CurlSyntax {
  import opened Prelude
  import opened ShellSyntax

  datatype Request = Request(url: string, verb: string)

  /** The option tables and the URL parser.  The laws hold for any tables; the
      ones the program uses are `CurlTables`.  `href` stands for the URL class:
      the normalized form of a word it accepts. */
  datatype Rules = Rules(
    noValue: set<string>,
    withValue: set<string>,
    data: set<string>,
    shortNoValue: set<char>,
    href: string -> Option<string>)

  datatype Transfer = Transfer(
    urls: seq<string>,
    explicitMethod: Option<string>,
    hasData: bool,
    hasUpload: bool,
    forceGet: bool,
    head: bool)

  const EMPTY_TRANSFER := Transfer([], None, false, false, false, false)

  /** The variables of the argument loop between two turns. */
  datatype Reader = Reader(requests: seq<Request>, transfer: Transfer, afterOptions: bool)

  const START := Reader([], EMPTY_TRANSFER, false)

  datatype Turn = Refuse | Next(rest: seq<string>, reader: Reader)

  // ----- words

  predicate IsLetter(c: char) {
    'a' <= c <= 'z' || 'A' <= c <= 'Z'
  }

  // The token characters of section 5.6.2 of RFC 9110.
  predicate IsTokenChar(c: char) {
    IsLetter(c) || IsDigit(c) || c in "!#$%&'*+.^_`|~-"
  }

  predicate IsToken(s: string) {
    s != "" && forall i :: 0 <= i < |s| ==> IsTokenChar(s[i])
  }

  function UpperChar(c: char): char {
    if 'a' <= c <= 'z' then (c as int - 32) as char else c
  }

  function Upper(s: string): (u: string)
    ensures |u| == |s|
  {
    seq(|s|, i requires 0 <= i < |s| => UpperChar(s[i]))
  }

  function NormalizeHttpMethod(value: string): Option<string> {
    if IsToken(value) then Some(Upper(value)) else None
  }

  /** `/^https:\/\//i` */
  predicate HasHttpsScheme(word: string) {
    |word| >= 8 && Upper(word[..5]) == "HTTPS" && word[5..8] == "://"
  }

  function LiteralHttpsUrl(rules: Rules, word: string): Option<string> {
    if !HasHttpsScheme(word) then None
    else
      var href := rules.href(word);
      if href == Some("") then None else href
  }

  // ----- transfers

  function EffectiveMethod(t: Transfer): Option<string> {
    if t.explicitMethod.Some? && t.explicitMethod.value != "" then t.explicitMethod
    else if t.head && (t.forceGet || t.hasData || t.hasUpload) then None
    else if t.hasUpload && (t.forceGet || t.hasData) then None
    else if t.head then Some("HEAD")
    else if t.forceGet then Some("GET")
    else if t.hasUpload then Some("PUT")
    else if t.hasData then Some("POST")
    else Some("GET")
  }

  function RequestsFor(urls: seq<string>, verb: string): (requests: seq<Request>)
    ensures |requests| == |urls|
    ensures forall i :: 0 <= i < |urls| ==> requests[i] == Request(urls[i], verb)
  {
    seq(|urls|, i requires 0 <= i < |urls| => Request(urls[i], verb))
  }

  /** Close the current transfer; a transfer needs a URL and one clear method. */
  function FinishTransfer(r: Reader): Option<Reader> {
    var verb := EffectiveMethod(r.transfer);
    if r.transfer.urls == [] || verb.None? then None
    else Some(Reader(r.requests + RequestsFor(r.transfer.urls, verb.value), EMPTY_TRANSFER, false))
  }

  function AddUrl(rules: Rules, word: string, t: Transfer): Option<Transfer> {
    var url := LiteralHttpsUrl(rules, word);
    if url.None? then None else Some(t.(urls := t.urls + [url.value]))
  }

  // ----- long options

  predicate TakesValue(rules: Rules, flag: string) {
    flag in ["--url", "--request", "--upload-file"] || flag in rules.data || flag in rules.withValue
  }

  function ApplyLong(rules: Rules, flag: string, value: string, t: Transfer): Option<Transfer> {
    if flag == "--url" then AddUrl(rules, value, t)
    else if flag == "--request" then
      var verb := NormalizeHttpMethod(value);
      if verb.None? then None else Some(t.(explicitMethod := verb))
    else if flag == "--upload-file" then Some(t.(hasUpload := true))
    else if flag in rules.data then Some(t.(hasData := true))
    else Some(t)
  }

  /** A long option of a flag, an optional value in the same word, and the words after it. */
  function ReadFlag(rules: Rules, flag: string, inlined: Option<string>, after: seq<string>, t: Transfer)
    : Option<(seq<string>, Transfer)>
  {
    if flag == "--get" || flag == "--head" then
      if inlined.Some? then None
      else Some((after, if flag == "--get" then t.(forceGet := true) else t.(head := true)))
    else if flag in rules.noValue then
      if inlined.Some? then None else Some((after, t))
    else if flag == "--config" || !TakesValue(rules, flag) then None
    else
      var value := if inlined.Some? then inlined.value else if after != [] then after[0] else "";
      if value == "" then None
      else
        var applied := ApplyLong(rules, flag, value, t);
        if applied.None? then None
        else Some((if inlined.Some? then after else after[1..], applied.value))
  }

  function ReadLong(rules: Rules, arg: string, after: seq<string>, t: Transfer): Option<(seq<string>, Transfer)> {
    var equalsAt := IndexOf(arg, '=');
    if equalsAt == |arg| then ReadFlag(rules, arg, None, after, t)
    else ReadFlag(rules, arg[..equalsAt], Some(arg[equalsAt + 1..]), after, t)
  }

  // ----- short options

  function ApplyNoValue(flag: char, t: Transfer): Transfer {
    if flag == 'G' then t.(forceGet := true) else if flag == 'I' then t.(head := true) else t
  }

  function ApplyShort(flag: char, value: string, t: Transfer): Option<Transfer> {
    if flag == 'X' then
      var verb := NormalizeHttpMethod(value);
      if verb.None? then None else Some(t.(explicitMethod := verb))
    else if flag == 'd' || flag == 'F' then Some(t.(hasData := true))
    else if flag == 'T' then Some(t.(hasUpload := true))
    else Some(t)
  }

  /** The letters of a short option word; one that takes a value takes what is
      left of the word, or the next word. */
  function ReadShort(rules: Rules, letters: string, after: seq<string>, t: Transfer)
    : Option<(seq<string>, Transfer)>
  {
    if letters == "" then Some((after, t))
    else if letters[0] in rules.shortNoValue then
      ReadShort(rules, letters[1..], after, ApplyNoValue(letters[0], t))
    else if letters[0] == 'K' then None
    else
      var attached := letters[1..];
      var value := if attached != "" then attached else if after != [] then after[0] else "";
      if value == "" then None
      else
        var applied := ApplyShort(letters[0], value, t);
        if applied.None? then None
        else Some((if attached != "" then after else after[1..], applied.value))
  }

  // ----- the argument loop

  function Bare(rules: Rules, arg: string, after: seq<string>, r: Reader): Turn {
    var added := AddUrl(rules, arg, r.transfer);
    if added.None? then Refuse else Next(after, r.(transfer := added.value))
  }

  function Optioned(read: Option<(seq<string>, Transfer)>, r: Reader): Turn {
    if read.None? then Refuse else Next(read.value.0, r.(transfer := read.value.1))
  }

  function ReadArg(rules: Rules, arg: string, after: seq<string>, r: Reader): Turn {
    if r.afterOptions then Bare(rules, arg, after, r)
    else if arg == "--" then Next(after, r.(afterOptions := true))
    else if arg == "--next" then
      var finished := FinishTransfer(r);
      if finished.None? then Refuse else Next(after, finished.value)
    else if StartsWith(arg, "--") then Optioned(ReadLong(rules, arg, after, r.transfer), r)
    else if StartsWith(arg, "-") && arg != "-" then Optioned(ReadShort(rules, arg[1..], after, r.transfer), r)
    else Bare(rules, arg, after, r)
  }

  lemma ReadShortShrinks(rules: Rules, letters: string, after: seq<string>, t: Transfer)
    ensures var read := ReadShort(rules, letters, after, t); read.Some? ==> |read.value.0| <= |after|
    decreases |letters|
  {
  }

  lemma ReadArgShrinks(rules: Rules, arg: string, after: seq<string>, r: Reader)
    ensures var turn := ReadArg(rules, arg, after, r); turn.Next? ==> |turn.rest| <= |after|
  {
    if arg != "" { ReadShortShrinks(rules, arg[1..], after, r.transfer); }
  }

  function Read(rules: Rules, args: seq<string>, r: Reader): Option<Reader>
    decreases |args|
  {
    if args == [] then Some(r)
    else
      ReadArgShrinks(rules, args[0], args[1..], r);
      match ReadArg(rules, args[0], args[1..], r)
      case Refuse => None
      case Next(rest, next) => Read(rules, rest, next)
  }

  /** A transfer still open at the end is closed there, if it has a URL. */
  function Close(end: Option<Reader>): Option<seq<Request>> {
    if end.None? then None
    else if end.value.transfer.urls == [] then Some(end.value.requests)
    else
      var finished := FinishTransfer(end.value);
      if finished.None? then None else Some(finished.value.requests)
  }

  function CurlRequests(rules: Rules, args: seq<string>): Option<seq<Request>> {
    Close(Read(rules, args, START))
  }

  // ----- whole scripts

  predicate IsNameChar(c: char) {
    IsLetter(c) || IsDigit(c) || c == '_'
  }

  /** `/^[A-Za-z_][A-Za-z0-9_]*=/` */
  predicate IsAssignment(word: string) {
    var equalsAt := IndexOf(word, '=');
    && 0 < equalsAt < |word|
    && !IsDigit(word[0])
    && forall i :: 0 <= i < equalsAt ==> IsNameChar(word[i])
  }

  function SkipAssignments(words: seq<string>): (rest: seq<string>)
    ensures |rest| <= |words| && rest == words[|words| - |rest|..]
    ensures rest != [] ==> !IsAssignment(rest[0])
    ensures forall i :: 0 <= i < |words| - |rest| ==> IsAssignment(words[i])
  {
    if words != [] && IsAssignment(words[0]) then SkipAssignments(words[1..]) else words
  }

  /** The arguments of curl, when that is what the command runs. */
  function CurlArgs(words: seq<string>): Option<seq<string>> {
    var named := SkipAssignments(words);
    var run := if named != [] && named[0] == "command" then named[1..] else named;
    if run != [] && run[0] == "curl" then Some(run[1..]) else None
  }

  function CommandRequests(rules: Rules, command: ParsedCommand): Option<seq<Request>> {
    var args := CurlArgs(command.words);
    if args.None? then Some([]) else CurlRequests(rules, args.value)
  }

  function AllRequests(rules: Rules, commands: seq<ParsedCommand>): Option<seq<Request>> {
    if commands == [] then Some([])
    else
      var first := CommandRequests(rules, commands[0]);
      if first.None? then None
      else
        var rest := AllRequests(rules, commands[1..]);
        if rest.None? then None else Some(first.value + rest.value)
  }

  function ExtractCurlRequests(rules: Rules, source: string): Option<seq<Request>> {
    var commands := Parse(source);
    if commands.None? then None else AllRequests(rules, commands.value)
  }
}
