/** Writing the options of a curl command in any of their spellings, and the law
    that reading them asks for exactly what they mean; and what is refused. */
module CurlSpelling {
  import opened Prelude
  import opened CurlSyntax
  import opened ShellSyntax
  import CurlLaws

  // ----- the printer

  /** One option or URL as it may be written.  Letters without a value may
      stand together, also before one that takes a value. */
  datatype Item =
    | Url(word: string)
    | Flag(flag: string)
    | Valued(flag: string, value: string, inlined: bool)
    | Letters(cluster: string)
    | LettersValued(cluster: string, letter: char, value: string, attached: bool)

  function ItemWords(i: Item): seq<string> {
    match i
    case Url(word) => [word]
    case Flag(flag) => [flag]
    case Valued(flag, value, inlined) => if inlined then [flag + "=" + value] else [flag, value]
    case Letters(cluster) => ["-" + cluster]
    case LettersValued(cluster, letter, value, attached) =>
      if attached then ["-" + (cluster + ([letter] + value))] else ["-" + (cluster + [letter]), value]
  }

  function Words(items: seq<Item>): seq<string> {
    if items == [] then [] else ItemWords(items[0]) + Words(items[1..])
  }

  /** The words that name a method: tokens of section 5.6.2 of RFC 9110. */
  predicate NamesMethod(word: string) {
    word != "" && forall c <- word :: c in LOWER || c in UPPER || c in DIGITS || c in "!#$%&'*+-.^_`|~"
  }

  /** An absolute URL with the scheme https, in letters of any case, that the URL parser accepts. */
  predicate NamesUrl(rules: Rules, word: string) {
    && |word| >= 8 && word[0] in "hH" && word[1] in "tT" && word[2] in "tT" && word[3] in "pP" && word[4] in "sS"
    && word[5] == ':' && word[6] == '/' && word[7] == '/'
    && rules.href(word) != None && rules.href(word) != Some("")
  }

  predicate ValidCluster(rules: Rules, cluster: string) {
    forall c <- cluster :: c in rules.shortNoValue
  }

  predicate Known(rules: Rules, flag: string) {
    flag in ["--url", "--request", "--upload-file"] || flag in rules.data || flag in rules.withValue
  }

  predicate ValidItem(rules: Rules, i: Item) {
    match i
    case Url(word) => NamesUrl(rules, word)
    case Flag(flag) =>
      && (flag in ["--get", "--head"] || flag in rules.noValue)
      && StartsWith(flag, "--") && flag !in ["--", "--next"] && '=' !in flag
    case Valued(flag, value, _) =>
      && Known(rules, flag) && flag !in rules.noValue && flag !in ["--get", "--head", "--config"]
      && StartsWith(flag, "--") && flag !in ["--", "--next"] && '=' !in flag
      && value != "" && (flag == "--url" ==> NamesUrl(rules, value)) && (flag == "--request" ==> NamesMethod(value))
    case Letters(cluster) => cluster != "" && cluster[0] != '-' && ValidCluster(rules, cluster)
    case LettersValued(cluster, letter, value, _) =>
      && ValidCluster(rules, cluster) && letter !in rules.shortNoValue && letter != 'K'
      && (cluster + [letter])[0] != '-' && value != "" && (letter == 'X' ==> NamesMethod(value))
  }

  // ----- what the options mean

  function Capital(c: char): char {
    if c in LOWER then UPPER[IndexOf(LOWER, c)] else c
  }

  function Capitals(s: string): string {
    seq(|s|, i requires 0 <= i < |s| => Capital(s[i]))
  }

  function Urls(rules: Rules, items: seq<Item>): seq<string> {
    if items == [] then []
    else
      var i := items[0];
      var first :=
        if i.Url? then rules.href(i.word)
        else if i.Valued? && i.flag == "--url" then rules.href(i.value)
        else None;
      (if first.Some? then [first.value] else []) + Urls(rules, items[1..])
  }

  function Names(i: Item): Option<string> {
    if (i.Valued? && i.flag == "--request") || (i.LettersValued? && i.letter == 'X') then Some(Capitals(i.value))
    else None
  }

  /** The method that the last --request or -X names. */
  function Named(items: seq<Item>): Option<string> {
    if items == [] then None
    else
      var later := Named(items[1..]);
      if later.Some? then later else Names(items[0])
  }

  predicate WantsHead(i: Item) {
    match i
    case Flag(flag) => flag == "--head"
    case Letters(cluster) => 'I' in cluster
    case LettersValued(cluster, _, _, _) => 'I' in cluster
    case _ => false
  }

  predicate WantsGet(i: Item) {
    match i
    case Flag(flag) => flag == "--get"
    case Letters(cluster) => 'G' in cluster
    case LettersValued(cluster, _, _, _) => 'G' in cluster
    case _ => false
  }

  predicate Uploads(i: Item) {
    (i.Valued? && i.flag == "--upload-file") || (i.LettersValued? && i.letter == 'T')
  }

  predicate SendsData(rules: Rules, i: Item) {
    || (i.Valued? && i.flag in rules.data && i.flag !in ["--url", "--request", "--upload-file"])
    || (i.LettersValued? && (i.letter == 'd' || i.letter == 'F'))
  }

  /** The method that is named, or the one that goes with what is wanted,
      unless two kinds of request are. */
  function Chosen(named: Option<string>, head: bool, get: bool, put: bool, post: bool): Option<string> {
    if named.Some? then named
    else if head && !put && !get && !post then Some("HEAD")
    else if put && !head && !get && !post then Some("PUT")
    else if post && !head && !put && !get then Some("POST")
    else if !head && !put then Some("GET")
    else None
  }

  function Verb(rules: Rules, items: seq<Item>): Option<string> {
    Chosen(Named(items), exists i <- items :: WantsHead(i), exists i <- items :: WantsGet(i),
           exists i <- items :: Uploads(i), exists i <- items :: SendsData(rules, i))
  }

  // ----- reading one item

  lemma CapitalIsUpper(c: char)
    ensures Capital(c) == UpperChar(c)
  {
    LowerIsListed(c);
    if c in LOWER { UpperOfLower(IndexOf(LOWER, c)); }
  }

  lemma UpperOfLower(k: nat)
    requires k < 26
    ensures UPPER[k] as int == LOWER[k] as int - 32
  {
    assert forall k :: 0 <= k < 26 ==> LOWER[k] as int == 97 + k && UPPER[k] as int == 65 + k;
  }

  lemma CapitalsAreUpper(s: string)
    ensures Capitals(s) == Upper(s)
  {
    forall i | 0 <= i < |s| ensures Capitals(s)[i] == Upper(s)[i] { CapitalIsUpper(s[i]); }
  }

  lemma LetterIsListed(c: char)
    ensures IsLetter(c) <==> c in LOWER || c in UPPER
    ensures IsDigit(c) <==> c in DIGITS
  {
    LowerIsListed(c);
    UpperIsListed(c);
    DigitIsListed(c);
  }

  lemma TokenCharIsListed(c: char)
    ensures IsTokenChar(c) <==> c in LOWER || c in UPPER || c in DIGITS || c in "!#$%&'*+-.^_`|~"
  {
    LetterIsListed(c);
  }

  lemma MethodIsNormalized(word: string)
    ensures NormalizeHttpMethod(word) == if NamesMethod(word) then Some(Capitals(word)) else None
  {
    CapitalsAreUpper(word);
    if IsToken(word) {
      forall c | c in word ensures c in LOWER || c in UPPER || c in DIGITS || c in "!#$%&'*+-.^_`|~" {
        TokenCharIsListed(c);
      }
    } else if word != "" {
      var i :| 0 <= i < |word| && !IsTokenChar(word[i]);
      TokenCharIsListed(word[i]);
    }
  }

  lemma UrlIsLiteral(rules: Rules, word: string)
    ensures LiteralHttpsUrl(rules, word) == if NamesUrl(rules, word) then rules.href(word) else None
  {
    if |word| >= 8 {
      var u := Upper(word[..5]);
      assert u == "HTTPS" <==> u[0] == 'H' && u[1] == 'T' && u[2] == 'T' && u[3] == 'P' && u[4] == 'S';
      assert word[5..8] == "://" <==> word[5] == ':' && word[6] == '/' && word[7] == '/' by {
        assert word[5..8][0] == word[5] && word[5..8][1] == word[6] && word[5..8][2] == word[7];
      }
    }
  }

  /** The transfer once an item has been read into it. */
  function Taken(rules: Rules, t: Transfer, i: Item): Transfer {
    Transfer(t.urls + Urls(rules, [i]), if Names(i).Some? then Names(i) else t.explicitMethod,
             t.hasData || SendsData(rules, i), t.hasUpload || Uploads(i), t.forceGet || WantsGet(i),
             t.head || WantsHead(i))
  }

  lemma {:induction false} ReadsCluster(rules: Rules, cluster: string, rest: string, after: seq<string>, t: Transfer)
    requires ValidCluster(rules, cluster)
    ensures ReadShort(rules, cluster + rest, after, t)
         == ReadShort(rules, rest, after,
                      t.(forceGet := t.forceGet || 'G' in cluster, head := t.head || 'I' in cluster))
    decreases |cluster|
  {
    if cluster == "" {
      assert cluster + rest == rest;
    } else {
      assert (cluster + rest)[1..] == cluster[1..] + rest && cluster[0] in cluster;
      ReadsCluster(rules, cluster[1..], rest, after, ApplyNoValue(cluster[0], t));
    }
  }

  lemma ReadsLetters(rules: Rules, i: Item, more: seq<string>, r: Reader)
    requires i.Letters? && ValidItem(rules, i) && !r.afterOptions
    ensures Read(rules, ItemWords(i) + more, r) == Read(rules, more, r.(transfer := Taken(rules, r.transfer, i)))
  {
    CurlLaws.ReadsShortOption(rules, i.cluster, more, r);
    ReadsCluster(rules, i.cluster, "", more, r.transfer);
    assert i.cluster + "" == i.cluster;
    NothingAdded(rules, i, r.transfer);
  }

  lemma NothingAdded(rules: Rules, i: Item, t: Transfer)
    requires !i.Url? && !(i.Valued? && i.flag == "--url")
    ensures Taken(rules, t, i).urls == t.urls
  {
    assert Urls(rules, [i]) == [];
  }

  lemma ReadsLettersValued(rules: Rules, i: Item, more: seq<string>, r: Reader)
    requires i.LettersValued? && ValidItem(rules, i) && !r.afterOptions
    ensures Read(rules, ItemWords(i) + more, r) == Read(rules, more, r.(transfer := Taken(rules, r.transfer, i)))
  {
    var letters := if i.attached then i.cluster + ([i.letter] + i.value) else i.cluster + [i.letter];
    var after := if i.attached then more else [i.value] + more;
    assert letters[0] == (i.cluster + [i.letter])[0];
    CurlLaws.ReadsShortOption(rules, letters, after, r);
    ReadsLastLetter(rules, i, more, r.transfer);
    if !i.attached { CurlLaws.TwoWords("-" + letters, i.value, more); }
  }

  lemma ReadsLastLetter(rules: Rules, i: Item, more: seq<string>, t: Transfer)
    requires i.LettersValued? && ValidItem(rules, i)
    ensures var letters := if i.attached then i.cluster + ([i.letter] + i.value) else i.cluster + [i.letter];
            ReadShort(rules, letters, if i.attached then more else [i.value] + more, t)
            == Some((more, Taken(rules, t, i)))
  {
    var clustered := t.(forceGet := t.forceGet || 'G' in i.cluster, head := t.head || 'I' in i.cluster);
    ReadsCluster(rules, i.cluster, [i.letter] + i.value, more, t);
    ReadsCluster(rules, i.cluster, [i.letter], [i.value] + more, t);
    CurlLaws.AttachedValueIsNextWord(rules, i.letter, i.value, more, clustered);
    AppliesLetter(rules, i, t);
    ReadsLetter(rules, i.letter, i.value, more, clustered);
  }

  lemma ReadsLetter(rules: Rules, letter: char, value: string, more: seq<string>, t: Transfer)
    requires letter !in rules.shortNoValue && letter != 'K' && value != "" && ApplyShort(letter, value, t).Some?
    ensures ReadShort(rules, [letter], [value] + more, t) == Some((more, ApplyShort(letter, value, t).value))
  {
    assert ([value] + more)[1..] == more && [letter][1..] == "";
  }

  lemma AppliesLetter(rules: Rules, i: Item, t: Transfer)
    requires i.LettersValued? && ValidItem(rules, i)
    ensures var clustered := t.(forceGet := t.forceGet || 'G' in i.cluster, head := t.head || 'I' in i.cluster);
            ApplyShort(i.letter, i.value, clustered) == Some(Taken(rules, t, i))
  {
    MethodIsNormalized(i.value);
    NothingAdded(rules, i, t);
  }

  lemma ReadsFlag(rules: Rules, i: Item, more: seq<string>, r: Reader)
    requires i.Flag? && ValidItem(rules, i) && !r.afterOptions
    ensures Read(rules, ItemWords(i) + more, r) == Read(rules, more, r.(transfer := Taken(rules, r.transfer, i)))
  {
    assert ([i.flag] + more)[1..] == more;
    IndexOfIsFirst(i.flag, '=', |i.flag|);
    NothingAdded(rules, i, r.transfer);
  }

  lemma AddsUrl(rules: Rules, i: Item, t: Transfer)
    requires i.Url? && ValidItem(rules, i)
    ensures AddUrl(rules, i.word, t) == Some(Taken(rules, t, i))
  {
    UrlIsLiteral(rules, i.word);
    assert Urls(rules, [i]) == [rules.href(i.word).value];
  }

  lemma ReadsUrl(rules: Rules, i: Item, more: seq<string>, r: Reader)
    requires i.Url? && ValidItem(rules, i)
    ensures Read(rules, ItemWords(i) + more, r) == Read(rules, more, r.(transfer := Taken(rules, r.transfer, i)))
  {
    assert ([i.word] + more)[1..] == more;
    AddsUrl(rules, i, r.transfer);
    assert !StartsWith(i.word, "-") && !StartsWith(i.word, "--");
    assert ReadArg(rules, i.word, more, r) == Bare(rules, i.word, more, r);
  }

  lemma ReadsValued(rules: Rules, i: Item, more: seq<string>, r: Reader)
    requires i.Valued? && ValidItem(rules, i) && !r.afterOptions
    ensures Read(rules, ItemWords(i) + more, r) == Read(rules, more, r.(transfer := Taken(rules, r.transfer, i)))
  {
    CurlLaws.InlineReadsAlike(rules, i.flag, i.value, more, r);
    CurlLaws.TwoWords(i.flag, i.value, more);
    IndexOfIsFirst(i.flag, '=', |i.flag|);
    assert ([i.flag] + ([i.value] + more))[1..] == [i.value] + more;
    AppliesValue(rules, i, more, r.transfer);
  }

  lemma AppliesValue(rules: Rules, i: Item, more: seq<string>, t: Transfer)
    requires i.Valued? && ValidItem(rules, i)
    ensures ReadFlag(rules, i.flag, None, [i.value] + more, t) == Some((more, Taken(rules, t, i)))
  {
    assert ([i.value] + more)[1..] == more;
    AppliesLong(rules, i, t);
  }

  lemma AppliesLong(rules: Rules, i: Item, t: Transfer)
    requires i.Valued? && ValidItem(rules, i)
    ensures ApplyLong(rules, i.flag, i.value, t) == Some(Taken(rules, t, i))
  {
    if i.flag == "--url" {
      UrlIsLiteral(rules, i.value);
      assert Urls(rules, [i]) == [rules.href(i.value).value];
    } else {
      NothingAdded(rules, i, t);
      if i.flag == "--request" { MethodIsNormalized(i.value); }
    }
  }

  lemma ReadsItem(rules: Rules, i: Item, more: seq<string>, r: Reader)
    requires ValidItem(rules, i) && !r.afterOptions
    ensures Read(rules, ItemWords(i) + more, r) == Read(rules, more, r.(transfer := Taken(rules, r.transfer, i)))
  {
    match i
    case Url(_) => ReadsUrl(rules, i, more, r);
    case Flag(_) => ReadsFlag(rules, i, more, r);
    case Valued(_, _, _) => ReadsValued(rules, i, more, r);
    case Letters(_) => ReadsLetters(rules, i, more, r);
    case LettersValued(_, _, _, _) => ReadsLettersValued(rules, i, more, r);
  }

  // ----- reading all of them

  function TakenAll(rules: Rules, t: Transfer, items: seq<Item>): Transfer {
    Transfer(t.urls + Urls(rules, items), if Named(items).Some? then Named(items) else t.explicitMethod,
             t.hasData || (exists i <- items :: SendsData(rules, i)), t.hasUpload || (exists i <- items :: Uploads(i)),
             t.forceGet || (exists i <- items :: WantsGet(i)), t.head || (exists i <- items :: WantsHead(i)))
  }

  lemma AnyOfBoth(items: seq<Item>, p: Item -> bool)
    requires items != []
    ensures (exists i <- items :: p(i)) <==> p(items[0]) || exists i <- items[1..] :: p(i)
  {
    assert items == [items[0]] + items[1..];
  }

  lemma FlagsInTurn(rules: Rules, t: Transfer, items: seq<Item>)
    requires items != []
    ensures var both, all := TakenAll(rules, Taken(rules, t, items[0]), items[1..]), TakenAll(rules, t, items);
            both.hasData == all.hasData && both.hasUpload == all.hasUpload
  {
    AnyOfBoth(items, i => SendsData(rules, i));
    AnyOfBoth(items, Uploads);
  }

  lemma WantsInTurn(rules: Rules, t: Transfer, items: seq<Item>)
    requires items != []
    ensures var both, all := TakenAll(rules, Taken(rules, t, items[0]), items[1..]), TakenAll(rules, t, items);
            both.forceGet == all.forceGet && both.head == all.head
  {
    AnyOfBoth(items, WantsGet);
    AnyOfBoth(items, WantsHead);
  }

  lemma UrlsInTurn(rules: Rules, t: Transfer, items: seq<Item>)
    requires items != []
    ensures var both, all := TakenAll(rules, Taken(rules, t, items[0]), items[1..]), TakenAll(rules, t, items);
            both.urls == all.urls && both.explicitMethod == all.explicitMethod
  {
    assert Urls(rules, items) == Urls(rules, [items[0]]) + Urls(rules, items[1..]);
    Regroup(t.urls, Urls(rules, [items[0]]), Urls(rules, items[1..]));
  }

  lemma TakenInTurn(rules: Rules, t: Transfer, items: seq<Item>)
    requires items != []
    ensures TakenAll(rules, Taken(rules, t, items[0]), items[1..]) == TakenAll(rules, t, items)
  {
    FlagsInTurn(rules, t, items);
    WantsInTurn(rules, t, items);
    UrlsInTurn(rules, t, items);
  }

  lemma {:induction false} ReadsItems(rules: Rules, items: seq<Item>, more: seq<string>, r: Reader)
    requires (forall i <- items :: ValidItem(rules, i)) && !r.afterOptions
    ensures Read(rules, Words(items) + more, r) == Read(rules, more, r.(transfer := TakenAll(rules, r.transfer, items)))
    decreases |items|
  {
    if items == [] {
      assert Words(items) + more == more;
      assert r.transfer.urls + [] == r.transfer.urls;
    } else {
      Regroup(ItemWords(items[0]), Words(items[1..]), more);
      ReadsItem(rules, items[0], Words(items[1..]) + more, r);
      TakenInTurn(rules, r.transfer, items);
      ReadsItems(rules, items[1..], more, r.(transfer := Taken(rules, r.transfer, items[0])));
    }
  }

  function Hrefs(rules: Rules, words: seq<string>): seq<string> {
    seq(|words|, k requires 0 <= k < |words| => rules.href(words[k]).GetOr(""))
  }

  /** Behind -- every word is a URL. */
  lemma {:induction false} ReadsPlain(rules: Rules, plain: seq<string>, r: Reader)
    requires r.afterOptions && forall w <- plain :: NamesUrl(rules, w)
    ensures Read(rules, plain, r) == Some(r.(transfer := r.transfer.(urls := r.transfer.urls + Hrefs(rules, plain))))
    decreases |plain|
  {
    if plain == [] {
      assert r.transfer.urls + Hrefs(rules, plain) == r.transfer.urls;
    } else {
      UrlIsLiteral(rules, plain[0]);
      var url := rules.href(plain[0]).value;
      ReadsPlain(rules, plain[1..], r.(transfer := r.transfer.(urls := r.transfer.urls + [url])));
      assert Hrefs(rules, plain) == [url] + Hrefs(rules, plain[1..]);
      Regroup(r.transfer.urls, [url], Hrefs(rules, plain[1..]));
    }
  }

  /** The requests for `urls` with one method. */
  function Asking(urls: seq<string>, verb: Option<string>): Option<seq<Request>> {
    if urls == [] then Some([])
    else if verb.None? then None
    else Some(seq(|urls|, k requires 0 <= k < |urls| => Request(urls[k], verb.value)))
  }

  /** However its options are spelled and grouped, and wherever its URLs stand,
      also as words behind --, a command asks for its URLs, in order and in their
      normal form, with the method of its options. */
  lemma RoundTrip(rules: Rules, items: seq<Item>, plain: seq<string>)
    requires forall i <- items :: ValidItem(rules, i)
    requires forall w <- plain :: NamesUrl(rules, w)
    ensures CurlRequests(rules, Words(items)) == Asking(Urls(rules, items), Verb(rules, items))
    ensures CurlRequests(rules, Words(items) + (["--"] + plain))
         == Asking(Urls(rules, items) + Hrefs(rules, plain), Verb(rules, items))
  {
    var t := TakenAll(rules, EMPTY_TRANSFER, items);
    var options := START.(transfer := t);
    ReadsItems(rules, items, [], START);
    assert Words(items) + [] == Words(items);
    ClosesAsking(rules, items, options);
    ReadsItems(rules, items, ["--"] + plain, START);
    assert (["--"] + plain)[1..] == plain;
    ReadsPlain(rules, plain, options.(afterOptions := true));
    ClosesAsking(rules, items, Reader([], t.(urls := t.urls + Hrefs(rules, plain)), true));
    assert [] + Urls(rules, items) == Urls(rules, items);
  }

  lemma ClosesAsking(rules: Rules, items: seq<Item>, r: Reader)
    requires r.requests == []
    requires (forall i <- items :: ValidItem(rules, i))
    requires r.transfer == TakenAll(rules, EMPTY_TRANSFER, items).(urls := r.transfer.urls)
    ensures CurlSyntax.Close(Some(r)) == Asking(r.transfer.urls, Verb(rules, items))
  {
    NamedIsNot(rules, items);
    assert EffectiveMethod(r.transfer) == Verb(rules, items);
    if r.transfer.urls != [] && Verb(rules, items).Some? {
      var asked := RequestsFor(r.transfer.urls, Verb(rules, items).value);
      assert [] + asked == Asking(r.transfer.urls, Verb(rules, items)).value;
    }
  }

  /** A method that is named is not the empty text. */
  lemma {:induction false} NamedIsNot(rules: Rules, items: seq<Item>)
    requires forall i <- items :: ValidItem(rules, i)
    ensures Named(items) != Some("")
    decreases |items|
  {
    if items != [] {
      NamedIsNot(rules, items[1..]);
      assert ValidItem(rules, items[0]);
    }
  }

  // ----- one option and one URL

  lemma OptionAndUrl(rules: Rules, i: Item, url: string)
    requires ValidItem(rules, i) && Urls(rules, [i]) == [] && NamesUrl(rules, url)
    ensures CurlRequests(rules, ItemWords(i) + [url])
         == Asking([rules.href(url).value],
                   Chosen(Names(i), WantsHead(i), WantsGet(i), Uploads(i), SendsData(rules, i)))
  {
    var items := [i, Url(url)];
    RoundTrip(rules, items, []);
    WordsOfTwo(rules, i, url);
    VerbOfTwo(rules, i, url);
  }

  lemma WordsOfTwo(rules: Rules, i: Item, url: string)
    requires Urls(rules, [i]) == [] && NamesUrl(rules, url)
    ensures var items := [i, Url(url)];
            Words(items) == ItemWords(i) + [url] && Urls(rules, items) == [rules.href(url).value]
  {
    var items, alone := [i, Url(url)], [Url(url)];
    assert items[1..] == alone && alone[1..] == [];
    assert Words(alone[1..]) == [] && Urls(rules, alone[1..]) == [];
    assert Words(alone) == [url];
    assert Urls(rules, alone) == [rules.href(url).value] + Urls(rules, alone[1..]);
    assert Urls(rules, items) == Urls(rules, [i]) + Urls(rules, alone);
  }

  lemma VerbOfTwo(rules: Rules, i: Item, url: string)
    ensures Verb(rules, [i, Url(url)])
         == Chosen(Names(i), WantsHead(i), WantsGet(i), Uploads(i), SendsData(rules, i))
  {
    AnyOfTwo(i, Url(url), WantsHead);
    AnyOfTwo(i, Url(url), WantsGet);
    AnyOfTwo(i, Url(url), Uploads);
    AnyOfTwo(i, Url(url), j => SendsData(rules, j));
    NamedOfTwo(i, url);
  }

  lemma NamedOfTwo(i: Item, url: string)
    ensures Named([i, Url(url)]) == Names(i)
  {
    assert [i, Url(url)][1..] == [Url(url)] && [Url(url)][1..] == [];
    assert Named([Url(url)]) == None;
  }

  lemma AnyOfTwo(i: Item, url: Item, p: Item -> bool)
    ensures (exists j <- [i, url] :: p(j)) <==> p(i) || p(url)
  {
    assert [i, url][0] == i && [i, url][1] == url;
  }

  lemma AskingOne(url: string, verb: string)
    ensures Asking([url], Some(verb)) == Some([Request(url, verb)])
  {
    var asked := Asking([url], Some(verb)).value;
    assert |asked| == 1 && asked[0] == Request(url, verb);
    assert asked == [Request(url, verb)];
  }

  lemma LettersAndUrl(rules: Rules, letter: char, url: string)
    requires NamesUrl(rules, url) && letter in rules.shortNoValue && letter != '-'
    ensures CurlRequests(rules, ["-" + [letter], url])
         == Some([Request(rules.href(url).value, if letter == 'I' then "HEAD" else "GET")])
  {
    var i := Letters([letter]);
    assert Urls(rules, [i]) == [];
    OptionAndUrl(rules, i, url);
    assert ItemWords(i) + [url] == ["-" + [letter], url];
    AskingOne(rules.href(url).value, if letter == 'I' then "HEAD" else "GET");
  }

  lemma OptionWithValue(rules: Rules, letter: char, value: string, url: string)
    requires NamesUrl(rules, url) && letter !in rules.shortNoValue && letter !in "K-" && value != ""
    requires letter == 'X' ==> NamesMethod(value)
    ensures var i := LettersValued("", letter, value, false);
            CurlRequests(rules, ["-" + [letter], value, url])
            == Some([Request(rules.href(url).value,
                             Chosen(Names(i), false, false, letter == 'T', letter == 'd' || letter == 'F').GetOr(""))])
  {
    var i := LettersValued("", letter, value, false);
    var verb := Chosen(Names(i), false, false, letter == 'T', letter == 'd' || letter == 'F');
    assert "" + [letter] == [letter];
    assert Urls(rules, [i]) == [];
    OptionAndUrl(rules, i, url);
    assert ItemWords(i) + [url] == ["-" + [letter], value, url];
    AskingOne(rules.href(url).value, verb.value);
  }

  /** What each short option that shapes a request makes of a URL. */
  lemma OptionOfUrl(rules: Rules, value: string, url: string)
    requires CurlLaws.PairsOptions(rules) && NamesUrl(rules, url) && value != ""
    ensures CurlRequests(rules, ["-I", url]) == Some([Request(rules.href(url).value, "HEAD")])
    ensures CurlRequests(rules, ["-G", url]) == Some([Request(rules.href(url).value, "GET")])
    ensures CurlRequests(rules, ["-T", value, url]) == Some([Request(rules.href(url).value, "PUT")])
    ensures CurlRequests(rules, ["-d", value, url]) == Some([Request(rules.href(url).value, "POST")])
    ensures CurlRequests(rules, ["-F", value, url]) == Some([Request(rules.href(url).value, "POST")])
  {
    PairedLetters(rules);
    LettersAndUrl(rules, 'I', url);
    LettersAndUrl(rules, 'G', url);
    assert "-" + ['I'] == "-I" && "-" + ['G'] == "-G";
    OptionWithValue(rules, 'T', value, url);
    OptionWithValue(rules, 'd', value, url);
    OptionWithValue(rules, 'F', value, url);
    assert "-" + ['T'] == "-T" && "-" + ['d'] == "-d" && "-" + ['F'] == "-F";
  }

  lemma PairedLetters(rules: Rules)
    requires CurlLaws.PairsOptions(rules)
    ensures 'I' in rules.shortNoValue && 'G' in rules.shortNoValue
    ensures 'T' !in rules.shortNoValue && 'd' !in rules.shortNoValue && 'F' !in rules.shortNoValue
  {
    assert 'I' in "XTdFGI" && 'G' in "XTdFGI" && 'T' in "XTdFGI" && 'd' in "XTdFGI" && 'F' in "XTdFGI";
  }

  /** And a method of one's own: a token, which is asked for in capitals. */
  lemma MethodOfUrl(rules: Rules, value: string, url: string)
    requires CurlLaws.PairsOptions(rules) && NamesUrl(rules, url)
    ensures CurlRequests(rules, ["-X", value, url])
         == if NamesMethod(value) then Some([Request(rules.href(url).value, Capitals(value))]) else None
  {
    assert 'X' in "XTdFGI";
    if NamesMethod(value) {
      OptionWithValue(rules, 'X', value, url);
      assert "-" + ['X'] == "-X";
    } else {
      RefusedMethod(rules, [], value, [url]);
      assert [] + ["-X", value] + [url] == ["-X", value, url];
    }
  }

  // ----- what is refused

  lemma RefusedArg(rules: Rules, before: seq<string>, arg: string, more: seq<string>)
    requires Read(rules, before, START).Some?
    requires ReadArg(rules, arg, more, Read(rules, before, START).value).Refuse?
    ensures CurlRequests(rules, before + [arg] + more) == None
  {
    CurlLaws.ReadPast(rules, before, [arg], more);
    assert ([arg] + more)[1..] == more;
  }

  /** A word that stands for a URL and is none. */
  lemma RefusedUrl(rules: Rules, before: seq<string>, word: string, more: seq<string>)
    requires Read(rules, before, START).Some? && !NamesUrl(rules, word)
    requires Read(rules, before, START).value.afterOptions || !StartsWith(word, "-") || word == "-"
    ensures CurlRequests(rules, before + [word] + more) == None
  {
    UrlIsLiteral(rules, word);
    RefusedArg(rules, before, word, more);
  }

  /** A long option that is not known, or that reads options from a file,
      with or without a value in its word. */
  lemma RefusedFlag(rules: Rules, before: seq<string>, flag: string, value: string, more: seq<string>)
    requires var r := Read(rules, before, START); r.Some? && !r.value.afterOptions
    requires StartsWith(flag, "--") && '=' !in flag && flag !in ["--", "--next", "--get", "--head"]
    requires flag !in rules.noValue && (flag == "--config" || !Known(rules, flag))
    ensures CurlRequests(rules, before + [flag] + more) == None
    ensures CurlRequests(rules, before + [flag + "=" + value] + more) == None
  {
    CurlLaws.SplitAtEquals(flag, value);
    RefusedArg(rules, before, flag, more);
    RefusedArg(rules, before, flag + "=" + value, more);
  }

  /** A long option without its value. */
  lemma RefusedWithoutValue(rules: Rules, before: seq<string>, flag: string, more: seq<string>)
    requires var r := Read(rules, before, START); r.Some? && !r.value.afterOptions
    requires StartsWith(flag, "--") && '=' !in flag && flag !in ["--", "--next", "--get", "--head"]
    requires flag !in rules.noValue && (more == [] || more[0] == "")
    ensures CurlRequests(rules, before + [flag] + more) == None
    ensures CurlRequests(rules, before + [flag + "="] + more) == None
  {
    CurlLaws.SplitAtEquals(flag, "");
    assert flag + "=" + "" == flag + "=";
    RefusedArg(rules, before, flag, more);
    RefusedArg(rules, before, flag + "=", more);
  }

  /** A short option without its value, and -K whatever follows. */
  lemma RefusedLetter(rules: Rules, before: seq<string>, cluster: string, letter: char, tail: string, more: seq<string>)
    requires var r := Read(rules, before, START); r.Some? && !r.value.afterOptions
    requires ValidCluster(rules, cluster) && letter !in rules.shortNoValue && (cluster + [letter])[0] != '-'
    requires letter == 'K' || (tail == "" && (more == [] || more[0] == ""))
    ensures CurlRequests(rules, before + ["-" + (cluster + ([letter] + tail))] + more) == None
  {
    var r, letters := Read(rules, before, START).value, cluster + ([letter] + tail);
    assert letters[0] == (cluster + [letter])[0];
    assert ([letter] + tail)[1..] == tail;
    ReadsCluster(rules, cluster, [letter] + tail, more, r.transfer);
    CurlLaws.ReadPast(rules, before, ["-" + letters], more);
    CurlLaws.ReadsShortOption(rules, letters, more, r);
  }

  /** A value of --request, --url or -X that is not what it must be. */
  lemma RefusedMethod(rules: Rules, before: seq<string>, value: string, more: seq<string>)
    requires var r := Read(rules, before, START); r.Some? && !r.value.afterOptions
    requires 'X' !in rules.shortNoValue && !NamesMethod(value)
    ensures CurlRequests(rules, before + ["-X", value] + more) == None
  {
    var r := Read(rules, before, START).value;
    MethodIsNormalized(value);
    CurlLaws.ReadPast(rules, before, ["-X", value], more);
    CurlLaws.TwoWords("-X", value, more);
    CurlLaws.ReadsShortOption(rules, "X", [value] + more, r);
    assert "-" + "X" == "-X" && "X"[1..] == "" && ([value] + more)[0] == value;
  }

  lemma RefusedValue(rules: Rules, before: seq<string>, flag: string, value: string, more: seq<string>)
    requires var r := Read(rules, before, START); r.Some? && !r.value.afterOptions
    requires flag !in rules.noValue
    requires (flag == "--url" && !NamesUrl(rules, value)) || (flag == "--request" && !NamesMethod(value))
    ensures CurlRequests(rules, before + [flag, value] + more) == None
  {
    var r := Read(rules, before, START).value;
    RefusesValue(rules, flag, value, more, r);
    RefusedArg(rules, before, flag, [value] + more);
    assert before + [flag, value] + more == before + [flag] + ([value] + more);
  }

  lemma RefusesValue(rules: Rules, flag: string, value: string, more: seq<string>, r: Reader)
    requires flag !in rules.noValue && !r.afterOptions
    requires (flag == "--url" && !NamesUrl(rules, value)) || (flag == "--request" && !NamesMethod(value))
    ensures ReadArg(rules, flag, [value] + more, r).Refuse?
  {
    IndexOfIsFirst(flag, '=', |flag|);
    assert ([value] + more)[0] == value;
    if flag == "--url" { UrlIsLiteral(rules, value); } else { MethodIsNormalized(value); }
    assert ReadFlag(rules, flag, None, [value] + more, r.transfer) == None;
  }

  // ----- what runs curl

  /** `name=value`, for a name of letters, digits and underscores. */
  predicate NameChar(c: char) {
    c in LOWER || c in UPPER || c in DIGITS || c == '_'
  }

  predicate Assigns(word: string) {
    exists n ::
      && 0 < n < |word| && word[n] == '=' && word[0] !in DIGITS
      && forall k :: 0 <= k < n ==> NameChar(word[k])
  }

  lemma AssignmentAssigns(word: string)
    ensures IsAssignment(word) <==> Assigns(word)
  {
    forall c: char ensures IsNameChar(c) <==> NameChar(c) { LetterIsListed(c); }
    if word != "" { LetterIsListed(word[0]); }
    if Assigns(word) {
      var n :| 0 < n < |word| && word[n] == '=' && word[0] !in DIGITS && forall k :: 0 <= k < n ==> NameChar(word[k]);
      assert forall k :: 0 <= k < n ==> IsNameChar(word[k]);
      IndexOfIsFirst(word, '=', n);
    }
  }

  /** Leading assignments and one `command` are passed over; then `curl` is run
      with the words behind it, and any other command asks for nothing. */
  lemma WhatRunsCurl(prefix: seq<string>, run: seq<string>)
    requires forall w <- prefix :: Assigns(w)
    requires run != [] ==> !Assigns(run[0])
    ensures CurlArgs(prefix + run) ==
            if run != [] && run[0] == "curl" then Some(run[1..])
            else if |run| > 1 && run[0] == "command" && run[1] == "curl" then Some(run[2..])
            else None
  {
    SkipsAssigned(prefix, run);
    if run != [] { assert run[1..] != [] ==> run[1..][0] == run[1] && run[1..][1..] == run[2..]; }
  }

  lemma {:induction false} SkipsAssigned(prefix: seq<string>, run: seq<string>)
    requires forall w <- prefix :: Assigns(w)
    requires run != [] ==> !Assigns(run[0])
    ensures SkipAssignments(prefix + run) == run
    decreases |prefix|
  {
    if prefix == [] {
      assert prefix + run == run;
      if run != [] { AssignmentAssigns(run[0]); }
    } else {
      AssignmentAssigns(prefix[0]);
      assert (prefix + run)[1..] == prefix[1..] + run;
      SkipsAssigned(prefix[1..], run);
    }
  }

  /** A script's requests are those of its curl commands, one after the other;
      it has none to give exactly when it cannot be read or one of them cannot. */
  lemma ExtractsEach(rules: Rules, source: string)
    ensures ExtractCurlRequests(rules, source).None? <==>
            Parse(source).None?
            || exists c <- Parse(source).value ::
                 CurlArgs(c.words).Some? && CurlRequests(rules, CurlArgs(c.words).value).None?
  {
    if Parse(source).Some? { AllRequestsFails(rules, Parse(source).value); }
  }

  lemma {:induction false} AllRequestsFails(rules: Rules, commands: seq<ParsedCommand>)
    ensures AllRequests(rules, commands).None? <==>
            exists c <- commands :: CurlArgs(c.words).Some? && CurlRequests(rules, CurlArgs(c.words).value).None?
    decreases |commands|
  {
    if commands != [] {
      assert commands == [commands[0]] + commands[1..];
      AllRequestsFails(rules, commands[1..]);
    }
  }
}
