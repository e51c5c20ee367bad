/** Reading JSON texts as RFC 8259 says, without white space between tokens, and
    the law that the canonical text of a value reads as that value. */
module JsonReading {
  import opened Prelude
  import opened CanonicalJson

  // ----- the reader

  /** The value of a hexadecimal digit, of either case. */
  function Hex(c: char): Option<nat> {
    if IsDigit(c) then Some(c as int - '0' as int)
    else if 'a' <= c <= 'f' then Some(c as int - 'a' as int + 10)
    else if 'A' <= c <= 'F' then Some(c as int - 'A' as int + 10)
    else None
  }

  /** The character of \uXXXX, unless it is half of a surrogate pair. */
  function Unicode(text: string): Option<char>
    requires |text| >= 4
  {
    match (Hex(text[0]), Hex(text[1]), Hex(text[2]), Hex(text[3]))
    case (Some(a), Some(b), Some(c), Some(d)) =>
      var code := ((a * 16 + b) * 16 + c) * 16 + d;
      if code < 0xD800 then Some(code as char) else if 0xE000 <= code < 0x1_0000 then Some(code as char) else None
    case _ => None
  }

  /** One character of a string, section 7, and the text behind it. */
  function ReadChar(text: string): (r: Option<(char, string)>)
    ensures r.Some? ==> |r.value.1| < |text|
  {
    if text == "" || text[0] == '"' || (text[0] as int) < 0x20 then None
    else if text[0] != '\\' then Some((text[0], text[1..]))
    else if |text| < 2 then None
    else
      match text[1]
      case '"' => Some(('"', text[2..]))
      case '\\' => Some(('\\', text[2..]))
      case '/' => Some(('/', text[2..]))
      case 'b' => Some((8 as char, text[2..]))
      case 'f' => Some((12 as char, text[2..]))
      case 'n' => Some(('\n', text[2..]))
      case 'r' => Some(('\r', text[2..]))
      case 't' => Some(('\t', text[2..]))
      case 'u' =>
        if |text| < 6 then None
        else
          var c := Unicode(text[2..]);
          if c.None? then None else Some((c.value, text[6..]))
      case _ => None
  }

  /** A string behind its opening quote, and the text behind the closing one. */
  function ReadString(text: string): (r: Option<(string, string)>)
    ensures r.Some? ==> |r.value.1| < |text|
    decreases |text|
  {
    if text != "" && text[0] == '"' then Some(("", text[1..]))
    else
      var first := ReadChar(text);
      if first.None? then None
      else
        var more := ReadString(first.value.1);
        if more.None? then None else Some(([first.value.0] + more.value.0, more.value.1))
  }

  /** The digits of an integer, section 6: no zero in front of others. */
  function ReadDigits(text: string): (r: Option<(nat, string)>)
    ensures r.Some? ==> |r.value.1| < |text|
  {
    DigitRunFits(text);
    var run := DigitRun(text);
    if run == 0 || (run > 1 && text[0] == '0') then None else Some((Value(text[..run]), text[run..]))
  }

  lemma {:induction false} DigitRunFits(text: string)
    ensures DigitRun(text) <= |text|
    decreases |text|
  {
    if text != "" { DigitRunFits(text[1..]); }
  }

  function ReadLiteral(text: string): (r: Option<(Json, string)>)
    ensures r.Some? ==> |r.value.1| < |text|
  {
    if StartsWith(text, "null") then Some((Null, text[4..]))
    else if StartsWith(text, "true") then Some((Bool(true), text[4..]))
    else if StartsWith(text, "false") then Some((Bool(false), text[5..]))
    else None
  }

  function ReadNumber(text: string): (r: Option<(Json, string)>)
    ensures r.Some? ==> |r.value.1| < |text|
  {
    var negative := text != "" && text[0] == '-';
    var digits := ReadDigits(if negative then text[1..] else text);
    if digits.None? then None
    else Some((Num(if negative then 0 - digits.value.0 else digits.value.0), digits.value.1))
  }

  /** A value and the text behind it. */
  function ReadValue(text: string): (r: Option<(Json, string)>)
    ensures r.Some? ==> |r.value.1| < |text|
    decreases |text|, 0
  {
    if text == "" then None
    else if text[0] == '"' then
      var s := ReadString(text[1..]);
      if s.None? then None else Some((Str(s.value.0), s.value.1))
    else if text[0] == '[' then
      if |text| > 1 && text[1] == ']' then Some((Arr([]), text[2..]))
      else
        var items := ReadItems(text[1..]);
        if items.None? then None else Some((Arr(items.value.0), items.value.1))
    else if text[0] == '{' then
      if |text| > 1 && text[1] == '}' then Some((Obj(map[]), text[2..]))
      else
        var members := ReadMembers(text[1..]);
        if members.None? then None else Some((Obj(Fields(members.value.0)), members.value.1))
    else if text[0] in "ntf" then ReadLiteral(text)
    else ReadNumber(text)
  }

  /** The items of an array behind its bracket; there is at least one. */
  function ReadItems(text: string): (r: Option<(seq<Json>, string)>)
    ensures r.Some? ==> |r.value.1| < |text|
    decreases |text|, 1
  {
    match ReadValue(text)
    case None => None
    case Some((first, rest)) =>
      if rest == "" then None
      else if rest[0] == ']' then Some(([first], rest[1..]))
      else if rest[0] != ',' then None
      else
        var more := ReadItems(rest[1..]);
        if more.None? then None else Some(([first] + more.value.0, more.value.1))
  }

  /** A member: a name, a colon and a value. */
  function ReadMember(text: string): (r: Option<((string, Json), string)>)
    ensures r.Some? ==> |r.value.1| < |text|
    decreases |text|, 1
  {
    if text == "" || text[0] != '"' then None
    else
      match ReadString(text[1..])
      case None => None
      case Some((name, rest)) =>
        if rest == "" || rest[0] != ':' then None
        else
          var value := ReadValue(rest[1..]);
          if value.None? then None else Some(((name, value.value.0), value.value.1))
  }

  /** The members of an object behind its brace, in the order of the text. */
  function ReadMembers(text: string): (r: Option<(seq<(string, Json)>, string)>)
    ensures r.Some? ==> |r.value.1| < |text|
    decreases |text|, 2
  {
    match ReadMember(text)
    case None => None
    case Some((first, rest)) =>
      if rest == "" then None
      else if rest[0] == '}' then Some(([first], rest[1..]))
      else if rest[0] != ',' then None
      else
        var more := ReadMembers(rest[1..]);
        if more.None? then None else Some(([first] + more.value.0, more.value.1))
  }

  /** The last member of a name counts. */
  function Fields(members: seq<(string, Json)>): map<string, Json> {
    if members == [] then map[]
    else
      var last := members[|members| - 1];
      Fields(members[..|members| - 1])[last.0 := last.1]
  }

  // ----- canonical texts read back

  lemma CharReads(c: char, rest: string)
    ensures ReadChar(EscapeChar(c) + rest) == Some((c, rest))
  {
    var text := EscapeChar(c) + rest;
    EscapeCharFirst(c);
    assert text[|EscapeChar(c)|..] == rest && text[0] == EscapeChar(c)[0];
    if |EscapeChar(c)| == 2 {
      assert text[1] == EscapeChar(c)[1];
    } else if |EscapeChar(c)| == 6 {
      UnicodeReads(c, rest);
    }
  }

  lemma UnicodeReads(c: char, rest: string)
    requires |EscapeChar(c)| == 6
    ensures var text := EscapeChar(c) + rest; text[0] == '\\' && text[1] == 'u' && Unicode(text[2..]) == Some(c)
  {
    var text := EscapeChar(c) + rest;
    assert text[2..][0] == '0' && text[2..][1] == '0';
    assert text[2..][2] == HexDigit(c as int / 16) && text[2..][3] == HexDigit(c as int % 16);
  }

  lemma {:induction false} TextReads(s: string, rest: string)
    ensures ReadString(Escape(s) + ("\"" + rest)) == Some((s, rest))
    decreases |s|
  {
    var text := Escape(s) + ("\"" + rest);
    EscapeEnds(s, rest);
    if s == "" {
      assert text[1..] == rest;
    } else {
      EscapeSplits(s, rest);
      CharReads(s[0], Escape(s[1..]) + ("\"" + rest));
      TextReads(s[1..], rest);
      assert s == [s[0]] + s[1..];
    }
  }

  lemma {:induction false} NoZeroInFront(n: nat)
    ensures Digits(n) != "" && (|Digits(n)| > 1 ==> Digits(n)[0] != '0') && (n > 0 ==> Digits(n)[0] != '0')
    decreases n
  {
    if n >= 10 { NoZeroInFront(n / 10); }
  }

  lemma DigitsReadBack(n: nat, rest: string)
    requires Delimited(rest)
    ensures ReadDigits(Digits(n) + rest) == Some((n, rest))
  {
    var text := Digits(n) + rest;
    DigitsValue(n);
    NoZeroInFront(n);
    DigitRunOf(Digits(n), rest);
    assert text[..|Digits(n)|] == Digits(n) && text[|Digits(n)|..] == rest && text[0] == Digits(n)[0];
  }

  lemma LiteralReads(v: Json, rest: string)
    requires v.Null? || v.Bool?
    ensures ReadLiteral(Canon(v) + rest) == Some((v, rest))
  {
    var text := Canon(v) + rest;
    assert text[|Canon(v)|..] == rest && text[..|Canon(v)|] == Canon(v) && text[0] == Canon(v)[0];
  }

  lemma NumberReads(n: int, rest: string)
    requires Delimited(rest)
    ensures ReadNumber(Canon(Num(n)) + rest) == Some((Num(n), rest))
  {
    var text := Canon(Num(n)) + rest;
    CanonFirst(Num(n));
    assert text[0] == Canon(Num(n))[0];
    if n < 0 {
      assert text[1..] == Digits(-n) + rest;
      DigitsReadBack(-n, rest);
    } else {
      DigitsReadBack(n, rest);
    }
  }

  lemma SimpleReads(v: Json, rest: string)
    requires SimpleValue(v) && Delimited(rest)
    ensures ReadValue(Canon(v) + rest) == Some((v, rest))
  {
    var text := Canon(v) + rest;
    CanonFirst(v);
    assert text[0] == Canon(v)[0];
    match v
    case Num(n) => NumberReads(n, rest);
    case Str(s) =>
      assert text[1..] == Escape(s) + ("\"" + rest);
      TextReads(s, rest);
    case _ => LiteralReads(v, rest);
  }

  /** The canonical text of a value reads as that value, whatever stands behind it. */
  lemma {:induction false} CanonReadsBack(v: Json, rest: string)
    requires Delimited(rest)
    ensures ReadValue(Canon(v) + rest) == Some((v, rest))
    decreases v, 0
  {
    match v
    case Arr(items) =>
      OpenItems(items, rest);
      if items != [] { ItemsReadBack(items, rest); }
      ArrayReads(items, rest);
    case Obj(fields) =>
      var names := SortedKeys(fields.Keys);
      OpenMembers(fields, rest);
      if names != [] { MembersReadBack(names, fields, v, rest); }
      ObjectReads(fields, rest);
    case _ => SimpleReads(v, rest);
  }

  lemma ArrayReads(items: seq<Json>, rest: string)
    requires items != [] ==> ReadItems(ItemsText(items) + ("]" + rest)) == Some((items, rest))
    ensures ReadValue("[" + (ItemsText(items) + ("]" + rest))) == Some((Arr(items), rest))
  {
    var inner := ItemsText(items) + ("]" + rest);
    ItemsEnd(items, rest);
    assert items == [] ==> inner[1..] == rest;
    ReadsArray("[" + inner, inner, items, rest);
  }

  lemma ReadsArray(text: string, inner: string, items: seq<Json>, rest: string)
    requires text == "[" + inner && inner != "" && (inner[0] == ']' <==> items == [])
    requires if items == [] then inner[1..] == rest else ReadItems(inner) == Some((items, rest))
    ensures ReadValue(text) == Some((Arr(items), rest))
  {
    assert text[1..] == inner && text[0] == '[' && text[1] == inner[0] && text[2..] == inner[1..];
  }

  lemma {:induction false} ItemsReadBack(xs: seq<Json>, rest: string)
    requires xs != []
    ensures ReadItems(ItemsText(xs) + ("]" + rest)) == Some((xs, rest))
    decreases xs, 1
  {
    var behind := AfterItem(xs, rest);
    var text := ItemsText(xs) + ("]" + rest);
    FirstItem(xs, rest);
    CanonReadsBack(xs[0], behind);
    if |xs| == 1 {
      assert behind[1..] == rest && xs == [xs[0]];
      ReadsLastItem(text, xs[0], behind);
    } else {
      assert behind[1..] == ItemsText(xs[1..]) + ("]" + rest);
      ItemsReadBack(xs[1..], rest);
      ReadsFirstItem(text, xs[0], behind, xs[1..], rest);
      assert xs == [xs[0]] + xs[1..];
    }
  }

  lemma ReadsLastItem(text: string, item: Json, behind: string)
    requires ReadValue(text) == Some((item, behind)) && behind != "" && behind[0] == ']'
    ensures ReadItems(text) == Some(([item], behind[1..]))
  {
  }

  lemma ReadsFirstItem(text: string, item: Json, behind: string, more: seq<Json>, rest: string)
    requires ReadValue(text) == Some((item, behind)) && behind != "" && behind[0] == ','
    requires ReadItems(behind[1..]) == Some((more, rest))
    ensures ReadItems(text) == Some(([item] + more, rest))
  {
  }

  /** The members of an object under these names, in their order. */
  function Members(names: seq<string>, fields: map<string, Json>): (members: seq<(string, Json)>)
    requires forall x <- names :: x in fields
    ensures |members| == |names| && forall i :: 0 <= i < |names| ==> members[i] == (names[i], fields[names[i]])
  {
    seq(|names|, i requires 0 <= i < |names| => (names[i], fields[names[i]]))
  }

  lemma NameOpens(name: string, tail: string)
    ensures var text := StrText(name) + tail;
            text != "" && text[0] == '"' && text[1..] == Escape(name) + ("\"" + tail)
  {
  }

  lemma MemberReads(name: string, value: Json, behind: string)
    requires ReadValue(Canon(value) + behind) == Some((value, behind))
    ensures ReadMember(StrText(name) + (":" + (Canon(value) + behind))) == Some(((name, value), behind))
  {
    var inner := Canon(value) + behind;
    var tail := ":" + inner;
    NameOpens(name, tail);
    TextReads(name, tail);
    assert tail[1..] == inner;
    ReadsMember(StrText(name) + tail, name, tail, value, behind);
  }

  lemma ReadsMember(text: string, name: string, tail: string, value: Json, behind: string)
    requires text != "" && text[0] == '"' && ReadString(text[1..]) == Some((name, tail))
    requires tail != "" && tail[0] == ':' && ReadValue(tail[1..]) == Some((value, behind))
    ensures ReadMember(text) == Some(((name, value), behind))
  {
  }

  lemma {:induction false} MembersReadBack(names: seq<string>, fields: map<string, Json>, whole: Json, rest: string)
    requires whole == Obj(fields) && names != [] && forall x <- names :: x in fields
    ensures ReadMembers(MembersText(names, fields, whole) + ("}" + rest)) == Some((Members(names, fields), rest))
    decreases whole, 0, |names|
  {
    var behind, value := AfterMember(names, fields, rest), fields[names[0]];
    OneMember(names, fields, rest);
    CanonReadsBack(value, behind);
    MemberReads(names[0], value, behind);
    var text := MembersText(names, fields, whole) + ("}" + rest);
    if |names| == 1 {
      assert behind[1..] == rest;
      ReadsLastMember(text, (names[0], value), behind);
      assert Members(names, fields) == [(names[0], value)];
    } else {
      assert behind[1..] == MembersText(names[1..], fields, whole) + ("}" + rest);
      MembersReadBack(names[1..], fields, whole, rest);
      ReadsFirstMember(text, (names[0], value), behind, Members(names[1..], fields), rest);
      assert Members(names, fields) == [(names[0], value)] + Members(names[1..], fields);
    }
  }

  lemma ReadsLastMember(text: string, member: (string, Json), behind: string)
    requires ReadMember(text) == Some((member, behind)) && behind != "" && behind[0] == '}'
    ensures ReadMembers(text) == Some(([member], behind[1..]))
  {
  }

  lemma ReadsFirstMember(text: string, member: (string, Json), behind: string, more: seq<(string, Json)>, rest: string)
    requires ReadMember(text) == Some((member, behind)) && behind != "" && behind[0] == ','
    requires ReadMembers(behind[1..]) == Some((more, rest))
    ensures ReadMembers(text) == Some(([member] + more, rest))
  {
  }

  lemma {:induction false} FieldsOfMembers(names: seq<string>, fields: map<string, Json>)
    requires forall x <- names :: x in fields
    ensures Fields(Members(names, fields)) == map x | x in names :: fields[x]
    decreases |names|
  {
    if names != [] {
      var init := names[..|names| - 1];
      FieldsOfMembers(init, fields);
      assert Members(names, fields)[..|names| - 1] == Members(init, fields);
      assert names == init + [names[|names| - 1]];
    }
  }

  lemma ObjectReads(fields: map<string, Json>, rest: string)
    requires var names := SortedKeys(fields.Keys);
             names != [] ==>
               ReadMembers(MembersText(names, fields, Obj(fields)) + ("}" + rest))
               == Some((Members(names, fields), rest))
    ensures ReadValue("{" + (MembersText(SortedKeys(fields.Keys), fields, Obj(fields)) + ("}" + rest)))
         == Some((Obj(fields), rest))
  {
    var names := SortedKeys(fields.Keys);
    var inner := MembersText(names, fields, Obj(fields)) + ("}" + rest);
    MembersEnd(names, fields, rest);
    FieldsOfAll(fields);
    ReadsObject("{" + inner, inner, names == [], Members(names, fields), rest);
  }

  lemma MembersEnd(names: seq<string>, fields: map<string, Json>, rest: string)
    requires forall x <- names :: x in fields
    ensures var inner := MembersText(names, fields, Obj(fields)) + ("}" + rest);
            inner != "" && (inner[0] == '}' <==> names == []) && (names == [] ==> inner[1..] == rest)
  {
    OneMember(names, fields, rest);
  }

  lemma FieldsOfAll(fields: map<string, Json>)
    ensures Fields(Members(SortedKeys(fields.Keys), fields)) == fields
  {
    var names := SortedKeys(fields.Keys);
    FieldsOfMembers(names, fields);
    assert (map x | x in names :: fields[x]) == fields;
  }

  lemma ReadsObject(text: string, inner: string, empty: bool, members: seq<(string, Json)>, rest: string)
    requires text == "{" + inner && inner != "" && (inner[0] == '}' <==> empty)
    requires if empty then inner[1..] == rest && members == [] else ReadMembers(inner) == Some((members, rest))
    ensures ReadValue(text) == Some((Obj(Fields(members)), rest))
  {
    assert text[1..] == inner && text[0] == '{' && text[1] == inner[0] && text[2..] == inner[1..];
  }

  // ----- what is canonical about the text

  /** The members of an object stand in the ascending order of their names. */
  lemma MembersAscend(fields: map<string, Json>)
    requires fields != map[]
    ensures var text := Canon(Obj(fields));
            && text[0] == '{' && ReadMembers(text[1..]).Some?
            && var members := ReadMembers(text[1..]).value.0;
               forall i, j :: 0 <= i < j < |members| ==> Before(members[i].0, members[j].0)
  {
    var names := SortedKeys(fields.Keys);
    var text := Canon(Obj(fields));
    var k :| k in fields;
    assert k in names;
    MembersReadBack(names, fields, Obj(fields), "");
    assert text[1..] == MembersText(names, fields, Obj(fields)) + ("}" + "");
    SortedKeysAscend(fields.Keys);
    forall i, j | 0 <= i < j < |names| ensures Before(names[i], names[j]) { LeqIsBefore(names[i], names[j]); }
  }

  /** A character is escaped only if it must be, by a letter if there is one,
      and else by four hexadecimal digits in lower case. */
  lemma EscapesAreShort(c: char)
    ensures |EscapeChar(c)| == 1 <==> (c as int) >= 0x20 && c != '"' && c != '\\'
    ensures |EscapeChar(c)| == 2 <==> c as int in {0x08, 0x09, 0x0A, 0x0C, 0x0D, 0x22, 0x5C}
    ensures |EscapeChar(c)| == 6 ==> forall k :: 2 <= k < 6 ==> EscapeChar(c)[k] in "0123456789abcdef"
  {
    if |EscapeChar(c)| == 6 {
      HexDigitIsLower(c as int / 16);
      HexDigitIsLower(c as int % 16);
    }
  }

  lemma HexDigitIsLower(d: nat)
    requires d < 16
    ensures HexDigit(d) == "0123456789abcdef"[d]
  {
  }
}
