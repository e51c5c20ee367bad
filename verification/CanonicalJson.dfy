/** The canonical JSON text of src/agents/runtime-plan.ts, and the law that it
    identifies its value: JSON as in sections 4, 5 and 7 of RFC 8259, with the
    members of an object in the order of their names. */
module CanonicalJson {
  import opened Prelude

  /** A JSON value.  Numbers are the integers that a plan holds. */
  datatype Json =
    | Null
    | Bool(b: bool)
    | Num(n: int)
    | Str(s: string)
    | Arr(items: seq<Json>)
    | Obj(fields: map<string, Json>)

  // ----- the order of member names

  /** `a` does not come after `b`, comparing character by character. */
  predicate Leq(a: string, b: string) {
    a == "" || (b != "" && (a[0] < b[0] || (a[0] == b[0] && Leq(a[1..], b[1..]))))
  }

  lemma {:induction false} LeqTotal(a: string, b: string)
    ensures Leq(a, b) || Leq(b, a)
    decreases |a|
  {
    if a != "" && b != "" && a[0] == b[0] { LeqTotal(a[1..], b[1..]); }
  }

  lemma {:induction false} LeqAntisymmetric(a: string, b: string)
    requires Leq(a, b) && Leq(b, a)
    ensures a == b
    decreases |a|
  {
    if a != "" {
      LeqAntisymmetric(a[1..], b[1..]);
      assert a == [a[0]] + a[1..] && b == [b[0]] + b[1..];
    }
  }

  lemma {:induction false} LeqTransitive(a: string, b: string, c: string)
    requires Leq(a, b) && Leq(b, c)
    ensures Leq(a, c)
    decreases |a|
  {
    if a != "" && a[0] == b[0] == c[0] { LeqTransitive(a[1..], b[1..], c[1..]); }
  }

  /** `a` stands before `b` in a dictionary: at the first place where they differ
      it ends or has the smaller character. */
  ghost predicate Before(a: string, b: string) {
    exists k :: 0 <= k <= |a| && k < |b| && a[..k] == b[..k] && (k == |a| || a[k] < b[k])
  }

  lemma {:induction false} LeqIsBefore(a: string, b: string)
    ensures Leq(a, b) <==> a == b || Before(a, b)
    decreases |a|
  {
    if a == "" {
      if b != "" { assert a[..0] == b[..0]; }
    } else if b != "" && a[0] == b[0] {
      LeqIsBefore(a[1..], b[1..]);
      assert a == [a[0]] + a[1..] && b == [b[0]] + b[1..];
      BeforeBehind(a, b);
    } else if b != "" && a[0] < b[0] {
      assert a[..0] == b[..0];
    }
  }

  lemma BeforeBehind(a: string, b: string)
    requires a != "" && b != "" && a[0] == b[0]
    ensures Before(a, b) <==> Before(a[1..], b[1..])
  {
    if Before(a[1..], b[1..]) {
      var x, y := a[1..], b[1..];
      var k :| 0 <= k <= |x| && k < |y| && x[..k] == y[..k] && (k == |x| || x[k] < y[k]);
      assert a[..k + 1] == [a[0]] + x[..k] && b[..k + 1] == [b[0]] + y[..k];
    }
    if Before(a, b) {
      var k :| 0 <= k <= |a| && k < |b| && a[..k] == b[..k] && (k == |a| || a[k] < b[k]);
      assert k > 0;
      assert a[1..][..k - 1] == a[..k][1..] && b[1..][..k - 1] == b[..k][1..];
    }
  }

  ghost predicate IsLeast(k: string, keys: set<string>) {
    k in keys && forall o <- keys :: Leq(k, o)
  }

  lemma LeastOfMore(k: string, keys: set<string>, l: string)
    requires k in keys && IsLeast(l, keys - {k})
    ensures IsLeast(k, keys) || IsLeast(l, keys)
  {
    LeqTotal(k, k);
    LeqTotal(k, l);
    forall o <- keys ensures Leq(k, l) ==> Leq(k, o) {
      if Leq(k, l) && o != k { LeqTransitive(k, l, o); }
    }
  }

  lemma {:induction false} HasLeast(keys: set<string>)
    requires keys != {}
    ensures exists k :: IsLeast(k, keys)
    decreases |keys|
  {
    var k :| k in keys;
    if keys == {k} {
      LeqTotal(k, k);
      assert IsLeast(k, keys);
    } else {
      HasLeast(keys - {k});
      var l :| IsLeast(l, keys - {k});
      LeastOfMore(k, keys, l);
    }
  }

  /** The first name: what sorting puts in front. */
  ghost function Least(keys: set<string>): (k: string)
    requires keys != {}
    ensures IsLeast(k, keys)
  {
    HasLeast(keys);
    var k :| IsLeast(k, keys);
    k
  }

  /** `Object.keys(record).sort()` */
  ghost function SortedKeys(keys: set<string>): (sorted: seq<string>)
    ensures forall k :: k in sorted <==> k in keys
  {
    if keys == {} then [] else [Least(keys)] + SortedKeys(keys - {Least(keys)})
  }

  ghost predicate AscendingNames(names: seq<string>) {
    forall i, j :: 0 <= i < j < |names| ==> Leq(names[i], names[j]) && names[i] != names[j]
  }

  lemma LeastFirst(k: string, rest: seq<string>)
    requires AscendingNames(rest) && forall o <- rest :: Leq(k, o) && o != k
    ensures AscendingNames([k] + rest)
  {
    var names := [k] + rest;
    forall i, j | 0 <= i < j < |names| ensures Leq(names[i], names[j]) && names[i] != names[j] {
      assert names[j] == rest[j - 1] && rest[j - 1] in rest;
      if i > 0 { assert names[i] == rest[i - 1]; }
    }
  }

  /** The names ascend, each once. */
  lemma {:induction false} SortedKeysAscend(keys: set<string>)
    ensures AscendingNames(SortedKeys(keys))
    decreases |keys|
  {
    if keys != {} {
      SortedKeysAscend(keys - {Least(keys)});
      LeastFirst(Least(keys), SortedKeys(keys - {Least(keys)}));
    }
  }

  // ----- text

  function Digits(n: nat): string {
    if n < 10 then [('0' as int + n) as char] else Digits(n / 10) + [('0' as int + n % 10) as char]
  }

  function NumText(n: int): string {
    if n < 0 then "-" + Digits(-n) else Digits(n)
  }

  function HexDigit(d: nat): char
    requires d < 16
  {
    if d < 10 then ('0' as int + d) as char else ('a' as int + d - 10) as char
  }

  /** How JSON.stringify writes one character of a string. */
  function EscapeChar(c: char): string {
    if c == '"' then "\\\""
    else if c == '\\' then "\\\\"
    else if c as int == 0x08 then "\\b"
    else if c as int == 0x09 then "\\t"
    else if c as int == 0x0A then "\\n"
    else if c as int == 0x0C then "\\f"
    else if c as int == 0x0D then "\\r"
    else if (c as int) < 0x20 then "\\u00" + [HexDigit(c as int / 16), HexDigit(c as int % 16)]
    else [c]
  }

  function Escape(s: string): string {
    if s == "" then "" else EscapeChar(s[0]) + Escape(s[1..])
  }

  function StrText(s: string): string {
    "\"" + Escape(s) + "\""
  }

  ghost function Canon(v: Json): string
    decreases v, 0
  {
    match v
    case Null => "null"
    case Bool(b) => if b then "true" else "false"
    case Num(n) => NumText(n)
    case Str(s) => StrText(s)
    case Arr(items) => "[" + ItemsText(items) + "]"
    case Obj(fields) => "{" + MembersText(SortedKeys(fields.Keys), fields, v) + "}"
  }

  /** The items joined by commas. */
  ghost function ItemsText(items: seq<Json>): string
    decreases items, 1
  {
    if items == [] then ""
    else if |items| == 1 then Canon(items[0])
    else Canon(items[0]) + "," + ItemsText(items[1..])
  }

  /** The members with these names, joined by commas. */
  ghost function MembersText(keys: seq<string>, fields: map<string, Json>, whole: Json): string
    requires whole == Obj(fields) && forall k <- keys :: k in fields
    decreases whole, 0, |keys|
  {
    if keys == [] then ""
    else
      var member := StrText(keys[0]) + ":" + Canon(fields[keys[0]]);
      if |keys| == 1 then member else member + "," + MembersText(keys[1..], fields, whole)
  }

  // ----- reading the text back in only one way

  /** What may follow a value inside a text. */
  predicate Delimited(rest: string) {
    rest == "" || rest[0] in ",]}"
  }

  lemma SameHead(a: string, s: string, b: string, t: string)
    requires a + s == b + t && |a| == |b|
    ensures a == b && s == t
  {
    assert a == (a + s)[..|a|] && b == (b + t)[..|a|];
    assert s == (a + s)[|a|..] && t == (b + t)[|a|..];
  }

  lemma EscapeCharFirst(c: char)
    ensures |EscapeChar(c)| > 0 && EscapeChar(c)[0] != '"'
    ensures EscapeChar(c)[0] == '\\' <==> |EscapeChar(c)| > 1
    ensures |EscapeChar(c)| == 2 ==> EscapeChar(c)[1] != 'u'
    ensures |EscapeChar(c)| > 2 ==> |EscapeChar(c)| == 6 && EscapeChar(c)[1] == 'u'
  {
  }

  lemma EscapeCharInjective(c: char, d: char)
    requires EscapeChar(c) == EscapeChar(d)
    ensures c == d
  {
    if |EscapeChar(c)| == 6 {
      assert EscapeChar(c)[4] == EscapeChar(d)[4] && EscapeChar(c)[5] == EscapeChar(d)[5];
    } else if |EscapeChar(c)| == 2 {
      assert EscapeChar(c)[1] == EscapeChar(d)[1];
    } else {
      assert EscapeChar(c)[0] == EscapeChar(d)[0];
    }
  }

  lemma EscapeCharReads(c: char, s: string, d: char, t: string)
    requires EscapeChar(c) + s == EscapeChar(d) + t
    ensures c == d && s == t
  {
    var a, b := EscapeChar(c), EscapeChar(d);
    EscapeCharFirst(c);
    EscapeCharFirst(d);
    assert (a + s)[0] == a[0] && (b + t)[0] == b[0];
    assert |a| > 1 ==> (a + s)[1] == a[1];
    assert |b| > 1 ==> (b + t)[1] == b[1];
    SameHead(a, s, b, t);
    EscapeCharInjective(c, d);
  }

  lemma EscapeEnds(a: string, s: string)
    ensures (Escape(a) + ("\"" + s))[0] == '"' <==> a == ""
  {
    if a != "" { EscapeCharFirst(a[0]); }
  }

  lemma EscapeSplits(a: string, s: string)
    requires a != ""
    ensures Escape(a) + ("\"" + s) == EscapeChar(a[0]) + (Escape(a[1..]) + ("\"" + s))
  {
  }

  lemma {:induction false} EscapeReads(a: string, s: string, b: string, t: string)
    requires Escape(a) + ("\"" + s) == Escape(b) + ("\"" + t)
    ensures a == b && s == t
    decreases |a|
  {
    EscapeEnds(a, s);
    EscapeEnds(b, t);
    if a == "" {
      SameHead("", "\"" + s, "", "\"" + t);
      SameHead("\"", s, "\"", t);
    } else {
      EscapeSplits(a, s);
      EscapeSplits(b, t);
      EscapeCharReads(a[0], Escape(a[1..]) + ("\"" + s), b[0], Escape(b[1..]) + ("\"" + t));
      EscapeReads(a[1..], s, b[1..], t);
      assert a == [a[0]] + a[1..] && b == [b[0]] + b[1..];
    }
  }

  lemma StrReads(a: string, s: string, b: string, t: string)
    requires StrText(a) + s == StrText(b) + t
    ensures a == b && s == t
  {
    var x, y := Escape(a) + ("\"" + s), Escape(b) + ("\"" + t);
    assert StrText(a) + s == "\"" + x && StrText(b) + t == "\"" + y;
    SameHead("\"", x, "\"", y);
    EscapeReads(a, s, b, t);
  }

  function Value(digits: string): nat {
    if digits == "" || !IsDigit(digits[|digits| - 1]) then 0
    else Value(digits[..|digits| - 1]) * 10 + (digits[|digits| - 1] as int - '0' as int)
  }

  lemma {:induction false} DigitsValue(n: nat)
    ensures AllDigits(Digits(n)) && Value(Digits(n)) == n
    decreases n
  {
    if n < 10 {
      assert Digits(n)[..0] == "";
    } else {
      DigitsValue(n / 10);
      var d := Digits(n);
      assert d[..|d| - 1] == Digits(n / 10);
    }
  }

  /** How many digits a text begins with. */
  function DigitRun(text: string): nat {
    if text != "" && IsDigit(text[0]) then 1 + DigitRun(text[1..]) else 0
  }

  lemma {:induction false} DigitRunOf(x: string, rest: string)
    requires forall i :: 0 <= i < |x| ==> IsDigit(x[i])
    requires rest == "" || !IsDigit(rest[0])
    ensures DigitRun(x + rest) == |x|
    decreases |x|
  {
    if x == "" {
      assert x + rest == rest;
    } else {
      assert (x + rest)[1..] == x[1..] + rest;
      DigitRunOf(x[1..], rest);
    }
  }

  lemma DigitsRead(a: nat, s: string, b: nat, t: string)
    requires Digits(a) + s == Digits(b) + t
    requires (s == "" || !IsDigit(s[0])) && (t == "" || !IsDigit(t[0]))
    ensures a == b && s == t
  {
    DigitsValue(a);
    DigitsValue(b);
    DigitRunOf(Digits(a), s);
    DigitRunOf(Digits(b), t);
    SameHead(Digits(a), s, Digits(b), t);
  }

  /** The first character of a text tells what kind of value it begins. */
  function Kind(v: Json): int {
    match v
    case Null => 0
    case Bool(b) => if b then 1 else 2
    case Num(n) => if n < 0 then 3 else 4
    case Str(_) => 5
    case Arr(_) => 6
    case Obj(_) => 7
  }

  predicate Begins(kind: int, c: char) {
    match kind
    case 0 => c == 'n'
    case 1 => c == 't'
    case 2 => c == 'f'
    case 3 => c == '-'
    case 4 => IsDigit(c)
    case 5 => c == '"'
    case 6 => c == '['
    case 7 => c == '{'
    case _ => false
  }

  lemma CanonFirst(v: Json)
    ensures Canon(v) != "" && Begins(Kind(v), Canon(v)[0])
  {
    match v
    case Num(n) => DigitsValue(if n < 0 then -n else n);
    case _ =>
  }

  lemma SameKind(v: Json, s: string, w: Json, t: string)
    requires Canon(v) + s == Canon(w) + t
    ensures Kind(v) == Kind(w)
  {
    CanonFirst(v);
    CanonFirst(w);
    assert (Canon(v) + s)[0] == Canon(v)[0] && (Canon(w) + t)[0] == Canon(w)[0];
  }

  predicate SimpleValue(v: Json) {
    !v.Arr? && !v.Obj?
  }

  lemma NumReads(m: int, s: string, n: int, t: string)
    requires (m < 0) == (n < 0)
    requires Canon(Num(m)) + s == Canon(Num(n)) + t && Delimited(s) && Delimited(t)
    ensures m == n && s == t
  {
    if m < 0 {
      Regroup("-", Digits(-m), s);
      Regroup("-", Digits(-n), t);
      SameHead("-", Digits(-m) + s, "-", Digits(-n) + t);
      DigitsRead(-m, s, -n, t);
    } else {
      DigitsRead(m, s, n, t);
    }
  }

  lemma SimpleReads(v: Json, s: string, w: Json, t: string)
    requires SimpleValue(v) && Kind(v) == Kind(w)
    requires Canon(v) + s == Canon(w) + t && Delimited(s) && Delimited(t)
    ensures v == w && s == t
  {
    match v
    case Null => SameHead("null", s, "null", t);
    case Bool(b) => SameHead(Canon(v), s, Canon(w), t);
    case Num(n) => NumReads(n, s, w.n, t);
    case Str(x) => StrReads(x, s, w.s, t);
  }

  /** No text is the text of two values, even with more text after it. */
  lemma {:induction false} CanonReads(v: Json, s: string, w: Json, t: string)
    requires Canon(v) + s == Canon(w) + t && Delimited(s) && Delimited(t)
    ensures v == w && s == t
    decreases v, 0
  {
    SameKind(v, s, w, t);
    match v
    case Arr(xs) =>
      OpenItems(xs, s);
      OpenItems(w.items, t);
      SameHead("[", ItemsText(xs) + ("]" + s), "[", ItemsText(w.items) + ("]" + t));
      ItemsRead(xs, s, w.items, t);
    case Obj(f) =>
      var j, k := SortedKeys(f.Keys), SortedKeys(w.fields.Keys);
      OpenMembers(f, s);
      OpenMembers(w.fields, t);
      SameHead("{", MembersText(j, f, v) + ("}" + s), "{", MembersText(k, w.fields, w) + ("}" + t));
      MembersRead(j, f, v, s, k, w.fields, w, t);
      SameFields(f, w.fields);
    case _ => SimpleReads(v, s, w, t);
  }

  lemma OpenItems(xs: seq<Json>, s: string)
    ensures Canon(Arr(xs)) + s == "[" + (ItemsText(xs) + ("]" + s))
  {
  }

  lemma OpenMembers(f: map<string, Json>, s: string)
    ensures Canon(Obj(f)) + s == "{" + (MembersText(SortedKeys(f.Keys), f, Obj(f)) + ("}" + s))
  {
  }

  lemma SameFields(f: map<string, Json>, g: map<string, Json>)
    requires SortedKeys(f.Keys) == SortedKeys(g.Keys)
    requires forall x <- SortedKeys(f.Keys) :: x in f && x in g && f[x] == g[x]
    ensures f == g
  {
    assert forall x :: x in f <==> x in SortedKeys(f.Keys);
    assert forall x :: x in g <==> x in SortedKeys(g.Keys);
  }

  /** What follows the first item. */
  ghost function AfterItem(xs: seq<Json>, s: string): string
    requires xs != []
  {
    if |xs| == 1 then "]" + s else "," + (ItemsText(xs[1..]) + ("]" + s))
  }

  lemma FirstItem(xs: seq<Json>, s: string)
    requires xs != []
    ensures ItemsText(xs) + ("]" + s) == Canon(xs[0]) + AfterItem(xs, s)
  {
    if |xs| > 1 {
      var head, more, close := Canon(xs[0]), ItemsText(xs[1..]), "]" + s;
      Regroup(head, ",", more + close);
      Regroup(head + ",", more, close);
    }
  }

  lemma ItemsEnd(xs: seq<Json>, s: string)
    ensures (ItemsText(xs) + ("]" + s))[0] == ']' <==> xs == []
  {
    if xs != [] {
      CanonFirst(xs[0]);
      FirstItem(xs, s);
      assert (Canon(xs[0]) + AfterItem(xs, s))[0] == Canon(xs[0])[0];
    }
  }

  lemma {:induction false} ItemsRead(xs: seq<Json>, s: string, ys: seq<Json>, t: string)
    requires ItemsText(xs) + ("]" + s) == ItemsText(ys) + ("]" + t)
    ensures xs == ys && s == t
    decreases xs, 1
  {
    ItemsEnd(xs, s);
    ItemsEnd(ys, t);
    if xs == [] {
      SameHead("", "]" + s, "", "]" + t);
      SameHead("]", s, "]", t);
    } else {
      FirstItem(xs, s);
      FirstItem(ys, t);
      CanonReads(xs[0], AfterItem(xs, s), ys[0], AfterItem(ys, t));
      assert xs == [xs[0]] + xs[1..] && ys == [ys[0]] + ys[1..];
      assert (|xs| == 1) == (AfterItem(xs, s)[0] == ']') == (|ys| == 1);
      if |xs| == 1 {
        SameHead("]", s, "]", t);
      } else {
        SameHead(",", ItemsText(xs[1..]) + ("]" + s), ",", ItemsText(ys[1..]) + ("]" + t));
        ItemsRead(xs[1..], s, ys[1..], t);
      }
    }
  }

  /** What follows the first member. */
  ghost function AfterMember(j: seq<string>, f: map<string, Json>, s: string): string
    requires j != [] && forall x <- j :: x in f
  {
    if |j| == 1 then "}" + s else "," + (MembersText(j[1..], f, Obj(f)) + ("}" + s))
  }

  lemma OneMember(j: seq<string>, f: map<string, Json>, s: string)
    requires forall x <- j :: x in f
    ensures (MembersText(j, f, Obj(f)) + ("}" + s))[0] == '}' <==> j == []
    ensures j != [] ==>
              MembersText(j, f, Obj(f)) + ("}" + s)
              == StrText(j[0]) + (":" + (Canon(f[j[0]]) + AfterMember(j, f, s)))
  {
    if j != [] {
      var name, value, close := StrText(j[0]), Canon(f[j[0]]), "}" + s;
      if |j| > 1 {
        var more := MembersText(j[1..], f, Obj(f));
        Regroup(name + ":" + value, ",", more);
        Regroup(name + ":" + value, "," + more, close);
        Regroup(",", more, close);
      }
      Regroup(name + ":", value, AfterMember(j, f, s));
      Regroup(name, ":", value + AfterMember(j, f, s));
    }
  }

  lemma {:induction false} MembersRead(
      j: seq<string>, f: map<string, Json>, v: Json, s: string,
      k: seq<string>, g: map<string, Json>, w: Json, t: string)
    requires v == Obj(f) && w == Obj(g) && (forall x <- j :: x in f) && forall x <- k :: x in g
    requires MembersText(j, f, v) + ("}" + s) == MembersText(k, g, w) + ("}" + t)
    ensures j == k && s == t && forall x <- j :: f[x] == g[x]
    decreases v, 0, |j|
  {
    OneMember(j, f, s);
    OneMember(k, g, t);
    if j == [] {
      SameHead("", "}" + s, "", "}" + t);
      SameHead("}", s, "}", t);
    } else {
      var a, b := AfterMember(j, f, s), AfterMember(k, g, t);
      StrReads(j[0], ":" + (Canon(f[j[0]]) + a), k[0], ":" + (Canon(g[k[0]]) + b));
      SameHead(":", Canon(f[j[0]]) + a, ":", Canon(g[k[0]]) + b);
      CanonReads(f[j[0]], a, g[k[0]], b);
      assert j == [j[0]] + j[1..] && k == [k[0]] + k[1..];
      assert (|j| == 1) == (a[0] == '}') == (|k| == 1);
      if |j| == 1 {
        SameHead("}", s, "}", t);
      } else {
        SameHead(",", MembersText(j[1..], f, v) + ("}" + s), ",", MembersText(k[1..], g, w) + ("}" + t));
        MembersRead(j[1..], f, v, s, k[1..], g, w, t);
      }
    }
  }

  /** Two values have the same canonical text exactly when they are equal. */
  lemma CanonInjective(v: Json, w: Json)
    ensures Canon(v) == Canon(w) <==> v == w
  {
    if Canon(v) == Canon(w) {
      assert Canon(v) + "" == Canon(v) && Canon(w) + "" == Canon(w);
      CanonReads(v, "", w, "");
    }
  }
}
