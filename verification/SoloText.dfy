/**
 The text operations of the solo runtime codec: trimming, decimal numbers, splitting a packed item,
 and the order names are sorted in.
 */
module SoloText {
  import opened MemoryModel
  import opened RestoreCodec

  // ---------------------------------------------------------------- trimming

  /** The white space strings.TrimSpace removes. */
  predicate IsSpace(c: char) {
    || c == ' ' || '\t' <= c <= '\r' || c == '\U{85}' || c == '\U{A0}' || c == '\U{1680}' || '\U{2000}' <= c <= '\U{200A}'
    || c == '\U{2028}' || c == '\U{2029}' || c == '\U{202F}' || c == '\U{205F}' || c == '\U{3000}'
  }

  function TrimLeft(s: string): string {
    if s != "" && IsSpace(s[0]) then TrimLeft(s[1..]) else s
  }

  function TrimRight(s: string): string {
    if s != "" && IsSpace(s[|s| - 1]) then TrimRight(s[..|s| - 1]) else s
  }

  function Trim(s: string): string {
    TrimRight(TrimLeft(s))
  }

  predicate Trimmed(s: string) {
    s != "" ==> !IsSpace(s[0]) && !IsSpace(s[|s| - 1])
  }

  /** Length in bytes of the UTF-8 encoding. */
  function Bytes(s: string): nat {
    if s == "" then 0
    else Bytes(s[..|s| - 1]) + Width(s[|s| - 1])
  }

  function Width(c: char): nat {
    if c < '\U{80}' then 1 else if c < '\U{800}' then 2 else if c < '\U{10000}' then 3 else 4
  }

  lemma {:induction false} BytesTail(s: string)
    requires s != ""
    ensures Bytes(s) == Width(s[0]) + Bytes(s[1..])
    decreases |s|
  {
    if |s| > 1 {
      BytesTail(s[..|s| - 1]);
      assert s[..|s| - 1][1..] == s[1..][..|s| - 2];
    }
  }

  lemma {:induction false} TrimLeftIs(s: string)
    ensures var t := TrimLeft(s);
      && |t| <= |s| && Bytes(t) <= Bytes(s) && (t != "" ==> !IsSpace(t[0]) && t[|t| - 1] == s[|s| - 1])
  {
    if s != "" && IsSpace(s[0]) {
      BytesTail(s);
      TrimLeftIs(s[1..]);
    }
  }

  lemma {:induction false} TrimRightIs(s: string)
    ensures var t := TrimRight(s);
      && |t| <= |s| && Bytes(t) <= Bytes(s) && (t != "" ==> !IsSpace(t[|t| - 1]) && t[0] == s[0])
  {
    if s != "" && IsSpace(s[|s| - 1]) {
      TrimRightIs(s[..|s| - 1]);
    }
  }

  /** Trimming leaves nothing to trim and never makes a text longer; what is trimmed stays as it is. */
  lemma TrimIs(s: string)
    ensures Trimmed(Trim(s)) && |Trim(s)| <= |s| && Bytes(Trim(s)) <= Bytes(s)
    ensures Trimmed(s) ==> Trim(s) == s
  {
    TrimLeftIs(s);
    TrimRightIs(TrimLeft(s));
  }

  predicate Blank(s: string) {
    forall i :: 0 <= i < |s| ==> IsSpace(s[i])
  }

  lemma {:induction false} TrimLeftCuts(s: string) returns (a: nat)
    ensures a <= |s| && TrimLeft(s) == s[a..] && Blank(s[..a])
  {
    if s != "" && IsSpace(s[0]) {
      a := TrimLeftCuts(s[1..]);
      assert s[1..][a..] == s[a + 1..];
      var cut, rest := s[..a + 1], s[1..][..a];
      forall i | 0 <= i < |cut| ensures IsSpace(cut[i]) {
        assert i > 0 ==> rest[i - 1] == cut[i];
      }
      a := a + 1;
    } else {
      a := 0;
    }
  }

  lemma {:induction false} TrimRightCuts(s: string) returns (b: nat)
    ensures b <= |s| && TrimRight(s) == s[..b] && Blank(s[b..])
    decreases |s|
  {
    if s != "" && IsSpace(s[|s| - 1]) {
      b := TrimRightCuts(s[..|s| - 1]);
      assert s[..|s| - 1][..b] == s[..b];
      var cut, rest := s[b..], s[..|s| - 1][b..];
      forall i | 0 <= i < |cut| ensures IsSpace(cut[i]) {
        assert i < |rest| ==> rest[i] == cut[i];
      }
    } else {
      b := |s|;
      assert s[..b] == s;
    }
  }

  /** Only white space goes, and only at the ends. */
  lemma TrimCuts(s: string) returns (a: nat, b: nat)
    ensures a <= b <= |s| && Trim(s) == s[a..b] && Blank(s[..a]) && Blank(s[b..])
  {
    a := TrimLeftCuts(s);
    var n := TrimRightCuts(s[a..]);
    b := a + n;
    assert s[a..][..n] == s[a..b] && s[a..][n..] == s[b..];
  }

  // ---------------------------------------------------------------- decimal numbers

  type Int64 = n: int | -0x8000_0000_0000_0000 <= n <= 0x7FFF_FFFF_FFFF_FFFF

  function Digits(n: nat): (s: string)
    ensures s != "" && forall c :: c in s ==> '0' <= c <= '9'
  {
    if n < 10 then [(n + '0' as int) as char] else Digits(n / 10) + [(n % 10 + '0' as int) as char]
  }

  lemma {:induction false} DecimalDigits(n: nat)
    ensures Decimal(Digits(n)) == Some(n)
  {
    if n >= 10 {
      var front := Digits(n / 10);
      DecimalDigits(n / 10);
      assert Digits(n)[..|Digits(n)| - 1] == front;
    }
  }

  /** strconv.ParseInt and Atoi, base ten. */
  function ParseInt(s: string): Option<int> {
    var value: Option<int> :=
      if s != "" && s[0] == '-' then (if Decimal(s[1..]).Some? then Some(0 - Decimal(s[1..]).value) else None)
      else if s != "" && s[0] == '+' then Decimal(s[1..])
      else Decimal(s);
    if value.Some? && -0x8000_0000_0000_0000 <= value.value <= 0x7FFF_FFFF_FFFF_FFFF then value else None
  }

  lemma ParseDigits(n: nat)
    requires n <= 0x7FFF_FFFF_FFFF_FFFF
    ensures ParseInt(Digits(n)) == Some(n)
  {
    DecimalDigits(n);
    assert Digits(n)[0] in Digits(n);
  }

  /** An optional sign before a decimal number, within sixty-four bits. */
  lemma ParseIntReads(s: string)
    requires s != "" ==> s[0] != '-' && s[0] != '+'
    ensures ParseInt(s) == if Decimal(s).Some? && Decimal(s).value <= 9223372036854775807 then Some(Decimal(s).value as int) else None
    ensures ParseInt("+" + s) == ParseInt(s)
    ensures ParseInt("-" + s).Some? <==> Decimal(s).Some? && Decimal(s).value <= 9223372036854775808
    ensures ParseInt("-" + s).Some? ==> ParseInt("-" + s).value + Decimal(s).value == 0
  {
    assert ("+" + s)[1..] == s && ("-" + s)[1..] == s;
  }

  lemma {:induction false} DecimalNeedsDigits(s: string, i: nat)
    requires i < |s| && Digit(s[i]).None?
    ensures Decimal(s).None?
    decreases |s|
  {
    if i < |s| - 1 {
      DecimalNeedsDigits(s[..|s| - 1], i);
    }
  }

  /** A number with a letter in it does not parse. */
  lemma LetterRefused(s: string)
    requires 'e' in s
    ensures ParseInt(s).None?
  {
    var i :| 0 <= i < |s| && s[i] == 'e';
    DecimalNeedsDigits(s, i);
    if i > 0 {
      DecimalNeedsDigits(s[1..], i - 1);
    }
  }

  const LUA_DIGITS: nat := 100_000_000_000_000

  /** tostring of a Lua number: fourteen significant digits, beyond which it has an exponent. */
  predicate LuaShows(n: nat, shown: string) {
    if n < LUA_DIGITS then shown == Digits(n) else 'e' in shown
  }

  // ---------------------------------------------------------------- packed items

  /** Where the first bar is. */
  function Bar(s: string): (i: nat)
    ensures i <= |s| && (forall j :: 0 <= j < i ==> s[j] != '|') && (i < |s| ==> s[i] == '|')
  {
    if s == "" || s[0] == '|' then 0 else 1 + Bar(s[1..])
  }

  /** SplitN(s, "|", 3), when there are three parts. */
  function Split(s: string): Option<(string, string, string)> {
    var i := Bar(s);
    if i == |s| then None
    else
      var rest := s[i + 1..];
      var j := Bar(rest);
      if j == |rest| then None else Some((s[..i], rest[..j], rest[j + 1..]))
  }

  function Join(a: string, b: string, c: string): string {
    a + "|" + b + "|" + c
  }

  lemma SplitJoin(a: string, b: string, c: string)
    requires '|' !in a && '|' !in b
    ensures Split(Join(a, b, c)) == Some((a, b, c))
  {
    var s := Join(a, b, c);
    var rest := b + "|" + c;
    assert s[|a|] == '|' && forall j :: 0 <= j < |a| ==> s[j] == a[j];
    assert s[|a| + 1..] == rest;
    assert rest[|b|] == '|' && forall j :: 0 <= j < |b| ==> rest[j] == b[j];
    assert s[..|a|] == a && rest[..|b|] == b && rest[|b| + 1..] == c;
  }

  lemma CutAtBar(s: string)
    requires Bar(s) < |s|
    ensures s == s[..Bar(s)] + "|" + s[Bar(s) + 1..] && '|' !in s[..Bar(s)]
  {
    CutAt(s, Bar(s));
    assert [s[Bar(s)]] == "|";
  }

  lemma CutAt(s: string, i: nat)
    requires i < |s|
    ensures s == s[..i] + [s[i]] + s[i + 1..]
  {
  }

  /** Three parts are the texts before, between and after the first two bars. */
  lemma SplitParts(s: string)
    requires Split(s).Some?
    ensures var (a, b, c) := Split(s).value; s == Join(a, b, c) && '|' !in a && '|' !in b
  {
    var rest := s[Bar(s) + 1..];
    CutAtBar(s);
    CutAtBar(rest);
    JoinInner(s[..Bar(s)], rest[..Bar(rest)], rest[Bar(rest) + 1..]);
  }

  lemma JoinInner(a: string, b: string, c: string)
    ensures a + "|" + (b + "|" + c) == Join(a, b, c)
  {
    assert a + "|" + (b + "|" + c) == a + "|" + (b + "|") + c;
    assert a + "|" + (b + "|") == a + "|" + b + "|";
  }

  /** There are three parts wherever there are two bars. */
  lemma SplitFails(s: string, i: nat, j: nat)
    requires i < j < |s| && s[i] == '|' && s[j] == '|'
    ensures Split(s).Some?
  {
    var k := Bar(s);
    assert s[k + 1..][j - k - 1] == '|';
  }

  // ---------------------------------------------------------------- sorting by name

  predicate Less(a: string, b: string) {
    b != "" && (a == "" || a[0] < b[0] || (a[0] == b[0] && Less(a[1..], b[1..])))
  }

  lemma {:induction false} LessTrans(a: string, b: string, c: string)
    requires Less(a, b) && Less(b, c)
    ensures Less(a, c)
  {
    if a != "" && a[0] == b[0] == c[0] {
      LessTrans(a[1..], b[1..], c[1..]);
    }
  }

  lemma {:induction false} LessTotal(a: string, b: string)
    ensures !(Less(a, b) && Less(b, a))
    ensures a == b <==> !Less(a, b) && !Less(b, a)
  {
    if a != "" && b != "" {
      LessTotal(a[1..], b[1..]);
      assert a == [a[0]] + a[1..] && b == [b[0]] + b[1..];
    }
  }

  datatype Named<T> = Named(name: string, body: T)

  predicate Distinct<T>(s: seq<Named<T>>) {
    forall i, j :: 0 <= i < j < |s| ==> s[i].name != s[j].name
  }

  predicate Ordered<T>(s: seq<Named<T>>) {
    forall i, j :: 0 <= i < j < |s| ==> Less(s[i].name, s[j].name)
  }

  function Place<T>(x: Named<T>, s: seq<Named<T>>): seq<Named<T>> {
    if s == [] || Less(x.name, s[0].name) then [x] + s else [s[0]] + Place(x, s[1..])
  }

  function Sort<T>(s: seq<Named<T>>): seq<Named<T>> {
    if s == [] then [] else Place(s[0], Sort(s[1..]))
  }

  lemma LaterIsMore<T>(s: seq<Named<T>>, y: Named<T>)
    requires s != [] && Ordered(s) && y in s[1..]
    ensures Less(s[0].name, y.name)
  {
    var k :| 0 <= k < |s[1..]| && s[1..][k] == y;
    assert s[k + 1] == y;
  }

  lemma LaterIsOther<T>(s: seq<Named<T>>, y: Named<T>)
    requires s != [] && Distinct(s) && y in s[1..]
    ensures y.name != s[0].name
  {
    var k :| 0 <= k < |s[1..]| && s[1..][k] == y;
    assert s[k + 1] == y;
  }

  lemma {:induction false} PlaceHas<T>(x: Named<T>, s: seq<Named<T>>, y: Named<T>)
    ensures y in Place(x, s) <==> y == x || y in s
  {
    if s != [] && !Less(x.name, s[0].name) {
      PlaceHas(x, s[1..], y);
      assert s == [s[0]] + s[1..];
    }
  }

  lemma {:induction false} SortHas<T>(s: seq<Named<T>>, y: Named<T>)
    ensures y in Sort(s) <==> y in s
  {
    if s != [] {
      SortHas(s[1..], y);
      PlaceHas(s[0], Sort(s[1..]), y);
      assert s == [s[0]] + s[1..];
    }
  }

  /** Every name of `s` differs from `name`. */
  predicate Without<T>(s: seq<Named<T>>, name: string) {
    forall i :: 0 <= i < |s| ==> s[i].name != name
  }

  lemma {:induction false} PlaceIs<T>(x: Named<T>, s: seq<Named<T>>)
    requires Ordered(s) && Without(s, x.name)
    ensures Ordered(Place(x, s)) && |Place(x, s)| == |s| + 1
  {
    if s != [] {
      LessTotal(x.name, s[0].name);
      if Less(x.name, s[0].name) {
        forall j | 0 <= j < |s| ensures Less(x.name, s[j].name) {
          if j > 0 {
            LessTrans(x.name, s[0].name, s[j].name);
          }
        }
      } else {
        PlaceIs(x, s[1..]);
        var rest := Place(x, s[1..]);
        forall j | 0 <= j < |rest| ensures Less(s[0].name, rest[j].name) {
          PlaceHas(x, s[1..], rest[j]);
          if rest[j] != x {
            LaterIsMore(s, rest[j]);
          }
        }
      }
    }
  }

  lemma {:induction false} SortIs<T>(s: seq<Named<T>>)
    requires Distinct(s)
    ensures Ordered(Sort(s)) && |Sort(s)| == |s|
  {
    if s != [] {
      SortIs(s[1..]);
      var rest := Sort(s[1..]);
      forall i | 0 <= i < |rest| ensures rest[i].name != s[0].name {
        SortHas(s[1..], rest[i]);
        LaterIsOther(s, rest[i]);
      }
      PlaceIs(s[0], rest);
    }
  }

  /** There is only one way to put distinct names in order. */
  lemma {:induction false} OrderIsUnique<T>(a: seq<Named<T>>, b: seq<Named<T>>)
    requires Ordered(a) && Ordered(b) && forall y :: y in a <==> y in b
    ensures a == b
    decreases |a|
  {
    if a == [] {
      if b != [] {
        HasFirst(b);
      }
    } else {
      assert a[0] in a;
      FirstIsLeast(a, b);
      forall y | y in a[1..] ensures y in b[1..] {
        TailElements(a, y);
        TailElements(b, y);
      }
      forall y | y in b[1..] ensures y in a[1..] {
        TailElements(a, y);
        TailElements(b, y);
      }
      OrderIsUnique(a[1..], b[1..]);
    }
  }

  lemma HasFirst<T>(b: seq<Named<T>>)
    requires b != []
    ensures b[0] in b
  {
  }

  lemma TailElements<T>(a: seq<Named<T>>, y: Named<T>)
    requires a != [] && Ordered(a)
    ensures y in a[1..] <==> y in a && y != a[0]
  {
    LessTotal(a[0].name, a[0].name);
    assert a == [a[0]] + a[1..];
  }

  lemma FirstIsLeast<T>(a: seq<Named<T>>, b: seq<Named<T>>)
    requires Ordered(a) && Ordered(b) && (forall y :: y in a <==> y in b) && a != []
    ensures b != [] && a[0] == b[0]
  {
    assert a[0] in a && b[0] in b;
    var j :| 0 <= j < |b| && b[j] == a[0];
    var k :| 0 <= k < |a| && a[k] == b[0];
    LessTotal(a[0].name, b[0].name);
  }
}
