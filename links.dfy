/** Parsing of the operator's input: the private-chat message link
    `https://t.me/c/<chat>/<message>` and the two-line link pair. */
module Links {
  import opened Outcomes

  /** The text every link must start with (the literal part of the pattern). */
  const Prefix: string := "https://t.me/c/"

  predicate StartsWith(s: string, p: string) {
    |p| <= |s| && s[..|p|] == p
  }

  /** A decimal digit, the class `\d` of the pattern restricted to ASCII. */
  predicate IsDigit(c: char) {
    '0' <= c <= '9'
  }

  /** Whitespace as Python's `str.strip()` removes it (ASCII range). */
  predicate IsSpace(c: char) {
    c == ' ' || ('\t' <= c <= '\r') || ('\U{1C}' <= c <= '\U{1F}')
  }

  predicate AllDigits(s: string) {
    forall k :: 0 <= k < |s| ==> IsDigit(s[k])
  }

  /** Length of the longest prefix of `s` whose characters all satisfy `p`. */
  function LeadingRun(s: string, p: char -> bool): (n: nat)
    ensures n <= |s|
    ensures forall k :: 0 <= k < n ==> p(s[k])
    ensures n < |s| ==> !p(s[n])
    decreases |s|
  {
    if |s| > 0 && p(s[0]) then 1 + LeadingRun(s[1..], p) else 0
  }

  /** Length of the longest suffix of `s` whose characters all satisfy `p`. */
  function TrailingRun(s: string, p: char -> bool): (n: nat)
    ensures n <= |s|
    ensures forall k :: |s| - n <= k < |s| ==> p(s[k])
    ensures n < |s| ==> !p(s[|s| - 1 - n])
    decreases |s|
  {
    if |s| > 0 && p(s[|s| - 1]) then 1 + TrailingRun(s[..|s| - 1], p) else 0
  }

  /** The digit character for 0 <= d < 10. */
  function DigitChar(d: nat): (c: char)
    requires d < 10
    ensures IsDigit(c) && (c as int) - ('0' as int) == d
  {
    ('0' as int + d) as char
  }

  /** The value of a string of decimal digits, as Python's `int()` reads it
      (for ASCII digits, and with no limit on the number of digits). */
  function DigitsValue(s: string): nat
    requires AllDigits(s)
    decreases |s|
  {
    if |s| == 0 then 0
    else DigitsValue(s[..|s| - 1]) * 10 + ((s[|s| - 1] as int) - ('0' as int))
  }

  /** The shortest decimal rendering of `n`. */
  function Decimal(n: nat): (s: string)
    ensures |s| > 0 && AllDigits(s)
    decreases n
  {
    if n < 10 then [DigitChar(n)] else Decimal(n / 10) + [DigitChar(n % 10)]
  }

  lemma {:induction false} DecimalValue(n: nat)
    ensures DigitsValue(Decimal(n)) == n
    decreases n
  {
    if n >= 10 {
      var s := Decimal(n);
      assert s[..|s| - 1] == Decimal(n / 10);
      DecimalValue(n / 10);
    }
  }

  /** The link of message `msg` in private chat `chat`. */
  function Link(chat: nat, msg: nat): string {
    Prefix + Decimal(chat) + "/" + Decimal(msg)
  }

  /** `link` is `Prefix`, digits `a`, a slash, digits `b`, then anything `t`:
      the pattern matched at the start of the string only. */
  ghost predicate LinkShape(link: string, a: string, b: string, t: string) {
    && |a| > 0 && AllDigits(a)
    && |b| > 0 && AllDigits(b)
    && link == Prefix + a + "/" + b + t
  }

  ghost predicate IsLink(link: string) {
    exists a, b, t :: LinkShape(link, a, b, t)
  }

  /** `parse_tg_link`: the chat id and message id of a link, `None` (the
      source's `(None, None)`) when the pattern does not match. */
  function ParseTgLink(link: string): (r: Option<(nat, nat)>)
    ensures r.Some? ==> StartsWith(link, Prefix) && |link| >= |Prefix| + 3
  {
    if !StartsWith(link, Prefix) then None else ParseIds(link[|Prefix|..])
  }

  /** The part of the pattern after the prefix: digits, a slash, digits. */
  function ParseIds(rest: string): (r: Option<(nat, nat)>)
    ensures r.Some? ==> |rest| >= 3
  {
    var n := LeadingRun(rest, IsDigit);
    if n == 0 || n == |rest| || rest[n] != '/' then None
    else
      var tail := rest[n + 1..];
      var m := LeadingRun(tail, IsDigit);
      if m == 0 then None
      else Some((DigitsValue(rest[..n]), DigitsValue(tail[..m])))
  }

  lemma {:induction false} RunOfDigits(a: string, t: string)
    requires AllDigits(a)
    ensures LeadingRun(a + t, IsDigit) >= |a|
    ensures t == [] || !IsDigit(t[0]) ==> LeadingRun(a + t, IsDigit) == |a|
    decreases |a|
  {
    if |a| > 0 {
      assert (a + t)[1..] == a[1..] + t;
      RunOfDigits(a[1..], t);
    } else {
      assert a + t == t;
    }
  }

  /** The parser succeeds exactly on the strings the anchored pattern matches. */
  lemma {:induction false} ParseTgLinkMatches(link: string)
    ensures ParseTgLink(link).Some? <==> IsLink(link)
  {
    if ParseTgLink(link).Some? {
      var a, b, t := ShapeOfParse(link);
    }
    if IsLink(link) {
      var a, b, t :| LinkShape(link, a, b, t);
      ParseOfShape(link, a, b, t);
    }
  }

  /** The pieces the parser found, as a witness of the pattern: the second
      digit run is taken whole, and the ids are the values of the two runs. */
  lemma {:induction false} ShapeOfParse(link: string) returns (a: string, b: string, t: string)
    requires ParseTgLink(link).Some?
    ensures LinkShape(link, a, b, t)
    ensures t == [] || !IsDigit(t[0])
    ensures ParseTgLink(link) == Some((DigitsValue(a), DigitsValue(b)))
  {
    var rest := link[|Prefix|..];
    assert link[..|Prefix|] == Prefix;
    a, b, t := PiecesOfIds(rest);
    assert link == Prefix + rest == Prefix + a + "/" + b + t;
  }

  /** The same pieces for the part after the prefix. */
  lemma {:induction false} PiecesOfIds(rest: string) returns (a: string, b: string, t: string)
    requires ParseIds(rest).Some?
    ensures |a| > 0 && AllDigits(a) && |b| > 0 && AllDigits(b)
    ensures rest == a + "/" + b + t
    ensures t == [] || !IsDigit(t[0])
    ensures ParseIds(rest) == Some((DigitsValue(a), DigitsValue(b)))
  {
    var n := LeadingRun(rest, IsDigit);
    var tail := rest[n + 1..];
    var m := LeadingRun(tail, IsDigit);
    a, b, t := rest[..n], tail[..m], tail[m..];
    assert tail == b + t;
    assert rest == a + "/" + tail;
  }

  /** A link whose first digit run is `a` and whose second digit run starts
      with `b` parses, and the chat id is the value of `a`. */
  lemma {:induction false} ParseOfShape(link: string, a: string, b: string, t: string)
    requires LinkShape(link, a, b, t)
    ensures ParseTgLink(link).Some? && ParseTgLink(link).value.0 == DigitsValue(a)
  {
    var rest := "/" + b + t;
    assert link == Prefix + (a + rest);
    assert link[..|Prefix|] == Prefix;
    assert link[|Prefix|..] == a + rest;
    IdsOfShape(a, b, t);
  }

  lemma {:induction false} IdsOfShape(a: string, b: string, t: string)
    requires |a| > 0 && AllDigits(a) && |b| > 0 && AllDigits(b)
    ensures var r := ParseIds(a + ("/" + b + t));
      && r.Some? && r.value.0 == DigitsValue(a)
      && (t == [] || !IsDigit(t[0]) ==> r.value.1 == DigitsValue(b))
  {
    var rest := a + ("/" + b + t);
    RunOfDigits(a, "/" + b + t);
    assert rest[|a|] == '/';
    assert rest[..|a|] == a;
    var tail := rest[|a| + 1..];
    assert tail == b + t;
    RunOfDigits(b, t);
    assert tail[..|b|] == b;
  }

  /** Greedy matching: when the second digit run is all of `b`, the message id
      is the value of `b`; the text after it is ignored. */
  lemma {:induction false} ParseTgLinkValue(link: string, a: string, b: string, t: string)
    requires LinkShape(link, a, b, t)
    requires t == [] || !IsDigit(t[0])
    ensures ParseTgLink(link) == Some((DigitsValue(a), DigitsValue(b)))
  {
    var rest := "/" + b + t;
    assert link == Prefix + (a + rest);
    assert link[..|Prefix|] == Prefix;
    assert link[|Prefix|..] == a + rest;
    IdsOfShape(a, b, t);
  }

  /** A link built from two ids parses back to those ids, whatever follows it
      (as long as it does not continue the message id). */
  lemma LinkRoundTrip(chat: nat, msg: nat, t: string)
    requires t == [] || !IsDigit(t[0])
    ensures ParseTgLink(Link(chat, msg) + t) == Some((chat, msg))
  {
    assert Link(chat, msg) + t == Prefix + Decimal(chat) + "/" + Decimal(msg) + t;
    ParseTgLinkValue(Link(chat, msg) + t, Decimal(chat), Decimal(msg), t);
    DecimalValue(chat);
    DecimalValue(msg);
  }

  /** Python's `str.strip()`: `s` without its leading and trailing whitespace. */
  function Strip(s: string): (r: string)
    ensures |r| <= |s|
    ensures var i := LeadingRun(s, IsSpace);
      && i + |r| <= |s|
      && r == s[i..i + |r|]
      && (forall k :: 0 <= k < i ==> IsSpace(s[k]))
      && (forall k :: i + |r| <= k < |s| ==> IsSpace(s[k]))
    ensures r == [] || (!IsSpace(r[0]) && !IsSpace(r[|r| - 1]))
  {
    var i := LeadingRun(s, IsSpace);
    var rest := s[i..];
    var j := TrailingRun(rest, IsSpace);
    rest[..|rest| - j]
  }

  lemma StripUnchanged(s: string)
    requires |s| > 0 && !IsSpace(s[0]) && !IsSpace(s[|s| - 1])
    ensures Strip(s) == s
  {
  }

  /** Python's `s.split("\n")`: the pieces between newlines, always at least one. */
  function SplitLines(s: string): (r: seq<string>)
    ensures |r| >= 1
    decreases |s|
  {
    if |s| == 0 then [""]
    else
      var rest := SplitLines(s[1..]);
      if s[0] == '\n' then [""] + rest
      else [[s[0]] + rest[0]] + rest[1..]
  }

  /** The inverse of `SplitLines`: the pieces joined with newlines. */
  function JoinLines(pieces: seq<string>): string
    requires |pieces| >= 1
    decreases |pieces|
  {
    if |pieces| == 1 then pieces[0] else pieces[0] + "\n" + JoinLines(pieces[1..])
  }

  function NewlineCount(s: string): nat
    decreases |s|
  {
    if |s| == 0 then 0 else (if s[0] == '\n' then 1 else 0) + NewlineCount(s[1..])
  }

  /** Splitting then joining gives the text back, no piece holds a newline,
      and there is one piece more than there are newlines. */
  lemma {:induction false} SplitLinesProperties(s: string)
    ensures JoinLines(SplitLines(s)) == s
    ensures forall i :: 0 <= i < |SplitLines(s)| ==> '\n' !in SplitLines(s)[i]
    ensures |SplitLines(s)| == NewlineCount(s) + 1
    decreases |s|
  {
    if |s| > 0 {
      SplitLinesProperties(s[1..]);
      var rest := SplitLines(s[1..]);
      if s[0] == '\n' {
        assert SplitLines(s)[1..] == rest;
      } else {
        var r := SplitLines(s);
        assert r[1..] == rest[1..];
        assert forall i :: 1 <= i < |r| ==> r[i] == rest[i];
        if |rest| == 1 {
          assert JoinLines(r) == [s[0]] + rest[0];
        } else {
          assert JoinLines(r) == [s[0]] + rest[0] + "\n" + JoinLines(rest[1..]);
        }
        assert s == [s[0]] + s[1..];
      }
    }
  }

  /** Pieces without newlines are recovered from their join. */
  lemma {:induction false} SplitJoin(pieces: seq<string>)
    requires |pieces| >= 1
    requires forall i :: 0 <= i < |pieces| ==> '\n' !in pieces[i]
    ensures SplitLines(JoinLines(pieces)) == pieces
    decreases |pieces|
  {
    if |pieces| == 1 {
      SplitOfPlain(pieces[0], "", []);
      assert pieces[0] + "" == pieces[0];
      assert [pieces[0]] == pieces;
    } else {
      SplitJoin(pieces[1..]);
      var rest := "\n" + JoinLines(pieces[1..]);
      assert rest[1..] == JoinLines(pieces[1..]);
      SplitOfPlain(pieces[0], rest, pieces[1..]);
      assert JoinLines(pieces) == pieces[0] + rest;
      assert [pieces[0]] + pieces[1..] == pieces;
    }
  }

  /** Splitting `p + rest`, where `p` holds no newline and `rest` is empty or
      starts with one, extends the first piece of `rest`'s split by `p`. */
  lemma {:induction false} SplitOfPlain(p: string, rest: string, after: seq<string>)
    requires '\n' !in p
    requires rest == [] ==> after == []
    requires rest != [] ==> rest[0] == '\n' && SplitLines(rest[1..]) == after
    ensures SplitLines(p + rest) == [p] + after
    decreases |p|
  {
    if |p| == 0 {
      assert p + rest == rest;
      if rest != [] {
        assert SplitLines(rest) == [""] + after;
      }
    } else {
      assert (p + rest)[1..] == p[1..] + rest;
      SplitOfPlain(p[1..], rest, after);
      assert [p[0]] + p[1..] == p;
    }
  }

  /** The range a two-line link request names: the chat and message id of the
      first link and the message id of the second (its chat id is unused). */
  datatype RangeRequest =
    | WrongLineCount
    | LinkPair(chat: Option<nat>, minId: Option<nat>, maxId: Option<nat>)

  function ChatIdOf(p: Option<(nat, nat)>): Option<nat> {
    if p.Some? then Some(p.value.0) else None
  }

  function MessageIdOf(p: Option<(nat, nat)>): Option<nat> {
    if p.Some? then Some(p.value.1) else None
  }

  /** The text is stripped and split at newlines; anything but two lines is
      refused, otherwise both lines go through `ParseTgLink`. */
  function Range(text: string): (r: RangeRequest)
    ensures r.WrongLineCount? <==> NewlineCount(Strip(text)) != 1
    ensures r.LinkPair? ==>
      var lines := SplitLines(Strip(text));
      && |lines| == 2
      && r.chat == ChatIdOf(ParseTgLink(lines[0]))
      && r.minId == MessageIdOf(ParseTgLink(lines[0]))
      && r.maxId == MessageIdOf(ParseTgLink(lines[1]))
  {
    SplitLinesProperties(Strip(text));
    var lines := SplitLines(Strip(text));
    if |lines| != 2 then WrongLineCount
    else
      var first := ParseTgLink(lines[0]);
      var second := ParseTgLink(lines[1]);
      LinkPair(ChatIdOf(first), MessageIdOf(first), MessageIdOf(second))
  }

  /** Two links on two lines name the first link's chat and the range from the
      first link's message to the second's; the second link's chat is ignored. */
  lemma RangeOfTwoLinks(chat: nat, start: nat, otherChat: nat, end: nat)
    ensures Range(Link(chat, start) + "\n" + Link(otherChat, end))
         == LinkPair(Some(chat), Some(start), Some(end))
  {
    var first, second := Link(chat, start), Link(otherChat, end);
    var text := first + "\n" + second;
    assert text[0] == 'h';
    var d := Decimal(end);
    assert second == Prefix + Decimal(otherChat) + "/" + d;
    assert text[|text| - 1] == d[|d| - 1];
    StripUnchanged(text);
    NoNewlineInLink(chat, start);
    NoNewlineInLink(otherChat, end);
    SplitJoin([first, second]);
    assert JoinLines([first, second]) == text;
    LinkRoundTrip(chat, start, "");
    LinkRoundTrip(otherChat, end, "");
    assert first + "" == first && second + "" == second;
  }

  lemma NoNewlineInLink(chat: nat, msg: nat)
    ensures '\n' !in Link(chat, msg)
  {
    var l := Link(chat, msg);
    forall k | 0 <= k < |l| ensures l[k] != '\n' {
      var c, m := Decimal(chat), Decimal(msg);
      assert l == Prefix + c + "/" + m;
      if k < |Prefix| {
        assert l[k] == Prefix[k];
      } else if k < |Prefix| + |c| {
        assert l[k] == c[k - |Prefix|];
      } else if k > |Prefix| + |c| {
        assert l[k] == m[k - |Prefix| - |c| - 1];
      }
    }
  }
}
