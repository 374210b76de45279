/** SQLite's LIKE, and the JSON text of a lineage that it is matched against. */
module Sql {
  import opened Basics

  /** LIKE takes ASCII letters of either case as the same. */
  function Fold(c: char): (r: char)
    ensures r == '"' <==> c == '"'
  {
    if 'A' <= c <= 'Z' then (c as int + 32) as char else c
  }

  /** The folded text. */
  function Lower(s: string): (r: string)
    ensures |r| == |s|
    ensures forall i | 0 <= i < |s| :: r[i] == Fold(s[i])
  {
    seq(|s|, i requires 0 <= i < |s| => Fold(s[i]))
  }

  /** `text LIKE pattern`: `%` stands for any text and `_` for any character. */
  predicate Like(pattern: string, text: string)
    decreases |pattern| + |text|
  {
    if pattern == "" then text == ""
    else if pattern[0] == '%' then Like(pattern[1..], text) || (text != "" && Like(pattern, text[1..]))
    else text != "" && (pattern[0] == '_' || Fold(pattern[0]) == Fold(text[0])) && Like(pattern[1..], text[1..])
  }

  const HEX := "0123456789abcdef"

  /** A character inside a JSON string. */
  function Escaped(c: char): (s: string) {
    if c == '"' then "\\\""
    else if c == '\\' then "\\\\"
    else if c == '\U{08}' then "\\b"
    else if c == '\t' then "\\t"
    else if c == '\n' then "\\n"
    else if c == '\U{0C}' then "\\f"
    else if c == '\r' then "\\r"
    else if c < ' ' then "\\u00" + [HEX[c as int / 16], HEX[c as int % 16]]
    else [c]
  }

  function EscapedText(s: string): (r: string) {
    if s == "" then "" else Escaped(s[0]) + EscapedText(s[1..])
  }

  /** A JSON string. */
  function Quoted(s: string): (r: string) {
    "\"" + EscapedText(s) + "\""
  }

  function QuotedAll(ids: seq<Id>): (r: string) {
    if ids == [] then ""
    else if |ids| == 1 then Quoted(ids[0])
    else Quoted(ids[0]) + "," + QuotedAll(ids[1..])
  }

  /** The `lineage` column. */
  function LineageText(lineage: seq<Id>): (r: string) {
    "[" + QuotedAll(lineage) + "]"
  }

  /** The pattern of `list_descendants`. */
  function LineagePattern(ancestor: Id): (p: string) {
    "%\"" + ancestor + "\"%"
  }

  /** Whether the query for this ancestor selects a row with this lineage. */
  predicate Names(ancestor: Id, lineage: seq<Id>) {
    Like(LineagePattern(ancestor), LineageText(lineage))
  }

  // ----- what LIKE decides ----------------------------------------------------------------

  /** `%` skips any prefix of the text. */
  lemma {:induction false} PercentSkips(p: string, text: string)
    ensures Like("%" + p, text) <==> exists k :: 0 <= k <= |text| && Like(p, text[k..])
    decreases |text|
  {
    var q := "%" + p;
    assert q[1..] == p && q[0] == '%' && text[0..] == text;
    if text != "" {
      PercentSkips(p, text[1..]);
      if Like(q, text[1..]) {
        var k :| 0 <= k <= |text| - 1 && Like(p, text[1..][k..]);
        assert text[1..][k..] == text[k + 1..];
      }
      forall k | 0 < k <= |text| && Like(p, text[k..])
        ensures Like(q, text[1..])
      {
        var j := k - 1;
        assert text[k..] == text[1..][j..];
      }
    }
  }

  lemma {:induction false} PercentMatchesAll(text: string)
    ensures Like("%", text)
    decreases |text|
  {
    if text != "" {
      PercentMatchesAll(text[1..]);
    }
  }

  /** No wildcard of LIKE, no quote, and nothing that JSON escapes. */
  predicate Plain(s: string) {
    forall i | 0 <= i < |s| :: s[i] != '%' && s[i] != '_' && s[i] != '"' && s[i] != '\\' && s[i] >= ' '
  }

  /** Characters that are not wildcards match themselves, in either case. */
  lemma {:induction false} LiteralMatches(q: string, rest: string, text: string)
    requires forall i | 0 <= i < |q| :: q[i] != '%' && q[i] != '_'
    ensures Like(q + rest, text) <==>
              |q| <= |text| && Lower(text[..|q|]) == Lower(q) && Like(rest, text[|q|..])
    decreases |q|
  {
    if q == "" {
      assert q + rest == rest && text[0..] == text;
    } else if text != "" {
      var tail := q[1..];
      assert (q + rest)[0] == q[0] && (q + rest)[1..] == tail + rest;
      assert forall i | 0 <= i < |tail| :: tail[i] == q[i + 1];
      LiteralMatches(tail, rest, text[1..]);
      if |q| <= |text| {
        LowerHead(q, text);
        assert text[1..][|tail|..] == text[|q|..];
      }
    }
  }

  lemma LowerHead(q: string, text: string)
    requires 0 < |q| <= |text|
    ensures Lower(text[..|q|]) == Lower(q) <==>
              Fold(text[0]) == Fold(q[0]) && Lower(text[1..][..|q| - 1]) == Lower(q[1..])
  {
    LowerSplit(q);
    LowerSplit(text[..|q|]);
    assert text[..|q|][1..] == text[1..][..|q| - 1];
  }

  lemma LowerSplit(s: string)
    requires s != ""
    ensures Lower(s) == [Fold(s[0])] + Lower(s[1..])
  {
  }

  lemma {:induction false} PlainUnescaped(s: string)
    requires Plain(s)
    ensures EscapedText(s) == s
    decreases |s|
  {
    if s != "" {
      var tail := s[1..];
      assert forall i | 0 <= i < |tail| :: tail[i] == s[i + 1];
      PlainUnescaped(tail);
    }
  }

  /** An empty lineage is never selected: its text has no quote. */
  lemma NobodyNamesRoot(ancestor: Id)
    ensures !Names(ancestor, [])
  {
    var p, text := "\"" + ancestor + "\"%", LineageText([]);
    assert LineagePattern(ancestor) == "%" + p && text == "[]";
    PercentSkips(p, text);
    forall k | 0 <= k <= |text|
      ensures !Like(p, text[k..])
    {
      assert p[0] == '"';
    }
  }

  /** Between plain ids, the query compares them without regard to case. */
  lemma PlainNames(a: Id, o: Id)
    requires Plain(a) && Plain(o)
    ensures Names(a, [o]) <==> Lower(a) == Lower(o)
  {
    hide Like, Lower, Plain;
    var q, text := "\"" + a + "\"", "[\"" + o + "\"]";
    NamesAsText(a, o);
    PercentSkips(q + "%", text);
    PlainQuoted(a);
    FoundAt(q, text, 1);
    LowerQuoted(a, o);
    assert |a| == |o| ==> text[1..][..|q|] == "\"" + o + "\"";
    LowerLength(a, o);
    forall k | 0 <= k <= |text| && Like(q + "%", text[k..])
      ensures Lower(a) == Lower(o)
    {
      FoundAt(q, text, k);
      OnlyQuotes(a, o, k);
    }
  }

  lemma LowerLength(a: Id, o: Id)
    ensures Lower(a) == Lower(o) ==> |a| == |o|
  {
    assert |Lower(a)| == |a| && |Lower(o)| == |o|;
  }

  lemma NamesAsText(a: Id, o: Id)
    requires Plain(o)
    ensures Names(a, [o]) <==> Like("%" + ("\"" + a + "\"" + "%"), "[\"" + o + "\"]")
  {
    hide Like;
    PlainUnescaped(o);
    assert LineageText([o]) == "[\"" + o + "\"]";
    assert LineagePattern(a) == "%" + ("\"" + a + "\"" + "%");
  }

  lemma PlainQuoted(a: Id)
    requires Plain(a)
    ensures var q := "\"" + a + "\""; forall i | 0 <= i < |q| :: q[i] != '%' && q[i] != '_'
  {
    var q := "\"" + a + "\"";
    assert forall i | 0 < i <= |a| :: q[i] == a[i - 1];
  }

  lemma FoundAt(q: string, text: string, k: nat)
    requires k <= |text| && forall i | 0 <= i < |q| :: q[i] != '%' && q[i] != '_'
    ensures Like(q + "%", text[k..]) <==> |q| <= |text| - k && Lower(text[k..][..|q|]) == Lower(q)
  {
    LiteralMatches(q, "%", text[k..]);
    if |q| <= |text| - k {
      PercentMatchesAll(text[k..][|q|..]);
    }
  }

  /** The two quotes of the pattern can only meet the two quotes of the text. */
  lemma OnlyQuotes(a: Id, o: Id, k: nat)
    requires Plain(a) && Plain(o) && k + |a| + 2 <= |o| + 4
    requires Lower(("[\"" + o + "\"]")[k..][..|a| + 2]) == Lower("\"" + a + "\"")
    ensures k == 1 && |a| == |o|
  {
    var q, text := "\"" + a + "\"", "[\"" + o + "\"]";
    var part := text[k..][..|a| + 2];
    assert Lower(part)[0] == Lower(q)[0] == '"' && part[0] == text[k];
    assert Lower(part)[|a| + 1] == Lower(q)[|a| + 1] == '"' && part[|a| + 1] == text[k + |a| + 1];
    QuotePlaces(o, k);
    QuotePlaces(o, k + |a| + 1);
  }

  lemma QuotePlaces(o: Id, i: nat)
    requires Plain(o) && i < |o| + 4
    ensures ("[\"" + o + "\"]")[i] == '"' <==> i == 1 || i == |o| + 2
  {
    if 2 <= i < |o| + 2 {
      assert ("[\"" + o + "\"]")[i] == o[i - 2];
    }
  }

  lemma LowerQuoted(a: Id, o: Id)
    ensures Lower("\"" + a + "\"") == Lower("\"" + o + "\"") <==> Lower(a) == Lower(o)
  {
    var x, y := "\"" + a + "\"", "\"" + o + "\"";
    if Lower(x) == Lower(y) {
      assert |x| == |y|;
      forall i | 0 <= i < |a|
        ensures Lower(a)[i] == Lower(o)[i]
      {
        assert Lower(x)[i + 1] == Lower(y)[i + 1];
      }
    }
  }
}
