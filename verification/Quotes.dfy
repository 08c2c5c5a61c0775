/** Texts as the parts between their quotes, and a key pass as a sweep over the parts. */
module Quotes {
  import opened Types
  import opened Masking

  predicate QuoteFree(text: string) {
    forall i :: 0 <= i < |text| ==> text[i] != '"'
  }

  predicate AllQuoteFree(parts: seq<string>) {
    forall i :: 0 <= i < |parts| ==> QuoteFree(parts[i])
  }

  /** The text cut at its quotes. */
  function Parts(text: string): (parts: seq<string>)
    ensures parts != []
  {
    if text == "" then [""]
    else
      var rest := Parts(text[1..]);
      if text[0] == '"' then [""] + rest else [[text[0]] + rest[0]] + rest[1..]
  }

  function Join(parts: seq<string>): string
    requires parts != []
  {
    if |parts| == 1 then parts[0] else parts[0] + "\"" + Join(parts[1..])
  }

  lemma {:induction false} JoinParts(text: string)
    ensures Join(Parts(text)) == text && AllQuoteFree(Parts(text))
  {
    if text == "" {
    } else {
      JoinParts(text[1..]);
      var rest := Parts(text[1..]);
      assert text == [text[0]] + text[1..];
      if text[0] == '"' {
        assert ([""] + rest)[1..] == rest;
      } else {
        var parts := [[text[0]] + rest[0]] + rest[1..];
        assert parts[1..] == rest[1..];
        forall i | 0 <= i < |parts| ensures QuoteFree(parts[i]) {
          if i > 0 { assert parts[i] == rest[i]; }
        }
      }
    }
  }

  /** The parts of two texts in a row: the last part runs into the first. */
  function Glue(p: seq<string>, q: seq<string>): seq<string>
    requires p != [] && q != []
  {
    p[..|p| - 1] + [p[|p| - 1] + q[0]] + q[1..]
  }

  lemma GlueQuote(r: seq<string>, q: seq<string>)
    requires r != [] && q != []
    ensures Glue([""] + r, q) == [""] + Glue(r, q)
  {
    var p := [""] + r;
    assert p[..|p| - 1] == [""] + r[..|r| - 1];
    assert p[|p| - 1] == r[|r| - 1];
  }

  lemma GlueChar(c: char, r: seq<string>, q: seq<string>)
    requires r != [] && q != []
    ensures Glue([[c] + r[0]] + r[1..], q) == [[c] + Glue(r, q)[0]] + Glue(r, q)[1..]
  {
    var p, g := [[c] + r[0]] + r[1..], Glue(r, q);
    if |r| == 1 {
      assert [c] + r[0] + q[0] == [c] + (r[0] + q[0]);
      assert p == [[c] + r[0]] && p[..0] == [] && r[..0] == [];
      assert Glue(p, q) == [[c] + (r[0] + q[0])] + q[1..];
      assert g == [r[0] + q[0]] + q[1..];
    } else {
      assert p[..|p| - 1] == [[c] + r[0]] + r[1..|r| - 1];
      assert p[|p| - 1] == r[|r| - 1];
      assert r[..|r| - 1] == [r[0]] + r[1..|r| - 1];
      assert g[0] == r[0] && g[1..] == r[1..|r| - 1] + [r[|r| - 1] + q[0]] + q[1..];
    }
  }

  lemma {:induction false} PartsConcat(a: string, b: string)
    ensures Parts(a + b) == Glue(Parts(a), Parts(b))
  {
    var q := Parts(b);
    if a == "" {
      assert a + b == b;
      assert [""][..0] == [] && "" + q[0] == q[0];
      assert Glue([""], q) == [q[0]] + q[1..];
    } else {
      assert (a + b)[0] == a[0] && (a + b)[1..] == a[1..] + b;
      PartsConcat(a[1..], b);
      GlueQuote(Parts(a[1..]), q);
      GlueChar(a[0], Parts(a[1..]), q);
      hide Glue;
    }
  }

  lemma {:induction false} QuoteFreeParts(text: string)
    requires QuoteFree(text)
    ensures Parts(text) == [text]
  {
    if text == "" {
    } else {
      QuoteFreeParts(text[1..]);
      assert [text[0]] + text[1..] == text;
    }
  }

  lemma PartsQuote(text: string)
    ensures Parts("\"" + text) == [""] + Parts(text)
  {
    assert ("\"" + text)[1..] == text;
  }

  lemma GlueEmpty(p: string, q: seq<string>)
    ensures Glue([p], [""] + q) == [p] + q
  {
    assert [p][..0] == [] && p + "" == p;
    assert ([""] + q)[1..] == q;
  }

  lemma {:induction false} PartsJoin(parts: seq<string>)
    requires parts != [] && AllQuoteFree(parts)
    ensures Parts(Join(parts)) == parts
    decreases |parts|
  {
    QuoteFreeParts(parts[0]);
    if |parts| == 1 {
    } else {
      PartsJoin(parts[1..]);
      PartsQuote(Join(parts[1..]));
      var rest := "\"" + Join(parts[1..]);
      assert Join(parts) == parts[0] + rest;
      PartsConcat(parts[0], rest);
      GlueEmpty(parts[0], parts[1..]);
      hide Join, Parts, Glue;
    }
  }

  // ------------------------------------------------------------------ one pass over the parts

  predicate AllBlank(text: string) {
    forall i :: 0 <= i < |text| ==> text[i] == ' '
  }

  /** A colon with blanks around it. */
  predicate Colon(text: string) {
    text != "" && if text[0] == ':' then AllBlank(text[1..]) else text[0] == ' ' && Colon(text[1..])
  }

  predicate OneLine(text: string) {
    forall i :: 0 <= i < |text| ==> In(SameLine, text[i])
  }

  /** The quote before parts[1] begins a match of the key. */
  predicate KeyHere(name: string, parts: seq<string>) {
    |parts| >= 5 && parts[1] == name && Colon(parts[2]) && OneLine(parts[3])
  }

  function Sweep(name: string, parts: seq<string>): (swept: seq<string>)
    ensures |swept| == |parts|
  {
    if |parts| <= 1 then parts
    else if KeyHere(name, parts) then [parts[0], name, ":", "*"] + Sweep(name, parts[4..])
    else [parts[0]] + Sweep(name, parts[1..])
  }

  lemma {:induction false} BlanksScan(tail: seq<Segment>, p: string, rest: string)
    requires QuoteFree(p)
    ensures var segs := [Lazy(Blank, '"')] + tail;
            && Scan(segs, p) == None
            && Scan(segs, p + "\"" + rest) ==
                 (if AllBlank(p) && Scan(tail, rest).Some? then Some(|p| + 1 + Scan(tail, rest).value) else None)
    decreases |p|
  {
    var segs := [Lazy(Blank, '"')] + tail;
    var text := p + "\"" + rest;
    assert segs[1..] == tail;
    if p == "" {
      assert text[0] == '"' && text[1..] == rest;
    } else {
      assert text[0] == p[0] && text[1..] == p[1..] + "\"" + rest;
      BlanksScan(tail, p[1..], rest);
    }
  }

  lemma {:induction false} ColonScan(tail: seq<Segment>, p: string, rest: string)
    requires QuoteFree(p)
    ensures var segs := [Lazy(Blank, ':'), Lazy(Blank, '"')] + tail;
            && Scan(segs, p) == None
            && Scan(segs, p + "\"" + rest) ==
                 (if Colon(p) && Scan(tail, rest).Some? then Some(|p| + 1 + Scan(tail, rest).value) else None)
    decreases |p|
  {
    var segs := [Lazy(Blank, ':'), Lazy(Blank, '"')] + tail;
    var text := p + "\"" + rest;
    assert segs[1..] == [Lazy(Blank, '"')] + tail;
    if p == "" {
      assert text[0] == '"';
    } else {
      assert text[0] == p[0] && text[1..] == p[1..] + "\"" + rest;
      if p[0] == ':' { BlanksScan(tail, p[1..], rest); } else { ColonScan(tail, p[1..], rest); }
    }
  }

  lemma {:induction false} ValueScan(p: string, rest: string)
    requires QuoteFree(p)
    ensures Scan([Lazy(SameLine, '"')], p) == None
    ensures Scan([Lazy(SameLine, '"')], p + "\"" + rest) == if OneLine(p) then Some(|p| + 1) else None
    decreases |p|
  {
    var segs := [Lazy(SameLine, '"')];
    var text := p + "\"" + rest;
    assert segs[1..] == [];
    if p == "" {
      assert text[0] == '"' && text[1..] == rest;
    } else {
      assert text[0] == p[0] && text[1..] == p[1..] + "\"" + rest;
      ValueScan(p[1..], rest);
    }
  }

  lemma {:induction false} PrefixIsName(name: string, p: string, tail: string)
    requires QuoteFree(name) && QuoteFree(p) && (tail == "" || tail[0] == '"')
    ensures name + "\"" <= p + tail <==> name == p && tail != ""
    decreases |name|
  {
    if name == "" {
      if p == "" { assert p + tail == tail; } else { assert (p + tail)[0] == p[0]; }
    } else if p == "" {
      assert p + tail == tail && (name + "\"")[0] == name[0];
    } else {
      PrefixIsName(name[1..], p[1..], tail);
      Unshift(name + "\"", p + tail);
      assert (name + "\"")[1..] == name[1..] + "\"" && (p + tail)[1..] == p[1..] + tail;
      assert name == [name[0]] + name[1..] && p == [p[0]] + p[1..];
    }
  }

  lemma Unshift(a: string, b: string)
    requires a != "" && b != ""
    ensures a <= b <==> a[0] == b[0] && a[1..] <= b[1..]
  {
    if a[0] == b[0] && a[1..] <= b[1..] {
      assert a == [a[0]] + a[1..] && b == [b[0]] + b[1..];
    }
  }

  /** Where the quoted name ends, the first part ends. */
  lemma NameHere(name: string, parts: seq<string>)
    requires QuoteFree(name) && parts != [] && AllQuoteFree(parts)
    ensures name + "\"" <= Join(parts) <==> |parts| >= 2 && parts[0] == name
  {
    if |parts| == 1 {
      assert Join(parts) == parts[0] + "";
      PrefixIsName(name, parts[0], "");
    } else {
      assert Join(parts) == parts[0] + ("\"" + Join(parts[1..]));
      PrefixIsName(name, parts[0], "\"" + Join(parts[1..]));
    }
  }

  /** What follows a name in a match. */
  function ValueSegs(): seq<Segment> {
    [Lazy(Blank, ':'), Lazy(Blank, '"'), Lazy(SameLine, '"')]
  }

  lemma ValueHere(parts: seq<string>)
    requires parts != [] && AllQuoteFree(parts)
    ensures Scan(ValueSegs(), Join(parts)) ==
            if |parts| >= 3 && Colon(parts[0]) && OneLine(parts[1]) then Some(|parts[0]| + |parts[1]| + 2) else None
  {
    var tail := [Lazy(SameLine, '"')];
    assert ValueSegs() == [Lazy(Blank, ':'), Lazy(Blank, '"')] + tail;
    if |parts| == 1 {
      ColonScan(tail, parts[0], "");
    } else {
      ColonScan(tail, parts[0], Join(parts[1..]));
      if |parts| == 2 {
        ValueScan(parts[1], "");
      } else {
        assert parts[1..][1..] == parts[2..];
        assert Join(parts[1..]) == parts[1] + "\"" + Join(parts[2..]);
        ValueScan(parts[1], Join(parts[2..]));
      }
    }
  }

  /** A match of the key at a quote, read off the parts after it. */
  lemma MatchHere(name: string, parts: seq<string>)
    requires QuoteFree(name) && |parts| >= 2 && AllQuoteFree(parts)
    ensures Match(Key(name), "\"" + Join(parts[1..])) ==
            if KeyHere(name, parts) then Some(|name| + |parts[2]| + |parts[3]| + 4) else None
  {
    var after := parts[1..];
    var s := "\"" + Join(after);
    NameHere(name, after);
    QuotedPrefix(name, Join(after));
    if Quoted(name) <= s {
      CharsRead(Quoted(name), ValueSegs(), s);
      assert after[1..] == parts[2..];
      assert Join(after) == name + "\"" + Join(parts[2..]);
      assert s == Quoted(name) + Join(parts[2..]);
      assert s[|Quoted(name)|..] == Join(parts[2..]);
      ValueHere(parts[2..]);
    } else if Match(Key(name), s).Some? {
      CharsFirst(Quoted(name), ValueSegs(), s);
    }
  }

  lemma QuotedPrefix(name: string, text: string)
    ensures Quoted(name) <= "\"" + text <==> name + "\"" <= text
  {
    assert Quoted(name) == "\"" + (name + "\"");
    Unshift(Quoted(name), "\"" + text);
    assert Quoted(name)[1..] == name + "\"" && ("\"" + text)[1..] == text;
  }

  /** A key pass is a sweep over the parts. */
  lemma {:induction false} ReplaceIsSweep(name: string, parts: seq<string>)
    requires name != "" && QuoteFree(name) && parts != [] && AllQuoteFree(parts)
    ensures Replace(Key(name), Join(parts)) == Join(Sweep(name, parts))
    decreases |parts|
  {
    hide Match;
    if |parts| == 1 {
      NoQuoteNoKey(name, parts[0]);
    } else {
      var rest := "\"" + Join(parts[1..]);
      assert Join(parts) == parts[0] + rest;
      BeforeHit(name, parts[0], rest);
      MatchHere(name, parts);
      var n := |name| + (if |parts| >= 4 then |parts[2]| + |parts[3]| else 0) + 4;
      if KeyHere(name, parts) {
        AfterHere(name, parts);
        ReplaceIsSweep(name, parts[4..]);
        JoinFour(parts[0], name, Sweep(name, parts[4..]));
        assert Replace(Key(name), rest) == Mask(Key(name)) + Replace(Key(name), Join(parts[4..]));
        assert parts[0] + (Mask(Key(name)) + Join(Sweep(name, parts[4..]))) == Join(Sweep(name, parts));
      } else {
        ReplaceIsSweep(name, parts[1..]);
        assert rest[0] == '"' && rest[1..] == Join(parts[1..]);
        assert Sweep(name, parts)[1..] == Sweep(name, parts[1..]);
      }
    }
  }

  lemma NoQuoteNoKey(name: string, text: string)
    requires name != "" && QuoteFree(text)
    ensures Replace(Key(name), text) == text
  {
    NoKey(name, text);
  }

  /** The text of a match and what follows it. */
  lemma AfterHere(name: string, parts: seq<string>)
    requires KeyHere(name, parts)
    ensures var rest := "\"" + Join(parts[1..]);
            var n := |name| + |parts[2]| + |parts[3]| + 4;
            n <= |rest| && rest[n..] == Join(parts[4..])
  {
    assert parts[1..][1..] == parts[2..] && parts[2..][1..] == parts[3..] && parts[3..][1..] == parts[4..];
    var after := Join(parts[4..]);
    assert Join(parts[3..]) == parts[3] + "\"" + after;
    assert Join(parts[2..]) == parts[2] + "\"" + Join(parts[3..]);
    assert Join(parts[1..]) == name + "\"" + Join(parts[2..]);
    var front := "\"" + name + "\"" + parts[2] + "\"" + parts[3] + "\"";
    assert "\"" + Join(parts[1..]) == front + after;
  }

  lemma JoinFirst(p: string, rest: seq<string>)
    requires rest != []
    ensures Join([p] + rest) == p + "\"" + Join(rest)
  {
    assert ([p] + rest)[1..] == rest;
  }

  lemma JoinFour(p: string, name: string, rest: seq<string>)
    requires rest != []
    ensures Join([p, name, ":", "*"] + rest) == p + (Mask(Key(name)) + Join(rest))
  {
    hide Join;
    var r3 := ["*"] + rest;
    var r2 := [":"] + r3;
    var r1 := [name] + r2;
    JoinFirst("*", rest);
    JoinFirst(":", r3);
    JoinFirst(name, r2);
    JoinFirst(p, r1);
    assert [p, name, ":", "*"] + rest == [p] + r1;
    FourTexts(p, name, Join(rest));
  }

  lemma FourTexts(p: string, name: string, rest: string)
    ensures p + "\"" + (name + "\"" + (":" + "\"" + ("*" + "\"" + rest))) == p + (Mask(Key(name)) + rest)
  {
    assert ":" + "\"" + ("*" + "\"" + rest) == ":\"*\"" + rest;
    assert Mask(Key(name)) == Quoted(name) + ":\"*\"";
    assert "\"" + (name + "\"" + (":\"*\"" + rest)) == Mask(Key(name)) + rest;
  }
}
