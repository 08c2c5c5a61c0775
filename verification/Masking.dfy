/** DataMasking: leftmost, non-overlapping, lazy replacements of secrets in log text. */
module Masking {
  import opened Types

  // ------------------------------------------------------------------ patterns

  /** The character classes of the two regular expressions. */
  datatype Class = Blank | SameLine | Authority

  predicate In(cls: Class, c: char) {
    match cls
    case Blank => c == ' '                        // [ ]
    case SameLine => c != '\n' && c != '\r'       // .
    case Authority => c != ' ' && c != '/'        // [^ /]
  }

  /** One character, or a lazy repetition of a class up to a character. */
  datatype Segment = Char(c: char) | Lazy(cls: Class, end: char)

  /** The text matches the segments as a regular expression. */
  ghost predicate Lang(segs: seq<Segment>, text: string) {
    if segs == [] then text == ""
    else
      match segs[0]
      case Char(c) => text != "" && text[0] == c && Lang(segs[1..], text[1..])
      case Lazy(cls, end) =>
        exists i :: 0 <= i < |text| && Reaches(cls, end, text, i) && Lang(segs[1..], text[i + 1..])
  }

  predicate Reaches(cls: Class, end: char, text: string, i: nat)
    requires i < |text|
  {
    text[i] == end && forall j :: 0 <= j < i ==> In(cls, text[j])
  }

  /** The length of the match at the start of the text: each repetition stops at its first end. */
  function Scan(segs: seq<Segment>, text: string): (length: Option<nat>)
    ensures length.Some? ==> length.value <= |text|
    decreases |text|, |segs|
  {
    if segs == [] then Some(0)
    else if text == "" then None
    else
      match segs[0]
      case Char(c) => if text[0] == c then After(Scan(segs[1..], text[1..])) else None
      case Lazy(cls, end) =>
        if text[0] == end then After(Scan(segs[1..], text[1..]))
        else if In(cls, text[0]) then After(Scan(segs, text[1..]))
        else None
  }

  function After(length: Option<nat>): Option<nat> {
    if length.Some? then Some(length.value + 1) else None
  }

  /** Stopping at the first end never loses a match: the end is outside the class, or whatever follows
      can be read over by the next repetition, or nothing follows. */
  predicate Settled(segs: seq<Segment>) {
    segs == [] ||
    (&& Settled(segs[1..])
     && (segs[0].Lazy? && In(segs[0].cls, segs[0].end) ==>
           |segs| == 1 || (|segs| == 2 && segs[1].Lazy? && segs[1].cls == segs[0].cls)))
  }

  lemma StopsHere(segs: seq<Segment>, text: string)
    requires segs != [] && segs[0].Lazy? && text != "" && text[0] == segs[0].end && Lang(segs[1..], text[1..])
    ensures Lang(segs, text)
  {
    assert Reaches(segs[0].cls, segs[0].end, text, 0);
  }

  lemma ReadsOne(segs: seq<Segment>, text: string)
    requires segs != [] && segs[0].Lazy? && text != "" && In(segs[0].cls, text[0]) && Lang(segs, text[1..])
    ensures Lang(segs, text)
  {
    var cls, end, rest := segs[0].cls, segs[0].end, text[1..];
    var i :| 0 <= i < |rest| && Reaches(cls, end, rest, i) && Lang(segs[1..], rest[i + 1..]);
    assert forall j :: 0 < j < i + 1 ==> text[j] == rest[j - 1];
    assert rest[i + 1..] == text[i + 2..];
    assert Reaches(cls, end, text, i + 1);
  }

  lemma {:induction false} ScanSound(segs: seq<Segment>, text: string)
    ensures Scan(segs, text).Some? ==> Lang(segs, text[..Scan(segs, text).value])
    decreases |text|, |segs|
  {
    if segs == [] || text == "" || !Scan(segs, text).Some? {
    } else {
      var n := Scan(segs, text).value;
      var m := text[..n];
      assert m[1..] == text[1..][..n - 1];
      hide Reaches, In;
      if segs[0].Char? {
        ScanSound(segs[1..], text[1..]);
      } else if text[0] == segs[0].end {
        ScanSound(segs[1..], text[1..]);
        StopsHere(segs, m);
      } else {
        ScanSound(segs, text[1..]);
        ReadsOne(segs, m);
      }
    }
  }

  /** A repetition that could stop at its first end can. */
  lemma StopsEarly(segs: seq<Segment>, text: string, i: nat)
    requires segs != [] && Settled(segs) && segs[0].Lazy? && 0 < i < |text| && text[0] == segs[0].end
    requires Reaches(segs[0].cls, segs[0].end, text, i) && Lang(segs[1..], text[i + 1..])
    ensures segs[1..] == [] || Lang(segs[1..], text[1..])
  {
    assert In(segs[0].cls, text[0]);
    if |segs| == 2 {
      var cls, end := segs[1].cls, segs[1].end;
      var rest := text[i + 1..];
      assert segs[1..][0] == segs[1];
      var k :| 0 <= k < |rest| && Reaches(cls, end, rest, k) && Lang(segs[1..][1..], rest[k + 1..]);
      forall j | 0 <= j < i + k ensures In(cls, text[1..][j]) {
        if j + 1 > i { assert text[1..][j] == rest[j - i]; }
      }
      assert text[1..][i + k] == rest[k];
      assert text[1..][i + k + 1..] == rest[k + 1..];
      assert Reaches(cls, end, text[1..], i + k);
    }
  }

  /** Reading one character of a repetition that ends later. */
  lemma ReadsOn(segs: seq<Segment>, text: string, i: nat)
    requires segs != [] && segs[0].Lazy? && 0 < i < |text|
    requires Reaches(segs[0].cls, segs[0].end, text, i) && Lang(segs[1..], text[i + 1..])
    ensures In(segs[0].cls, text[0]) && Lang(segs, text[1..])
  {
    var rest := text[1..];
    assert forall j :: 0 <= j < i ==> rest[j] == text[j + 1];
    assert rest[i..] == text[i + 1..];
    assert Reaches(segs[0].cls, segs[0].end, rest, i - 1);
  }

  /** The first character of a text in the language. */
  lemma FirstChar(segs: seq<Segment>, m: string)
    requires segs != [] && Settled(segs) && Lang(segs, m)
    ensures m != ""
    ensures segs[0].Char? ==> m[0] == segs[0].c && Lang(segs[1..], m[1..])
    ensures segs[0].Lazy? ==>
              if m[0] == segs[0].end then segs[1..] == [] || Lang(segs[1..], m[1..])
              else In(segs[0].cls, m[0]) && Lang(segs, m[1..])
  {
    if segs[0].Lazy? {
      var cls, end := segs[0].cls, segs[0].end;
      var i :| 0 <= i < |m| && Reaches(cls, end, m, i) && Lang(segs[1..], m[i + 1..]);
      hide Lang;
      if i > 0 {
        if m[0] == end { StopsEarly(segs, m, i); } else { ReadsOn(segs, m, i); }
      }
    }
  }

  lemma {:induction false} ScanComplete(segs: seq<Segment>, text: string, k: nat)
    requires Settled(segs) && k <= |text| && Lang(segs, text[..k])
    ensures Scan(segs, text).Some? && Scan(segs, text).value <= k
    decreases |text|, |segs|
  {
    hide Lang, In;
    if segs == [] {
    } else {
      var m := text[..k];
      FirstChar(segs, m);
      assert m[1..] == text[1..][..k - 1];
      if segs[0].Char? {
        ScanComplete(segs[1..], text[1..], k - 1);
      } else if m[0] == segs[0].end {
        if segs[1..] != [] { ScanComplete(segs[1..], text[1..], k - 1); }
      } else {
        ScanComplete(segs, text[1..], k - 1);
      }
    }
  }

  /** The scan finds the shortest prefix that matches the regular expression. */
  lemma ScanIsShortest(segs: seq<Segment>, text: string, n: nat)
    requires Settled(segs) && n <= |text|
    ensures Scan(segs, text) == Some(n) <==>
            Lang(segs, text[..n]) && forall k :: 0 <= k < n ==> !Lang(segs, text[..k])
  {
    ScanSound(segs, text);
    forall k | 0 <= k <= n && Lang(segs, text[..k]) ensures Scan(segs, text).Some? && Scan(segs, text).value <= k {
      ScanComplete(segs, text, k);
    }
  }

  // ------------------------------------------------------------------ the two shapes

  datatype Pattern = Key(name: string) | Url

  /** Every character of the text in turn. */
  function Chars(text: string): (segs: seq<Segment>)
    ensures |segs| == |text| && forall i :: 0 <= i < |text| ==> segs[i] == Char(text[i])
  {
    seq(|text|, i requires 0 <= i < |text| => Char(text[i]))
  }

  function Quoted(name: string): string {
    "\"" + name + "\""
  }

  /** "name"[ ]*?:[ ]*?".*?" and ://[^ /]*?:[^ /]*?@ */
  function Segments(p: Pattern): seq<Segment> {
    match p
    case Key(name) => Chars(Quoted(name)) + [Lazy(Blank, ':'), Lazy(Blank, '"'), Lazy(SameLine, '"')]
    case Url => [Char(':'), Char('/'), Char('/'), Lazy(Authority, ':'), Lazy(Authority, '@')]
  }

  /** What a match is replaced with. */
  function Mask(p: Pattern): string {
    match p
    case Key(name) => Quoted(name) + ":" + "\"*\""
    case Url => "://*:*@"
  }

  /** Every key DataMasking uses is such a name. */
  predicate GoodName(name: string) {
    && name != "" && name[0] != ' ' && name[0] != ':'
    && forall i :: 0 <= i < |name| ==> name[i] != '"' && In(SameLine, name[i])
  }

  predicate Good(p: Pattern) {
    p.Key? ==> GoodName(p.name)
  }

  /** The length of the match at the start of the text. */
  function Match(p: Pattern, text: string): (length: Option<nat>)
    ensures length.Some? ==> 0 < length.value <= |text|
  {
    assert Segments(p) != [];
    Scan(Segments(p), text)
  }

  /** std::regex_replace. */
  function Replace(p: Pattern, text: string): string {
    if text == "" then ""
    else
      match Match(p, text)
      case Some(n) => Mask(p) + Replace(p, text[n..])
      case None => [text[0]] + Replace(p, text[1..])
  }

  lemma {:induction false} CharsSettled(text: string, tail: seq<Segment>)
    requires Settled(tail)
    ensures Settled(Chars(text) + tail)
  {
    if text == "" {
      assert Chars(text) + tail == tail;
    } else {
      assert (Chars(text) + tail)[1..] == Chars(text[1..]) + tail;
      CharsSettled(text[1..], tail);
    }
  }

  lemma PatternSettled(p: Pattern)
    ensures Settled(Segments(p))
  {
    match p
    case Key(name) =>
      var tail := [Lazy(Blank, ':'), Lazy(Blank, '"'), Lazy(SameLine, '"')];
      assert tail[1..] == [Lazy(Blank, '"'), Lazy(SameLine, '"')] &&
          tail[2..] == [Lazy(SameLine, '"')] && tail[3..] == [];
      assert tail[1..][1..] == tail[2..] && tail[2..][1..] == tail[3..];
      CharsSettled(Quoted(name), tail);
    case Url =>
      var tail := [Lazy(Authority, ':'), Lazy(Authority, '@')];
      assert tail[1..] == [Lazy(Authority, '@')] && tail[1..][1..] == [];
      assert Segments(p) == Chars("://") + tail;
      CharsSettled("://", tail);
  }

  /** The match at the start of a text is the shortest prefix in the pattern's language. */
  lemma MatchIsShortest(p: Pattern, text: string, n: nat)
    requires n <= |text|
    ensures Match(p, text) == Some(n) <==>
            Lang(Segments(p), text[..n]) && forall k :: 0 <= k < n ==> !Lang(Segments(p), text[..k])
  {
    PatternSettled(p);
    ScanIsShortest(Segments(p), text, n);
  }

  // ------------------------------------------------------------------ texts as gaps and matches

  datatype Token = Plain(c: char) | Hit(text: string)

  /** The matches that the replacement finds, and the characters between them. */
  function Split(p: Pattern, text: string): seq<Token> {
    if text == "" then []
    else
      match Match(p, text)
      case Some(n) => [Hit(text[..n])] + Split(p, text[n..])
      case None => [Plain(text[0])] + Split(p, text[1..])
  }

  function Text(tokens: seq<Token>): string {
    if tokens == [] then ""
    else (match tokens[0] case Plain(c) => [c] case Hit(text) => text) + Text(tokens[1..])
  }

  /** A text that is one match: for a key, a value without quotes and line ends. */
  predicate IsHit(p: Pattern, text: string) {
    Match(p, text) == Some(|text|)
  }

  /** Same gaps, with a match for every match. */
  predicate Alike(p: Pattern, a: seq<Token>, b: seq<Token>) {
    && |a| == |b|
    && forall i :: 0 <= i < |a| ==> if a[i].Plain? then b[i] == a[i] else b[i].Hit? && IsHit(p, b[i].text)
  }

  function Masks(p: Pattern, tokens: seq<Token>): (masked: seq<Token>)
    ensures |masked| == |tokens|
    ensures forall i :: 0 <= i < |tokens| ==> masked[i] == if tokens[i].Hit? then Hit(Mask(p)) else tokens[i]
  {
    seq(|tokens|, i requires 0 <= i < |tokens| => if tokens[i].Hit? then Hit(Mask(p)) else tokens[i])
  }

  /** A match does not depend on what follows it. */
  lemma {:induction false} ScanExtends(segs: seq<Segment>, text: string, more: string)
    requires Scan(segs, text).Some?
    ensures Scan(segs, text + more) == Scan(segs, text)
    ensures Scan(segs, text[..Scan(segs, text).value]) == Scan(segs, text)
    decreases |text|, |segs|
  {
    if segs == [] || text == "" {
    } else {
      assert (text + more)[1..] == text[1..] + more;
      var n := Scan(segs, text).value;
      assert text[..n][1..] == text[1..][..n - 1];
      if segs[0].Char? || text[0] == segs[0].end { ScanExtends(segs[1..], text[1..], more); }
      else { ScanExtends(segs, text[1..], more); }
    }
  }

  /** Splitting loses nothing. */
  lemma {:induction false} SplitIsText(p: Pattern, text: string)
    ensures Text(Split(p, text)) == text
  {
    hide Match;
    if text == "" {
    } else {
      var n := if Match(p, text).Some? then Match(p, text).value else 1;
      SplitIsText(p, text[n..]);
      assert Split(p, text)[1..] == Split(p, text[n..]);
      assert text == text[..n] + text[n..];
    }
  }

  /** What it calls a match is one. */
  lemma {:induction false} SplitHits(p: Pattern, text: string, i: nat)
    requires i < |Split(p, text)| && Split(p, text)[i].Hit?
    ensures IsHit(p, Split(p, text)[i].text)
  {
    hide Match, IsHit;
    var n := if Match(p, text).Some? then Match(p, text).value else 1;
    if i > 0 {
      assert Split(p, text)[i] == Split(p, text[n..])[i - 1];
      SplitHits(p, text[n..], i - 1);
    } else {
      HitItself(p, text);
    }
  }

  lemma HitItself(p: Pattern, text: string)
    requires Match(p, text).Some?
    ensures IsHit(p, text[..Match(p, text).value])
  {
    ScanExtends(Segments(p), text, "");
  }

  /** The replacement keeps the gaps and puts the mask for every match. */
  lemma {:induction false} ReplaceIsMasks(p: Pattern, text: string)
    ensures Replace(p, text) == Text(Masks(p, Split(p, text)))
  {
    hide Match, Mask;
    if text == "" {
    } else {
      var n := if Match(p, text).Some? then Match(p, text).value else 1;
      ReplaceIsMasks(p, text[n..]);
      assert Masks(p, Split(p, text))[1..] == Masks(p, Split(p, text[n..]));
    }
  }

  // ------------------------------------------------------------------ no new matches

  lemma {:induction false} CharsFirst(text: string, tail: seq<Segment>, s: string)
    requires Scan(Chars(text) + tail, s).Some?
    ensures text <= s && Scan(tail, s[|text|..]).Some?
    decreases |text|
  {
    if text == "" {
      assert Chars(text) + tail == tail && s[0..] == s;
    } else {
      assert (Chars(text) + tail)[1..] == Chars(text[1..]) + tail;
      CharsFirst(text[1..], tail, s[1..]);
      assert s[1..][|text| - 1..] == s[|text|..];
    }
  }

  lemma {:induction false} CharsRead(text: string, tail: seq<Segment>, s: string)
    requires text <= s
    ensures Scan(Chars(text) + tail, s) ==
            match Scan(tail, s[|text|..]) case None => None case Some(n) => Some(|text| + n)
    decreases |text|
  {
    if text == "" {
      assert Chars(text) + tail == tail && s[0..] == s;
    } else {
      assert (Chars(text) + tail)[1..] == Chars(text[1..]) + tail;
      CharsRead(text[1..], tail, s[1..]);
      assert s[1..][|text| - 1..] == s[|text|..];
    }
  }

  lemma {:induction false} ValueEnds(name: string, s: string)
    requires name + "\"" <= s && forall i :: 0 <= i < |name| ==> name[i] != '"' && In(SameLine, name[i])
    ensures Scan([Lazy(SameLine, '"')], s).Some?
    decreases |name|
  {
    assert s[|name|] == '"';
    if name == "" {
    } else {
      assert s[0] == name[0] && name[1..] + "\"" <= s[1..];
      ValueEnds(name[1..], s[1..]);
    }
  }

  /** What a half-read key match does with a whole match: only inside the value's quotes can it end there. */
  lemma KeyClash(name: string, i: nat, s: string)
    requires GoodName(name) && Match(Key(name), s).Some? && 0 < i < |Segments(Key(name))|
    ensures Scan(Segments(Key(name))[i..], s).Some? <==> i >= |name| + 3
  {
    var segs := Segments(Key(name));
    var tail := [Lazy(Blank, ':'), Lazy(Blank, '"'), Lazy(SameLine, '"')];
    CharsFirst(Quoted(name), tail, s);
    assert s[0] == '"' && s[1] == name[0] && s[1..][..|name| + 1] == name + "\"";
    var rest := segs[i..];
    assert rest[0] == segs[i];
    if i <= |name| {
      assert segs[i] == Char(name[i - 1]);
    } else if i == |name| + 1 {
      assert segs[i] == Char('"') && rest[1..][0] == Lazy(Blank, ':');
      assert s[1..][0] == name[0];
    } else if i == |name| + 3 {
      assert rest[1..] == [Lazy(SameLine, '"')];
      ValueEnds(name, s[1..]);
    }
  }

  lemma UrlClash(i: nat, s: string)
    requires Match(Url, s).Some? && 0 < i < 5
    ensures Scan(Segments(Url)[i..], s).None?
  {
    var segs := Segments(Url);
    assert segs == Chars("://") + [Lazy(Authority, ':'), Lazy(Authority, '@')];
    CharsFirst("://", [Lazy(Authority, ':'), Lazy(Authority, '@')], s);
    assert s[0] == ':' && s[1] == '/' && s[1..][0] == '/';
    var rest := segs[i..];
    assert rest[0] == segs[i];
    if i == 3 { assert rest[1..][0] == Lazy(Authority, '@'); }
  }

  /** A half-read match ends in any match, or in none. */
  lemma Clash(p: Pattern, i: nat, s: string, s': string)
    requires Good(p) && 0 < i < |Segments(p)| && Match(p, s).Some? && Match(p, s').Some?
    ensures Scan(Segments(p)[i..], s).Some? <==> Scan(Segments(p)[i..], s').Some?
  {
    match p
    case Key(name) => KeyClash(name, i, s); KeyClash(name, i, s');
    case Url => UrlClash(i, s); UrlClash(i, s');
  }

  lemma HitStarts(p: Pattern, hit: string, more: string)
    requires IsHit(p, hit)
    ensures Match(p, hit + more) == Some(|hit|)
  {
    ScanExtends(Segments(p), hit, more);
  }

  lemma AlikeTail(p: Pattern, a: seq<Token>, b: seq<Token>)
    requires Alike(p, a, b) && a != []
    ensures Alike(p, a[1..], b[1..])
    ensures if a[0].Plain? then b[0] == a[0] else b[0].Hit? && IsHit(p, b[0].text)
  {
  }

  /** A half-read match that fails on a text fails on every text with the same gaps. */
  lemma {:induction false} NoNew(p: Pattern, i: nat, s: string, b: seq<Token>)
    requires Good(p) && 0 < i <= |Segments(p)| && Scan(Segments(p)[i..], s).None? && Alike(p, Split(p, s), b)
    ensures Scan(Segments(p)[i..], Text(b)).None?
    decreases |s|, |Segments(p)| - i
  {
    var rest := Segments(p)[i..];
    if s == "" {
    } else {
      AlikeTail(p, Split(p, s), b);
      match Match(p, s)
      case Some(n) =>
        HitStarts(p, b[0].text, Text(b[1..]));
        Clash(p, i, s, Text(b));
      case None =>
        assert Split(p, s)[1..] == Split(p, s[1..]);
        assert Text(b) == [s[0]] + Text(b[1..]);
        assert Text(b)[1..] == Text(b[1..]);
        assert rest[1..] == Segments(p)[i + 1..];
        if s[0] == (if rest[0].Char? then rest[0].c else rest[0].end) {
          NoNew(p, i + 1, s[1..], b[1..]);
        } else if rest[0].Lazy? && In(rest[0].cls, s[0]) {
          NoNew(p, i, s[1..], b[1..]);
        }
    }
  }

  /** Replacing matches by matches moves no match and makes no new one. */
  lemma {:induction false} Resplit(p: Pattern, s: string, b: seq<Token>)
    requires Good(p) && Alike(p, Split(p, s), b)
    ensures Split(p, Text(b)) == b
    decreases |s|
  {
    assert |b| == |Split(p, s)|;
    hide Alike, IsHit, Good, Scan;
    if s == "" {
    } else {
      AlikeTail(p, Split(p, s), b);
      match Match(p, s)
      case Some(n) =>
        assert Split(p, s)[1..] == Split(p, s[n..]);
        Resplit(p, s[n..], b[1..]);
        HitStarts(p, b[0].text, Text(b[1..]));
        assert Text(b) == b[0].text + Text(b[1..]);
      case None =>
        assert Split(p, s)[1..] == Split(p, s[1..]);
        Resplit(p, s[1..], b[1..]);
        assert Text(b) == [s[0]] + Text(b[1..]);
        assert Text(b)[1..] == Text(b[1..]);
        if s[0] == Segments(p)[0].c { NoNew(p, 1, s[1..], b[1..]); }
    }
  }

  // ------------------------------------------------------------------ the theorems

  lemma MaskIsHit(p: Pattern)
    requires Good(p)
    ensures IsHit(p, Mask(p))
  {
    match p
    case Key(name) =>
      var tail := [Lazy(Blank, ':'), Lazy(Blank, '"'), Lazy(SameLine, '"')];
      var mask := Mask(p);
      CharsRead(Quoted(name), tail, mask);
      assert mask[|name| + 2..] == ":\"*\"";
      ReadValue();
    case Url =>
      var tail := [Lazy(Authority, ':'), Lazy(Authority, '@')];
      assert Segments(p) == Chars("://") + tail;
      CharsRead("://", tail, Mask(p));
      assert Mask(p)[3..] == "*:*@";
      ReadAuthority();
  }

  lemma ReadValue()
    ensures Scan([Lazy(Blank, ':'), Lazy(Blank, '"'), Lazy(SameLine, '"')], ":\"*\"") == Some(4)
  {
    var segs := [Lazy(Blank, ':'), Lazy(Blank, '"'), Lazy(SameLine, '"')];
    var s := ":\"*\"";
    assert segs[1..] == [Lazy(Blank, '"'), Lazy(SameLine, '"')] && segs[1..][1..] == [Lazy(SameLine, '"')];
    assert segs[1..][1..][1..] == [];
    assert s[1..] == "\"*\"" && s[1..][1..] == "*\"" && s[1..][1..][1..] == "\"";
  }

  lemma ReadAuthority()
    ensures Scan([Lazy(Authority, ':'), Lazy(Authority, '@')], "*:*@") == Some(4)
  {
    var segs := [Lazy(Authority, ':'), Lazy(Authority, '@')];
    var s := "*:*@";
    assert segs[1..] == [Lazy(Authority, '@')] && segs[1..][1..] == [];
    assert s[1..] == ":*@" && s[1..][1..] == "*@" && s[1..][1..][1..] == "@";
  }

  /** After a pass the same gaps are left and every match it would find is the mask. */
  lemma OnlyMasksLeft(p: Pattern, s: string)
    requires Good(p)
    ensures Split(p, Replace(p, s)) == Masks(p, Split(p, s))
  {
    MaskIsHit(p);
    ReplaceIsMasks(p, s);
    Resplit(p, s, Masks(p, Split(p, s)));
  }

  /** One pass is idempotent. */
  lemma PassIdempotent(p: Pattern, s: string)
    requires Good(p)
    ensures Replace(p, Replace(p, s)) == Replace(p, s)
  {
    OnlyMasksLeft(p, s);
    ReplaceIsMasks(p, s);
    ReplaceIsMasks(p, Replace(p, s));
    assert Masks(p, Masks(p, Split(p, s))) == Masks(p, Split(p, s));
  }

  /** What is masked does not show: whatever matches stand in the gaps of s, the output is the same. */
  lemma SecretsDoNotShow(p: Pattern, s: string, b: seq<Token>)
    requires Good(p) && Alike(p, Split(p, s), b)
    ensures Replace(p, Text(b)) == Replace(p, s)
  {
    Resplit(p, s, b);
    ReplaceIsMasks(p, s);
    ReplaceIsMasks(p, Text(b));
    assert Masks(p, b) == Masks(p, Split(p, s));
  }

  // ------------------------------------------------------------------ the whole chain

  function Passes(patterns: seq<Pattern>, text: string): string {
    if patterns == [] then text else Passes(patterns[1..], Replace(patterns[0], text))
  }

  function KeyPasses(): seq<Pattern> {
    [Key("ak"), Key("sk"), Key("securityToken"), Key("sign_ak"), Key("sign_sk"), Key("passwd"), Key("password"),
     Key("vcn_stream_pwd")]
  }

  /** The keys whose values are secret. */
  ghost predicate KeyName(name: string) {
    || name == "ak" || name == "sk" || name == "securityToken" || name == "sign_ak" || name == "sign_sk"
    || name == "passwd" || name == "password" || name == "vcn_stream_pwd"
  }

  /** utils.cc: the URL pass, then one pass for each key. */
  function DataMasking(text: string): string {
    Passes([Url] + KeyPasses(), text)
  }

  /** Each of the nine passes is idempotent and leaves nothing but its own mask to find. */
  lemma EachPass(p: Pattern, s: string)
    requires p == Url || (p.Key? && KeyName(p.name))
    ensures Replace(p, Replace(p, s)) == Replace(p, s)
    ensures forall i :: 0 <= i < |Split(p, Replace(p, s))| && Split(p, Replace(p, s))[i].Hit? ==>
              Split(p, Replace(p, s))[i].text == if p == Url then "://*:*@" else "\"" + p.name + "\":\"*\""
  {
    hide Replace, Split, Good, KeyPasses, KeyName;
    PassIsGood(p);
    PassIdempotent(p, s);
    OnlyMasksLeft(p, s);
  }

  lemma KeyIsGood(i: nat)
    requires i < |KeyPasses()|
    ensures Good(KeyPasses()[i])
  {
  }

  lemma PassIsGood(p: Pattern)
    requires p == Url || (p.Key? && KeyName(p.name))
    ensures Good(p) && p in [Url] + KeyPasses()
  {
    hide GoodName;
    if p != Url {
      assert p in KeyPasses();
      var i :| 0 <= i < |KeyPasses()| && KeyPasses()[i] == p;
      KeyIsGood(i);
    }
  }

  /** A repetition read to its first end. */
  lemma {:induction false} LazyReads(cls: Class, end: char, tail: seq<Segment>, u: string, s: string)
    requires forall i :: 0 <= i < |u| ==> u[i] != end && In(cls, u[i])
    ensures Scan([Lazy(cls, end)] + tail, u + [end] + s) ==
            match Scan(tail, s) case None => None case Some(n) => Some(|u| + 1 + n)
    decreases |u|
  {
    var segs := [Lazy(cls, end)] + tail;
    var text := u + [end] + s;
    assert segs[1..] == tail;
    if u == "" {
      assert text[0] == end && text[1..] == s;
    } else {
      assert text[0] == u[0] && text[1..] == u[1..] + [end] + s;
      LazyReads(cls, end, tail, u[1..], s);
    }
  }

  /** A repetition that meets a character it cannot read. */
  lemma {:induction false} LazyStops(cls: Class, end: char, tail: seq<Segment>, u: string, c: char, s: string)
    requires (forall i :: 0 <= i < |u| ==> u[i] != end && In(cls, u[i])) && c != end && !In(cls, c)
    ensures Scan([Lazy(cls, end)] + tail, u + [c] + s) == None
    decreases |u|
  {
    var text := u + [c] + s;
    if u == "" {
      assert text[0] == c;
    } else {
      assert text[0] == u[0] && text[1..] == u[1..] + [c] + s;
      LazyStops(cls, end, tail, u[1..], c, s);
    }
  }

  ghost predicate Blanks(text: string) {
    forall i :: 0 <= i < |text| ==> text[i] == ' '
  }

  /** Any spacing and any value without quotes and line ends make a key's match. */
  lemma KeyHit(name: string, a: string, b: string, v: string)
    requires Blanks(a) && Blanks(b) && forall i :: 0 <= i < |v| ==> v[i] != '"' && In(SameLine, v[i])
    ensures IsHit(Key(name), Quoted(name) + (a + ":" + (b + "\"" + (v + "\"" + ""))))
  {
    var end := v + "\"" + "";
    LazyReads(SameLine, '"', [], v, "");
    LazyReads(Blank, '"', [Lazy(SameLine, '"')], b, end);
    LazyReads(Blank, ':', [Lazy(Blank, '"'), Lazy(SameLine, '"')], a, b + "\"" + end);
    assert [Lazy(SameLine, '"')] + [] == [Lazy(SameLine, '"')];
    assert [Lazy(Blank, '"')] + [Lazy(SameLine, '"')] == [Lazy(Blank, '"'), Lazy(SameLine, '"')];
    assert [Lazy(Blank, ':')] + [Lazy(Blank, '"'), Lazy(SameLine, '"')] ==
        [Lazy(Blank, ':'), Lazy(Blank, '"'), Lazy(SameLine, '"')];
    var rest := a + ":" + (b + "\"" + end);
    CharsRead(Quoted(name), [Lazy(Blank, ':'), Lazy(Blank, '"'), Lazy(SameLine, '"')], Quoted(name) + rest);
    assert (Quoted(name) + rest)[|Quoted(name)|..] == rest;
  }

  /** Any user and password without blanks and slashes, up to the first colon and the first at sign. */
  lemma UrlHit(u: string, w: string)
    requires forall i :: 0 <= i < |u| ==> u[i] != ':' && In(Authority, u[i])
    requires forall i :: 0 <= i < |w| ==> w[i] != '@' && In(Authority, w[i])
    ensures IsHit(Url, "://" + (u + ":" + (w + "@" + "")))
  {
    LazyReads(Authority, '@', [], w, "");
    LazyReads(Authority, ':', [Lazy(Authority, '@')], u, w + "@" + "");
    assert [Lazy(Authority, '@')] + [] == [Lazy(Authority, '@')];
    assert [Lazy(Authority, ':')] + [Lazy(Authority, '@')] == [Lazy(Authority, ':'), Lazy(Authority, '@')];
    var rest := u + ":" + (w + "@" + "");
    assert Segments(Url) == Chars("://") + [Lazy(Authority, ':'), Lazy(Authority, '@')];
    CharsRead("://", [Lazy(Authority, ':'), Lazy(Authority, '@')], "://" + rest);
    assert ("://" + rest)[3..] == rest;
  }

  // ------------------------------------------------------------------ the chain is not idempotent

  /** A pass leaves a text alone when nothing in it can start a match. */
  lemma {:induction false} NothingToMask(p: Pattern, s: string)
    requires forall i :: 0 <= i < |s| ==> Match(p, s[i..]).None?
    ensures Replace(p, s) == s
  {
    if s == "" {
    } else {
      assert s[0..] == s;
      forall i | 0 <= i < |s[1..]| ensures Match(p, s[1..][i..]).None? { assert s[1..][i..] == s[i + 1..]; }
      NothingToMask(p, s[1..]);
    }
  }

  /** A match of a key starts with a quote and the key's first letter. */
  lemma KeyStarts(name: string, s: string)
    requires name != ""
    ensures Match(Key(name), s).Some? ==> |s| >= 2 && s[0] == '"' && s[1] == name[0]
  {
    if Match(Key(name), s).Some? {
      CharsFirst(Quoted(name), [Lazy(Blank, ':'), Lazy(Blank, '"'), Lazy(SameLine, '"')], s);
    }
  }

  lemma UrlStarts(s: string)
    ensures Match(Url, s).Some? ==> |s| >= 2 && s[0] == ':' && s[1] == '/'
  {
    if Match(Url, s).Some? {
      assert Segments(Url) == Chars("://") + [Lazy(Authority, ':'), Lazy(Authority, '@')];
      CharsFirst("://", [Lazy(Authority, ':'), Lazy(Authority, '@')], s);
    }
  }

  lemma NoKey(name: string, s: string)
    requires name != "" && forall i :: 0 <= i < |s| - 1 ==> s[i] != '"' || s[i + 1] != name[0]
    ensures Replace(Key(name), s) == s
  {
    forall i | 0 <= i < |s| ensures Match(Key(name), s[i..]).None? {
      KeyStarts(name, s[i..]);
      if i + 1 < |s| { assert s[i..][1] == s[i + 1]; }
    }
    NothingToMask(Key(name), s);
  }

  lemma OtherNames(p: Pattern)
    requires p in KeyPasses()[1..]
    ensures p.Key? && p.name != "" && (p.name[0] == 's' || p.name[0] == 'p' || p.name[0] == 'v')
  {
  }

  /** No key but "ak" begins with a letter that follows a quote in the text. */
  lemma OtherKeys(s: string)
    requires forall i :: 0 <= i < |s| - 1 && s[i] == '"' ==> s[i + 1] != 's' && s[i + 1] != 'p' && s[i + 1] != 'v'
    ensures Passes(KeyPasses()[1..], s) == s
  {
    hide Replace, Passes;
    forall p | p in KeyPasses()[1..] ensures Replace(p, s) == s {
      OtherNames(p);
      NoKey(p.name, s);
    }
    Steps(KeyPasses()[1..], s);
  }

  lemma {:induction false} Steps(patterns: seq<Pattern>, s: string)
    requires forall p | p in patterns :: Replace(p, s) == s
    ensures Passes(patterns, s) == s
  {
    if patterns == [] {
    } else {
      Steps(patterns[1..], s);
    }
  }

  const ONCE := "://a\"ak\":\"*\"b:c@"
  const LOG := "://a\"ak\":\"/\"b:c@"

  lemma UrlMissesLog()
    ensures Match(Url, LOG).None?
  {
    hide Scan;
    var tail := [Lazy(Authority, ':'), Lazy(Authority, '@')];
    assert Segments(Url) == Chars("://") + tail;
    CharsRead("://", tail, LOG);
    assert LOG[3..] == "a\"ak\"" + ":" + ("\"" + "/" + "\"b:c@");
    assert tail == [Lazy(Authority, ':')] + [Lazy(Authority, '@')];
    LazyReads(Authority, ':', [Lazy(Authority, '@')], "a\"ak\"", "\"" + "/" + "\"b:c@");
    LazyStops(Authority, '@', [], "\"", '/', "\"b:c@");
    assert [Lazy(Authority, '@')] + [] == [Lazy(Authority, '@')];
  }

  /** The URL pass does nothing to LOG: the slash in the value stops the match. */
  lemma UrlLeavesLog()
    ensures Replace(Url, LOG) == LOG
  {
    hide Match;
    UrlMissesLog();
    forall i | 0 <= i < |LOG| ensures Match(Url, LOG[i..]).None? {
      if i == 0 {
        assert LOG[0..] == LOG;
      } else {
        UrlStarts(LOG[i..]);
        if i + 1 < |LOG| { assert LOG[i..][1] == LOG[i + 1]; }
      }
    }
    NothingToMask(Url, LOG);
  }

  lemma ReplaceHit(p: Pattern, hit: string, rest: string)
    requires IsHit(p, hit) && hit != ""
    ensures Replace(p, hit + rest) == Mask(p) + Replace(p, rest)
  {
    hide Match, Mask;
    HitMatches(p, hit, rest);
    assert (hit + rest)[|hit|..] == rest;
  }

  lemma HitMatches(p: Pattern, hit: string, rest: string)
    requires IsHit(p, hit)
    ensures Match(p, hit + rest) == Some(|hit|)
  {
    HitStarts(p, hit, rest);
  }

  /** The "ak" pass masks the value, and with it the slash. */
  lemma KeyMasksLog()
    ensures Replace(Key("ak"), LOG) == ONCE
  {
    hide Replace, IsHit;
    var hit := "\"ak\":\"/\"";
    KeyHit("ak", "", "", "/");
    assert Quoted("ak") + ("" + ":" + ("" + "\"" + ("/" + "\"" + ""))) == hit;
    ReplaceHit(Key("ak"), hit, "b:c@");
    NoKey("ak", "b:c@");
    assert LOG == "://a" + (hit + "b:c@");
    BeforeHit("ak", "://a", hit + "b:c@");
    assert Mask(Key("ak")) == "\"ak\":\"*\"";
  }

  lemma {:induction false} BeforeHit(name: string, front: string, rest: string)
    requires name != "" && forall i :: 0 <= i < |front| ==> front[i] != '"'
    ensures Replace(Key(name), front + rest) == front + Replace(Key(name), rest)
    decreases |front|
  {
    hide Match, Mask;
    if front == "" {
      assert front + rest == rest;
    } else {
      var s := front + rest;
      KeyStarts(name, s);
      assert s[1..] == front[1..] + rest;
      BeforeHit(name, front[1..], rest);
    }
  }

  lemma UrlMasksOnce()
    ensures Replace(Url, ONCE) == "://*:*@"
  {
    hide Match, IsHit;
    UrlHit("a\"ak\"", "\"*\"b:c");
    assert "://" + ("a\"ak\"" + ":" + ("\"*\"b:c" + "@" + "")) == ONCE;
    ReplaceHit(Url, ONCE, "");
    assert ONCE + "" == ONCE;
  }

  /** The chain, pass by pass. */
  lemma MaskedAs(s: string, a: string, b: string)
    requires Replace(Url, s) == a && Replace(Key("ak"), a) == b
    requires forall i :: 0 <= i < |b| - 1 && b[i] == '"' ==> b[i + 1] != 's' && b[i + 1] != 'p' && b[i + 1] != 'v'
    ensures DataMasking(s) == b
  {
    hide Replace;
    OtherKeys(b);
    var passes := [Url] + KeyPasses();
    assert passes[0] == Url && passes[1..] == KeyPasses() && KeyPasses()[0] == Key("ak");
    assert Passes(passes, s) == Passes(KeyPasses(), a) == Passes(KeyPasses()[1..], b);
  }

  /** Each pass is idempotent, the chain is not: the key pass takes away the slash that kept the URL
      pass from matching, so masking the masked line masks more. */
  lemma ChainNotIdempotent()
    ensures DataMasking(LOG) == ONCE && DataMasking(ONCE) == "://*:*@" != ONCE
  {
    hide Replace, DataMasking;
    UrlLeavesLog();
    KeyMasksLog();
    MaskedAs(LOG, LOG, ONCE);
    UrlMasksOnce();
    NoKey("ak", "://*:*@");
    MaskedAs(ONCE, "://*:*@", "://*:*@");
  }
}
