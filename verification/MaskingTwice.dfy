/** When DataMasking is idempotent. */
module MaskingTwice {
  import opened Types
  import opened Masking
  import opened Quotes
  import opened KeyChain

  // ------------------------------------------------------------------ a URL match, part by part

  datatype Reading = Found | Blocked | Through(colon: bool)

  /** Reading user and password: up to an at sign behind a colon, a blank or a slash, or the end. */
  function Read(text: string, colon: bool): Reading {
    if text == "" then Through(colon)
    else if !In(Authority, text[0]) then Blocked
    else if colon && text[0] == '@' then Found
    else Read(text[1..], colon || text[0] == ':')
  }

  /** The rest of a URL match from part i on. */
  predicate Runs(parts: seq<string>, i: nat, colon: bool)
    decreases |parts| - i
  {
    i < |parts| &&
    match Read(parts[i], colon)
    case Found => true
    case Blocked => false
    case Through(c) => Runs(parts, i + 1, c)
  }

  function UrlSegs(colon: bool): seq<Segment> {
    if colon then [Lazy(Authority, '@')] else [Lazy(Authority, ':'), Lazy(Authority, '@')]
  }

  lemma {:induction false} ReadScan(p: string, more: string, colon: bool)
    ensures Scan(UrlSegs(colon), p + more).Some? <==>
            match Read(p, colon)
            case Found => true
            case Blocked => false
            case Through(c) => Scan(UrlSegs(c), more).Some?
    decreases |p|
  {
    if p == "" {
      assert p + more == more;
    } else {
      assert (p + more)[0] == p[0] && (p + more)[1..] == p[1..] + more;
      assert UrlSegs(false)[1..] == UrlSegs(true) && UrlSegs(true)[1..] == [];
      ReadScan(p[1..], more, colon || p[0] == ':');
    }
  }

  /** What follows the first parts, with its quote. */
  function Tail(parts: seq<string>, i: nat): string
    requires i <= |parts|
  {
    if i == |parts| then "" else "\"" + Join(parts[i..])
  }

  lemma JoinTail(parts: seq<string>, i: nat)
    requires i < |parts|
    ensures Join(parts[i..]) == parts[i] + Tail(parts, i + 1)
  {
    assert parts[i..][1..] == parts[i + 1..];
    if i + 1 == |parts| { assert parts[i] + "" == parts[i]; } else { assert |parts[i..]| != 1; }
  }

  lemma {:induction false} RunsScan(parts: seq<string>, i: nat, colon: bool)
    requires i <= |parts|
    ensures Runs(parts, i, colon) <==> Scan(UrlSegs(colon), Tail(parts, i)).Some?
    decreases |parts| - i
  {
    if i >= |parts| {
    } else {
      JoinTail(parts, i);
      var tail := Tail(parts, i);
      assert tail[1..] == parts[i] + Tail(parts, i + 1);
      ReadScan(parts[i], Tail(parts, i + 1), colon);
      RunsScan(parts, i + 1, true);
      RunsScan(parts, i + 1, false);
    }
  }

  // ------------------------------------------------------------------ texts that the URL pass leaves alone

  predicate UrlFixed(text: string) {
    forall i :: 0 <= i < |text| && Match(Url, text[i..]).Some? ==> Mask(Url) <= text[i..]
  }

  lemma UrlMask(text: string)
    requires Mask(Url) <= text
    ensures Match(Url, text) == Some(7)
  {
    MaskIsHit(Url);
    assert text == Mask(Url) + text[7..];
    HitMatches(Url, Mask(Url), text[7..]);
  }

  /** The URL pass leaves a text alone exactly when each of its matches is the mask. */
  lemma {:induction false} FixedByUrl(text: string)
    ensures Replace(Url, text) == text <==> UrlFixed(text)
    decreases |text|
  {
    hide Match;
    if text == "" {
    } else {
      assert text[0..] == text;
      match Match(Url, text)
      case None =>
        FixedByUrl(text[1..]);
        FixedTail(text, 1);
      case Some(n) =>
        if Mask(Url) <= text {
          UrlMask(text);
          FixedByUrl(text[7..]);
          FixedTail(text, 7);
          assert text == Mask(Url) + text[7..];
        }
    }
  }

  lemma NoneInMask(text: string, i: nat)
    requires Mask(Url) <= text && 0 < i < 7
    ensures Match(Url, text[i..]).None?
  {
    hide Match;
    UrlStarts(text[i..]);
    assert text[i..][0] == text[i] == Mask(Url)[i];
    if i == 4 { assert text[i..][1] == text[5] == Mask(Url)[5]; }
  }

  lemma FixedTail(text: string, n: nat)
    requires 0 < n <= |text| && (n == 1 || (n == 7 && Mask(Url) <= text))
    ensures UrlFixed(text) <==> UrlFixed(text[n..]) && (Match(Url, text).Some? ==> Mask(Url) <= text)
  {
    hide Match;
    var rest := text[n..];
    assert text[0..] == text;
    if UrlFixed(text) {
      forall i | 0 <= i < |rest| && Match(Url, rest[i..]).Some? ensures Mask(Url) <= rest[i..] {
        assert rest[i..] == text[n + i..];
      }
    }
    if UrlFixed(rest) && (Match(Url, text).Some? ==> Mask(Url) <= text) {
      forall i | 0 <= i < |text| && Match(Url, text[i..]).Some? ensures Mask(Url) <= text[i..] {
        if i >= n {
          assert text[i..] == rest[i - n..];
        } else if i > 0 {
          NoneInMask(text, i);
        }
      }
    }
  }

  /** The URL pass does not change what it finds at this place of part t. */
  predicate Quiet(parts: seq<string>, t: nat, p: string) {
    "://" <= p ==>
      match Read(p[3..], false)
      case Found => Mask(Url) <= p
      case Blocked => true
      case Through(c) => !Runs(parts, t + 1, c)
  }

  lemma ReadMask(p: string)
    requires Mask(Url) <= p
    ensures "://" <= p && Read(p[3..], false) == Found
  {
    var m := Mask(Url);
    assert p[0] == m[0] && p[1] == m[1] && p[2] == m[2] && p[3] == m[3] && p[4] == m[4] && p[5] == m[5] && p[6] == m[6];
    assert p[3..][1..] == p[4..] && p[4..][1..] == p[5..] && p[5..][1..] == p[6..];
    assert Read(p[6..], true) == Found;
    assert Read(p[5..], true) == Found;
    assert Read(p[4..], false) == Found;
  }

  /** A text without quotes stands in one part. */
  lemma {:induction false} PrefixInPart(m: string, p: string, rest: string)
    requires QuoteFree(m) && (rest == "" || rest[0] == '"')
    ensures m <= p + rest <==> m <= p
    decreases |m|
  {
    if m == "" {
    } else if p == "" {
      assert p + rest == rest && m[0] != '"';
    } else {
      PrefixInPart(m[1..], p[1..], rest);
      Unshift(m, p + rest);
      Unshift(m, p);
      assert (p + rest)[1..] == p[1..] + rest;
    }
  }

  lemma UrlBegins(text: string)
    ensures Match(Url, text).Some? ==> "://" <= text
  {
    assert Segments(Url) == Chars("://") + UrlSegs(false);
    if Match(Url, text).Some? { CharsFirst("://", UrlSegs(false), text); }
  }

  lemma QuietMatch(parts: seq<string>, t: nat, p: string)
    requires t < |parts| && QuoteFree(p)
    ensures var text := p + Tail(parts, t + 1);
            Quiet(parts, t, p) <==> (Match(Url, text).Some? ==> Mask(Url) <= text)
  {
    var rest := Tail(parts, t + 1);
    var text := p + rest;
    PrefixInPart("://", p, rest);
    PrefixInPart(Mask(Url), p, rest);
    MatchRuns(parts, t, p);
    if Mask(Url) <= p { ReadMask(p); }
    hide Mask, Runs, Read, Tail, Match;
  }

  /** A match at a place of part t, read off the parts. */
  lemma MatchRuns(parts: seq<string>, t: nat, p: string)
    requires t < |parts|
    ensures Match(Url, p + Tail(parts, t + 1)).Some? ==> "://" <= p + Tail(parts, t + 1)
    ensures "://" <= p ==>
              (Match(Url, p + Tail(parts, t + 1)).Some? <==>
                match Read(p[3..], false)
                case Found => true
                case Blocked => false
                case Through(c) => Runs(parts, t + 1, c))
  {
    var text := p + Tail(parts, t + 1);
    UrlBegins(text);
    if "://" <= p {
      assert Segments(Url) == Chars("://") + UrlSegs(false);
      CharsRead("://", UrlSegs(false), text);
      assert text[3..] == p[3..] + Tail(parts, t + 1);
      ReadScan(p[3..], Tail(parts, t + 1), false);
      RunsScan(parts, t + 1, true);
      RunsScan(parts, t + 1, false);
      hide Scan, Runs, Read, Tail;
    }
  }

  /** The text from offset o of part t on. */
  function From(parts: seq<string>, t: nat, o: nat): string
    requires t < |parts| && o <= |parts[t]|
  {
    parts[t][o..] + Tail(parts, t + 1)
  }

  lemma DropDrop(s: string, i: nat, j: nat)
    requires i + j <= |s|
    ensures s[i..][j..] == s[i + j..]
  {
  }

  lemma DropFirst(a: string, b: string, o: nat)
    requires o <= |a|
    ensures (a + b)[o..] == a[o..] + b
  {
  }

  lemma Empty(a: string, b: string)
    ensures a[|a|..] + b == b
  {
  }

  /** A part after the first begins behind a quote. */
  lemma NextPart(parts: seq<string>, t: nat)
    requires t + 1 < |parts|
    ensures From(parts, t, |parts[t]|) == "\"" + From(parts, t + 1, 0)
  {
    hide Join;
    JoinTail(parts, t + 1);
    assert parts[t + 1][0..] == parts[t + 1];
    assert From(parts, t + 1, 0) == Join(parts[t + 1..]);
    assert Tail(parts, t + 1) == "\"" + Join(parts[t + 1..]);
    Empty(parts[t], Tail(parts, t + 1));
  }

  lemma FirstPart(parts: seq<string>)
    requires parts != []
    ensures Join(parts) == From(parts, 0, 0)
  {
    assert parts[0..] == parts && parts[0][0..] == parts[0];
    JoinTail(parts, 0);
  }

  lemma FromDrop(parts: seq<string>, t: nat, o: nat)
    requires t < |parts| && o <= |parts[t]|
    ensures o <= |From(parts, t, 0)| && From(parts, t, 0)[o..] == From(parts, t, o)
  {
    assert parts[t][0..] == parts[t];
    DropFirst(parts[t], Tail(parts, t + 1), o);
  }

  /** Every place in the parts is one in the text. */
  lemma {:induction false} PlaceInText(parts: seq<string>, t: nat, o: nat) returns (i: nat)
    requires t < |parts| && o <= |parts[t]|
    ensures i <= |Join(parts)| && Join(parts)[i..] == From(parts, t, o)
    decreases t
  {
    hide From, Join;
    FromDrop(parts, t, o);
    if t == 0 {
      FirstPart(parts);
      i := o;
    } else {
      var j := PlaceInText(parts, t - 1, |parts[t - 1]|);
      NextPart(parts, t - 1);
      i := j + 1 + o;
      DropDrop(Join(parts), j, 1 + o);
      DropDrop(Join(parts)[j..], 1, o);
      assert Join(parts)[j..][1..] == From(parts, t, 0);
    }
  }

  /** And the other way round. */
  lemma {:induction false} PlaceInParts(parts: seq<string>, i: nat) returns (t: nat, o: nat)
    requires parts != [] && i <= |Join(parts)|
    ensures t < |parts| && o <= |parts[t]| && From(parts, t, o) == Join(parts)[i..]
    decreases i
  {
    hide Join;
    if i == 0 {
      t, o := 0, 0;
      FirstPart(parts);
    } else {
      t, o := PlaceInParts(parts, i - 1);
      DropDrop(Join(parts), i - 1, 1);
      assert From(parts, t, o)[1..] == Join(parts)[i..];
      if o < |parts[t]| {
        FromDrop(parts, t, o);
        FromDrop(parts, t, o + 1);
        DropDrop(From(parts, t, 0), o, 1);
        o := o + 1;
      } else {
        assert From(parts, t, o) == Tail(parts, t + 1);
        NextPart(parts, t);
        t, o := t + 1, 0;
      }
    }
  }

  predicate AllQuiet(parts: seq<string>) {
    forall t, o :: 0 <= t < |parts| && 0 <= o <= |parts[t]| ==> Quiet(parts, t, parts[t][o..])
  }

  /** Left alone by the URL pass, read off the parts. */
  lemma FixedParts(parts: seq<string>)
    requires parts != [] && AllQuoteFree(parts)
    ensures Replace(Url, Join(parts)) == Join(parts) <==> AllQuiet(parts)
  {
    hide Match, Quiet;
    var text := Join(parts);
    FixedByUrl(text);
    if UrlFixed(text) {
      forall t, o | 0 <= t < |parts| && 0 <= o <= |parts[t]| ensures Quiet(parts, t, parts[t][o..]) {
        var i := PlaceInText(parts, t, o);
        QuietMatch(parts, t, parts[t][o..]);
        MatchNeedsText(text[i..]);
      }
    }
    if AllQuiet(parts) {
      forall i | 0 <= i < |text| && Match(Url, text[i..]).Some? ensures Mask(Url) <= text[i..] {
        var t, o := PlaceInParts(parts, i);
        QuietMatch(parts, t, parts[t][o..]);
      }
    }
  }

  lemma MatchNeedsText(text: string)
    ensures Match(Url, text).Some? ==> text != ""
  {
  }

  // ------------------------------------------------------------------ what the key passes free

  /** A part that the key passes put a colon or an asterisk for. */
  predicate InMatch(names: seq<string>, parts: seq<string>, i: nat) {
    MaskedAt(names, parts, i - 2) || MaskedAt(names, parts, i - 3)
  }

  /** It held what a URL match cannot read over. */
  predicate Dirty(text: string) {
    exists i :: 0 <= i < |text| && !In(Authority, text[i])
  }

  /** Reading on to an at sign, over the colons and asterisks that the key passes leave; one of the parts
      they stand for, if none before, held a blank or a slash. */
  predicate Opens(names: seq<string>, parts: seq<string>, i: nat, colon: bool, dirty: bool)
    decreases |parts| - i
  {
    i < |parts| &&
    if InMatch(names, parts, i) then
      Opens(names, parts, i + 1, colon || MaskedAt(names, parts, i - 2), dirty || Dirty(parts[i]))
    else
      match Read(parts[i], colon)
      case Found => dirty
      case Blocked => false
      case Through(c) => Opens(names, parts, i + 1, c, dirty)
  }

  /** No key match that the text after a "://" runs over, up to its at sign, holds a blank or a slash. */
  predicate UrlGuard(names: seq<string>, parts: seq<string>) {
    forall t: nat, o: nat :: t < |parts| && o <= |parts[t]| && !InMatch(names, parts, t) ==>
      NotOpened(names, parts, t, parts[t][o..])
  }

  predicate NotOpened(names: seq<string>, parts: seq<string>, t: nat, p: string) {
    "://" <= p && Read(p[3..], false).Through? ==> !Opens(names, parts, t + 1, Read(p[3..], false).colon, false)
  }

  lemma {:induction false} OpensRuns(names: seq<string>, parts: seq<string>, i: nat, colon: bool, dirty: bool)
    ensures Opens(names, parts, i, colon, dirty) ==> Runs(Masked(names, parts), i, colon)
    ensures Opens(names, parts, i, colon, true) <==> Runs(Masked(names, parts), i, colon)
    decreases |parts| - i
  {
    if i >= |parts| {
    } else {
      ReadMarks(colon);
      hide MaskedAt, Read, Dirty, Masked;
      if InMatch(names, parts, i) {
        OpensRuns(names, parts, i + 1, colon || MaskedAt(names, parts, i - 2), dirty || Dirty(parts[i]));
      } else if Read(parts[i], colon).Through? {
        OpensRuns(names, parts, i + 1, Read(parts[i], colon).colon, dirty);
      }
    }
  }

  lemma ReadMarks(colon: bool)
    ensures Read(":", colon) == Through(true) && Read("*", colon) == Through(colon)
  {
    assert ":"[1..] == "" && "*"[1..] == "";
  }

  /** Reading with a colon behind gets as far. */
  lemma {:induction false} ReadSooner(text: string, colon: bool, sooner: bool)
    requires colon ==> sooner
    ensures Read(text, colon).Found? ==> Read(text, sooner).Found?
    ensures Read(text, colon).Through? ==>
              Read(text, sooner).Found? ||
              (Read(text, sooner).Through? && (Read(text, colon).colon ==> Read(text, sooner).colon))
  {
    if text == "" || !In(Authority, text[0]) || (sooner && text[0] == '@') {
    } else {
      ReadSooner(text[1..], colon || text[0] == ':', sooner || text[0] == ':');
    }
  }

  lemma {:induction false} ReadClean(text: string, colon: bool)
    requires !Dirty(text)
    ensures !Read(text, colon).Blocked?
    ensures Read(text, colon).Through? && (colon || Colon(text)) ==> Read(text, colon).colon
  {
    if text == "" {
    } else {
      assert In(Authority, text[0]);
      assert forall i :: 0 <= i < |text[1..]| ==> text[1..][i] == text[i + 1];
      ReadClean(text[1..], colon || text[0] == ':');
    }
  }

  /** What the key passes did not open was open before. */
  lemma {:induction false} RanBefore(names: seq<string>, parts: seq<string>, i: nat, colon: bool, sooner: bool)
    requires Runs(Masked(names, parts), i, colon) && !Opens(names, parts, i, colon, false) && (colon ==> sooner)
    ensures Runs(parts, i, sooner)
    decreases |parts| - i
  {
    ReadMarks(colon);
    if InMatch(names, parts, i) {
      var c := colon || MaskedAt(names, parts, i - 2);
      OpensRuns(names, parts, i + 1, c, true);
      ReadClean(parts[i], sooner);
      assert MaskedAt(names, parts, i - 2) ==> Colon(parts[i]);
      hide MaskedAt, Read, Colon, Dirty;
      if Read(parts[i], sooner).Through? { RanBefore(names, parts, i + 1, c, Read(parts[i], sooner).colon); }
    } else {
      ReadSooner(parts[i], colon, sooner);
      hide MaskedAt, Read;
      if Read(parts[i], colon).Through? && Read(parts[i], sooner).Through? {
        RanBefore(names, parts, i + 1, Read(parts[i], colon).colon, Read(parts[i], sooner).colon);
      }
    }
  }

  /** After the key passes the URL pass finds nothing new exactly when UrlGuard holds. */
  lemma SecondUrl(names: seq<string>, parts: seq<string>)
    requires AllQuiet(parts)
    ensures AllQuiet(Masked(names, parts)) <==> UrlGuard(names, parts)
  {
    var after := Masked(names, parts);
    hide Read, MaskedAt, Opens, Runs, Mask;
    if AllQuiet(after) {
      forall t: nat, o: nat | t < |parts| && o <= |parts[t]| && !InMatch(names, parts, t)
        ensures NotOpened(names, parts, t, parts[t][o..])
      {
        assert after[t] == parts[t] && Quiet(after, t, parts[t][o..]);
        OpensRuns(names, parts, t + 1, true, false);
        OpensRuns(names, parts, t + 1, false, false);
      }
    }
    if UrlGuard(names, parts) {
      forall t, o | 0 <= t < |after| && 0 <= o <= |after[t]| ensures Quiet(after, t, after[t][o..]) {
        if !InMatch(names, parts, t) {
          assert after[t] == parts[t] && Quiet(parts, t, parts[t][o..]);
          assert NotOpened(names, parts, t, parts[t][o..]);
          NotRun(names, parts, t + 1, true);
          NotRun(names, parts, t + 1, false);
        }
      }
    }
  }

  lemma NotRun(names: seq<string>, parts: seq<string>, i: nat, colon: bool)
    ensures !Runs(parts, i, colon) && !Opens(names, parts, i, colon, false) ==> !Runs(Masked(names, parts), i, colon)
  {
    if Runs(Masked(names, parts), i, colon) && !Opens(names, parts, i, colon, false) {
      RanBefore(names, parts, i, colon, colon);
    }
  }

  // ------------------------------------------------------------------ the theorem

  const NAMES: seq<string> :=
    ["ak", "sk", "securityToken", "sign_ak", "sign_sk", "passwd", "password", "vcn_stream_pwd"]

  lemma AddName(name: string, rest: seq<string>)
    requires GoodName(name) && name != "*" && name !in rest && GoodNames(rest)
    ensures GoodNames([name] + rest)
  {
    hide GoodName;
    var names := [name] + rest;
    forall i, j | 0 <= i < j < |names| ensures names[i] != names[j] { assert names[j] == rest[j - 1]; }
  }

  /** The names after the first n, and that they are good. */
  lemma {:induction false} NamesFrom(n: nat)
    requires n <= |NAMES|
    ensures GoodNames(NAMES[n..])
    decreases |NAMES| - n
  {
    if n == |NAMES| {
    } else {
      NamesFrom(n + 1);
      NameIsGood(n);
      NameIsNew(n);
      hide NAMES;
      AddName(NAMES[n], NAMES[n + 1..]);
      assert NAMES[n..] == [NAMES[n]] + NAMES[n + 1..];
    }
  }

  lemma NameIsGood(n: nat)
    requires n < |NAMES|
    ensures GoodName(NAMES[n]) && NAMES[n] != "*"
  {
    assert Key(NAMES[n]) in KeyPasses();
  }

  lemma NameIsNew(n: nat)
    requires n < |NAMES|
    ensures NAMES[n] !in NAMES[n + 1..]
  {
  }

  lemma NamesAreGood()
    ensures GoodNames(NAMES)
  {
    NamesFrom(0);
    assert NAMES[0..] == NAMES;
  }

  lemma KeysAreGood()
    ensures GoodNames(NAMES) && KeyPasses() == Keys(NAMES)
  {
    NamesAreGood();
    hide GoodNames;
  }

  /** The chain on the parts that the URL pass leaves. */
  lemma ChainMasks(text: string)
    ensures DataMasking(text) == Join(Masked(NAMES, Parts(Replace(Url, text))))
    ensures AllQuoteFree(Masked(NAMES, Parts(Replace(Url, text))))
  {
    var once := Replace(Url, text);
    hide Replace, Masked, GoodNames;
    KeysAreGood();
    JoinParts(once);
    PassesMask(NAMES, Parts(once));
    StaysQuoteFree(NAMES, Parts(once));
    var passes := [Url] + KeyPasses();
    assert passes[0] == Url && passes[1..] == KeyPasses();
  }

  lemma Assoc(a: string, b: string, c: string)
    ensures a + (b + c) == a + b + c
  {
  }

  /** The first match of a text that the URL pass changes. */
  lemma {:induction false} FirstChange(text: string) returns (front: string, rest: string, after: string)
    requires !UrlFixed(text)
    ensures text == front + rest && Replace(Url, text) == front + (Mask(Url) + after)
    ensures Match(Url, rest).Some? && !(Mask(Url) <= rest)
    decreases |text|
  {
    hide Match;
    assert text[0..] == text;
    match Match(Url, text)
    case None =>
      FixedTail(text, 1);
      front, rest, after := FirstChange(text[1..]);
      assert text == [text[0]] + text[1..];
      Assoc([text[0]], front, rest);
      Assoc([text[0]], front, Mask(Url) + after);
      front := [text[0]] + front;
    case Some(n) =>
      if Mask(Url) <= text {
        UrlMask(text);
        FixedTail(text, 7);
        front, rest, after := FirstChange(text[7..]);
        assert text == Mask(Url) + text[7..];
        Assoc(Mask(Url), front, rest);
        Assoc(Mask(Url), front, Mask(Url) + after);
        front := Mask(Url) + front;
      } else {
        front, rest, after := "", text, Replace(Url, text[n..]);
      }
  }

  lemma FirstOfParts(m: string, text: string)
    requires QuoteFree(m) && m <= text
    ensures Parts(text)[0] == m + Parts(text[|m|..])[0]
  {
    assert text == m + text[|m|..];
    QuoteFreeParts(m);
    PartsConcat(m, text[|m|..]);
  }

  /** The part that two texts run into after the same front. */
  lemma PartAtFront(front: string, rest: string)
    ensures var k := |Parts(front)| - 1;
            k < |Parts(front + rest)| && Parts(front + rest)[k] == Parts(front)[k] + Parts(rest)[0]
  {
    PartsConcat(front, rest);
  }

  lemma FirstInText(text: string)
    ensures Parts(text)[0] <= text
  {
    JoinParts(text);
    FirstPart(Parts(text));
  }

  /** A mask that the key passes keep stood there before. */
  lemma ChangeShows(names: seq<string>, front: string, rest: string, after: string)
    requires "://" <= rest
    requires Parts(front + rest) == Masked(names, Parts(front + (Mask(Url) + after)))
    ensures Mask(Url) <= rest
  {
    var once := Mask(Url) + after;
    var k := |Parts(front)| - 1;
    PartAtFront(front, rest);
    PartAtFront(front, once);
    FirstOfParts("://", rest);
    LongPart(names, Parts(front + once), k);
    MaskFirst(after);
    FirstInText(rest);
    hide *;
    Cancel(Parts(front)[k], Parts(rest)[0], Parts(once)[0]);
  }

  lemma MaskFirst(after: string)
    ensures Mask(Url) <= Parts(Mask(Url) + after)[0]
  {
    FirstOfParts(Mask(Url), Mask(Url) + after);
  }

  lemma LongPart(names: seq<string>, parts: seq<string>, k: nat)
    requires k < |parts| && |Masked(names, parts)[k]| >= 3
    ensures Masked(names, parts)[k] == parts[k]
  {
    hide MaskedAt;
  }

  lemma Cancel(own: string, a: string, b: string)
    requires own + a == own + b
    ensures a == b
  {
    assert a == (own + a)[|own|..] && b == (own + b)[|own|..];
  }

  /** What the URL pass changes, no key pass restores. */
  lemma NotRestored(names: seq<string>, text: string)
    requires Join(Masked(names, Parts(Replace(Url, text)))) == text &&
             AllQuoteFree(Masked(names, Parts(Replace(Url, text))))
    ensures Replace(Url, text) == text
  {
    FixedByUrl(text);
    if !UrlFixed(text) {
      var front, rest, after := FirstChange(text);
      UrlBegins(rest);
      PartsJoin(Masked(names, Parts(Replace(Url, text))));
      ChangeShows(names, front, rest, after);
    }
  }

  /** Masking twice is masking once exactly when, on the text that the URL pass leaves, the key passes
      open no URL match and overlook no key match. */
  lemma IdempotentExactly(text: string)
    ensures var parts := Parts(Replace(Url, text));
            DataMasking(DataMasking(text)) == DataMasking(text) <==> UrlGuard(NAMES, parts) && KeyGuard(NAMES, parts)
  {
    var parts := Parts(Replace(Url, text));
    var after := Masked(NAMES, parts);
    hide Replace, Masked, GoodNames, DataMasking, KeyGuard, UrlGuard;
    KeysAreGood();
    ChainMasks(text);
    ChainMasks(Join(after));
    JoinParts(Replace(Url, text));
    PassIdempotent(Url, text);
    FixedParts(parts);
    SecondUrl(NAMES, parts);
    FixedParts(after);
    PartsJoin(after);
    SecondPasses(NAMES, parts);
    PartsJoin(Masked(NAMES, Parts(Replace(Url, Join(after)))));
    if DataMasking(Join(after)) == Join(after) { NotRestored(NAMES, Join(after)); }
  }

  // ------------------------------------------------------------------ texts that meet the guards

  /** Without an at sign no URL match can open. */
  lemma NoAtSign(names: seq<string>, parts: seq<string>)
    requires forall t, i :: 0 <= t < |parts| && 0 <= i < |parts[t]| ==> parts[t][i] != '@'
    ensures UrlGuard(names, parts)
  {
    forall t: nat, o: nat | t < |parts| && o <= |parts[t]| ensures NotOpened(names, parts, t, parts[t][o..]) {
      NotFound(names, parts, t + 1, true);
      NotFound(names, parts, t + 1, false);
    }
  }

  lemma {:induction false} NotFound(names: seq<string>, parts: seq<string>, i: nat, colon: bool)
    requires forall t, i :: 0 <= t < |parts| && 0 <= i < |parts[t]| ==> parts[t][i] != '@'
    ensures !Opens(names, parts, i, colon, false) && !Opens(names, parts, i, colon, true)
    decreases |parts| - i
  {
    if i >= |parts| {
    } else {
      ReadsThrough(parts[i], colon);
      hide Read;
      NotFound(names, parts, i + 1, true);
      NotFound(names, parts, i + 1, false);
    }
  }

  lemma {:induction false} ReadsThrough(text: string, colon: bool)
    requires forall i :: 0 <= i < |text| ==> text[i] != '@'
    ensures !Read(text, colon).Found?
  {
    if text == "" {
    } else {
      ReadsThrough(text[1..], colon || text[0] == ':');
    }
  }

  lemma {:induction false} PartsChars(text: string, t: nat, i: nat)
    requires t < |Parts(text)| && i < |Parts(text)[t]|
    ensures Parts(text)[t][i] in text
  {
    if text == "" {
    } else {
      var rest := Parts(text[1..]);
      if text[0] == '"' {
        PartsChars(text[1..], t - 1, i);
      } else if t > 0 {
        assert Parts(text)[t] == rest[t];
        PartsChars(text[1..], t, i);
      } else if i > 0 {
        assert Parts(text)[0][i] == rest[0][i - 1];
        PartsChars(text[1..], 0, i - 1);
      }
    }
  }

  lemma {:induction false} NothingFound(text: string)
    requires '@' !in text
    ensures Match(Url, text).None?
  {
    UrlBegins(text);
    if "://" <= text {
      assert Segments(Url) == Chars("://") + UrlSegs(false);
      CharsRead("://", UrlSegs(false), text);
      ReadScan(text[3..], "", false);
      ReadsThrough(text[3..], false);
      assert text[3..] + "" == text[3..];
    }
  }

  /** A text without at sign, or without "://". */
  predicate NoUrl(text: string) {
    '@' !in text || forall i :: 0 <= i <= |text| ==> !("://" <= text[i..])
  }

  /** On such a text only the key passes matter. */
  lemma IdempotentWithoutUrl(text: string)
    requires NoUrl(text)
    ensures DataMasking(DataMasking(text)) == DataMasking(text) <==> KeyGuard(NAMES, Parts(text))
  {
    hide Match, Parts, KeyGuard, DataMasking;
    var parts := Parts(text);
    forall i | 0 <= i < |text| ensures Match(Url, text[i..]).None? {
      UrlBegins(text[i..]);
      if '@' !in text { NothingFound(text[i..]); }
    }
    NothingToMask(Url, text);
    JoinParts(text);
    if '@' !in text {
      forall t, i | 0 <= t < |parts| && 0 <= i < |parts[t]| ensures parts[t][i] != '@' { PartsChars(text, t, i); }
      NoAtSign(NAMES, parts);
    } else {
      forall t: nat, o: nat | t < |parts| && o <= |parts[t]| ensures NotOpened(NAMES, parts, t, parts[t][o..]) {
        var i := PlaceInText(parts, t, o);
        assert !("://" <= text[i..]);
      }
    }
    IdempotentExactly(text);
  }

  // ------------------------------------------------------------------ the key passes are not idempotent either

  const ROW: seq<string> := ["", "sk", ":", "ak", ":", "v", "ak", ":", "x", ""]

  /** The "ak" pass masks the first of two matches that share a quote, the "sk" pass masks its name, and
      the next call finds the second. */
  lemma RowIsOverlooked()
    ensures !KeyGuard(NAMES, ROW)
  {
    assert KeyAt(NAMES, ROW, 0) && KeyAt(NAMES, ROW, 2) && KeyAt(NAMES, ROW, 5);
    assert MaskedAt(NAMES, ROW, 0);
    assert Rank(NAMES, "ak") == 0 && Rank(NAMES, "sk") > 0;
    assert MaskedAt(NAMES, ROW, 2);
    assert Broken(NAMES, ROW, 2) && Broken(NAMES, ROW, 5);
    assert !MaskedAt(NAMES, ROW, 5) && !IsMask(ROW, 5);
  }

  const LINE := "\"sk\":\"ak\":\"v\"ak\":\"x\""

  const ROW_END: seq<string> := ["v", "ak", ":", "x", ""]

  lemma RowEndText()
    ensures Join(ROW_END) == "v\"ak\":\"x\""
  {
    JoinFirst("x", [""]);
    JoinFirst(":", ["x", ""]);
    JoinFirst("ak", [":", "x", ""]);
    JoinFirst("v", ["ak", ":", "x", ""]);
    assert ["x"] + [""] == ["x", ""] && [":"] + ["x", ""] == [":", "x", ""];
    assert ["ak"] + [":", "x", ""] == ["ak", ":", "x", ""] && ["v"] + ["ak", ":", "x", ""] == ROW_END;
    hide Join;
  }

  const ROW_TAIL: seq<string> := ["ak", ":", "v", "ak", ":", "x", ""]

  lemma RowTailText()
    ensures Join(ROW_TAIL) == "ak\":\"v\"ak\":\"x\""
  {
    hide Join;
    RowEndText();
    JoinFirst(":", ROW_END);
    JoinFirst("ak", [":"] + ROW_END);
    assert ["ak"] + ([":"] + ROW_END) == ROW_TAIL;
  }

  lemma RowIsFour()
    ensures ROW_TAIL != [] && ROW == [""] + (["sk"] + ([":"] + ROW_TAIL))
  {
  }

  lemma RowText()
    ensures Join(ROW) == LINE
  {
    hide ROW, ROW_TAIL;
    hide Join;
    RowIsFour();
    RowTailText();
    JoinFirst(":", ROW_TAIL);
    JoinFirst("sk", [":"] + ROW_TAIL);
    JoinFirst("", ["sk"] + ([":"] + ROW_TAIL));
  }

  lemma RowParts()
    ensures Parts(Join(ROW)) == ROW
  {
    PartsJoin(ROW);
  }

  lemma NoAtInLine()
    ensures '@' !in LINE
  {
  }

  /** "sk":"ak":"v"ak":"x" is masked further by a second call, with no URL in sight. */
  lemma KeysNotIdempotent()
    ensures NoUrl(LINE) && DataMasking(DataMasking(LINE)) != DataMasking(LINE)
  {
    RowText();
    NoAtInLine();
    assert NoUrl(LINE);
    hide *;
    RowParts();
    RowIsOverlooked();
    IdempotentWithoutUrl(LINE);
  }
}
