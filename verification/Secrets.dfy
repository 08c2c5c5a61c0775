/** What DataMasking leaves of keys and of user and password in a URL, with the keys spelled out. */
module Secrets {
  import opened Types
  import opened Masking
  import opened Quotes
  import opened KeyChain
  import opened MaskingTwice

  /** What a key's value may be. */
  ghost predicate Value(v: string) {
    forall i :: 0 <= i < |v| ==> v[i] != '"' && v[i] != '\n' && v[i] != '\r'
  }

  /** A key with its value, with any spacing around the colon. */
  function KeyText(name: string, a: string, b: string, v: string): string {
    "\"" + name + "\"" + a + ":" + b + "\"" + v + "\""
  }

  /** The text holds, behind `front`, a key and its value. */
  ghost predicate Shows(text: string, front: string, name: string, a: string, b: string, v: string, rest: string) {
    KeyName(name) && Blanks(a) && Blanks(b) && Value(v) && text == front + KeyText(name, a, b, v) + rest
  }

  lemma KeyNames(name: string)
    ensures KeyName(name) <==> name in NAMES
  {
  }

  // ------------------------------------------------------------------ parts of a text put together

  lemma PartsAtQuote(a: string, b: string)
    ensures Parts(a + ("\"" + b)) == Parts(a) + Parts(b)
  {
    PartsConcat(a, "\"" + b);
    PartsQuote(b);
    GlueAtQuote(Parts(a), Parts(b));
  }

  lemma GlueAtQuote(p: seq<string>, q: seq<string>)
    requires p != []
    ensures Glue(p, [""] + q) == p + q
  {
    assert p[|p| - 1] + "" == p[|p| - 1];
    assert ([""] + q)[1..] == q;
  }

  lemma JoinOne(p: string)
    ensures Join([p]) == p
  {
  }

  lemma {:induction false} JoinAt(parts: seq<string>, i: nat)
    requires 0 < i < |parts|
    ensures Join(parts) == Join(parts[..i]) + ("\"" + Join(parts[i..]))
    decreases i
  {
    hide Join;
    var p, tail, first, last := parts[0], parts[1..], parts[..i], parts[i..];
    assert parts == [p] + tail;
    JoinFirst(p, tail);
    if i <= 1 {
      assert first == [p] && last == tail;
      JoinOne(p);
      Assoc(p, "\"", Join(last));
    } else {
      JoinAt(tail, i - 1);
      var middle := tail[..i - 1];
      assert first == [p] + middle && tail[i - 1..] == last;
      JoinFirst(p, middle);
      Assoc(p + "\"", Join(middle), "\"" + Join(last));
    }
  }

  lemma KeyTextParts(front: string, name: string, a: string, b: string, v: string, rest: string)
    ensures front + KeyText(name, a, b, v) + rest ==
            front + ("\"" + (name + ("\"" + ((a + ":" + b) + ("\"" + (v + ("\"" + rest)))))))
  {
  }

  lemma {:induction false} ColonIs(a: string, b: string)
    requires Blanks(a) && Blanks(b)
    ensures Colon(a + ":" + b) && QuoteFree(a + ":" + b)
  {
    var c := a + ":" + b;
    if a == "" {
      assert c[0] == ':' && c[1..] == b;
    } else {
      ColonIs(a[1..], b);
      assert c[0] == ' ' && c[1..] == a[1..] + ":" + b;
    }
  }

  lemma {:induction false} ColonSplit(c: string) returns (a: string, b: string)
    requires Colon(c)
    ensures c == a + ":" + b && Blanks(a) && Blanks(b)
  {
    if c[0] == ':' {
      a, b := "", c[1..];
    } else {
      a, b := ColonSplit(c[1..]);
      assert c == [' '] + c[1..];
      a := [' '] + a;
    }
  }

  /** A key in the text is a match in its parts. */
  lemma ShownParts(text: string, front: string, name: string, a: string, b: string, v: string, rest: string)
    requires Shows(text, front, name, a, b, v, rest)
    ensures var k, parts := |Parts(front)| - 1, Parts(text);
            && KeyAt(NAMES, parts, k) && parts[..k + 1] == Parts(front) && parts[k + 4..] == Parts(rest)
            && parts[k + 1] == name && parts[k + 2] == a + ":" + b && parts[k + 3] == v
  {
    hide Parts;
    KeyNames(name);
    ColonIs(a, b);
    QuoteFreeParts(v);
    QuoteFreeParts(a + ":" + b);
    NameParts(name);
    KeyTextParts(front, name, a, b, v, rest);
    PartsAtQuote(v, rest);
    PartsAtQuote(a + ":" + b, v + ("\"" + rest));
    PartsAtQuote(name, (a + ":" + b) + ("\"" + (v + ("\"" + rest))));
    PartsAtQuote(front, name + ("\"" + ((a + ":" + b) + ("\"" + (v + ("\"" + rest))))));
    assert Parts(text) == Parts(front) + ([name] + ([a + ":" + b] + ([v] + Parts(rest))));
  }

  lemma NameParts(name: string)
    requires KeyName(name)
    ensures Parts(name) == [name]
  {
    KeyNames(name);
    var i :| 0 <= i < |NAMES| && NAMES[i] == name;
    NameIsGood(i);
    QuoteFreeParts(name);
  }

  /** A match in the parts is a key in the text. */
  lemma PartsShown(parts: seq<string>, k: nat) returns (front: string, a: string, b: string, rest: string)
    requires AllQuoteFree(parts) && KeyAt(NAMES, parts, k)
    ensures Shows(Join(parts), front, parts[k + 1], a, b, parts[k + 3], rest) && parts[k + 2] == a + ":" + b
  {
    KeyNames(parts[k + 1]);
    a, b := ColonSplit(parts[k + 2]);
    front, rest := Join(parts[..k + 1]), Join(parts[k + 4..]);
    hide Join;
    JoinAt(parts, k + 1);
    JoinHead(parts, k + 1);
    JoinHead(parts, k + 2);
    JoinHead(parts, k + 3);
    KeyTextParts(front, parts[k + 1], a, b, parts[k + 3], rest);
  }

  lemma JoinHead(parts: seq<string>, i: nat)
    requires i + 1 < |parts|
    ensures Join(parts[i..]) == parts[i] + ("\"" + Join(parts[i + 1..]))
  {
    assert parts[i..][1..] == parts[i + 1..];
  }

  // ------------------------------------------------------------------ the keys that are left

  /** Match k is left as it is, behind the mask of another of its key with which it shares a quote. */
  ghost predicate Shares(x: seq<string>, k: nat)
    requires k + 4 < |x|
  {
    var y := Masked(NAMES, x);
    && InRow(NAMES, x, k) && MaskedAt(NAMES, x, k - 3) && 3 <= k
    && y[k - 1] == ":" && y[k] == "*" && y[k + 2] == x[k + 2] && y[k + 3] == x[k + 3]
  }

  /** A match left by the passes is a mask, or shares a quote with one. */
  lemma KeyLeft(x: seq<string>, k: nat)
    requires KeyAt(NAMES, Masked(NAMES, x), k)
    ensures IsMask(Masked(NAMES, x), k) || Shares(x, k)
  {
    NamesAreGood();
    hide NAMES, GoodNames;
    KeyAtAfter(NAMES, NAMES, x, k);
    if MaskedAt(NAMES, x, k) { MaskedHit(NAMES, x, k); }
    else { Overlooks(x, k); }
  }

  lemma Overlooks(x: seq<string>, k: nat)
    requires GoodNames(NAMES) && KeyAt(NAMES, x, k) && !MaskedAt(NAMES, x, k - 2) && !MaskedAt(NAMES, x, k)
    ensures Shares(x, k)
  {
    hide NAMES;
    assert MaskedAt(NAMES, x, k - 3);
    InRowStays(x, k);
  }

  /** Behind a masked match of its own key a match is left alone. */
  lemma InRowStays(x: seq<string>, k: nat)
    requires GoodNames(NAMES) && InRow(NAMES, x, k) && MaskedAt(NAMES, x, k - 3)
    ensures Shares(x, k) && KeyAt(NAMES, Masked(NAMES, x), k)
  {
    hide NAMES;
    Apart(NAMES, x, k);
    Apart(NAMES, x, k - 1);
    Apart(NAMES, x, k - 3);
    Apart(NAMES, x, k - 4);
    KeyAtAfter(NAMES, NAMES, x, k);
  }

  /** The front of a text whose last two parts before the next quote are a colon and an asterisk. */
  lemma MaskBefore(y: seq<string>, k: nat, front: string)
    requires 3 <= k < |y| && y[k - 1] == ":" && y[k] == "*" && y[..k + 1] == Parts(front)
    ensures exists head :: front == head + "\":\"*"
  {
    JoinParts(front);
    var z := y[..k + 1];
    JoinAt(z, k - 1);
    assert z[k - 1..] == [":"] + ["*"];
    JoinFirst(":", ["*"]);
    assert front == Join(z[..k - 1]) + "\":\"*";
  }

  lemma KeyAtRange(parts: seq<string>, k: int)
    requires KeyAt(NAMES, parts, k)
    ensures 0 <= k && k + 4 < |parts|
  {
  }

  /** Nothing secret is left, wherever it stands in the output: behind one of the eight keys, with any
      spacing, there is an asterisk, or the key's first quote is the one that closes a mask. */
  lemma NoSecretLeft(text: string, front: string, name: string, a: string, b: string, v: string, rest: string)
    requires Shows(DataMasking(text), front, name, a, b, v, rest)
    ensures (a == "" && b == "" && v == "*") || exists head :: front == head + "\":\"*"
  {
    hide DataMasking, Replace, Masked, KeyAt, InRow, Parts, Join, Shows, MaskedAt;
    var x := Parts(Replace(Url, text));
    var y := Masked(NAMES, x);
    var k := |Parts(front)| - 1;
    ChainMasks(text);
    PartsJoin(y);
    ShownParts(DataMasking(text), front, name, a, b, v, rest);
    KeyLeft(x, k);
    assert 0 <= k && k + 4 < |y| by { KeyAtRange(y, k); }
    if IsMask(y, k) { OnlyColon(a, b); } else { MaskBefore(y, k, front); }
  }

  lemma OnlyColon(a: string, b: string)
    ensures a + ":" + b == ":" ==> a == "" && b == ""
  {
    assert |a + ":" + b| == |a| + 1 + |b|;
  }

  // ------------------------------------------------------------------ when no such key is left either

  /** Every key in the text has the mask for its value. */
  ghost predicate AllMasked(text: string) {
    forall front, name, a, b, v, rest :: Shows(text, front, name, a, b, v, rest) ==> a == "" && b == "" && v == "*"
  }

  /** No masked match shares its last quote with another of its key, other than a mask. */
  predicate RowGuard(names: seq<string>, parts: seq<string>) {
    forall k: nat :: k + 4 < |parts| && InRow(names, parts, k) && MaskedAt(names, parts, k - 3) ==> IsMask(parts, k)
  }

  lemma RowGuardMask(x: seq<string>, k: nat)
    requires KeyAt(NAMES, Masked(NAMES, x), k) && RowGuard(NAMES, x)
    ensures k + 4 < |x| && IsMask(Masked(NAMES, x), k)
  {
    hide NAMES, Masked, MaskedAt;
    KeyLeft(x, k);
  }

  lemma ShownIsMask(x: seq<string>, y: seq<string>, front: string, name: string, a: string, b: string, v: string,
        rest: string)
    requires y == Masked(NAMES, x) && y != [] && AllQuoteFree(y) && RowGuard(NAMES, x)
    requires Shows(Join(y), front, name, a, b, v, rest)
    ensures a == "" && b == "" && v == "*"
  {
    hide Masked, MaskedAt, RowGuard, NAMES, KeyAt, Shows, Join, Parts, AllQuoteFree;
    PartsJoin(y);
    ShownParts(Join(y), front, name, a, b, v, rest);
    RowGuardMask(x, |Parts(front)| - 1);
    OnlyColon(a, b);
  }

  lemma RowGuardMasks(x: seq<string>, y: seq<string>)
    requires y == Masked(NAMES, x) && y != [] && AllQuoteFree(y) && RowGuard(NAMES, x)
    ensures AllMasked(Join(y))
  {
    hide Masked, MaskedAt, RowGuard, NAMES, Shows, Join, AllQuoteFree;
    forall front, name, a, b, v, rest | Shows(Join(y), front, name, a, b, v, rest)
      ensures a == "" && b == "" && v == "*"
    {
      ShownIsMask(x, y, front, name, a, b, v, rest);
    }
  }

  lemma AllMaskedGuards(x: seq<string>, y: seq<string>, k: nat)
    requires y == Masked(NAMES, x) && y != [] && AllQuoteFree(y) && AllMasked(Join(y))
    requires k + 4 < |x| && InRow(NAMES, x, k) && MaskedAt(NAMES, x, k - 3)
    ensures IsMask(x, k)
  {
    NamesAreGood();
    InRowStays(x, k);
    hide Masked, MaskedAt;
    var front, a, b, rest := PartsShown(y, k);
    assert Shows(Join(y), front, y[k + 1], a, b, y[k + 3], rest);
  }

  /** Every key left in the output has the mask exactly when no masked match shares its last quote with
      another of its key. */
  lemma AllMaskedExactly(text: string)
    ensures AllMasked(DataMasking(text)) <==> RowGuard(NAMES, Parts(Replace(Url, text)))
  {
    hide DataMasking, Replace, Masked, MaskedAt, AllMasked, RowGuard, InRow;
    var x := Parts(Replace(Url, text));
    var y := Masked(NAMES, x);
    ChainMasks(text);
    assert |y| == |x|;
    if RowGuard(NAMES, x) { RowGuardMasks(x, y); }
    if AllMasked(Join(y)) { AllMaskedIsGuarded(x, y); }
  }

  lemma AllMaskedIsGuarded(x: seq<string>, y: seq<string>)
    requires y == Masked(NAMES, x) && y != [] && AllQuoteFree(y) && AllMasked(Join(y))
    ensures RowGuard(NAMES, x)
  {
    hide Masked, MaskedAt, AllMasked, InRow, IsMask;
    forall k: nat | k + 4 < |x| && InRow(NAMES, x, k) && MaskedAt(NAMES, x, k - 3) ensures IsMask(x, k) {
      AllMaskedGuards(x, y, k);
    }
  }

  // ------------------------------------------------------------------ a text that is one match

  /** The URL pass inside a value. */
  lemma {:induction false} UrlInValue(v: string)
    requires Value(v)
    ensures Value(Replace(Url, v)) && Replace(Url, v + "\"") == Replace(Url, v) + "\""
    decreases |v|
  {
    var text := v + "\"";
    UrlBeforeQuote(v);
    hide Match;
    if v == "" {
      assert text[0..] == text && text[1..] == "";
    } else {
      match Match(Url, v)
      case Some(n) =>
        assert text[n..] == v[n..] + "\"";
        UrlInValue(v[n..]);
        Assoc(Mask(Url), Replace(Url, v[n..]), "\"");
      case None =>
        assert text[1..] == v[1..] + "\"";
        UrlInValue(v[1..]);
        Assoc([v[0]], Replace(Url, v[1..]), "\"");
    }
  }

  /** No URL match ends with a quote. */
  lemma UrlBeforeQuote(v: string)
    ensures Match(Url, v + "\"") == Match(Url, v)
  {
    var segs := Segments(Url);
    assert segs == Chars("://") + UrlSegs(false);
    if Match(Url, v).Some? {
      ScanExtends(segs, v, "\"");
    } else if Match(Url, v + "\"").Some? {
      UrlBegins(v + "\"");
      PrefixInPart("://", v, "\"");
      CharsRead("://", UrlSegs(false), v);
      CharsRead("://", UrlSegs(false), v + "\"");
      assert (v + "\"")[3..] == v[3..] + "\"" && v[3..] == v[3..] + "";
      ReadScan(v[3..], "\"", false);
      ReadScan(v[3..], "", false);
      QuoteReadsNothing();
    }
  }

  lemma QuoteReadsNothing()
    ensures Scan(UrlSegs(true), "\"").None? && Scan(UrlSegs(false), "\"").None?
    ensures Scan(UrlSegs(true), "").None? && Scan(UrlSegs(false), "").None?
  {
    assert "\""[1..] == "";
  }

  /** The URL pass in front of its first match. */
  lemma {:induction false} BeforeUrl(front: string, rest: string)
    requires forall i :: 0 <= i < |front| && front[i] == ':' ==> i + 1 < |front| && front[i + 1] != '/'
    ensures Replace(Url, front + rest) == front + Replace(Url, rest)
    decreases |front|
  {
    hide Match;
    if front == "" {
      assert front + rest == rest;
    } else {
      var text := front + rest;
      UrlStarts(text);
      assert text[0] == front[0] && (|front| > 1 ==> text[1] == front[1]);
      assert text[1..] == front[1..] + rest;
      BeforeUrl(front[1..], rest);
      Assoc([front[0]], front[1..], Replace(Url, rest));
    }
  }

  lemma NameHasNoColon(name: string)
    requires KeyName(name)
    ensures forall i :: 0 <= i < |name| ==> name[i] != ':'
  {
  }

  /** The part of a key's text up to its value. */
  function KeyFront(name: string, a: string, b: string): string {
    ("\"" + name + "\"" + a) + (":" + (b + "\""))
  }

  lemma FrontColons(name: string, a: string, b: string)
    requires KeyName(name) && Blanks(a) && Blanks(b)
    ensures var front := KeyFront(name, a, b);
            forall i :: 0 <= i < |front| && front[i] == ':' ==> i + 1 < |front| && front[i + 1] != '/'
  {
    NameHasNoColon(name);
    hide KeyName;
    var head, tail, front := "\"" + name + "\"" + a, b + "\"", KeyFront(name, a, b);
    assert forall i :: 0 <= i < |head| ==> front[i] == head[i] != ':';
    assert forall i :: |head| < i < |front| ==> front[i] == tail[i - |head| - 1] != ':';
    assert front[|head| + 1] == tail[0] != '/';
  }

  lemma KeyTextFront(name: string, a: string, b: string, v: string)
    ensures KeyText(name, a, b, v) == KeyFront(name, a, b) + (v + "\"")
    ensures KeyFront(name, a, b) + (v + "\"") == "" + KeyText(name, a, b, v) + ""
  {
  }

  /** The URL pass may mask inside the value, no more. */
  lemma UrlInKey(name: string, a: string, b: string, v: string)
    requires KeyName(name) && Blanks(a) && Blanks(b) && Value(v)
    ensures Value(Replace(Url, v)) && Replace(Url, KeyText(name, a, b, v)) == KeyText(name, a, b, Replace(Url, v))
  {
    hide Replace, KeyText, KeyFront, KeyName;
    FrontColons(name, a, b);
    KeyTextFront(name, a, b, v);
    KeyTextFront(name, a, b, Replace(Url, v));
    UrlInValue(v);
    BeforeUrl(KeyFront(name, a, b), v + "\"");
  }

  lemma OneMatch(x: seq<string>)
    requires |x| == 5 && KeyAt(NAMES, x, 0)
    ensures Masked(NAMES, x) == [x[0], x[1], ":", "*", x[4]]
  {
    hide NAMES;
    assert MaskedAt(NAMES, x, 0);
    assert !KeyAt(NAMES, x, 1) && !KeyAt(NAMES, x, 2);
  }

  lemma JoinMask(name: string)
    ensures Join(["", name, ":", "*", ""]) == "\"" + name + "\":\"*\""
  {
    JoinFour("", name, [""]);
    assert ["", name, ":", "*"] + [""] == ["", name, ":", "*", ""];
  }

  /** A text that is one key and its value comes out as the key and an asterisk. */
  lemma WholeMatchMasked(name: string, a: string, b: string, v: string)
    requires KeyName(name) && Blanks(a) && Blanks(b) && Value(v)
    ensures DataMasking("\"" + name + "\"" + a + ":" + b + "\"" + v + "\"") == "\"" + name + "\":\"*\""
  {
    var text := KeyText(name, a, b, v);
    var once := Replace(Url, text);
    hide DataMasking, Replace, Masked;
    UrlInKey(name, a, b, v);
    KeyTextFront(name, a, b, Replace(Url, v));
    assert Shows(once, "", name, a, b, Replace(Url, v), "");
    ShownParts(once, "", name, a, b, Replace(Url, v), "");
    ChainMasks(text);
    FiveParts(Parts(once));
    hide KeyName, KeyAt, NAMES;
    OneMatch(Parts(once));
    JoinMask(name);
  }

  lemma FiveParts(parts: seq<string>)
    requires |parts| >= 4 && parts[..1] == Parts("") && parts[4..] == Parts("")
    ensures |parts| == 5 && parts[0] == "" && parts[4] == ""
  {
    assert parts[..1][0] == parts[0] && parts[4..][0] == parts[4];
  }

  // ------------------------------------------------------------------ user and password in a URL

  /** Up to the first colon, and up to the first at sign behind it. */
  ghost predicate UserAndPassword(u: string, w: string) {
    && (forall i :: 0 <= i < |u| ==> u[i] != ':' && u[i] != ' ' && u[i] != '/')
    && (forall i :: 0 <= i < |w| ==> w[i] != '@' && w[i] != ' ' && w[i] != '/')
  }

  /** The text holds, behind `front`, a URL with user and password. */
  ghost predicate ShowsUrl(text: string, front: string, u: string, w: string, rest: string) {
    UserAndPassword(u, w) && text == front + ("://" + u + ":" + w + "@") + rest
  }

  ghost predicate UrlsMasked(text: string) {
    forall front, u, w, rest :: ShowsUrl(text, front, u, w, rest) ==> u == "*" && w == "*"
  }

  lemma SameUrl(u: string, w: string)
    requires UserAndPassword(u, w) && "://" + u + ":" + w + "@" == "://*:*@"
    ensures u == "*" && w == "*"
  {
    var s := "://" + u + ":" + w + "@";
    assert |u| + |w| == 2;
    assert s[3 + |u|] == ':';
    assert forall i :: 0 <= i < |u| ==> s[3 + i] == u[i];
    assert forall i :: 0 <= i < |w| ==> s[4 + |u| + i] == w[i];
    assert s[3] == '*' && s[4] == ':' && s[5] == '*';
  }

  lemma UrlTexts(u: string, w: string)
    ensures "://" + (u + ":" + (w + "@" + "")) == "://" + u + ":" + w + "@"
  {
  }

  /** In a text that the URL pass leaves alone. */
  lemma FixedShows(text: string, front: string, u: string, w: string, rest: string)
    requires UrlFixed(text) && ShowsUrl(text, front, u, w, rest)
    ensures u == "*" && w == "*"
  {
    var hit := "://" + u + ":" + w + "@";
    UrlTexts(u, w);
    UrlHit(u, w);
    assert text[|front|..] == hit + rest;
    HitMatches(Url, hit, rest);
    hide Match, IsHit;
    UrlMask(hit + rest);
    assert hit == (hit + rest)[..7] == Mask(Url);
    SameUrl(u, w);
  }

  /** What a match of user and password consists of. */
  lemma {:induction false} UrlSplit(s: string, colon: bool) returns (u: string, w: string, rest: string)
    requires Scan(UrlSegs(colon), s).Some?
    ensures UserAndPassword(u, w) && s == (if colon then w + "@" + rest else u + ":" + w + "@" + rest)
    decreases |s|
  {
    assert UrlSegs(false)[1..] == UrlSegs(true) && UrlSegs(true)[1..] == [];
    assert s == [s[0]] + s[1..];
    if colon {
      if s[0] == '@' {
        u, w, rest := "", "", s[1..];
      } else {
        u, w, rest := UrlSplit(s[1..], true);
        u, w := "", [s[0]] + w;
      }
    } else if s[0] == ':' {
      u, w, rest := UrlSplit(s[1..], true);
      u := "";
    } else {
      u, w, rest := UrlSplit(s[1..], false);
      u := [s[0]] + u;
    }
  }

  lemma UrlRest(s: string)
    requires Match(Url, s).Some?
    ensures "://" <= s && Scan(UrlSegs(false), s[3..]).Some?
  {
    UrlBegins(s);
    assert Segments(Url) == Chars("://") + UrlSegs(false);
    CharsRead("://", UrlSegs(false), s);
  }

  lemma UrlShown(text: string, i: nat) returns (u: string, w: string, rest: string)
    requires i <= |text| && Match(Url, text[i..]).Some?
    ensures ShowsUrl(text, text[..i], u, w, rest) && text[i..] == ("://" + u + ":" + w + "@") + rest
  {
    var s := text[i..];
    UrlRest(s);
    hide Match, Scan, UserAndPassword;
    u, w, rest := UrlSplit(s[3..], false);
    assert s == "://" + s[3..];
    UrlConcat(u, w, rest);
    Assoc(text[..i], "://" + u + ":" + w + "@", rest);
    assert text == text[..i] + s;
  }

  lemma UrlConcat(u: string, w: string, rest: string)
    ensures "://" + (u + ":" + w + "@" + rest) == ("://" + u + ":" + w + "@") + rest
  {
  }

  /** Every URL in a text has the mask for user and password exactly when the URL pass leaves it alone. */
  lemma UrlsMaskedFixed(text: string)
    ensures UrlsMasked(text) <==> Replace(Url, text) == text
  {
    hide Replace, Match;
    FixedByUrl(text);
    if UrlFixed(text) {
      forall front, u, w, rest | ShowsUrl(text, front, u, w, rest) ensures u == "*" && w == "*" {
        FixedShows(text, front, u, w, rest);
      }
    }
    if UrlsMasked(text) {
      forall i | 0 <= i < |text| && Match(Url, text[i..]).Some? ensures Mask(Url) <= text[i..] {
        var u, w, rest := UrlShown(text, i);
        assert ShowsUrl(text, text[..i], u, w, rest);
      }
    }
  }

  /** Every URL left in the output has the mask for user and password exactly when the key passes open no
      URL match: when they take no blank and no slash from between a "://" and an at sign. */
  lemma UrlsMaskedExactly(text: string)
    ensures UrlsMasked(DataMasking(text)) <==> UrlGuard(NAMES, Parts(Replace(Url, text)))
  {
    hide DataMasking, Replace, Masked, UrlsMasked, UrlGuard;
    var x := Parts(Replace(Url, text));
    var y := Masked(NAMES, x);
    ChainMasks(text);
    UrlsMaskedFixed(Join(y));
    FixedParts(y);
    SecondUrl(NAMES, x) by {
      JoinParts(Replace(Url, text));
      PassIdempotent(Url, text);
      FixedParts(x);
    }
  }

  /** A text without quotes keeps no user and no password. */
  lemma UrlsMaskedWithoutQuotes(text: string)
    requires QuoteFree(text)
    ensures UrlsMasked(DataMasking(text))
  {
    hide DataMasking, UrlsMasked, Masked, Replace;
    QuoteFreeUrl(text);
    QuoteFreeParts(Replace(Url, text));
    UrlsMaskedExactly(text);
  }

  lemma {:induction false} QuoteFreeUrl(text: string)
    requires QuoteFree(text)
    ensures QuoteFree(Replace(Url, text))
    decreases |text|
  {
    hide Match;
    if text == "" {
    } else {
      var n := if Match(Url, text).Some? then Match(Url, text).value else 1;
      QuoteFreeUrl(text[n..]);
    }
  }

  /** A text that is one URL with user and password comes out as the mask. */
  lemma WholeUrlMasked(u: string, w: string)
    requires UserAndPassword(u, w)
    ensures DataMasking("://" + u + ":" + w + "@") == "://*:*@"
  {
    hide Replace, DataMasking, IsHit;
    var text := "://" + u + ":" + w + "@";
    UrlTexts(u, w);
    UrlHit(u, w);
    ReplaceHit(Url, text, "");
    assert text + "" == text;
    NothingLeft();
    NoKey("ak", "://*:*@");
    MaskedAs(text, "://*:*@", "://*:*@");
  }

  lemma NothingLeft()
    ensures Replace(Url, "") == "" && Mask(Url) + "" == "://*:*@"
  {
  }

  // ------------------------------------------------------------------ a key that is left

  const SHARED := "\"ak\":\"v\"ak\":\"x\""

  const LEFT := "\"ak\":\"*\"ak\":\"x\""

  /** The pass goes on behind the first match, where the second has lost its quote. */
  lemma FirstShared()
    ensures Replace(Key("ak"), SHARED) == LEFT
  {
    hide Replace, IsHit;
    var hit, rest := "\"ak\":\"v\"", "ak\":\"x\"";
    KeyHit("ak", "", "", "v");
    assert Quoted("ak") + ("" + ":" + ("" + "\"" + ("v" + "\"" + ""))) == hit;
    ReplaceHit(Key("ak"), hit, rest);
    NoKey("ak", rest);
    assert SHARED == hit + rest;
    assert Mask(Key("ak")) + rest == LEFT;
  }

  lemma LeftQuotes()
    ensures forall i :: 0 <= i < |LEFT| - 1 && LEFT[i] == '"' ==>
              LEFT[i + 1] != 's' && LEFT[i + 1] != 'p' && LEFT[i + 1] != 'v'
  {
  }

  lemma LeftShows()
    ensures Shows(LEFT, "\"ak\":\"*", "ak", "", "", "x", "")
  {
  }

  /** Two matches that share a quote: the second keeps its value. */
  lemma SharedQuote()
    ensures DataMasking(SHARED) == "\"ak\":\"*\"ak\":\"x\"" && !AllMasked(DataMasking(SHARED))
  {
    hide Replace, DataMasking, Shows;
    NoAtInShared();
    FirstShared();
    LeftQuotes();
    MaskedAs(SHARED, SHARED, LEFT);
    LeftShows();
  }

  lemma NoAtInShared()
    ensures Replace(Url, SHARED) == SHARED
  {
    hide Match;
    forall i | 0 <= i < |SHARED| ensures Match(Url, SHARED[i..]).None? {
      UrlStarts(SHARED[i..]);
      if i + 1 < |SHARED| { assert SHARED[i..][1] == SHARED[i + 1]; }
    }
    NothingToMask(Url, SHARED);
  }
}
