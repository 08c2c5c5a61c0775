/** The key passes in a row: which matches they mask, and when masking twice masks no more. */
module KeyChain {
  import opened Masking
  import opened Quotes

  // ------------------------------------------------------------------ the matches they mask

  predicate GoodNames(names: seq<string>) {
    && (forall i :: 0 <= i < |names| ==> GoodName(names[i]) && names[i] != "*")
    && forall i, j :: 0 <= i < j < |names| ==> names[i] != names[j]
  }

  /** The place of a name in the order of the passes. */
  function Rank(names: seq<string>, name: string): nat {
    if names == [] || names[0] == name then 0 else 1 + Rank(names[1..], name)
  }

  /** The quote before parts[k + 1] begins a match of some key: its name, a colon and a value. */
  predicate KeyAt(names: seq<string>, parts: seq<string>, k: int) {
    0 <= k && k + 4 < |parts| && parts[k + 1] in names && Colon(parts[k + 2]) && OneLine(parts[k + 3])
  }

  /** The passes mask the match, unless its name is a value masked before, or its first quote closes the
      value of another match of its own key. */
  predicate MaskedAt(names: seq<string>, parts: seq<string>, k: int)
    decreases k
  {
    && KeyAt(names, parts, k)
    && !(MaskedAt(names, parts, k - 2) && Rank(names, parts[k - 1]) <= Rank(names, parts[k + 1]))
    && !(MaskedAt(names, parts, k - 3) && parts[k - 2] == parts[k + 1])
  }

  function PartAfter(names: seq<string>, parts: seq<string>, i: nat): string
    requires i < |parts|
  {
    if MaskedAt(names, parts, i - 2) then ":" else if MaskedAt(names, parts, i - 3) then "*" else parts[i]
  }

  function Masked(names: seq<string>, parts: seq<string>): (masked: seq<string>)
    ensures |masked| == |parts| && forall i :: 0 <= i < |parts| ==> masked[i] == PartAfter(names, parts, i)
  {
    seq(|parts|, i requires 0 <= i < |parts| => PartAfter(names, parts, i))
  }

  /** No match begins at the closing quote of another's name. */
  lemma Apart(names: seq<string>, parts: seq<string>, k: int)
    requires GoodNames(names)
    ensures !(KeyAt(names, parts, k) && KeyAt(names, parts, k + 1))
  {
  }

  // ------------------------------------------------------------------ one pass

  /** A pass over the parts from d on is the pass over all of them, when no match reaches over d. */
  lemma {:induction false} Shift(b: string, q: seq<string>, d: nat, k: nat)
    requires d <= |q| && !MaskedAt([b], q, d - 1) && !MaskedAt([b], q, d - 2) && !MaskedAt([b], q, d - 3)
    ensures MaskedAt([b], q, d + k) == MaskedAt([b], q[d..], k)
    decreases k
  {
    if k < 2 {
    } else {
      Shift(b, q, d, k - 2);
      if k >= 3 { Shift(b, q, d, k - 3); }
    }
  }

  lemma ShiftPart(b: string, q: seq<string>, d: nat, i: nat)
    requires d + i < |q| && !MaskedAt([b], q, d - 1) && !MaskedAt([b], q, d - 2) && !MaskedAt([b], q, d - 3)
    ensures PartAfter([b], q, d + i) == PartAfter([b], q[d..], i)
  {
    if i >= 2 { Shift(b, q, d, i - 2); }
    if i >= 3 { Shift(b, q, d, i - 3); }
    assert d + (i - 2) == d + i - 2 && d + (i - 3) == d + i - 3;
  }

  /** No other match of its key begins inside the first one. */
  lemma FirstHit(b: string, q: seq<string>)
    requires GoodNames([b])
    ensures MaskedAt([b], q, 0) <==> KeyHere(b, q)
    ensures MaskedAt([b], q, 0) ==> !MaskedAt([b], q, 1) && !MaskedAt([b], q, 2) && !MaskedAt([b], q, 3)
  {
    Apart([b], q, 0);
  }

  lemma {:induction false} SweepAt(b: string, q: seq<string>, i: nat)
    requires GoodNames([b]) && i < |q|
    ensures Sweep(b, q)[i] == PartAfter([b], q, i)
    decreases |q|
  {
    if |q| <= 1 {
    } else {
      FirstHit(b, q);
      var d := if KeyHere(b, q) then 4 else 1;
      if d <= i {
        assert !MaskedAt([b], q, -1) && !MaskedAt([b], q, -2);
        hide MaskedAt, PartAfter, GoodNames;
        ShiftPart(b, q, d, i - d);
        SweepAt(b, q[d..], i - d);
        hide KeyHere;
        assert Sweep(b, q)[i] == Sweep(b, q[d..])[i - d];
      }
    }
  }

  lemma {:induction false} FirstPass(names: seq<string>, parts: seq<string>, k: int)
    requires GoodNames(names) && names != []
    ensures MaskedAt([names[0]], parts, k) <==> MaskedAt(names, parts, k) && parts[k + 1] == names[0]
    decreases k
  {
    if !KeyAt(names, parts, k) {
    } else {
      FirstPass(names, parts, k - 2);
      FirstPass(names, parts, k - 3);
    }
  }

  /** What can match after a pass. */
  lemma KeyAtAfter(names: seq<string>, others: seq<string>, parts: seq<string>, k: int)
    requires GoodNames(names) && GoodNames(others)
    ensures KeyAt(others, Masked(names, parts), k) <==> KeyAt(others, parts, k) && !MaskedAt(names, parts, k - 2)
    ensures KeyAt(others, Masked(names, parts), k) ==> Masked(names, parts)[k + 1] == parts[k + 1]
  {
    if 0 <= k && k + 4 < |parts| {
      assert MaskedAt(names, parts, k - 1) ==> parts[k + 1] !in others;
    }
  }

  /** The first pass leaves to the others what they mask. */
  lemma {:induction false} OtherPasses(names: seq<string>, parts: seq<string>, k: int)
    requires GoodNames(names) && names != []
    ensures MaskedAt(names[1..], Masked([names[0]], parts), k) <==>
            MaskedAt(names, parts, k) && parts[k + 1] != names[0]
    decreases k
  {
    var b, rest := names[0], names[1..];
    assert [b] == names[..1];
    KeyAtAfter([b], rest, parts, k);
    FirstPass(names, parts, k - 2);
    if !KeyAt(names, parts, k) {
    } else {
      OtherPasses(names, parts, k - 2);
      OtherPasses(names, parts, k - 3);
      KeyAtAfter([b], rest, parts, k - 2);
      KeyAtAfter([b], rest, parts, k - 3);
      hide Masked, KeyAt, GoodNames;
    }
  }

  lemma PeelAt(names: seq<string>, parts: seq<string>, i: nat)
    requires GoodNames(names) && names != [] && i < |parts|
    ensures PartAfter(names, parts, i) == PartAfter(names[1..], Masked([names[0]], parts), i)
  {
    hide KeyAt;
    FirstPass(names, parts, i - 2);
    FirstPass(names, parts, i - 3);
    OtherPasses(names, parts, i - 2);
    OtherPasses(names, parts, i - 3);
    Apart(names, parts, i - 3);
  }

  function Keys(names: seq<string>): (keys: seq<Pattern>)
    ensures |keys| == |names| && forall i :: 0 <= i < |names| ==> keys[i] == Key(names[i])
  {
    seq(|names|, i requires 0 <= i < |names| => Key(names[i]))
  }

  lemma StaysQuoteFree(names: seq<string>, parts: seq<string>)
    requires AllQuoteFree(parts)
    ensures AllQuoteFree(Masked(names, parts))
  {
    hide MaskedAt;
  }

  lemma SweepIsMasked(b: string, q: seq<string>)
    requires GoodNames([b])
    ensures Sweep(b, q) == Masked([b], q)
  {
    hide MaskedAt;
    forall i | 0 <= i < |q| ensures Sweep(b, q)[i] == Masked([b], q)[i] { SweepAt(b, q, i); }
  }

  /** The passes one after the other mask exactly the matches that MaskedAt names. */
  lemma {:induction false} PassesMask(names: seq<string>, parts: seq<string>)
    requires GoodNames(names) && parts != [] && AllQuoteFree(parts)
    ensures Passes(Keys(names), Join(parts)) == Join(Masked(names, parts))
  {
    if names == [] {
      assert Masked(names, parts) == parts;
    } else {
      var b, rest := names[0], names[1..];
      var once := Masked([b], parts);
      hide MaskedAt, Masked;
      assert [b] == names[..1];
      assert Keys(names)[1..] == Keys(rest);
      ReplaceIsSweep(b, parts);
      SweepIsMasked(b, parts);
      StaysQuoteFree([b], parts);
      PassesMask(rest, once);
      forall i | 0 <= i < |parts| ensures Masked(names, parts)[i] == Masked(rest, once)[i] { PeelAt(names, parts, i); }
      assert Masked(names, parts) == Masked(rest, once);
    }
  }

  // ------------------------------------------------------------------ masking the masked

  predicate IsMask(parts: seq<string>, k: nat)
    requires k + 4 < |parts|
  {
    parts[k + 2] == ":" && parts[k + 3] == "*"
  }

  lemma MaskedHit(names: seq<string>, parts: seq<string>, k: nat)
    requires GoodNames(names) && k + 4 < |parts| && MaskedAt(names, parts, k)
    ensures IsMask(Masked(names, parts), k)
  {
    Apart(names, parts, k);
  }

  lemma HitOf(names: seq<string>, parts: seq<string>, i: nat)
    requires i < |parts| && PartAfter(names, parts, i) != parts[i]
    ensures exists k: nat :: k + 4 < |parts| && MaskedAt(names, parts, k) && !IsMask(parts, k)
  {
    var k := if MaskedAt(names, parts, i - 2) then i - 2 else i - 3;
    assert KeyAt(names, parts, k) && !IsMask(parts, k);
  }

  /** The passes leave the parts alone exactly when the matches they would mask are masks. */
  lemma MaskedAlready(names: seq<string>, parts: seq<string>)
    requires GoodNames(names)
    ensures Masked(names, parts) == parts <==>
            forall k: nat :: k + 4 < |parts| && MaskedAt(names, parts, k) ==> IsMask(parts, k)
  {
    if Masked(names, parts) == parts {
      forall k: nat | k + 4 < |parts| && MaskedAt(names, parts, k) ensures IsMask(parts, k) {
        MaskedHit(names, parts, k);
      }
    } else {
      var i :| 0 <= i < |parts| && PartAfter(names, parts, i) != parts[i];
      HitOf(names, parts, i);
    }
  }

  /** The match begins with the closing quote of another of the same key. */
  predicate InRow(names: seq<string>, parts: seq<string>, k: int) {
    KeyAt(names, parts, k) && KeyAt(names, parts, k - 3) && parts[k - 2] == parts[k + 1]
  }

  /** The match stands in a row of matches of its key that share quotes, and the first of the row is
      masked, and afterwards a pass of a later key masks its name. */
  predicate Broken(names: seq<string>, parts: seq<string>, k: int)
    decreases k
  {
    && KeyAt(names, parts, k)
    && if InRow(names, parts, k) then Broken(names, parts, k - 3)
       else MaskedAt(names, parts, k) && MaskedAt(names, parts, k - 2)
  }

  /** Every match that the passes overlook in such a row is a mask. */
  predicate KeyGuard(names: seq<string>, parts: seq<string>) {
    forall k: nat :: k + 4 < |parts| && Broken(names, parts, k) && !MaskedAt(names, parts, k) ==> IsMask(parts, k)
  }

  /** KeyGuard up to a match. */
  predicate GuardBelow(names: seq<string>, parts: seq<string>, n: int) {
    forall k: nat :: k < n && k + 4 < |parts| && Broken(names, parts, k) && !MaskedAt(names, parts, k) ==>
        IsMask(parts, k)
  }

  /** In a broken row the second call masks what the first overlooked, elsewhere the same matches. */
  lemma {:induction false} HitAfter(names: seq<string>, parts: seq<string>, k: int)
    requires GoodNames(names) && KeyAt(names, parts, k) && GuardBelow(names, parts, k)
    ensures MaskedAt(names, Masked(names, parts), k) <==> MaskedAt(names, parts, k) != Broken(names, parts, k)
    decreases k
  {
    var after := Masked(names, parts);
    KeyAtAfter(names, names, parts, k);
    KeyAtAfter(names, names, parts, k - 2);
    KeyAtAfter(names, names, parts, k - 3);
    Apart(names, parts, k - 3);
    GuardFacts(names, parts, k);
    hide GuardBelow;
    if InRow(names, parts, k) {
      HitAfter(names, parts, k - 3);
    } else if KeyAt(names, parts, k - 2) {
      HitAfter(names, parts, k - 2);
    }
  }

  lemma GuardFacts(names: seq<string>, parts: seq<string>, k: int)
    requires GoodNames(names) && KeyAt(names, parts, k) && GuardBelow(names, parts, k)
    ensures GuardBelow(names, parts, k - 3) && GuardBelow(names, parts, k - 2)
    ensures Broken(names, parts, k - 2) ==> MaskedAt(names, parts, k - 2)
  {
    hide MaskedAt;
  }

  /** What the second call would mask besides the masks. */
  lemma Overlooked(names: seq<string>, parts: seq<string>, k: nat)
    requires GoodNames(names) && k + 4 < |parts| && GuardBelow(names, parts, k)
    ensures MaskedAt(names, Masked(names, parts), k) && !IsMask(Masked(names, parts), k) <==>
            Broken(names, parts, k) && !MaskedAt(names, parts, k) && !IsMask(parts, k)
  {
    hide GuardBelow;
    var after := Masked(names, parts);
    KeyAtAfter(names, names, parts, k);
    Apart(names, parts, k);
    Apart(names, parts, k - 1);
    if KeyAt(names, parts, k) { HitAfter(names, parts, k); }
  }

  /** The passes of the keys mask the same a second time exactly when KeyGuard holds. */
  lemma SecondPasses(names: seq<string>, parts: seq<string>)
    requires GoodNames(names)
    ensures Masked(names, Masked(names, parts)) == Masked(names, parts) <==> KeyGuard(names, parts)
  {
    hide Masked, MaskedAt, Broken, IsMask;
    var after := Masked(names, parts);
    MaskedAlready(names, after);
    if KeyGuard(names, parts) {
      forall k: nat | k + 4 < |parts| && MaskedAt(names, after, k) ensures IsMask(after, k) {
        Overlooked(names, parts, k);
      }
    } else {
      var n := FirstOverlooked(names, parts);
      Overlooked(names, parts, n);
    }
  }

  lemma FirstOverlooked(names: seq<string>, parts: seq<string>) returns (n: nat)
    requires !KeyGuard(names, parts)
    ensures n + 4 < |parts| && Broken(names, parts, n) && !MaskedAt(names, parts, n) && !IsMask(parts, n)
    ensures GuardBelow(names, parts, n)
  {
    hide Broken, MaskedAt, IsMask;
    n := 0;
    while !(n + 4 < |parts| && Broken(names, parts, n) && !MaskedAt(names, parts, n) && !IsMask(parts, n))
      invariant GuardBelow(names, parts, n) && n <= |parts|
      decreases |parts| - n
    {
      n := n + 1;
    }
  }

  /** Where no value is the name of a match that follows it, a second call finds nothing new. */
  lemma NamesAreNoValues(names: seq<string>, parts: seq<string>)
    requires forall k: nat :: !(KeyAt(names, parts, k) && KeyAt(names, parts, k + 2))
    ensures KeyGuard(names, parts)
  {
    forall k: nat | k + 4 < |parts| ensures !Broken(names, parts, k) { NotBroken(names, parts, k); }
  }

  lemma {:induction false} NotBroken(names: seq<string>, parts: seq<string>, k: int)
    requires forall j: nat :: !(KeyAt(names, parts, j) && KeyAt(names, parts, j + 2))
    ensures !Broken(names, parts, k)
    decreases k
  {
    if InRow(names, parts, k) {
      NotBroken(names, parts, k - 3);
    } else if k >= 2 {
      assert (k - 2) + 2 == k;
    }
  }
}
