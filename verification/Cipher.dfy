/** RSA-OAEP over messages longer than one block: buffer sizes, the block loop and its round trip. */
module Cipher {
  import opened Types

  newtype Byte = x: int | 0 <= x < 256

  // ------------------------------------------------------------------ sizes

  const INT_MAX: int := 0x7FFF_FFFF
  /** 2 * hLen + 2 for SHA-256, section 7.1 of RFC 8017. */
  const PADDING_DATA_SIZE: int := 66

  /** Two's complement int arithmetic. */
  function Wrap(x: int): (r: int)
    ensures -0x8000_0000 <= r <= 0x7FFF_FFFF && (r - x) % 0x1_0000_0000 == 0
    ensures -0x8000_0000 <= x <= 0x7FFF_FFFF ==> r == x
  {
    (x + INT_MAX + 1) % (2 * (INT_MAX + 1)) - (INT_MAX + 1)
  }

  /** Integer division of the language: toward zero. */
  function Quotient(a: int, b: int): int
    requires b > 0
  {
    if a >= 0 then a / b else -((-a) / b)
  }

  function BlockSize(decrypt: bool, k: int): int {
    if decrypt then k else k - PADDING_DATA_SIZE
  }

  datatype SizeInfo = Fault | Sizes(inBlock: int, outBuffer: int)

  /** ((inputSize + b - 1) / b) * k as the machine computes it. */
  function OutSize(inputSize: int, b: int, k: int): int
    requires b > 0
  {
    Wrap(Quotient(Wrap(Wrap(inputSize + b) - 1), b) * k)
  }

  /** GetCipherSizeInfo for a key of k bytes. */
  function SizeInfoOf(decrypt: bool, inputSize: int, k: int): SizeInfo {
    var b := BlockSize(decrypt, k);
    if b <= 0 || OutSize(inputSize, b, k) < 0 then Fault else Sizes(b, OutSize(inputSize, b, k))
  }

  /** The number of blocks in a message of n bytes. */
  function Blocks(n: nat, b: nat): (count: nat)
    requires b > 0
    ensures n > 0 ==> count > 0
  {
    if n == 0 then 0 else if n <= b then 1 else 1 + Blocks(n - b, b)
  }

  /** The bytes that the blocks of k bytes take for a message of n bytes. */
  function Needed(n: nat, b: nat, k: int): int
    requires b > 0
  {
    Blocks(n, b) * k
  }

  lemma {:induction false} BlocksIsCeiling(n: nat, b: nat)
    requires b > 0
    ensures Blocks(n, b) == (n + b - 1) / b
    ensures n <= Blocks(n, b) * b <= n + b - 1
  {
    if n == 0 {
      SmallQuotient(b - 1, b);
    } else if n <= b {
      OneMoreBlock(n - 1, b);
      SmallQuotient(n - 1, b);
    } else {
      BlocksIsCeiling(n - b, b);
      OneMoreBlock(n - 1, b);
    }
  }

  lemma OneMoreBlock(n: nat, b: nat)
    requires b > 0
    ensures (n + b) / b == n / b + 1
  {
    var q, r := n / b, n % b;
    assert n + b == (q + 1) * b + r;
    Divides(n + b, b, q + 1, r);
  }

  lemma Divides(x: int, b: int, q: int, r: int)
    requires b > 0 && 0 <= r < b && x == q * b + r
    ensures x / b == q
  {
    var d := x / b - q;
    assert x == (x / b) * b + x % b;
    assert d * b == r - x % b;
    Multiples(d, b);
  }

  lemma Multiples(d: int, b: int)
    requires b > 0
    ensures d >= 1 ==> d * b >= b
    ensures d <= -1 ==> d * b <= -b
  {
  }

  lemma SmallQuotient(n: nat, b: nat)
    requires n < b
    ensures n / b == 0
  {
  }

  lemma QuotientBound(a: nat, b: nat)
    requires b > 0
    ensures 0 <= (a / b) * b <= a
  {
    assert a == (a / b) * b + a % b;
  }

  lemma FewerBlocks(q: nat, count: nat, b: int, k: int)
    requires 0 < b && q * b < (count + 1) * b && 0 < k
    ensures q <= count && q * k <= count * k
  {
    Larger(q, count, b);
  }

  lemma Larger(q: nat, count: nat, b: int)
    requires b > 0
    ensures q > count ==> q * b >= (count + 1) * b
  {
  }

  /** When the sum wraps, the computed size is not positive. */
  lemma WrappedSize(lost: int, count: nat, b: int, k: int)
    requires 0 < b <= k && 0 <= lost <= INT_MAX + 1 < (count + 1) * b && count * k <= INT_MAX
    ensures Wrap(Quotient(-lost, b) * k) <= 0
  {
    var q: int := lost / b;
    QuotientBound(lost, b);
    FewerBlocks(q, count, b, k);
    assert Quotient(-lost, b) == -q;
    assert (-q) * k == -(q * k);
    assert q * k >= 0;
  }

  /** The intermediate sum as the machine computes it. */
  lemma SumWraps(n: nat, b: int)
    requires n <= INT_MAX && 0 < b <= INT_MAX
    ensures n + b - 1 <= INT_MAX ==> Wrap(Wrap(n + b) - 1) == n + b - 1
    ensures n + b - 1 > INT_MAX ==> Wrap(Wrap(n + b) - 1) == n + b - 1 - 2 * (INT_MAX + 1)
  {
  }

  lemma OutSizeExact(n: nat, b: int, k: int)
    requires n <= INT_MAX && 0 < b <= k <= INT_MAX
    ensures OutSize(n, b, k) == Needed(n, b, k) <==> n + b - 1 <= INT_MAX && Needed(n, b, k) <= INT_MAX
    ensures OutSize(n, b, k) == Needed(n, b, k) ==> OutSize(n, b, k) >= 0
  {
    hide Blocks, Quotient, Wrap;
    var count := Blocks(n, b);
    var needed := count * k;
    BlocksIsCeiling(n, b);
    SumWraps(n, b);
    Product(count, k);
    if n + b - 1 <= INT_MAX {
      assert Quotient(n + b - 1, b) == count by { PositiveQuotient(n + b - 1, b); }
    } else if needed <= INT_MAX {
      assert (count + 1) * b == count * b + b;
      WrappedSize(2 * (INT_MAX + 1) - (n + b - 1), count, b, k);
    }
  }

  /** For a message of any length, cast to int as the code does: the buffer size is right exactly when
      neither the sum nor the product leaves the int range. */
  lemma SizeExact(decrypt: bool, n: nat, k: int)
    requires 0 < k <= 0x7FFF_FFFF && (decrypt || k > 66)
    ensures var b := if decrypt then k else k - 66;
            SizeInfoOf(decrypt, Wrap(n), k) == Sizes(b, Needed(n, b, k))
            <==> n + b - 1 <= 0x7FFF_FFFF && Needed(n, b, k) <= 0x7FFF_FFFF
  {
    var b := BlockSize(decrypt, k);
    if n <= INT_MAX {
      hide Blocks, OutSize;
      OutSizeExact(n, b, k);
    } else {
      BlocksIsCeiling(n, b);
      hide Blocks, OutSize;
      Wider(Blocks(n, b), b, k);
      SizeInRange(decrypt, Wrap(n), k);
    }
  }

  lemma Wider(count: nat, b: int, k: int)
    requires b <= k
    ensures count * b <= count * k
  {
  }

  lemma SizeInRange(decrypt: bool, inputSize: int, k: int)
    ensures SizeInfoOf(decrypt, inputSize, k).Sizes? ==> SizeInfoOf(decrypt, inputSize, k).outBuffer <= INT_MAX
  {
  }

  lemma PositiveQuotient(a: nat, b: nat)
    requires b > 0
    ensures Quotient(a, b) == a / b
  {
  }

  lemma Product(count: nat, k: int)
    requires k > 0
    ensures count * k >= 0 && (count > 0 ==> count * k > 0)
  {
  }

  /** For a decryption the sum is all that matters: n <= INT_MAX - k + 1. */
  lemma DecryptSizeExact(n: nat, k: int)
    requires 0 < k <= 0x7FFF_FFFF
    ensures SizeInfoOf(true, Wrap(n), k) == Sizes(k, Needed(n, k, k)) <==> n <= 0x7FFF_FFFF - k + 1
  {
    hide SizeInfoOf, Blocks;
    SizeExact(true, n, k);
    BlocksIsCeiling(n, k);
  }

  // ------------------------------------------------------------------ blocks

  /** The pieces a message is cut into: whole blocks from the front, and what is left. */
  function Pieces(msg: seq<Byte>, b: nat): (pieces: seq<seq<Byte>>)
    requires b > 0
    ensures |pieces| == Blocks(|msg|, b)
  {
    if msg == [] then []
    else if |msg| <= b then [msg]
    else [msg[..b]] + Pieces(msg[b..], b)
  }

  function Concat(pieces: seq<seq<Byte>>): seq<Byte> {
    if pieces == [] then [] else pieces[0] + Concat(pieces[1..])
  }

  /** The pieces partition the message; all but the last are whole blocks, and none is empty. */
  lemma {:induction false} PiecesPartition(msg: seq<Byte>, b: nat)
    requires b > 0
    ensures Concat(Pieces(msg, b)) == msg
    ensures forall i :: 0 <= i < |Pieces(msg, b)| ==> 0 < |Pieces(msg, b)[i]| <= b
    ensures forall i :: 0 <= i < |Pieces(msg, b)| - 1 ==> |Pieces(msg, b)[i]| == b
  {
    if |msg| > b {
      PiecesPartition(msg[b..], b);
      assert Pieces(msg, b)[1..] == Pieces(msg[b..], b);
      assert msg == msg[..b] + msg[b..];
    } else if msg != [] {
      assert [msg][1..] == [];
      assert msg + [] == msg;
    }
  }

  /** One call of the primitive: the block's number stands for the randomness it draws. */
  type Primitive = (nat, seq<Byte>) -> Option<seq<Byte>>

  /** The primitive's output fits in the k bytes it is offered. */
  ghost predicate Fits(f: Primitive, k: nat) {
    forall i, x :: f(i, x).Some? ==> |f(i, x).value| <= k
  }

  /** What the loop writes for the pieces from number i on, None when a call fails or writes nothing. */
  function Output(pieces: seq<seq<Byte>>, i: nat, f: Primitive): Option<seq<Byte>> {
    if pieces == [] then Some([])
    else
      match f(i, pieces[0])
      case None => None
      case Some(out) =>
        if out == [] then None
        else
          match Output(pieces[1..], i + 1, f)
          case None => None
          case Some(rest) => Some(out + rest)
  }

  /** How a call ends: an overrun is a write past the end of the buffer. */
  datatype Outcome = Done | Refused | Overrun

  /** How the loop ends for the pieces from number i on, with that much room left in the buffer. */
  function Fate(pieces: seq<seq<Byte>>, i: nat, f: Primitive, room: nat): Outcome {
    if pieces == [] then Done
    else
      match f(i, pieces[0])
      case None => Refused
      case Some(out) =>
        if out == [] then Refused
        else if |out| > room then Overrun
        else Fate(pieces[1..], i + 1, f, room - |out|)
  }

  /** The loop ends well exactly when all blocks work and their outputs fit. */
  lemma {:induction false} DoneExactly(pieces: seq<seq<Byte>>, i: nat, f: Primitive, room: nat)
    ensures Fate(pieces, i, f, room).Done? <==> Output(pieces, i, f).Some? && |Output(pieces, i, f).value| <= room
  {
    if pieces == [] {
    } else if f(i, pieces[0]).Some? && |f(i, pieces[0]).value| <= room {
      DoneExactly(pieces[1..], i + 1, f, room - |f(i, pieces[0]).value|);
    }
  }

  /** With room for k bytes a piece no write is past the end. */
  lemma {:induction false} NeverOverrun(pieces: seq<seq<Byte>>, i: nat, f: Primitive, k: nat, room: nat)
    requires Fits(f, k) && room >= |pieces| * k
    ensures Fate(pieces, i, f, room) == if Output(pieces, i, f).Some? then Done else Refused
  {
    if pieces == [] {
    } else if f(i, pieces[0]).Some? {
      FitsAt(f, k, i, pieces[0]);
      LessRoom(|pieces|, k, room, |f(i, pieces[0]).value|);
      if f(i, pieces[0]).value != [] {
        NeverOverrun(pieces[1..], i + 1, f, k, room - |f(i, pieces[0]).value|);
      }
    }
  }

  lemma {:induction false} OutputBound(pieces: seq<seq<Byte>>, i: nat, f: Primitive, k: nat)
    requires Fits(f, k)
    ensures Output(pieces, i, f).Some? ==> |Output(pieces, i, f).value| <= |pieces| * k
  {
    if pieces == [] {
    } else if f(i, pieces[0]).Some? {
      FitsAt(f, k, i, pieces[0]);
      OutputBound(pieces[1..], i + 1, f, k);
      assert (|pieces| - 1) * k + k == |pieces| * k;
    }
  }

  /** ... and before every piece, after what the pieces before it have written, there is room for the k bytes
      that the primitive is offered. */
  lemma OfferFits(pieces: seq<seq<Byte>>, i: nat, f: Primitive, k: nat, room: nat, j: nat)
    requires Fits(f, k) && room >= |pieces| * k && j < |pieces| && Output(pieces[..j], i, f).Some?
    ensures |Output(pieces[..j], i, f).value| + k <= room
  {
    hide Fits, Output;
    OutputBound(pieces[..j], i, f, k);
    MoreRoom(j, |pieces|, k);
  }

  lemma MoreRoom(j: nat, count: nat, k: nat)
    requires j < count
    ensures j * k + k <= count * k
  {
    Wider(k, j + 1, count);
    assert k * (j + 1) == (j + 1) * k == j * k + k;
  }

  lemma LessRoom(count: nat, k: nat, room: nat, used: nat)
    requires count > 0 && room >= count * k && used <= k
    ensures used <= room && room - used >= (count - 1) * k
  {
    assert (count - 1) * k == count * k - k;
    assert (count - 1) * k >= 0;
  }

  lemma FitsAt(f: Primitive, k: nat, i: nat, x: seq<Byte>)
    requires Fits(f, k)
    ensures f(i, x).Some? ==> |f(i, x).value| <= k
  {
  }

  ghost function Prepend(front: seq<Byte>, rest: Option<seq<Byte>>): Option<seq<Byte>> {
    match rest
    case None => None
    case Some(tail) => Some(front + tail)
  }

  lemma FirstPiece(msg: seq<Byte>, b: nat, step: nat)
    requires b > 0 && msg != [] && step == (if |msg| < b then |msg| else b)
    ensures Pieces(msg, b) == [msg[..step]] + Pieces(msg[step..], b)
    ensures Blocks(|msg|, b) == 1 + Blocks(|msg| - step, b)
  {
    if |msg| <= b { assert msg[..step] == msg && msg[step..] == []; }
  }

  /** The loop is at the offset, after that many rounds, with `front` written and that much room left. */
  ghost predicate Underway(input: seq<Byte>, b: nat, f: Primitive, offset: nat, i: nat, front: seq<Byte>, room: nat)
    requires b > 0 && offset <= |input|
  {
    && i + Blocks(|input| - offset, b) == Blocks(|input|, b)
    && Output(Pieces(input, b), 0, f) == Prepend(front, Output(Pieces(input[offset..], b), i, f))
    && Fate(Pieces(input, b), 0, f, |front| + room) == Fate(Pieces(input[offset..], b), i, f, room)
  }

  lemma LoopBegins(input: seq<Byte>, b: nat, f: Primitive, room: nat)
    requires b > 0
    ensures Underway(input, b, f, 0, 0, [], room)
  {
    assert input[0..] == input;
    var rest := Output(Pieces(input, b), 0, f);
    assert rest.Some? ==> [] + rest.value == rest.value;
  }

  /** One round of the loop. */
  lemma NextBlock(input: seq<Byte>, b: nat, f: Primitive, offset: nat, i: nat, front: seq<Byte>, room: nat, step: nat)
    requires b > 0 && offset < |input| && step == (if |input| - offset < b then |input| - offset else b)
    requires Underway(input, b, f, offset, i, front, room)
    ensures var result := f(i, input[offset..offset + step]);
            if result.None? || result.value == [] then Fate(Pieces(input, b), 0, f, |front| + room) == Refused
            else if |result.value| > room then Fate(Pieces(input, b), 0, f, |front| + room) == Overrun
            else Underway(input, b, f, offset + step, i + 1, front + result.value, room - |result.value|)
  {
    hide Pieces, Blocks;
    var rest := input[offset..];
    FirstPiece(rest, b, step);
    assert rest[..step] == input[offset..offset + step] && rest[step..] == input[offset + step..];
    var pieces := Pieces(rest, b);
    assert pieces[1..] == Pieces(rest[step..], b);
    var result := f(i, pieces[0]);
    if result.Some? && Output(pieces[1..], i + 1, f).Some? {
      assert front + (result.value + Output(pieces[1..], i + 1, f).value) ==
             front + result.value + Output(pieces[1..], i + 1, f).value;
    }
  }

  lemma LoopEnds(input: seq<Byte>, b: nat, f: Primitive, i: nat, front: seq<Byte>, room: nat)
    requires b > 0 && Underway(input, b, f, |input|, i, front, room)
    ensures i == Blocks(|input|, b)
    ensures Output(Pieces(input, b), 0, f) == Some(front) && Fate(Pieces(input, b), 0, f, |front| + room) == Done
  {
    assert front + [] == front;
  }

  /** CipherMsg for one block: the primitive fails, or yields nothing, or its output would pass the end of
      the buffer, or stands behind what was written before. */
  method CipherBlock(piece: seq<Byte>, i: nat, f: Primitive, output: array<Byte>, at: nat)
    returns (outcome: Outcome, outLen: nat)
    requires at <= output.Length
    modifies output
    ensures outcome == if f(i, piece).None? || f(i, piece).value == [] then Refused
                       else if at + |f(i, piece).value| > output.Length then Overrun else Done
    ensures outcome.Done? ==>
              outLen == |f(i, piece).value| && output[..at + outLen] == old(output[..at]) + f(i, piece).value
  {
    outLen := 0;
    var result := f(i, piece);
    if result.None? || result.value == [] { return Refused, outLen; }
    if at + |result.value| > output.Length { return Overrun, outLen; }
    outLen := |result.value|;
    for j := 0 to outLen
      invariant output[..at] == old(output[..at])
      invariant output[at..at + j] == result.value[..j]
    {
      output[at + j] := result.value[j];
    }
    outcome := Done;
  }

  /** The loop of CipherMsg over its buffer: exactly Blocks many rounds, and the bytes written are the
      pieces' outputs in order. */
  method CipherBlocks(input: seq<Byte>, b: nat, f: Primitive, output: array<Byte>)
    returns (outcome: Outcome, outputLen: nat, rounds: nat)
    requires b > 0
    modifies output
    ensures outcome == Fate(Pieces(input, b), 0, f, output.Length)
    ensures outcome.Done? ==> rounds == Blocks(|input|, b) && outputLen <= output.Length
    ensures outcome.Done? ==> Output(Pieces(input, b), 0, f) == Some(output[..outputLen])
  {
    var offset := 0;
    outputLen, rounds := 0, 0;
    hide Underway, Output, Pieces, Blocks, Fate;
    LoopBegins(input, b, f, output.Length);
    while offset < |input|
      invariant 0 <= offset <= |input| && outputLen <= output.Length
      invariant Underway(input, b, f, offset, rounds, output[..outputLen], output.Length - outputLen)
    {
      var leftSize := |input| - offset;
      var stepSize := if leftSize < b then leftSize else b;
      NextBlock(input, b, f, offset, rounds, output[..outputLen], output.Length - outputLen, stepSize);
      var outLen;
      outcome, outLen := CipherBlock(input[offset..offset + stepSize], rounds, f, output, outputLen);
      if outcome != Done { return; }
      offset := offset + stepSize;
      outputLen := outputLen + outLen;
      rounds := rounds + 1;
    }
    LoopEnds(input, b, f, rounds, output[..outputLen], output.Length - outputLen);
    outcome := Done;
  }

  // ------------------------------------------------------------------ whole messages

  /** Neither the size computation nor the casts leave the int range. */
  predicate InRange(decrypt: bool, n: nat, k: int) {
    var b := BlockSize(decrypt, k);
    b > 0 ==> n + b - 1 <= INT_MAX && Needed(n, b, k) <= INT_MAX
  }

  lemma BlockOf(decrypt: bool, inputSize: int, k: int)
    ensures SizeInfoOf(decrypt, inputSize, k).Sizes? ==>
              SizeInfoOf(decrypt, inputSize, k).inBlock == BlockSize(decrypt, k) > 0 &&
              SizeInfoOf(decrypt, inputSize, k).outBuffer >= 0
  {
  }

  /** How CipherMsg ends; memory and context are what malloc and OpenSSL answer. */
  function Ending(decrypt: bool, privateKey: bool, k: int, input: seq<Byte>, f: Primitive, memory: bool, context: bool)
    : Outcome
  {
    match SizeInfoOf(decrypt, Wrap(|input|), k)
    case Fault => Refused
    case Sizes(b, room) =>
      if (privateKey && !decrypt) || room == 0 || !memory || !context then Refused
      else Fate(Pieces(input, b), 0, f, room)
  }

  /** The key may do it, there is a message and all blocks work. */
  predicate Works(decrypt: bool, privateKey: bool, k: int, input: seq<Byte>, f: Primitive, memory: bool,
        context: bool)
  {
    && (decrypt || !privateKey)
    && BlockSize(decrypt, k) > 0 && input != [] && memory && context
    && Output(Pieces(input, BlockSize(decrypt, k)), 0, f).Some?
  }

  /** Within the int range CipherMsg writes nothing past its buffer and succeeds exactly when it Works. */
  lemma SafeInRange(decrypt: bool, privateKey: bool, k: int, input: seq<Byte>, f: Primitive, memory: bool,
        context: bool)
    requires 0 < k <= INT_MAX && Fits(f, k) && InRange(decrypt, |input|, k)
    ensures Ending(decrypt, privateKey, k, input, f, memory, context) ==
            if Works(decrypt, privateKey, k, input, f, memory, context) then Done else Refused
  {
    var b := BlockSize(decrypt, k);
    hide Fate, Output, Pieces, Fits;
    if b > 0 {
      SizeExact(decrypt, |input|, k);
      Product(Blocks(|input|, b), k);
      EmptyMessage(input, b);
      NeverOverrun(Pieces(input, b), 0, f, k, Needed(|input|, b, k));
    }
  }

  class Cipher {
    const isPrivateKey: bool
    const rsaSize: int

    constructor (isPrivateKey: bool, rsaSize: int)
      ensures this.isPrivateKey == isPrivateKey && this.rsaSize == rsaSize
    {
      this.isPrivateKey := isPrivateKey;
      this.rsaSize := rsaSize;
    }

    method GetCipherSizeInfo(decrypt: bool, inputSize: int) returns (ok: bool, inBlockSize: int, outBufferSize: int)
      ensures match SizeInfoOf(decrypt, inputSize, rsaSize)
              case Fault => !ok
              case Sizes(b, out) => ok && inBlockSize == b > 0 && outBufferSize == out >= 0
    {
      inBlockSize := rsaSize - PADDING_DATA_SIZE;
      outBufferSize := 0;
      if decrypt { inBlockSize := rsaSize; }
      if inBlockSize <= 0 { return false, inBlockSize, outBufferSize; }
      outBufferSize := OutSize(inputSize, inBlockSize, rsaSize);
      ok := outBufferSize >= 0;
    }

    /** A zeroed buffer; a length of 0 is refused. */
    method GetCleanBuff(length: nat, memory: bool) returns (ok: bool, buf: array<Byte>)
      ensures ok == (length > 0 && memory)
      ensures fresh(buf) && (ok ==> buf.Length == length && forall i :: 0 <= i < length ==> buf[i] == 0)
    {
      if length <= 0 || !memory { buf := new Byte[0]; return false, buf; }
      buf := new Byte[length](_ => 0);
      ok := true;
    }

    /** CipherMsg as intended, with the buffer handed back. */
    method CipherMsg(input: seq<Byte>, decrypt: bool, f: Primitive, memory: bool, context: bool)
      returns (outcome: Outcome, output: array<Byte>, outputLen: nat)
      ensures fresh(output)
      ensures outcome == Ending(decrypt, isPrivateKey, rsaSize, input, f, memory, context)
      ensures outcome.Done? ==> BlockSize(decrypt, rsaSize) > 0 && outputLen <= output.Length
      ensures outcome.Done? ==>
                Output(Pieces(input, BlockSize(decrypt, rsaSize)), 0, f) == Some(output[..outputLen])
    {
      outputLen := 0;
      output := new Byte[0];
      if !decrypt && isPrivateKey { return Refused, output, outputLen; }
      var ok, inBlockSize, outBufSize, rounds;
      ok, inBlockSize, outBufSize := GetCipherSizeInfo(decrypt, Wrap(|input|));
      BlockOf(decrypt, Wrap(|input|), rsaSize);
      hide SizeInfoOf, Pieces, Output, Wrap, Fate;
      if !ok { return Refused, output, outputLen; }
      ok, output := GetCleanBuff(outBufSize, memory);
      if !ok { return Refused, output, outputLen; }
      if !context { return Refused, output, outputLen; }
      outcome, outputLen, rounds := CipherBlocks(input, inBlockSize, f, output);
    }

    /** DecryptMsg: the plain text is what the loop wrote. */
    method DecryptMsg(cipher: seq<Byte>, dec: Primitive, memory: bool, context: bool)
      returns (outcome: Outcome, plain: seq<Byte>)
      ensures outcome == if cipher == [] then Refused
                         else Ending(true, isPrivateKey, rsaSize, cipher, dec, memory, context)
      ensures outcome.Done? ==> rsaSize > 0 && Output(Pieces(cipher, rsaSize), 0, dec) == Some(plain)
    {
      plain := [];
      if cipher == [] { return Refused, plain; }
      var outBuf, outBufLen;
      outcome, outBuf, outBufLen := CipherMsg(cipher, true, dec, memory, context);
      if outcome.Done? { plain := outBuf[..outBufLen]; }
    }
  }

  lemma EmptyMessage(input: seq<Byte>, b: nat)
    requires b > 0
    ensures Blocks(|input|, b) == 0 <==> input == []
  {
  }

  // ------------------------------------------------------------------ the round trip

  /** Section 7.1 of RFC 8017 for a modulus of k bytes and SHA-256: every message of at most k - 66 bytes
      encrypts to exactly k bytes, whatever the randomness, and these decrypt to the message. */
  ghost predicate Oaep(k: nat, enc: Primitive, dec: Primitive) {
    forall i, m :: |m| <= k - 66 ==> Sealed(k, enc(i, m), dec, m)
  }

  ghost predicate Sealed(k: nat, block: Option<seq<Byte>>, dec: Primitive, m: seq<Byte>) {
    block.Some? && |block.value| == k && forall j :: dec(j, block.value) == Some(m)
  }

  /** Encrypting any message in blocks of k - 66 gives Blocks * k bytes, and decrypting them in blocks
      of k gives the message back: the cut points line up. */
  lemma {:induction false} RoundTrip(msg: seq<Byte>, k: nat, i: nat, j: nat, enc: Primitive, dec: Primitive)
    requires k > 66 && Oaep(k, enc, dec)
    ensures var b := k - 66;
            var cipher := Output(Pieces(msg, b), i, enc);
            && cipher.Some? && |cipher.value| == Needed(|msg|, b, k)
            && Output(Pieces(cipher.value, k), j, dec) == Some(msg)
    decreases |msg|
  {
    var b := k - 66;
    if msg == [] {
    } else {
      hide Output, Pieces, Blocks;
      var step := if |msg| < b then |msg| else b;
      FirstPiece(msg, b, step);
      OneBlock(k, enc, dec, i, j, msg[..step]);
      var first := enc(i, msg[..step]).value;
      RoundTrip(msg[step..], k, i + 1, j + 1, enc, dec);
      var rest := Output(Pieces(msg[step..], b), i + 1, enc).value;
      Joins(msg[..step], msg[step..], b, i, enc, Pieces(msg, b));
      assert |first + rest| == Needed(|msg|, b, k) by {
        MoreNeeded(Blocks(|msg| - step, b), k);
      }
      Opens(first, rest, k, j, dec, msg[..step], msg[step..]);
      assert msg[..step] + msg[step..] == msg;
    }
  }

  lemma MoreNeeded(count: nat, k: nat)
    ensures (1 + count) * k == k + count * k
  {
  }

  /** Decrypting one whole block and what follows it. */
  lemma Opens(first: seq<Byte>, rest: seq<Byte>, k: nat, j: nat, dec: Primitive, m: seq<Byte>, n: seq<Byte>)
    requires k > 0 && |first| == k && m != [] && dec(j, first) == Some(m) &&
             Output(Pieces(rest, k), j + 1, dec) == Some(n)
    ensures Output(Pieces(first + rest, k), j, dec) == Some(m + n)
  {
    hide Pieces, Output;
    FirstPiece(first + rest, k, k);
    assert (first + rest)[..k] == first && (first + rest)[k..] == rest;
    Joins(first, rest, k, j, dec, Pieces(first + rest, k));
  }

  lemma OneBlock(k: nat, enc: Primitive, dec: Primitive, i: nat, j: nat, m: seq<Byte>)
    requires Oaep(k, enc, dec) && |m| <= k - 66
    ensures enc(i, m).Some? && |enc(i, m).value| == k && dec(j, enc(i, m).value) == Some(m)
  {
  }

  /** The output of a first piece and of the rest. */
  lemma Joins(first: seq<Byte>, rest: seq<Byte>, b: nat, i: nat, f: Primitive, pieces: seq<seq<Byte>>)
    requires b > 0 && pieces == [first] + Pieces(rest, b)
    requires f(i, first).Some? && f(i, first).value != [] && Output(Pieces(rest, b), i + 1, f).Some?
    ensures Output(pieces, i, f) == Some(f(i, first).value + Output(Pieces(rest, b), i + 1, f).value)
  {
    assert pieces[1..] == Pieces(rest, b);
  }

  /** Outside the int range the computed buffer is too small for the blocks, or refused. */
  lemma ShortOutside(n: nat, k: int)
    requires 66 < k <= INT_MAX && !InRange(false, n, k)
    ensures var b := k - 66;
            SizeInfoOf(false, Wrap(n), k).Sizes? ==>
              SizeInfoOf(false, Wrap(n), k).outBuffer == 0 || SizeInfoOf(false, Wrap(n), k).outBuffer < Needed(n, b, k)
  {
    hide Blocks, OutSize, Wrap;
    var b := k - 66;
    var count := Blocks(n, b);
    BlocksIsCeiling(n, b);
    Wider(count, b, k);
    SizeInRange(false, Wrap(n), k);
    assert n <= INT_MAX ==> Wrap(n) == n;
    if count * k <= INT_MAX { SumTooLong(n, b, k); }
  }

  lemma SumTooLong(n: nat, b: int, k: int)
    requires n <= INT_MAX && 0 < b <= k <= INT_MAX && n + b - 1 > INT_MAX && Needed(n, b, k) <= INT_MAX
    ensures OutSize(n, b, k) <= 0
  {
    hide Blocks, Quotient, Wrap;
    var count := Blocks(n, b);
    BlocksIsCeiling(n, b);
    SumWraps(n, b);
    assert (count + 1) * b == count * b + b;
    WrappedSize(2 * (INT_MAX + 1) - (n + b - 1), count, b, k);
  }

  /** With such a primitive CipherMsg encrypts exactly the non-empty messages whose sizes stay in the int
      range, with a public key only. */
  lemma EncryptsExactly(privateKey: bool, msg: seq<Byte>, k: int, enc: Primitive, dec: Primitive, memory: bool,
        context: bool)
    requires 66 < k <= 0x7FFF_FFFF && Oaep(k, enc, dec)
    ensures Ending(false, privateKey, k, msg, enc, memory, context).Done? <==>
            && !privateKey && msg != [] && memory && context
            && |msg| + (k - 66) - 1 <= 0x7FFF_FFFF && Needed(|msg|, k - 66, k) <= 0x7FFF_FFFF
  {
    hide Blocks, Wrap, Oaep, Pieces, Output, Fate, SizeInfoOf;
    var b := k - 66;
    var size := SizeInfoOf(false, Wrap(|msg|), k);
    RoundTrip(msg, k, 0, 0, enc, dec);
    BlockOf(false, Wrap(|msg|), k);
    EmptyMessage(msg, b);
    Product(Blocks(|msg|, b), k);
    if size.Sizes? { DoneExactly(Pieces(msg, b), 0, enc, size.outBuffer); }
    if InRange(false, |msg|, k) { SizeExact(false, |msg|, k); } else { ShortOutside(|msg|, k); }
  }

  lemma DecryptInRange(n: nat, k: int)
    requires 0 < k <= INT_MAX && n <= INT_MAX - k + 1
    ensures InRange(true, n, k)
  {
    hide Blocks, SizeInfoOf;
    DecryptSizeExact(n, k);
    SizeExact(true, n, k);
  }

  lemma EncryptInRange(n: nat, k: int)
    requires 66 < k <= INT_MAX && Needed(n, k - 66, k) <= INT_MAX - k + 1
    ensures InRange(false, n, k)
  {
    hide Blocks;
    var b := k - 66;
    BlocksIsCeiling(n, b);
    Wider(Blocks(n, b), b, k);
  }

  lemma SomeNeeded(msg: seq<Byte>, b: nat, k: int)
    requires b > 0 && k > 0 && msg != []
    ensures Needed(|msg|, b, k) > 0
  {
    EmptyMessage(msg, b);
    Product(Blocks(|msg|, b), k);
  }

  /** Whole blocks need what they are. */
  lemma WholeBlocks(count: nat, k: nat)
    requires k > 0
    ensures Needed(count * k, k, k) == count * k
  {
    BlocksIsCeiling(count * k, k);
    var more := Blocks(count * k, k) - count;
    assert more * k == Blocks(count * k, k) * k - count * k;
    Multiples(more, k);
  }

  /** A cipher text that is too long for the sum is refused. */
  lemma TooLongRefused(cipher: seq<Byte>, count: nat, k: int, dec: Primitive)
    requires 0 < k <= INT_MAX && |cipher| == count * k && INT_MAX - k + 1 < |cipher| <= INT_MAX
    ensures Ending(true, true, k, cipher, dec, true, true) == Refused
  {
    hide Needed, OutSize, Fate, Pieces;
    WholeBlocks(count, k);
    SumTooLong(|cipher|, k, k);
  }

  lemma CipherLength(n: nat, b: nat, k: int)
    requires b > 0
    ensures Needed(n, b, k) == Blocks(n, b) * k
  {
  }

  /** A message survives CipherMsg and DecryptMsg exactly when it is not empty and its cipher text has at
      most INT_MAX - k + 1 bytes. */
  lemma MessageSurvives(msg: seq<Byte>, k: int, enc: Primitive, dec: Primitive)
    requires 66 < k <= INT_MAX && Oaep(k, enc, dec) && Fits(dec, k)
    ensures var cipher := Output(Pieces(msg, k - 66), 0, enc);
            && cipher.Some? && Output(Pieces(cipher.value, k), 0, dec) == Some(msg)
            && (Ending(false, false, k, msg, enc, true, true) == Done
                && Ending(true, true, k, cipher.value, dec, true, true) == Done
                <==> msg != [] && Needed(|msg|, k - 66, k) <= 0x7FFF_FFFF - k + 1)
  {
    hide Needed, Output, Pieces, Blocks, Ending, Oaep, Fits;
    RoundTrip(msg, k, 0, 0, enc, dec);
    EncryptsExactly(false, msg, k, enc, dec, true, true);
    var cipher := Output(Pieces(msg, k - 66), 0, enc).value;
    if |cipher| <= INT_MAX - k + 1 {
      EncryptInRange(|msg|, k);
      if msg != [] {
        SomeNeeded(msg, k - 66, k);
        DecryptInRange(|cipher|, k);
        SafeInRange(true, true, k, cipher, dec, true, true);
      }
    } else if |cipher| <= INT_MAX {
      CipherLength(|msg|, k - 66, k);
      TooLongRefused(cipher, Blocks(|msg|, k - 66), k, dec);
    } else {
      OutOfRange(|msg|, k);
    }
  }

  lemma OutOfRange(n: nat, k: int)
    requires 66 < k && Needed(n, k - 66, k) > INT_MAX
    ensures !InRange(false, n, k)
  {
  }
}
