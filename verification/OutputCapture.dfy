/** Captured build output: a buffer that keeps only the tail, and the tail that is reported from it. */
module OutputCapture {
  type Bytes = seq<bv8>

  /** maxCapturedOutputBytes. */
  const MAX_CAPTURED_OUTPUT_BYTES := 0x10_0000

  /** The size of the reported tail. */
  const TAIL_BYTES := 4096

  /** The truncation mark, as UTF-8. */
  const ELLIPSIS: Bytes := [0xE2, 0x80, 0xA6]

  function Min(a: int, b: int): int { if a < b then a else b }

  /** The last `n` bytes, or all of them when there are no more than that. */
  function Last(s: Bytes, n: nat): Bytes { s[|s| - Min(|s|, n)..] }

  /** boundedBufferWriter. A negative budget keeps nothing, like a budget of zero. */
  class BoundedBufferWriter {
    var buf: Bytes
    const budget: int
    /** Everything written so far. */
    ghost var stream: Bytes

    ghost predicate Valid()
      reads this
    {
      buf == Retained(stream, budget)
    }

    constructor (budget: int)
      ensures Valid() && stream == [] && this.budget == budget
    {
      buf, stream, this.budget := [], [], budget;
    }

    method Write(p: Bytes) returns (n: nat)
      requires Valid()
      modifies this
      ensures Valid() && stream == old(stream) + p && n == |p|
    {
      WriteKeepsTail(stream, p, budget);
      buf := buf + p;
      var extra := |buf| - budget;
      if extra > 0 { buf := buf[Min(extra, |buf|)..]; }
      stream := stream + p;
      n := |p|;
    }
  }

  function Retained(stream: Bytes, budget: int): Bytes { Last(stream, if budget < 0 then 0 else budget) }

  /** Dropping early loses nothing that would be kept later. */
  lemma WriteKeepsTail(stream: Bytes, p: Bytes, budget: int)
    ensures Retained(Retained(stream, budget) + p, budget) == Retained(stream + p, budget)
  {
    var b := if budget < 0 then 0 else budget;
    var kept := Last(stream, b);
    var dropped := stream[..|stream| - |kept|];
    assert stream == dropped + kept;
    assert stream + p == dropped + (kept + p);
  }

  function Concat(writes: seq<Bytes>): Bytes {
    if writes == [] then [] else Concat(writes[..|writes| - 1]) + writes[|writes| - 1]
  }

  /** What the buffer holds after a sequence of writes, each trimmed as it comes in. */
  function Buffered(writes: seq<Bytes>, budget: int): Bytes {
    if writes == [] then [] else Retained(Buffered(writes[..|writes| - 1], budget) + writes[|writes| - 1], budget)
  }

  /** After any writes of any sizes the buffer holds exactly the last min(total, budget) bytes. */
  lemma {:induction false} BufferHoldsTail(writes: seq<Bytes>, budget: nat)
    ensures Buffered(writes, budget) == Last(Concat(writes), budget)
    ensures |Buffered(writes, budget)| == Min(|Concat(writes)|, budget)
  {
    LastLength(Concat(writes), budget);
    if writes == [] {
      assert Concat(writes) == [];
    } else {
      hide Last, Min;
      var front, p := writes[..|writes| - 1], writes[|writes| - 1];
      BufferHoldsTail(front, budget);
      WriteKeepsTail(Concat(front), p, budget);
    }
  }

  lemma LastLength(s: Bytes, n: nat)
    ensures |Last(s, n)| == Min(|s|, n)
  {
  }

  /** tailString. */
  function TailString(s: Bytes, n: nat): Bytes {
    if |s| <= n then s else ELLIPSIS + s[|s| - n..]
  }

  /** The reported tail is that of an unbounded buffer exactly when nothing was dropped or the budget exceeds it. */
  lemma TailAgreesIff(stream: Bytes, budget: nat, n: nat)
    ensures TailString(Last(stream, budget), n) == TailString(stream, n) <==> |stream| <= budget || n < budget
  {
    var kept := Last(stream, budget);
    if |stream| > budget {
      assert |kept| == budget;
      if n < budget { assert kept[|kept| - n..] == stream[|stream| - n..]; }
    }
  }

  /** The tail reported for a build: its whole output up to 4096 bytes, else the mark and the last 4096. */
  lemma ReportedTailIsExact(writes: seq<Bytes>)
    ensures var all := Concat(writes);
      TailString(Buffered(writes, MAX_CAPTURED_OUTPUT_BYTES), TAIL_BYTES) ==
        if |all| <= 4096 then all else [0xE2, 0x80, 0xA6] + all[|all| - 4096..]
  {
    BufferHoldsTail(writes, MAX_CAPTURED_OUTPUT_BYTES);
    TailAgreesIff(Concat(writes), MAX_CAPTURED_OUTPUT_BYTES, TAIL_BYTES);
  }
}
