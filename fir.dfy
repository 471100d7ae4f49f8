/*
 * The time-domain FIR convolver (src/ir/convolver/fir.rs): the impulse
 * response's taps and a ring of the most recent inputs, one slot per tap.
 * Each output is the sum over the taps of tap k times the input k samples
 * ago, so the model keeps the inputs seen since the last set_ir or reset as
 * a ghost history and states every output against it.
 */
module Fir {
  import opened Common

  /** The input `k` samples before the most recent one, or silence before the history began. */
  function Ago(h: seq<real>, k: nat): real {
    if k < |h| then h[|h| - 1 - k] else 0.0
  }

  /** The sum of the first `n` taps, tap k weighting the input k samples ago. */
  function FirSum(c: seq<real>, h: seq<real>, n: nat): real
    requires n <= |c|
  {
    if n == 0 then 0.0 else FirSum(c, h, n - 1) + c[n - 1] * Ago(h, n - 1)
  }

  /** The convolution output once the history's last input has arrived. */
  function FirOutput(c: seq<real>, h: seq<real>): real {
    FirSum(c, h, |c|)
  }

  /** process_sample's result: the input itself while there are no taps, else the convolution. */
  function Respond(c: seq<real>, h: seq<real>, input: real): real {
    if |c| == 0 then input else FirOutput(c, h + [input])
  }

  /** The outputs of a block, each sample answered after the ones before it. */
  function RespondAll(c: seq<real>, h: seq<real>, xs: seq<real>): (ys: seq<real>)
    ensures |ys| == |xs|
    decreases |xs|
  {
    if xs == [] then [] else [Respond(c, h, xs[0])] + RespondAll(c, h + [xs[0]], xs[1..])
  }

  /** Sample i of a block's output answers input i after the inputs before it. */
  lemma {:induction false} RespondAllAt(c: seq<real>, h: seq<real>, xs: seq<real>, i: nat)
    requires i < |xs|
    ensures RespondAll(c, h, xs)[i] == Respond(c, h + xs[..i], xs[i])
    decreases i
  {
    if i == 0 {
      assert h + xs[..0] == h;
    } else {
      RespondAllAt(c, h + [xs[0]], xs[1..], i - 1);
      assert (h + [xs[0]]) + xs[1..][..i - 1] == h + xs[..i];
      assert xs[1..][i - 1] == xs[i];
    }
  }

  /** n zeros. */
  function Zeros(n: nat): (z: seq<real>)
    ensures |z| == n && forall i :: 0 <= i < n ==> z[i] == 0.0
  {
    if n == 0 then [] else Zeros(n - 1) + [0.0]
  }

  /**
   * A unit impulse followed by `n` zeros weights exactly tap `n`: summed
   * over the first `k` taps, the result is tap `n` once `k` has passed it
   * and 0 before.
   */
  lemma {:induction false} ImpulseSum(c: seq<real>, n: nat, k: nat)
    requires k <= |c|
    ensures FirSum(c, [1.0] + Zeros(n), k) == if n < k then c[n] else 0.0
  {
    var h := [1.0] + Zeros(n);
    if k > 0 {
      ImpulseSum(c, n, k - 1);
      if k - 1 == n {
        assert Ago(h, k - 1) == h[0] == 1.0;
      } else if k - 1 < n {
        assert Ago(h, k - 1) == h[n - (k - 1)] == 0.0;
      } else {
        assert Ago(h, k - 1) == 0.0;
      }
    }
  }

  /** An impulse reproduces the impulse response: `n` samples after it, the output is tap `n`, and 0 once the taps run out. */
  lemma ImpulseResponse(c: seq<real>, n: nat)
    ensures FirOutput(c, [1.0] + Zeros(n)) == if n < |c| then c[n] else 0.0
  {
    ImpulseSum(c, n, |c|);
  }

  /**
   * An impulse block sent through a freshly loaded convolver comes out as
   * the impulse response, followed by silence once the taps run out.
   */
  lemma ImpulseBlock(c: seq<real>, n: nat, i: nat)
    requires |c| > 0 && i <= n
    ensures RespondAll(c, [], [1.0] + Zeros(n))[i] == if i < |c| then c[i] else 0.0
  {
    var xs := [1.0] + Zeros(n);
    RespondAllAt(c, [], xs, i);
    assert [] + xs[..i] + [xs[i]] == [1.0] + Zeros(i);
    ImpulseResponse(c, i);
  }

  /** A silent history gives a silent output, whatever the taps. */
  lemma {:induction false} SilentSum(c: seq<real>, h: seq<real>, k: nat)
    requires k <= |c|
    requires forall i :: 0 <= i < |h| ==> h[i] == 0.0
    ensures FirSum(c, h, k) == 0.0
  {
    if k > 0 {
      SilentSum(c, h, k - 1);
      assert Ago(h, k - 1) == 0.0;
    }
  }

  /** After a reset (an empty history) a zero input gives a zero output. */
  lemma SilenceAfterReset(c: seq<real>)
    ensures Respond(c, [], 0.0) == 0.0
  {
    if |c| > 0 {
      assert [] + [0.0] == [0.0];
      SilentSum(c, [0.0], |c|);
    }
  }

  /**
   * The ring slot `d` places behind `w` in a ring of `len`, stepping back
   * one slot at a time and wrapping from 0 to len - 1.
   */
  function Behind(w: nat, d: nat, len: nat): (i: nat)
    requires w < len && d <= len
    ensures i < len
  {
    if w >= d then w - d else w + len - d
  }

  /** Appending an input makes it the most recent and ages every earlier one by a sample. */
  lemma AgoAppend(h: seq<real>, x: real, j: nat)
    ensures Ago(h + [x], j) == if j == 0 then x else Ago(h, j - 1)
  {
  }

  /** One slot further back is the previous slot, wrapping at 0. */
  lemma BehindStep(w: nat, d: nat, len: nat)
    requires w < len && d < len
    ensures Behind(w, d + 1, len) == if Behind(w, d, len) == 0 then len - 1 else Behind(w, d, len) - 1
  {
  }

  /** Seen from the advanced write position, each slot is one place further back. */
  lemma BehindAdvance(w: nat, d: nat, len: nat)
    requires w < len && d < len
    ensures Behind((w + 1) % len, d + 1, len) == Behind(w, d, len)
  {
    if w + 1 == len {
      assert (w + 1) % len == 0;
    } else {
      assert (w + 1) % len == w + 1;
    }
  }

  /**
   * Storing an input at the write position of a ring that held the history
   * behind it: seen from that position the ring now holds the longer history.
   */
  lemma RingStore(ring: seq<real>, w: nat, h: seq<real>, x: real)
    requires w < |ring|
    requires forall j :: 0 <= j < |ring| ==> ring[Behind(w, j + 1, |ring|)] == Ago(h, j)
    ensures forall j :: 0 <= j < |ring| ==> ring[w := x][Behind(w, j, |ring|)] == Ago(h + [x], j)
  {
    forall j | 0 <= j < |ring|
      ensures ring[w := x][Behind(w, j, |ring|)] == Ago(h + [x], j)
    {
      AgoAppend(h, x, j);
      if j > 0 {
        assert Behind(w, j, |ring|) == Behind(w, (j - 1) + 1, |ring|) != w;
      }
    }
  }

  /** Advancing the write position: what stood d places behind it now stands d + 1 places behind. */
  lemma RingAdvance(ring: seq<real>, w: nat, h: seq<real>)
    requires w < |ring|
    requires forall j :: 0 <= j < |ring| ==> ring[Behind(w, j, |ring|)] == Ago(h, j)
    ensures forall j :: 0 <= j < |ring| ==> ring[Behind((w + 1) % |ring|, j + 1, |ring|)] == Ago(h, j)
  {
    forall j | 0 <= j < |ring|
      ensures ring[Behind((w + 1) % |ring|, j + 1, |ring|)] == Ago(h, j)
    {
      BehindAdvance(w, j, |ring|);
    }
  }

  /**
   * The tap loop of process_sample: the taps summed against the ring,
   * walking backwards from the newest input at `w` and wrapping at 0.
   */
  method TapSum(c: seq<real>, ring: array<real>, w: nat, ghost h: seq<real>) returns (out: real)
    requires ring.Length == |c| && w < |c|
    requires forall j :: 0 <= j < |c| ==> ring[Behind(w, j, |c|)] == Ago(h, j)
    ensures out == FirSum(c, h, |c|)
  {
    out := 0.0;
    var idx := w;
    var k := 0;
    while k < |c|
      invariant 0 <= k <= |c|
      invariant k < |c| ==> idx == Behind(w, k, |c|)
      invariant out == FirSum(c, h, k)
    {
      out := out + ring[idx] * c[k];
      BehindStep(w, k, |c|);
      if idx == 0 {
        idx := |c| - 1;
      } else {
        idx := idx - 1;
      }
      k := k + 1;
    }
  }

  class FirConvolver {
    var coefficients: seq<real>
    var inputBuffer: array<real>
    var writePos: nat
    const maxLength: nat
    /** The inputs since the last set_ir or reset. */
    ghost var history: seq<real>

    /**
     * The ring holds the recent inputs: the slot j + 1 places behind the
     * write position holds the input j samples ago.
     */
    ghost predicate RingHolds()
      reads this, inputBuffer
      requires writePos < inputBuffer.Length
    {
      forall j :: 0 <= j < inputBuffer.Length ==>
        inputBuffer[Behind(writePos, j + 1, inputBuffer.Length)] == Ago(history, j)
    }

    ghost predicate Valid()
      reads this, inputBuffer
    {
      && |coefficients| <= maxLength
      && (|coefficients| == 0 ==> writePos == 0)
      && (|coefficients| > 0 ==>
            && inputBuffer.Length == |coefficients|
            && writePos < inputBuffer.Length
            && RingHolds())
    }

    /** new: no taps yet and a zeroed ring of max_length slots. */
    constructor (maxLength: nat)
      ensures Valid() && fresh(inputBuffer)
      ensures this.maxLength == maxLength && coefficients == [] && history == []
      ensures inputBuffer.Length == maxLength && writePos == 0
      ensures forall i :: 0 <= i < inputBuffer.Length ==> inputBuffer[i] == 0.0
    {
      this.maxLength := maxLength;
      coefficients := [];
      inputBuffer := new real[maxLength](_ => 0.0);
      writePos := 0;
      history := [];
    }

    /** set_ir: keep at most max_length taps, with a fresh zeroed ring of the same length. */
    method SetIr(ir: seq<real>) returns (r: Result<Unit>)
      modifies this
      ensures Valid() && fresh(inputBuffer) && r == Ok(Unit)
      ensures |ir| <= maxLength ==> coefficients == ir
      ensures |ir| > maxLength ==> coefficients == ir[..maxLength]
      ensures inputBuffer.Length == |coefficients| && writePos == 0 && history == []
      ensures forall i :: 0 <= i < inputBuffer.Length ==> inputBuffer[i] == 0.0
    {
      var n := if |ir| < maxLength then |ir| else maxLength;
      coefficients := ir[..n];
      inputBuffer := new real[n](_ => 0.0);
      writePos := 0;
      history := [];
      r := Ok(Unit);
    }

    /**
     * process_sample: with no taps the input passes through; otherwise the
     * input is stored at the write position, the taps are summed against
     * the ring walking backwards from it, and the write position advances.
     */
    method ProcessSample(input: real) returns (output: real)
      requires Valid()
      modifies this, inputBuffer
      ensures Valid() && inputBuffer == old(inputBuffer) && coefficients == old(coefficients)
      ensures history == old(history) + [input]
      ensures output == Respond(coefficients, old(history), input)
      ensures |coefficients| > 0 ==> writePos == (old(writePos) + 1) % |coefficients|
    {
      if |coefficients| == 0 {
        history := history + [input];
        return input;
      }
      var len := |coefficients|;
      var w := writePos;
      ghost var h0 := history;
      ghost var ring0 := inputBuffer[..];
      RingStore(ring0, w, h0, input);
      inputBuffer[w] := input;
      history := h0 + [input];
      ghost var ring1 := inputBuffer[..];
      assert ring1 == ring0[w := input];
      output := TapSum(coefficients, inputBuffer, w, history);
      RingAdvance(ring1, w, history);
      writePos := (w + 1) % len;
      assert RingHolds();
    }

    /** process_block: process_sample on each sample in order, in place. */
    method ProcessBlock(samples: array<real>)
      requires Valid() && samples != inputBuffer
      modifies this, inputBuffer, samples
      ensures Valid() && inputBuffer == old(inputBuffer) && coefficients == old(coefficients)
      ensures history == old(history) + old(samples[..])
      ensures samples[..] == RespondAll(coefficients, old(history), old(samples[..]))
    {
      ghost var xs := samples[..];
      ghost var h0 := history;
      var i := 0;
      while i < samples.Length
        invariant 0 <= i <= samples.Length
        invariant Valid() && inputBuffer == old(inputBuffer) && coefficients == old(coefficients)
        invariant history == h0 + xs[..i]
        invariant forall k :: i <= k < samples.Length ==> samples[k] == xs[k]
        invariant forall k :: 0 <= k < i ==> samples[k] == Respond(coefficients, h0 + xs[..k], xs[k])
      {
        var y := ProcessSample(samples[i]);
        samples[i] := y;
        assert xs[..i + 1] == xs[..i] + [xs[i]];
        i := i + 1;
      }
      assert xs[..i] == xs;
      forall k | 0 <= k < samples.Length
        ensures samples[k] == RespondAll(coefficients, h0, xs)[k]
      {
        RespondAllAt(coefficients, h0, xs, k);
      }
      assert samples[..] == RespondAll(coefficients, h0, xs);
    }

    /** reset: silence the ring and rewind the write position; the taps are kept. */
    method Reset()
      requires Valid()
      modifies this`writePos, this`history, inputBuffer
      ensures Valid() && writePos == 0 && history == []
      ensures forall i :: 0 <= i < inputBuffer.Length ==> inputBuffer[i] == 0.0
    {
      forall i | 0 <= i < inputBuffer.Length {
        inputBuffer[i] := 0.0;
      }
      writePos := 0;
      history := [];
    }

    /** latency: the FIR answers each sample immediately. */
    function Latency(): (n: nat)
      ensures n == 0
    {
      0
    }

    /** ir_length: the number of taps in use, never more than max_length. */
    function IrLength(): (n: nat)
      reads this, inputBuffer
      requires Valid()
      ensures n <= maxLength
    {
      |coefficients|
    }
  }
}
