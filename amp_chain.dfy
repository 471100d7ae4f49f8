/*
 * The amplifier chain (src/amp/chain.rs) and the Stage interface's default
 * block processing (src/amp/stages/mod.rs). A stage is any state `S` with a
 * per-sample step giving the stage's next state and its output sample; the
 * chain owns an ordered list of stages and feeds each one's output to the
 * next.
 */
module AmpChain {

  /** One sample through every stage in order: the stages' new states and the last output. */
  function ChainSample<S>(stages: seq<S>, step: (S, real) -> (S, real), x: real): (r: (seq<S>, real))
    ensures |r.0| == |stages|
    decreases |stages|
  {
    if stages == [] then ([], x)
    else
      var (s1, y) := step(stages[0], x);
      var (rest, out) := ChainSample(stages[1..], step, y);
      ([s1] + rest, out)
  }

  /** Stage::process_block's default: every sample of the block through one stage, in order. */
  function StageBlock<S>(s: S, step: (S, real) -> (S, real), xs: seq<real>): (r: (S, seq<real>))
    ensures |r.1| == |xs|
    decreases |xs|
  {
    if xs == [] then (s, [])
    else
      var (s1, ys) := StageBlock(s, step, xs[..|xs| - 1]);
      var (s2, y) := step(s1, xs[|xs| - 1]);
      (s2, ys + [y])
  }

  /** AmplifierChain::process_block: the whole block through the first stage, then through the next. */
  function ChainBlock<S>(stages: seq<S>, step: (S, real) -> (S, real), xs: seq<real>): (r: (seq<S>, seq<real>))
    ensures |r.0| == |stages| && |r.1| == |xs|
    decreases |stages|
  {
    if stages == [] then ([], xs)
    else
      var (s1, ys) := StageBlock(stages[0], step, xs);
      var (rest, out) := ChainBlock(stages[1..], step, ys);
      ([s1] + rest, out)
  }

  /** A block fed one sample at a time through the whole chain. */
  function ChainSamples<S>(stages: seq<S>, step: (S, real) -> (S, real), xs: seq<real>): (r: (seq<S>, seq<real>))
    ensures |r.1| == |xs|
    decreases |xs|
  {
    if xs == [] then (stages, [])
    else
      var (st1, ys) := ChainSamples(stages, step, xs[..|xs| - 1]);
      var (st2, y) := ChainSample(st1, step, xs[|xs| - 1]);
      (st2, ys + [y])
  }

  /** Extending the block by one sample extends the chain's block result by one chain step. */
  lemma {:induction false} ChainBlockSnoc<S>(stages: seq<S>, step: (S, real) -> (S, real), xs: seq<real>, x: real)
    ensures var (st1, ys) := ChainBlock(stages, step, xs);
      var (st2, y) := ChainSample(st1, step, x);
      ChainBlock(stages, step, xs + [x]) == (st2, ys + [y])
    decreases |stages|
  {
    if stages != [] {
      var xs' := xs + [x];
      assert xs'[..|xs'| - 1] == xs;
      var (s1, ys0) := StageBlock(stages[0], step, xs);
      var (s2, y0) := step(s1, x);
      assert StageBlock(stages[0], step, xs') == (s2, ys0 + [y0]);
      ChainBlockSnoc(stages[1..], step, ys0, y0);
      var (r1, ys) := ChainBlock(stages[1..], step, ys0);
      assert ChainBlock(stages, step, xs) == ([s1] + r1, ys);
      assert ([s1] + r1)[1..] == r1;
    }
  }

  /**
   * Processing a block stage by stage gives the same samples and the same
   * final stage states as pushing each sample through the whole chain:
   * every stage sees the same inputs in the same order either way.
   */
  lemma {:induction false} BlockEqualsSampleWise<S>(stages: seq<S>, step: (S, real) -> (S, real), xs: seq<real>)
    ensures ChainBlock(stages, step, xs) == ChainSamples(stages, step, xs)
    decreases |xs|
  {
    if xs == [] {
      EmptyBlock(stages, step);
    } else {
      var init := xs[..|xs| - 1];
      BlockEqualsSampleWise(stages, step, init);
      ChainBlockSnoc(stages, step, init, xs[|xs| - 1]);
      assert init + [xs[|xs| - 1]] == xs;
    }
  }

  lemma {:induction false} EmptyBlock<S>(stages: seq<S>, step: (S, real) -> (S, real))
    ensures ChainBlock(stages, step, []) == (stages, [])
    decreases |stages|
  {
    if stages != [] {
      EmptyBlock(stages[1..], step);
      assert [stages[0]] + stages[1..] == stages;
    }
  }

  /** An empty chain passes every sample through unchanged. */
  lemma EmptyChainIsIdentity<S>(step: (S, real) -> (S, real), xs: seq<real>)
    ensures ChainBlock([], step, xs).1 == xs
    ensures ChainSample([], step, 0.0).1 == 0.0
  {
  }

  class AmplifierChain<S> {
    var stages: seq<S>
    /** Every stage's per-sample processing, dispatched on the stage's kind. */
    const step: (S, real) -> (S, real)

    constructor (step: (S, real) -> (S, real))
      ensures stages == [] && this.step == step
    {
      stages := [];
      this.step := step;
    }

    method AddStage(s: S)
      modifies this
      ensures stages == old(stages) + [s]
    {
      stages := stages + [s];
    }

    /** process: the sample through every stage in order. */
    method Process(input: real) returns (output: real)
      modifies this
      ensures (stages, output) == ChainSample(old(stages), step, input)
    {
      var signal := input;
      var i := 0;
      assert stages[..0] + ChainSample(stages[0..], step, signal).0 == ChainSample(stages, step, signal).0;
      while i < |stages|
        invariant 0 <= i <= |stages| == |old(stages)|
        invariant stages[i..] == old(stages)[i..]
        invariant ChainSample(old(stages), step, input)
                  == (stages[..i] + ChainSample(stages[i..], step, signal).0, ChainSample(stages[i..], step, signal).1)
      {
        ghost var rest := stages[i..];
        ghost var done := stages[..i];
        assert rest[1..] == stages[i + 1..];
        var (s1, y) := step(stages[i], signal);
        ghost var tail := ChainSample(rest[1..], step, y);
        assert ChainSample(rest, step, signal) == ([s1] + tail.0, tail.1);
        stages := stages[i := s1];
        signal := y;
        assert stages[..i + 1] == done + [s1];
        assert stages[i + 1..] == rest[1..];
        assert done + ([s1] + tail.0) == (done + [s1]) + tail.0;
        i := i + 1;
      }
      assert stages[..i] == stages;
      assert stages[i..] == [];
      assert ChainSample(stages[i..], step, signal) == ([], signal);
      assert stages[..i] + [] == stages;
      output := signal;
    }

    /** process_block: every stage runs its block processing over the whole buffer in turn. */
    method ProcessBlock(block: array<real>)
      modifies this, block
      ensures (stages, block[..]) == ChainBlock(old(stages), step, old(block[..]))
    {
      var i := 0;
      assert stages[..0] + ChainBlock(stages[0..], step, block[..]).0 == ChainBlock(stages, step, block[..]).0;
      while i < |stages|
        invariant 0 <= i <= |stages| == |old(stages)|
        invariant stages[i..] == old(stages)[i..]
        invariant ChainBlock(old(stages), step, old(block[..]))
                  == (stages[..i] + ChainBlock(stages[i..], step, block[..]).0, ChainBlock(stages[i..], step, block[..]).1)
      {
        ghost var before := block[..];
        ghost var rest := stages[i..];
        ghost var done := stages[..i];
        assert rest[1..] == stages[i + 1..];
        StageProcessBlock(i, block);
        ghost var tail := ChainBlock(rest[1..], step, block[..]);
        assert ChainBlock(rest, step, before) == ([stages[i]] + tail.0, tail.1);
        assert stages[..i + 1] == done + [stages[i]];
        assert stages[i + 1..] == rest[1..];
        assert done + ([stages[i]] + tail.0) == (done + [stages[i]]) + tail.0;
        i := i + 1;
      }
      assert stages[..i] == stages;
      assert stages[i..] == [];
      assert ChainBlock(stages[i..], step, block[..]) == ([], block[..]);
      assert stages[..i] + [] == stages;
    }

    /** Stage::process_block's default loop for the stage at `index`. */
    method StageProcessBlock(index: nat, block: array<real>)
      requires index < |stages|
      modifies this, block
      ensures |stages| == |old(stages)|
      ensures (stages[index], block[..]) == StageBlock(old(stages)[index], step, old(block[..]))
      ensures forall k :: 0 <= k < |stages| && k != index ==> stages[k] == old(stages)[k]
    {
      var j := 0;
      while j < block.Length
        invariant 0 <= j <= block.Length
        invariant |stages| == |old(stages)|
        invariant forall k :: 0 <= k < |stages| && k != index ==> stages[k] == old(stages)[k]
        invariant block[j..] == old(block[..])[j..]
        invariant (stages[index], block[..j]) == StageBlock(old(stages)[index], step, old(block[..])[..j])
      {
        var (s1, y) := step(stages[index], block[j]);
        assert old(block[..])[..j + 1][..j] == old(block[..])[..j];
        assert old(block[..])[..j + 1][j] == block[j];
        stages := stages[index := s1];
        block[j] := y;
        assert block[..j + 1] == block[..j] + [y];
        j := j + 1;
      }
      assert block[..j] == block[..];
      assert old(block[..])[..j] == old(block[..]);
    }
  }
}
