/**
 * Token-usage bookkeeping of one call: the usage block that a `response.done`
 * event carries (every field optional) and the session's running counters,
 * which start at zero and absorb each block field by field.
 */
module Usage {
  import opened Wrappers

  /** The optional `input_token_details` block of a usage report. */
  datatype InputDetails = InputDetails(cachedTokens: Option<int>, textTokens: Option<int>, audioTokens: Option<int>)

  /** The optional `output_token_details` block of a usage report. */
  datatype OutputDetails = OutputDetails(textTokens: Option<int>, audioTokens: Option<int>)

  /** A usage report as the remote endpoint sends it; an absent field is `None`. */
  datatype Block = Block(
    totalTokens: Option<int>,
    inputTokens: Option<int>,
    outputTokens: Option<int>,
    inputDetails: Option<InputDetails>,
    outputDetails: Option<OutputDetails>)

  datatype InputCounts = InputCounts(cachedTokens: int, textTokens: int, audioTokens: int)

  datatype OutputCounts = OutputCounts(textTokens: int, audioTokens: int)

  /** The session's running totals (`sessionUsage`): every field is present. */
  datatype Counters = Counters(
    totalTokens: int,
    inputTokens: int,
    outputTokens: int,
    inputDetails: InputCounts,
    outputDetails: OutputCounts)

  /** The value `sessionUsage` is reset to when a call starts. */
  const Zero := Counters(0, 0, 0, InputCounts(0, 0, 0), OutputCounts(0, 0))

  /** JavaScript's `x || 0` on an optional token count. */
  function OrZero(x: Option<int>): int {
    if x.Some? then x.value else 0
  }

  /** Every count the block carries is non-negative. */
  predicate NonNegative(u: Block) {
    && OrZero(u.totalTokens) >= 0
    && OrZero(u.inputTokens) >= 0
    && OrZero(u.outputTokens) >= 0
    && (u.inputDetails.Some? ==>
          && OrZero(u.inputDetails.value.cachedTokens) >= 0
          && OrZero(u.inputDetails.value.textTokens) >= 0
          && OrZero(u.inputDetails.value.audioTokens) >= 0)
    && (u.outputDetails.Some? ==>
          && OrZero(u.outputDetails.value.textTokens) >= 0
          && OrZero(u.outputDetails.value.audioTokens) >= 0)
  }

  /** Field-wise sum of two sets of counters. */
  function Add(a: Counters, b: Counters): Counters {
    Counters(
      a.totalTokens + b.totalTokens,
      a.inputTokens + b.inputTokens,
      a.outputTokens + b.outputTokens,
      InputCounts(
        a.inputDetails.cachedTokens + b.inputDetails.cachedTokens,
        a.inputDetails.textTokens + b.inputDetails.textTokens,
        a.inputDetails.audioTokens + b.inputDetails.audioTokens),
      OutputCounts(
        a.outputDetails.textTokens + b.outputDetails.textTokens,
        a.outputDetails.audioTokens + b.outputDetails.audioTokens))
  }

  /** Field-wise "no counter of `a` exceeds the matching counter of `b`". */
  predicate AtMost(a: Counters, b: Counters) {
    && a.totalTokens <= b.totalTokens
    && a.inputTokens <= b.inputTokens
    && a.outputTokens <= b.outputTokens
    && a.inputDetails.cachedTokens <= b.inputDetails.cachedTokens
    && a.inputDetails.textTokens <= b.inputDetails.textTokens
    && a.inputDetails.audioTokens <= b.inputDetails.audioTokens
    && a.outputDetails.textTokens <= b.outputDetails.textTokens
    && a.outputDetails.audioTokens <= b.outputDetails.audioTokens
  }

  /**
   * What one block contributes to the counters: each present field counts,
   * an absent field counts as 0, and an absent details block contributes
   * nothing to the nested counters.
   */
  function Counts(u: Block): (c: Counters)
    ensures u.inputDetails.None? ==> c.inputDetails == Zero.inputDetails
    ensures u.outputDetails.None? ==> c.outputDetails == Zero.outputDetails
    ensures NonNegative(u) ==> AtMost(Zero, c)
  {
    Counters(
      OrZero(u.totalTokens),
      OrZero(u.inputTokens),
      OrZero(u.outputTokens),
      if u.inputDetails.Some? then
        InputCounts(
          OrZero(u.inputDetails.value.cachedTokens),
          OrZero(u.inputDetails.value.textTokens),
          OrZero(u.inputDetails.value.audioTokens))
      else Zero.inputDetails,
      if u.outputDetails.Some? then
        OutputCounts(
          OrZero(u.outputDetails.value.textTokens),
          OrZero(u.outputDetails.value.audioTokens))
      else Zero.outputDetails)
  }

  /** The counters after merging the blocks `us` into `c`, in arrival order. */
  function Accumulated(c: Counters, us: seq<Block>): Counters
    decreases |us|
  {
    if |us| == 0 then c else Add(Accumulated(c, us[..|us| - 1]), Counts(us[|us| - 1]))
  }

  /** Reference definition: the field-wise sum of all the blocks. */
  function Total(us: seq<Block>): Counters
    decreases |us|
  {
    if |us| == 0 then Zero else Add(Counts(us[0]), Total(us[1..]))
  }

  lemma {:induction false} TotalAppend(xs: seq<Block>, x: Block)
    ensures Total(xs + [x]) == Add(Total(xs), Counts(x))
    decreases |xs|
  {
    if |xs| == 0 {
      assert xs + [x] == [x];
      assert [x][1..] == [];
    } else {
      assert (xs + [x])[1..] == xs[1..] + [x];
      TotalAppend(xs[1..], x);
    }
  }

  /** Merging the blocks into any starting value adds their field-wise sum to it. */
  lemma {:induction false} AccumulatedAddsTotal(c: Counters, us: seq<Block>)
    ensures Accumulated(c, us) == Add(c, Total(us))
    decreases |us|
  {
    if |us| > 0 {
      var init, last := us[..|us| - 1], us[|us| - 1];
      assert us == init + [last];
      AccumulatedAddsTotal(c, init);
      TotalAppend(init, last);
    }
  }

  /** After the reset at call start, N merges equal the field-wise sum of the N blocks. */
  lemma AccumulatedFromResetIsTotal(us: seq<Block>)
    ensures Accumulated(Zero, us) == Total(us)
  {
    AccumulatedAddsTotal(Zero, us);
  }

  lemma AddAssociative(a: Counters, b: Counters, c: Counters)
    ensures Add(a, Add(b, c)) == Add(Add(a, b), c)
  {
  }

  lemma {:induction false} TotalConcat(xs: seq<Block>, ys: seq<Block>)
    ensures Total(xs + ys) == Add(Total(xs), Total(ys))
    decreases |xs|
  {
    if |xs| > 0 {
      var zs := xs + ys;
      assert zs[0] == xs[0] && zs[1..] == xs[1..] + ys;
      TotalConcat(xs[1..], ys);
      calc {
        Total(zs);
        Add(Counts(xs[0]), Total(xs[1..] + ys));
        Add(Counts(xs[0]), Add(Total(xs[1..]), Total(ys)));
        { AddAssociative(Counts(xs[0]), Total(xs[1..]), Total(ys)); }
        Add(Add(Counts(xs[0]), Total(xs[1..])), Total(ys));
      }
    } else {
      assert xs + ys == ys;
    }
  }

  lemma AddSwap(a: Counters, b: Counters, c: Counters)
    ensures Add(a, Add(b, c)) == Add(b, Add(a, c))
  {
  }

  /** Taking the first block off `xs` and its copy at `i` off `ys` keeps the multisets equal. */
  lemma RemoveMatching(xs: seq<Block>, ys: seq<Block>, i: int)
    requires |xs| > 0 && 0 <= i < |ys| && ys[i] == xs[0]
    requires multiset(xs) == multiset(ys)
    ensures multiset(xs[1..]) == multiset(ys[..i] + ys[i + 1..])
  {
    var x, before, after := xs[0], ys[..i], ys[i + 1..];
    assert xs == [x] + xs[1..];
    assert ys == before + [x] + after;
    calc {
      multiset(xs[1..]) + multiset{x};
      multiset(xs);
      multiset(ys);
      multiset(before) + multiset{x} + multiset(after);
      multiset(before + after) + multiset{x};
    }
    assert multiset(xs[1..]) == multiset(xs[1..]) + multiset{x} - multiset{x};
    assert multiset(before + after) == multiset(before + after) + multiset{x} - multiset{x};
  }

  /** The field-wise sum depends only on which blocks there are, not on their order. */
  lemma {:induction false} TotalDependsOnlyOnMultiset(xs: seq<Block>, ys: seq<Block>)
    requires multiset(xs) == multiset(ys)
    ensures Total(xs) == Total(ys)
    decreases |xs|
  {
    if |xs| == 0 {
      assert |multiset(ys)| == 0;
    } else {
      var x := xs[0];
      assert x in multiset(xs);
      var i :| 0 <= i < |ys| && ys[i] == x;
      var before, after := ys[..i], ys[i + 1..];
      RemoveMatching(xs, ys, i);
      TotalDependsOnlyOnMultiset(xs[1..], before + after);
      assert ys == before + ([x] + after);
      assert ([x] + after)[0] == x && ([x] + after)[1..] == after;
      TotalConcat(before, [x] + after);
      TotalConcat(before, after);
      calc {
        Total(ys);
        Add(Total(before), Add(Counts(x), Total(after)));
        { AddSwap(Total(before), Counts(x), Total(after)); }
        Add(Counts(x), Add(Total(before), Total(after)));
        Add(Counts(x), Total(before + after));
        Add(Counts(x), Total(xs[1..]));
        Total(xs);
      }
    }
  }

  /** The counters do not depend on the order in which the blocks arrive. */
  lemma AccumulationOrderIrrelevant(c: Counters, xs: seq<Block>, ys: seq<Block>)
    requires multiset(xs) == multiset(ys)
    ensures Accumulated(c, xs) == Accumulated(c, ys)
  {
    AccumulatedAddsTotal(c, xs);
    AccumulatedAddsTotal(c, ys);
    TotalDependsOnlyOnMultiset(xs, ys);
  }

  /** Merging non-negative blocks never lowers any counter. */
  lemma {:induction false} AccumulatedNeverDecreases(c: Counters, us: seq<Block>)
    requires forall i :: 0 <= i < |us| ==> NonNegative(us[i])
    ensures AtMost(c, Accumulated(c, us))
    decreases |us|
  {
    if |us| > 0 {
      AccumulatedNeverDecreases(c, us[..|us| - 1]);
      assert NonNegative(us[|us| - 1]);
    }
  }
}
