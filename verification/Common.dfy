/** Types and facts that several components share. */
module Common {

  datatype Option<T> = None | Some(value: T)

  /** The status of a document. */
  datatype Status = Uploaded | Processing | Processed | Failed

  /** Consecutive times at least gap apart. */
  predicate Spaced(times: seq<real>, gap: real) {
    forall i | 0 < i < |times| :: times[i] - times[i - 1] >= gap
  }

  lemma {:induction false} SpacedApart(times: seq<real>, gap: real, i: nat, j: nat)
    requires Spaced(times, gap) && i <= j < |times|
    ensures times[j] - times[i] >= gap * (j - i) as real
  {
    if i < j {
      SpacedApart(times, gap, i, j - 1);
      assert times[j] - times[j - 1] >= gap;
      assert gap * (j - i) as real == gap * (j - 1 - i) as real + gap;
    }
  }
}
