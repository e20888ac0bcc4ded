/** Keyword extraction (`calculate_keywords` in src/enricher.rs): the external
    keyword model is asked for predictions on the record's text, and the
    texts of the first batch's keywords that clear a fixed score threshold are
    kept, in order. */
module Keywords {
  import opened Wrappers

  /** One keyword predicted by the model: its text and its confidence score. */
  datatype Keyword = Keyword(text: string, score: real)

  /** The failure the keyword model reports instead of predictions. */
  datatype ModelError = ModelError(message: string)

  /** What the model returns for a list of inputs: one batch of keywords per
      input, or an error. */
  type Prediction = Result<seq<seq<Keyword>>, ModelError>

  /** The smallest score a keyword may have and still be kept. */
  const MinScore: real := 0.3999

  predicate Confident(k: Keyword) {
    k.score >= MinScore
  }

  /** The texts of `batch`, position by position. */
  function Texts(batch: seq<Keyword>): (r: seq<string>)
    ensures |r| == |batch|
    ensures forall i :: 0 <= i < |batch| ==> r[i] == batch[i].text
  {
    seq(|batch|, i requires 0 <= i < |batch| => batch[i].text)
  }

  /** The filter-then-map pipeline over one batch: the texts of the confident
      keywords, in batch order. */
  function KeepConfident(batch: seq<Keyword>): (r: seq<string>)
    ensures |r| <= |batch|
    ensures forall t :: t in r <==> exists k :: k in batch && Confident(k) && k.text == t
  {
    if |batch| == 0 then []
    else if Confident(batch[0]) then [batch[0].text] + KeepConfident(batch[1..])
    else
      var rest := KeepConfident(batch[1..]);
      assert forall k :: k in batch && Confident(k) ==> k in batch[1..];
      rest
  }

  /** `calculate_keywords`: never absent; empty when the model fails or
      returns no batch; otherwise the texts of exactly the confident keywords
      of the first batch, each once, in batch order. */
  function CalculateKeywords(text: string, model: string -> Prediction): (r: Option<seq<string>>)
    ensures r.Some?
    ensures model(text).Failure? ==> r.value == []
    ensures model(text).Success? && |model(text).value| == 0 ==> r.value == []
    ensures model(text).Success? && |model(text).value| > 0 ==>
              var batch := model(text).value[0];
              && |r.value| <= |batch|
              && IsSubsequence(r.value, Texts(batch))
              && (forall t :: t in r.value <==> exists k :: k in batch && Confident(k) && k.text == t)
              && (forall idx :: Selects(batch, idx) ==> r.value == Pick(batch, idx))
  {
    match model(text)
    case Success(batches) =>
      if |batches| > 0 then
        var kept := KeepConfident(batches[0]);
        KeepConfidentIsSubsequence(batches[0]);
        assert forall idx :: Selects(batches[0], idx) ==> kept == Pick(batches[0], idx) by {
          forall idx | Selects(batches[0], idx)
            ensures kept == Pick(batches[0], idx)
          {
            KeepConfidentIsSelection(batches[0], idx);
          }
        }
        Some(kept)
      else Some([])
    case Failure(_) => Some([])
  }

  /** `xs` can be obtained from `ys` by deleting elements. */
  predicate IsSubsequence<T(==)>(xs: seq<T>, ys: seq<T>)
    decreases |ys|
  {
    if |xs| == 0 then true
    else if |ys| == 0 then false
    else (xs[0] == ys[0] && IsSubsequence(xs[1..], ys[1..])) || IsSubsequence(xs, ys[1..])
  }

  lemma {:induction false} KeepConfidentIsSubsequence(batch: seq<Keyword>)
    ensures IsSubsequence(KeepConfident(batch), Texts(batch))
    decreases |batch|
  {
    if |batch| > 0 {
      KeepConfidentIsSubsequence(batch[1..]);
      assert Texts(batch)[1..] == Texts(batch[1..]);
    }
  }

  /** `idx` lists, strictly increasing, exactly the positions of the confident
      keywords of `batch`. */
  ghost predicate Selects(batch: seq<Keyword>, idx: seq<int>) {
    && (forall k :: 0 <= k < |idx| ==> 0 <= idx[k] < |batch|)
    && (forall k, l :: 0 <= k < l < |idx| ==> idx[k] < idx[l])
    && (forall k :: 0 <= k < |idx| ==> Confident(batch[idx[k]]))
    && (forall i :: 0 <= i < |batch| && Confident(batch[i]) ==> i in idx)
  }

  /** The texts of `batch` at the positions `idx`, in that order. */
  function Pick(batch: seq<Keyword>, idx: seq<int>): (r: seq<string>)
    requires forall k :: 0 <= k < |idx| ==> 0 <= idx[k] < |batch|
    ensures |r| == |idx|
    ensures forall k :: 0 <= k < |idx| ==> r[k] == batch[idx[k]].text
  {
    seq(|idx|, k requires 0 <= k < |idx| => batch[idx[k]].text)
  }

  /** Every position of `idx` moved by `d`. */
  function Shift(idx: seq<int>, d: int): (r: seq<int>)
    ensures |r| == |idx|
    ensures forall k :: 0 <= k < |idx| ==> r[k] == idx[k] + d
  {
    seq(|idx|, k requires 0 <= k < |idx| => idx[k] + d)
  }

  /** Dropping a confident first keyword: the selection starts at position 0,
      and its remainder, moved down by one, selects the rest of the batch. */
  lemma SelectionAfterConfidentHead(batch: seq<Keyword>, idx: seq<int>)
    requires |batch| > 0 && Confident(batch[0]) && Selects(batch, idx)
    ensures |idx| > 0 && idx[0] == 0
    ensures Selects(batch[1..], Shift(idx[1..], -1))
  {
  }

  /** Dropping an unconfident first keyword: the selection, moved down by one,
      selects the rest of the batch. */
  lemma SelectionAfterUnconfidentHead(batch: seq<Keyword>, idx: seq<int>)
    requires |batch| > 0 && !Confident(batch[0]) && Selects(batch, idx)
    ensures Selects(batch[1..], Shift(idx, -1))
  {
  }

  /** Picking from a selection that starts at position 0 takes the first
      text, then picks from the rest of the batch. */
  lemma PickAfterHead(batch: seq<Keyword>, idx: seq<int>)
    requires |batch| > 0 && |idx| > 0 && idx[0] == 0
    requires forall k :: 0 < k < |idx| ==> 0 < idx[k] < |batch|
    ensures Pick(batch, idx) == [batch[0].text] + Pick(batch[1..], Shift(idx[1..], -1))
  {
  }

  /** Picking positions that avoid 0 is picking from the rest of the batch. */
  lemma PickWithoutHead(batch: seq<Keyword>, idx: seq<int>)
    requires |batch| > 0
    requires forall k :: 0 <= k < |idx| ==> 0 < idx[k] < |batch|
    ensures Pick(batch, idx) == Pick(batch[1..], Shift(idx, -1))
  {
  }

  /** Every positional selection of the confident keywords names the same
      texts as the filter: the filter keeps exactly the confident keywords,
      each once, in batch order. */
  lemma {:induction false} KeepConfidentIsSelection(batch: seq<Keyword>, idx: seq<int>)
    requires Selects(batch, idx)
    ensures KeepConfident(batch) == Pick(batch, idx)
    decreases |batch|
  {
    if |batch| == 0 {
    } else if Confident(batch[0]) {
      SelectionAfterConfidentHead(batch, idx);
      var idx' := Shift(idx[1..], -1);
      KeepConfidentIsSelection(batch[1..], idx');
      PickAfterHead(batch, idx);
    } else {
      SelectionAfterUnconfidentHead(batch, idx);
      var idx' := Shift(idx, -1);
      KeepConfidentIsSelection(batch[1..], idx');
      PickWithoutHead(batch, idx);
    }
  }

  /** A selection of the confident positions always exists, so the
      characterisation above is never vacuous. */
  lemma {:induction false} ConfidentSelectionExists(batch: seq<Keyword>)
    ensures exists idx :: Selects(batch, idx)
    decreases |batch|
  {
    if |batch| == 0 {
      assert Selects(batch, []);
    } else {
      ConfidentSelectionExists(batch[1..]);
      var idx' :| Selects(batch[1..], idx');
      SelectionBeforeHead(batch, idx');
    }
  }

  /** A selection for the rest of a batch, moved up by one and preceded by
      position 0 when the first keyword is confident, selects the batch. */
  lemma SelectionBeforeHead(batch: seq<Keyword>, idx': seq<int>)
    requires |batch| > 0 && Selects(batch[1..], idx')
    ensures Selects(batch, if Confident(batch[0]) then [0] + Shift(idx', 1) else Shift(idx', 1))
  {
    ShiftedSelection(batch, idx');
    if Confident(batch[0]) {
      SelectionBeforeConfidentHead(batch, Shift(idx', 1));
    }
  }

  /** Position 0 in front of a selection of the later confident positions
      selects the whole batch when the first keyword is confident. */
  lemma SelectionBeforeConfidentHead(batch: seq<Keyword>, up: seq<int>)
    requires |batch| > 0 && Confident(batch[0])
    requires forall k :: 0 <= k < |up| ==> 0 < up[k] < |batch| && Confident(batch[up[k]])
    requires forall k, l :: 0 <= k < l < |up| ==> up[k] < up[l]
    requires forall i :: 0 < i < |batch| && Confident(batch[i]) ==> i in up
    ensures Selects(batch, [0] + up)
  {
  }

  /** A selection for the rest of a batch, moved up by one, selects every
      confident position of the batch except position 0. */
  lemma ShiftedSelection(batch: seq<Keyword>, idx': seq<int>)
    requires |batch| > 0 && Selects(batch[1..], idx')
    ensures var up := Shift(idx', 1);
      && (forall k :: 0 <= k < |up| ==> 0 < up[k] < |batch| && Confident(batch[up[k]]))
      && (forall k, l :: 0 <= k < l < |up| ==> up[k] < up[l])
      && (forall i :: 0 < i < |batch| && Confident(batch[i]) ==> i in up)
  {
  }

  /** The boundary of the filter: a score of exactly 0.3999 is kept, 0.39 is
      dropped. */
  lemma ThresholdIsInclusive()
    ensures KeepConfident([Keyword("kept", 0.3999), Keyword("dropped", 0.39)]) == ["kept"]
  {
  }

  /** Four candidates scoring 0.5, 0.39, 0.4 and 0.1: exactly the first and
      third survive, in that order. */
  lemma MixedScoresExample()
    ensures KeepConfident([Keyword("a", 0.5), Keyword("b", 0.39), Keyword("c", 0.4), Keyword("d", 0.1)])
            == ["a", "c"]
  {
  }
}
