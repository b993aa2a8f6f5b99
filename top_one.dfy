/**
 * Top-1 error accounting of one batch (run/step_train_network.py, lines 72-73 and 144-145):
 * the error of a batch is 1 minus the fraction of rows whose largest logit sits at the target class.
 */
module TopOne {

  /** One row of a model's output: a logit per class, and the row's target class. */
  datatype Row = Row(logits: seq<real>, target: int)

  type Batch = seq<Row>

  /** What the tensor operations need: a non-empty batch whose rows each have at least one class. */
  predicate WellFormedBatch(batch: Batch)
  {
    |batch| > 0 && forall i :: 0 <= i < |batch| ==> |batch[i].logits| > 0
  }

  /**
   * The top-1 prediction of a row. The order in which torch.topk breaks ties is not fixed by the
   * source; this model takes the first of the largest logits.
   */
  function ArgMax(logits: seq<real>): (k: nat)
    requires |logits| > 0
    ensures k < |logits|
    ensures forall j :: 0 <= j < |logits| ==> logits[j] <= logits[k]
    ensures forall j :: 0 <= j < k ==> logits[j] < logits[k]
    decreases |logits|
  {
    if |logits| == 1 then 0
    else
      var k := ArgMax(logits[..|logits| - 1]);
      if logits[|logits| - 1] > logits[k] then |logits| - 1 else k
  }

  /** A row is counted as correct when its top-1 prediction equals its target. */
  predicate Correct(row: Row)
    requires |row.logits| > 0
  {
    ArgMax(row.logits) == row.target
  }

  /** The positions of the correctly predicted rows of a batch. */
  function CorrectRows(batch: Batch): set<int>
    requires forall i :: 0 <= i < |batch| ==> |batch[i].logits| > 0
  {
    set i | 0 <= i < |batch| && Correct(batch[i])
  }

  /** The number of correctly predicted rows of a batch, counted from the last row back. */
  function CorrectCount(batch: Batch): (c: nat)
    requires forall i :: 0 <= i < |batch| ==> |batch[i].logits| > 0
    ensures c <= |batch|
    ensures c == |batch| <==> forall i :: 0 <= i < |batch| ==> Correct(batch[i])
    ensures c == 0 <==> forall i :: 0 <= i < |batch| ==> !Correct(batch[i])
    decreases |batch|
  {
    if batch == [] then 0
    else
      var n := |batch| - 1;
      var rest := CorrectCount(batch[..n]);
      assert forall i :: 0 <= i < n ==> batch[..n][i] == batch[i];
      rest + (if Correct(batch[n]) then 1 else 0)
  }

  /** The correct positions of a batch are those of the batch without its last row, and that row's position when it is correct. */
  lemma CorrectRowsSnoc(batch: Batch)
    requires batch != [] && forall i :: 0 <= i < |batch| ==> |batch[i].logits| > 0
    ensures var n := |batch| - 1;
      CorrectRows(batch) == CorrectRows(batch[..n]) + (if Correct(batch[n]) then {n} else {})
  {
    var n := |batch| - 1;
    var prefix := batch[..n];
    forall i
      ensures i in CorrectRows(batch) <==> i in CorrectRows(prefix) + (if Correct(batch[n]) then {n} else {})
    {
      if 0 <= i < n {
        assert prefix[i] == batch[i];
      }
    }
  }

  /** The count is the number of positions whose row is predicted correctly. */
  lemma {:induction false} CorrectCountIsSize(batch: Batch)
    requires forall i :: 0 <= i < |batch| ==> |batch[i].logits| > 0
    ensures CorrectCount(batch) == |CorrectRows(batch)|
    decreases |batch|
  {
    if batch != [] {
      var n := |batch| - 1;
      var prefix := batch[..n];
      CorrectCountIsSize(prefix);
      CorrectRowsSnoc(batch);
      assert n !in CorrectRows(prefix);
    } else {
      assert CorrectRows(batch) == {};
    }
  }

  /** The top-1 error of a batch: a value in [0, 1] that is 0 exactly when every row is right and 1 exactly when every row is wrong. */
  function BatchError(batch: Batch): (e: real)
    requires WellFormedBatch(batch)
    ensures 0.0 <= e <= 1.0
    ensures e == 0.0 <==> forall i :: 0 <= i < |batch| ==> Correct(batch[i])
    ensures e == 1.0 <==> forall i :: 0 <= i < |batch| ==> !Correct(batch[i])
  {
    var c := CorrectCount(batch);
    FractionBounds(c as real, |batch| as real);
    1.0 - (c as real) / (|batch| as real)
  }

  /** The batch error is one minus the share of positions whose row is predicted correctly. */
  lemma BatchErrorCounts(batch: Batch)
    requires WellFormedBatch(batch)
    ensures BatchError(batch) == 1.0 - (|CorrectRows(batch)| as real) / (|batch| as real)
  {
    CorrectCountIsSize(batch);
  }

  /** A count c out of n > 0 is a fraction in [0, 1] that is 1 only for c = n and 0 only for c = 0. */
  lemma FractionBounds(c: real, n: real)
    requires 0.0 <= c <= n && n > 0.0
    ensures 0.0 <= c / n <= 1.0
    ensures c / n == 1.0 <==> c == n
    ensures c / n == 0.0 <==> c == 0.0
  {
    var q := c / n;
    assert q * n == c;
  }

  /** Whatever the tie-breaking, a target logit strictly above every other logit is a correct prediction. */
  lemma StrictMaximumIsCorrect(row: Row)
    requires 0 <= row.target < |row.logits|
    requires forall j :: 0 <= j < |row.logits| && j != row.target ==> row.logits[j] < row.logits[row.target]
    ensures Correct(row)
  {
  }

  /** Whatever the tie-breaking, a row with some logit strictly above the target's is a wrong prediction. */
  lemma BeatenTargetIsWrong(row: Row, j: nat)
    requires j < |row.logits| && 0 <= row.target < |row.logits|
    requires row.logits[row.target] < row.logits[j]
    ensures !Correct(row)
  {
  }
}
