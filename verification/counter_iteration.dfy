/** The two counter-controlled loops of
    javascript/module4/counter_controlled_iteration.js. */
module CounterIteration {
  import opened SeqUtil

  /** `while (tiles_moved < target_tiles) { ++tiles_moved; ... }`: the counter
      starts at 0, rises by one per iteration and stops at the target; the
      progress values reported are 1, 2, ..., target in order. A negative
      target runs no iteration. */
  method DriveTiles(targetTiles: int) returns (tilesMoved: int, progress: seq<int>)
    ensures tilesMoved == Max0(targetTiles)
    ensures |progress| == tilesMoved
    ensures forall k :: 0 <= k < |progress| ==> progress[k] == k + 1
  {
    tilesMoved := 0;
    progress := [];
    while tilesMoved < targetTiles
      invariant 0 <= tilesMoved <= Max0(targetTiles)
      invariant progress == CountUpTo(tilesMoved)
    {
      tilesMoved := tilesMoved + 1;
      progress := progress + [tilesMoved];
    }
  }

  /** `for (bolt_number = 1; bolt_number <= total_bolts; bolt_number++)`:
      bolts 1..total_bolts, ascending, each exactly once. */
  method TightenBolts(totalBolts: int) returns (tightened: seq<int>)
    ensures |tightened| == Max0(totalBolts)
    ensures forall k :: 0 <= k < |tightened| ==> tightened[k] == k + 1
    ensures forall i, j :: 0 <= i < j < |tightened| ==> tightened[i] < tightened[j]
    ensures forall b :: b in tightened <==> 1 <= b <= totalBolts
  {
    tightened := [];
    var boltNumber := 1;
    while boltNumber <= totalBolts
      invariant 1 <= boltNumber <= Max0(totalBolts) + 1
      invariant tightened == CountUpTo(boltNumber - 1)
    {
      tightened := tightened + [boltNumber];
      boltNumber := boltNumber + 1;
    }
    CountUpToIsOneThroughN(totalBolts);
  }

  /** The count 1..n is strictly ascending and holds exactly the numbers 1..n. */
  lemma CountUpToIsOneThroughN(n: int)
    ensures forall i, j :: 0 <= i < j < |CountUpTo(n)| ==> CountUpTo(n)[i] < CountUpTo(n)[j]
    ensures forall b :: b in CountUpTo(n) <==> 1 <= b <= n
  {
  }

  /** Six tiles and five bolts, as in the script. */
  method ScriptCounts() returns (tilesMoved: int, progress: seq<int>, bolts: seq<int>)
    ensures tilesMoved == 6 && progress == [1, 2, 3, 4, 5, 6]
    ensures bolts == [1, 2, 3, 4, 5]
  {
    tilesMoved, progress := DriveTiles(6);
    bolts := TightenBolts(5);
  }
}
