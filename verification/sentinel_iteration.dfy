/** The two sentinel-controlled loops of
    javascript/module4/sentinel_controlled_iteration.js: read the first item,
    then process and read the next one for as long as the item read is not the
    sentinel. */
module SentinelIteration {

  /** The position of the first occurrence of `x`. */
  function FirstIndexOf<T(==)>(items: seq<T>, x: T): (i: nat)
    requires x in items
    ensures i < |items| && items[i] == x
    ensures x !in items[..i]
  {
    if items[0] == x then 0
    else
      var j := FirstIndexOf(items[1..], x);
      assert items[..j + 1] == [items[0]] + items[1..][..j];
      j + 1
  }

  /** The scan processes exactly the items before the first sentinel, in order,
      and counts them. Items after the sentinel are never read. The read index
      ends one past the sentinel, because it is advanced after every read.
      The source reads past the end of the array when no sentinel is there and
      then never stops, so the sentinel's presence is required. */
  method ScanUntilSentinel<T(==)>(items: seq<T>, sentinel: T) returns (processed: seq<T>, count: nat, nextIndex: nat)
    requires sentinel in items
    ensures processed == items[..FirstIndexOf(items, sentinel)]
    ensures count == |processed| == FirstIndexOf(items, sentinel)
    ensures sentinel !in processed
    ensures nextIndex == count + 1
  {
    ghost var stopAt := FirstIndexOf(items, sentinel);
    processed := [];
    count := 0;
    nextIndex := 0;
    var current := items[nextIndex];
    nextIndex := nextIndex + 1;
    while current != sentinel
      invariant count <= stopAt
      invariant nextIndex == count + 1
      invariant current == items[count]
      invariant processed == items[..count]
      decreases stopAt - count
    {
      processed := processed + [current];
      count := count + 1;
      current := items[nextIndex];
      nextIndex := nextIndex + 1;
    }
  }

  /** A sequence that starts with the sentinel processes nothing: the loop
      reads only the sentinel and stops. */
  method SentinelFirstScan<T(==)>(items: seq<T>, sentinel: T) returns (processed: seq<T>, count: nat)
    requires |items| > 0 && items[0] == sentinel
    ensures processed == [] && count == 0
  {
    var nextIndex;
    processed, count, nextIndex := ScanUntilSentinel(items, sentinel);
  }

  /** Packages until the "STOP" barcode: four are scanned and "PKG005", which
      comes after it, is not. */
  method PackageScenario() returns (scanned: seq<string>, packagesScanned: nat)
    ensures scanned == ["PKG001", "PKG002", "PKG003", "PKG004"]
    ensures packagesScanned == 4
    ensures "PKG005" !in scanned
  {
    var barcodes := ["PKG001", "PKG002", "PKG003", "PKG004", "STOP", "PKG005"];
    assert barcodes[4] == "STOP";
    assert FirstIndexOf(barcodes, "STOP") == 4 by {
      var i := FirstIndexOf(barcodes, "STOP");
      assert barcodes[..4] == ["PKG001", "PKG002", "PKG003", "PKG004"];
    }
    var nextIndex;
    scanned, packagesScanned, nextIndex := ScanUntilSentinel(barcodes, "STOP");
  }

  /** Commands until "END": six are executed and "BACKWARD", which comes after
      it, is not. */
  method CommandScenario() returns (executed: seq<string>, commandsExecuted: nat)
    ensures executed == ["FORWARD", "FORWARD", "LEFT", "FORWARD", "RIGHT", "FORWARD"]
    ensures commandsExecuted == 6
    ensures "BACKWARD" !in executed
  {
    var commands := ["FORWARD", "FORWARD", "LEFT", "FORWARD", "RIGHT", "FORWARD", "END", "BACKWARD"];
    assert commands[6] == "END";
    assert FirstIndexOf(commands, "END") == 6 by {
      var i := FirstIndexOf(commands, "END");
      assert commands[..6] == ["FORWARD", "FORWARD", "LEFT", "FORWARD", "RIGHT", "FORWARD"];
    }
    var nextIndex;
    executed, commandsExecuted, nextIndex := ScanUntilSentinel(commands, "END");
  }
}
