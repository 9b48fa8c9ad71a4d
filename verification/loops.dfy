/** The four loops of javascript/module4/loops.js: a capped approach loop, a
    calibration sum, the rendering of an occupancy grid and a packet sender with
    bounded retries. The values each script binds with `let` or `const` are
    parameters; the literals inside the loop bodies (the 8 cm step, the reading
    500 + 3k, the packet that loses its first two ACKs) are named here. */
module Loops {
  import opened SeqUtil

  // ---------------------------------------------------------------------------
  // 1) while: approach an obstacle, capped by a tick budget
  // ---------------------------------------------------------------------------

  /** How much closer the simulated obstacle gets on each control tick. */
  const ApproachStepCm := 8

  /** The fewest ticks after which the distance is at or below the stop distance. */
  function TicksToReach(startCm: int, stopCm: int): (n: nat)
    ensures startCm - ApproachStepCm * n <= stopCm
    ensures n > 0 ==> startCm - ApproachStepCm * (n - 1) > stopCm
  {
    if startCm <= stopCm then 0 else (startCm - stopCm + ApproachStepCm - 1) / ApproachStepCm
  }

  /** The decision printed once the loop has ended. */
  datatype ApproachOutcome = SafeDistanceReached | TickCapReached

  /** `while (distance > stop && tick < max_control_ticks)`: each tick logs the
      current distance and then moves 8 cm closer. The loop runs until the
      stop distance is reached or the tick budget is spent, whichever is first. */
  method Approach(startCm: int, stopCm: int, maxControlTicks: int)
    returns (finalCm: int, ticks: nat, logged: seq<int>, outcome: ApproachOutcome)
    ensures ticks <= Max0(maxControlTicks)
    ensures ticks == if TicksToReach(startCm, stopCm) <= Max0(maxControlTicks)
                     then TicksToReach(startCm, stopCm) else Max0(maxControlTicks)
    ensures finalCm == startCm - ApproachStepCm * ticks
    ensures |logged| == ticks
    ensures forall k :: 0 <= k < ticks ==> logged[k] == startCm - ApproachStepCm * k && logged[k] > stopCm
    ensures finalCm <= stopCm || ticks == Max0(maxControlTicks)
    ensures outcome == SafeDistanceReached <==> finalCm <= stopCm
    ensures outcome == TickCapReached ==> ticks == Max0(maxControlTicks)
  {
    var distanceCm := startCm;
    ticks := 0;
    logged := [];
    while distanceCm > stopCm && ticks < maxControlTicks
      invariant ticks <= Max0(maxControlTicks)
      invariant ticks <= TicksToReach(startCm, stopCm)
      invariant distanceCm == startCm - ApproachStepCm * ticks
      invariant |logged| == ticks
      invariant forall k :: 0 <= k < ticks ==> logged[k] == startCm - ApproachStepCm * k && logged[k] > stopCm
      decreases Max0(maxControlTicks) - ticks
    {
      ticks := ticks + 1;
      logged := logged + [distanceCm];
      distanceCm := distanceCm - ApproachStepCm;
    }
    finalCm := distanceCm;
    outcome := if finalCm <= stopCm then SafeDistanceReached else TickCapReached;
  }

  /** From 120 cm towards 25 cm with 20 ticks allowed: 12 ticks, ending at 24 cm. */
  method ApproachScenario() returns (finalCm: int, ticks: nat, outcome: ApproachOutcome)
    ensures ticks == 12 && finalCm == 24 && outcome == SafeDistanceReached
  {
    var logged;
    finalCm, ticks, logged, outcome := Approach(120, 25, 20);
  }

  // ---------------------------------------------------------------------------
  // 2) for: calibration samples
  // ---------------------------------------------------------------------------

  const ReadingBase := 500
  const ReadingSlope := 3

  /** The simulated ADC value of sample number `sampleIndex`. */
  function SimulatedReading(sampleIndex: int): int {
    ReadingBase + ReadingSlope * sampleIndex
  }

  /** Twice the sum of the first n simulated readings, in closed form. */
  function TwiceReadingTotal(n: nat): int {
    n * (2 * ReadingBase + ReadingSlope * (n + 1))
  }

  /** One more sample keeps the closed form. */
  lemma TwiceReadingTotalStep(n: nat)
    ensures TwiceReadingTotal(n + 1) == TwiceReadingTotal(n) + 2 * SimulatedReading(n + 1)
  {
  }

  /** `for (sample_index = 1; sample_index <= samples_to_take; ...)`: exactly
      `samples_to_take` samples, numbered from 1, all added to the sum. */
  method Calibrate(samplesToTake: int) returns (readings: seq<int>, sumReadings: int)
    ensures |readings| == Max0(samplesToTake)
    ensures forall k :: 0 <= k < |readings| ==> readings[k] == SimulatedReading(k + 1)
    ensures sumReadings == Sum(readings)
    ensures 2 * sumReadings == TwiceReadingTotal(|readings|)
  {
    readings := [];
    sumReadings := 0;
    var sampleIndex := 1;
    while sampleIndex <= samplesToTake
      invariant 1 <= sampleIndex <= Max0(samplesToTake) + 1
      invariant |readings| == sampleIndex - 1
      invariant forall k :: 0 <= k < |readings| ==> readings[k] == SimulatedReading(k + 1)
      invariant sumReadings == Sum(readings)
      invariant 2 * sumReadings == TwiceReadingTotal(|readings|)
    {
      var reading := SimulatedReading(sampleIndex);
      SumSnoc(readings, reading);
      TwiceReadingTotalStep(|readings|);
      readings := readings + [reading];
      sumReadings := sumReadings + reading;
      sampleIndex := sampleIndex + 1;
    }
  }

  /** Six samples: 503, 506, ..., 518, summing to 3063. */
  method CalibrationScenario() returns (sumReadings: int)
    ensures sumReadings == 3063
  {
    var readings;
    readings, sumReadings := Calibrate(6);
  }

  // ---------------------------------------------------------------------------
  // 3) nested for: occupancy grid rows
  // ---------------------------------------------------------------------------

  /** A cell is an obstacle exactly on the scanned row at one of the two
      obstacle columns; every other cell is free. Rows and columns count from 1. */
  function CellAt(r: int, c: int, scanRow: int, obstacleColA: int, obstacleColB: int): (ch: char)
    ensures ch == 'X' <==> r == scanRow && (c == obstacleColA || c == obstacleColB)
    ensures ch == 'X' || ch == '.'
  {
    if r == scanRow && (c == obstacleColA || c == obstacleColB) then 'X' else '.'
  }

  /** The row text is `grid_cols` cells, each followed by one space. */
  predicate IsRowText(rowText: string, r: int, gridCols: int, scanRow: int, obstacleColA: int, obstacleColB: int) {
    && |rowText| == 2 * Max0(gridCols)
    && forall j :: 0 <= j < |rowText| ==>
         rowText[j] == if j % 2 == 1 then ' ' else CellAt(r, j / 2 + 1, scanRow, obstacleColA, obstacleColB)
  }

  /** The inner loop: `row_text = row_text + cell + " "` for c = 1..grid_cols. */
  method RenderRow(r: int, gridCols: int, scanRow: int, obstacleColA: int, obstacleColB: int) returns (rowText: string)
    ensures IsRowText(rowText, r, gridCols, scanRow, obstacleColA, obstacleColB)
  {
    rowText := "";
    var c := 1;
    while c <= gridCols
      invariant 1 <= c <= Max0(gridCols) + 1
      invariant |rowText| == 2 * (c - 1)
      invariant forall j :: 0 <= j < |rowText| ==>
        rowText[j] == if j % 2 == 1 then ' ' else CellAt(r, j / 2 + 1, scanRow, obstacleColA, obstacleColB)
    {
      rowText := rowText + [CellAt(r, c, scanRow, obstacleColA, obstacleColB)] + " ";
      c := c + 1;
    }
  }

  /** The outer loop: one row text for each r = 1..grid_rows. */
  method RenderGrid(gridRows: int, gridCols: int, scanRow: int, obstacleColA: int, obstacleColB: int)
    returns (rows: seq<string>)
    ensures |rows| == Max0(gridRows)
    ensures forall i :: 0 <= i < |rows| ==> IsRowText(rows[i], i + 1, gridCols, scanRow, obstacleColA, obstacleColB)
  {
    rows := [];
    var r := 1;
    while r <= gridRows
      invariant 1 <= r <= Max0(gridRows) + 1
      invariant |rows| == r - 1
      invariant forall i :: 0 <= i < |rows| ==> IsRowText(rows[i], i + 1, gridCols, scanRow, obstacleColA, obstacleColB)
    {
      var rowText := RenderRow(r, gridCols, scanRow, obstacleColA, obstacleColB);
      rows := rows + [rowText];
      r := r + 1;
    }
  }

  /** A row text is determined by its parameters. */
  lemma RowTextUnique(a: string, b: string, r: int, gridCols: int, scanRow: int, obstacleColA: int, obstacleColB: int)
    requires IsRowText(a, r, gridCols, scanRow, obstacleColA, obstacleColB)
    requires IsRowText(b, r, gridCols, scanRow, obstacleColA, obstacleColB)
    ensures a == b
  {
  }

  /** A 3 x 5 grid scanned on row 2 with obstacles in columns 2 and 4. */
  method GridScenario() returns (rows: seq<string>)
    ensures rows == [". . . . . ", ". X . X . ", ". . . . . "]
  {
    rows := RenderGrid(3, 5, 2, 2, 4);
    assert IsRowText(". . . . . ", 1, 5, 2, 2, 4);
    assert IsRowText(". X . X . ", 2, 5, 2, 2, 4);
    assert IsRowText(". . . . . ", 3, 5, 2, 2, 4);
    RowTextUnique(rows[0], ". . . . . ", 1, 5, 2, 2, 4);
    RowTextUnique(rows[1], ". X . X . ", 2, 5, 2, 2, 4);
    RowTextUnique(rows[2], ". . . . . ", 3, 5, 2, 2, 4);
  }

  // ---------------------------------------------------------------------------
  // 4) nested while: packets with bounded retries
  // ---------------------------------------------------------------------------

  /** The ACK rule the script simulates: packet 2 fails its first two attempts. */
  function ScriptAck(packetId: int, attempt: int): bool {
    !(packetId == 2 && attempt <= 2)
  }

  /** Some attempt within the budget is acknowledged. */
  predicate AckedWithin(packetId: int, maxAttempts: int, ack: (int, int) -> bool) {
    exists a :: 1 <= a <= maxAttempts && ack(packetId, a)
  }

  /** The attempts of one packet, given by the ACK each attempt saw. */
  predicate IsAttemptLog(acks: seq<bool>, packetId: int, maxAttempts: int, ack: (int, int) -> bool) {
    && |acks| <= Max0(maxAttempts)
    && (forall k :: 0 <= k < |acks| ==> acks[k] == ack(packetId, k + 1))
    && (forall k :: 0 <= k < |acks| - 1 ==> !acks[k])
    && (|acks| == Max0(maxAttempts) || (|acks| > 0 && acks[|acks| - 1]))
  }

  /** The inner loop: attempt 1, 2, ... until an ACK arrives or `max_attempts`
      attempts have been made. The packet is delivered iff some attempt within
      the budget is acknowledged, and it is then the first such attempt. */
  method SendWithRetries(packetId: int, maxAttempts: int, ack: (int, int) -> bool)
    returns (delivered: bool, acks: seq<bool>)
    ensures IsAttemptLog(acks, packetId, maxAttempts, ack)
    ensures delivered <==> AckedWithin(packetId, maxAttempts, ack)
    ensures delivered <==> |acks| > 0 && acks[|acks| - 1]
  {
    var attempt := 1;
    delivered := false;
    acks := [];
    while attempt <= maxAttempts && !delivered
      invariant 1 <= attempt <= Max0(maxAttempts) + 1
      invariant |acks| == (if delivered then attempt else attempt - 1)
      invariant forall k :: 0 <= k < |acks| ==> acks[k] == ack(packetId, k + 1)
      invariant forall k :: 0 <= k < attempt - 1 ==> !acks[k]
      invariant delivered ==> attempt <= maxAttempts && acks[attempt - 1]
      decreases Max0(maxAttempts) + 1 - attempt, !delivered
    {
      var ackOk := ack(packetId, attempt);
      acks := acks + [ackOk];
      if ackOk {
        delivered := true;
      } else {
        attempt := attempt + 1;
      }
    }
    if delivered {
      assert ack(packetId, attempt);
    } else {
      assert forall a :: 1 <= a <= maxAttempts ==> !ack(packetId, a) by {
        forall a | 1 <= a <= maxAttempts
          ensures !ack(packetId, a)
        {
          assert !acks[a - 1];
        }
      }
    }
  }

  /** The result line printed for one packet. */
  datatype PacketResult = PacketResult(packetId: int, delivered: bool, acks: seq<bool>)

  /** The outer loop: packets 1..`packets_to_send`, in order, each with its own
      retry budget. */
  method SendPackets(packetsToSend: int, maxAttempts: int, ack: (int, int) -> bool)
    returns (results: seq<PacketResult>)
    ensures |results| == Max0(packetsToSend)
    ensures forall i :: 0 <= i < |results| ==> results[i].packetId == i + 1
    ensures forall i :: 0 <= i < |results| ==> IsAttemptLog(results[i].acks, i + 1, maxAttempts, ack)
    ensures forall i :: 0 <= i < |results| ==>
      (results[i].delivered <==> AckedWithin(i + 1, maxAttempts, ack))
  {
    results := [];
    var packetId := 1;
    while packetId <= packetsToSend
      invariant 1 <= packetId <= Max0(packetsToSend) + 1
      invariant |results| == packetId - 1
      invariant forall i :: 0 <= i < |results| ==> results[i].packetId == i + 1
      invariant forall i :: 0 <= i < |results| ==> IsAttemptLog(results[i].acks, i + 1, maxAttempts, ack)
      invariant forall i :: 0 <= i < |results| ==>
        (results[i].delivered <==> AckedWithin(i + 1, maxAttempts, ack))
    {
      var delivered, acks := SendWithRetries(packetId, maxAttempts, ack);
      results := results + [PacketResult(packetId, delivered, acks)];
      packetId := packetId + 1;
    }
  }

  /** An attempt log is determined by the packet, the budget and the ACK rule. */
  lemma AttemptLogUnique(a: seq<bool>, b: seq<bool>, packetId: int, maxAttempts: int, ack: (int, int) -> bool)
    requires IsAttemptLog(a, packetId, maxAttempts, ack)
    requires IsAttemptLog(b, packetId, maxAttempts, ack)
    ensures a == b
  {
    assert forall k :: 0 <= k < |a| && k < |b| ==> a[k] == b[k];
  }

  /** Three packets with four attempts each under the script's ACK rule:
      packet 2 is delivered on attempt 3, the others on attempt 1. */
  method RetryScenario() returns (results: seq<PacketResult>)
    ensures results == [PacketResult(1, true, [true]),
                        PacketResult(2, true, [false, false, true]),
                        PacketResult(3, true, [true])]
  {
    results := SendPackets(3, 4, ScriptAck);
    assert IsAttemptLog([true], 1, 4, ScriptAck);
    assert IsAttemptLog([false, false, true], 2, 4, ScriptAck);
    assert IsAttemptLog([true], 3, 4, ScriptAck);
    AttemptLogUnique(results[0].acks, [true], 1, 4, ScriptAck);
    AttemptLogUnique(results[1].acks, [false, false, true], 2, 4, ScriptAck);
    AttemptLogUnique(results[2].acks, [true], 3, 4, ScriptAck);
    assert ScriptAck(1, 1) && ScriptAck(2, 3) && ScriptAck(3, 1);
  }
}
