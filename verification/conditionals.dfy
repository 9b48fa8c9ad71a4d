/** The decision logic of javascript/module4/condiotionals.js: each reading or
    flag the script binds with `let` or `const` becomes a parameter, the literals
    inside the branches (the temperature bands, the power table) are named
    constants, and each chain of `if`s is a total function to the decision it
    prints. */
module Conditionals {

  // ---------------------------------------------------------------------------
  // 1) single selection: stop when too close
  // ---------------------------------------------------------------------------

  /** The `if` of the first example: whether the STOP branch runs. */
  function ShouldStop(frontDistanceCm: int, stopDistanceCm: int): bool {
    frontDistanceCm < stopDistanceCm
  }

  /** The comparison is strict: standing exactly at the stop distance does not
      stop the robot, one centimetre closer does, and the decision is monotone
      in the distance both ways. */
  lemma StopBoundary(stopDistanceCm: int, closer: int, farther: int)
    requires closer <= farther
    ensures !ShouldStop(stopDistanceCm, stopDistanceCm)
    ensures ShouldStop(stopDistanceCm - 1, stopDistanceCm)
    ensures ShouldStop(farther, stopDistanceCm) ==> ShouldStop(closer, stopDistanceCm)
    ensures !ShouldStop(closer, stopDistanceCm) ==> !ShouldStop(farther, stopDistanceCm)
  {
  }

  // ---------------------------------------------------------------------------
  // 2) double selection: battery safety
  // ---------------------------------------------------------------------------

  /** Exactly one of the two battery branches. */
  datatype BatteryDecision = OkToMove | ReturnToBase {
    /** The simulated `drive_enabled` actuator. */
    predicate DriveEnabled() {
      OkToMove?
    }
  }

  function BatteryCheck(batteryPercent: int, minimumSafePercent: int): (d: BatteryDecision)
    ensures d == OkToMove <==> batteryPercent >= minimumSafePercent
    ensures d == ReturnToBase <==> batteryPercent < minimumSafePercent
  {
    if batteryPercent >= minimumSafePercent then OkToMove else ReturnToBase
  }

  /** More charge never turns a permission to move into a refusal. */
  lemma BatteryMonotone(lower: int, higher: int, minimumSafePercent: int)
    requires lower <= higher
    ensures BatteryCheck(lower, minimumSafePercent).DriveEnabled() ==> BatteryCheck(higher, minimumSafePercent).DriveEnabled()
  {
  }

  // ---------------------------------------------------------------------------
  // 3) else-if chain: motor temperature bands
  // ---------------------------------------------------------------------------

  datatype TempBand = Cool | Warm | Hot | Critical

  const CoolBelowC := 60
  const WarmBelowC := 75
  const HotBelowC := 85

  /** The first test of the chain that succeeds picks the band; the bands are
      the half-open intervals below 60, [60, 75), [75, 85) and from 85 up. */
  function Band(motorTempC: int): (b: TempBand)
    ensures b == Cool <==> motorTempC < CoolBelowC
    ensures b == Warm <==> CoolBelowC <= motorTempC < WarmBelowC
    ensures b == Hot <==> WarmBelowC <= motorTempC < HotBelowC
    ensures b == Critical <==> HotBelowC <= motorTempC
  {
    if motorTempC < CoolBelowC then Cool
    else if motorTempC < WarmBelowC then Warm
    else if motorTempC < HotBelowC then Hot
    else Critical
  }

  /** The simulated `power_limit` of each band, in percent. */
  function PowerLimitPercent(b: TempBand): (p: nat)
    ensures p <= 100
    ensures p == 100 <==> b == Cool
    ensures p == 0 <==> b == Critical
  {
    match b
    case Cool => 100
    case Warm => 70
    case Hot => 40
    case Critical => 0
  }

  /** A hotter motor is never allowed more power. */
  lemma PowerLimitNonIncreasing(coolerC: int, hotterC: int)
    requires coolerC <= hotterC
    ensures PowerLimitPercent(Band(hotterC)) <= PowerLimitPercent(Band(coolerC))
  {
  }

  // ---------------------------------------------------------------------------
  // 4) compound conditions: the safety gate
  // ---------------------------------------------------------------------------

  /** The reasons the UNSAFE branch prints, in the order it tests them. */
  datatype Reason = EStopPressed | CliffDetected | RadioLinkLost

  function ReasonRank(r: Reason): nat {
    match r
    case EStopPressed => 0
    case CliffDetected => 1
    case RadioLinkLost => 2
  }

  datatype GateDecision = Safe | Unsafe(reasons: seq<Reason>)

  /** Movement is allowed only when no check fails; otherwise every failing
      check is reported once, in test order, and at least one is reported. */
  function SafetyGate(estopPressed: bool, cliffDetected: bool, radioLinkOk: bool): (d: GateDecision)
    ensures d == Safe <==> !estopPressed && !cliffDetected && radioLinkOk
    ensures d.Unsafe? ==> |d.reasons| > 0
    ensures d.Unsafe? ==> (EStopPressed in d.reasons <==> estopPressed)
    ensures d.Unsafe? ==> (CliffDetected in d.reasons <==> cliffDetected)
    ensures d.Unsafe? ==> (RadioLinkLost in d.reasons <==> !radioLinkOk)
    ensures d.Unsafe? ==> forall i, j :: 0 <= i < j < |d.reasons| ==> ReasonRank(d.reasons[i]) < ReasonRank(d.reasons[j])
  {
    if !estopPressed && !cliffDetected && radioLinkOk then Safe
    else Unsafe((if estopPressed then [EStopPressed] else [])
              + (if cliffDetected then [CliffDetected] else [])
              + (if !radioLinkOk then [RadioLinkLost] else []))
  }

  // ---------------------------------------------------------------------------
  // 5) nested if: grasp mode
  // ---------------------------------------------------------------------------

  datatype GraspMode = Gentle | Standard
  datatype GripperForce = Low | Medium
  datatype GraspDecision = DoNotGrasp | AttemptGrasp(mode: GraspMode)

  function GraspDecide(objectDetected: bool, objectFragile: bool): (d: GraspDecision)
    ensures d.AttemptGrasp? <==> objectDetected
    ensures d == AttemptGrasp(Gentle) <==> objectDetected && objectFragile
    ensures d == AttemptGrasp(Standard) <==> objectDetected && !objectFragile
  {
    if objectDetected then
      if objectFragile then AttemptGrasp(Gentle) else AttemptGrasp(Standard)
    else DoNotGrasp
  }

  /** The simulated `gripper_force` of each mode: a fragile object gets the low force. */
  function ForceFor(mode: GraspMode): (f: GripperForce)
    ensures f == Low <==> mode == Gentle
  {
    match mode
    case Gentle => Low
    case Standard => Medium
  }

  // ---------------------------------------------------------------------------
  // 6) switch: robot mode selector
  // ---------------------------------------------------------------------------

  /** The branch the `switch` takes. */
  datatype ModeBranch = IdleBranch | AutoBranch | TeleopBranch | DiagnosticsBranch | UnknownBranch

  /** The mode the robot ends up operating in. */
  datatype RobotMode = Idle | Auto | Teleop | Diagnostics

  /** Strict string comparison against each case label; anything else,
      including a differently cased label, takes the default branch. */
  function SelectBranch(robotMode: string): (b: ModeBranch)
    ensures b == IdleBranch <==> robotMode == "IDLE"
    ensures b == AutoBranch <==> robotMode == "AUTO"
    ensures b == TeleopBranch <==> robotMode == "TELEOP"
    ensures b == DiagnosticsBranch <==> robotMode == "DIAGNOSTICS"
    ensures b == UnknownBranch <==> robotMode !in {"IDLE", "AUTO", "TELEOP", "DIAGNOSTICS"}
  {
    if robotMode == "IDLE" then IdleBranch
    else if robotMode == "AUTO" then AutoBranch
    else if robotMode == "TELEOP" then TeleopBranch
    else if robotMode == "DIAGNOSTICS" then DiagnosticsBranch
    else UnknownBranch
  }

  /** The default branch fails safe: it is treated as IDLE. */
  function EffectiveMode(b: ModeBranch): (m: RobotMode)
    ensures m == Idle <==> b == IdleBranch || b == UnknownBranch
    ensures b == AutoBranch <==> m == Auto
  {
    match b
    case IdleBranch => Idle
    case AutoBranch => Auto
    case TeleopBranch => Teleop
    case DiagnosticsBranch => Diagnostics
    case UnknownBranch => Idle
  }

  /** Only the exact labels "AUTO", "TELEOP" and "DIAGNOSTICS" leave IDLE; every
      other string, known or not, ends up in IDLE. */
  lemma OnlyExactLabelsLeaveIdle(robotMode: string)
    ensures EffectiveMode(SelectBranch(robotMode)) != Idle <==> robotMode in {"AUTO", "TELEOP", "DIAGNOSTICS"}
  {
  }

  /** The script's inputs: 18 cm against 20 cm, 12 % against 15 %, 72 degrees,
      no fault flags, a fragile detected object and mode "AUTO". */
  lemma ScriptDecisions()
    ensures ShouldStop(18, 20)
    ensures BatteryCheck(12, 15) == ReturnToBase
    ensures Band(72) == Warm && PowerLimitPercent(Band(72)) == 70
    ensures SafetyGate(false, false, true) == Safe
    ensures GraspDecide(true, true) == AttemptGrasp(Gentle)
    ensures SelectBranch("AUTO") == AutoBranch
  {
  }
}
