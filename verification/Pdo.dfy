// The EtherCAT process image: what the master sends to the six drive axes in one
// exchange, and what the drives report back. The image holds two axes for each of
// the three slaves, in bus order.
module Pdo {
  import opened Words
  import RobotJoint
  import opened RobotTrajectory

  const AXIS_COUNT := 6

  // Objects 6040h, 6060h, 607Ah, 6071h and the velocity feed-forward of one axis.
  datatype AxisOut = AxisOut(controlword: U16, mode: int, target: I32, torque: int, feedForward: int)

  // Objects 6041h, 6064h, 606Ch, 6061h and 603Fh of one axis.
  datatype AxisIn = AxisIn(statusword: bv16, position: I32, velocity: I32, modeDisplay: int, errorCode: int)

  type Image = m: seq<AxisOut> | |m| == AXIS_COUNT
    witness seq(AXIS_COUNT, _ => AxisOut(0, 0, 0, 0, 0))

  type Inputs = m: seq<AxisIn> | |m| == AXIS_COUNT
    witness seq(AXIS_COUNT, _ => AxisIn(0, 0, 0, 0, 0))

  // Place of a slave's axis in the image.
  function Slot(slave: int, axis: int): (k: nat)
    requires 1 <= slave <= 3 && 1 <= axis <= 2
    ensures k < AXIS_COUNT
  {
    2 * (slave - 1) + axis - 1
  }

  function JointSlot(joint: nat): nat
    requires joint < JOINT_COUNT
  {
    Slot(RobotJoint.TABLE[joint].slave, RobotJoint.TABLE[joint].axis)
  }

  // The joint that a slot moves: the first slave's axes are swapped.
  function SlotJoint(k: nat): nat { if k == 0 then 1 else if k == 1 then 0 else k }

  lemma SlotsAndJoints(k: nat)
    requires k < AXIS_COUNT
    ensures SlotJoint(k) < JOINT_COUNT && JointSlot(SlotJoint(k)) == k
    ensures JointSlot(k) < AXIS_COUNT && SlotJoint(JointSlot(k)) == k
  {
  }

  const MODE_CSP := 8
  const CONTROLWORD_MOVE: U16 := 0x001F
  const CONTROLWORD_QUICK_STOP: U16 := 0x000B

  function PlacePoint(image: Image, target: Target): Image {
    seq(AXIS_COUNT, k requires 0 <= k < AXIS_COUNT =>
      image[k].(controlword := CONTROLWORD_MOVE, target := target[SlotJoint(k)]))
  }

  // Every target follows the measured position.
  function Relatched(image: Image, inputs: Inputs): Image {
    seq(AXIS_COUNT, k requires 0 <= k < AXIS_COUNT => image[k].(target := inputs[k].position))
  }

  function WithControlword(image: Image, controlword: U16): Image {
    seq(AXIS_COUNT, k requires 0 <= k < AXIS_COUNT => image[k].(controlword := controlword))
  }

  predicate AllControlwords(image: Image, controlword: U16) {
    forall k :: 0 <= k < AXIS_COUNT ==> image[k].controlword == controlword
  }

  predicate AllModes(image: Image, mode: int) {
    forall k :: 0 <= k < AXIS_COUNT ==> image[k].mode == mode
  }

  predicate StatusMatches(axis: AxisIn, mask: bv16, value: bv16) { axis.statusword & mask == value }

  predicate HasFault(axis: AxisIn) { axis.statusword & 0x0008 != 0 }

  predicate AllMatch(inputs: Inputs, mask: bv16, value: bv16) {
    forall k :: 0 <= k < AXIS_COUNT ==> StatusMatches(inputs[k], mask, value)
  }

  predicate FaultFound(inputs: Inputs) { exists k :: 0 <= k < AXIS_COUNT && HasFault(inputs[k]) }

  // The image commands exactly this point: each joint's target at its own slave and axis.
  predicate HoldsTargets(image: Image, target: Target) {
    forall j :: 0 <= j < JOINT_COUNT ==>
      image[JointSlot(j)].target == target[j] && image[JointSlot(j)].controlword == CONTROLWORD_MOVE
  }

  lemma PlacedPointIsHeld(image: Image, target: Target)
    ensures HoldsTargets(PlacePoint(image, target), target)
    ensures forall k :: 0 <= k < AXIS_COUNT ==> PlacePoint(image, target)[k].mode == image[k].mode
  {
    forall j | 0 <= j < JOINT_COUNT
      ensures JointSlot(j) < AXIS_COUNT && SlotJoint(JointSlot(j)) == j
    {
      SlotsAndJoints(j);
    }
  }

  // Two points that the same image holds have the same six targets.
  lemma HeldTargetsAreUnique(image: Image, t: Target, u: Target)
    requires HoldsTargets(image, t) && HoldsTargets(image, u)
    ensures t == u
  {
    forall j | 0 <= j < JOINT_COUNT ensures t[j] == u[j] {
      assert image[JointSlot(j)].target == t[j];
    }
  }
}
