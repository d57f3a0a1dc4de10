/** The robot: current pose and the pose it restarts from (src/components/robot.rs). */
module Robots {
  import opened Controls

  /** The value of a robot: where it is, where it faces, and the start pose it returns to. */
  datatype RobotData = RobotData(
    x: int, y: int, direction: Direction,
    startX: int, startY: int, startDirection: Direction)
  {
    function ResetToStart(): RobotData {
      this.(x := startX, y := startY, direction := startDirection)
    }

    function TurnedLeft(): RobotData {
      this.(direction := direction.TurnLeft())
    }

    function TurnedRight(): RobotData {
      this.(direction := direction.TurnRight())
    }
  }

  /** A left turn followed by a right turn, or the reverse, leaves the whole robot unchanged. */
  lemma TurnRoundTrip(r: RobotData)
    ensures r.TurnedLeft().TurnedRight() == r
    ensures r.TurnedRight().TurnedLeft() == r
  {
    TurnsAreInverse(r.direction);
  }

  /** Resetting puts the robot on its start pose, keeps the start pose, and a second reset changes nothing. */
  lemma ResetRestoresStart(r: RobotData)
    ensures var s := r.ResetToStart();
            s.x == r.startX && s.y == r.startY && s.direction == r.startDirection
            && s.startX == r.startX && s.startY == r.startY && s.startDirection == r.startDirection
            && s.ResetToStart() == s
  {
  }

  /** The robot component, whose pose is updated in place. */
  class Robot {
    var x: int
    var y: int
    var direction: Direction
    var startX: int
    var startY: int
    var startDirection: Direction

    /** `Robot::new`: the start pose is the initial pose. */
    constructor (x: int, y: int, direction: Direction)
      ensures Data() == RobotData(x, y, direction, x, y, direction)
    {
      this.x := x;
      this.y := y;
      this.direction := direction;
      this.startX := x;
      this.startY := y;
      this.startDirection := direction;
    }

    function Data(): RobotData
      reads this
    {
      RobotData(x, y, direction, startX, startY, startDirection)
    }

    /** `reset_to_start`: the pose becomes the start pose, which is kept. */
    method ResetToStart()
      modifies this
      ensures x == startX && y == startY && direction == startDirection
      ensures startX == old(startX) && startY == old(startY) && startDirection == old(startDirection)
      ensures Data() == old(Data()).ResetToStart()
    {
      x := startX;
      y := startY;
      direction := startDirection;
    }

    /** `move_forward`: one step along the heading; heading and start pose unchanged. */
    method MoveForward()
      modifies this
      ensures x == old(x) + old(direction).Offset().0 && y == old(y) + old(direction).Offset().1
      ensures direction == old(direction)
      ensures startX == old(startX) && startY == old(startY) && startDirection == old(startDirection)
    {
      var (dx, dy) := direction.Offset();
      x := x + dx;
      y := y + dy;
    }

    /** `turn_left`: only the heading changes. */
    method TurnLeft()
      modifies this
      ensures direction == old(direction).TurnLeft()
      ensures x == old(x) && y == old(y)
      ensures startX == old(startX) && startY == old(startY) && startDirection == old(startDirection)
      ensures Data() == old(Data()).TurnedLeft()
    {
      direction := direction.TurnLeft();
    }

    /** `turn_right`: only the heading changes. */
    method TurnRight()
      modifies this
      ensures direction == old(direction).TurnRight()
      ensures x == old(x) && y == old(y)
      ensures startX == old(startX) && startY == old(startY) && startDirection == old(startDirection)
      ensures Data() == old(Data()).TurnedRight()
    {
      direction := direction.TurnRight();
    }
  }
}
