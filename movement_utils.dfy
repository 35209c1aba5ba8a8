// MovementUtils.GetMoveDirection: the 4-way movement enum for a 3-D vector.

module MovementUtils {
  import opened Directions

  datatype MoveDirection = None | Forward | Backward | Left | Right

  /** The squared length of (x, y, z); MovementUtils compares the length with
      0.1, i.e. the squared length with 0.01. */
  function SquaredMagnitude(x: real, y: real, z: real): real { x * x + y * y + z * z }

  function GetMoveDirection(x: real, y: real, z: real): (r: MoveDirection)
    ensures r == None <==> SquaredMagnitude(x, y, z) < 0.01
    ensures r != None && Abs(x) > Abs(z) ==> (r == Right <==> x > 0.0) && (r == Left <==> x <= 0.0)
    ensures r != None && Abs(x) <= Abs(z) ==> (r == Forward <==> z > 0.0) && (r == Backward <==> z <= 0.0)
  {
    if SquaredMagnitude(x, y, z) < 0.01 then None
    else if Abs(x) > Abs(z) then (if x > 0.0 then Right else Left)
    else (if z > 0.0 then Forward else Backward)
  }

  /** None only for a near-zero vector; the four moves agree with the
      controllers' grid quantiser on the ground plane. */
  lemma MoveDirectionMatchesQuantiser(x: real, y: real, z: real)
    requires SquaredMagnitude(x, y, z) >= 0.01
    ensures var q := Closest4Direction(Vec2(x, z));
            match GetMoveDirection(x, y, z)
            case Right => q == Directions.Right
            case Left => q == Directions.Left
            case Forward => q == Directions.Forward
            case Backward => q == Back
            case None => false
  {
  }
}
