/// The movement classifier of the firmware (`get_direction_str`): a pair of
/// motor commands is named by the direction the gantry moves in, for the
/// diagnostic display.
///
/// With the H-bot mapping motor A takes x + y and motor B takes x - y, so
/// the sum of the commands is twice the x (right/left) command and their
/// difference twice the y (up/down) command.
module Direction {
  import opened Ints
  import opened Wrappers

  /// Commands of smaller magnitude do not count as movement.
  const Threshold: int := 20

  datatype Label =
    | Stop | Right | RightUp | RightDn | Left | LeftUp | LeftDn | Up | UpLeft | Down | DownRt

  /// The string the firmware returns for each label.
  function Text(l: Label): (s: string)
    ensures 0 < |s| <= 8
  {
    match l
    case Stop => "STOP"
    case Right => "RIGHT"
    case RightUp => "RIGHT-UP"
    case RightDn => "RIGHT-DN"
    case Left => "LEFT"
    case LeftUp => "LEFT-UP"
    case LeftDn => "LEFT-DN"
    case Up => "UP"
    case UpLeft => "UP-LEFT"
    case Down => "DOWN"
    case DownRt => "DOWN-RT"
  }

  /// The label a displayed string names, if any.
  function LabelOf(s: string): Option<Label>
  {
    if s == "STOP" then Some(Stop)
    else if s == "RIGHT" then Some(Right)
    else if s == "RIGHT-UP" then Some(RightUp)
    else if s == "RIGHT-DN" then Some(RightDn)
    else if s == "LEFT" then Some(Left)
    else if s == "LEFT-UP" then Some(LeftUp)
    else if s == "LEFT-DN" then Some(LeftDn)
    else if s == "UP" then Some(Up)
    else if s == "UP-LEFT" then Some(UpLeft)
    else if s == "DOWN" then Some(Down)
    else if s == "DOWN-RT" then Some(DownRt)
    else None
  }

  /// The string names its label: reading it back gives the label.
  lemma TextNamesLabel(l: Label)
    ensures LabelOf(Text(l)) == Some(l)
  {
  }

  /// Different labels are different strings.
  lemma TextInjective(l1: Label, l2: Label)
    requires Text(l1) == Text(l2)
    ensures l1 == l2
  {
    TextNamesLabel(l1);
    TextNamesLabel(l2);
  }

  datatype Sense = Positive | Negative | Neither

  /// The right (Positive) / left (Negative) part of a label.
  function Horizontal(l: Label): Sense
  {
    match l
    case Right | RightUp | RightDn | DownRt => Positive
    case Left | LeftUp | LeftDn | UpLeft => Negative
    case Stop | Up | Down => Neither
  }

  /// The up (Positive) / down (Negative) part of a label.
  function Vertical(l: Label): Sense
  {
    match l
    case RightUp | LeftUp | Up | UpLeft => Positive
    case RightDn | LeftDn | Down | DownRt => Negative
    case Stop | Right | Left => Neither
  }

  /// `get_direction_str(motor_a, motor_b)` as written.
  function DirectionOf(a: int, b: int): (l: Label)
    ensures l == Stop <==> Abs(a) <= Threshold && Abs(b) <= Threshold
    ensures Horizontal(l) == Positive ==> a + b > 0
    ensures Horizontal(l) == Negative ==> a + b < 0
  {
    var t := Threshold;
    if Abs(a) < t && Abs(b) < t then Stop
    else if a > t && b > t then
      (if Abs(a - b) < t then Right else if a > b then RightUp else RightDn)
    else if a < -t && b < -t then
      (if Abs(a - b) < t then Left else if a < b then LeftUp else LeftDn)
    else if a > t && b < -t then
      (if Abs(a + b) < t then Up else if a > Abs(b) then RightUp else UpLeft)
    else if a < -t && b > t then
      (if Abs(a + b) < t then Down else if Abs(a) > b then LeftDn else DownRt)
    else if a > t then RightUp
    else if a < -t then LeftDn
    else if b > t then Down
    else if b < -t then Up
    else Stop
  }

  /// `get_direction_str(motor_a, motor_b)`: the string shown on the display.
  function GetDirectionStr(a: int, b: int): (s: string)
    ensures 0 < |s| <= 8
    ensures s == "STOP" <==> Abs(a) <= Threshold && Abs(b) <= Threshold
    ensures LabelOf(s) == Some(DirectionOf(a, b))
  {
    TextNamesLabel(DirectionOf(a, b));
    Text(DirectionOf(a, b))
  }

  /// In the branch where both commands are below -20 the up/down part is
  /// inverted: x = -100, y = 50 gives motor commands (-50, -150), a motion
  /// to the left and up (a > b), which is labelled "LEFT-DN".
  lemma BothReverseLabelInverted()
    ensures DirectionOf(-50, -150) == LeftDn
    ensures Vertical(DirectionOf(-50, -150)) == Negative && -50 > -150
  {
  }

  /// The classifier with the both-negative branch labelled as every other
  /// branch labels it (a > b means up).
  function DirectionOfCorrected(a: int, b: int): (l: Label)
    ensures l == Stop <==> Abs(a) <= Threshold && Abs(b) <= Threshold
    ensures Horizontal(l) == Positive ==> a + b > 0
    ensures Horizontal(l) == Negative ==> a + b < 0
    ensures Vertical(l) == Positive ==> a > b
    ensures Vertical(l) == Negative ==> a < b
  {
    var t := Threshold;
    if a < -t && b < -t then
      (if Abs(a - b) < t then Left else if a > b then LeftUp else LeftDn)
    else DirectionOf(a, b)
  }
}
