/**
 * Keyboard and on-screen d-pad controls: which key or button issues which jump,
 * depending on the level's dimension and, in 3D, on the active slice plane.
 */
module Controls {
  import opened RealMath
  import opened Levels
  import opened Motion
  import opened Play

  /** The keys the game reacts to; `q`/`Q` and `e`/`E` are one key each. */
  datatype Key =
    | ArrowLeft | ArrowRight | ArrowUp | ArrowDown
    | KeyQ | KeyE | Digit1 | Digit2 | Digit3 | Escape | OtherKey

  /** The slice plane the arrow keys act on in 3D. */
  datatype Slice = XY | XZ | YZ

  datatype Button = Up | Down | Left | Right | ZUp | ZDown

  /** What a key press or button press asks the game to do. */
  datatype Command = NoOp | Pause | Focus(slice: Slice) | Press(input: Input)

  /** Exactly one axis is pressed, by one unit. */
  predicate UnitAxis(i: Input)
  {
    || (i.dx != 0 && i.dy == 0 && i.dz == 0)
    || (i.dx == 0 && i.dy != 0 && i.dz == 0)
    || (i.dx == 0 && i.dy == 0 && i.dz != 0)
  }

  /** The input only presses axes the dimension has. */
  predicate WithinDimension(dim: Dim, i: Input)
  {
    (dim < 2 ==> i.dy == 0) && (dim < 3 ==> i.dz == 0)
  }

  /** The arrow keys and Q/E on a 3D level, relative to the active slice. */
  function SliceKey(s: Slice, key: Key): Input
  {
    match key
    case ArrowLeft => if s == XY || s == XZ then Input(-1, 0, 0) else Input(0, -1, 0)
    case ArrowRight => if s == XY || s == XZ then Input(1, 0, 0) else Input(0, 1, 0)
    case ArrowUp => if s == XY then Input(0, 1, 0) else Input(0, 0, 1)
    case ArrowDown => if s == XY then Input(0, -1, 0) else Input(0, 0, -1)
    case KeyQ => if s == XY then Input(0, 0, 1) else if s == XZ then Input(0, 1, 0) else Input(1, 0, 0)
    case KeyE => if s == XY then Input(0, 0, -1) else if s == XZ then Input(0, -1, 0) else Input(-1, 0, 0)
    case _ => Input(0, 0, 0)
  }

  /**
   * `handleInput`: Escape toggles pause in any phase; everything else needs PLAYING.
   * In 3D the digit keys pick the slice and the arrows and Q/E move relative to it;
   * in 1D and 2D the arrows move along x and (2D only) y.
   */
  function HandleKey(phase: Phase, dim: Dim, s: Slice, key: Key): (c: Command)
    ensures key == Escape <==> c == Pause
    ensures phase != Playing && key != Escape ==> c == NoOp
    ensures c.Focus? ==> dim == 3 && key in {Digit1, Digit2, Digit3}
    ensures c.Press? ==> UnitAxis(c.input) && WithinDimension(dim, c.input)
  {
    if key == Escape then Pause
    else if phase != Playing then NoOp
    else if dim == 3 then
      match key
      case Digit1 => Focus(XY)
      case Digit2 => Focus(XZ)
      case Digit3 => Focus(YZ)
      case _ =>
        var i := SliceKey(s, key);
        if i.dx != 0 || i.dy != 0 || i.dz != 0 then Press(i) else NoOp
    else
      match key
      case ArrowLeft => Press(Input(-1, 0, 0))
      case ArrowRight => Press(Input(1, 0, 0))
      case ArrowUp => if dim >= 2 then Press(Input(0, 1, 0)) else NoOp
      case ArrowDown => if dim >= 2 then Press(Input(0, -1, 0)) else NoOp
      case _ => NoOp
  }

  /** The 3D d-pad table, one row per slice. */
  function SliceButton(s: Slice, b: Button): Input
  {
    match (s, b)
    case (XY, Up) => Input(0, 1, 0)
    case (XY, Down) => Input(0, -1, 0)
    case (XY, Left) => Input(-1, 0, 0)
    case (XY, Right) => Input(1, 0, 0)
    case (XY, ZUp) => Input(0, 0, 1)
    case (XY, ZDown) => Input(0, 0, -1)
    case (XZ, Up) => Input(0, 0, 1)
    case (XZ, Down) => Input(0, 0, -1)
    case (XZ, Left) => Input(-1, 0, 0)
    case (XZ, Right) => Input(1, 0, 0)
    case (XZ, ZUp) => Input(0, 1, 0)
    case (XZ, ZDown) => Input(0, -1, 0)
    case (YZ, Up) => Input(0, 0, 1)
    case (YZ, Down) => Input(0, 0, -1)
    case (YZ, Left) => Input(0, -1, 0)
    case (YZ, Right) => Input(0, 1, 0)
    case (YZ, ZUp) => Input(1, 0, 0)
    case (YZ, ZDown) => Input(-1, 0, 0)
  }

  /**
   * `dpadJump`: in 1D and 2D the four arrows map to x and y (whatever the dimension)
   * and the Z buttons do nothing; in 3D the slice table applies. The phase is left
   * for `jump` to check.
   */
  function Dpad(dim: Dim, s: Slice, b: Button): (c: Command)
    ensures c.NoOp? || c.Press?
    ensures c.Press? ==> UnitAxis(c.input)
    ensures dim == 3 ==> c.Press?
  {
    if dim <= 2 then
      match b
      case Up => Press(Input(0, 1, 0))
      case Down => Press(Input(0, -1, 0))
      case Left => Press(Input(-1, 0, 0))
      case Right => Press(Input(1, 0, 0))
      case _ => NoOp
    else Press(SliceButton(s, b))
  }

  /** The key that carries the same label as a d-pad button. */
  function KeyFor(b: Button): Key
  {
    match b
    case Up => ArrowUp
    case Down => ArrowDown
    case Left => ArrowLeft
    case Right => ArrowRight
    case ZUp => KeyQ
    case ZDown => KeyE
  }

  /** In 3D, every d-pad button does what its keyboard key does, in every slice. */
  lemma KeyboardMatchesDpadIn3D(s: Slice, b: Button)
    ensures HandleKey(Playing, 3, s, KeyFor(b)) == Dpad(3, s, b)
  {
  }

  /** In 2D the four arrow buttons do what the arrow keys do. */
  lemma KeyboardMatchesDpadIn2D(s: Slice, b: Button)
    requires b != ZUp && b != ZDown
    ensures HandleKey(Playing, 2, s, KeyFor(b)) == Dpad(2, s, b)
  {
  }

  /**
   * In 1D the Up/Down keys are ignored, while the Up/Down buttons still issue a
   * y jump, which `jump` then strips to an empty step that is nevertheless counted.
   */
  lemma OneDimensionalVerticalButtons(m: Math, c: Course, power: real, p: Player, s: Slice, b: Button)
    requires c.dimension == 1 && (b == Up || b == Down)
    ensures HandleKey(Playing, 1, s, KeyFor(b)) == NoOp
    ensures Dpad(1, s, b).Press?
    ensures Jump(m, c, power, p, Dpad(1, s, b).input) == Jump(m, c, power, p, Input(0, 0, 0))
    ensures p.phase == Playing ==> Jump(m, c, power, p, Dpad(1, s, b).input).player.steps == p.steps + 1
  {
    ExtraAxesIgnored(m, c, power, p, Dpad(1, s, b).input);
  }

  /** The six signed unit axes, each pressed by exactly one of the six d-pad buttons in any 3D slice. */
  lemma SliceCoversEveryAxis(s: Slice, i: Input)
    requires UnitAxis(i)
    ensures exists b :: Dpad(3, s, b) == Press(i)
  {
    var b :=
      if i.dx != 0 then
        if s == YZ then (if i.dx > 0 then ZUp else ZDown) else (if i.dx > 0 then Right else Left)
      else if i.dy != 0 then
        if s == XY then (if i.dy > 0 then Up else Down)
        else if s == XZ then (if i.dy > 0 then ZUp else ZDown)
        else (if i.dy > 0 then Right else Left)
      else
        if s == XY then (if i.dz > 0 then ZUp else ZDown) else (if i.dz > 0 then Up else Down);
    assert Dpad(3, s, b) == Press(i);
  }

  /** No two d-pad buttons press the same axis in the same direction. */
  lemma DpadButtonsDistinct(s: Slice, b1: Button, b2: Button)
    requires b1 != b2
    ensures Dpad(3, s, b1) != Dpad(3, s, b2)
  {
  }

  /** Escape twice returns to the phase the player was in. */
  lemma PauseTwiceRestores(ph: Phase)
    ensures TogglePause(TogglePause(ph)) == ph
  {
  }
}
