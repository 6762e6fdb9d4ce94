/** The automatic battle camera: a position `(x, y)` and a zoom that move a
    bounded step toward a target `(newX, newY, newZoom)` each frame. The
    screen size, the configured frame speed and the battlers' screen
    positions are inputs. Numbers are exact reals. */
module BattleCamera {
  import opened Wrappers

  datatype Camera = Camera(
    x: real, y: real, newX: real, newY: real,
    centerWidth: real, centerHeight: real,
    zoom: real, newZoom: real,
    frameSpeed: real)

  predicate AtTarget(c: Camera) {
    c.x == c.newX && c.y == c.newY && c.zoom == c.newZoom
  }

  /** `initialize`: centred on the screen at zoom 1, already at its target. */
  function Initialize(width: real, height: real, cameraFrameSpeed: real): (c: Camera)
    ensures AtTarget(c)
    ensures c.x == c.centerWidth && c.y == c.centerHeight && c.zoom == 1.0
    ensures c.centerWidth * 2.0 == width && c.centerHeight * 2.0 == height
    ensures c.frameSpeed == cameraFrameSpeed
  {
    Camera(width / 2.0, height / 2.0, width / 2.0, height / 2.0, width / 2.0, height / 2.0, 1.0, 1.0, cameraFrameSpeed)
  }

  /** What `focusOn` reads of a battler. */
  datatype Battler = Battler(id: int, isEnemy: bool, screenX: real, screenY: real)

  /** An enemy sprite: the battler it shows and its height. */
  datatype EnemySprite = EnemySprite(battler: int, height: real)

  /** Half the height of the first sprite showing `battler`, or 0 when none does. */
  function YOffset(sprites: seq<EnemySprite>, battler: int, from: nat): (r: real)
    ensures (forall i :: from <= i < |sprites| ==> sprites[i].battler != battler) ==> r == 0.0
    ensures forall i :: (from <= i < |sprites| && sprites[i].battler == battler
      && (forall j :: from <= j < i ==> sprites[j].battler != battler)) ==> r * 2.0 == sprites[i].height
    decreases |sprites| - from
  {
    if from >= |sprites| then 0.0
    else if sprites[from].battler == battler then sprites[from].height / 2.0
    else YOffset(sprites, battler, from + 1)
  }

  /** `focusOn`: a battler that is not an enemy changes nothing. For an enemy
      the frame speed is reset, the target becomes the enemy's screen point
      (raised by half its sprite, lowered by half the status window), and the
      zoom and speed are replaced only when given. */
  function FocusOn(c: Camera, target: Battler, sprites: seq<EnemySprite>, statusWindowHeight: Option<real>,
                   zoom: Option<real>, speed: Option<real>, cameraFrameSpeed: real): (r: Camera)
    ensures !target.isEnemy ==> r == c
    ensures target.isEnemy ==>
      && r.newX == target.screenX
      && r.newY == target.screenY - YOffset(sprites, target.id, 0) + statusWindowHeight.GetOr(0.0) / 2.0
      && r.newZoom == (if zoom.Some? then zoom.value else c.newZoom)
      && r.frameSpeed == (if speed.Some? then speed.value else cameraFrameSpeed)
      && r.x == c.x && r.y == c.y && r.zoom == c.zoom
      && r.centerWidth == c.centerWidth && r.centerHeight == c.centerHeight
  {
    if target.isEnemy then
      var reset := c.(frameSpeed := cameraFrameSpeed);
      var aimed := reset.(newX := target.screenX,
                          newY := target.screenY - YOffset(sprites, target.id, 0) + statusWindowHeight.GetOr(0.0) / 2.0);
      var zoomed := if zoom.Some? then aimed.(newZoom := zoom.value) else aimed;
      if speed.Some? then zoomed.(frameSpeed := speed.value) else zoomed
    else c
  }

  /** `center(zoom)`: aim at the screen centre, at `zoom` or at 1 when omitted. */
  function Center(c: Camera, zoom: Option<real>): (r: Camera)
    ensures r.newX == c.centerWidth && r.newY == c.centerHeight
    ensures r.newZoom == (if zoom.Some? then zoom.value else 1.0)
    ensures r.x == c.x && r.y == c.y && r.zoom == c.zoom && r.frameSpeed == c.frameSpeed
    ensures r.centerWidth == c.centerWidth && r.centerHeight == c.centerHeight
  {
    c.(newX := c.centerWidth, newY := c.centerHeight, newZoom := if zoom.None? then 1.0 else zoom.value)
  }

  /** `battlerX`: a battler's screen coordinate seen through the camera is
      its offset from the camera scaled by the zoom, measured from the screen
      centre. The point the camera looks at lands on the centre, and a
      centred camera at zoom 1 leaves coordinates unchanged. */
  function BattlerX(c: Camera, screenX: real): (r: real)
    ensures r == c.centerWidth + (screenX - c.x) * c.zoom
    ensures screenX == c.x ==> r == c.centerWidth
    ensures c.x == c.centerWidth && c.zoom == 1.0 ==> r == screenX
  {
    var distance := screenX - c.x;
    var value := distance * (c.zoom - 1.0);
    var pos := screenX - (c.x - c.centerWidth);
    pos + value
  }

  /** `battlerY`, the vertical counterpart of `BattlerX`. */
  function BattlerY(c: Camera, screenY: real): (r: real)
    ensures r == c.centerHeight + (screenY - c.y) * c.zoom
    ensures screenY == c.y ==> r == c.centerHeight
    ensures c.y == c.centerHeight && c.zoom == 1.0 ==> r == screenY
  {
    var distance := screenY - c.y;
    var value := distance * (c.zoom - 1.0);
    var pos := screenY - (c.y - c.centerHeight);
    pos + value
  }

  function Abs(r: real): real {
    if r < 0.0 then -r else r
  }

  /** `Math.max` on two numbers. */
  function MaxReal(a: real, b: real): real {
    if a < b then b else a
  }

  /** `Math.min` on two numbers. */
  function MinReal(a: real, b: real): real {
    if a < b then a else b
  }

  /** A step size; `Unbounded` is the JavaScript `Infinity` a frame speed of 0
      produces, which makes the step land on the target. */
  datatype Speed = Finite(step: real) | Unbounded

  /** Position axes step by whole pixels, the zoom by fractions. */
  datatype Axis = Position | Scale

  /** The smallest step an axis ever takes. */
  function MinStep(axis: Axis): real {
    match axis
    case Position => 1.0
    case Scale => 0.001
  }

  /** `moveSpeedX` / `moveSpeedY`: `max(floor(distance / frameSpeed), 1)`;
      `zoomSpeed`: `max(distance / frameSpeed, 0.001)`. */
  function AxisSpeed(axis: Axis, distance: real, frameSpeed: real): (s: Speed)
    ensures s.Finite? ==> s.step >= MinStep(axis)
    ensures s.Unbounded? <==> frameSpeed == 0.0
  {
    if frameSpeed == 0.0 then Unbounded
    else match axis
      case Position => Finite(MaxReal((distance / frameSpeed).Floor as real, 1.0))
      case Scale => Finite(MaxReal(distance / frameSpeed, 0.001))
  }

  /** The clamped move of `update` on one axis: up by the step but not past
      the target, or down by the step but not below it. */
  function Toward(cur: real, target: real, speed: Speed): (r: real)
    ensures speed.Unbounded? ==> r == target
    ensures speed.Finite? && cur < target ==>
      (r == target <==> target - cur <= speed.step) && (r != target ==> r == cur + speed.step)
    ensures speed.Finite? && target <= cur ==>
      (r == target <==> cur - target <= speed.step) && (r != target ==> r == cur - speed.step)
  {
    if target - cur > 0.0 then
      match speed
      case Finite(s) => MinReal(cur + s, target)
      case Unbounded => target
    else
      match speed
      case Finite(s) => MaxReal(cur - s, target)
      case Unbounded => target
  }

  /** One frame on one axis. The value never passes the target, an axis at
      its target stays there, and otherwise it lands on the target or gets
      at least the axis's minimum step closer. */
  function AxisStep(axis: Axis, cur: real, target: real, frameSpeed: real): (r: real)
    ensures cur <= target ==> cur <= r <= target
    ensures target <= cur ==> target <= r <= cur
    ensures cur == target ==> r == cur
    ensures r == target || Abs(r - target) <= Abs(cur - target) - MinStep(axis)
  {
    if cur != target then Toward(cur, target, AxisSpeed(axis, Abs(cur - target), frameSpeed)) else cur
  }

  /** `update`: one frame of movement on each axis; the targets, the centre
      and the frame speed are left alone. */
  function Update(c: Camera): (r: Camera)
    ensures r.newX == c.newX && r.newY == c.newY && r.newZoom == c.newZoom
    ensures r.centerWidth == c.centerWidth && r.centerHeight == c.centerHeight && r.frameSpeed == c.frameSpeed
    ensures (c.x <= c.newX ==> c.x <= r.x <= c.newX) && (c.newX <= c.x ==> c.newX <= r.x <= c.x)
    ensures (c.y <= c.newY ==> c.y <= r.y <= c.newY) && (c.newY <= c.y ==> c.newY <= r.y <= c.y)
    ensures (c.zoom <= c.newZoom ==> c.zoom <= r.zoom <= c.newZoom) && (c.newZoom <= c.zoom ==> c.newZoom <= r.zoom <= c.zoom)
    ensures c.x == c.newX ==> r.x == c.x
    ensures c.y == c.newY ==> r.y == c.y
    ensures c.zoom == c.newZoom ==> r.zoom == c.zoom
    ensures AtTarget(c) ==> r == c
  {
    c.(x := AxisStep(Position, c.x, c.newX, c.frameSpeed),
       y := AxisStep(Position, c.y, c.newY, c.frameSpeed),
       zoom := AxisStep(Scale, c.zoom, c.newZoom, c.frameSpeed))
  }

  /** `n` frames of `update`. */
  function Run(c: Camera, n: nat): Camera
    decreases n
  {
    if n == 0 then c else Run(Update(c), n - 1)
  }

  /** `n` frames on one axis alone. */
  function RunAxis(axis: Axis, cur: real, target: real, frameSpeed: real, n: nat): real
    decreases n
  {
    if n == 0 then cur else RunAxis(axis, AxisStep(axis, cur, target, frameSpeed), target, frameSpeed, n - 1)
  }

  /** The axes move independently: `n` frames of the camera are `n` frames of
      each axis. */
  lemma {:induction false} RunIsAxiswise(c: Camera, n: nat)
    ensures Run(c, n).x == RunAxis(Position, c.x, c.newX, c.frameSpeed, n)
    ensures Run(c, n).y == RunAxis(Position, c.y, c.newY, c.frameSpeed, n)
    ensures Run(c, n).zoom == RunAxis(Scale, c.zoom, c.newZoom, c.frameSpeed, n)
    decreases n
  {
    if n > 0 {
      RunIsAxiswise(Update(c), n - 1);
    }
  }

  /** An axis reaches its target exactly once the frames, times its minimum
      step, cover the distance. */
  lemma {:induction false} AxisReaches(axis: Axis, cur: real, target: real, frameSpeed: real, n: nat)
    requires n as real * MinStep(axis) >= Abs(cur - target)
    ensures RunAxis(axis, cur, target, frameSpeed, n) == target
    decreases n
  {
    if n > 0 {
      var next := AxisStep(axis, cur, target, frameSpeed);
      assert (n - 1) as real * MinStep(axis) >= Abs(next - target);
      AxisReaches(axis, next, target, frameSpeed, n - 1);
    }
  }

  /** Repeated updates reach the target exactly: after at least as many frames
      as the pixel distances on both axes and a thousand times the zoom
      distance, the camera sits on its target. */
  lemma CameraSettles(c: Camera, n: nat)
    requires n as real >= Abs(c.x - c.newX) && n as real >= Abs(c.y - c.newY)
    requires n as real * 0.001 >= Abs(c.zoom - c.newZoom)
    ensures AtTarget(Run(c, n))
  {
    assert MinStep(Position) == 1.0 && MinStep(Scale) == 0.001;
    AxisReaches(Position, c.x, c.newX, c.frameSpeed, n);
    AxisReaches(Position, c.y, c.newY, c.frameSpeed, n);
    AxisReaches(Scale, c.zoom, c.newZoom, c.frameSpeed, n);
    RunIsAxiswise(c, n);
    RunKeepsTargets(c, n);
  }

  lemma {:induction false} RunKeepsTargets(c: Camera, n: nat)
    ensures Run(c, n).newX == c.newX && Run(c, n).newY == c.newY && Run(c, n).newZoom == c.newZoom
    decreases n
  {
    if n > 0 {
      RunKeepsTargets(Update(c), n - 1);
    }
  }
}
