/** The player's ship: a sprite with a position, a life counter and a scale,
    moved each frame by the held arrow keys and kept on the screen. */
module PlayerShip {
  import opened Geometry

  /** Which arrow keys are held down during this frame. */
  datatype Keys = Keys(up: bool, down: bool, left: bool, right: bool)

  /** The direction along one axis: +1 for the positive key alone, -1 for the
      negative key alone, 0 when neither or both are held. */
  function Axis(plus: bool, minus: bool): (r: real)
    ensures plus == minus ==> r == 0.0
    ensures plus && !minus ==> r == 1.0
    ensures minus && !plus ==> r == -1.0
  {
    (if plus then 1.0 else 0.0) - (if minus then 1.0 else 0.0)
  }

  /** One coordinate after a displacement by `delta` and the clamp to
      `[0, screen - extent]`: the sprite ends up fully on screen whatever the
      prior position, an on-screen sprite that does not move stays where it
      is. */
  function Steer(pos: real, delta: real, extent: real, screen: real): (r: real)
    ensures extent <= screen ==> 0.0 <= r <= screen - extent
    ensures delta == 0.0 && 0.0 <= pos <= screen - extent ==> r == pos
  {
    Clamp(pos + delta, 0.0, screen - extent)
  }

  class Player {
    const texture: Texture
    var x: real
    var y: real
    var livesLeft: int
    const scale: real

    /** Stores exactly the given texture, position, lives and scale. */
    constructor (texture: Texture, x: real, y: real, livesLeft: int, scale: real)
      ensures this.texture == texture && this.x == x && this.y == y
      ensures this.livesLeft == livesLeft && this.scale == scale
    {
      this.texture := texture;
      this.x := x;
      this.y := y;
      this.livesLeft := livesLeft;
      this.scale := scale;
    }

    /** The on-screen width of the ship: the scaled texture width. */
    function Width(): (r: real)
      ensures r == ScaleWidth(texture, scale)
    {
      texture.width * scale
    }

    /** The on-screen height of the ship: the scaled texture height. */
    function Height(): (r: real)
      ensures r == ScaleHeight(texture, scale)
    {
      texture.height * scale
    }

    /** The rectangle used for collisions: the ship's position and size. */
    function DestRect(): (r: Rect)
      reads this`x, this`y
      ensures r == Rect(x, y, Width(), Height())
    {
      DestRec(Vec2(x, y), texture, scale)
    }

    /** Moves the ship by `speed` in the direction of each held key (opposite
        keys cancel, diagonals combine), then clamps it to the screen. Only
        the position changes; lives, scale and texture do not. */
    method Update(speed: real, keys: Keys, screenW: real, screenH: real)
      modifies this`x, this`y
      ensures x == Steer(old(x), speed * Axis(keys.right, keys.left), Width(), screenW)
      ensures y == Steer(old(y), speed * Axis(keys.down, keys.up), Height(), screenH)
      ensures Width() <= screenW ==> 0.0 <= x <= screenW - Width()
      ensures Height() <= screenH ==> 0.0 <= y <= screenH - Height()
    {
      if keys.right {
        x := x + speed;
      }
      if keys.left {
        x := x - speed;
      }
      if keys.up {
        y := y - speed;
      }
      if keys.down {
        y := y + speed;
      }
      x := Clamp(x, 0.0, screenW - Width());
      y := Clamp(y, 0.0, screenH - Height());
    }
  }

  /** With no key held, an on-screen ship is a fixed point of Update's
      movement, and so a second update after any first one changes nothing. */
  lemma {:induction false} RestingShipStays(p: real, speed: real, extent: real, screen: real)
    requires extent <= screen
    ensures var once := Steer(p, speed * Axis(false, false), extent, screen);
            Steer(once, speed * Axis(false, false), extent, screen) == once
  {
    var once := Steer(p, speed * Axis(false, false), extent, screen);
    assert speed * Axis(false, false) == 0.0;
    assert 0.0 <= once <= screen - extent;
  }
}
