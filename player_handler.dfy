/**
 * The PlayerHandler of src/handlers/PlayerHandler.js: a tap sets a target,
 * every tick moves the player one unit towards it and pushes it out of the
 * colliders it runs into, first along x and then along y.
 */
module PlayerMovement {
  import opened Wrappers

  /** A solid rectangle the player cannot stand in. */
  datatype Collider = Collider(x: real, y: real, width: real, height: real)

  /** The two directions collisions are resolved in, one after the other. */
  datatype Axis = Horizontal | Vertical

  /** The collider's start and length along the axis being resolved ... */
  function Lo(c: Collider, a: Axis): real { if a == Horizontal then c.x else c.y }
  function Len(c: Collider, a: Axis): real { if a == Horizontal then c.width else c.height }
  /** ... and across it. */
  function CrossLo(c: Collider, a: Axis): real { if a == Horizontal then c.y else c.x }
  function CrossLen(c: Collider, a: Axis): real { if a == Horizontal then c.height else c.width }

  /**
   * The player box (pos, size) along the axis and (cross, crossSize) across it
   * overlaps the collider; every comparison is strict.
   */
  predicate OverlapsOn(a: Axis, pos: real, size: real, cross: real, crossSize: real, c: Collider)
  {
    && pos + size > Lo(c, a)
    && pos < Lo(c, a) + Len(c, a)
    && cross + crossSize > CrossLo(c, a)
    && cross < CrossLo(c, a) + CrossLen(c, a)
  }

  /** The four comparisons of the collision checks, in terms of the player box and the collider. */
  predicate Overlaps(posX: real, posY: real, width: real, height: real, c: Collider)
  {
    posX + width > c.x && posX < c.x + c.width && posY + height > c.y && posY < c.y + c.height
  }

  /** Both axes test the same overlap: only the roles of the coordinates change. */
  lemma OverlapsOnEitherAxis(posX: real, posY: real, width: real, height: real, c: Collider)
    ensures Overlaps(posX, posY, width, height, c) <==> OverlapsOn(Horizontal, posX, width, posY, height, c)
    ensures Overlaps(posX, posY, width, height, c) <==> OverlapsOn(Vertical, posY, height, posX, width, c)
  {
  }

  /**
   * The corrected coordinate after hitting `c`: in front of it when the
   * player's centre lies before the collider's centre, behind it otherwise
   * (so an exact tie goes behind). Either way the player box ends up wholly
   * on one side of the collider along the axis.
   */
  function Push(a: Axis, pos: real, size: real, c: Collider): (r: real)
    ensures r + size <= Lo(c, a) || Lo(c, a) + Len(c, a) <= r
    ensures pos + size / 2.0 == Lo(c, a) + Len(c, a) / 2.0 ==> r == Lo(c, a) + Len(c, a)
    ensures r == Lo(c, a) - size || r == Lo(c, a) + Len(c, a)
  {
    if pos + size / 2.0 < Lo(c, a) + Len(c, a) / 2.0 then Lo(c, a) - size else Lo(c, a) + Len(c, a)
  }

  /** After a push the player no longer overlaps that collider, whatever its cross position. */
  lemma PushClearsOverlap(a: Axis, pos: real, size: real, cross: real, crossSize: real, c: Collider)
    ensures !OverlapsOn(a, Push(a, pos, size, c), size, cross, crossSize, c)
  {
    var r := Push(a, pos, size, c);
    if r + size <= Lo(c, a) {
      assert !(r + size > Lo(c, a));
    } else {
      assert !(r < Lo(c, a) + Len(c, a));
    }
  }

  /** Boxes that only touch along the axis do not overlap. */
  lemma TouchingIsNotOverlapping(a: Axis, pos: real, size: real, cross: real, crossSize: real, c: Collider)
    requires pos + size == Lo(c, a) || pos == Lo(c, a) + Len(c, a)
    ensures !OverlapsOn(a, pos, size, cross, crossSize, c)
  {
  }

  /**
   * The coordinate after the collision loop: the colliders in list order,
   * each one tested against the position the earlier ones left and pushing
   * it when they overlap. The final value is the starting one or one of the
   * colliders' push values.
   */
  function Resolve(a: Axis, pos: real, size: real, cross: real, crossSize: real, cs: seq<Collider>): (r: real)
    ensures r == pos || exists i :: 0 <= i < |cs| && (r == Lo(cs[i], a) - size || r == Lo(cs[i], a) + Len(cs[i], a))
  {
    if cs == [] then pos
    else
      var init := cs[..|cs| - 1];
      var c := cs[|cs| - 1];
      var p := Resolve(a, pos, size, cross, crossSize, init);
      assert forall i :: 0 <= i < |init| ==> init[i] == cs[i];
      if OverlapsOn(a, p, size, cross, crossSize, c) then Push(a, p, size, c) else p
  }

  lemma ResolveSnoc(a: Axis, pos: real, size: real, cross: real, crossSize: real, cs: seq<Collider>, c: Collider)
    ensures Resolve(a, pos, size, cross, crossSize, cs + [c]) ==
      var p := Resolve(a, pos, size, cross, crossSize, cs);
      if OverlapsOn(a, p, size, cross, crossSize, c) then Push(a, p, size, c) else p
  {
    assert (cs + [c])[..|cs|] == cs;
  }

  /** When no collider overlaps the starting position, the loop leaves it unchanged. */
  lemma {:induction false} NoOverlapNoChange(a: Axis, pos: real, size: real, cross: real, crossSize: real, cs: seq<Collider>)
    requires forall i :: 0 <= i < |cs| ==> !OverlapsOn(a, pos, size, cross, crossSize, cs[i])
    ensures Resolve(a, pos, size, cross, crossSize, cs) == pos
  {
    if cs != [] {
      var init := cs[..|cs| - 1];
      assert forall i :: 0 <= i < |init| ==> init[i] == cs[i];
      NoOverlapNoChange(a, pos, size, cross, crossSize, init);
    }
  }

  /**
   * The last collider that overlaps at its turn decides the result: when
   * collider k overlaps the position the first k colliders left, and none
   * after it overlaps at its turn, the result is collider k's push.
   */
  lemma {:induction false} LastOverlapWins(a: Axis, pos: real, size: real, cross: real, crossSize: real, cs: seq<Collider>, k: nat)
    requires k < |cs|
    requires OverlapsOn(a, Resolve(a, pos, size, cross, crossSize, cs[..k]), size, cross, crossSize, cs[k])
    requires forall j :: k < j < |cs| ==> !OverlapsOn(a, Resolve(a, pos, size, cross, crossSize, cs[..j]), size, cross, crossSize, cs[j])
    ensures Resolve(a, pos, size, cross, crossSize, cs) == Push(a, Resolve(a, pos, size, cross, crossSize, cs[..k]), size, cs[k])
  {
    var n := |cs| - 1;
    var init := cs[..n];
    assert init + [cs[n]] == cs;
    ResolveSnoc(a, pos, size, cross, crossSize, init, cs[n]);
    if k < n {
      assert init[..k] == cs[..k] && init[k] == cs[k];
      forall j | k < j < |init|
        ensures !OverlapsOn(a, Resolve(a, pos, size, cross, crossSize, init[..j]), size, cross, crossSize, init[j])
      {
        assert init[..j] == cs[..j] && init[j] == cs[j];
      }
      LastOverlapWins(a, pos, size, cross, crossSize, init, k);
      assert !OverlapsOn(a, Resolve(a, pos, size, cross, crossSize, cs[..n]), size, cross, crossSize, cs[n]);
    }
  }

  /**
   * A later push can undo an earlier one: a 10 by 10 player at x = 0 is pushed
   * to -5 by a collider at [5, 15], then to -3 by a collider at [-8, -3], and
   * ends inside the first collider again.
   */
  lemma LaterPushOverridesEarlier()
    ensures var first := Collider(5.0, 0.0, 10.0, 10.0);
      var second := Collider(-8.0, 0.0, 5.0, 10.0);
      && Resolve(Horizontal, 0.0, 10.0, 0.0, 10.0, [first, second]) == -3.0
      && OverlapsOn(Horizontal, -3.0, 10.0, 0.0, 10.0, first)
  {
    var first := Collider(5.0, 0.0, 10.0, 10.0);
    var second := Collider(-8.0, 0.0, 5.0, 10.0);
    ResolveSnoc(Horizontal, 0.0, 10.0, 0.0, 10.0, [], first);
    assert Resolve(Horizontal, 0.0, 10.0, 0.0, 10.0, [first]) == -5.0;
    ResolveSnoc(Horizontal, 0.0, 10.0, 0.0, 10.0, [first], second);
    assert [first] + [second] == [first, second];
  }

  /** The movement speed of updatePlayer, in pixels per tick. */
  const Speed: real := 1.0

  /**
   * The movement of one tick: (dx, dy) scaled by speed / distance. Along
   * each axis it points the way the target lies, and `distance` times it
   * is `speed` times (dx, dy).
   */
  function MoveVector(dx: real, dy: real, distance: real): (m: (real, real))
    requires distance > 0.0
    ensures dx > 0.0 <==> m.0 > 0.0
    ensures dx < 0.0 <==> m.0 < 0.0
    ensures dy > 0.0 <==> m.1 > 0.0
    ensures dy < 0.0 <==> m.1 < 0.0
    ensures m.0 * distance == dx * Speed && m.1 * distance == dy * Speed
  {
    (dx / distance * Speed, dy / distance * Speed)
  }

  /** The player's sprite: the handler moves its position; its size comes from its image. */
  class PlayerSprite {
    var posX: real
    var posY: real
    const width: real
    const height: real

    constructor(posX: real, posY: real, width: real, height: real)
      ensures this.posX == posX && this.posY == posY && this.width == width && this.height == height
    {
      this.posX := posX;
      this.posY := posY;
      this.width := width;
      this.height := height;
    }
  }

  class PlayerHandler {
    var colliders: seq<Collider>
    var targetX: Option<real>
    var targetY: Option<real>
    const player: PlayerSprite

    /**
     * A handler with no colliders and no target, whose player (created by
     * loadPlayer) stands at `position`; the player's size is its image's.
     */
    constructor(playerWidth: real, playerHeight: real, positionX: real := 0.0, positionY: real := 0.0)
      ensures colliders == [] && targetX == None && targetY == None
      ensures fresh(player)
      ensures player.posX == positionX && player.posY == positionY
      ensures player.width == playerWidth && player.height == playerHeight
    {
      colliders := [];
      targetX, targetY := None, None;
      player := new PlayerSprite(positionX, positionY, playerWidth, playerHeight);
    }

    /** addColliders: the new colliders go after the existing ones, in order. */
    method AddColliders(newColliders: seq<Collider> := [])
      modifies this`colliders
      ensures colliders == old(colliders) + newColliders
    {
      colliders := colliders + newColliders;
    }

    /** handleScreenTapEvent: the tap position becomes the target, whatever was there. */
    method HandleScreenTapEvent(mouseX: real, mouseY: real)
      modifies this`targetX, this`targetY
      ensures targetX == Some(mouseX) && targetY == Some(mouseY)
    {
      targetX := Some(mouseX);
      targetY := Some(mouseY);
    }

    /**
     * updatePlayer: one tick. `distance` is the length of the vector from the
     * player's centre to the target (Math.sqrt of its squared length).
     */
    method UpdatePlayer(distance: real)
      requires targetX.Some? && targetY.Some? ==>
        var dx := targetX.value - (player.posX + player.width / 2.0);
        var dy := targetY.value - (player.posY + player.height / 2.0);
        distance >= 0.0 && distance * distance == dx * dx + dy * dy
      modifies this`targetX, this`targetY, player
      // no target: nothing changes
      ensures old(targetX).None? || old(targetY).None? ==>
        targetX == old(targetX) && targetY == old(targetY)
        && player.posX == old(player.posX) && player.posY == old(player.posY)
      // close to the target: stop there
      ensures old(targetX).Some? && old(targetY).Some? && distance < Speed ==>
        targetX == None && targetY == None
        && player.posX == old(player.posX) && player.posY == old(player.posY)
      // otherwise: move along x and resolve, then move along y and resolve
      ensures old(targetX).Some? && old(targetY).Some? && distance >= Speed ==>
        var dx := old(targetX).value - (old(player.posX) + player.width / 2.0);
        var dy := old(targetY).value - (old(player.posY) + player.height / 2.0);
        var move := MoveVector(dx, dy, distance);
        && targetX == old(targetX) && targetY == old(targetY)
        && player.posX == Resolve(Horizontal, old(player.posX) + move.0, player.width, old(player.posY), player.height, colliders)
        && player.posY == Resolve(Vertical, old(player.posY) + move.1, player.height, player.posX, player.width, colliders)
    {
      if targetX.None? || targetY.None? {
        return;
      }
      var dx := targetX.value - (player.posX + player.width / 2.0);
      var dy := targetY.value - (player.posY + player.height / 2.0);
      if distance < Speed {
        targetX := None;
        targetY := None;
        return;
      }
      var move := MoveVector(dx, dy, distance);
      player.posX := player.posX + move.0;
      CheckForHorizontalCollision();
      player.posY := player.posY + move.1;
      CheckForVerticalCollision();
    }

    /** checkForHorizontalCollision: resolve posX against every collider in turn; nothing else changes. */
    method CheckForHorizontalCollision()
      modifies player
      ensures player.posX == Resolve(Horizontal, old(player.posX), player.width, player.posY, player.height, colliders)
      ensures player.posY == old(player.posY)
    {
      for i := 0 to |colliders|
        invariant player.posX == Resolve(Horizontal, old(player.posX), player.width, player.posY, player.height, colliders[..i])
        invariant player.posY == old(player.posY)
      {
        var c := colliders[i];
        ResolveSnoc(Horizontal, old(player.posX), player.width, player.posY, player.height, colliders[..i], c);
        assert colliders[..i + 1] == colliders[..i] + [c];
        if player.posX + player.width > c.x && player.posX < c.x + c.width
          && player.posY + player.height > c.y && player.posY < c.y + c.height
        {
          if player.posX + player.width / 2.0 < c.x + c.width / 2.0 {
            player.posX := c.x - player.width;
          } else {
            player.posX := c.x + c.width;
          }
        }
      }
      assert colliders[..|colliders|] == colliders;
    }

    /** checkForVerticalCollision: resolve posY against every collider in turn; nothing else changes. */
    method CheckForVerticalCollision()
      modifies player
      ensures player.posY == Resolve(Vertical, old(player.posY), player.height, player.posX, player.width, colliders)
      ensures player.posX == old(player.posX)
    {
      for i := 0 to |colliders|
        invariant player.posY == Resolve(Vertical, old(player.posY), player.height, player.posX, player.width, colliders[..i])
        invariant player.posX == old(player.posX)
      {
        var c := colliders[i];
        ResolveSnoc(Vertical, old(player.posY), player.height, player.posX, player.width, colliders[..i], c);
        assert colliders[..i + 1] == colliders[..i] + [c];
        if player.posX + player.width > c.x && player.posX < c.x + c.width
          && player.posY + player.height > c.y && player.posY < c.y + c.height
        {
          if player.posY + player.height / 2.0 < c.y + c.height / 2.0 {
            player.posY := c.y - player.height;
          } else {
            player.posY := c.y + c.height;
          }
        }
      }
      assert colliders[..|colliders|] == colliders;
    }
  }
}
