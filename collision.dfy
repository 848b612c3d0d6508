/** `verificarColision`: would the model's box, moved to a candidate position,
    overlap any of the static obstacle boxes? */
module Collision {
  import opened Geometry

  /** Reference definition: some obstacle, scanned from the front, overlaps `moved`. */
  predicate Blocked(moved: Box, obstacles: seq<Box>)
  {
    |obstacles| > 0 && (Intersects(moved, obstacles[0]) || Blocked(moved, obstacles[1..]))
  }

  /** Blocked is exactly "there exists an overlapping obstacle". */
  lemma {:induction false} BlockedIffSome(moved: Box, obstacles: seq<Box>)
    ensures Blocked(moved, obstacles) <==>
            exists i :: 0 <= i < |obstacles| && Intersects(moved, obstacles[i])
  {
    if |obstacles| > 0 {
      BlockedIffSome(moved, obstacles[1..]);
      if Blocked(moved, obstacles[1..]) {
        var j :| 0 <= j < |obstacles[1..]| && Intersects(moved, obstacles[1..][j]);
        assert Intersects(moved, obstacles[j + 1]);
      }
      if i :| 0 <= i < |obstacles| && Intersects(moved, obstacles[i]) {
        if i > 0 {
          assert obstacles[1..][i - 1] == obstacles[i];
        }
      }
    }
  }

  /** Only which obstacles exist matters, not the order they were created in. */
  lemma BlockedOrderFree(moved: Box, obstacles: seq<Box>, others: seq<Box>)
    requires forall b :: b in obstacles <==> b in others
    ensures Blocked(moved, obstacles) == Blocked(moved, others)
  {
    BlockedIffSome(moved, obstacles);
    BlockedIffSome(moved, others);
    if Blocked(moved, obstacles) {
      var i :| 0 <= i < |obstacles| && Intersects(moved, obstacles[i]);
      assert obstacles[i] in others;
    }
    if Blocked(moved, others) {
      var i :| 0 <= i < |others| && Intersects(moved, others[i]);
      assert others[i] in obstacles;
    }
  }

  /** With no obstacles nothing ever blocks. */
  lemma NoObstaclesNeverBlock(moved: Box)
    ensures !Blocked(moved, [])
  {
  }

  /** The collision test: the model's current box `modelBox`, translated by
      `candidate - current`, is tested against each obstacle in turn, and the
      scan stops at the first overlap. */
  method CheckCollision(modelBox: Box, obstacles: seq<Box>, candidate: Vec3, current: Vec3)
    returns (hit: bool)
    ensures hit == Blocked(Translate(modelBox, Sub(candidate, current)), obstacles)
    ensures hit <==> exists i :: 0 <= i < |obstacles| &&
                       Intersects(Translate(modelBox, Sub(candidate, current)), obstacles[i])
  {
    var moved := Translate(modelBox, Sub(candidate, current));
    BlockedIffSome(moved, obstacles);
    for i := 0 to |obstacles|
      invariant Blocked(moved, obstacles) == Blocked(moved, obstacles[i..])
    {
      if Intersects(moved, obstacles[i]) {
        return true;
      }
      assert obstacles[i..][1..] == obstacles[i + 1..];
    }
    return false;
  }
}
