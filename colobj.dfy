/** pyobjs/ColObj.py: a collidable object, a position and a bounding-sphere radius. */
module ColObjs {
  import Util

  class ColObj {
    var pos: seq<real>
    var colr: real

    /** A new object stands at the given position with collision radius zero. */
    constructor (pos: seq<real>)
      ensures this.pos == pos && colr == 0.0
    {
      colr := 0.0;
      this.pos := pos;
    }

    /** ColObj.is_colliding: util.is_colliding on both objects' positions and radii. Being a
        function that only reads the two objects, it changes neither. */
    predicate IsColliding(other: ColObj)
      reads this, other
    {
      Util.IsColliding(pos, colr, other.pos, other.colr)
    }
  }

  /** a.is_colliding(b) == b.is_colliding(a) */
  lemma IsCollidingSymmetric(a: ColObj, b: ColObj)
    ensures a.IsColliding(b) == b.IsColliding(a)
  {
    Util.CollidingSymmetric(a.pos, a.colr, b.pos, b.colr);
  }

  /** Two objects with radius zero (as every object starts) never collide, wherever they are. */
  lemma ZeroRadiiNeverCollide(a: ColObj, b: ColObj)
    requires a.colr == 0.0 && b.colr == 0.0
    ensures !a.IsColliding(b)
  {
  }

  /** Two objects at the same position collide exactly when their radii sum to more than zero. */
  lemma SamePositionCollides(a: ColObj, b: ColObj)
    requires a.pos == b.pos
    ensures a.IsColliding(b) <==> a.colr + b.colr > 0.0
  {
    Util.SamePointCollides(a.pos, a.colr, b.colr);
  }
}
