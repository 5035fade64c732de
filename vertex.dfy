/** The Vertex class: a mutable point with a value-returning form of every
    operation (a fresh Vertex, the receiver untouched) and an in-place form
    that rewrites the receiver's fields and returns the receiver itself. */
module Vertices {
  import opened Geometry

  class Vertex {
    var x: real
    var y: real
    var z: real

    /** The coordinates this Vertex holds now. */
    function Value(): Vec3
      reads this
    {
      Vec3(x, y, z)
    }

    constructor (p: Vec3)
      ensures Value() == p
    {
      x, y, z := p.x, p.y, p.z;
    }

    // ------------------------------------------------ value-returning forms

    /** translate: a call with a single argument shifts z. */
    method Translate(args: seq<real>) returns (r: Vertex)
      ensures fresh(r)
      ensures r.Value() == Geometry.Translate(Value(), args)
    {
      var dx, dy, dz := ArgOrZero(args, 0), ArgOrZero(args, 1), ArgOrZero(args, 2);
      if |args| == 1 {
        dz, dx := dx, 0.0;
      }
      r := new Vertex(Vec3(x + dx, y + dy, z + dz));
    }

    /** rotate_yz */
    method RotateYZ(t: Trig) returns (r: Vertex)
      ensures fresh(r)
      ensures r.Value() == Geometry.RotateYZ(Value(), t)
    {
      r := new Vertex(Vec3(x, y * t.c - z * t.s, y * t.s + z * t.c));
    }

    /** rotate_xz */
    method RotateXZ(t: Trig) returns (r: Vertex)
      ensures fresh(r)
      ensures r.Value() == Geometry.RotateXZ(Value(), t)
    {
      r := new Vertex(Vec3(x * t.c - z * t.s, y, x * t.s + z * t.c));
    }

    /** rotate_xy */
    method RotateXY(t: Trig) returns (r: Vertex)
      ensures fresh(r)
      ensures r.Value() == Geometry.RotateXY(Value(), t)
    {
      r := new Vertex(Vec3(x * t.c - y * t.s, x * t.s + y * t.c, z));
    }

    /** rotate(ax, ay, az): three block-local updates of copies of the fields. */
    method Rotate(tx: Trig, ty: Trig, tz: Trig) returns (r: Vertex)
      ensures fresh(r)
      ensures r.Value() == Geometry.Rotate(Value(), tx, ty, tz)
    {
      var x, y, z := this.x, this.y, this.z;
      {
        var y1, z1 := y * tx.c - z * tx.s, y * tx.s + z * tx.c;
        y, z := y1, z1;
      }
      {
        var x1, z1 := x * ty.c - z * ty.s, x * ty.s + z * ty.c;
        x, z := x1, z1;
      }
      {
        var x1, y1 := x * tz.c - y * tz.s, x * tz.s + y * tz.c;
        x, y := x1, y1;
      }
      r := new Vertex(Vec3(x, y, z));
    }

    /** project: the perspective divide, as a plain point. */
    method Project() returns (p: Point2)
      requires z != 0.0
      ensures p == Geometry.Project(Value())
    {
      p := Point2(x / z, y / z);
    }

    method Clone() returns (r: Vertex)
      ensures fresh(r)
      ensures r.Value() == Value()
    {
      r := new Vertex(Vec3(x, y, z));
    }

    // ------------------------------------------------ in-place forms

    /** translateSelf: shifts the receiver and returns it. */
    method TranslateSelf(args: seq<real>) returns (r: Vertex)
      modifies this
      ensures r == this
      ensures Value() == Geometry.Translate(old(Value()), args)
    {
      var dx, dy, dz := ArgOrZero(args, 0), ArgOrZero(args, 1), ArgOrZero(args, 2);
      if |args| == 1 {
        dz, dx := dx, 0.0;
      }
      x := x + dx;
      y := y + dy;
      z := z + dz;
      r := this;
    }

    /** rotate_yzSelf: both new coordinates come from the old ones before either field is written. */
    method RotateYZSelf(t: Trig) returns (r: Vertex)
      modifies this
      ensures r == this
      ensures Value() == Geometry.RotateYZ(old(Value()), t)
    {
      var y', z' := y * t.c - z * t.s, y * t.s + z * t.c;
      y := y';
      z := z';
      r := this;
    }

    /** rotate_xzSelf */
    method RotateXZSelf(t: Trig) returns (r: Vertex)
      modifies this
      ensures r == this
      ensures Value() == Geometry.RotateXZ(old(Value()), t)
    {
      var x', z' := x * t.c - z * t.s, x * t.s + z * t.c;
      x := x';
      z := z';
      r := this;
    }

    /** rotate_xySelf */
    method RotateXYSelf(t: Trig) returns (r: Vertex)
      modifies this
      ensures r == this
      ensures Value() == Geometry.RotateXY(old(Value()), t)
    {
      var x', y' := x * t.c - y * t.s, x * t.s + y * t.c;
      x := x';
      y := y';
      r := this;
    }
  }

  /** A clone edited through a chain of in-place calls ends where the same chain
      of value-returning calls would, and the original keeps its coordinates:
      the clone shares nothing with it. */
  method EditClone(v: Vertex, args: seq<real>, tx: Trig, ty: Trig, tz: Trig) returns (c: Vertex)
    ensures fresh(c) && c != v
    ensures v.Value() == old(v.Value())
    ensures c.Value() == RotateXY(RotateXZ(RotateYZ(Translate(v.Value(), args), tx), ty), tz)
  {
    c := v.Clone();
    var r := c.TranslateSelf(args);
    r := r.RotateYZSelf(tx);
    r := r.RotateXZSelf(ty);
    r := r.RotateXYSelf(tz);
  }
}
