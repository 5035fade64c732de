/** The animation state of the demo and one step of its frame loop. */
module Animation {
  import opened Geometry
  import opened Meshes

  /** The angle after one frame: it grows by Math.PI * dt, with dt = 1 / FPS. */
  function Advance(angle: real): real
  {
    angle + PI * (1.0 / FPS)
  }

  /** The angle after n frames starting from angle. */
  function AfterFrames(angle: real, n: nat): real
  {
    if n == 0 then angle else Advance(AfterFrames(angle, n - 1))
  }

  /** Every frame adds the same step, so n frames add n steps. */
  lemma {:induction false} AngleAfterFrames(angle: real, n: nat)
    ensures AfterFrames(angle, n) == angle + (n as real) * PI / FPS
  {
    if n > 0 {
      AngleAfterFrames(angle, n - 1);
    }
  }

  /** 2 * FPS frames, two seconds of animation, turn the angle by exactly 2 * PI. */
  lemma FullTurnInTwoSeconds(angle: real)
    ensures AfterFrames(angle, 60) == angle + 2.0 * PI
  {
    AngleAfterFrames(angle, 60);
  }

  /** The global state frame reads and writes: the rotation angle and the z offset. */
  class Scene {
    var angle: real
    var dz: real

    /** The cube can be rendered at the current offset. */
    ghost predicate Valid()
      reads this
    {
      Renderable(Cube, dz)
    }

    /** The state starts at angle 0 with the depth offset 1. */
    constructor ()
      ensures Valid()
      ensures angle == 0.0 && dz == 1.0
    {
      angle, dz := 0.0, 1.0;
      CubeRenderable(1.0);
    }

    /** frame: advance the angle, clear the surface, render the cube. */
    method Frame() returns (calls: seq<DrawCall>)
      requires Valid()
      modifies this
      ensures Valid()
      ensures angle == Advance(old(angle)) == old(angle) + PI / FPS
      ensures dz == old(dz)
      ensures AllDrawable(Cube, dz, Edges(Cube.faces))
      ensures calls == [Clear] + Drawn(Cube, dz, Edges(Cube.faces))
      ensures |calls| == 17
    {
      var dt := 1.0 / FPS;
      angle := angle + PI * dt;
      var lines := Render(Cube, dz, angle);
      calls := [Clear] + lines;
      CubeEdges();
      DrawnAt(Cube, dz, Edges(Cube.faces));
    }
  }
}
