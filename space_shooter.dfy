/** The space-shooter scene (src/components/SpaceShooter.tsx): shots and
    shooting stars fly away from the camera each frame and are removed once
    past a cutoff; the camera zooms with the wheel and eases toward a depth
    set by the loudness. The animation loop keeps calling the frame update
    of the render that built the scene, so as written every frame sees that
    render's loudness and beat (`AnimateFrame`); `UpdateScene` is the frame
    with the current features. */
module SpaceShooter {
  import opened AudioTypes

  /** A moving scene object, by its position. */
  datatype Body = Body(x: real, y: real, z: real)

  /** Per-frame travel and removal depth of shots and of shooting stars. */
  const ShotStep: real := 6.0
  const ShotCutoff: real := -300.0
  const StarStep: real := 20.0
  const StarCutoff: real := -3000.0
  /** How far in front of the ship a shot starts. */
  const ShotOffset: real := 290.0

  /** A body after one frame of travel. */
  function Move(b: Body, step: real): (r: Body)
    ensures r.x == b.x && r.y == b.y && r.z == b.z - step
  {
    b.(z := b.z - step)
  }

  /** Every body after one frame of travel. */
  function MoveAll(bodies: seq<Body>, step: real): (r: seq<Body>)
    ensures |r| == |bodies|
    ensures forall k :: 0 <= k < |bodies| ==> r[k] == Move(bodies[k], step)
  {
    if |bodies| == 0 then [] else [Move(bodies[0], step)] + MoveAll(bodies[1..], step)
  }

  /** The bodies that remain after every body travels `step` and those
      below `cutoff` are removed, in their original order. */
  function Survivors(bodies: seq<Body>, step: real, cutoff: real): (r: seq<Body>)
    ensures |r| <= |bodies|
    ensures forall q :: q in r ==> q.z >= cutoff
  {
    if |bodies| == 0 then []
    else
      var m := Move(bodies[0], step);
      (if m.z < cutoff then [] else [m]) + Survivors(bodies[1..], step, cutoff)
  }

  /** The bodies removed by the same pass, in the order the backward loop
      meets them (last body first). */
  function Removed(bodies: seq<Body>, step: real, cutoff: real): (r: seq<Body>)
    ensures |r| <= |bodies|
    ensures forall q :: q in r ==> q.z < cutoff
  {
    if |bodies| == 0 then []
    else
      var m := Move(bodies[0], step);
      Removed(bodies[1..], step, cutoff) + (if m.z < cutoff then [m] else [])
  }

  /** Every body either survives or is removed, after moving by `step`:
      together they are exactly the moved bodies. */
  lemma {:induction false} PrunePartition(bodies: seq<Body>, step: real, cutoff: real)
    ensures |Survivors(bodies, step, cutoff)| + |Removed(bodies, step, cutoff)| == |bodies|
    ensures multiset(Survivors(bodies, step, cutoff)) + multiset(Removed(bodies, step, cutoff))
      == multiset(MoveAll(bodies, step))
  {
    if |bodies| > 0 {
      PrunePartition(bodies[1..], step, cutoff);
    }
  }

  /** Pruning works piecewise, so survivors keep their relative order. */
  lemma {:induction false} SurvivorsConcat(a: seq<Body>, b: seq<Body>, step: real, cutoff: real)
    ensures Survivors(a + b, step, cutoff) == Survivors(a, step, cutoff) + Survivors(b, step, cutoff)
  {
    if |a| > 0 {
      assert (a + b)[1..] == a[1..] + b;
      SurvivorsConcat(a[1..], b, step, cutoff);
    } else {
      assert a + b == b;
    }
  }

  /** Every survivor and every removed body is an input body moved by
      exactly `step`. */
  lemma PrunedAreMoved(bodies: seq<Body>, step: real, cutoff: real)
    ensures forall q :: q in Survivors(bodies, step, cutoff) ==> q in MoveAll(bodies, step)
    ensures forall q :: q in Removed(bodies, step, cutoff) ==> q in MoveAll(bodies, step)
  {
    PrunePartition(bodies, step, cutoff);
    forall q | q in Survivors(bodies, step, cutoff)
      ensures q in MoveAll(bodies, step)
    {
      assert q in multiset(Survivors(bodies, step, cutoff));
    }
    forall q | q in Removed(bodies, step, cutoff)
      ensures q in MoveAll(bodies, step)
    {
      assert q in multiset(Removed(bodies, step, cutoff));
    }
  }

  /** A body that stays above the cutoff is kept, moved by exactly `step`. */
  lemma KeptWhenAbove(b: Body, step: real, cutoff: real)
    requires b.z - step >= cutoff
    ensures Survivors([b], step, cutoff) == [Move(b, step)]
    ensures Removed([b], step, cutoff) == []
  {
    assert [b][1..] == [];
  }

  /** `Survivors` and `Removed` of the suffix from position `i`, by index. */
  function KeptFrom(bodies: seq<Body>, i: nat, step: real, cutoff: real): seq<Body>
    decreases |bodies| - i
  {
    if i >= |bodies| then []
    else
      var m := Move(bodies[i], step);
      (if m.z < cutoff then [] else [m]) + KeptFrom(bodies, i + 1, step, cutoff)
  }

  function DroppedFrom(bodies: seq<Body>, i: nat, step: real, cutoff: real): seq<Body>
    decreases |bodies| - i
  {
    if i >= |bodies| then []
    else
      var m := Move(bodies[i], step);
      DroppedFrom(bodies, i + 1, step, cutoff) + (if m.z < cutoff then [m] else [])
  }

  lemma {:induction false} FromIsSuffix(bodies: seq<Body>, i: nat, step: real, cutoff: real)
    requires i <= |bodies|
    ensures KeptFrom(bodies, i, step, cutoff) == Survivors(bodies[i..], step, cutoff)
    ensures DroppedFrom(bodies, i, step, cutoff) == Removed(bodies[i..], step, cutoff)
    decreases |bodies| - i
  {
    if i < |bodies| {
      FromIsSuffix(bodies, i + 1, step, cutoff);
      assert bodies[i..][1..] == bodies[i + 1..];
    }
  }

  /** The backward loop of `updateScene`: each body moves by `step` and is
      spliced out when it falls below `cutoff`. */
  method MoveAndPrune(bodies: seq<Body>, step: real, cutoff: real) returns (kept: seq<Body>, removed: seq<Body>)
    ensures kept == Survivors(bodies, step, cutoff)
    ensures removed == Removed(bodies, step, cutoff)
  {
    kept := bodies;
    removed := [];
    var i := |bodies| - 1;
    while i >= 0
      invariant -1 <= i < |bodies|
      invariant kept == bodies[..i + 1] + KeptFrom(bodies, i + 1, step, cutoff)
      invariant removed == DroppedFrom(bodies, i + 1, step, cutoff)
    {
      PruneStep(bodies, i, step, cutoff, kept);
      var body := kept[i];
      body := body.(z := body.z - step);
      kept := kept[i := body];
      if body.z < cutoff {
        removed := removed + [body];
        kept := kept[..i] + kept[i + 1..];
      }
      i := i - 1;
    }
    FromIsSuffix(bodies, 0, step, cutoff);
    assert bodies[0..] == bodies;
  }

  /** One iteration of the backward loop: moving body `i` in place, and
      splicing it out when it falls below the cutoff, extends the processed
      suffix by one. */
  lemma PruneStep(bodies: seq<Body>, i: nat, step: real, cutoff: real, kept: seq<Body>)
    requires i < |bodies|
    requires kept == bodies[..i + 1] + KeptFrom(bodies, i + 1, step, cutoff)
    ensures i < |kept| && kept[i] == bodies[i]
    ensures var body := kept[i].(z := kept[i].z - step);
      && (body.z < cutoff ==>
            kept[i := body][..i] + kept[i := body][i + 1..] == bodies[..i] + KeptFrom(bodies, i, step, cutoff))
      && (body.z >= cutoff ==> kept[i := body] == bodies[..i] + KeptFrom(bodies, i, step, cutoff))
      && DroppedFrom(bodies, i, step, cutoff) ==
           DroppedFrom(bodies, i + 1, step, cutoff) + (if body.z < cutoff then [body] else [])
  {
    var pre, post := bodies[..i], KeptFrom(bodies, i + 1, step, cutoff);
    assert bodies[..i + 1] == pre + [bodies[i]];
    assert kept == pre + [bodies[i]] + post;
    Splice(pre, bodies[i], post);
    var body := Move(bodies[i], step);
    assert kept[i].(z := kept[i].z - step) == body;
    SpliceSet(pre, bodies[i], body, post);
    if body.z < cutoff {
      assert KeptFrom(bodies, i, step, cutoff) == post;
      Splice(pre, body, post);
    } else {
      assert KeptFrom(bodies, i, step, cutoff) == [body] + post;
      assert pre + [body] + post == pre + ([body] + post);
    }
  }

  /** Taking apart `pre + [x] + post` around position `|pre|`. */
  lemma Splice(pre: seq<Body>, x: Body, post: seq<Body>)
    ensures (pre + [x] + post)[|pre|] == x
    ensures (pre + [x] + post)[..|pre|] + (pre + [x] + post)[|pre| + 1..] == pre + post
  {
    var t := pre + [x] + post;
    assert t[..|pre|] == pre;
    assert t[|pre| + 1..] == post;
  }

  /** Replacing the element at position `|pre|` of `pre + [x] + post`. */
  lemma SpliceSet(pre: seq<Body>, x: Body, y: Body, post: seq<Body>)
    ensures (pre + [x] + post)[|pre| := y] == pre + [y] + post
  {
  }

  /** The wheel zoom: the camera depth moves by a tenth of the wheel delta,
      clamped to [-130, -30]. */
  function WheelZoom(z: real, deltaY: real): (r: real)
    ensures -130.0 <= r <= -30.0
    ensures -130.0 <= z + deltaY * 0.1 <= -30.0 ==> r == z + deltaY * 0.1
    ensures z + deltaY * 0.1 < -130.0 ==> r == -130.0
    ensures z + deltaY * 0.1 > -30.0 ==> r == -30.0
  {
    var newZ := z + deltaY * 0.1;
    if newZ > -30.0 then -30.0 else if newZ < -130.0 then -130.0 else newZ
  }

  /** The depth the camera eases toward. */
  function TargetZ(volume: real): real
  {
    -40.0 + volume * 20.0
  }

  /** One easing step: a tenth of the way to the target. */
  function Ease(z: real, volume: real): (r: real)
    ensures r - TargetZ(volume) == 0.9 * (z - TargetZ(volume))
  {
    z + (TargetZ(volume) - z) * 0.1
  }

  /** Easing never overshoots: the new depth lies between the old one and the
      target, strictly closer unless already there. */
  lemma EaseNoOvershoot(z: real, volume: real)
    ensures var t := TargetZ(volume); var r := Ease(z, volume);
      && (z <= t ==> z <= r <= t)
      && (t <= z ==> t <= r <= z)
      && (z != t ==> r != z)
  {
  }

  /** The scene's moving state: the ship (absent until it is built), the
      shots, the shooting stars, the camera depth (absent until the camera
      exists), and the loudness and beat of the render whose mount effect
      started the animation loop. */
  class Shooter {
    var ship: Option<Body>
    var shots: seq<Body>
    var shootingStars: seq<Body>
    var cameraZ: Option<real>
    var capturedVolume: real
    var capturedBeat: bool

    /** The ship stays at depth 0, and every shot and shooting star in the
        lists is at or above its cutoff. */
    predicate Valid()
      reads this`ship, this`shots, this`shootingStars
    {
      && (ship.Some? ==> ship.value.z == 0.0)
      && (forall s :: s in shots ==> s.z >= ShotCutoff)
      && (forall s :: s in shootingStars ==> s.z >= StarCutoff)
    }

    constructor ()
      ensures Valid()
      ensures ship == None && shots == [] && shootingStars == [] && cameraZ == None
    {
      ship, shots, shootingStars, cameraZ := None, [], [], None;
      capturedVolume, capturedBeat := 0.0, false;
    }

    /** Initialisation, run by the mount effect of a render whose features
        have loudness `volume` and beat `beat`: the camera is placed at depth
        300 and the ship built at the origin, and the animation loop it
        starts keeps that render's features. */
    method Init(volume: real, beat: bool)
      requires Valid()
      modifies this
      ensures Valid()
      ensures cameraZ == Some(300.0) && ship == Some(Body(0.0, 0.0, 0.0))
      ensures capturedVolume == volume && capturedBeat == beat
      ensures shots == old(shots) && shootingStars == old(shootingStars)
    {
      cameraZ := Some(300.0);
      ship := Some(Body(0.0, 0.0, 0.0));
      capturedVolume, capturedBeat := volume, beat;
    }

    /** One frame of the animation loop as written: the loop calls the
        `updateScene` of the render that ran `Init`, so the current loudness
        `volume` and beat `beat` are ignored and the captured ones drive the
        frame. */
    method AnimateFrame(mouseX: real, mouseY: real, volume: real, beat: bool,
                        starRoll: real, starX: real, shootRoll: real)
      returns (removedShots: seq<Body>, removedStars: seq<Body>)
      requires Valid()
      modifies this
      ensures Valid()
      ensures capturedVolume == old(capturedVolume) && capturedBeat == old(capturedBeat)
      ensures old(cameraZ).None? ==> unchanged(this) && removedShots == [] && removedStars == []
      ensures old(cameraZ).Some? ==>
        && ship == Steer(old(ship), mouseX, mouseY)
        && removedShots == Removed(old(shots), ShotStep, ShotCutoff)
        && removedStars == Removed(old(shootingStars), StarStep, StarCutoff)
        && shots == Survivors(old(shots), ShotStep, ShotCutoff) + AutoShot(ship, capturedBeat, shootRoll)
        && shootingStars == Survivors(old(shootingStars), StarStep, StarCutoff) + Spawned(starRoll, starX)
        && cameraZ == Some(Ease(old(cameraZ).value, capturedVolume))
    {
      removedShots, removedStars := UpdateScene(mouseX, mouseY, capturedVolume, capturedBeat, starRoll, starX, shootRoll);
    }

    /** `createShot`: nothing without a ship; otherwise one shot is appended
        in front of the ship. */
    method CreateShot()
      requires Valid()
      modifies this`shots
      ensures Valid()
      ensures old(ship).None? ==> shots == old(shots)
      ensures old(ship).Some? ==>
        shots == old(shots) + [Body(old(ship).value.x, old(ship).value.y, old(ship).value.z + ShotOffset)]
    {
      if ship.None? {
        return;
      }
      var shipPosition := ship.value;
      shots := shots + [Body(shipPosition.x, shipPosition.y, shipPosition.z + ShotOffset)];
    }

    /** The wheel handler. */
    method Wheel(deltaY: real)
      modifies this`cameraZ
      ensures old(cameraZ).None? ==> cameraZ == None
      ensures old(cameraZ).Some? ==> cameraZ == Some(WheelZoom(old(cameraZ).value, deltaY))
    {
      if cameraZ.Some? {
        var z := cameraZ.value;
        var delta := deltaY * 0.1;
        var newZ := if z + delta > -30.0 then -30.0 else z + delta;
        newZ := if newZ < -130.0 then -130.0 else newZ;
        cameraZ := Some(newZ);
      }
    }

    /** The moving part of `updateScene` for one frame, with the current
        loudness `volume` and beat `beat`. `mouseX`/`mouseY` steer the ship;
        the random draws are parameters: a shooting star spawns at x `starX`
        when `starRoll > 0.99`, and a beat fires a shot when
        `shootRoll > 0.7`. Nothing moves before the camera exists. */
    method UpdateScene(mouseX: real, mouseY: real, volume: real, beat: bool,
                       starRoll: real, starX: real, shootRoll: real)
      returns (removedShots: seq<Body>, removedStars: seq<Body>)
      requires Valid()
      modifies this`ship, this`shots, this`shootingStars, this`cameraZ
      ensures Valid()
      ensures old(cameraZ).None? ==> unchanged(this) && removedShots == [] && removedStars == []
      ensures old(cameraZ).Some? ==>
        && ship == Steer(old(ship), mouseX, mouseY)
        && removedShots == Removed(old(shots), ShotStep, ShotCutoff)
        && removedStars == Removed(old(shootingStars), StarStep, StarCutoff)
        && shots == Survivors(old(shots), ShotStep, ShotCutoff) + AutoShot(ship, beat, shootRoll)
        && shootingStars == Survivors(old(shootingStars), StarStep, StarCutoff) + Spawned(starRoll, starX)
        && cameraZ == Some(Ease(old(cameraZ).value, volume))
    {
      removedShots, removedStars := [], [];
      if cameraZ.None? {
        return;
      }
      removedShots, removedStars := MoveBodies(mouseX, mouseY);
      SpawnAndFire(beat, starRoll, starX, shootRoll);
      EaseCamera(volume);
    }

    /** The first half of a frame: the ship follows the mouse, and shots and
        shooting stars move and are pruned. */
    method MoveBodies(mouseX: real, mouseY: real) returns (removedShots: seq<Body>, removedStars: seq<Body>)
      requires Valid()
      modifies this`ship, this`shots, this`shootingStars
      ensures Valid()
      ensures ship == Steer(old(ship), mouseX, mouseY)
      ensures removedShots == Removed(old(shots), ShotStep, ShotCutoff)
      ensures removedStars == Removed(old(shootingStars), StarStep, StarCutoff)
      ensures shots == Survivors(old(shots), ShotStep, ShotCutoff)
      ensures shootingStars == Survivors(old(shootingStars), StarStep, StarCutoff)
    {
      SteerShip(mouseX, mouseY);
      removedShots := AdvanceShots();
      removedStars := AdvanceStars();
    }

    /** The second half of a frame: the random draws spawn a shooting star
        and, on a beat, fire a shot. */
    method SpawnAndFire(beat: bool, starRoll: real, starX: real, shootRoll: real)
      requires Valid()
      modifies this`shots, this`shootingStars
      ensures Valid()
      ensures shots == old(shots) + AutoShot(ship, beat, shootRoll)
      ensures shootingStars == old(shootingStars) + Spawned(starRoll, starX)
    {
      if starRoll > 0.99 {
        SpawnShootingStar(starX);
      }
      if beat && shootRoll > 0.7 {
        CreateShot();
      }
    }

    /** The ship follows the mouse. */
    method SteerShip(mouseX: real, mouseY: real)
      requires Valid()
      modifies this`ship
      ensures Valid()
      ensures ship == Steer(old(ship), mouseX, mouseY)
    {
      if ship.Some? {
        ship := Some(ship.value.(x := mouseX * 50.0, y := -mouseY * 40.0 - 4.0));
      }
    }

    /** The backward loop over the shots. */
    method AdvanceShots() returns (removed: seq<Body>)
      requires Valid()
      modifies this`shots
      ensures Valid()
      ensures shots == Survivors(old(shots), ShotStep, ShotCutoff)
      ensures removed == Removed(old(shots), ShotStep, ShotCutoff)
    {
      shots, removed := MoveAndPrune(shots, ShotStep, ShotCutoff);
    }

    /** The backward loop over the shooting stars. */
    method AdvanceStars() returns (removed: seq<Body>)
      requires Valid()
      modifies this`shootingStars
      ensures Valid()
      ensures shootingStars == Survivors(old(shootingStars), StarStep, StarCutoff)
      ensures removed == Removed(old(shootingStars), StarStep, StarCutoff)
    {
      shootingStars, removed := MoveAndPrune(shootingStars, StarStep, StarCutoff);
    }

    /** `createShootingStar` at x position `starX`. */
    method SpawnShootingStar(starX: real)
      requires Valid()
      modifies this`shootingStars
      ensures Valid()
      ensures shootingStars == old(shootingStars) + [Body(starX, 300.0, 200.0)]
    {
      shootingStars := shootingStars + [Body(starX, 300.0, 200.0)];
    }

    /** The camera moves a tenth of the way to its audio target. */
    method EaseCamera(volume: real)
      modifies this`cameraZ
      ensures cameraZ == if old(cameraZ).Some? then Some(Ease(old(cameraZ).value, volume)) else None
    {
      if cameraZ.Some? {
        var targetZ := -40.0 + volume * 20.0;
        cameraZ := Some(cameraZ.value + (targetZ - cameraZ.value) * 0.1);
      }
    }
  }

  /** The ship follows the mouse. */
  function Steer(ship: Option<Body>, mouseX: real, mouseY: real): (r: Option<Body>)
    ensures r.Some? <==> ship.Some?
    ensures r.Some? ==> r.value == Body(mouseX * 50.0, -mouseY * 40.0 - 4.0, ship.value.z)
  {
    if ship.Some? then Some(ship.value.(x := mouseX * 50.0, y := -mouseY * 40.0 - 4.0)) else None
  }

  /** The shot a beat fires, if the draw allows it and a ship exists. */
  function AutoShot(ship: Option<Body>, beat: bool, shootRoll: real): (r: seq<Body>)
    ensures |r| <= 1
    ensures |r| == 1 <==> beat && shootRoll > 0.7 && ship.Some?
    ensures |r| == 1 ==> r[0] == Body(ship.value.x, ship.value.y, ship.value.z + ShotOffset)
  {
    if beat && shootRoll > 0.7 && ship.Some? then [Body(ship.value.x, ship.value.y, ship.value.z + ShotOffset)] else []
  }

  /** The shooting star the draw spawns, if any. */
  function Spawned(starRoll: real, starX: real): (r: seq<Body>)
    ensures |r| <= 1
    ensures |r| == 1 <==> starRoll > 0.99
    ensures |r| == 1 ==> r[0] == Body(starX, 300.0, 200.0)
  {
    if starRoll > 0.99 then [Body(starX, 300.0, 200.0)] else []
  }

  /** The frozen features in action: with the silence of start-up captured,
      a loud beat frame that should fire a shot and pull the camera toward
      a nearer depth fires nothing and keeps easing toward the silent
      depth. */
  lemma CapturedSilenceMissesBeat(ship: Body, shootRoll: real, volume: real, z: real)
    requires shootRoll > 0.7 && volume != 0.0
    ensures AutoShot(Some(ship), false, shootRoll) == []
    ensures |AutoShot(Some(ship), true, shootRoll)| == 1
    ensures Ease(z, 0.0) != Ease(z, volume)
  {
  }
}
