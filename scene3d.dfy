/**
  The backdrop scene controller. Three.js objects are reduced to what the
  controller's own logic decides: the names of the scene's children, each
  building's rotation about and position along the vertical axis, the camera
  position, the smoothed pointer, and the particle buffers. `Math.random()` is
  the parameter `random` (its successive results, in call order); `Math.sin` is
  the parameter `sin`; the clock's readings are parameters of a tick.
 */
module Scene {
  import opened Smoothing
  import opened Geometry

  /** `Math.PI` as a double. */
  const Pi: real := 3.141592653589793

  const ParticleCount: nat := 300
  const FixedBuildingCount: nat := 3
  const GeneratedBuildingCount: nat := 5
  const AxesHelper: string := "axesHelper"
  const GridHelper: string := "gridHelper"

  /** A building mesh: its rotation about the vertical axis and its height. */
  datatype Mesh = Mesh(rotationY: real, positionY: real)

  /** `n` children without a name (Three.js names a new object ""). */
  function Unnamed(n: nat): (r: seq<string>)
    ensures |r| == n && forall k :: 0 <= k < n ==> r[k] == ""
  {
    if n == 0 then [] else Unnamed(n - 1) + [""]
  }

  /** Children added by `init` before the particles: 4 lights, 3 buildings, the platform, 5 generated meshes; none named. */
  function ArchitectureChildren(): seq<string>
  {
    Unnamed(13)
  }

  /** The main building, the glass tower and the steel structure (turned by a twelfth of a turn). */
  const FixedBuildings: seq<Mesh> := [Mesh(0.0, 0.0), Mesh(0.0, 1.0), Mesh(Pi / 6.0, -1.0)]

  /** The `i`-th generated mesh: each draws 8 random numbers, of which the 6th gives its height and the 8th its turn. */
  function GeneratedMesh(random: nat -> real, i: nat): (m: Mesh)
    ensures 0.0 <= random(8 * i + 5) < 1.0 ==> -1.0 <= m.positionY < 1.0
    ensures 0.0 <= random(8 * i + 7) < 1.0 ==> 0.0 <= m.rotationY < Pi
  {
    Mesh(random(8 * i + 7) * Pi, random(8 * i + 5) * 2.0 - 1.0)
  }

  /** The first `n` generated meshes, in creation order. */
  function GeneratedMeshes(random: nat -> real, n: nat): (ms: seq<Mesh>)
    ensures |ms| == n
    ensures forall i :: 0 <= i < n ==> ms[i] == GeneratedMesh(random, i)
  {
    if n == 0 then [] else GeneratedMeshes(random, n - 1) + [GeneratedMesh(random, n - 1)]
  }

  /** The `buildings` list `createArchitecture` leaves: the fixed three, then the five generated ones (not the platform). */
  function InitialBuildings(random: nat -> real): (bs: seq<Mesh>)
    ensures |bs| == FixedBuildingCount + GeneratedBuildingCount
    ensures bs[..FixedBuildingCount] == FixedBuildings
    ensures forall i :: 0 <= i < GeneratedBuildingCount ==> bs[FixedBuildingCount + i] == GeneratedMesh(random, i)
  {
    FixedBuildings + GeneratedMeshes(random, GeneratedBuildingCount)
  }

  /** One more unnamed child appended. */
  lemma UnnamedAppend(s: seq<string>, n: nat)
    ensures s + Unnamed(n) + [""] == s + Unnamed(n + 1)
  {
    assert Unnamed(n + 1) == Unnamed(n) + [""];
  }

  /** One more generated mesh appended. */
  lemma GeneratedAppend(s: seq<Mesh>, random: nat -> real, n: nat)
    ensures s + GeneratedMeshes(random, n) + [GeneratedMesh(random, n)] == s + GeneratedMeshes(random, n + 1)
  {
    assert GeneratedMeshes(random, n + 1) == GeneratedMeshes(random, n) + [GeneratedMesh(random, n)];
  }

  /** Random draws made before the particle buffers are filled. */
  const DrawsBeforeParticles: nat := 8 * GeneratedBuildingCount

  /** Initial particle coordinate `k`: spread over [-12.5, 12.5) when the draw lies in [0, 1). */
  function ParticleCoordinate(random: nat -> real, k: nat): (c: real)
    ensures 0.0 <= random(DrawsBeforeParticles + k) < 1.0 ==> -12.5 <= c < 12.5
  {
    (random(DrawsBeforeParticles + k) - 0.5) * 25.0
  }

  /** Initial particle scale `k`. */
  function ParticleScale(random: nat -> real, k: nat): (s: real)
    ensures 0.0 <= random(940 + k) < 1.0 ==> 0.0 <= s < 1.0
  {
    random(DrawsBeforeParticles + 3 * ParticleCount + k)
  }

  /** The camera position `updateScroll(progress)` steers toward. */
  function ScrollTarget(progress: real, sin: real -> real): (t: Vec3)
    ensures 0.0 <= progress <= 1.0 ==> -5.0 <= t.z <= 15.0 && 5.0 <= t.y <= 15.0
    ensures progress == 0.0 ==> t.y == 5.0 && t.z == 15.0
    ensures progress == 1.0 ==> t.y == 15.0 && t.z == -5.0
  {
    Vec3(sin(progress * Pi * 2.0) * 5.0, 5.0 + progress * 10.0, 15.0 - progress * 20.0)
  }

  /** One smoothing step of every coordinate. */
  function LerpVec(c: Vec3, t: Vec3): (n: Vec3)
    ensures n.x - t.x == Remaining * (c.x - t.x)
    ensures n.y - t.y == Remaining * (c.y - t.y)
    ensures n.z - t.z == Remaining * (c.z - t.z)
  {
    Vec3(Lerp(c.x, t.x), Lerp(c.y, t.y), Lerp(c.z, t.z))
  }

  /** Each camera coordinate `updateScroll` moves lies between its old value and its target. */
  lemma ScrollCameraBetween(c: Vec3, progress: real, sin: real -> real)
    ensures var t, n := ScrollTarget(progress, sin), LerpVec(c, ScrollTarget(progress, sin));
      && Min(c.x, t.x) <= n.x <= Max(c.x, t.x)
      && Min(c.y, t.y) <= n.y <= Max(c.y, t.y)
      && Min(c.z, t.z) <= n.z <= Max(c.z, t.z)
  {
    var t := ScrollTarget(progress, sin);
    LerpBetween(c.x, t.x);
    LerpBetween(c.y, t.y);
    LerpBetween(c.z, t.z);
  }

  /** The camera after `n` scroll events that all report `progress`. */
  function ScrollCameraAfter(c: Vec3, progress: real, sin: real -> real, n: nat): Vec3
  {
    if n == 0 then c else LerpVec(ScrollCameraAfter(c, progress, sin, n - 1), ScrollTarget(progress, sin))
  }

  /** Every coordinate of the camera settles toward its target independently, as a plain smoothing sequence. */
  lemma {:induction false} ScrollCameraSettles(c: Vec3, progress: real, sin: real -> real, n: nat)
    ensures var t := ScrollTarget(progress, sin);
      ScrollCameraAfter(c, progress, sin, n) == Vec3(Settle(c.x, t.x, n), Settle(c.y, t.y, n), Settle(c.z, t.z, n))
  {
    if n > 0 {
      ScrollCameraSettles(c, progress, sin, n - 1);
    }
  }

  /** From anywhere in the depth range, 200 scroll events with the same progress bring the depth within 0.01 of `15 - 20 * progress`. */
  lemma CameraDepthConverges(c: Vec3, progress: real, sin: real -> real)
    requires 0.0 <= progress <= 1.0
    requires -5.0 <= c.z <= 15.0
    ensures -0.01 < ScrollCameraAfter(c, progress, sin, 200).z - (15.0 - progress * 20.0) < 0.01
  {
    ScrollCameraSettles(c, progress, sin, 200);
    SettlesWithin200(c.z, ScrollTarget(progress, sin).z);
  }

  /** What `updateScroll(progress)` does to building `index`: sets its turn outright, nudges its height. */
  function ScrolledBuilding(b: Mesh, index: nat, progress: real, sin: real -> real): Mesh
  {
    var offset := index as real * 0.1;
    Mesh(progress * Pi * 2.0 + offset, b.positionY + sin(progress * Pi + offset) * 0.01)
  }

  function ScrolledBuildings(bs: seq<Mesh>, progress: real, sin: real -> real): (r: seq<Mesh>)
    ensures |r| == |bs|
  {
    seq(|bs|, k requires 0 <= k < |bs| => ScrolledBuilding(bs[k], k, progress, sin))
  }

  /**
    Repeating a scroll position leaves every building's turn as it was (it depends
    on the position only) while the heights drift by the same amount again.
   */
  lemma ScrollRotationIsAbsolute(bs: seq<Mesh>, progress: real, sin: real -> real)
    ensures var once := ScrolledBuildings(bs, progress, sin);
      var twice := ScrolledBuildings(once, progress, sin);
      forall k :: 0 <= k < |bs| ==>
        && twice[k].rotationY == once[k].rotationY
        && twice[k].positionY - once[k].positionY == once[k].positionY - bs[k].positionY
  {
  }

  /** What an unpaused tick does to building `index`: a small turn that depends on the elapsed time. */
  function DriftedBuilding(b: Mesh, index: nat, elapsed: real, sin: real -> real): (r: Mesh)
    ensures r.positionY == b.positionY
  {
    b.(rotationY := b.rotationY + sin(elapsed + index as real) * 0.0005)
  }

  function DriftedBuildings(bs: seq<Mesh>, elapsed: real, sin: real -> real): (r: seq<Mesh>)
    ensures |r| == |bs|
  {
    seq(|bs|, k requires 0 <= k < |bs| => DriftedBuilding(bs[k], k, elapsed, sin))
  }

  /** The particle buffer after an unpaused tick: each y slot floats by a wave keyed by its own x slot. */
  function Wave(s: seq<real>, elapsed: real, sin: real -> real): (r: seq<real>)
    ensures |r| == |s|
  {
    seq(|s|, j requires 0 <= j < |s| => if j % 3 == 1 then s[j] + sin(elapsed * 0.5 + s[j - 1]) * 0.002 else s[j])
  }

  /** A tick keeps the buffer's length and changes only y slots (those at `i + 1` with `i` a multiple of 3). */
  lemma WaveTouchesOnlyY(s: seq<real>, elapsed: real, sin: real -> real)
    ensures |Wave(s, elapsed, sin)| == |s|
    ensures forall j :: 0 <= j < |s| && j % 3 != 1 ==> Wave(s, elapsed, sin)[j] == s[j]
    ensures forall j :: 0 <= j < |s| && j % 3 == 1 ==> Wave(s, elapsed, sin)[j] - s[j] == sin(elapsed * 0.5 + s[j - 1]) * 0.002
  {
  }

  /** `scene.remove(scene.getObjectByName(name))`: drops the first child called `name`, if any. */
  function RemoveFirst(s: seq<string>, name: string): (r: seq<string>)
    ensures |r| <= |s| <= |r| + 1
  {
    if s == [] then []
    else if s[0] == name then s[1..]
    else [s[0]] + RemoveFirst(s[1..], name)
  }

  /** Removing by name drops exactly one copy of the name when there is one, and is the identity otherwise. */
  lemma {:induction false} RemoveFirstSpec(s: seq<string>, name: string)
    ensures name !in s ==> RemoveFirst(s, name) == s
    ensures name in s ==> |RemoveFirst(s, name)| == |s| - 1
    ensures multiset(RemoveFirst(s, name)) == multiset(s) - multiset{name}
  {
    if s != [] {
      assert s == [s[0]] + s[1..];
      assert multiset(s) == multiset{s[0]} + multiset(s[1..]);
      if s[0] != name {
        var rest := RemoveFirst(s[1..], name);
        RemoveFirstSpec(s[1..], name);
        assert RemoveFirst(s, name) == [s[0]] + rest;
        assert multiset([s[0]] + rest) == multiset{s[0]} + multiset(rest);
        assert name in s <==> name in s[1..];
      }
    }
  }

  /** The children after `toggleDebug(true)`: both helpers appended, whether or not they were there already. */
  function DebugOn(children: seq<string>): (r: seq<string>)
    ensures |r| == |children| + 2 && r[..|children|] == children
  {
    children + [AxesHelper, GridHelper]
  }

  /** The children after `toggleDebug(false)`. */
  function DebugOff(children: seq<string>): (r: seq<string>)
    ensures |children| - 2 <= |r| <= |children|
  {
    RemoveFirst(RemoveFirst(children, AxesHelper), GridHelper)
  }

  /** Switching debug on adds one child of each helper name every time: the toggle is not idempotent. */
  lemma DebugOnAddsPair(children: seq<string>)
    ensures |DebugOn(children)| == |children| + 2
    ensures multiset(DebugOn(children))[AxesHelper] == multiset(children)[AxesHelper] + 1
    ensures multiset(DebugOn(children))[GridHelper] == multiset(children)[GridHelper] + 1
    ensures multiset(DebugOn(DebugOn(children)))[AxesHelper] == multiset(children)[AxesHelper] + 2
  {
  }

  /**
    Switching debug off removes at most one child of each helper name, keeps every
    other child, and changes nothing when neither helper is there.
   */
  lemma DebugOffRemovesAtMostOne(children: seq<string>)
    ensures multiset(DebugOff(children))[AxesHelper] == if AxesHelper in children then multiset(children)[AxesHelper] - 1 else 0
    ensures multiset(DebugOff(children))[GridHelper] == if GridHelper in children then multiset(children)[GridHelper] - 1 else 0
    ensures forall x :: x != AxesHelper && x != GridHelper ==> multiset(DebugOff(children))[x] == multiset(children)[x]
    ensures AxesHelper !in children && GridHelper !in children ==> DebugOff(children) == children
  {
    var once := RemoveFirst(children, AxesHelper);
    RemoveFirstCounts(children, AxesHelper);
    RemoveFirstCounts(once, GridHelper);
    assert GridHelper in once <==> GridHelper in multiset(once);
    assert GridHelper in children <==> GridHelper in multiset(children);
  }

  /** How many children of each name survive `RemoveFirst`. */
  lemma RemoveFirstCounts(s: seq<string>, name: string)
    ensures forall x :: multiset(RemoveFirst(s, name))[x] == if x == name && name in s then multiset(s)[x] - 1 else multiset(s)[x]
    ensures name !in s ==> multiset(s)[name] == 0 && RemoveFirst(s, name) == s
  {
    RemoveFirstSpec(s, name);
    assert name in s <==> name in multiset(s);
  }

  lemma {:induction false} RemoveFirstAppended(s: seq<string>, name: string, t: seq<string>)
    requires name !in s
    requires t != [] && t[0] == name
    ensures RemoveFirst(s + t, name) == s + t[1..]
  {
    if s == [] {
      assert s + t == t;
      assert t == [t[0]] + t[1..];
      assert RemoveFirst(t, name) == t[1..];
    } else {
      var st := s + t;
      assert st[0] == s[0] && s[0] != name;
      assert st[1..] == s[1..] + t;
      assert name !in s[1..];
      assert RemoveFirst(st, name) == [s[0]] + RemoveFirst(s[1..] + t, name);
      RemoveFirstAppended(s[1..], name, t);
      assert [s[0]] + (s[1..] + t[1..]) == s + t[1..];
    }
  }

  /** Debug on and then off restores a child list that held no helpers. */
  lemma DebugRoundTrip(children: seq<string>)
    requires AxesHelper !in children && GridHelper !in children
    ensures DebugOff(DebugOn(children)) == children
  {
    RemoveFirstAppended(children, AxesHelper, [AxesHelper, GridHelper]);
    assert [AxesHelper, GridHelper][1..] == [GridHelper];
    RemoveFirstAppended(children, GridHelper, [GridHelper]);
    assert children + [GridHelper][1..] == children;
  }

  /** `createParticles`' two loops: 300 positions of three coordinates each, then 300 scales. */
  method CreateParticleBuffers(random: nat -> real) returns (positions: array<real>, scales: array<real>)
    ensures fresh(positions) && fresh(scales)
    ensures positions.Length == 3 * ParticleCount && scales.Length == ParticleCount
    ensures forall k :: 0 <= k < positions.Length ==> positions[k] == ParticleCoordinate(random, k)
    ensures forall k :: 0 <= k < scales.Length ==> scales[k] == ParticleScale(random, k)
  {
    positions := new real[3 * ParticleCount];
    scales := new real[ParticleCount];
    for i := 0 to 3 * ParticleCount
      invariant forall k :: 0 <= k < i ==> positions[k] == ParticleCoordinate(random, k)
    {
      positions[i] := (random(DrawsBeforeParticles + i) - 0.5) * 25.0;
    }
    for i := 0 to ParticleCount
      invariant forall k :: 0 <= k < i ==> scales[k] == ParticleScale(random, k)
      invariant forall k :: 0 <= k < positions.Length ==> positions[k] == ParticleCoordinate(random, k)
    {
      scales[i] := random(DrawsBeforeParticles + 3 * ParticleCount + i);
    }
  }

  class Scene3D {
    /** Whether the page has the `canvas3d` element; `init` (camera, renderer, geometry) runs only then. */
    const hasCanvas: bool
    /** The particle buffers (null when `init` never ran). */
    const positions: array?<real>
    const scales: array?<real>

    /** Names of the scene's direct children, in the order they were added. */
    var children: seq<string>
    var buildings: seq<Mesh>
    var camera: Vec3
    var mouse: Vec2
    var targetMouse: Vec2
    var scrollProgress: real
    var isPaused: bool
    var particleRotation: Vec2
    /** How many frames the renderer has drawn. */
    var renders: nat

    /** The controller's invariant: the buffers exist exactly after `init`, with their fixed sizes, and so do the eight buildings. */
    ghost predicate Valid()
      reads this
    {
      && (positions != null <==> hasCanvas)
      && (scales != null <==> hasCanvas)
      && (positions != null ==> positions.Length == 3 * ParticleCount)
      && (scales != null ==> scales.Length == ParticleCount)
      && |buildings| == (if hasCanvas then FixedBuildingCount + GeneratedBuildingCount else 0)
    }

    /** `new Scene3D()`: the fields' defaults, then `init` when the canvas exists (without its first tick, which is the first `Animate`). */
    constructor (hasCanvas: bool, random: nat -> real)
      ensures Valid()
      ensures this.hasCanvas == hasCanvas
      ensures hasCanvas ==> fresh(positions) && fresh(scales)
      ensures hasCanvas ==> children == ArchitectureChildren() + [""] && buildings == InitialBuildings(random)
      ensures hasCanvas ==> camera == Vec3(0.0, 5.0, 15.0)
      ensures hasCanvas ==> forall k :: 0 <= k < positions.Length ==> positions[k] == ParticleCoordinate(random, k)
      ensures hasCanvas ==> forall k :: 0 <= k < scales.Length ==> scales[k] == ParticleScale(random, k)
      ensures !hasCanvas ==> children == [] && buildings == []
      ensures mouse == Vec2(0.0, 0.0) && targetMouse == Vec2(0.0, 0.0)
      ensures scrollProgress == 0.0 && !isPaused && renders == 0
    {
      this.hasCanvas := hasCanvas;
      if hasCanvas {
        var p, s := CreateParticleBuffers(random);
        positions, scales := p, s;
      } else {
        positions, scales := null, null;
      }
      children, buildings := [], [];
      camera := Vec3(0.0, 0.0, 0.0);
      mouse, targetMouse := Vec2(0.0, 0.0), Vec2(0.0, 0.0);
      scrollProgress, isPaused := 0.0, false;
      particleRotation, renders := Vec2(0.0, 0.0), 0;
      new;
      if hasCanvas {
        camera := Vec3(0.0, 5.0, 15.0);
        children := children + Unnamed(4);
        CreateArchitecture(random);
        children := children + [""];
      }
    }

    /** `createArchitecture`: three fixed buildings, the platform (a child but not a building), five generated ones. */
    method CreateArchitecture(random: nat -> real)
      modifies this`children, this`buildings
      ensures children == old(children) + Unnamed(9)
      ensures buildings == old(buildings) + InitialBuildings(random)
    {
      var names := children + Unnamed(3);
      var meshes := buildings + FixedBuildings;
      names := names + [""];
      UnnamedAppend(children, 3);
      var i := 0;
      while i < GeneratedBuildingCount
        invariant 0 <= i <= GeneratedBuildingCount
        invariant names == old(children) + Unnamed(4 + i)
        invariant meshes == old(buildings) + FixedBuildings + GeneratedMeshes(random, i)
      {
        var mesh := Mesh(random(8 * i + 7) * Pi, random(8 * i + 5) * 2.0 - 1.0);
        UnnamedAppend(old(children), 4 + i);
        GeneratedAppend(old(buildings) + FixedBuildings, random, i);
        names := names + [""];
        meshes := meshes + [mesh];
        i := i + 1;
      }
      assert meshes == old(buildings) + (FixedBuildings + GeneratedMeshes(random, GeneratedBuildingCount));
      children, buildings := names, meshes;
    }

    /** A pointer move (listened to only after `init`): the new parallax target, in [-1, 1] on each axis inside the window. */
    method OnMouseMove(pointer: Vec2, innerWidth: real, innerHeight: real)
      requires innerWidth > 0.0 && innerHeight > 0.0
      modifies this`targetMouse
      ensures targetMouse == Vec2(PointerUnit(pointer.x, innerWidth), PointerUnit(pointer.y, innerHeight))
    {
      targetMouse := Vec2((pointer.x / innerWidth - 0.5) * 2.0, (pointer.y / innerHeight - 0.5) * 2.0);
    }

    /** `updateScroll(progress)`: stores the progress; after `init` also steers the camera and sets the buildings' turns. */
    method UpdateScroll(progress: real, sin: real -> real)
      requires Valid()
      modifies this`scrollProgress, this`camera, this`buildings
      ensures Valid()
      ensures scrollProgress == progress
      ensures !hasCanvas ==> camera == old(camera) && buildings == old(buildings)
      ensures hasCanvas ==> camera == LerpVec(old(camera), ScrollTarget(progress, sin))
      ensures hasCanvas ==> buildings == ScrolledBuildings(old(buildings), progress, sin)
    {
      scrollProgress := progress;
      if !hasCanvas {
        return;
      }
      var targetZ := 15.0 - progress * 20.0;
      var targetY := 5.0 + progress * 10.0;
      var targetX := sin(progress * Pi * 2.0) * 5.0;
      camera := camera.(x := camera.x + (targetX - camera.x) * 0.05);
      camera := camera.(y := camera.y + (targetY - camera.y) * 0.05);
      camera := camera.(z := camera.z + (targetZ - camera.z) * 0.05);
      assert camera == LerpVec(old(camera), ScrollTarget(progress, sin));
      var bs := buildings;
      var index := 0;
      while index < |bs|
        invariant 0 <= index <= |bs| == |buildings|
        invariant forall k :: 0 <= k < index ==> bs[k] == ScrolledBuilding(buildings[k], k, progress, sin)
        invariant forall k :: index <= k < |bs| ==> bs[k] == buildings[k]
      {
        var offset := index as real * 0.1;
        var b := bs[index];
        bs := bs[index := Mesh(progress * Pi * 2.0 + offset, b.positionY + sin(progress * Pi + offset) * 0.01)];
        index := index + 1;
      }
      buildings := bs;
    }

    /**
      One animation frame, given the clock's delta and elapsed time. Without `init`
      nothing happens; while paused nothing changes and nothing is drawn; otherwise
      the pointer is smoothed, the camera nudged, buildings and particles drift, and
      a frame is drawn.
     */
    method Animate(delta: real, elapsed: real, sin: real -> real)
      requires Valid()
      modifies this`mouse, this`camera, this`buildings, this`particleRotation, this`renders, positions
      ensures Valid()
      ensures !hasCanvas || isPaused ==>
        && mouse == old(mouse) && camera == old(camera) && buildings == old(buildings)
        && particleRotation == old(particleRotation) && renders == old(renders)
        && (positions != null ==> positions[..] == old(positions[..]))
      ensures hasCanvas && !isPaused ==>
        && mouse == Vec2(Lerp(old(mouse).x, targetMouse.x), Lerp(old(mouse).y, targetMouse.y))
        && camera == old(camera).(x := old(camera).x + mouse.x * 0.5 * delta, y := old(camera).y - mouse.y * 0.3 * delta)
        && buildings == DriftedBuildings(old(buildings), elapsed, sin)
        && particleRotation == Vec2(mouse.y * 0.1, elapsed * 0.05)
        && positions[..] == Wave(old(positions[..]), elapsed, sin)
        && renders == old(renders) + 1
    {
      if !hasCanvas {
        return;
      }
      if isPaused {
        return;
      }
      mouse := Vec2(mouse.x + (targetMouse.x - mouse.x) * 0.05, mouse.y + (targetMouse.y - mouse.y) * 0.05);
      camera := camera.(x := camera.x + mouse.x * 0.5 * delta);
      camera := camera.(y := camera.y + -mouse.y * 0.3 * delta);
      var bs := buildings;
      var index := 0;
      while index < |bs|
        invariant 0 <= index <= |bs| == |buildings|
        invariant forall k :: 0 <= k < index ==> bs[k] == DriftedBuilding(buildings[k], k, elapsed, sin)
        invariant forall k :: index <= k < |bs| ==> bs[k] == buildings[k]
      {
        var b := bs[index];
        bs := bs[index := b.(rotationY := b.rotationY + sin(elapsed + index as real) * 0.0005)];
        index := index + 1;
      }
      buildings := bs;
      particleRotation := Vec2(mouse.y * 0.1, elapsed * 0.05);
      FloatParticles(elapsed, sin);
      renders := renders + 1;
    }

    /** The wave loop over the position buffer: every third slot starting at 1 moves, in place. */
    method FloatParticles(elapsed: real, sin: real -> real)
      requires Valid() && hasCanvas
      modifies positions
      ensures positions[..] == Wave(old(positions[..]), elapsed, sin)
    {
      ghost var start := positions[..];
      ghost var particle := 0;
      var i := 0;
      while i < positions.Length
        invariant i == 3 * particle && 0 <= particle <= ParticleCount
        invariant forall j :: i <= j < positions.Length ==> positions[j] == start[j]
        invariant forall j :: 0 <= j < i ==> positions[j] == Wave(start, elapsed, sin)[j]
      {
        assert i % 3 == 0 && (i + 1) % 3 == 1 && (i + 2) % 3 == 2;
        positions[i + 1] := positions[i + 1] + sin(elapsed * 0.5 + positions[i]) * 0.002;
        i := i + 3;
        particle := particle + 1;
      }
      assert positions[..] == Wave(start, elapsed, sin);
    }

    method Pause()
      modifies this`isPaused
      ensures isPaused
    {
      isPaused := true;
    }

    method Resume()
      modifies this`isPaused
      ensures !isPaused
    {
      isPaused := false;
    }

    /**
      `toggleDebug(enabled)`: adds the two helpers or removes one of each. Without
      `init` there is no scene object and the call throws a TypeError, changing nothing.
     */
    method ToggleDebug(enabled: bool) returns (threw: bool)
      modifies this`children
      ensures threw == !hasCanvas
      ensures !hasCanvas ==> children == old(children)
      ensures hasCanvas && enabled ==> children == DebugOn(old(children))
      ensures hasCanvas && !enabled ==> children == DebugOff(old(children))
    {
      if !hasCanvas {
        return true;
      }
      if enabled {
        children := children + [AxesHelper];
        children := children + [GridHelper];
      } else {
        var withoutAxes := RemoveFirst(children, AxesHelper);
        children := RemoveFirst(withoutAxes, GridHelper);
      }
      return false;
    }
  }
}
