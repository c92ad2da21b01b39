/**
 * The floor socket demo's state and the functions that change it: the
 * builders that fill the `vertices`, `colors` and `indices` arrays, the
 * rebuild `updateBuffers`, the open/close/reset commands and the slider,
 * the per-frame `updateAnimation`, and the camera handlers. Each builder
 * is proved to append exactly the block `SocketGeometry` describes, and
 * the commands keep the arrays showing the current cover angle.
 */
module FloorSocket {
  import opened Algebra
  import opened Buffers
  import opened SocketGeometry
  import opened SocketAnimation

  /** `animationAxis`: null, 'x', 'y' or 'z'. */
  datatype Axis = NoAxis | AxisX | AxisY | AxisZ

  /** The socket demo's module-level state. */
  class Socket {
    /** The host's trigonometry and vector helpers. */
    const lib: MathLib

    var vertices: seq<Vec4>
    var colors: seq<Rgba>
    var indices: seq<int>

    var coverAngle: real
    var isOpening: bool
    var isClosing: bool
    var showGrid: bool

    /** objectRotation.x, .y and .z in degrees, and the auto-rotation switch. */
    var rotationX: real
    var rotationY: real
    var rotationZ: real
    var animationActive: bool
    var animationAxis: Axis

    /** cameraRotation.x (pitch) and .y (yaw) in degrees, the camera distance, and translation.x/.y (the pan). */
    var cameraPitch: real
    var cameraYaw: real
    var zoom: real
    var panX: real
    var panY: real
    var mouseDown: bool
    var mouseButton: int
    var lastMouseX: real
    var lastMouseY: real

    function Contents(): Mesh
      reads this`vertices, this`colors, this`indices
    {
      Mesh(vertices, colors, indices)
    }

    function CoverState(): Cover
      reads this`coverAngle, this`isOpening, this`isClosing
    {
      Cover(coverAngle, isOpening, isClosing)
    }

    /** The arrays hold the socket at `angle`, followed by the grid when `grid` is set. */
    ghost predicate Shows(angle: real, grid: bool)
      reads this`vertices, this`colors, this`indices
    {
      Contents() == Displayed(lib, angle, grid)
    }

    /**
     * The arrays always show the current cover angle and grid setting, the
     * angle stays within [0, 85], and at most one of the two flags is set.
     */
    ghost predicate Valid()
      reads this
    {
      Shows(coverAngle, showGrid) && Reachable(CoverState())
    }

    /** `init`: the closed socket and the grid, everything at rest. */
    constructor (lib: MathLib)
      ensures this.lib == lib
      ensures Valid()
      ensures CoverState() == Cover(0.0, false, false) && showGrid
      ensures !animationActive && animationAxis == NoAxis
      ensures rotationX == 0.0 && rotationY == 0.0 && rotationZ == 0.0
      ensures cameraPitch == 30.0 && cameraYaw == -45.0 && zoom == 5.0 && panX == 0.0 && panY == 0.0
      ensures !mouseDown
    {
      this.lib := lib;
      vertices, colors, indices := [], [], [];
      coverAngle, isOpening, isClosing, showGrid := 0.0, false, false, true;
      rotationX, rotationY, rotationZ := 0.0, 0.0, 0.0;
      animationActive, animationAxis := false, NoAxis;
      cameraPitch, cameraYaw, zoom, panX, panY := 30.0, -45.0, 5.0, 0.0, 0.0;
      mouseDown, mouseButton, lastMouseX, lastMouseY := false, 0, 0.0, 0.0;
      new;
      CreateFloorSocket();
      CreateGrid();
    }

    // -------------------------------------------------------------------
    // The builders

    /** A builder's vertex loop: each vertex pushed with its colour. */
    method PushVertices(vs: seq<Vec4>, cs: seq<Rgba>)
      requires |cs| == |vs|
      modifies this`vertices, this`colors
      ensures vertices == old(vertices) + vs
      ensures colors == old(colors) + cs
    {
      var i := 0;
      while i < |vs|
        invariant 0 <= i <= |vs|
        invariant vertices == old(vertices) + vs[..i]
        invariant colors == old(colors) + cs[..i]
      {
        vertices := vertices + [vs[i]];
        colors := colors + [cs[i]];
        assert vs[..i + 1] == vs[..i] + [vs[i]];
        assert cs[..i + 1] == cs[..i] + [cs[i]];
        i := i + 1;
      }
      assert vs[..i] == vs;
      assert cs[..i] == cs;
    }

    /** A builder's index loop: `indices.push(startIndex + local[f])` for each local index. */
    method PushIndices(local: seq<int>, startIndex: int)
      modifies this`indices
      ensures indices == old(indices) + Shift(local, startIndex)
    {
      var f := 0;
      while f < |local|
        invariant 0 <= f <= |local|
        invariant indices == old(indices) + Shift(local, startIndex)[..f]
      {
        indices := indices + [startIndex + local[f]];
        assert Shift(local, startIndex)[..f + 1] == Shift(local, startIndex)[..f] + [startIndex + local[f]];
        f := f + 1;
      }
      assert Shift(local, startIndex)[..f] == Shift(local, startIndex);
    }

    /** `addBox`: eight corners in one colour, twelve triangles offset by the old vertex count. */
    method AddBox(x: real, y: real, z: real, width: real, height: real, depth: real, color: Rgba)
      modifies this`vertices, this`colors, this`indices
      ensures Contents() == AppendBox(old(Contents()), x, y, z, width, height, depth, color)
    {
      var startIndex := |vertices|;
      var boxVertices := BoxCorners(x, y, z, width, height, depth);
      PushVertices(boxVertices, Copies(color, 8));
      PushIndices(BOX_FACES, startIndex);
    }

    /** `addBaseFrame`: the bevelled frame, its back side in the darker colour. */
    method AddBaseFrame(x: real, y: real, z: real, width: real, depth: real, height: real,
                        bevel: real, color: Rgba)
      modifies this`vertices, this`colors, this`indices
      ensures Contents() == AppendBaseFrame(old(Contents()), x, y, z, width, depth, height, bevel, color)
    {
      var startIndex := |vertices|;
      var frameVertices := FrameCorners(x, y, z, width, depth, height, bevel);
      PushVertices(frameVertices, FrameColors(color));
      PushIndices(FRAME_FACES, startIndex);
    }

    /** `addTriangle`: three vertices, three colours, one triangle. */
    method AddTriangle(x: real, y: real, z: real, width: real, height: real, color: Rgba)
      modifies this`vertices, this`colors, this`indices
      ensures Contents() == AppendTriangle(old(Contents()), x, y, z, width, height, color)
    {
      var startIndex := |vertices|;
      var w2 := width / 2.0;
      vertices := vertices + [Point(x, y, z - height / 2.0)];
      vertices := vertices + [Point(x + w2, y, z + height / 2.0)];
      vertices := vertices + [Point(x - w2, y, z + height / 2.0)];
      colors := PushColor(colors, color, 3);
      indices := indices + [startIndex, startIndex + 1, startIndex + 2];
      assert Shift([0, 1, 2], startIndex) == [startIndex, startIndex + 1, startIndex + 2];
    }

    /**
     * `addPopUpMechanism`: the local arrays (wedge, back panel, socket
     * panel, two holes) pass through the hinge rotation into the global
     * arrays, their indices offset by the old vertex count.
     */
    method AddPopUpMechanism(x: real, y: real, z: real, width: real, depth: real, height: real,
                             angle: real, hingeZ: real, bodyColor: Rgba, panelColor: Rgba, holeColor: Rgba)
      modifies this`vertices, this`colors, this`indices
      ensures Contents() == AppendPopUp(old(Contents()), lib, x, y, z, width, depth, height, angle, hingeZ,
                                        bodyColor, panelColor, holeColor)
    {
      var startIndex := |vertices|;
      var local, currentVertex := BuildPopUpLocal(lib, width, depth, height, bodyColor, panelColor, holeColor);
      PopUpLocalShape(lib, width, depth, height, bodyColor, panelColor, holeColor);
      var rot := HingeRotation(lib, angle);
      PushPivoted(local.vertices, local.colors, rot, hingeZ, x, y, z);
      PushIndices(local.indices, startIndex);
    }

    /** The transform loop of `addPopUpMechanism`: each local vertex through the hinge, with its colour. */
    method PushPivoted(vs: seq<Vec4>, cs: seq<Rgba>, rot: CosSin, hingeZ: real, x: real, y: real, z: real)
      requires |cs| == |vs|
      modifies this`vertices, this`colors
      ensures vertices == old(vertices) + PivotAll(rot, vs, hingeZ, x, y, z)
      ensures colors == old(colors) + cs
    {
      var rotMatrix := RotateX(rot);
      ghost var placed := PivotAll(rot, vs, hingeZ, x, y, z);
      var i := 0;
      while i < |vs|
        invariant 0 <= i <= |vs|
        invariant vertices == old(vertices) + placed[..i]
        invariant colors == old(colors) + cs[..i]
      {
        var v := vs[i];
        v := v.(z := v.z - hingeZ);
        v := Apply(rotMatrix, v);
        v := v.(z := v.z + hingeZ);
        v := Vec4(v.x + x, v.y + y, v.z + z, v.w);
        vertices := vertices + [v];
        colors := colors + [cs[i]];
        assert placed[..i + 1] == placed[..i] + [v];
        assert cs[..i + 1] == cs[..i] + [cs[i]];
        i := i + 1;
      }
      assert placed[..i] == placed;
      assert cs[..i] == cs;
    }

    // -------------------------------------------------------------------
    // The grid and the rebuild

    /** `createGrid`: 21 lines along x, then 21 along z, pushed after everything else, without indices. */
    method CreateGrid()
      modifies this`vertices, this`colors
      ensures Contents() == AppendGrid(old(Contents()))
    {
      var gridVertices, gridColors := GridLinesAlongX();
      gridVertices, gridColors := GridLinesAlongZ(gridVertices, gridColors);
      vertices := vertices + gridVertices;
      colors := colors + gridColors;
    }

    /** `createFloorSocket`: clear the arrays, then the fixed parts and the flat cover or the pop-up. */
    method CreateFloorSocket()
      modifies this`vertices, this`colors, this`indices
      ensures Contents() == SocketMesh(lib, coverAngle)
    {
      vertices, colors, indices := [], [], [];
      AddFixedParts();
      ghost var calls := SocketCalls(coverAngle);
      if coverAngle == 0.0 {
        AddBox(0.0, BASE_HEIGHT / 2.0 - 0.1, 0.0, POPUP_WIDTH, 0.02, POPUP_DEPTH, BASE_COLOR);
      } else {
        AddPopUpMechanism(0.0, BASE_HEIGHT / 2.0, 0.0, POPUP_WIDTH, POPUP_DEPTH, POPUP_HEIGHT,
                          90.0 - coverAngle, HINGE_Z, POPUP_BODY_COLOR, SOCKET_PANEL_COLOR, SOCKET_HOLE_COLOR);
      }
      RunAllStep(lib, calls, 4);
      assert calls[..5] == calls;
    }

    /** The first four calls of `createFloorSocket`, on cleared arrays: frame, recess, button, indicator. */
    method AddFixedParts()
      requires Contents() == EMPTY
      modifies this`vertices, this`colors, this`indices
      ensures Contents() == RunAll(lib, SocketCalls(coverAngle)[..4])
    {
      ghost var calls := SocketCalls(coverAngle);
      AddBaseFrame(0.0, 0.0, 0.0, BASE_WIDTH, BASE_DEPTH, BASE_HEIGHT, BEVEL_SIZE, BASE_COLOR);
      RunAllStep(lib, calls, 0);
      AddBox(0.0, BASE_HEIGHT / 2.0 - 0.01, 0.0, BASE_WIDTH - BEVEL_SIZE * 2.0, 0.02,
             BASE_DEPTH - BEVEL_SIZE * 2.0, RECESS_COLOR);
      RunAllStep(lib, calls, 1);
      AddBox(0.0, BASE_HEIGHT / 2.0, BUTTON_Z, 0.5, 0.02, 0.15, BUTTON_COLOR);
      RunAllStep(lib, calls, 2);
      AddTriangle(0.0, BASE_HEIGHT / 2.0 + 0.011, BUTTON_Z, 0.1, 0.07, INDICATOR_COLOR);
      RunAllStep(lib, calls, 3);
    }

    /**
     * The geometry half of `updateBuffers`: rebuild the socket, then the
     * grid when it is shown. The arrays then show the current state.
     */
    method UpdateBuffers()
      modifies this`vertices, this`colors, this`indices
      ensures Shows(coverAngle, showGrid)
    {
      CreateFloorSocket();
      if showGrid {
        CreateGrid();
      }
    }

    // -------------------------------------------------------------------
    // Commands and the slider

    /** `openSocket`: opening on, closing off. */
    method OpenSocket()
      requires Valid()
      modifies this`isOpening, this`isClosing
      ensures Valid()
      ensures CoverState() == Cover(old(coverAngle), true, false)
    {
      isOpening := true;
      isClosing := false;
    }

    /** `closeSocket`: closing on, opening off. */
    method CloseSocket()
      requires Valid()
      modifies this`isOpening, this`isClosing
      ensures Valid()
      ensures CoverState() == Cover(old(coverAngle), false, true)
    {
      isClosing := true;
      isOpening := false;
    }

    /** `resetAnimation`: the cover flat, both flags off, geometry rebuilt. */
    method ResetAnimation()
      modifies this`coverAngle, this`isOpening, this`isClosing
      modifies this`vertices, this`colors, this`indices
      ensures Valid()
      ensures CoverState() == Cover(0.0, false, false)
    {
      coverAngle := 0.0;
      isOpening := false;
      isClosing := false;
      UpdateBuffers();
    }

    /** The cover slider's `input` handler: the value kept within [0, 85], geometry rebuilt. */
    method SetCoverAngle(value: real)
      requires Valid()
      modifies this`coverAngle, this`vertices, this`colors, this`indices
      ensures Valid()
      ensures coverAngle == Clamp(value, 0.0, COVER_MAX_ANGLE)
    {
      coverAngle := value;
      if coverAngle > COVER_MAX_ANGLE {
        coverAngle := COVER_MAX_ANGLE;
      }
      if coverAngle < 0.0 {
        coverAngle := 0.0;
      }
      UpdateBuffers();
    }

    /** `toggleGrid`: the grid on or off, geometry rebuilt. */
    method ToggleGrid()
      requires Valid()
      modifies this`showGrid, this`vertices, this`colors, this`indices
      ensures Valid()
      ensures showGrid == !old(showGrid)
    {
      showGrid := !showGrid;
      UpdateBuffers();
    }

    /** `animateRotationX`, `animateRotationY` and `animateRotationZ`. */
    method AnimateRotation(axis: Axis)
      requires axis != NoAxis
      modifies this`animationActive, this`animationAxis
      ensures animationActive && animationAxis == axis
    {
      animationActive := true;
      animationAxis := axis;
    }

    /** `stopRotation`. */
    method StopRotation()
      modifies this`animationActive, this`animationAxis
      ensures !animationActive && animationAxis == NoAxis
    {
      animationActive := false;
      animationAxis := NoAxis;
    }

    // -------------------------------------------------------------------
    // The frame update

    /**
     * `updateAnimation`: one cover tick, a rebuild when the cover moved,
     * then one auto-rotation step of the active axis.
     */
    method UpdateAnimation()
      requires Valid()
      modifies this`coverAngle, this`isOpening, this`isClosing
      modifies this`vertices, this`colors, this`indices
      modifies this`rotationX, this`rotationY, this`rotationZ
      ensures Valid()
      ensures CoverState() == CoverTick(old(CoverState())).next
      ensures !CoverTick(old(CoverState())).needsUpdate ==> Contents() == old(Contents())
      ensures rotationX == if old(animationActive) && animationAxis == AxisX then RotationStep(old(rotationX)) else old(rotationX)
      ensures rotationY == if old(animationActive) && animationAxis == AxisY then RotationStep(old(rotationY)) else old(rotationY)
      ensures rotationZ == if old(animationActive) && animationAxis == AxisZ then RotationStep(old(rotationZ)) else old(rotationZ)
    {
      UpdateCover();
      AutoRotate();
    }

    /** The socket half of `updateAnimation`: one cover tick, and a rebuild when the cover moved. */
    method UpdateCover()
      requires Valid()
      modifies this`coverAngle, this`isOpening, this`isClosing
      modifies this`vertices, this`colors, this`indices
      ensures Valid()
      ensures CoverState() == CoverTick(old(CoverState())).next
      ensures !CoverTick(old(CoverState())).needsUpdate ==> Contents() == old(Contents())
    {
      var needsUpdate := AdvanceCover();
      TickStaysReachable(old(CoverState()));
      if needsUpdate {
        UpdateBuffers();
      }
    }

    /** The cover half of `updateAnimation`, before the rebuild. */
    method AdvanceCover() returns (needsUpdate: bool)
      modifies this`coverAngle, this`isOpening, this`isClosing
      ensures CoverState() == CoverTick(old(CoverState())).next
      ensures needsUpdate == CoverTick(old(CoverState())).needsUpdate
    {
      needsUpdate := false;
      if isOpening && coverAngle < COVER_MAX_ANGLE {
        coverAngle := coverAngle + OPEN_SPEED;
        if coverAngle >= COVER_MAX_ANGLE {
          coverAngle := COVER_MAX_ANGLE;
          isOpening := false;
        }
        needsUpdate := true;
      }
      if isClosing && coverAngle > 0.0 {
        coverAngle := coverAngle - OPEN_SPEED;
        if coverAngle <= 0.0 {
          coverAngle := 0.0;
          isClosing := false;
        }
        needsUpdate := true;
      }
    }

    /** The auto-rotation half of `updateAnimation`: the active axis advances by 2 degrees modulo 360. */
    method AutoRotate()
      modifies this`rotationX, this`rotationY, this`rotationZ
      ensures rotationX == if animationActive && animationAxis == AxisX then RotationStep(old(rotationX)) else old(rotationX)
      ensures rotationY == if animationActive && animationAxis == AxisY then RotationStep(old(rotationY)) else old(rotationY)
      ensures rotationZ == if animationActive && animationAxis == AxisZ then RotationStep(old(rotationZ)) else old(rotationZ)
    {
      if animationActive && animationAxis != NoAxis {
        match animationAxis
        case AxisX => rotationX := JsRem(rotationX + ROTATION_SPEED, 360.0);
        case AxisY => rotationY := JsRem(rotationY + ROTATION_SPEED, 360.0);
        case AxisZ => rotationZ := JsRem(rotationZ + ROTATION_SPEED, 360.0);
      }
    }

    // -------------------------------------------------------------------
    // The camera

    /** `mousedown`: remember the button and where the drag starts. */
    method MouseDown(button: int, x: real, y: real)
      modifies this`mouseDown, this`mouseButton, this`lastMouseX, this`lastMouseY
      ensures mouseDown && mouseButton == button && lastMouseX == x && lastMouseY == y
    {
      mouseDown := true;
      mouseButton := button;
      lastMouseX := x;
      lastMouseY := y;
    }

    /** `mouseup`. */
    method MouseUp()
      modifies this`mouseDown
      ensures !mouseDown
    {
      mouseDown := false;
    }

    /**
     * `mousemove`: while a button is down, the left button turns the camera
     * half a degree per pixel, pitch kept within [-89, 89], and the right
     * button pans 0.01 per pixel; any other button only moves the anchor.
     */
    method MouseMove(x: real, y: real)
      modifies this`cameraPitch, this`cameraYaw, this`panX, this`panY, this`lastMouseX, this`lastMouseY
      ensures -89.0 <= old(cameraPitch) <= 89.0 ==> -89.0 <= cameraPitch <= 89.0
      ensures !old(mouseDown) ==> cameraPitch == old(cameraPitch) && cameraYaw == old(cameraYaw)
                                  && panX == old(panX) && panY == old(panY)
                                  && lastMouseX == old(lastMouseX) && lastMouseY == old(lastMouseY)
      ensures old(mouseDown) ==> lastMouseX == x && lastMouseY == y
      ensures old(mouseDown) && mouseButton == 0 ==>
                cameraYaw == old(cameraYaw) - (x - old(lastMouseX)) * 0.5
                && cameraPitch == Clamp(old(cameraPitch) + (y - old(lastMouseY)) * 0.5, -89.0, 89.0)
                && panX == old(panX) && panY == old(panY)
      ensures old(mouseDown) && mouseButton == 2 ==>
                panX == old(panX) - (x - old(lastMouseX)) * 0.01 && panY == old(panY) + (y - old(lastMouseY)) * 0.01
                && cameraPitch == old(cameraPitch) && cameraYaw == old(cameraYaw)
      ensures old(mouseDown) && mouseButton != 0 && mouseButton != 2 ==>
                cameraPitch == old(cameraPitch) && cameraYaw == old(cameraYaw) && panX == old(panX) && panY == old(panY)
    {
      if !mouseDown {
        return;
      }
      var deltaX := x - lastMouseX;
      var deltaY := y - lastMouseY;
      if mouseButton == 0 {
        cameraYaw := cameraYaw - deltaX * 0.5;
        cameraPitch := cameraPitch + deltaY * 0.5;
        cameraPitch := Clamp(cameraPitch, -89.0, 89.0);
      } else if mouseButton == 2 {
        panX := panX - deltaX * 0.01;
        panY := panY + deltaY * 0.01;
      }
      lastMouseX := x;
      lastMouseY := y;
    }

    /** `wheel`: the distance moves by 0.01 per unit of scroll, kept within [1, 20]. */
    method Wheel(deltaY: real)
      modifies this`zoom
      ensures 1.0 <= zoom <= 20.0
      ensures zoom == Clamp(old(zoom) + deltaY * 0.01, 1.0, 20.0)
    {
      zoom := zoom + deltaY * 0.01;
      zoom := Clamp(zoom, 1.0, 20.0);
    }
  }

  /** `n` more copies of a colour pushed onto `cs`, as the builders' colour loops do. */
  method PushColor(cs: seq<Rgba>, color: Rgba, n: nat) returns (r: seq<Rgba>)
    ensures r == cs + Copies(color, n)
  {
    r := cs;
    var i := 0;
    while i < n
      invariant 0 <= i <= n
      invariant r == cs + Copies(color, i)
    {
      r := r + [color];
      AppendCopies(cs, color, i, 1);
      i := i + 1;
    }
  }

  /**
   * The local half of `addPopUpMechanism`: the wedge, the back panel, the
   * socket panel and the two holes, with `currentVertex` counting the local
   * vertices.
   */
  method BuildPopUpLocal(lib: MathLib, width: real, depth: real, height: real,
                         bodyColor: Rgba, panelColor: Rgba, holeColor: Rgba)
    returns (local: Mesh, currentVertex: int)
    ensures local == PopUpLocal(lib, width, depth, height, bodyColor, panelColor, holeColor)
    ensures currentVertex == |local.vertices|
  {
    var frame;
    local, currentVertex, frame := BuildPanels(lib, width, depth, height, bodyColor, panelColor);

    // The two holes.
    var holes := HoleLayoutOf(lib, frame);
    local, currentVertex := CreateCircle(lib, local, currentVertex, holes.left, holes, holeColor);
    local, currentVertex := CreateCircle(lib, local, currentVertex, holes.right, holes, holeColor);
  }

  /**
   * The first three parts of `addPopUpMechanism`'s local arrays: the wedge,
   * the back panel, and the socket panel on the wedge's slope, with the
   * slope's frame the holes are placed in.
   */
  method BuildPanels(lib: MathLib, width: real, depth: real, height: real, bodyColor: Rgba, panelColor: Rgba)
    returns (local: Mesh, currentVertex: int, frame: PanelFrame)
    ensures var l2 := BackPanelStep(WedgeStep(EMPTY, width / 2.0, depth / 2.0, height, bodyColor), width, height, depth / 2.0, bodyColor);
            && frame == PanelFrameOf(lib, l2.vertices)
            && local == SocketPanelStep(l2, frame, panelColor)
    ensures currentVertex == |local.vertices|
  {
    local := EMPTY;
    currentVertex := 0;
    var w2 := width / 2.0;
    var d2 := depth / 2.0;

    // The wedge.
    var lc := PushColor(local.colors, bodyColor, 6);
    local := Mesh(local.vertices + WedgeCorners(w2, d2, height), lc, local.indices + WEDGE_FACES);
    currentVertex := currentVertex + 6;

    // The back panel.
    var backPanelColor := Lighten(bodyColor);
    lc := PushColor(local.colors, backPanelColor, 8);
    var backStart := currentVertex;
    local := Mesh(local.vertices + BackPanelCorners(width, height, d2), lc,
                  local.indices + Shift(BACK_PANEL_FACES, backStart));
    currentVertex := currentVertex + 8;

    // The socket panel.
    frame := PanelFrameOf(lib, local.vertices);
    lc := PushColor(local.colors, panelColor, 4);
    local := Mesh(local.vertices + SocketPanelCorners(frame), lc,
                  local.indices + Shift(QUAD_FACES, currentVertex));
    currentVertex := currentVertex + 4;
  }

  /**
   * `createCircle`: the centre, the 16 rim points, then the 15 fan
   * triangles, each (centre, rim i, rim i + 1).
   */
  method CreateCircle(lib: MathLib, local: Mesh, currentVertex: int, center: Vec4, holes: HoleLayout, holeColor: Rgba)
    returns (r: Mesh, nextVertex: int)
    requires currentVertex == |local.vertices|
    ensures r == CircleStep(lib, local, center, holes, holeColor)
    ensures nextVertex == currentVertex + HOLE_SEGMENTS + 2
  {
    var centerIndex := currentVertex;
    var vs := local.vertices + [center];
    var cs := local.colors + [holeColor];
    nextVertex := currentVertex + 1;
    ghost var rim := seq(HOLE_SEGMENTS + 1, i requires 0 <= i <= HOLE_SEGMENTS =>
                         RimPoint(lib, center, holes.rightVec, holes.upVec, i));
    var i := 0;
    while i <= HOLE_SEGMENTS
      invariant 0 <= i <= HOLE_SEGMENTS + 1
      invariant vs == local.vertices + [center] + rim[..i]
      invariant cs == local.colors + Copies(holeColor, i + 1)
    {
      var c := lib.circle(i, HOLE_SEGMENTS);
      var xComp := Scale(HOLE_RADIUS * c.cos, holes.rightVec);
      var yComp := Scale(HOLE_RADIUS * c.sin, holes.upVec);
      vs := vs + [Add(Add(center, xComp), yComp)];
      cs := cs + [holeColor];
      assert rim[..i + 1] == rim[..i] + [rim[i]];
      AppendCopies(local.colors, holeColor, i + 1, 1);
      i := i + 1;
    }
    assert rim[..i] == rim;
    var idx := local.indices;
    i := 0;
    while i < HOLE_SEGMENTS
      invariant 0 <= i <= HOLE_SEGMENTS
      invariant idx == local.indices + FanIndices(centerIndex, i)
    {
      idx := idx + [centerIndex, nextVertex + i, nextVertex + i + 1];
      FanStep(centerIndex, i);
      i := i + 1;
    }
    nextVertex := nextVertex + HOLE_SEGMENTS + 1;
    r := Mesh(vs, cs, idx);
  }

  /** The fan grows by one triangle (centre, c + 1 + t, c + 2 + t) at a time. */
  lemma FanStep(c: int, t: nat)
    ensures FanIndices(c, t + 1) == FanIndices(c, t) + [c, c + 1 + t, c + 2 + t]
  {
    var a, b := FanIndices(c, t + 1), FanIndices(c, t) + [c, c + 1 + t, c + 2 + t];
    forall k | 0 <= k < 3 * t + 3
      ensures a[k] == b[k]
    {
      if k >= 3 * t {
        assert k / 3 == t;
      }
    }
  }

  /** The first loop of `createGrid`: lines z = -5 .. 5 in steps of 0.5, each from x = -5 to x = 5. */
  method GridLinesAlongX() returns (vs: seq<Vec4>, cs: seq<Rgba>)
    ensures vs == seq(42, k requires 0 <= k < 42 => GridXVertex(k))
    ensures cs == Copies(GRID_COLOR, 42)
  {
    vs, cs := [], [];
    var i := -GRID_SIZE;
    while i <= GRID_SIZE
      invariant -GRID_SIZE <= i <= GRID_SIZE + 1
      invariant vs == seq(2 * (i + GRID_SIZE), k requires 0 <= k < 2 * (i + GRID_SIZE) => GridXVertex(k))
      invariant cs == Copies(GRID_COLOR, 2 * (i + GRID_SIZE))
    {
      var zPos := (i as real) * GRID_STEP;
      var n := 2 * (i + GRID_SIZE);
      assert GridXVertex(n) == Point(-(GRID_SIZE as real) * GRID_STEP, 0.0, zPos);
      assert GridXVertex(n + 1) == Point((GRID_SIZE as real) * GRID_STEP, 0.0, zPos);
      vs := vs + [Point(-(GRID_SIZE as real) * GRID_STEP, 0.0, zPos), Point((GRID_SIZE as real) * GRID_STEP, 0.0, zPos)];
      cs := cs + [GRID_COLOR, GRID_COLOR];
      CopiesAppend(GRID_COLOR, n, 2);
      i := i + 1;
    }
  }

  /** The second loop of `createGrid`: lines x = -5 .. 5 in steps of 0.5, each from z = -5 to z = 5. */
  method GridLinesAlongZ(xs: seq<Vec4>, xc: seq<Rgba>) returns (vs: seq<Vec4>, cs: seq<Rgba>)
    requires xs == seq(42, k requires 0 <= k < 42 => GridXVertex(k)) && xc == Copies(GRID_COLOR, 42)
    ensures vs == GridVertices()
    ensures cs == Copies(GRID_COLOR, GRID_VERTICES)
  {
    vs, cs := xs, xc;
    var i := -GRID_SIZE;
    while i <= GRID_SIZE
      invariant -GRID_SIZE <= i <= GRID_SIZE + 1
      invariant vs == xs + seq(2 * (i + GRID_SIZE), k requires 0 <= k < 2 * (i + GRID_SIZE) => GridZVertex(k))
      invariant cs == Copies(GRID_COLOR, 42 + 2 * (i + GRID_SIZE))
    {
      var xPos := (i as real) * GRID_STEP;
      var n := 2 * (i + GRID_SIZE);
      assert GridZVertex(n) == Point(xPos, 0.0, -(GRID_SIZE as real) * GRID_STEP);
      assert GridZVertex(n + 1) == Point(xPos, 0.0, (GRID_SIZE as real) * GRID_STEP);
      vs := vs + [Point(xPos, 0.0, -(GRID_SIZE as real) * GRID_STEP), Point(xPos, 0.0, (GRID_SIZE as real) * GRID_STEP)];
      cs := cs + [GRID_COLOR, GRID_COLOR];
      CopiesAppend(GRID_COLOR, 42 + n, 2);
      i := i + 1;
    }
  }
}
