/** The viewer application: start-up, one iteration of the render loop (the
    optional depth pass, the lighting pass and the control panel), the fixed
    scene it draws, and the keyboard and mouse handlers with their mode flags. */
module App {
  import opened Glm
  import opened Gpu
  import opened Seqs
  import opened Lights
  import opened Materials
  import opened Cameras
  import opened Primitives
  import opened Geometries
  import opened Gui

  const ScreenWidth: nat := 1200
  const ScreenHeight: nat := 900
  const ShadowWidth: nat := 1024
  const ShadowHeight: nat := 1024
  /** The texture unit of the shadow map, which is also the value of the `shadowMap` sampler. */
  const ShadowMapUnit: nat := 1
  /** SCR_WIDTH / SCR_HEIGHT, taken as an exact ratio. */
  const AspectRatio: real := 1200.0 / 900.0

  // ---------------------------------------------------------------------------
  // The light-space matrix

  /** The orthographic box of the shadow camera: +-10 across, near 1, far 15. */
  const LightProjection: Mat4 := Ortho(-10.0, 10.0, -10.0, 10.0, 1.0, 15.0)
  const ShadowUp: Vec3 := Vec3(0.0, 1.0, 0.0)
  /** How far back along its direction the shadow camera is placed. */
  const ShadowDistance: real := 5.0

  /** The frame takes its shadow camera from slot 0, and only when that light is
      directional; no other slot, and no `enabled` flag, is looked at. */
  predicate CastsShadows(ls: seq<Light>) {
    |ls| > 0 && ls[0].Type() == DIRECTIONAL
  }

  /** The lightSpaceMatrix of a frame: the identity, unless slot 0 holds a
      directional light; then the fixed orthographic box times a view from
      five units back along the light's direction towards the origin, with
      (0, 1, 0) as the up vector whatever the direction. */
  function LightSpaceMatrix(ls: seq<Light>): (m: Mat4)
    ensures m == Identity <==> !CastsShadows(ls)
    ensures CastsShadows(ls) ==>
              m.Mul? && m.lhs == LightProjection && m.rhs.LookAt? &&
              m.rhs.center == Zero && m.rhs.up == ShadowUp &&
              Add(m.rhs.eye, Scale(ls[0].kind.direction, ShadowDistance)) == Zero
  {
    if |ls| > 0 && ls[0].Type() == DIRECTIONAL then
      Mul(LightProjection, LookAt(Scale(ls[0].kind.direction, -ShadowDistance), Zero, ShadowUp))
    else
      Identity
  }

  /** Two registries whose slot 0 has the same variant (same direction, same
      position) give the same matrix: colour, intensity, the enable flag and
      every other slot are ignored. */
  lemma LightSpaceReadsSlotZeroOnly(ls: seq<Light>, ms: seq<Light>)
    requires |ls| > 0 && |ms| > 0 && ls[0].kind == ms[0].kind
    ensures LightSpaceMatrix(ls) == LightSpaceMatrix(ms)
  {
  }

  // ---------------------------------------------------------------------------
  // renderScene

  datatype Shape = PlaneShape | SphereShape | CubeShape

  /** One object of the fixed scene: its model matrix, its material and the
      shared geometry it is drawn with. */
  datatype Placement = Placement(model: Mat4, material: Material, shape: Shape)

  /** What drawing each shared geometry issues. */
  datatype Draws = Draws(plane: seq<Command>, sphere: seq<Command>, cube: seq<Command>) {
    function Of(s: Shape): seq<Command> {
      match s
      case PlaneShape => plane
      case SphereShape => sphere
      case CubeShape => cube
    }
  }

  /** The two materials renderScene builds on every call, written out;
      SceneMaterialsAreFactoryMade derives them from the factories. */
  const GoldMaterial: Material :=
    Material(Vec3(0.05, 0.04, 0.015), Vec3(0.3, 0.24, 0.09), Vec3(1.2, 0.96, 0.36), 128.0)
  const BluePlasticMaterial: Material :=
    Material(Vec3(0.02, 0.02, 0.08), Vec3(0.14, 0.14, 0.56), Vec3(0.9, 0.9, 0.9), 64.0)

  /** The five objects of renderScene in draw order. `spinA` and `spinB` are the
      two clock readings the call makes for the two turning cubes. */
  function ScenePlacements(spinA: real, spinB: real, ground: Material, metal: Material, plastic: Material)
    : seq<Placement>
  {
    [ Placement(Translate(Identity, Vec3(0.0, -1.0, 0.0)), ground, PlaneShape),
      Placement(Translate(Identity, Vec3(-2.0, 1.0, 0.0)), metal, SphereShape),
      Placement(Rotate(Translate(Identity, Vec3(2.0, 1.0, 0.0)), spinA * 0.5, Vec3(0.0, 1.0, 0.0)),
                plastic, CubeShape),
      Placement(Translate(Identity, Vec3(0.0, 2.0, -3.0)), GoldMaterial, SphereShape),
      Placement(Rotate(Translate(Identity, Vec3(0.0, 1.0, 3.0)), spinB * -0.3, Vec3(1.0, 0.0, 1.0)),
                BluePlasticMaterial, CubeShape) ]
  }

  function MaterialWrites(program: ProgramId, m: Material): seq<Command> {
    [ SetUniform(program, Global("material.ambient"), UVec3(m.ambient)),
      SetUniform(program, Global("material.diffuse"), UVec3(m.diffuse)),
      SetUniform(program, Global("material.specular"), UVec3(m.specular)),
      SetUniform(program, Global("material.shininess"), UFloat(m.shininess)) ]
  }

  /** One object: the model matrix, the four material fields, then its draw. */
  function PlacementCommands(program: ProgramId, pl: Placement, draws: Draws): seq<Command> {
    [SetUniform(program, Global("model"), UMat4(pl.model))] + MaterialWrites(program, pl.material) + draws.Of(pl.shape)
  }

  /** Every object, in order. */
  function SceneWrites(program: ProgramId, pls: seq<Placement>, draws: Draws): seq<Command>
    decreases |pls|
  {
    if pls == [] then [] else PlacementCommands(program, pls[0], draws) + SceneWrites(program, pls[1..], draws)
  }

  predicate IsDraw(c: Command) {
    c.DrawElements? || c.DrawArrays?
  }

  /** Each geometry is drawn by exactly one draw call. */
  predicate SingleDraws(d: Draws) {
    |d.plane| == 1 && IsDraw(d.plane[0]) &&
    |d.sphere| == 1 && IsDraw(d.sphere[0]) &&
    |d.cube| == 1 && IsDraw(d.cube[0])
  }

  /** Nothing but uniform writes and draw calls. */
  predicate UniformsAndDraws(cs: seq<Command>) {
    forall i :: 0 <= i < |cs| ==> cs[i].SetUniform? || IsDraw(cs[i])
  }

  function CountDraws(cs: seq<Command>): nat {
    if cs == [] then 0 else (if IsDraw(cs[0]) then 1 else 0) + CountDraws(cs[1..])
  }

  lemma {:induction false} CountDrawsAppend(a: seq<Command>, b: seq<Command>)
    ensures CountDraws(a + b) == CountDraws(a) + CountDraws(b)
  {
    if a != [] {
      assert (a + b)[0] == a[0];
      assert (a + b)[1..] == a[1..] + b;
      CountDrawsAppend(a[1..], b);
    } else {
      assert a + b == b;
    }
  }

  lemma {:induction false} CountDrawsNone(cs: seq<Command>)
    requires forall i :: 0 <= i < |cs| ==> !IsDraw(cs[i])
    ensures CountDraws(cs) == 0
  {
    if cs != [] {
      assert forall i :: 0 <= i < |cs| - 1 ==> cs[1..][i] == cs[i + 1];
      CountDrawsNone(cs[1..]);
    }
  }

  lemma UniformsAndDrawsAppend(a: seq<Command>, b: seq<Command>)
    requires UniformsAndDraws(a) && UniformsAndDraws(b)
    ensures UniformsAndDraws(a + b)
  {
    assert forall i :: |a| <= i < |a| + |b| ==> (a + b)[i] == b[i - |a|];
  }

  /** With one draw call per geometry, the scene writes come in blocks of six:
      object k's model matrix and material, then its draw. */
  lemma {:induction false} SceneWritesBlocks(program: ProgramId, pls: seq<Placement>, d: Draws)
    requires SingleDraws(d)
    ensures var cs := SceneWrites(program, pls, d);
            |cs| == 6 * |pls| &&
            forall k :: 0 <= k < |pls| ==> cs[6 * k..6 * k + 6] == PlacementCommands(program, pls[k], d)
    decreases |pls|
  {
    if pls != [] {
      var head := PlacementCommands(program, pls[0], d);
      var rest := SceneWrites(program, pls[1..], d);
      SceneWritesBlocks(program, pls[1..], d);
      assert |head| == 6;
      forall k | 0 <= k < |pls|
        ensures (head + rest)[6 * k..6 * k + 6] == PlacementCommands(program, pls[k], d)
      {
        if k == 0 {
          assert (head + rest)[..6] == head;
        } else {
          assert pls[1..][k - 1] == pls[k];
          assert (head + rest)[6 * k..6 * k + 6] == rest[6 * (k - 1)..6 * (k - 1) + 6];
        }
      }
    }
  }

  /** With one draw call per geometry, the scene issues one draw per object,
      and only uniform writes besides. */
  lemma {:induction false} SceneDrawsEachObjectOnce(program: ProgramId, pls: seq<Placement>, d: Draws)
    requires SingleDraws(d)
    ensures CountDraws(SceneWrites(program, pls, d)) == |pls|
    ensures UniformsAndDraws(SceneWrites(program, pls, d))
    decreases |pls|
  {
    if pls != [] {
      var pl := pls[0];
      var mw := [SetUniform(program, Global("model"), UMat4(pl.model))] + MaterialWrites(program, pl.material);
      var draw := d.Of(pl.shape);
      CountDrawsNone(mw);
      assert CountDraws(draw) == 1 by {
        assert draw[1..] == [];
      }
      CountDrawsAppend(mw, draw);
      UniformsAndDrawsAppend(mw, draw);
      SceneDrawsEachObjectOnce(program, pls[1..], d);
      CountDrawsAppend(mw + draw, SceneWrites(program, pls[1..], d));
      UniformsAndDrawsAppend(mw + draw, SceneWrites(program, pls[1..], d));
    }
  }

  /** One object's block: the model matrix, the material, then one draw. */
  lemma PlacementLayout(program: ProgramId, pl: Placement, d: Draws)
    requires SingleDraws(d)
    ensures var b := PlacementCommands(program, pl, d);
            |b| == 6 && b[0] == SetUniform(program, Global("model"), UMat4(pl.model)) &&
            b[1..5] == MaterialWrites(program, pl.material) && IsDraw(b[5])
  {
  }

  /** renderScene issues five draws, plane, sphere, cube, sphere, cube, each
      right after its model matrix and its four material writes. */
  lemma RenderSceneShape(program: ProgramId, spinA: real, spinB: real,
                         ground: Material, metal: Material, plastic: Material, d: Draws)
    requires SingleDraws(d)
    ensures var pls := ScenePlacements(spinA, spinB, ground, metal, plastic);
            var cs := SceneWrites(program, pls, d);
            |pls| == 5 && |cs| == 30 && CountDraws(cs) == 5 &&
            (forall k :: 0 <= k < 5 ==>
               cs[6 * k] == SetUniform(program, Global("model"), UMat4(pls[k].model)) &&
               cs[6 * k + 1..6 * k + 5] == MaterialWrites(program, pls[k].material) &&
               IsDraw(cs[6 * k + 5])) &&
            pls[0].shape == PlaneShape && pls[1].shape == SphereShape && pls[2].shape == CubeShape &&
            pls[3].shape == SphereShape && pls[4].shape == CubeShape
  {
    var pls := ScenePlacements(spinA, spinB, ground, metal, plastic);
    var cs := SceneWrites(program, pls, d);
    SceneWritesBlocks(program, pls, d);
    SceneDrawsEachObjectOnce(program, pls, d);
    forall k | 0 <= k < 5
      ensures cs[6 * k] == SetUniform(program, Global("model"), UMat4(pls[k].model))
      ensures cs[6 * k + 1..6 * k + 5] == MaterialWrites(program, pls[k].material)
      ensures IsDraw(cs[6 * k + 5])
    {
      PlacementLayout(program, pls[k], d);
      BlockEntries(cs, 6 * k, PlacementCommands(program, pls[k], d));
    }
  }

  lemma BlockEntries(cs: seq<Command>, at: nat, b: seq<Command>)
    requires |b| == 6 && at + 6 <= |cs| && cs[at..at + 6] == b
    ensures cs[at] == b[0] && cs[at + 1..at + 5] == b[1..5] && cs[at + 5] == b[5]
  {
    assert forall i :: 0 <= i < 4 ==> cs[at + 1..at + 5][i] == cs[at + 1 + i] == b[1..5][i];
  }

  // ---------------------------------------------------------------------------
  // One frame of the render loop

  /** The GL objects the loop draws with. */
  datatype Targets = Targets(shadowProgram: ProgramId, lightingProgram: ProgramId, depthMapFbo: nat, depthMap: nat)

  /** The camera's matrices and position as the lighting pass uploads them. */
  datatype CameraView = CameraView(projection: Mat4, view: Mat4, position: Vec3)

  /** The depth pass runs when shadows are on and there is at least one light,
      even when slot 0 is not directional (it then draws with the identity). */
  predicate DepthPassRuns(shadows: bool, ls: seq<Light>) {
    shadows && |ls| > 0
  }

  function DepthPass(t: Targets, ls: seq<Light>, scene: seq<Command>): seq<Command> {
    [ Viewport(ShadowWidth, ShadowHeight), BindFramebuffer(t.depthMapFbo), ClearBuffers(false, true),
      UseProgram(t.shadowProgram),
      SetUniform(t.shadowProgram, Global("lightSpaceMatrix"), UMat4(LightSpaceMatrix(ls))) ]
    + scene + [BindFramebuffer(0)]
  }

  /** The uniforms the lighting pass writes before the lights. */
  function LightingUniforms(t: Targets, shadows: bool, ls: seq<Light>, cam: CameraView): seq<Command> {
    var p := t.lightingProgram;
    [ SetUniform(p, Global("projection"), UMat4(cam.projection)),
      SetUniform(p, Global("view"), UMat4(cam.view)),
      SetUniform(p, Global("viewPos"), UVec3(cam.position)),
      SetUniform(p, Global("lightSpaceMatrix"), UMat4(LightSpaceMatrix(ls))),
      SetUniform(p, Global("shadowsEnabled"), UBool(shadows)) ]
  }

  function LightingPass(t: Targets, shadows: bool, ls: seq<Light>, cam: CameraView, scene: seq<Command>)
    : seq<Command>
  {
    [Viewport(ScreenWidth, ScreenHeight), ClearBuffers(true, true), UseProgram(t.lightingProgram)]
    + LightingUniforms(t, shadows, ls, cam)
    + UploadTrace(t.lightingProgram, ls)
    + (if shadows then [BindTexture2D(ShadowMapUnit, t.depthMap)] else [])
    + scene
  }

  /** Everything one iteration of the loop sends to GL, given the flags and
      lights it starts with, the camera after input handling, and the writes of
      the two renderScene calls. */
  function FrameCommands(t: Targets, shadows: bool, wireframe: bool, ls: seq<Light>, cam: CameraView,
                         shadowScene: seq<Command>, litScene: seq<Command>): seq<Command>
  {
    [ClearBuffers(true, true), PolygonMode(wireframe)]
    + (if DepthPassRuns(shadows, ls) then DepthPass(t, ls, shadowScene) else [])
    + LightingPass(t, shadows, ls, cam, litScene)
  }

  lemma UploadHasNoBinds(program: ProgramId, ls: seq<Light>)
    ensures UniformsAndDraws(UploadTrace(program, ls))
    ensures CountDraws(UploadTrace(program, ls)) == 0
  {
    var ws := UploadTrace(program, ls);
    UploadWritesOnlyToShader(program, ls);
    NoDrawsAmongWrites(ws, program);
  }

  lemma {:induction false} NoDrawsAmongWrites(cs: seq<Command>, program: ProgramId)
    requires WritesTo(cs, program)
    ensures CountDraws(cs) == 0
  {
    if cs != [] {
      assert WritesTo(cs[1..], program) by {
        assert forall i :: 0 <= i < |cs| - 1 ==> cs[1..][i] == cs[i + 1];
      }
      NoDrawsAmongWrites(cs[1..], program);
    }
  }

  /** The depth framebuffer is bound in a frame exactly when the depth pass
      runs: shadows on and at least one light. */
  lemma DepthPassIff(t: Targets, shadows: bool, wireframe: bool, ls: seq<Light>, cam: CameraView,
                     shadowScene: seq<Command>, litScene: seq<Command>)
    requires t.depthMapFbo != 0
    requires UniformsAndDraws(shadowScene) && UniformsAndDraws(litScene)
    ensures BindFramebuffer(t.depthMapFbo) in FrameCommands(t, shadows, wireframe, ls, cam, shadowScene, litScene)
            <==> DepthPassRuns(shadows, ls)
  {
    var cs := FrameCommands(t, shadows, wireframe, ls, cam, shadowScene, litScene);
    var b := BindFramebuffer(t.depthMapFbo);
    if DepthPassRuns(shadows, ls) {
      assert cs[3] == b;
    } else {
      UploadHasNoBinds(t.lightingProgram, ls);
      var up := UploadTrace(t.lightingProgram, ls);
      assert b !in up by {
        assert forall i :: 0 <= i < |up| ==> up[i] != b;
      }
      assert b !in litScene by {
        assert forall i :: 0 <= i < |litScene| ==> litScene[i] != b;
      }
    }
  }

  /** The shadow map is bound to its texture unit in a frame exactly when
      shadows are on, whether or not there are lights. */
  lemma ShadowMapBoundIff(t: Targets, shadows: bool, wireframe: bool, ls: seq<Light>, cam: CameraView,
                          shadowScene: seq<Command>, litScene: seq<Command>)
    requires UniformsAndDraws(shadowScene) && UniformsAndDraws(litScene)
    ensures BindTexture2D(ShadowMapUnit, t.depthMap) in FrameCommands(t, shadows, wireframe, ls, cam, shadowScene, litScene)
            <==> shadows
  {
    var b := BindTexture2D(ShadowMapUnit, t.depthMap);
    UploadHasNoBinds(t.lightingProgram, ls);
    var up := UploadTrace(t.lightingProgram, ls);
    assert b !in up by {
      assert forall i :: 0 <= i < |up| ==> up[i] != b;
    }
    assert b !in litScene by {
      assert forall i :: 0 <= i < |litScene| ==> litScene[i] != b;
    }
    assert b !in shadowScene by {
      assert forall i :: 0 <= i < |shadowScene| ==> shadowScene[i] != b;
    }
  }

  /** A frame draws the lit scene once, and the scene a second time for the
      depth pass exactly when that pass runs; the light upload draws nothing. */
  lemma FrameDrawCount(t: Targets, shadows: bool, wireframe: bool, ls: seq<Light>, cam: CameraView,
                       shadowScene: seq<Command>, litScene: seq<Command>)
    ensures CountDraws(FrameCommands(t, shadows, wireframe, ls, cam, shadowScene, litScene))
            == CountDraws(litScene) + (if DepthPassRuns(shadows, ls) then CountDraws(shadowScene) else 0)
  {
    var head := [ClearBuffers(true, true), PolygonMode(wireframe)];
    var depth := if DepthPassRuns(shadows, ls) then DepthPass(t, ls, shadowScene) else [];
    var dhead := [ Viewport(ShadowWidth, ShadowHeight), BindFramebuffer(t.depthMapFbo), ClearBuffers(false, true),
                   UseProgram(t.shadowProgram),
                   SetUniform(t.shadowProgram, Global("lightSpaceMatrix"), UMat4(LightSpaceMatrix(ls))) ];
    var lhead := [Viewport(ScreenWidth, ScreenHeight), ClearBuffers(true, true), UseProgram(t.lightingProgram)]
                 + LightingUniforms(t, shadows, ls, cam);
    var up := UploadTrace(t.lightingProgram, ls);
    var bind: seq<Command> := if shadows then [BindTexture2D(ShadowMapUnit, t.depthMap)] else [];
    CountDrawsNone(head);
    CountDrawsNone(dhead);
    CountDrawsNone([BindFramebuffer(0)]);
    CountDrawsNone(lhead);
    CountDrawsNone(bind);
    UploadHasNoBinds(t.lightingProgram, ls);
    CountDrawsAppend(dhead, shadowScene);
    CountDrawsAppend(dhead + shadowScene, [BindFramebuffer(0)]);
    CountDrawsAppend(head, depth);
    CountDrawsAppend(lhead, up);
    CountDrawsAppend(lhead + up, bind);
    CountDrawsAppend(lhead + up + bind, litScene);
    CountDrawsAppend(head + depth, lhead + up + bind + litScene);
    assert LightingPass(t, shadows, ls, cam, litScene) == lhead + up + bind + litScene;
  }

  /** Where the lighting pass's frame uniforms start: after the clear, the
      polygon mode, the depth pass when it runs, and the viewport, clear and
      program switch of the lighting pass. */
  function LightingUniformsAt(shadows: bool, ls: seq<Light>, shadowScene: seq<Command>): nat {
    2 + (if DepthPassRuns(shadows, ls) then 6 + |shadowScene| else 0) + 3
  }

  /** In the lighting pass the five frame uniforms are written, then at once
      the manager's whole light upload. */
  lemma LightingUniformsPrecedeUpload(t: Targets, shadows: bool, wireframe: bool, ls: seq<Light>, cam: CameraView,
                                      shadowScene: seq<Command>, litScene: seq<Command>)
    ensures var cs := FrameCommands(t, shadows, wireframe, ls, cam, shadowScene, litScene);
            var up := UploadTrace(t.lightingProgram, ls);
            var k := LightingUniformsAt(shadows, ls, shadowScene);
            k + 5 + |up| <= |cs| &&
            cs[k..k + 5] == LightingUniforms(t, shadows, ls, cam) && cs[k + 5..k + 5 + |up|] == up
  {
    var u := LightingUniforms(t, shadows, ls, cam);
    var up := UploadTrace(t.lightingProgram, ls);
    var depth := if DepthPassRuns(shadows, ls) then DepthPass(t, ls, shadowScene) else [];
    var lhead := [Viewport(ScreenWidth, ScreenHeight), ClearBuffers(true, true), UseProgram(t.lightingProgram)];
    var bind: seq<Command> := if shadows then [BindTexture2D(ShadowMapUnit, t.depthMap)] else [];
    var head := [ClearBuffers(true, true), PolygonMode(wireframe)];
    var pre := head + depth + lhead;
    var post := bind + litScene;
    assert |pre| == LightingUniformsAt(shadows, ls, shadowScene);
    calc {
      FrameCommands(t, shadows, wireframe, ls, cam, shadowScene, litScene);
      head + depth + (lhead + u + up + bind + litScene);
      { AppendAssoc(lhead + u + up, bind, litScene); }
      head + depth + (lhead + u + up + post);
      { AppendAssoc(lhead, u, up); AppendAssoc(lhead, u + up, post); }
      head + depth + (lhead + ((u + up) + post));
      { AppendAssoc(head + depth, lhead, (u + up) + post); }
      pre + ((u + up) + post);
      { AppendAssoc(pre, u + up, post); }
      pre + (u + up) + post;
    }
    MiddleSlice(pre, u + up, post);
    var cs := pre + (u + up) + post;
    var k := |pre|;
    assert cs[k..k + 5] == cs[k..k + 5 + |up|][..5];
    assert cs[k + 5..k + 5 + |up|] == cs[k..k + 5 + |up|][5..];
  }

  // ---------------------------------------------------------------------------
  // Keyboard: the TAB toggle

  /** The mode flags processInput and the mouse callback share. */
  datatype TabState = TabState(uiMode: bool, tabKeyPressed: bool, firstMouse: bool)

  /** One frame of TAB handling, `down` being the key's state that frame. A
      press flips the mode only when the key was not already latched; entering
      UI mode re-arms firstMouse; a release unlatches. */
  function TabStep(st: TabState, down: bool): (r: TabState)
    ensures r.uiMode != st.uiMode <==> down && !st.tabKeyPressed
    ensures r.tabKeyPressed == down
    ensures r.uiMode && !st.uiMode ==> r.firstMouse
    ensures r.firstMouse != st.firstMouse ==> r.uiMode && !st.uiMode
  {
    if !down then st.(tabKeyPressed := false)
    else if st.tabKeyPressed then st
    else TabState(!st.uiMode, true, if !st.uiMode then true else st.firstMouse)
  }

  /** The flags after a run of frames. */
  function TabRun(st: TabState, downs: seq<bool>): TabState
    decreases |downs|
  {
    if downs == [] then st else TabRun(TabStep(st, downs[0]), downs[1..])
  }

  /** The number of presses in a run of frames: frames where TAB is down and
      was not down (or latched) the frame before. */
  function Presses(latched: bool, downs: seq<bool>): nat
    decreases |downs|
  {
    if downs == [] then 0
    else (if downs[0] && !latched then 1 else 0) + Presses(downs[0], downs[1..])
  }

  /** Over any run of frames the mode flips once per press, however long the
      key is held: it ends up flipped exactly when the number of presses is odd. */
  lemma {:induction false} ModeFlipsOncePerPress(st: TabState, downs: seq<bool>)
    ensures TabRun(st, downs).uiMode == (st.uiMode != (Presses(st.tabKeyPressed, downs) % 2 == 1))
    ensures TabRun(st, downs).tabKeyPressed == (if downs == [] then st.tabKeyPressed else downs[|downs| - 1])
    decreases |downs|
  {
    if downs != [] {
      var next := TabStep(st, downs[0]);
      ModeFlipsOncePerPress(next, downs[1..]);
      if |downs| > 1 {
        assert downs[1..][|downs[1..]| - 1] == downs[|downs| - 1];
      }
    }
  }

  /** Holding TAB for any number of frames from an unlatched state flips the
      mode exactly once. */
  lemma {:induction false} HeldTabFlipsOnce(st: TabState, n: nat)
    requires n >= 1 && !st.tabKeyPressed
    ensures TabRun(st, seq(n, _ => true)).uiMode == !st.uiMode
  {
    var downs := seq(n, _ => true);
    ModeFlipsOncePerPress(st, downs);
    HeldPresses(false, n);
  }

  lemma {:induction false} HeldPresses(latched: bool, n: nat)
    requires n >= 1
    ensures Presses(latched, seq(n, _ => true)) == if latched then 0 else 1
    decreases n
  {
    var downs := seq(n, _ => true);
    assert downs[1..] == seq(n - 1, _ => true);
    if n > 1 {
      HeldPresses(true, n - 1);
    } else {
      assert downs[1..] == [];
    }
  }

  // ---------------------------------------------------------------------------
  // Keyboard: camera movement

  /** The keys processInput polls in one frame. */
  datatype Keys = Keys(escape: bool, tab: bool, w: bool, s: bool, a: bool, d: bool, q: bool, e: bool)

  /** One polled key: when it is down, one processKeyboard step. */
  function KeyStep(p: Vec3, down: bool, m: CameraMovement, velocity: real, b: Basis, worldUp: Vec3): Vec3 {
    if down then Add(p, Displacement(m, velocity, b, worldUp)) else p
  }

  /** The position after W, S, A, D, Q and E are polled in that order. */
  function KeysTravel(p: Vec3, k: Keys, velocity: real, b: Basis, worldUp: Vec3): Vec3 {
    var p1 := KeyStep(p, k.w, FORWARD, velocity, b, worldUp);
    var p2 := KeyStep(p1, k.s, BACKWARD, velocity, b, worldUp);
    var p3 := KeyStep(p2, k.a, LEFT, velocity, b, worldUp);
    var p4 := KeyStep(p3, k.d, RIGHT, velocity, b, worldUp);
    var p5 := KeyStep(p4, k.q, UP, velocity, b, worldUp);
    KeyStep(p5, k.e, DOWN, velocity, b, worldUp)
  }

  /** Opposite keys held together cancel: with W and S, A and D, Q and E each
      both down or both up, the camera stays where it is. */
  lemma BalancedKeysStayPut(p: Vec3, k: Keys, velocity: real, b: Basis, worldUp: Vec3)
    requires k.w == k.s && k.a == k.d && k.q == k.e
    ensures KeysTravel(p, k, velocity, b, worldUp) == p
  {
    var p2 := KeyStep(KeyStep(p, k.w, FORWARD, velocity, b, worldUp), k.s, BACKWARD, velocity, b, worldUp);
    MovementCancels(p, FORWARD, velocity, b, worldUp);
    assert p2 == p;
    var p4 := KeyStep(KeyStep(p2, k.a, LEFT, velocity, b, worldUp), k.d, RIGHT, velocity, b, worldUp);
    MovementCancels(p2, LEFT, velocity, b, worldUp);
    assert p4 == p;
    MovementCancels(p4, UP, velocity, b, worldUp);
  }

  // ---------------------------------------------------------------------------
  // Mouse

  /** The offsets mouse_callback hands the camera: none on the first event
      after (re)entering camera mode, otherwise the motion since the last event,
      with y reversed. */
  function MouseOffsets(firstMouse: bool, lastX: real, lastY: real, xpos: real, ypos: real): (o: (real, real))
    ensures firstMouse ==> o == (0.0, 0.0)
    ensures !firstMouse ==> o.0 + lastX == xpos && o.1 + ypos == lastY
  {
    var lx := if firstMouse then xpos else lastX;
    var ly := if firstMouse then ypos else lastY;
    (xpos - lx, ly - ypos)
  }

  // ---------------------------------------------------------------------------
  // initializeScene

  /** The three lights initializeScene registers, in order. */
  function InitialLights(norm: Normalizer): seq<Light> {
    [ NewDirectionalLight(norm, Vec3(-0.3, -1.0, -0.2), Vec3(1.0, 0.95, 0.8), 0.8),
      NewPointLight(Vec3(3.0, 4.0, 3.0), Vec3(0.8, 0.8, 1.0), 1.5),
      NewSpotLight(norm, Vec3(-3.0, 6.0, -3.0), Vec3(0.5, -1.0, 0.5), 15.0, 25.0, Vec3(1.0, 0.6, 0.3), 2.0) ]
  }

  /** The start-up scene has a directional, a point and a spot light, the sun in
      slot 0: the first frame has a shadow camera and, with shadows on, a depth pass. */
  lemma InitialSceneCastsShadows(norm: Normalizer)
    ensures var ls := InitialLights(norm);
            |ls| == 3 && ls[0].Type() == DIRECTIONAL && ls[1].Type() == POINT && ls[2].Type() == SPOT &&
            CastsShadows(ls) && LightSpaceMatrix(ls) != Identity && DepthPassRuns(true, ls) &&
            ls[2].kind.cutOff <= ls[2].kind.outerCutOff
  {
  }

  /** The light part of initializeScene: clear, then the three adds. */
  method InitializeLights(norm: Normalizer, manager: LightManager)
    modifies manager
    ensures manager.Valid() && manager.lights == InitialLights(norm)
  {
    var ls := InitialLights(norm);
    manager.Clear();
    manager.AddDirectionalLight(ls[0]);
    manager.AddPointLight(ls[1]);
    manager.AddSpotLight(ls[2]);
  }

  /** The scene materials initializeScene builds, written out; they never
      change afterwards. */
  const MetalMaterial: Material :=
    Material(Vec3(0.035, 0.035, 0.04), Vec3(0.21, 0.21, 0.24), Vec3(0.84, 0.84, 0.96), 128.0)
  const PlasticMaterial: Material :=
    Material(Vec3(0.08, 0.02, 0.02), Vec3(0.56, 0.14, 0.14), Vec3(0.9, 0.9, 0.9), 64.0)
  const GroundMaterial: Material :=
    Material(Vec3(0.09, 0.09, 0.09), Vec3(0.24, 0.24, 0.24), Vec3(0.1, 0.1, 0.1), 8.0)

  /** The written-out materials are what the factories make from the colours
      in the source: metal (0.7, 0.7, 0.8), red plastic (0.8, 0.2, 0.2), grey
      rubber 0.3, gold metal (1, 0.8, 0.3) and blue plastic (0.2, 0.2, 0.8). */
  lemma SceneMaterialsAreFactoryMade()
    ensures MetalMaterial == CreateMetal(Vec3(0.7, 0.7, 0.8))
    ensures PlasticMaterial == CreatePlastic(Vec3(0.8, 0.2, 0.2))
    ensures GroundMaterial == CreateRubber(Splat(0.3))
    ensures GoldMaterial == CreateMetal(Vec3(1.0, 0.8, 0.3))
    ensures BluePlasticMaterial == CreatePlastic(Vec3(0.2, 0.2, 0.8))
  {
  }

  /** The resolution of the shared sphere. */
  const SphereSectors: int := 32
  const SphereStacks: int := 16

  /** The index table generateSphere builds for 32 sectors by 16 stacks. */
  ghost predicate SphereTable(ix: seq<nat>) {
    ix == SphereIndices(Iterations(SphereSectors), SphereStacks, Iterations(SphereStacks))
  }

  // ---------------------------------------------------------------------------
  // The application state

  /** The readings of glfwGetTime that a frame's two renderScene calls make,
      depth pass first. */
  datatype Clock = Clock(depthSpinA: real, depthSpinB: real, litSpinA: real, litSpinB: real)

  /** The globals of the viewer. The camera, the registry, the three shared
      geometries, the shaders and the depth-map objects are set up once at
      start-up and only their contents change afterwards. */
  class Viewer {
    var shadowsEnabled: bool
    var wireframeMode: bool
    var uiMode: bool
    var tabKeyPressed: bool
    var firstMouse: bool
    var lastX: real
    var lastY: real
    var deltaTime: real
    var lastFrame: real
    const camera: Camera
    const lightManager: LightManager
    const sphereGeometry: Geometry
    const cubeGeometry: Geometry
    const planeGeometry: Geometry
    const gui: GUI
    const shadowMapShader: Shader
    const lightingShader: Shader
    const depthMapFbo: nat
    const depthMap: nat

    /** The zoom is clamped, the registry is within its cap, the geometries are
        set up and the depth framebuffer is a real one. */
    ghost predicate Valid()
      reads camera, lightManager, sphereGeometry, cubeGeometry, planeGeometry
    {
      camera.Valid() && lightManager.Valid() &&
      sphereGeometry.initialized && cubeGeometry.initialized && planeGeometry.initialized &&
      depthMapFbo != 0
    }

    function Tabs(): TabState
      reads this
    {
      TabState(uiMode, tabKeyPressed, firstMouse)
    }

    function GlTargets(): Targets {
      Targets(shadowMapShader.program, lightingShader.program, depthMapFbo, depthMap)
    }

    /** What the lighting pass uploads about the camera. */
    function View(): CameraView
      reads camera
    {
      CameraView(camera.GetProjectionMatrix(AspectRatio), camera.GetViewMatrix(), camera.position)
    }

    function CurrentDraws(): (d: Draws)
      reads sphereGeometry, cubeGeometry, planeGeometry
      ensures sphereGeometry.initialized && cubeGeometry.initialized && planeGeometry.initialized ==> SingleDraws(d)
    {
      Draws(planeGeometry.DrawCommands(), sphereGeometry.DrawCommands(), cubeGeometry.DrawCommands())
    }

    /** What renderScene sends through `program` for the given clock readings. */
    function Scene(program: ProgramId, spinA: real, spinB: real): seq<Command>
      reads sphereGeometry, cubeGeometry, planeGeometry
    {
      SceneWrites(program, ScenePlacements(spinA, spinB, GroundMaterial, MetalMaterial, PlasticMaterial), CurrentDraws())
    }

    /** What drawing a frame sends to GL with the given flags and lights, from
        the current camera and geometries. */
    function FrameFor(shadows: bool, wireframe: bool, ls: seq<Light>, clock: Clock): seq<Command>
      reads camera, sphereGeometry, cubeGeometry, planeGeometry
    {
      FrameCommands(GlTargets(), shadows, wireframe, ls, View(),
                    Scene(shadowMapShader.program, clock.depthSpinA, clock.depthSpinB),
                    Scene(lightingShader.program, clock.litSpinA, clock.litSpinB))
    }

    /** Start-up: the globals' initial values, UI mode on (the cursor is shown),
        initializeScene, the control panel, the depth framebuffer and its
        texture, and the shadowMap sampler set to unit 1 once, before the loop.
        Shader compilation and the texture parameters are not modelled. */
    constructor (gl: Gl, orient: Orientation, norm: Normalizer, at: GridVertex,
                 shadowMapShader: Shader, lightingShader: Shader)
      modifies gl
      ensures Valid()
      ensures uiMode && !tabKeyPressed && firstMouse && shadowsEnabled && !wireframeMode
      ensures lastX == 600.0 && lastY == 450.0 && deltaTime == 0.0 && lastFrame == 0.0
      ensures camera.position == Vec3(0.0, 3.0, 8.0) && camera.worldUp == Vec3(0.0, 1.0, 0.0)
      ensures camera.yaw == DefaultYaw && camera.pitch == DefaultPitch && camera.zoom == DefaultZoom
      ensures camera.movementSpeed == DefaultSpeed && camera.mouseSensitivity == DefaultSensitivity
      ensures camera.orient == orient && camera.VectorsCurrent()
      ensures sphereGeometry.vertices == GridVertices(at, SphereStacks + 1, SphereSectors + 1)
      ensures SphereTable(sphereGeometry.indices)
      ensures lightManager.lights == InitialLights(norm)
      ensures cubeGeometry.vertices == CubeVertices(1.0) && cubeGeometry.indices == CubeIndices
      ensures planeGeometry.vertices == PlaneVertices(10.0, 10.0) && planeGeometry.indices == PlaneIndices
      ensures gui.showMainWindow && !gui.showDemoWindow
      ensures this.shadowMapShader == shadowMapShader && this.lightingShader == lightingShader
      ensures depthMapFbo > old(gl.lastName) && depthMap == depthMapFbo + 1 && gl.lastName == depthMap
      ensures gl.log == old(gl.log) +
                [ BindTexture2D(0, depthMap), BindFramebuffer(depthMapFbo), BindFramebuffer(0),
                  UseProgram(lightingShader.program),
                  SetUniform(lightingShader.program, Global("shadowMap"), UInt(ShadowMapUnit)) ]
    {
      var cam := new Camera(orient, Vec3(0.0, 3.0, 8.0), Vec3(0.0, 1.0, 0.0), DefaultYaw, DefaultPitch);
      var sphere, cube, plane := CreateGeometries(gl, at);
      var manager := new LightManager();
      InitializeLights(norm, manager);
      var panel := new GUI();
      var fbo, tex := CreateShadowTarget(gl, lightingShader);

      shadowsEnabled, wireframeMode := true, false;
      uiMode, tabKeyPressed, firstMouse := true, false, true;
      lastX, lastY := 600.0, 450.0;
      deltaTime, lastFrame := 0.0, 0.0;
      camera, lightManager := cam, manager;
      sphereGeometry, cubeGeometry, planeGeometry := sphere, cube, plane;
      gui := panel;
      this.shadowMapShader, this.lightingShader := shadowMapShader, lightingShader;
      depthMapFbo, depthMap := fbo, tex;
    }

    /** renderScene: the five objects, each as its model matrix, its material
        and its geometry's draw. */
    method RenderScene(shader: Shader, gl: Gl, spinA: real, spinB: real)
      modifies gl
      ensures gl.log == old(gl.log) + Scene(shader.program, spinA, spinB) && gl.lastName == old(gl.lastName)
    {
      var pls := ScenePlacements(spinA, spinB, GroundMaterial, MetalMaterial, PlasticMaterial);
      ghost var p, d := shader.program, CurrentDraws();
      DrawPlacement(shader, gl, pls[0], planeGeometry, d);
      DrawPlacement(shader, gl, pls[1], sphereGeometry, d);
      DrawPlacement(shader, gl, pls[2], cubeGeometry, d);
      DrawPlacement(shader, gl, pls[3], sphereGeometry, d);
      DrawPlacement(shader, gl, pls[4], cubeGeometry, d);
      SceneWritesOfFive(old(gl.log), p, pls, d);
    }

    /** The render loop's drawing: clear, polygon mode, the light-space matrix,
        the depth pass when shadows are on and there are lights, then the
        lighting pass. */
    method Draw(gl: Gl, clock: Clock)
      modifies gl
      ensures gl.log == old(gl.log) + FrameFor(shadowsEnabled, wireframeMode, lightManager.lights, clock)
      ensures gl.lastName == old(gl.lastName)
    {
      ghost var start, t, ls := gl.log, GlTargets(), lightManager.lights;
      ghost var head := [ClearBuffers(true, true), PolygonMode(wireframeMode)];
      ghost var dp := if DepthPassRuns(shadowsEnabled, ls) then
                        DepthPass(t, ls, Scene(shadowMapShader.program, clock.depthSpinA, clock.depthSpinB))
                      else [];
      ghost var lp := LightingPass(t, shadowsEnabled, ls, View(),
                                   Scene(lightingShader.program, clock.litSpinA, clock.litSpinB));
      assert FrameFor(shadowsEnabled, wireframeMode, ls, clock) == head + dp + lp;
      gl.Issue(ClearBuffers(true, true));
      if wireframeMode {
        gl.Issue(PolygonMode(true));
      } else {
        gl.Issue(PolygonMode(false));
      }
      assert gl.log == start + head;
      var lightSpaceMatrix := ComputeLightSpaceMatrix();
      if shadowsEnabled && lightManager.GetLightCount() > 0 {
        DepthPassStep(gl, lightSpaceMatrix, clock);
      }
      assert gl.log == start + head + dp;
      LightingPassStep(gl, lightSpaceMatrix, clock);
      AppendAssoc(start, head + dp, lp);
      AppendAssoc(start, head, dp);
    }

    /** The render loop's light-space matrix, from the first light only. */
    method ComputeLightSpaceMatrix() returns (m: Mat4)
      ensures m == LightSpaceMatrix(lightManager.lights)
    {
      m := Identity;
      if lightManager.GetLightCount() > 0 {
        var lights := lightManager.lights;
        if lights[0].Type() == DIRECTIONAL {
          var lightPos := Scale(lights[0].kind.direction, -ShadowDistance);
          m := Mul(LightProjection, LookAt(lightPos, Zero, ShadowUp));
        }
      }
    }

    method DepthPassStep(gl: Gl, lightSpaceMatrix: Mat4, clock: Clock)
      requires lightSpaceMatrix == LightSpaceMatrix(lightManager.lights)
      modifies gl
      ensures gl.log == old(gl.log) + DepthPass(GlTargets(), lightManager.lights,
                                                Scene(shadowMapShader.program, clock.depthSpinA, clock.depthSpinB))
      ensures gl.lastName == old(gl.lastName)
    {
      ghost var start := gl.log;
      ghost var scene := Scene(shadowMapShader.program, clock.depthSpinA, clock.depthSpinB);
      gl.Issue(Viewport(ShadowWidth, ShadowHeight));
      gl.Issue(BindFramebuffer(depthMapFbo));
      gl.Issue(ClearBuffers(false, true));
      shadowMapShader.Use(gl);
      shadowMapShader.SetUniform(gl, Global("lightSpaceMatrix"), UMat4(lightSpaceMatrix));
      ghost var head := [ Viewport(ShadowWidth, ShadowHeight), BindFramebuffer(depthMapFbo), ClearBuffers(false, true),
                          UseProgram(shadowMapShader.program),
                          SetUniform(shadowMapShader.program, Global("lightSpaceMatrix"), UMat4(lightSpaceMatrix)) ];
      assert gl.log == start + head;
      RenderScene(shadowMapShader, gl, clock.depthSpinA, clock.depthSpinB);
      gl.Issue(BindFramebuffer(0));
      AppendAssoc(start, head, scene);
      AppendAssoc(start, head + scene, [BindFramebuffer(0)]);
    }

    method LightingPassStep(gl: Gl, lightSpaceMatrix: Mat4, clock: Clock)
      requires lightSpaceMatrix == LightSpaceMatrix(lightManager.lights)
      modifies gl
      ensures gl.log == old(gl.log) + LightingPass(GlTargets(), shadowsEnabled, lightManager.lights, View(),
                                                   Scene(lightingShader.program, clock.litSpinA, clock.litSpinB))
      ensures gl.lastName == old(gl.lastName)
    {
      ghost var start, t, ls, cam := gl.log, GlTargets(), lightManager.lights, View();
      ghost var scene := Scene(lightingShader.program, clock.litSpinA, clock.litSpinB);
      ghost var head := [Viewport(ScreenWidth, ScreenHeight), ClearBuffers(true, true), UseProgram(t.lightingProgram)];
      ghost var u, up := LightingUniforms(t, shadowsEnabled, ls, cam), UploadTrace(t.lightingProgram, ls);
      ghost var bind := if shadowsEnabled then [BindTexture2D(ShadowMapUnit, t.depthMap)] else [];
      assert LightingPass(t, shadowsEnabled, ls, cam, scene) == head + u + up + bind + scene;
      gl.Issue(Viewport(ScreenWidth, ScreenHeight));
      gl.Issue(ClearBuffers(true, true));
      lightingShader.Use(gl);
      assert gl.log == start + head;
      WriteLightingUniforms(gl, lightSpaceMatrix);
      lightManager.SendLightsToShader(lightingShader, gl);
      if shadowsEnabled {
        gl.Issue(BindTexture2D(ShadowMapUnit, depthMap));
      }
      RenderScene(lightingShader, gl, clock.litSpinA, clock.litSpinB);
      assert gl.log == start + head + u + up + bind + scene;
      AppendFour(start, head, u, up, bind);
      AppendAssoc(start, head + u + up + bind, scene);
    }

    /** The five per-frame uniforms of the lighting pass. */
    method WriteLightingUniforms(gl: Gl, lightSpaceMatrix: Mat4)
      requires lightSpaceMatrix == LightSpaceMatrix(lightManager.lights)
      modifies gl
      ensures gl.log == old(gl.log) + LightingUniforms(GlTargets(), shadowsEnabled, lightManager.lights, View())
      ensures gl.lastName == old(gl.lastName)
    {
      var projection := camera.GetProjectionMatrix(AspectRatio);
      var view := camera.GetViewMatrix();
      lightingShader.SetUniform(gl, Global("projection"), UMat4(projection));
      lightingShader.SetUniform(gl, Global("view"), UMat4(view));
      lightingShader.SetUniform(gl, Global("viewPos"), UVec3(camera.position));
      lightingShader.SetUniform(gl, Global("lightSpaceMatrix"), UMat4(lightSpaceMatrix));
      lightingShader.SetUniform(gl, Global("shadowsEnabled"), UBool(shadowsEnabled));
    }

    /** processInput: ESC asks the window to close; TAB toggles the mode once per
        press; the movement keys move the camera only outside UI mode. */
    method ProcessInput(keys: Keys) returns (close: bool)
      requires Valid()
      modifies this, camera
      ensures Valid()
      ensures close == keys.escape
      ensures Tabs() == TabStep(old(Tabs()), keys.tab)
      ensures shadowsEnabled == old(shadowsEnabled) && wireframeMode == old(wireframeMode)
      ensures lastX == old(lastX) && lastY == old(lastY) && deltaTime == old(deltaTime) && lastFrame == old(lastFrame)
      ensures uiMode ==> camera.position == old(camera.position)
      ensures !uiMode ==> camera.position == KeysTravel(old(camera.position), keys, Velocity(old(camera.movementSpeed), deltaTime),
                                                        Basis(camera.front, camera.right, camera.up), camera.worldUp)
      ensures camera.front == old(camera.front) && camera.right == old(camera.right) && camera.up == old(camera.up)
      ensures camera.worldUp == old(camera.worldUp) && camera.yaw == old(camera.yaw) && camera.pitch == old(camera.pitch)
      ensures camera.zoom == old(camera.zoom) && camera.movementSpeed == old(camera.movementSpeed)
      ensures camera.mouseSensitivity == old(camera.mouseSensitivity)
    {
      close := keys.escape;
      PollTab(keys.tab);
      if !uiMode {
        MoveCamera(keys);
      }
    }

    /** The TAB latch of processInput. */
    method PollTab(down: bool)
      modifies this
      ensures Tabs() == TabStep(old(Tabs()), down)
      ensures shadowsEnabled == old(shadowsEnabled) && wireframeMode == old(wireframeMode)
      ensures lastX == old(lastX) && lastY == old(lastY) && deltaTime == old(deltaTime) && lastFrame == old(lastFrame)
    {
      if down && !tabKeyPressed {
        uiMode := !uiMode;
        tabKeyPressed := true;
        if uiMode {
          firstMouse := true;
        }
      }
      if !down {
        tabKeyPressed := false;
      }
    }

    /** The movement keys of processInput, polled W, S, A, D, Q, E. */
    method MoveCamera(keys: Keys)
      modifies camera
      ensures camera.position == KeysTravel(old(camera.position), keys, Velocity(old(camera.movementSpeed), deltaTime),
                                            Basis(camera.front, camera.right, camera.up), camera.worldUp)
      ensures camera.front == old(camera.front) && camera.right == old(camera.right) && camera.up == old(camera.up)
      ensures camera.worldUp == old(camera.worldUp) && camera.yaw == old(camera.yaw) && camera.pitch == old(camera.pitch)
      ensures camera.zoom == old(camera.zoom) && camera.movementSpeed == old(camera.movementSpeed)
      ensures camera.mouseSensitivity == old(camera.mouseSensitivity)
    {
      PollKey(keys.w, FORWARD);
      PollKey(keys.s, BACKWARD);
      PollKey(keys.a, LEFT);
      PollKey(keys.d, RIGHT);
      PollKey(keys.q, UP);
      PollKey(keys.e, DOWN);
    }

    /** One movement key: when it is down the camera moves one step. */
    method PollKey(down: bool, m: CameraMovement)
      modifies camera
      ensures camera.position == KeyStep(old(camera.position), down, m, Velocity(old(camera.movementSpeed), deltaTime),
                                         Basis(camera.front, camera.right, camera.up), camera.worldUp)
      ensures camera.front == old(camera.front) && camera.right == old(camera.right) && camera.up == old(camera.up)
      ensures camera.worldUp == old(camera.worldUp) && camera.yaw == old(camera.yaw) && camera.pitch == old(camera.pitch)
      ensures camera.zoom == old(camera.zoom) && camera.movementSpeed == old(camera.movementSpeed)
      ensures camera.mouseSensitivity == old(camera.mouseSensitivity)
    {
      if down {
        camera.ProcessKeyboard(m, deltaTime);
      }
    }

    /** mouse_callback: ignored in UI mode; otherwise the motion since the last
        event turns the camera, with the pitch clamped, and the first event
        after entering camera mode only records the cursor. */
    method MouseCallback(xpos: real, ypos: real)
      requires Valid()
      modifies this, camera
      ensures Valid()
      ensures old(uiMode) ==> unchanged(this) && unchanged(camera)
      ensures !old(uiMode) ==>
                var o := MouseOffsets(old(firstMouse), old(lastX), old(lastY), xpos, ypos);
                !firstMouse && lastX == xpos && lastY == ypos &&
                camera.yaw == old(camera.yaw) + o.0 * old(camera.mouseSensitivity) &&
                camera.pitch == Clamp(old(camera.pitch) + o.1 * old(camera.mouseSensitivity), -PitchLimit, PitchLimit) &&
                camera.position == old(camera.position) && camera.zoom == old(camera.zoom) &&
                camera.VectorsCurrent()
      ensures camera.worldUp == old(camera.worldUp) && camera.movementSpeed == old(camera.movementSpeed)
      ensures camera.mouseSensitivity == old(camera.mouseSensitivity)
      ensures uiMode == old(uiMode) && tabKeyPressed == old(tabKeyPressed)
      ensures shadowsEnabled == old(shadowsEnabled) && wireframeMode == old(wireframeMode)
      ensures deltaTime == old(deltaTime) && lastFrame == old(lastFrame)
    {
      if uiMode {
        return;
      }
      if firstMouse {
        lastX := xpos;
        lastY := ypos;
        firstMouse := false;
      }
      var xoffset := xpos - lastX;
      var yoffset := lastY - ypos;
      lastX := xpos;
      lastY := ypos;
      camera.ProcessMouseMovement(xoffset, yoffset, true);
    }

    /** scroll_callback: ignored in UI mode; otherwise the camera zooms, within [1, 90]. */
    method ScrollCallback(yoffset: real)
      requires Valid()
      modifies camera
      ensures Valid()
      ensures uiMode ==> unchanged(camera)
      ensures !uiMode ==> camera.zoom == Clamp(old(camera.zoom) - yoffset, MinZoom, MaxZoom)
      ensures camera.position == old(camera.position) && camera.yaw == old(camera.yaw) && camera.pitch == old(camera.pitch)
      ensures camera.front == old(camera.front) && camera.right == old(camera.right) && camera.up == old(camera.up)
      ensures camera.worldUp == old(camera.worldUp) && camera.movementSpeed == old(camera.movementSpeed)
      ensures camera.mouseSensitivity == old(camera.mouseSensitivity)
    {
      if uiMode {
        return;
      }
      camera.ProcessMouseScroll(yoffset);
    }

    /** One iteration of the render loop: the frame time, input, the frame's GL
        commands, then the control panel, which may change the shadow and
        wireframe flags and the lights for the next frame. */
    method Frame(gl: Gl, norm: Normalizer, now: real, keys: Keys, clock: Clock, panel: FrameInput)
      returns (close: bool)
      requires Valid()
      modifies this, gl, camera, lightManager, gui
      ensures Valid()
      ensures deltaTime == now - old(lastFrame) && lastFrame == now
      ensures close == keys.escape
      ensures Tabs() == TabStep(old(Tabs()), keys.tab) && lastX == old(lastX) && lastY == old(lastY)
      ensures gl.log == old(gl.log) + FrameFor(old(shadowsEnabled), old(wireframeMode), old(lightManager.lights), clock)
      ensures gl.lastName == old(gl.lastName)
      ensures old(gui.showMainWindow) ==>
                shadowsEnabled == panel.shadowsChecked && wireframeMode == panel.wireframeChecked &&
                lightManager.lights == EditAll(norm, AfterButtons(norm, old(lightManager.lights), panel), panel.panels)
      ensures !old(gui.showMainWindow) ==>
                shadowsEnabled == old(shadowsEnabled) && wireframeMode == old(wireframeMode) &&
                lightManager.lights == old(lightManager.lights)
      ensures old(gui.showMainWindow) ==> gui.showMainWindow == !panel.closeClicked && gui.showDemoWindow == panel.demoChecked
      ensures !old(gui.showMainWindow) ==>
                gui.showMainWindow == old(gui.showMainWindow) && gui.showDemoWindow == old(gui.showDemoWindow)
      ensures uiMode ==> camera.position == old(camera.position)
      ensures !uiMode ==> camera.position == KeysTravel(old(camera.position), keys, Velocity(old(camera.movementSpeed), deltaTime),
                                                        Basis(camera.front, camera.right, camera.up), camera.worldUp)
      ensures camera.front == old(camera.front) && camera.right == old(camera.right) && camera.up == old(camera.up)
      ensures camera.worldUp == old(camera.worldUp) && camera.yaw == old(camera.yaw) && camera.pitch == old(camera.pitch)
      ensures camera.zoom == old(camera.zoom) && camera.movementSpeed == old(camera.movementSpeed)
      ensures camera.mouseSensitivity == old(camera.mouseSensitivity)
    {
      close := BeginFrame(now, keys);
      Draw(gl, clock);
      ShowPanel(norm, panel);
    }

    /** The loop's first steps: the frame time, then processInput. */
    method BeginFrame(now: real, keys: Keys) returns (close: bool)
      requires Valid()
      modifies this, camera
      ensures Valid()
      ensures deltaTime == now - old(lastFrame) && lastFrame == now
      ensures close == keys.escape
      ensures Tabs() == TabStep(old(Tabs()), keys.tab) && lastX == old(lastX) && lastY == old(lastY)
      ensures shadowsEnabled == old(shadowsEnabled) && wireframeMode == old(wireframeMode)
      ensures uiMode ==> camera.position == old(camera.position)
      ensures !uiMode ==> camera.position == KeysTravel(old(camera.position), keys, Velocity(old(camera.movementSpeed), deltaTime),
                                                        Basis(camera.front, camera.right, camera.up), camera.worldUp)
      ensures camera.front == old(camera.front) && camera.right == old(camera.right) && camera.up == old(camera.up)
      ensures camera.worldUp == old(camera.worldUp) && camera.yaw == old(camera.yaw) && camera.pitch == old(camera.pitch)
      ensures camera.zoom == old(camera.zoom) && camera.movementSpeed == old(camera.movementSpeed)
      ensures camera.mouseSensitivity == old(camera.mouseSensitivity)
    {
      deltaTime := now - lastFrame;
      lastFrame := now;
      close := ProcessInput(keys);
    }

    /** The control panel's part of the loop: the main window may change the
        shadow and wireframe flags and edit the lights; nothing else changes. */
    method ShowPanel(norm: Normalizer, panel: FrameInput)
      requires lightManager.Valid()
      modifies this, lightManager, gui
      ensures lightManager.Valid()
      ensures Tabs() == old(Tabs()) && lastX == old(lastX) && lastY == old(lastY)
      ensures deltaTime == old(deltaTime) && lastFrame == old(lastFrame)
      ensures old(gui.showMainWindow) ==>
                shadowsEnabled == panel.shadowsChecked && wireframeMode == panel.wireframeChecked &&
                lightManager.lights == EditAll(norm, AfterButtons(norm, old(lightManager.lights), panel), panel.panels)
      ensures !old(gui.showMainWindow) ==>
                shadowsEnabled == old(shadowsEnabled) && wireframeMode == old(wireframeMode) &&
                lightManager.lights == old(lightManager.lights)
      ensures old(gui.showMainWindow) ==> gui.showMainWindow == !panel.closeClicked && gui.showDemoWindow == panel.demoChecked
      ensures !old(gui.showMainWindow) ==>
                gui.showMainWindow == old(gui.showMainWindow) && gui.showDemoWindow == old(gui.showDemoWindow)
    {
      var shadows, wire := gui.ShowMainWindow(norm, panel, shadowsEnabled, lightManager, Some(wireframeMode));
      shadowsEnabled := shadows;
      wireframeMode := wire.value;
    }
  }

  /** The geometries of initializeScene: a sphere of 32 sectors by 16 stacks,
      a cube of edge 2 and a 20 by 20 plane. */
  method CreateGeometries(gl: Gl, at: GridVertex) returns (sphere: Geometry, cube: Geometry, plane: Geometry)
    modifies gl
    ensures fresh(sphere) && fresh(cube) && fresh(plane)
    ensures sphere.initialized && cube.initialized && plane.initialized
    ensures sphere.vertices == GridVertices(at, SphereStacks + 1, SphereSectors + 1)
    ensures SphereTable(sphere.indices)
    ensures cube.vertices == CubeVertices(1.0) && cube.indices == CubeIndices
    ensures plane.vertices == PlaneVertices(10.0, 10.0) && plane.indices == PlaneIndices
    ensures gl.log == old(gl.log) && gl.lastName > old(gl.lastName)
  {
    sphere := CreateSphereGeometry(gl, at);
    cube, plane := CreateFlatGeometries(gl);
  }

  /** The cube and the plane of initializeScene, generated after the sphere. */
  method CreateFlatGeometries(gl: Gl) returns (cube: Geometry, plane: Geometry)
    modifies gl
    ensures fresh(cube) && fresh(plane) && cube.initialized && plane.initialized
    ensures cube.vertices == CubeVertices(1.0) && cube.indices == CubeIndices
    ensures plane.vertices == PlaneVertices(10.0, 10.0) && plane.indices == PlaneIndices
    ensures gl.log == old(gl.log) && gl.lastName > old(gl.lastName)
  {
    cube := new Geometry();
    cube.GenerateCube(gl, 2.0);
    plane := new Geometry();
    plane.GeneratePlane(gl, 20.0, 20.0);
  }

  /** The sphere of initializeScene: 32 sectors by 16 stacks, so a non-empty
      grid and a mesh that is set up. */
  method CreateSphereGeometry(gl: Gl, at: GridVertex) returns (sphere: Geometry)
    modifies gl
    ensures fresh(sphere) && sphere.initialized
    ensures sphere.vertices == GridVertices(at, SphereStacks + 1, SphereSectors + 1)
    ensures SphereTable(sphere.indices)
    ensures gl.log == old(gl.log) && gl.lastName > old(gl.lastName)
  {
    sphere := new Geometry();
    sphere.GenerateSphere(gl, at, SphereSectors, SphereStacks);
    GridLength(at, Iterations(SphereStacks + 1), Iterations(SphereSectors + 1));
  }

  /** The depth framebuffer and its texture, both fresh names, then the
      lighting shader's shadowMap sampler set to texture unit 1. */
  method CreateShadowTarget(gl: Gl, lightingShader: Shader) returns (fbo: nat, tex: nat)
    modifies gl
    ensures fbo == old(gl.lastName) + 1 && tex == fbo + 1 && gl.lastName == tex
    ensures gl.log == old(gl.log) +
              [ BindTexture2D(0, tex), BindFramebuffer(fbo), BindFramebuffer(0),
                UseProgram(lightingShader.program),
                SetUniform(lightingShader.program, Global("shadowMap"), UInt(ShadowMapUnit)) ]
  {
    fbo := gl.GenName();
    tex := gl.GenName();
    gl.Issue(BindTexture2D(0, tex));
    gl.Issue(BindFramebuffer(fbo));
    gl.Issue(BindFramebuffer(0));
    lightingShader.Use(gl);
    lightingShader.SetUniform(gl, Global("shadowMap"), UInt(ShadowMapUnit));
  }

  /** One object of renderScene: the model matrix, the material, the draw. */
  method DrawPlacement(shader: Shader, gl: Gl, pl: Placement, g: Geometry, ghost d: Draws)
    requires d.Of(pl.shape) == g.DrawCommands()
    modifies gl
    ensures gl.log == old(gl.log) + PlacementCommands(shader.program, pl, d)
    ensures gl.lastName == old(gl.lastName)
  {
    shader.SetUniform(gl, Global("model"), UMat4(pl.model));
    shader.SetUniform(gl, Global("material.ambient"), UVec3(pl.material.ambient));
    shader.SetUniform(gl, Global("material.diffuse"), UVec3(pl.material.diffuse));
    shader.SetUniform(gl, Global("material.specular"), UVec3(pl.material.specular));
    shader.SetUniform(gl, Global("material.shininess"), UFloat(pl.material.shininess));
    g.Render(gl);
  }

  /** SceneWrites of five objects, unrolled after a prefix, in the left-nested
      form that five appends to a log produce. */
  lemma SceneWritesOfFive(prefix: seq<Command>, program: ProgramId, pls: seq<Placement>, d: Draws)
    requires |pls| == 5
    ensures prefix + SceneWrites(program, pls, d)
            == prefix + PlacementCommands(program, pls[0], d) + PlacementCommands(program, pls[1], d)
               + PlacementCommands(program, pls[2], d) + PlacementCommands(program, pls[3], d)
               + PlacementCommands(program, pls[4], d)
  {
    var c0, c1, c2 := PlacementCommands(program, pls[0], d), PlacementCommands(program, pls[1], d),
                      PlacementCommands(program, pls[2], d);
    var c3, c4 := PlacementCommands(program, pls[3], d), PlacementCommands(program, pls[4], d);
    var t1 := pls[1..];
    var t2 := t1[1..];
    var t3 := t2[1..];
    var t4 := t3[1..];
    assert t4 == [pls[4]] && t4[1..] == [];
    assert SceneWrites(program, t4, d) == c4 + [] == c4;
    assert t3[0] == pls[3];
    assert SceneWrites(program, t3, d) == c3 + c4;
    assert t2[0] == pls[2];
    assert SceneWrites(program, t2, d) == c2 + (c3 + c4);
    assert t1[0] == pls[1];
    assert SceneWrites(program, t1, d) == c1 + (c2 + (c3 + c4));
    assert SceneWrites(program, pls, d) == c0 + (c1 + (c2 + (c3 + c4)));
    AppendAssoc(c2, c3, c4);
    AppendAssoc(c1, c2 + c3, c4);
    AppendAssoc(c1, c2, c3);
    AppendAssoc(c0, c1 + c2 + c3, c4);
    AppendAssoc(c0, c1 + c2, c3);
    AppendAssoc(c0, c1, c2);
    assert SceneWrites(program, pls, d) == c0 + c1 + c2 + c3 + c4;
    AppendAssoc(prefix, c0 + c1 + c2 + c3, c4);
    AppendAssoc(prefix, c0 + c1 + c2, c3);
    AppendAssoc(prefix, c0 + c1, c2);
    AppendAssoc(prefix, c0, c1);
  }

  /** A frame drawn from a valid state binds the depth framebuffer exactly when
      the depth pass runs, binds the shadow map exactly when shadows are on,
      and draws the five objects twice with the depth pass and once without. */
  lemma FrameSummary(v: Viewer, shadows: bool, wireframe: bool, ls: seq<Light>, clock: Clock)
    requires v.Valid()
    ensures var cs := v.FrameFor(shadows, wireframe, ls, clock);
            var runs := DepthPassRuns(shadows, ls);
            (BindFramebuffer(v.depthMapFbo) in cs <==> runs) &&
            (BindTexture2D(ShadowMapUnit, v.depthMap) in cs <==> shadows) &&
            CountDraws(cs) == if runs then 10 else 5
  {
    var d := v.CurrentDraws();
    var sp := ScenePlacements(clock.depthSpinA, clock.depthSpinB, GroundMaterial, MetalMaterial, PlasticMaterial);
    var lp := ScenePlacements(clock.litSpinA, clock.litSpinB, GroundMaterial, MetalMaterial, PlasticMaterial);
    var shadowScene := v.Scene(v.shadowMapShader.program, clock.depthSpinA, clock.depthSpinB);
    var litScene := v.Scene(v.lightingShader.program, clock.litSpinA, clock.litSpinB);
    SceneDrawsEachObjectOnce(v.shadowMapShader.program, sp, d);
    SceneDrawsEachObjectOnce(v.lightingShader.program, lp, d);
    var t := v.GlTargets();
    DepthPassIff(t, shadows, wireframe, ls, v.View(), shadowScene, litScene);
    ShadowMapBoundIff(t, shadows, wireframe, ls, v.View(), shadowScene, litScene);
    FrameDrawCount(t, shadows, wireframe, ls, v.View(), shadowScene, litScene);
  }
}
