/** The scene: an ordered list of objects, an ordered list of lights, the
    camera, and the current selection (at most one object, or one light index). */
module Scenes {
  import opened Glm
  import opened Gpu
  import opened Seqs
  import opened Objects
  import opened Cameras
  import Lights

  /** A light as the scene sees it. The scene code uses a light interface
      (bind, cleanup, shadow maps) that the light header does not declare, so
      apart from its position a scene light is an opaque value. */
  datatype SceneLight = SceneLight(position: Vec3, rest: nat)

  /** How many lights render binds: the list size, but never more than the
      shader's 8 slots. */
  function BoundLights(n: nat): (k: nat)
    ensures k <= n && k <= Lights.MaxLights
    ensures k == n || k == Lights.MaxLights
  {
    if n < Lights.MaxLights then n else Lights.MaxLights
  }

  /** The light binds of render, one per slot, in slot order. */
  function LightBinds(program: ProgramId, n: nat): (cs: seq<Command>)
    ensures |cs| == n
    ensures forall i :: 0 <= i < n ==> cs[i] == BindSceneLight(program, i)
  {
    if n == 0 then [] else LightBinds(program, n - 1) + [BindSceneLight(program, n - 1)]
  }

  /** What rendering the objects issues, object after object. */
  function ObjectCommands(objs: seq<Object3D>, shader: Shader): seq<Command>
    reads objs
  {
    if |objs| == 0 then []
    else ObjectCommands(objs[..|objs| - 1], shader) + objs[|objs| - 1].RenderCommands(shader)
  }

  /** The number of light binds in a command sequence. */
  function CountBinds(cs: seq<Command>): nat {
    if |cs| == 0 then 0
    else CountBinds(cs[..|cs| - 1]) + (if cs[|cs| - 1].BindSceneLight? then 1 else 0)
  }

  /** What removeLight(index) does to the selected light index: the removed
      light is deselected, and a selection behind it follows its light down. */
  function SelectionAfterRemoval(selected: int, index: int): int {
    if selected == index then -1
    else if selected > index then selected - 1
    else selected
  }

  class Scene {
    var objects: seq<Object3D>
    var lights: seq<SceneLight>
    var camera: Camera
    var selectedObject: Object3D?
    var selectedLightIndex: int

    /** Scene(): nothing selected; the camera at (0, 5, 10), up (0, 1, 0),
        yaw -90 and pitch -20. */
    constructor (orient: Orientation)
      ensures objects == [] && lights == []
      ensures selectedObject == null && selectedLightIndex == -1
      ensures fresh(camera) && camera.position == Vec3(0.0, 5.0, 10.0) && camera.worldUp == Vec3(0.0, 1.0, 0.0)
      ensures camera.yaw == -90.0 && camera.pitch == -20.0 && camera.zoom == DefaultZoom
    {
      objects := [];
      lights := [];
      selectedObject := null;
      selectedLightIndex := -1;
      var c := new Camera(orient, Vec3(0.0, 5.0, 10.0), Vec3(0.0, 1.0, 0.0), -90.0, -20.0);
      camera := c;
    }

    /** The selected object, if any, carries the selection flag. */
    predicate SelectionMarked()
      reads this, selectedObject
    {
      selectedObject != null ==> selectedObject.isSelected
    }

    /** The selected light index is -1 or names a light. */
    predicate LightSelectionInRange()
      reads this
    {
      selectedLightIndex == -1 || 0 <= selectedLightIndex < |lights|
    }

    method AddObject(o: Object3D)
      modifies this
      ensures objects == old(objects) + [o]
      ensures lights == old(lights) && camera == old(camera)
      ensures selectedObject == old(selectedObject) && selectedLightIndex == old(selectedLightIndex)
    {
      objects := objects + [o];
    }

    /** removeObject: erases the first occurrence of the object; removing the
        selected object clears the object selection. An absent object changes
        nothing. */
    method RemoveObject(o: Object3D)
      modifies this
      ensures o !in old(objects) ==> objects == old(objects) && selectedObject == old(selectedObject)
      ensures o in old(objects) ==>
                objects == Erase(old(objects), FirstIndex(old(objects), o)) &&
                selectedObject == (if old(selectedObject) == o then null else old(selectedObject))
      ensures lights == old(lights) && camera == old(camera) && selectedLightIndex == old(selectedLightIndex)
    {
      var i := 0;
      while i < |objects| && objects[i] != o
        invariant 0 <= i <= |objects|
        invariant forall j :: 0 <= j < i ==> objects[j] != o
      {
        i := i + 1;
      }
      if i < |objects| {
        if selectedObject == o {
          selectedObject := null;
        }
        objects := Erase(objects, i);
      }
    }

    /** getObjectByName: the first object with that name, or null. */
    method GetObjectByName(name: string) returns (r: Object3D?)
      ensures r == null ==> forall j :: 0 <= j < |objects| ==> objects[j].name != name
      ensures r != null ==> exists k :: 0 <= k < |objects| && objects[k] == r && r.name == name &&
                                        forall j :: 0 <= j < k ==> objects[j].name != name
    {
      var i := 0;
      while i < |objects|
        invariant 0 <= i <= |objects|
        invariant forall j :: 0 <= j < i ==> objects[j].name != name
      {
        if objects[i].name == name {
          return objects[i];
        }
        i := i + 1;
      }
      return null;
    }

    /** getObjectAtPosition: the first object containing the point, or null. */
    method GetObjectAtPosition(worldPos: Vec3, threshold: real) returns (r: Object3D?)
      ensures r == null ==> forall j :: 0 <= j < |objects| ==> !objects[j].IsPointInside(worldPos, threshold)
      ensures r != null ==> exists k :: 0 <= k < |objects| && objects[k] == r && r.IsPointInside(worldPos, threshold) &&
                                        forall j :: 0 <= j < k ==> !objects[j].IsPointInside(worldPos, threshold)
    {
      var i := 0;
      while i < |objects|
        invariant 0 <= i <= |objects|
        invariant forall j :: 0 <= j < i ==> !objects[j].IsPointInside(worldPos, threshold)
      {
        if objects[i].IsPointInside(worldPos, threshold) {
          return objects[i];
        }
        i := i + 1;
      }
      return null;
    }

    method AddLight(l: SceneLight)
      modifies this
      ensures lights == old(lights) + [l]
      ensures old(LightSelectionInRange()) ==> LightSelectionInRange()
      ensures objects == old(objects) && camera == old(camera)
      ensures selectedObject == old(selectedObject) && selectedLightIndex == old(selectedLightIndex)
    {
      lights := lights + [l];
    }

    /** removeLight: an index outside the list changes nothing; otherwise the
        light is erased and the selected index is adjusted to the shift. */
    method RemoveLight(index: int)
      modifies this
      ensures !(0 <= index < |old(lights)|) ==> lights == old(lights) && selectedLightIndex == old(selectedLightIndex)
      ensures 0 <= index < |old(lights)| ==>
                lights == Erase(old(lights), index) &&
                selectedLightIndex == SelectionAfterRemoval(old(selectedLightIndex), index)
      ensures objects == old(objects) && camera == old(camera) && selectedObject == old(selectedObject)
      ensures old(LightSelectionInRange()) ==> LightSelectionInRange()
    {
      if 0 <= index < |lights| {
        lights := Erase(lights, index);
        if selectedLightIndex == index {
          selectedLightIndex := -1;
        } else if selectedLightIndex > index {
          selectedLightIndex := selectedLightIndex - 1;
        }
      }
    }

    /** getLightByIndex: the light at that index, or nothing when the index is
        outside the list. */
    function GetLightByIndex(index: int): (r: Option<SceneLight>)
      reads this
      ensures r.Some? <==> 0 <= index < |lights|
      ensures r.Some? ==> r.value == lights[index]
    {
      if 0 <= index < |lights| then Some(lights[index]) else None
    }

    /** selectObject: the previous object loses its flag, the new one (if any)
        gains it, and no light stays selected. */
    method SelectObject(o: Object3D?)
      modifies this, ({selectedObject, o} - {null})`isSelected
      ensures selectedObject == o && selectedLightIndex == -1
      ensures o != null ==> o.isSelected
      ensures old(selectedObject) != null && old(selectedObject) != o ==> !old(selectedObject).isSelected
      ensures SelectionMarked()
      ensures objects == old(objects) && lights == old(lights) && camera == old(camera)
    {
      if selectedObject != null {
        selectedObject.isSelected := false;
      }
      selectedObject := o;
      selectedLightIndex := -1;
      if selectedObject != null {
        selectedObject.isSelected := true;
      }
    }

    /** selectLight: deselects the object and records the index, unchecked. */
    method SelectLight(index: int)
      modifies this, ({selectedObject} - {null})`isSelected
      ensures old(selectedObject) != null ==> !old(selectedObject).isSelected
      ensures selectedObject == null && selectedLightIndex == index
      ensures objects == old(objects) && lights == old(lights) && camera == old(camera)
    {
      if selectedObject != null {
        selectedObject.isSelected := false;
        selectedObject := null;
      }
      selectedLightIndex := index;
    }

    method ClearSelection()
      modifies this, ({selectedObject} - {null})`isSelected
      ensures old(selectedObject) != null ==> !old(selectedObject).isSelected
      ensures selectedObject == null && selectedLightIndex == -1
      ensures objects == old(objects) && lights == old(lights) && camera == old(camera)
    {
      if selectedObject != null {
        selectedObject.isSelected := false;
        selectedObject := null;
      }
      selectedLightIndex := -1;
    }

    /** getLightAtPosition: the index of the first light within threshold of
        the point, or -1. */
    method GetLightAtPosition(worldPos: Vec3, threshold: real) returns (r: int)
      ensures -1 <= r < |lights|
      ensures r == -1 ==> forall j :: 0 <= j < |lights| ==> !WithinDistance(lights[j].position, worldPos, threshold)
      ensures r >= 0 ==> WithinDistance(lights[r].position, worldPos, threshold)
      ensures r >= 0 ==> forall j :: 0 <= j < r ==> !WithinDistance(lights[j].position, worldPos, threshold)
    {
      var i := 0;
      while i < |lights|
        invariant 0 <= i <= |lights|
        invariant forall j :: 0 <= j < i ==> !WithinDistance(lights[j].position, worldPos, threshold)
      {
        if WithinDistance(lights[i].position, worldPos, threshold) {
          return i;
        }
        i := i + 1;
      }
      return -1;
    }

    /** What render issues: the full light count, one bind per slot for the
        first (at most 8) lights, the camera position, then every object. */
    function RenderCommands(shader: Shader): seq<Command>
      reads this, objects, camera
    {
      [Command.SetUniform(shader.program, Global("numLights"), UInt(|lights|))]
      + LightBinds(shader.program, BoundLights(|lights|))
      + [Command.SetUniform(shader.program, Global("viewPos"), UVec3(camera.position))]
      + ObjectCommands(objects, shader)
    }

    method Render(shader: Shader, gl: Gl)
      modifies gl
      ensures gl.log == old(gl.log) + RenderCommands(shader) && gl.lastName == old(gl.lastName)
    {
      var head := [Command.SetUniform(shader.program, Global("numLights"), UInt(|lights|))];
      var binds := LightBinds(shader.program, BoundLights(|lights|));
      var view := [Command.SetUniform(shader.program, Global("viewPos"), UVec3(camera.position))];
      shader.SetUniform(gl, Global("numLights"), UInt(|lights|));
      RenderLights(shader, gl);
      AppendAssoc(old(gl.log), head, binds);
      shader.SetUniform(gl, Global("viewPos"), UVec3(camera.position));
      AppendAssoc(old(gl.log), head + binds, view);
      RenderObjects(shader, gl);
      AppendAssoc(old(gl.log), head + binds + view, ObjectCommands(objects, shader));
    }

    /** render's light loop: slots below both the list size and 8. */
    method RenderLights(shader: Shader, gl: Gl)
      modifies gl
      ensures gl.log == old(gl.log) + LightBinds(shader.program, BoundLights(|lights|))
      ensures gl.lastName == old(gl.lastName)
    {
      var i := 0;
      while i < |lights| && i < 8
        invariant 0 <= i <= BoundLights(|lights|)
        invariant gl.log == old(gl.log) + LightBinds(shader.program, i)
        invariant gl.lastName == old(gl.lastName)
      {
        gl.Issue(BindSceneLight(shader.program, i));
        i := i + 1;
      }
    }

    /** render's object loop. */
    method RenderObjects(shader: Shader, gl: Gl)
      modifies gl
      ensures gl.log == old(gl.log) + ObjectCommands(objects, shader)
      ensures gl.lastName == old(gl.lastName)
    {
      var i := 0;
      while i < |objects|
        invariant 0 <= i <= |objects|
        invariant gl.log == old(gl.log) + ObjectCommands(objects[..i], shader)
        invariant gl.lastName == old(gl.lastName)
      {
        assert objects[..i + 1][..i] == objects[..i];
        AppendAssoc(old(gl.log), ObjectCommands(objects[..i], shader), objects[i].RenderCommands(shader));
        objects[i].Render(shader, gl);
        i := i + 1;
      }
      assert objects[..i] == objects;
    }
  }

  /** Rendering an object never binds a light. */
  lemma {:induction false} ObjectCommandsBindNothing(objs: seq<Object3D>, shader: Shader)
    ensures CountBinds(ObjectCommands(objs, shader)) == 0
  {
    if |objs| > 0 {
      ObjectCommandsBindNothing(objs[..|objs| - 1], shader);
      var o := objs[|objs| - 1];
      CountBindsAppend(ObjectCommands(objs[..|objs| - 1], shader), o.RenderCommands(shader));
      if o.mesh != null {
        var cs := o.RenderCommands(shader);
        assert cs == [cs[0]] + [cs[1]];
        CountBindsAppend([cs[0]], [cs[1]]);
        CountBindsSingle(cs[0]);
        CountBindsSingle(cs[1]);
      } else {
        assert CountBinds([]) == 0;
      }
    }
  }

  lemma {:induction false} CountBindsAppend(a: seq<Command>, b: seq<Command>)
    ensures CountBinds(a + b) == CountBinds(a) + CountBinds(b)
  {
    if |b| > 0 {
      assert (a + b)[..|a + b| - 1] == a + b[..|b| - 1];
      CountBindsAppend(a, b[..|b| - 1]);
    } else {
      assert a + b == a;
    }
  }

  lemma CountBindsSingle(c: Command)
    ensures CountBinds([c]) == if c.BindSceneLight? then 1 else 0
  {
    assert [c][..0] == [];
  }

  lemma {:induction false} LightBindsCount(program: ProgramId, n: nat)
    ensures CountBinds(LightBinds(program, n)) == n
  {
    if n > 0 {
      LightBindsCount(program, n - 1);
      CountBindsAppend(LightBinds(program, n - 1), [BindSceneLight(program, n - 1)]);
      CountBindsSingle(BindSceneLight(program, n - 1));
    }
  }

  /** A frame's light upload: the first write is numLights with the full list
      size, even past 8 lights, while exactly min(size, 8) lights are bound, to
      slots 0, 1, ... in order. */
  lemma RenderLightCount(s: Scene, shader: Shader)
    ensures var cs := s.RenderCommands(shader);
            cs[0] == Command.SetUniform(shader.program, Global("numLights"), UInt(|s.lights|)) &&
            CountBinds(cs) == BoundLights(|s.lights|) &&
            (forall i :: 1 <= i <= BoundLights(|s.lights|) ==> cs[i] == BindSceneLight(shader.program, i - 1))
  {
    var p := shader.program;
    var head := [Command.SetUniform(p, Global("numLights"), UInt(|s.lights|))];
    var binds := LightBinds(p, BoundLights(|s.lights|));
    var view := [Command.SetUniform(p, Global("viewPos"), UVec3(s.camera.position))];
    var objs := ObjectCommands(s.objects, shader);
    CountBindsAppend(head, binds);
    CountBindsAppend(head + binds, view);
    CountBindsAppend(head + binds + view, objs);
    LightBindsCount(p, BoundLights(|s.lights|));
    ObjectCommandsBindNothing(s.objects, shader);
    CountBindsSingle(head[0]);
    CountBindsSingle(view[0]);
  }

  /** After removeLight, a selected index that named a light still names the
      same light, unless that light was the one removed. */
  lemma RemovalKeepsSelectedLight(lights: seq<SceneLight>, selected: int, index: int)
    requires 0 <= index < |lights|
    requires selected == -1 || 0 <= selected < |lights|
    ensures var r := SelectionAfterRemoval(selected, index);
            var after := Erase(lights, index);
            (r == -1 || 0 <= r < |after|) &&
            (0 <= selected && selected != index ==> after[r] == lights[selected])
  {
  }
}
