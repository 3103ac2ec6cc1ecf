/** Scene objects: a transform (position, Euler rotation, scale), a material,
    an optional mesh and a selection flag, all updated in place. */
module Objects {
  import opened Glm
  import opened Gpu
  import opened Materials
  import opened Primitives
  import opened Meshes

  class Object3D {
    var position: Vec3
    /** Euler angles in radians. */
    var rotation: Vec3
    var scale: Vec3
    var material: Material
    /** The shared mesh; null when the object has none. */
    var mesh: Mesh?
    var name: string
    var isSelected: bool

    /** Object3D(name, pos, rot, scl): stores its arguments, not selected, no mesh. */
    constructor (objectName: string, pos: Vec3, rot: Vec3, scl: Vec3)
      ensures name == objectName && position == pos && rotation == rot && scale == scl
      ensures material == Preset(PLASTIC) && mesh == null && !isSelected
    {
      name := objectName;
      position := pos;
      rotation := rot;
      scale := scl;
      material := Preset(PLASTIC);
      mesh := null;
      isSelected := false;
    }

    /** getModelMatrix: translate, then rotate about x, y and z, then scale. */
    function ModelMatrix(): (m: Mat4)
      reads this
      ensures m.ScaleBy? && m.factors == scale
      ensures m.base.Rotate? && m.base.angle == rotation.z && m.base.axis == Vec3(0.0, 0.0, 1.0)
      ensures Unrotated(m.base) == Mat4.Translate(Identity, position)
    {
      var t := Mat4.Translate(Identity, position);
      var rx := Mat4.Rotate(t, rotation.x, Vec3(1.0, 0.0, 0.0));
      var ry := Mat4.Rotate(rx, rotation.y, Vec3(0.0, 1.0, 0.0));
      var rz := Mat4.Rotate(ry, rotation.z, Vec3(0.0, 0.0, 1.0));
      assert Unrotated(rx) == t && Unrotated(ry) == t && Unrotated(rz) == t;
      ScaleBy(rz, scale)
    }

    method SetPosition(pos: Vec3)
      modifies this
      ensures position == pos
      ensures rotation == old(rotation) && scale == old(scale) && material == old(material)
      ensures mesh == old(mesh) && name == old(name) && isSelected == old(isSelected)
    {
      position := pos;
    }

    method SetRotation(rot: Vec3)
      modifies this
      ensures rotation == rot
      ensures position == old(position) && scale == old(scale) && material == old(material)
      ensures mesh == old(mesh) && name == old(name) && isSelected == old(isSelected)
    {
      rotation := rot;
    }

    method SetScale(scl: Vec3)
      modifies this
      ensures scale == scl
      ensures position == old(position) && rotation == old(rotation) && material == old(material)
      ensures mesh == old(mesh) && name == old(name) && isSelected == old(isSelected)
    {
      scale := scl;
    }

    /** translate: the offset accumulates into the position, and the bounding box
        and the pick region move with it. */
    method Translate(offset: Vec3)
      modifies this
      ensures position == Add(old(position), offset)
      ensures rotation == old(rotation) && scale == old(scale) && material == old(material)
      ensures mesh == old(mesh) && name == old(name) && isSelected == old(isSelected)
      ensures BoundingBoxMin() == Add(old(BoundingBoxMin()), offset)
      ensures BoundingBoxMax() == Add(old(BoundingBoxMax()), offset)
    {
      position := Add(position, offset);
    }

    /** rotate: the Euler angles accumulate into the rotation. */
    method Rotate(eulerAngles: Vec3)
      modifies this
      ensures rotation == Add(old(rotation), eulerAngles)
      ensures position == old(position) && scale == old(scale) && material == old(material)
      ensures mesh == old(mesh) && name == old(name) && isSelected == old(isSelected)
    {
      rotation := Add(rotation, eulerAngles);
    }

    /** What render issues: nothing without a mesh; otherwise the model matrix,
        then the mesh's draw call. */
    function RenderCommands(shader: Shader): (cs: seq<Command>)
      reads this
      ensures mesh == null <==> cs == []
    {
      if mesh == null then []
      else [Command.SetUniform(shader.program, Global("model"), UMat4(ModelMatrix())), mesh.Draw()]
    }

    method Render(shader: Shader, gl: Gl)
      modifies gl
      ensures gl.log == old(gl.log) + RenderCommands(shader) && gl.lastName == old(gl.lastName)
    {
      if mesh == null {
        return;
      }
      shader.SetUniform(gl, Global("model"), UMat4(ModelMatrix()));
      mesh.Render(gl);
    }

    /** isPointInside: the point lies within threshold of the object's position. */
    predicate IsPointInside(point: Vec3, threshold: real): (b: bool)
      reads this
      ensures b ==> threshold >= 0.0
      ensures b <==> LengthSquared(Sub(position, point)) <= threshold * threshold && threshold >= 0.0
    {
      WithinDistance(point, position, threshold)
    }

    function BoundingBoxMin(): (lo: Vec3)
      reads this
      ensures Add(lo, scale) == position
    {
      Sub(position, scale)
    }

    function BoundingBoxMax(): (hi: Vec3)
      reads this
      ensures Sub(hi, scale) == position
    {
      Add(position, scale)
    }
  }

  /** No point is inside an object for a negative threshold, and for any other
      threshold the test is |point - position| <= threshold. */
  lemma IsPointInsideIsDistance(o: Object3D, point: Vec3, threshold: real, len: real)
    requires len >= 0.0 && len * len == LengthSquared(Sub(point, o.position))
    ensures o.IsPointInside(point, threshold) <==> threshold >= 0.0 && len <= threshold
  {
    WithinDistanceIsLength(point, o.position, threshold, len);
  }

  /** The bounding box is non-empty exactly when the scale is non-negative, and
      then it contains the object's position. */
  lemma BoundingBoxOrdered(o: Object3D)
    ensures LessEq(o.BoundingBoxMin(), o.BoundingBoxMax()) <==> NonNegative(o.scale)
    ensures NonNegative(o.scale) ==>
              LessEq(o.BoundingBoxMin(), o.position) && LessEq(o.position, o.BoundingBoxMax())
  {
  }

  /** Object3D::CreateCube: a cube mesh with the wood material. */
  method CreateCube(gl: Gl, name: string, position: Vec3) returns (o: Object3D)
    modifies gl
    ensures fresh(o) && fresh(o.mesh) && o.mesh != null
    ensures o.name == name && o.position == position && o.rotation == Zero && o.scale == Splat(1.0)
    ensures o.mesh.vertices == CubeVertices() && o.mesh.indices == CubeIndices
    ensures o.material == Preset(WOOD) && !o.isSelected
    ensures gl.log == old(gl.log)
  {
    o := new Object3D(name, position, Zero, Splat(1.0));
    var m := Meshes.CreateCube(gl);
    o.mesh := m;
    o.material := Preset(WOOD);
  }

  /** Object3D::CreateSphere: a sphere mesh with the metal material. The source
      always takes Mesh::CreateSphere's default resolution, 32 segments by 16
      rings; here the caller passes the resolution. */
  method CreateSphere(gl: Gl, at: GridVertex, name: string, position: Vec3, segments: int, rings: int)
    returns (o: Object3D)
    modifies gl
    ensures fresh(o) && fresh(o.mesh) && o.mesh != null
    ensures o.name == name && o.position == position && o.rotation == Zero && o.scale == Splat(1.0)
    ensures o.mesh.vertices == GridVertices(at, Iterations(rings + 1), Iterations(segments + 1))
    ensures o.mesh.indices == Meshes.SphereIndices(Iterations(segments), Iterations(rings))
    ensures o.material == Preset(METAL) && !o.isSelected
    ensures gl.log == old(gl.log)
  {
    o := new Object3D(name, position, Zero, Splat(1.0));
    var m := Meshes.CreateSphere(gl, at, segments, rings);
    o.mesh := m;
    o.material := Preset(METAL);
  }

  /** Object3D::CreatePlane: a plane mesh with the plastic material. */
  method CreatePlane(gl: Gl, name: string, position: Vec3) returns (o: Object3D)
    modifies gl
    ensures fresh(o) && fresh(o.mesh) && o.mesh != null
    ensures o.name == name && o.position == position && o.rotation == Zero && o.scale == Splat(1.0)
    ensures o.mesh.vertices == PlaneVertices() && o.mesh.indices == PlaneIndices
    ensures o.material == Preset(PLASTIC) && !o.isSelected
    ensures gl.log == old(gl.log)
  {
    o := new Object3D(name, position, Zero, Splat(1.0));
    var m := Meshes.CreatePlane(gl);
    o.mesh := m;
  }
}
