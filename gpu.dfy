/** The GPU boundary: shader programs receive named uniform writes, and every
    GL call the viewer issues is appended to one command log in issue order. */
module Gpu {
  import opened Glm

  /** The value of one uniform write. `UCosRadians(d)` is the value
      cos(radians(d)) computed on the CPU, kept as a term; `UUnspecifiedVec3`
      is a vec3 whose value the model does not determine. */
  datatype UValue =
    | UBool(b: bool)
    | UInt(i: int)
    | UFloat(f: real)
    | UCosRadians(degrees: real)
    | UVec3(v: Vec3)
    | UMat4(m: Mat4)
    | UUnspecifiedVec3

  type ProgramId = nat

  /** The fields of one entry of the shader's light array. */
  datatype LightField =
    | TypeTag | Position | Direction | Color | Intensity | Enabled
    | Constant | Linear | Quadratic | CutOff | OuterCutOff

  /** The suffix a field adds to its slot's name. */
  function FieldName(f: LightField): string {
    match f
    case TypeTag => ".type"
    case Position => ".position"
    case Direction => ".direction"
    case Color => ".color"
    case Intensity => ".intensity"
    case Enabled => ".enabled"
    case Constant => ".constant"
    case Linear => ".linear"
    case Quadratic => ".quadratic"
    case CutOff => ".cutOff"
    case OuterCutOff => ".outerCutOff"
  }

  /** The name of a uniform: a plain name, or field `field` of `lights[index]`.
      `Render` gives the exact string handed to setUniform. */
  datatype UniformName = Global(name: string) | LightSlot(index: nat, field: LightField) {
    function Render(): string {
      match this
      case Global(n) => n
      case LightSlot(i, f) => "lights[" + NatToString(i) + "]" + FieldName(f)
    }
  }

  /** A GL command as the viewer issues it. Framebuffer 0 is the default one. */
  datatype Command =
    | UseProgram(program: ProgramId)
    | SetUniform(program: ProgramId, name: UniformName, value: UValue)
    | Viewport(width: nat, height: nat)
    | BindFramebuffer(framebuffer: nat)
    | ClearBuffers(color: bool, depth: bool)
    | PolygonMode(wireframe: bool)
    | BindTexture2D(unit: nat, texture: nat)
    | DrawElements(vertexArray: nat, count: nat)
    | DrawArrays(vertexArray: nat, count: nat)
    | BindSceneLight(program: ProgramId, slot: nat)

  /** The GL context: the log of issued commands and the last object name handed out. */
  class Gl {
    var log: seq<Command>
    var lastName: nat

    constructor ()
      ensures log == [] && lastName == 0
    {
      log := [];
      lastName := 0;
    }

    /** glGen*: a name never handed out before; names are positive, 0 means "none". */
    method GenName() returns (name: nat)
      modifies this
      ensures name == old(lastName) + 1 && lastName == name
      ensures log == old(log)
    {
      lastName := lastName + 1;
      name := lastName;
    }

    method Issue(c: Command)
      modifies this
      ensures log == old(log) + [c] && lastName == old(lastName)
    {
      log := log + [c];
    }
  }

  /** A linked shader program. Compilation and linking are not modelled. */
  datatype Shader = Shader(program: ProgramId) {

    /** Shader::use. */
    method Use(gl: Gl)
      modifies gl
      ensures gl.log == old(gl.log) + [UseProgram(program)] && gl.lastName == old(gl.lastName)
    {
      gl.Issue(UseProgram(program));
    }

    /** Shader::setUniform, one overload per UValue constructor. */
    method SetUniform(gl: Gl, name: UniformName, value: UValue)
      modifies gl
      ensures gl.log == old(gl.log) + [Command.SetUniform(program, name, value)]
      ensures gl.lastName == old(gl.lastName)
    {
      gl.Issue(Command.SetUniform(program, name, value));
    }
  }

  function Digit(d: nat): char
    requires d < 10
  {
    "0123456789"[d]
  }

  /** std::to_string on a non-negative int. */
  function NatToString(n: nat): (s: string)
    ensures |s| >= 1
    ensures n < 10 ==> s == [Digit(n)]
  {
    if n < 10 then [Digit(n)] else NatToString(n / 10) + [Digit(n % 10)]
  }

  /** Reads a field suffix back; the inverse of FieldName. */
  function ParseField(s: string): Option<LightField> {
    if s == ".type" then Some(TypeTag)
    else if s == ".position" then Some(Position)
    else if s == ".direction" then Some(Direction)
    else if s == ".color" then Some(Color)
    else if s == ".intensity" then Some(Intensity)
    else if s == ".enabled" then Some(Enabled)
    else if s == ".constant" then Some(Constant)
    else if s == ".linear" then Some(Linear)
    else if s == ".quadratic" then Some(Quadratic)
    else if s == ".cutOff" then Some(CutOff)
    else if s == ".outerCutOff" then Some(OuterCutOff)
    else None
  }

  datatype Option<T> = None | Some(value: T)

  /** Field suffixes are told apart by ParseField, so distinct fields have distinct names. */
  lemma ParseFieldName(f: LightField)
    ensures ParseField(FieldName(f)) == Some(f)
  {
    match f
    case Position => assert FieldName(f)[1] != ".type"[1];
    case Direction => assert FieldName(f)[1] != ".position"[1];
    case Intensity => assert FieldName(f)[1] != ".direction"[1];
    case Constant => assert FieldName(f)[1] != ".position"[1];
    case Quadratic => assert FieldName(f)[1] != ".direction"[1] && FieldName(f)[1] != ".intensity"[1];
    case CutOff => assert FieldName(f)[1] != ".linear"[1];
    case _ =>
  }

  /** For the slots a shader can address (single-digit indices), distinct light
      uniforms have distinct rendered names. */
  lemma SlotNamesDistinct(a: UniformName, b: UniformName)
    requires a.LightSlot? && b.LightSlot? && a.index < 10 && b.index < 10
    requires a.Render() == b.Render()
    ensures a == b
  {
    var ra, rb := a.Render(), b.Render();
    assert ra[7] == Digit(a.index) && rb[7] == Digit(b.index);
    assert a.index == b.index;
    assert ra[9..] == FieldName(a.field) && rb[9..] == FieldName(b.field);
    ParseFieldName(a.field);
    ParseFieldName(b.field);
  }
}
