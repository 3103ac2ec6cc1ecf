/** The light data model (a tagged variant), its uniform upload protocol, and
    the bounded light registry. */
module Lights {
  import opened Glm
  import opened Gpu
  import opened Seqs

  /** LightManager::MAX_LIGHTS: shader slots available to lights. */
  const MaxLights: nat := 8

  datatype LightType = DIRECTIONAL | POINT | SPOT

  /** static_cast<int> of the enum: the declaration order. */
  function TypeCode(t: LightType): (code: int)
    ensures 0 <= code <= 2
    ensures t == DIRECTIONAL <==> code == 0
    ensures t == POINT <==> code == 1
    ensures t == SPOT <==> code == 2
  {
    match t
    case DIRECTIONAL => 0
    case POINT => 1
    case SPOT => 2
  }

  /** The variant-specific part of a light. Angles are in degrees. */
  datatype Kind =
    | Directional(direction: Vec3)
    | Point(position: Vec3)
    | Spot(position: Vec3, direction: Vec3, cutOff: real, outerCutOff: real)

  /** A light: the fields shared by all variants plus its variant. The type tag is
      derived from the variant, so no update of the shared fields can re-tag it. */
  datatype Light = Light(kind: Kind, color: Vec3, intensity: real, enabled: bool,
                         constant: real, linear: real, quadratic: real)
  {
    function Type(): LightType {
      match kind
      case Directional(_) => DIRECTIONAL
      case Point(_) => POINT
      case Spot(_, _, _, _) => SPOT
    }
  }

  const DefaultConstant: real := 1.0
  const DefaultLinear: real := 0.09
  const DefaultQuadratic: real := 0.032
  const DefaultDirectionalDirection: Vec3 := Vec3(-0.2, -1.0, -0.3)
  const DefaultSpotDirection: Vec3 := Vec3(0.0, -1.0, 0.0)
  const DefaultCutOff: real := 12.5
  const DefaultOuterCutOff: real := 17.5

  /** The base constructor Light(t, col, intens): enabled, default attenuation. */
  function NewLight(kind: Kind, col: Vec3, intens: real): (l: Light)
    ensures l.kind == kind && l.color == col && l.intensity == intens
    ensures l.enabled
    ensures l.constant == 1.0 && l.linear == 0.09 && l.quadratic == 0.032
  {
    Light(kind, col, intens, true, DefaultConstant, DefaultLinear, DefaultQuadratic)
  }

  /** DirectionalLight(dir, col, intens): stores normalize(dir), not dir. */
  function NewDirectionalLight(norm: Normalizer, dir: Vec3, col: Vec3, intens: real): (l: Light)
    ensures l.Type() == DIRECTIONAL && l.kind.direction == norm(dir)
    ensures l.color == col && l.intensity == intens && l.enabled
    ensures l.constant == 1.0 && l.linear == 0.09 && l.quadratic == 0.032
  {
    NewLight(Directional(norm(dir)), col, intens)
  }

  /** PointLight(pos, col, intens). */
  function NewPointLight(pos: Vec3, col: Vec3, intens: real): (l: Light)
    ensures l.Type() == POINT && l.kind.position == pos
    ensures l.color == col && l.intensity == intens && l.enabled
    ensures l.constant == 1.0 && l.linear == 0.09 && l.quadratic == 0.032
  {
    NewLight(Point(pos), col, intens)
  }

  /** SpotLight(pos, dir, cutoff, outerCutoff, col, intens): stores normalize(dir);
      the two angles are stored as given, without ordering them. */
  function NewSpotLight(norm: Normalizer, pos: Vec3, dir: Vec3, cutoff: real, outerCutoff: real,
                        col: Vec3, intens: real): (l: Light)
    ensures l.Type() == SPOT && l.kind.position == pos && l.kind.direction == norm(dir)
    ensures l.kind.cutOff == cutoff && l.kind.outerCutOff == outerCutoff
    ensures l.color == col && l.intensity == intens && l.enabled
    ensures l.constant == 1.0 && l.linear == 0.09 && l.quadratic == 0.032
  {
    NewLight(Spot(pos, norm(dir), cutoff, outerCutoff), col, intens)
  }

  /** The spot constructor accepts an outer angle smaller than the inner one. */
  lemma SpotConstructorDoesNotOrderAngles(norm: Normalizer)
    ensures var l := NewSpotLight(norm, Zero, DefaultSpotDirection, 30.0, 10.0, Splat(1.0), 1.0);
            l.kind.outerCutOff < l.kind.cutOff
  {
  }

  // ---------------------------------------------------------------------------
  // Uniform upload protocol

  /** A uniform write to the `.enabled` field of some slot. */
  predicate IsEnabledWrite(c: Command) {
    c.SetUniform? && c.name.LightSlot? && c.name.field == Enabled
  }

  /** The number of `.enabled` writes in a command sequence. */
  function CountEnabled(cs: seq<Command>): nat {
    if cs == [] then 0
    else CountEnabled(cs[..|cs| - 1]) + (if IsEnabledWrite(cs[|cs| - 1]) then 1 else 0)
  }

  /** The writes a light issues for slot `index` through its sendToShader override.
      A directional light also writes `.position`, a member it does not have;
      the value of that write is left unspecified. */
  function LightWrites(program: ProgramId, l: Light, index: nat): (ws: seq<Command>)
    ensures |ws| == match l.Type() case DIRECTIONAL => 6 case POINT => 8 case SPOT => 11
  {
    var p := program;
    var i := index;
    match l.kind
    case Directional(direction) =>
      [ SetUniform(p, LightSlot(i, TypeTag), UInt(TypeCode(l.Type()))),
        SetUniform(p, LightSlot(i, Direction), UVec3(direction)),
        SetUniform(p, LightSlot(i, Position), UUnspecifiedVec3),
        SetUniform(p, LightSlot(i, Color), UVec3(l.color)),
        SetUniform(p, LightSlot(i, Intensity), UFloat(l.intensity)),
        SetUniform(p, LightSlot(i, Enabled), UBool(l.enabled)) ]
    case Point(position) =>
      [ SetUniform(p, LightSlot(i, TypeTag), UInt(TypeCode(l.Type()))),
        SetUniform(p, LightSlot(i, Position), UVec3(position)),
        SetUniform(p, LightSlot(i, Color), UVec3(l.color)),
        SetUniform(p, LightSlot(i, Intensity), UFloat(l.intensity)),
        SetUniform(p, LightSlot(i, Enabled), UBool(l.enabled)),
        SetUniform(p, LightSlot(i, Constant), UFloat(l.constant)),
        SetUniform(p, LightSlot(i, Linear), UFloat(l.linear)),
        SetUniform(p, LightSlot(i, Quadratic), UFloat(l.quadratic)) ]
    case Spot(position, direction, cutOff, outerCutOff) =>
      [ SetUniform(p, LightSlot(i, TypeTag), UInt(TypeCode(l.Type()))),
        SetUniform(p, LightSlot(i, Position), UVec3(position)),
        SetUniform(p, LightSlot(i, Direction), UVec3(direction)),
        SetUniform(p, LightSlot(i, Color), UVec3(l.color)),
        SetUniform(p, LightSlot(i, Intensity), UFloat(l.intensity)),
        SetUniform(p, LightSlot(i, Enabled), UBool(l.enabled)),
        SetUniform(p, LightSlot(i, Constant), UFloat(l.constant)),
        SetUniform(p, LightSlot(i, Linear), UFloat(l.linear)),
        SetUniform(p, LightSlot(i, Quadratic), UFloat(l.quadratic)),
        SetUniform(p, LightSlot(i, CutOff), UCosRadians(cutOff)),
        SetUniform(p, LightSlot(i, OuterCutOff), UCosRadians(outerCutOff)) ]
  }

  /** The virtual call light->sendToShader(shader, index): dispatches on the variant. */
  method SendToShader(l: Light, shader: Shader, gl: Gl, index: nat)
    modifies gl
    ensures gl.log == old(gl.log) + LightWrites(shader.program, l, index)
    ensures gl.lastName == old(gl.lastName)
  {
    match l.kind {
      case Directional(_) => SendDirectional(l, shader, gl, index);
      case Point(_) => SendPoint(l, shader, gl, index);
      case Spot(_, _, _, _) => SendSpot(l, shader, gl, index);
    }
  }

  /** DirectionalLight::sendToShader. */
  method SendDirectional(l: Light, shader: Shader, gl: Gl, i: nat)
    requires l.Type() == DIRECTIONAL
    modifies gl
    ensures gl.log == old(gl.log) + LightWrites(shader.program, l, i)
    ensures gl.lastName == old(gl.lastName)
  {
    shader.SetUniform(gl, LightSlot(i, TypeTag), UInt(TypeCode(l.Type())));
    shader.SetUniform(gl, LightSlot(i, Direction), UVec3(l.kind.direction));
    shader.SetUniform(gl, LightSlot(i, Position), UUnspecifiedVec3);
    shader.SetUniform(gl, LightSlot(i, Color), UVec3(l.color));
    shader.SetUniform(gl, LightSlot(i, Intensity), UFloat(l.intensity));
    shader.SetUniform(gl, LightSlot(i, Enabled), UBool(l.enabled));
  }

  /** PointLight::sendToShader. */
  method SendPoint(l: Light, shader: Shader, gl: Gl, i: nat)
    requires l.Type() == POINT
    modifies gl
    ensures gl.log == old(gl.log) + LightWrites(shader.program, l, i)
    ensures gl.lastName == old(gl.lastName)
  {
    shader.SetUniform(gl, LightSlot(i, TypeTag), UInt(TypeCode(l.Type())));
    shader.SetUniform(gl, LightSlot(i, Position), UVec3(l.kind.position));
    shader.SetUniform(gl, LightSlot(i, Color), UVec3(l.color));
    shader.SetUniform(gl, LightSlot(i, Intensity), UFloat(l.intensity));
    shader.SetUniform(gl, LightSlot(i, Enabled), UBool(l.enabled));
    shader.SetUniform(gl, LightSlot(i, Constant), UFloat(l.constant));
    shader.SetUniform(gl, LightSlot(i, Linear), UFloat(l.linear));
    shader.SetUniform(gl, LightSlot(i, Quadratic), UFloat(l.quadratic));
  }

  /** SpotLight::sendToShader: the cone angles go up as cosines. */
  method SendSpot(l: Light, shader: Shader, gl: Gl, i: nat)
    requires l.Type() == SPOT
    modifies gl
    ensures gl.log == old(gl.log) + LightWrites(shader.program, l, i)
    ensures gl.lastName == old(gl.lastName)
  {
    shader.SetUniform(gl, LightSlot(i, TypeTag), UInt(TypeCode(l.Type())));
    shader.SetUniform(gl, LightSlot(i, Position), UVec3(l.kind.position));
    shader.SetUniform(gl, LightSlot(i, Direction), UVec3(l.kind.direction));
    shader.SetUniform(gl, LightSlot(i, Color), UVec3(l.color));
    shader.SetUniform(gl, LightSlot(i, Intensity), UFloat(l.intensity));
    shader.SetUniform(gl, LightSlot(i, Enabled), UBool(l.enabled));
    shader.SetUniform(gl, LightSlot(i, Constant), UFloat(l.constant));
    shader.SetUniform(gl, LightSlot(i, Linear), UFloat(l.linear));
    shader.SetUniform(gl, LightSlot(i, Quadratic), UFloat(l.quadratic));
    shader.SetUniform(gl, LightSlot(i, CutOff), UCosRadians(l.kind.cutOff));
    shader.SetUniform(gl, LightSlot(i, OuterCutOff), UCosRadians(l.kind.outerCutOff));
  }

  /** Every write of a light goes to the lighting program, addresses a field of
      its own slot, and no field is written twice. */
  lemma LightWritesOwnSlot(program: ProgramId, l: Light, index: nat)
    ensures var ws := LightWrites(program, l, index);
            (forall k :: 0 <= k < |ws| ==>
               ws[k].SetUniform? && ws[k].program == program && ws[k].name.LightSlot? && ws[k].name.index == index) &&
            (forall j, k :: 0 <= j < k < |ws| ==> ws[j].name != ws[k].name)
  {
  }

  /** The spot cone angles reach the shader as cos(radians(angle)) under
      `.cutOff` and `.outerCutOff`; the degree values are never uploaded. */
  lemma SpotUploadsCosines(program: ProgramId, l: Light, index: nat)
    requires l.Type() == SPOT
    ensures var ws := LightWrites(program, l, index);
            ws[9] == SetUniform(program, LightSlot(index, CutOff), UCosRadians(l.kind.cutOff)) &&
            ws[10] == SetUniform(program, LightSlot(index, OuterCutOff), UCosRadians(l.kind.outerCutOff))
  {
  }

  lemma {:induction false} CountEnabledAppend(a: seq<Command>, b: seq<Command>)
    ensures CountEnabled(a + b) == CountEnabled(a) + CountEnabled(b)
    decreases |b|
  {
    if b == [] {
      assert a + b == a;
    } else {
      assert (a + b)[..|a + b| - 1] == a + b[..|b| - 1];
      CountEnabledAppend(a, b[..|b| - 1]);
    }
  }

  lemma {:induction false} CountEnabledNone(cs: seq<Command>)
    requires forall k :: 0 <= k < |cs| ==> !IsEnabledWrite(cs[k])
    ensures CountEnabled(cs) == 0
    decreases |cs|
  {
    if cs != [] {
      CountEnabledNone(cs[..|cs| - 1]);
    }
  }

  /** Each light writes its own `.enabled` field exactly once. */
  lemma LightWritesEnableOnce(program: ProgramId, l: Light, index: nat)
    ensures CountEnabled(LightWrites(program, l, index)) == 1
  {
    var ws := LightWrites(program, l, index);
    var k := if l.Type() == POINT then 4 else 5;
    assert IsEnabledWrite(ws[k]);
    assert ws == ws[..k] + [ws[k]] + ws[k + 1..];
    CountEnabledNone(ws[..k]);
    CountEnabledNone(ws[k + 1..]);
    CountEnabledAppend(ws[..k], [ws[k]]);
    CountEnabledAppend(ws[..k] + [ws[k]], ws[k + 1..]);
  }

  /** The writes of slots 0 .. n-1, in slot order. */
  function ActiveWrites(program: ProgramId, ls: seq<Light>, n: nat): seq<Command>
    requires n <= |ls|
  {
    if n == 0 then [] else ActiveWrites(program, ls, n - 1) + LightWrites(program, ls[n - 1], n - 1)
  }

  /** `lights[i].enabled = false` for every slot i in [lo, hi), in slot order. */
  function DisabledWrites(program: ProgramId, lo: nat, hi: nat): seq<Command>
  {
    if hi <= lo then [] else DisabledWrites(program, lo, hi - 1) + [SetUniform(program, LightSlot(hi - 1, Enabled), UBool(false))]
  }

  /** What sendLightsToShader writes: the count, every light in slot order, then
      the enable flag of each unused slot. */
  function UploadTrace(program: ProgramId, ls: seq<Light>): (ws: seq<Command>)
    ensures |ws| > 0 && ws[0] == SetUniform(program, Global("numLights"), UInt(|ls|))
  {
    [SetUniform(program, Global("numLights"), UInt(|ls|))] + ActiveWrites(program, ls, |ls|) + DisabledWrites(program, |ls|, MaxLights)
  }

  lemma {:induction false} ActiveWritesEnableEach(program: ProgramId, ls: seq<Light>, n: nat)
    requires n <= |ls|
    ensures CountEnabled(ActiveWrites(program, ls, n)) == n
  {
    if n > 0 {
      assert ActiveWrites(program, ls, n) == ActiveWrites(program, ls, n - 1) + LightWrites(program, ls[n - 1], n - 1);
      ActiveWritesEnableEach(program, ls, n - 1);
      LightWritesEnableOnce(program, ls[n - 1], n - 1);
      CountEnabledAppend(ActiveWrites(program, ls, n - 1), LightWrites(program, ls[n - 1], n - 1));
    }
  }

  /** The unused-slot writes: one per slot, each `lights[lo + k].enabled = false`. */
  lemma {:induction false} DisabledWritesAt(program: ProgramId, lo: nat, hi: nat)
    requires lo <= hi
    ensures var ds := DisabledWrites(program, lo, hi);
            |ds| == hi - lo &&
            forall k :: 0 <= k < hi - lo ==> ds[k] == SetUniform(program, LightSlot(lo + k, Enabled), UBool(false))
    decreases hi
  {
    if lo < hi {
      DisabledWritesAt(program, lo, hi - 1);
      var ds := DisabledWrites(program, lo, hi - 1);
      var w := SetUniform(program, LightSlot(hi - 1, Enabled), UBool(false));
      assert DisabledWrites(program, lo, hi) == ds + [w];
      forall k | 0 <= k < hi - lo
        ensures (ds + [w])[k] == SetUniform(program, LightSlot(lo + k, Enabled), UBool(false))
      {
        if k < hi - 1 - lo {
          assert (ds + [w])[k] == ds[k];
        } else {
          assert lo + k == hi - 1;
        }
      }
    }
  }

  lemma {:induction false} DisabledWritesCount(program: ProgramId, lo: nat, hi: nat)
    requires lo <= hi
    ensures CountEnabled(DisabledWrites(program, lo, hi)) == hi - lo
    decreases hi
  {
    if lo < hi {
      var ds := DisabledWrites(program, lo, hi - 1);
      DisabledWritesCount(program, lo, hi - 1);
      var w := SetUniform(program, LightSlot(hi - 1, Enabled), UBool(false));
      assert CountEnabled([w]) == 1 by {
        assert [w][..0] == [];
      }
      CountEnabledAppend(ds, [w]);
    }
  }

  /** Whatever the lights, the upload sets `.enabled` exactly MAX_LIGHTS times:
      once per light, and once per unused slot. */
  lemma UploadEnablesEverySlot(program: ProgramId, ls: seq<Light>)
    requires |ls| <= MaxLights
    ensures CountEnabled(UploadTrace(program, ls)) == MaxLights
  {
    var head := [SetUniform(program, Global("numLights"), UInt(|ls|))];
    CountEnabledNone(head);
    ActiveWritesEnableEach(program, ls, |ls|);
    DisabledWritesCount(program, |ls|, MaxLights);
    CountEnabledAppend(head, ActiveWrites(program, ls, |ls|));
    CountEnabledAppend(head + ActiveWrites(program, ls, |ls|), DisabledWrites(program, |ls|, MaxLights));
  }

  /** Every unused slot i in [size, MAX_LIGHTS) gets exactly the write
      `lights[i].enabled = false`, and these writes close the upload. */
  lemma UploadDisablesUnusedSlots(program: ProgramId, ls: seq<Light>)
    requires |ls| <= MaxLights
    ensures var ws := UploadTrace(program, ls);
            var start := 1 + |ActiveWrites(program, ls, |ls|)|;
            |ws| == start + (MaxLights - |ls|) &&
            forall i :: |ls| <= i < MaxLights ==>
              ws[start + (i - |ls|)] == SetUniform(program, LightSlot(i, Enabled), UBool(false))
  {
    DisabledWritesAt(program, |ls|, MaxLights);
  }

  lemma {:induction false} ActiveWritesPrefix(program: ProgramId, ls: seq<Light>, m: nat, n: nat)
    requires m <= n <= |ls|
    ensures ActiveWrites(program, ls, m) <= ActiveWrites(program, ls, n)
    decreases n
  {
    if m < n {
      ActiveWritesPrefix(program, ls, m, n - 1);
      PrefixAppend(ActiveWrites(program, ls, n - 1), LightWrites(program, ls[n - 1], n - 1));
      PrefixTrans(ActiveWrites(program, ls, m), ActiveWrites(program, ls, n - 1), ActiveWrites(program, ls, n));
    }
  }

  /** Light i's writes sit, unchanged, right after the count and the writes of
      lights 0 .. i-1. */
  lemma UploadSlotInOrder(program: ProgramId, ls: seq<Light>, i: nat)
    requires i < |ls|
    ensures var ws := UploadTrace(program, ls);
            var start := 1 + |ActiveWrites(program, ls, i)|;
            var lw := LightWrites(program, ls[i], i);
            start + |lw| <= |ws| && ws[start..start + |lw|] == lw
  {
    var head := [SetUniform(program, Global("numLights"), UInt(|ls|))];
    var before := ActiveWrites(program, ls, i);
    var lw := LightWrites(program, ls[i], i);
    var all := ActiveWrites(program, ls, |ls|);
    ActiveWritesPrefix(program, ls, i + 1, |ls|);
    PrefixSplit(before + lw, all);
    var rest := all[|before + lw|..] + DisabledWrites(program, |ls|, MaxLights);
    calc {
      UploadTrace(program, ls);
      head + all + DisabledWrites(program, |ls|, MaxLights);
      { AppendAssoc(head, all, DisabledWrites(program, |ls|, MaxLights)); }
      head + (before + lw + all[|before + lw|..] + DisabledWrites(program, |ls|, MaxLights));
      { AppendAssoc(before + lw, all[|before + lw|..], DisabledWrites(program, |ls|, MaxLights)); }
      head + (before + lw + rest);
      { AppendAssoc(head, before + lw, rest); AppendAssoc(head, before, lw); }
      head + before + lw + rest;
    }
    MiddleSlice(head + before, lw, rest);
  }

  /** Every command is a uniform write to `program`. */
  predicate WritesTo(cs: seq<Command>, program: ProgramId) {
    forall i :: 0 <= i < |cs| ==> cs[i].SetUniform? && cs[i].program == program
  }

  lemma LightWritesTo(program: ProgramId, l: Light, index: nat)
    ensures WritesTo(LightWrites(program, l, index), program)
  {
    match l.kind
    case Directional(_) =>
    case Point(_) =>
    case Spot(_, _, _, _) =>
  }

  lemma WritesToAppend(a: seq<Command>, b: seq<Command>, program: ProgramId)
    requires WritesTo(a, program) && WritesTo(b, program)
    ensures WritesTo(a + b, program)
  {
    assert forall i :: |a| <= i < |a| + |b| ==> (a + b)[i] == b[i - |a|];
  }

  lemma {:induction false} ActiveWritesTo(program: ProgramId, ls: seq<Light>, n: nat)
    requires n <= |ls|
    ensures WritesTo(ActiveWrites(program, ls, n), program)
  {
    if n > 0 {
      ActiveWritesTo(program, ls, n - 1);
      LightWritesTo(program, ls[n - 1], n - 1);
      WritesToAppend(ActiveWrites(program, ls, n - 1), LightWrites(program, ls[n - 1], n - 1), program);
    }
  }

  lemma {:induction false} DisabledWritesTo(program: ProgramId, lo: nat, hi: nat)
    ensures WritesTo(DisabledWrites(program, lo, hi), program)
  {
    if lo < hi {
      DisabledWritesTo(program, lo, hi - 1);
    }
  }

  /** sendLightsToShader only writes uniforms, and only to the shader it is given. */
  lemma UploadWritesOnlyToShader(program: ProgramId, ls: seq<Light>)
    ensures WritesTo(UploadTrace(program, ls), program)
  {
    var head := [SetUniform(program, Global("numLights"), UInt(|ls|))];
    ActiveWritesTo(program, ls, |ls|);
    DisabledWritesTo(program, |ls|, MaxLights);
    WritesToAppend(head, ActiveWrites(program, ls, |ls|), program);
    WritesToAppend(head + ActiveWrites(program, ls, |ls|), DisabledWrites(program, |ls|, MaxLights), program);
  }

  // ---------------------------------------------------------------------------
  // The registry

  /** The registry after one add*: appended below the cap, unchanged at it. */
  function Added(ls: seq<Light>, l: Light): seq<Light> {
    if |ls| < MaxLights then ls + [l] else ls
  }

  /** The registry after a sequence of add* calls, in order. */
  function AddedAll(ls: seq<Light>, news: seq<Light>): seq<Light>
    decreases |news|
  {
    if news == [] then ls else AddedAll(Added(ls, news[0]), news[1..])
  }

  /** One add: below the cap the light lands at index old-size after the old
      lights; at the cap nothing changes. */
  lemma AddAppendsBelowCap(ls: seq<Light>, l: Light)
    ensures |ls| < MaxLights ==> Added(ls, l)[..|ls|] == ls && |Added(ls, l)| == |ls| + 1 && Added(ls, l)[|ls|] == l
    ensures |ls| >= MaxLights ==> Added(ls, l) == ls
  {
  }

  /** Any sequence of adds keeps the old lights in order as a prefix, and ends
      with min(old + added, MAX_LIGHTS) lights; never more than the cap. */
  lemma {:induction false} AddedAllBounded(ls: seq<Light>, news: seq<Light>)
    requires |ls| <= MaxLights
    ensures ls <= AddedAll(ls, news)
    ensures |AddedAll(ls, news)| == if |ls| + |news| <= MaxLights then |ls| + |news| else MaxLights
    decreases |news|
  {
    if news != [] {
      var next := Added(ls, news[0]);
      AddedAllBounded(next, news[1..]);
    }
  }

  /** LightManager: the ordered lights; slot i of the shader is lights[i]. */
  class LightManager {
    var lights: seq<Light>

    ghost predicate Valid()
      reads this
    {
      |lights| <= MaxLights
    }

    constructor ()
      ensures Valid() && lights == []
    {
      lights := [];
    }

    method AddDirectionalLight(light: Light)
      requires Valid() && light.Type() == DIRECTIONAL
      modifies this
      ensures Valid() && lights == Added(old(lights), light)
    {
      if |lights| < MaxLights {
        lights := lights + [light];
      }
    }

    method AddPointLight(light: Light)
      requires Valid() && light.Type() == POINT
      modifies this
      ensures Valid() && lights == Added(old(lights), light)
    {
      if |lights| < MaxLights {
        lights := lights + [light];
      }
    }

    method AddSpotLight(light: Light)
      requires Valid() && light.Type() == SPOT
      modifies this
      ensures Valid() && lights == Added(old(lights), light)
    {
      if |lights| < MaxLights {
        lights := lights + [light];
      }
    }

    method Clear()
      modifies this
      ensures Valid() && lights == [] && GetLightCount() == 0
    {
      lights := [];
    }

    function GetLightCount(): (n: nat)
      reads this
      ensures Valid() ==> n <= MaxLights
      ensures n == 0 <==> lights == []
    {
      |lights|
    }

    /** sendLightsToShader: the count, each light's override in slot order,
        then `.enabled = false` for each unused slot. */
    method SendLightsToShader(shader: Shader, gl: Gl)
      modifies gl
      ensures gl.log == old(gl.log) + UploadTrace(shader.program, lights)
      ensures gl.lastName == old(gl.lastName)
    {
      shader.SetUniform(gl, Global("numLights"), UInt(|lights|));
      SendEachLight(shader, gl);
      DisableUnusedSlots(shader, gl);
    }

    /** The first loop of sendLightsToShader. */
    method SendEachLight(shader: Shader, gl: Gl)
      modifies gl
      ensures gl.log == old(gl.log) + ActiveWrites(shader.program, lights, |lights|)
      ensures gl.lastName == old(gl.lastName)
    {
      var p, ls := shader.program, lights;
      var i := 0;
      while i < |ls|
        invariant i <= |ls|
        invariant gl.log == old(gl.log) + ActiveWrites(p, ls, i)
        invariant gl.lastName == old(gl.lastName)
      {
        SendToShader(ls[i], shader, gl, i);
        AppendAssoc(old(gl.log), ActiveWrites(p, ls, i), LightWrites(p, ls[i], i));
        i := i + 1;
      }
    }

    /** The second loop of sendLightsToShader. */
    method DisableUnusedSlots(shader: Shader, gl: Gl)
      modifies gl
      ensures gl.log == old(gl.log) + DisabledWrites(shader.program, |lights|, MaxLights)
      ensures gl.lastName == old(gl.lastName)
    {
      var p, n := shader.program, |lights|;
      var j := n;
      while j < MaxLights
        invariant n <= j && (j <= MaxLights || j == n)
        invariant gl.log == old(gl.log) + DisabledWrites(p, n, j)
        invariant gl.lastName == old(gl.lastName)
      {
        shader.SetUniform(gl, LightSlot(j, Enabled), UBool(false));
        AppendAssoc(old(gl.log), DisabledWrites(p, n, j), [SetUniform(p, LightSlot(j, Enabled), UBool(false))]);
        j := j + 1;
      }
    }
  }
}
