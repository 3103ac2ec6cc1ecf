/** The control panel: per frame, the shadow checkbox, the add and clear
    buttons, one collapsible panel per light, and the rendering checkboxes.
    Whatever the user does with a widget is an input of the frame; what the
    panel guarantees is what it does with those values afterwards. */
module Gui {
  import opened Glm
  import opened Gpu
  import opened Lights

  /** The values a light's widgets hold once the user is done with them. A
      panel only reads the fields its light type shows; a closed tree node
      (attenuation, spot parameters) is a frame in which those values equal
      the light's current ones. */
  datatype Edits = Edits(enabled: bool, position: Vec3, direction: Vec3, color: Vec3, intensity: real,
                         constant: real, linear: real, quadratic: real,
                         cutOff: real, outerCutOff: real)

  /** A light's collapsing header: closed, or open with the edited values. */
  datatype Panel = Collapsed | Expanded(edits: Edits)

  /** One frame of user input to the main window. */
  datatype FrameInput = FrameInput(
    closeClicked: bool,
    shadowsChecked: bool,
    addDirectional: bool, addPoint: bool, addSpot: bool, clearAll: bool,
    panels: seq<Panel>,
    wireframeChecked: bool,
    demoChecked: bool)

  /** The panel of light i; lights past the end of the input keep their header closed. */
  function PanelAt(panels: seq<Panel>, i: nat): Panel {
    if i < |panels| then panels[i] else Collapsed
  }

  /** showDirectionalLightControls: the edits, then the direction is renormalised. */
  function DirectionalControls(norm: Normalizer, l: Light, p: Panel): Light
    requires l.Type() == DIRECTIONAL
  {
    match p
    case Collapsed => l
    case Expanded(e) =>
      l.(enabled := e.enabled, kind := Directional(norm(e.direction)), color := e.color, intensity := e.intensity)
  }

  /** showPointLightControls: the edits, with no clean-up afterwards. */
  function PointControls(l: Light, p: Panel): Light
    requires l.Type() == POINT
  {
    match p
    case Collapsed => l
    case Expanded(e) =>
      l.(enabled := e.enabled, kind := Point(e.position), color := e.color, intensity := e.intensity,
         constant := e.constant, linear := e.linear, quadratic := e.quadratic)
  }

  /** The spot clean-up: the outer angle is raised to the inner one when it is smaller. */
  function RaiseOuter(cutOff: real, outerCutOff: real): real {
    if outerCutOff < cutOff then cutOff else outerCutOff
  }

  /** showSpotLightControls: the edits, then the direction is renormalised and
      the outer angle is raised to the inner one if it is smaller. */
  function SpotControls(norm: Normalizer, l: Light, p: Panel): Light
    requires l.Type() == SPOT
  {
    match p
    case Collapsed => l
    case Expanded(e) =>
      l.(enabled := e.enabled,
         kind := Spot(e.position, norm(e.direction), e.cutOff, RaiseOuter(e.cutOff, e.outerCutOff)),
         color := e.color, intensity := e.intensity,
         constant := e.constant, linear := e.linear, quadratic := e.quadratic)
  }

  /** The per-light dispatch of showMainWindow: the panel is chosen by type tag. */
  function LightControls(norm: Normalizer, l: Light, p: Panel): Light {
    match l.Type()
    case DIRECTIONAL => DirectionalControls(norm, l, p)
    case POINT => PointControls(l, p)
    case SPOT => SpotControls(norm, l, p)
  }

  /** Every light after its panel, in slot order. */
  function EditAll(norm: Normalizer, ls: seq<Light>, panels: seq<Panel>): seq<Light> {
    seq(|ls|, i requires 0 <= i < |ls| => LightControls(norm, ls[i], PanelAt(panels, i)))
  }

  /** The lights the Add buttons create. */
  const AddedPointPosition: Vec3 := Vec3(0.0, 3.0, 0.0)
  const AddedPointColor: Vec3 := Vec3(0.8, 0.8, 1.0)
  const AddedSpotPosition: Vec3 := Vec3(0.0, 5.0, 0.0)
  const AddedSpotColor: Vec3 := Vec3(1.0, 0.8, 0.6)

  function ButtonLights(norm: Normalizer): (ls: seq<Light>)
    ensures |ls| == 3
    ensures ls[0] == NewDirectionalLight(norm, DefaultDirectionalDirection, Vec3(1.0, 1.0, 0.8), 1.0)
    ensures ls[1] == NewPointLight(AddedPointPosition, AddedPointColor, 1.0)
    ensures ls[2] == NewSpotLight(norm, AddedSpotPosition, DefaultSpotDirection, DefaultCutOff, DefaultOuterCutOff,
                                  AddedSpotColor, 1.0)
  {
    [NewDirectionalLight(norm, DefaultDirectionalDirection, Vec3(1.0, 1.0, 0.8), 1.0),
     NewPointLight(AddedPointPosition, AddedPointColor, 1.0),
     NewSpotLight(norm, AddedSpotPosition, DefaultSpotDirection, DefaultCutOff, DefaultOuterCutOff, AddedSpotColor, 1.0)]
  }

  /** The lights after the three Add buttons and Clear All, in that order. */
  function AfterButtons(norm: Normalizer, ls: seq<Light>, input: FrameInput): seq<Light> {
    var bs := ButtonLights(norm);
    var a := if input.addDirectional then Added(ls, bs[0]) else ls;
    var b := if input.addPoint then Added(a, bs[1]) else a;
    var c := if input.addSpot then Added(b, bs[2]) else b;
    if input.clearAll then [] else c
  }

  class GUI {
    var showDemoWindow: bool
    var showMainWindow: bool

    /** GUI(window): the main window shown, the demo window hidden. The ImGui
        context set-up is not modelled. */
    constructor ()
      ensures showMainWindow && !showDemoWindow
    {
      showDemoWindow := false;
      showMainWindow := true;
    }

    /** showMainWindow. A hidden window does nothing. Otherwise the checkbox
        sets the shadow flag, the buttons go through the manager, every light
        passes through its panel, and the rendering checkboxes are read; the
        wireframe flag only when there is one. */
    method ShowMainWindow(norm: Normalizer, input: FrameInput, shadowsEnabled: bool,
                          manager: LightManager, wireframe: Option<bool>)
      returns (shadows: bool, wire: Option<bool>)
      requires manager.Valid()
      modifies this, manager
      ensures manager.Valid()
      ensures !old(showMainWindow) ==>
                shadows == shadowsEnabled && wire == wireframe && manager.lights == old(manager.lights) &&
                showMainWindow == old(showMainWindow) && showDemoWindow == old(showDemoWindow)
      ensures old(showMainWindow) ==>
                shadows == input.shadowsChecked &&
                manager.lights == EditAll(norm, AfterButtons(norm, old(manager.lights), input), input.panels) &&
                wire == (if wireframe.Some? then Some(input.wireframeChecked) else None) &&
                showMainWindow == !input.closeClicked && showDemoWindow == input.demoChecked
    {
      if !showMainWindow {
        return shadowsEnabled, wireframe;
      }
      if input.closeClicked {
        showMainWindow := false;
      }
      shadows := input.shadowsChecked;

      PressButtons(norm, input, manager);
      EditLights(norm, input.panels, manager);
      wire := if wireframe.Some? then Some(input.wireframeChecked) else None;
      showDemoWindow := input.demoChecked;
    }

  }

  /** The Add buttons, in order, then Clear All. */
  method PressButtons(norm: Normalizer, input: FrameInput, manager: LightManager)
    requires manager.Valid()
    modifies manager
    ensures manager.Valid() && manager.lights == AfterButtons(norm, old(manager.lights), input)
  {
    var bs := ButtonLights(norm);
    if input.addDirectional {
      manager.AddDirectionalLight(bs[0]);
    }
    if input.addPoint {
      manager.AddPointLight(bs[1]);
    }
    if input.addSpot {
      manager.AddSpotLight(bs[2]);
    }
    if input.clearAll {
      manager.Clear();
    }
  }

  /** The per-light loop: each light, in slot order, through the panel of its type. */
  method EditLights(norm: Normalizer, panels: seq<Panel>, manager: LightManager)
    requires manager.Valid()
    modifies manager
    ensures manager.Valid() && manager.lights == EditAll(norm, old(manager.lights), panels)
  {
    ghost var before := manager.lights;
    var i := 0;
    while i < |manager.lights|
      invariant 0 <= i <= |manager.lights| == |before|
      invariant forall k :: 0 <= k < i ==> manager.lights[k] == LightControls(norm, before[k], PanelAt(panels, k))
      invariant forall k :: i <= k < |before| ==> manager.lights[k] == before[k]
    {
      manager.lights := manager.lights[i := LightControls(norm, manager.lights[i], PanelAt(panels, i))];
      i := i + 1;
    }
    assert manager.lights == EditAll(norm, before, panels);
  }


  /** A panel never changes a light's type, and a closed panel changes nothing. */
  lemma ControlsKeepType(norm: Normalizer, l: Light, p: Panel)
    ensures LightControls(norm, l, p).Type() == l.Type()
    ensures p.Collapsed? ==> LightControls(norm, l, p) == l
  {
  }

  /** After an open spot panel the direction is the normalised edit and the
      outer angle is at least the inner one: the edited outer angle when it
      already was, otherwise the inner angle. */
  lemma SpotAnglesOrdered(norm: Normalizer, l: Light, e: Edits)
    requires l.Type() == SPOT
    ensures var r := LightControls(norm, l, Expanded(e));
            r.kind.Spot? && r.kind.direction == norm(e.direction) && r.kind.cutOff == e.cutOff &&
            r.kind.outerCutOff >= r.kind.cutOff &&
            (e.outerCutOff >= e.cutOff ==> r.kind.outerCutOff == e.outerCutOff) &&
            (e.outerCutOff < e.cutOff ==> r.kind.outerCutOff == e.cutOff)
  {
  }

  /** After an open directional panel the direction is the normalised edit;
      the attenuation, which the panel does not show, is unchanged. */
  lemma DirectionalRenormalised(norm: Normalizer, l: Light, e: Edits)
    requires l.Type() == DIRECTIONAL
    ensures var r := LightControls(norm, l, Expanded(e));
            r.kind == Directional(norm(e.direction)) &&
            r.constant == l.constant && r.linear == l.linear && r.quadratic == l.quadratic
  {
  }

  /** Passing all lights through their panels keeps the list's length and each
      slot's type, leaves closed lights as they were, and leaves every spot
      light whose panel was open with its outer angle at least its inner one. */
  lemma EditAllKeepsSlots(norm: Normalizer, ls: seq<Light>, panels: seq<Panel>)
    ensures |EditAll(norm, ls, panels)| == |ls|
    ensures forall i :: 0 <= i < |ls| ==> EditAll(norm, ls, panels)[i].Type() == ls[i].Type()
    ensures forall i :: 0 <= i < |ls| && PanelAt(panels, i).Collapsed? ==> EditAll(norm, ls, panels)[i] == ls[i]
    ensures forall i :: 0 <= i < |ls| && ls[i].Type() == SPOT && PanelAt(panels, i).Expanded? ==>
              EditAll(norm, ls, panels)[i].kind.outerCutOff >= EditAll(norm, ls, panels)[i].kind.cutOff
  {
    forall i | 0 <= i < |ls|
      ensures EditAll(norm, ls, panels)[i].Type() == ls[i].Type()
    {
      ControlsKeepType(norm, ls[i], PanelAt(panels, i));
    }
    forall i | 0 <= i < |ls| && ls[i].Type() == SPOT && PanelAt(panels, i).Expanded?
      ensures EditAll(norm, ls, panels)[i].kind.outerCutOff >= EditAll(norm, ls, panels)[i].kind.cutOff
    {
      SpotAnglesOrdered(norm, ls[i], PanelAt(panels, i).edits);
    }
  }

  /** The buttons respect the manager's cap: whatever was pressed, the list
      keeps at most 8 lights, the old lights stay first in order, and Clear All
      empties it. */
  lemma ButtonsKeepCap(norm: Normalizer, ls: seq<Light>, input: FrameInput)
    requires |ls| <= MaxLights
    ensures |AfterButtons(norm, ls, input)| <= MaxLights
    ensures input.clearAll ==> AfterButtons(norm, ls, input) == []
    ensures !input.clearAll ==> ls <= AfterButtons(norm, ls, input)
  {
    var bs := ButtonLights(norm);
    var a := if input.addDirectional then Added(ls, bs[0]) else ls;
    var b := if input.addPoint then Added(a, bs[1]) else a;
    AddAppendsBelowCap(ls, bs[0]);
    AddAppendsBelowCap(a, bs[1]);
    AddAppendsBelowCap(b, bs[2]);
  }
}
