/**
 * The logic of the Switch widget: the migration of its legacy style record, the effects of
 * a toggle, the label-style tokens it offers, the property-panel sections each editor mode
 * shows, and what it exposes to scripts.
 */
module SwitchComp {
  import opened JsRuntime

  /**
   * The assumed value of the shared `changeEvent` option: the name the toggle fires
   * (the option's own module is not part of this model).
   */
  const ChangeEvent: string := "change"

  /**
   * The values of `EventOptions`: the shared change event, then "true" (switched on)
   * and "false" (switched off).
   */
  const EventOptions: seq<string> := [ChangeEvent, "true", "false"]

  /* ---------- Legacy style migration ---------- */

  /**
   * `fixOldData`: a style record saved before the key `unChecked` was renamed is rebuilt
   * with the current keys; anything else passes through as it is.
   */
  function FixOldData(oldData: JsValue): (r: JsValue)
    ensures !HasOwnProperty(r, "unChecked")
    ensures !HasOwnProperty(oldData, "unChecked") ==> r == oldData
    ensures HasOwnProperty(oldData, "unChecked") ==>
      && r.Obj?
      && r.props.Keys == {"label", "handle", "unchecked", "checked"}
      && r.props["unchecked"] == oldData.props["unChecked"]
      && r.props["label"] == Get(oldData, "label")
      && r.props["handle"] == Get(oldData, "handle")
      && r.props["checked"] == Get(oldData, "checked")
  {
    if Truthy(oldData) && HasOwnProperty(oldData, "unChecked") then
      Obj(map[
        "label" := Get(oldData, "label"),
        "handle" := Get(oldData, "handle"),
        "unchecked" := Get(oldData, "unChecked"),
        "checked" := Get(oldData, "checked")
      ])
    else
      oldData
  }

  /** Migrating a migrated record changes nothing more. */
  lemma FixOldDataIdempotent(data: JsValue)
    ensures FixOldData(FixOldData(data)) == FixOldData(data)
  {
  }

  /** A legacy record with all four colours comes out with the same colours under the new keys. */
  lemma FixOldDataLegacyRecord(unchecked: string, checked: string, handle: string, labelColour: string)
    ensures FixOldData(Obj(map[
        "unChecked" := Str(unchecked), "checked" := Str(checked),
        "handle" := Str(handle), "label" := Str(labelColour)]))
      == Obj(map[
        "unchecked" := Str(unchecked), "checked" := Str(checked),
        "handle" := Str(handle), "label" := Str(labelColour)])
  {
  }

  /* ---------- Toggling ---------- */

  /** What a toggle does, in order: update the value control, or fire an event. */
  datatype SwitchEffect = ValueChange(checked: bool) | Fire(event: string)

  /** Every event in `effects` is one of the declared `EventOptions`. */
  ghost predicate FiresDeclaredEvents(effects: seq<SwitchEffect>)
  {
    forall i :: 0 <= i < |effects| && effects[i].Fire? ==> effects[i].event in EventOptions
  }

  /**
   * The effects of one toggle to `checked`: the value is updated first, then "change"
   * fires, then exactly one of "true" and "false", the one that names the new state.
   */
  function ToggleEffects(checked: bool): (r: seq<SwitchEffect>)
    ensures |r| == 3 && r[0] == ValueChange(checked) && r[1] == Fire(ChangeEvent)
    ensures Fire("true") in r <==> checked
    ensures Fire("false") in r <==> !checked
    ensures FiresDeclaredEvents(r)
  {
    [ValueChange(checked), Fire(ChangeEvent), Fire(if checked then "true" else "false")]
  }

  /** A placed Switch: the value control's state and every effect of its toggles so far. */
  class SwitchInstance {
    var value: bool
    var effects: seq<SwitchEffect>

    ghost predicate Valid()
      reads this
    {
      FiresDeclaredEvents(effects)
    }

    constructor (initial: bool)
      ensures Valid() && value == initial && effects == []
    {
      value := initial;
      effects := [];
    }

    /** The `onChange` handler of the rendered switch. */
    method OnChange(checked: bool)
      requires Valid()
      modifies this
      ensures Valid()
      ensures value == checked
      ensures effects == old(effects) + ToggleEffects(checked)
    {
      value := checked;
      effects := effects + [ValueChange(checked)];
      effects := effects + [Fire(ChangeEvent)];
      effects := effects + [Fire(if checked then "true" else "false")];
    }
  }

  /* ---------- Label style tokens ---------- */

  /** One entry of a style token list: its name and its other settings. */
  datatype StyleConfig = StyleConfig(name: string, settings: Props)

  /** The label-style tokens a Switch does not offer. */
  const ExcludedLabelStyles: seq<string> := ["accent", "validate"]

  /** The `labelStyle` token list: `labelStyle` without the excluded names, order kept. */
  function SwitchLabelStyle(labelStyle: seq<StyleConfig>): (r: seq<StyleConfig>)
    ensures |r| <= |labelStyle|
    ensures forall t :: t in r <==> t in labelStyle && t.name !in ExcludedLabelStyles
  {
    if labelStyle == [] then []
    else
      var rest := SwitchLabelStyle(labelStyle[1..]);
      if labelStyle[0].name in ExcludedLabelStyles then rest else [labelStyle[0]] + rest
  }

  /** Filtering commutes with concatenation, so the kept tokens keep their relative order. */
  lemma {:induction false} SwitchLabelStyleAppend(a: seq<StyleConfig>, b: seq<StyleConfig>)
    ensures SwitchLabelStyle(a + b) == SwitchLabelStyle(a) + SwitchLabelStyle(b)
  {
    if a == [] {
      assert a + b == b;
    } else {
      assert (a + b)[0] == a[0] && (a + b)[1..] == a[1..] + b;
      SwitchLabelStyleAppend(a[1..], b);
    }
  }

  /** A list without excluded names is offered unchanged. */
  lemma {:induction false} SwitchLabelStyleKeepsAllowed(labelStyle: seq<StyleConfig>)
    requires forall i :: 0 <= i < |labelStyle| ==> labelStyle[i].name !in ExcludedLabelStyles
    ensures SwitchLabelStyle(labelStyle) == labelStyle
  {
    if labelStyle != [] {
      SwitchLabelStyleKeepsAllowed(labelStyle[1..]);
    }
  }

  /* ---------- Property panel ---------- */

  /** The editor's mode: editing logic, editing layout, or both. */
  datatype EditorMode = Logic | Layout | Both

  /**
   * The property-panel sections, in panel order. `Interaction` holds the event handlers
   * and the disabled and hidden settings; `Label` is the label control's own panel.
   */
  datatype Panel =
    | Basic | FormData | Interaction | Label
    | Style | LabelStyle | InputFieldStyle | AnimationStyle

  /** Every section, in panel order. */
  const AllPanels: seq<Panel> :=
    [Basic, FormData, Interaction, Label, Style, LabelStyle, InputFieldStyle, AnimationStyle]

  /** The sections that only the layout modes show. */
  const LayoutPanels: set<Panel> := {Label, Style, LabelStyle, InputFieldStyle, AnimationStyle}

  /** The sections shown in `mode`, in panel order. */
  function PropertyPanels(mode: EditorMode): (r: seq<Panel>)
    ensures |r| >= 2 && r[0] == Basic && r[1] == FormData
    ensures Interaction in r <==> mode == Logic || mode == Both
    ensures forall p :: p in LayoutPanels ==> (p in r <==> mode == Layout || mode == Both)
    ensures forall p :: p in r ==> p in AllPanels
  {
    var interaction := mode == Logic || mode == Both;
    var layout := mode == Layout || mode == Both;
    [Basic, FormData]
      + (if interaction then [Interaction] else [])
      + (if layout then [Label] else [])
      + (if layout then [Style, LabelStyle, InputFieldStyle, AnimationStyle] else [])
  }

  /** In logic mode: the basic, form-data and interaction sections, in that order. */
  lemma LogicModePanels()
    ensures PropertyPanels(Logic) == [Basic, FormData, Interaction]
  {
  }

  /** In layout mode: every section but interaction, in panel order. */
  lemma LayoutModePanels()
    ensures PropertyPanels(Layout) == [Basic, FormData, Label, Style, LabelStyle, InputFieldStyle, AnimationStyle]
  {
  }

  /** With both modes on, every section is shown, in panel order. */
  lemma BothModesShowAllPanels()
    ensures PropertyPanels(Both) == AllPanels
  {
  }

  /* ---------- Exposure ---------- */

  /** The instance methods a Switch exposes to scripts. */
  datatype RefMethod = FocusWithOptions | Blur | Click

  /** `refMethods([focusWithOptions, blurMethod, clickMethod])`. */
  const ExposedMethods: seq<RefMethod> := [FocusWithOptions, Blur, Click]

  /** No name occurs twice. */
  ghost predicate Distinct(names: seq<string>)
  {
    forall i, j :: 0 <= i < j < |names| ==> names[i] != names[j]
  }

  /** The exposed state names: "value" first, then the common ones. */
  function ExposedNames(common: seq<string>): (r: seq<string>)
    ensures |r| == |common| + 1 && r[0] == "value" && r[1..] == common
  {
    ["value"] + common
  }

  /** The exposed names are unique exactly when the common ones are and none is "value". */
  lemma ExposedNamesDistinct(common: seq<string>)
    ensures Distinct(ExposedNames(common)) <==> "value" !in common && Distinct(common)
  {
  }
}
