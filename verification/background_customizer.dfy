/**
 * The background customizer of components/background-customizer.tsx: a
 * draft copy of the store's background settings that the panel edits (type
 * toggle, colours, opacities, gradient kind and direction, adding, removing
 * and editing gradient stops), previews, and finally applies to the store.
 * The stop edits are written once as functions on stop sequences; the class
 * `Customizer` holds the draft and applies them.
 */
module BackgroundCustomizer {
  import opened ChatTypes
  import opened BackgroundStyle
  import opened UseChat

  /** The stop `addGradientColor` appends: opaque white at 100%. */
  const DEFAULT_STOP: ColorStop := ColorStop("#ffffff", Tenths(10), 100)

  /** `addGradientColor`: the default stop goes at the end; the others stay as they were. */
  function WithStopAdded(stops: seq<ColorStop>): (r: seq<ColorStop>)
    ensures |r| == |stops| + 1
    ensures r[..|stops|] == stops && r[|stops|] == DEFAULT_STOP
  {
    stops + [DEFAULT_STOP]
  }

  /** `stops.filter((_, i) => i !== index)`: drops the stop at `index`, if there is one. */
  function WithoutStop(stops: seq<ColorStop>, index: int): (r: seq<ColorStop>)
    ensures |r| == if 0 <= index < |stops| then |stops| - 1 else |stops|
    ensures forall j :: 0 <= j < |r| ==> r[j] == stops[if 0 <= index <= j then j + 1 else j]
  {
    if 0 <= index < |stops| then stops[..index] + stops[index + 1..] else stops
  }

  /** `removeGradientColor(index)`: removes a stop only while more than two remain. */
  function RemoveStop(stops: seq<ColorStop>, index: int): (r: seq<ColorStop>)
    ensures |stops| <= 2 ==> r == stops
    ensures |stops| > 2 ==> r == WithoutStop(stops, index)
    ensures |stops| >= 2 ==> |r| >= 2
  {
    if |stops| > 2 then WithoutStop(stops, index) else stops
  }

  /** Removing the stop just added gives back the original stops, once there are at least two. */
  lemma RemoveUndoesAdd(stops: seq<ColorStop>)
    requires |stops| >= 2
    ensures RemoveStop(WithStopAdded(stops), |stops|) == stops
  {
    var added := WithStopAdded(stops);
    assert added[..|stops|] == stops;
  }

  /** The field an edit of one stop writes, with its new value. */
  datatype StopEdit = SetColor(color: string) | SetOpacity(opacity: Opacity) | SetPosition(position: int)

  /** `{ ...stop, [field]: value }`. */
  function ApplyEdit(stop: ColorStop, edit: StopEdit): (r: ColorStop)
    ensures edit.SetColor? ==> r == stop.(color := edit.color)
    ensures edit.SetOpacity? ==> r == stop.(opacity := edit.opacity)
    ensures edit.SetPosition? ==> r == stop.(position := edit.position)
  {
    match edit
    case SetColor(c) => stop.(color := c)
    case SetOpacity(o) => stop.(opacity := o)
    case SetPosition(p) => stop.(position := p)
  }

  /** `updateGradientColor(index, field, value)`: only the named field of stop `index` changes. */
  function UpdateStop(stops: seq<ColorStop>, index: int, edit: StopEdit): (r: seq<ColorStop>)
    ensures |r| == |stops|
    ensures forall j :: 0 <= j < |stops| && j != index ==> r[j] == stops[j]
    ensures 0 <= index < |stops| ==> r[index] == ApplyEdit(stops[index], edit)
  {
    seq(|stops|, j requires 0 <= j < |stops| => if j == index then ApplyEdit(stops[j], edit) else stops[j])
  }

  /** Writing back a field's current value changes nothing. */
  lemma UpdateWithCurrentValue(stops: seq<ColorStop>, index: int)
    requires 0 <= index < |stops|
    ensures UpdateStop(stops, index, SetColor(stops[index].color)) == stops
    ensures UpdateStop(stops, index, SetOpacity(stops[index].opacity)) == stops
    ensures UpdateStop(stops, index, SetPosition(stops[index].position)) == stops
  {
  }

  /** Edits of two different stops do not interfere: they may be applied in either order. */
  lemma UpdatesCommute(stops: seq<ColorStop>, i: int, e: StopEdit, j: int, f: StopEdit)
    requires i != j
    ensures UpdateStop(UpdateStop(stops, i, e), j, f) == UpdateStop(UpdateStop(stops, j, f), i, e)
  {
  }

  /**
   * How the preview re-targets the row handlers. The rows of the stop list
   * are rendered, with their indices, before the preview sorts the draft's
   * stops in place. After the initial first stop is moved to 60%, the rows
   * still show it first, but the draft now holds it second; moving that
   * first row again to 70% then edits the 50% stop instead, and the stop the
   * user was dragging stays at 60%.
   */
  lemma InPlaceSortRetargetsRowEdit()
    ensures var rows := UpdateStop(InitialBackground().gradientColors, 0, SetPosition(60));
      var after := UpdateStop(SortStops(rows), 0, SetPosition(70));
      && rows[0] == ColorStop("#16a34a", Tenths(9), 60)
      && after[0] == ColorStop("#22c55e", Tenths(8), 70)
      && after[1] == ColorStop("#16a34a", Tenths(9), 60)
      && after != UpdateStop(rows, 0, SetPosition(70))
  {
    var a, b, c := ColorStop("#16a34a", Tenths(9), 60), ColorStop("#22c55e", Tenths(8), 50), ColorStop("#15803d", Tenths(9), 100);
    var rows := UpdateStop(InitialBackground().gradientColors, 0, SetPosition(60));
    assert rows == [a, b, c];
    SortHeadBetween(b, a, c);
    assert UpdateStop(rows, 0, SetPosition(70))[0].color == a.color;
  }

  /**
   * The draft of the background panel. It is copied from the store once,
   * when the panel mounts, and reaches the store again only through
   * `ApplySettings`.
   */
  class Customizer {
    const store: ChatStore
    var isOpen: bool
    var settings: BackgroundSettings

    constructor (store: ChatStore)
      ensures this.store == store && !isOpen && settings == store.state.background
    {
      this.store := store;
      isOpen := false;
      settings := store.state.background;
    }

    method Open()
      modifies this
      ensures isOpen && settings == old(settings)
    {
      isOpen := true;
    }

    method Close()
      modifies this
      ensures !isOpen && settings == old(settings)
    {
      isOpen := false;
    }

    /** The Solid / Gradient toggle: the fields of the other kind are kept. */
    method SetKind(kind: BackgroundType)
      modifies this
      ensures settings == old(settings).(kind := kind) && isOpen == old(isOpen)
    {
      settings := settings.(kind := kind);
    }

    method SetSolidColor(color: string)
      modifies this
      ensures settings == old(settings).(solidColor := color) && isOpen == old(isOpen)
    {
      settings := settings.(solidColor := color);
    }

    method SetSolidOpacity(opacity: Opacity)
      modifies this
      ensures settings == old(settings).(solidOpacity := opacity) && isOpen == old(isOpen)
    {
      settings := settings.(solidOpacity := opacity);
    }

    method SetGradientType(gradientType: GradientType)
      modifies this
      ensures settings == old(settings).(gradientType := gradientType) && isOpen == old(isOpen)
    {
      settings := settings.(gradientType := gradientType);
    }

    method SetGradientDirection(direction: string)
      modifies this
      ensures settings == old(settings).(gradientDirection := direction) && isOpen == old(isOpen)
    {
      settings := settings.(gradientDirection := direction);
    }

    method AddGradientColor()
      modifies this
      ensures settings == old(settings).(gradientColors := WithStopAdded(old(settings).gradientColors))
      ensures isOpen == old(isOpen)
    {
      settings := settings.(gradientColors := WithStopAdded(settings.gradientColors));
    }

    method RemoveGradientColor(index: int)
      modifies this
      ensures settings == old(settings).(gradientColors := RemoveStop(old(settings).gradientColors, index))
      ensures |old(settings).gradientColors| >= 2 ==> |settings.gradientColors| >= 2
      ensures isOpen == old(isOpen)
    {
      settings := settings.(gradientColors := RemoveStop(settings.gradientColors, index));
    }

    method UpdateGradientColor(index: int, edit: StopEdit)
      modifies this
      ensures settings == old(settings).(gradientColors := UpdateStop(old(settings).gradientColors, index, edit))
      ensures isOpen == old(isOpen)
    {
      settings := settings.(gradientColors := UpdateStop(settings.gradientColors, index, edit));
    }

    /** Hands the draft to the store as it is and closes the panel. */
    method ApplySettings()
      modifies this, store
      ensures store.state == WithBackground(old(store.state), old(settings))
      ensures !isOpen && settings == old(settings)
    {
      store.SetBackgroundSettings(settings);
      isOpen := false;
    }

    /**
     * The preview as the panel renders it: `generateBackgroundStyle(settings)`,
     * which sorts the draft's stop array in place on the way.
     */
    method Preview() returns (css: string)
      requires Renderable(settings)
      modifies this
      ensures css == GenerateBackgroundStyle(old(settings))
      ensures settings == SortedInPlace(old(settings)) && isOpen == old(isOpen)
      ensures Renderable(settings) && GenerateBackgroundStyle(settings) == css
    {
      css := GenerateBackgroundStyle(settings);
      StyleIdempotent(settings);
      settings := SortedInPlace(settings);
    }

    /**
     * The preview computed from a sorted copy of the stops: the same style,
     * while the draft keeps the order its rows were rendered in, so the
     * index of every row goes on naming the stop that row shows.
     */
    method PreviewSortingCopy() returns (css: string)
      requires Renderable(settings)
      ensures css == GenerateBackgroundStyle(settings)
    {
      var sorted := SortedInPlace(settings);
      StyleIdempotent(settings);
      css := GenerateBackgroundStyle(sorted);
    }
  }
}
