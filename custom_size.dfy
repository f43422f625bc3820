/**
 * The custom-size sheet (`CustomSizeView`): validates the typed width, height
 * and dpi, converts inches to millimetres and builds the custom preset.
 * Foundation's number parsing is a parameter.
 */
module CustomSize {
  import opened Wrappers
  import opened PhotoPresets

  datatype Unit = Millimeters | Inches

  /** `replacingOccurrences(of: ",", with: ".")`, so that a decimal comma parses. */
  function ReplaceCommas(s: string): (r: string)
    ensures |r| == |s| && ',' !in r
    ensures forall i :: 0 <= i < |s| ==> r[i] == (if s[i] == ',' then '.' else s[i])
  {
    if s == [] then [] else [if s[0] == ',' then '.' else s[0]] + ReplaceCommas(s[1..])
  }

  const MillimetresPerInch: real := 25.4

  function ToMillimetres(value: real, unit: Unit): (mm: real)
    ensures unit == Millimeters ==> mm == value
    ensures unit == Inches ==> mm / MillimetresPerInch == value
  {
    match unit
    case Millimeters => value
    case Inches => value * MillimetresPerInch
  }

  /** The preset a valid submission produces. */
  function CustomPreset(widthMM: real, heightMM: real, dpi: int): PhotoPreset {
    PhotoPreset("custom", "Custom", "Custom Size", Passport, widthMM, heightMM, dpi, None)
  }

  /**
   * The submission's outcome: a preset when width and height parse as
   * positive numbers (after replacing commas) and dpi as a positive integer,
   * nothing otherwise.
   */
  function Validate(width: string, height: string, unit: Unit, dpi: string,
                    parseDouble: string -> Option<real>, parseInt: string -> Option<int>): (r: Option<PhotoPreset>)
    ensures var w, h, d := parseDouble(ReplaceCommas(width)), parseDouble(ReplaceCommas(height)), parseInt(dpi);
      r != None <==> (w != None && h != None && d != None && d.value > 0 && w.value > 0.0 && h.value > 0.0)
    ensures r != None ==>
      var w, h, d := parseDouble(ReplaceCommas(width)).value, parseDouble(ReplaceCommas(height)).value, parseInt(dpi).value;
      && r.value.id == "custom" && r.value.country == "Custom" && r.value.labelText == "Custom Size"
      && r.value.docType == Passport && r.value.notes == None && r.value.dpi == d
      && r.value.widthMM == ToMillimetres(w, unit) && r.value.heightMM == ToMillimetres(h, unit)
      && r.value.widthMM > 0.0 && r.value.heightMM > 0.0 && r.value.dpi > 0
  {
    var w := parseDouble(ReplaceCommas(width));
    var h := parseDouble(ReplaceCommas(height));
    var d := parseInt(dpi);
    if w.Some? && h.Some? && d.Some? && d.value > 0 && w.value > 0.0 && h.value > 0.0 then
      Some(CustomPreset(ToMillimetres(w.value, unit), ToMillimetres(h.value, unit), d.value))
    else None
  }

  /** The unit does not change the proportions: the custom preset's aspect ratio is width over height as typed. */
  lemma CustomAspectRatio(w: real, h: real, unit: Unit, dpi: int)
    requires w > 0.0 && h > 0.0
    ensures CustomPreset(ToMillimetres(w, unit), ToMillimetres(h, unit), dpi).AspectRatio() == w / h
  {
    var p := CustomPreset(ToMillimetres(w, unit), ToMillimetres(h, unit), dpi);
    assert p.AspectRatio() * p.heightMM == p.widthMM;
    if unit == Inches {
      assert p.AspectRatio() * h * MillimetresPerInch == w * MillimetresPerInch;
      assert p.AspectRatio() * h == w;
    }
  }

  /** The sheet's fields; `submitted` records `onSubmit` calls and `dismissals` the sheet closing. */
  class CustomSizeState {
    var width: string
    var height: string
    var unit: Unit
    var dpi: string
    var showError: bool
    var submitted: seq<PhotoPreset>
    var dismissals: nat

    constructor ()
      ensures width == "" && height == "" && unit == Millimeters && dpi == "300"
      ensures !showError && submitted == [] && dismissals == 0
    {
      width, height, unit, dpi := "", "", Millimeters, "300";
      showError := false;
      submitted, dismissals := [], 0;
    }

    /** "Use This Size": a valid entry is submitted and the sheet dismissed; an invalid one only raises the alert. */
    method Submit(parseDouble: string -> Option<real>, parseInt: string -> Option<int>)
      modifies this`showError, this`submitted, this`dismissals
      ensures var v := Validate(width, height, unit, dpi, parseDouble, parseInt);
        && (v == None ==> showError && submitted == old(submitted) && dismissals == old(dismissals))
        && (v != None ==> showError == old(showError) && submitted == old(submitted) + [v.value]
                          && dismissals == old(dismissals) + 1)
    {
      var v := Validate(width, height, unit, dpi, parseDouble, parseInt);
      if v.None? {
        showError := true;
        return;
      }
      submitted := submitted + [v.value];
      dismissals := dismissals + 1;
    }
  }
}
