/** The document photo presets the wizard offers (`PhotoPreset`). */
module PhotoPresets {
  import opened Wrappers

  datatype DocType = Visa | Passport

  /** One passport or visa photo format: physical size in millimetres and print resolution. */
  datatype PhotoPreset = PhotoPreset(
    id: string,
    country: string,
    labelText: string,  // `label` in Swift; a Dafny keyword
    docType: DocType,
    widthMM: real,
    heightMM: real,
    dpi: int,
    notes: Option<string>)
  {
    /** Width over height, and 1 when the height is zero. */
    function AspectRatio(): (r: real)
      ensures heightMM == 0.0 ==> r == 1.0
      ensures heightMM != 0.0 ==> r * heightMM == widthMM
      ensures widthMM > 0.0 && heightMM > 0.0 ==> r > 0.0
    {
      if heightMM == 0.0 then 1.0 else widthMM / heightMM
    }
  }

  /** Two presets of the same proportions have the same aspect ratio, whatever their scale. */
  lemma AspectRatioScaleInvariant(p: PhotoPreset, k: real)
    requires k > 0.0
    ensures p.(widthMM := k * p.widthMM, heightMM := k * p.heightMM).AspectRatio() == p.AspectRatio()
  {
    var q := p.(widthMM := k * p.widthMM, heightMM := k * p.heightMM);
    if p.heightMM != 0.0 {
      assert q.AspectRatio() * (k * p.heightMM) == k * p.widthMM;
      assert q.AspectRatio() * p.heightMM == p.widthMM;
    }
  }
}
