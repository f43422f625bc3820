/**
 * The format step of the photo wizard (`ChooseFormatView`): the preset list
 * split into visa and passport sections, each sorted by country, and the
 * custom-size sheet.
 */
module ChooseFormat {
  import opened PhotoPresets
  import opened Sorting

  /** A preset's position in its section follows its country under `countryLess`. */
  function ByCountry(countryLess: (string, string) -> bool): (PhotoPreset, PhotoPreset) -> bool {
    (p: PhotoPreset, q: PhotoPreset) => countryLess(p.country, q.country)
  }

  /** A strict weak order on countries orders presets by country in the same way. */
  lemma ByCountryIsStrictWeakOrder(countryLess: (string, string) -> bool)
    requires StrictWeakOrder(countryLess)
    ensures StrictWeakOrder(ByCountry(countryLess))
  {
    var lt := ByCountry(countryLess);
    forall a: PhotoPreset, b: PhotoPreset | lt(a, b) ensures !lt(b, a) {
      assert countryLess(a.country, b.country);
    }
    forall a: PhotoPreset, b: PhotoPreset, c: PhotoPreset | !lt(b, a) && !lt(c, b) ensures !lt(c, a) {
      assert !countryLess(b.country, a.country) && !countryLess(c.country, b.country);
    }
  }

  function IsVisa(p: PhotoPreset): bool { p.docType == Visa }

  function IsPassport(p: PhotoPreset): bool { p.docType == Passport }

  /** The "Visa Presets" section. */
  function VisaPresets(presets: seq<PhotoPreset>, countryLess: (string, string) -> bool): seq<PhotoPreset> {
    SortBy(Filter(presets, IsVisa), ByCountry(countryLess))
  }

  /** The "Passport Presets" section. */
  function PassportPresets(presets: seq<PhotoPreset>, countryLess: (string, string) -> bool): seq<PhotoPreset> {
    SortBy(Filter(presets, IsPassport), ByCountry(countryLess))
  }

  /**
   * The visa section holds every visa preset as often as the library does and
   * nothing else, sorted by country.
   */
  lemma VisaPresetsSpec(presets: seq<PhotoPreset>, countryLess: (string, string) -> bool)
    requires StrictWeakOrder(countryLess)
    ensures var r := VisaPresets(presets, countryLess);
      && (forall i :: 0 <= i < |r| ==> r[i].docType == Visa)
      && (forall p :: multiset(r)[p] == if p.docType == Visa then multiset(presets)[p] else 0)
      && Sorted(r, ByCountry(countryLess))
  {
    ByCountryIsStrictWeakOrder(countryLess);
    var f := Filter(presets, IsVisa);
    SortBySorted(f, ByCountry(countryLess));
    var r := VisaPresets(presets, countryLess);
    forall i | 0 <= i < |r| ensures r[i].docType == Visa {
      assert r[i] in multiset(f);
    }
  }

  /** The same for the passport section. */
  lemma PassportPresetsSpec(presets: seq<PhotoPreset>, countryLess: (string, string) -> bool)
    requires StrictWeakOrder(countryLess)
    ensures var r := PassportPresets(presets, countryLess);
      && (forall i :: 0 <= i < |r| ==> r[i].docType == Passport)
      && (forall p :: multiset(r)[p] == if p.docType == Passport then multiset(presets)[p] else 0)
      && Sorted(r, ByCountry(countryLess))
  {
    ByCountryIsStrictWeakOrder(countryLess);
    var f := Filter(presets, IsPassport);
    SortBySorted(f, ByCountry(countryLess));
    var r := PassportPresets(presets, countryLess);
    forall i | 0 <= i < |r| ensures r[i].docType == Passport {
      assert r[i] in multiset(f);
    }
  }

  /** With two document types, the two sections together list the library exactly once. */
  lemma SectionsPartitionLibrary(presets: seq<PhotoPreset>, countryLess: (string, string) -> bool)
    requires StrictWeakOrder(countryLess)
    ensures multiset(VisaPresets(presets, countryLess)) + multiset(PassportPresets(presets, countryLess))
      == multiset(presets)
  {
    VisaPresetsSpec(presets, countryLess);
    PassportPresetsSpec(presets, countryLess);
    var v, p := VisaPresets(presets, countryLess), PassportPresets(presets, countryLess);
    forall x ensures (multiset(v) + multiset(p))[x] == multiset(presets)[x] {
      assert x.docType == Visa || x.docType == Passport;
    }
  }

  /** The format step's state; `selections` records the presets passed to `onSelectPreset`. */
  class ChooseFormatState {
    const presets: seq<PhotoPreset>
    var showingCustomSize: bool
    var selections: seq<PhotoPreset>

    constructor (presets: seq<PhotoPreset>)
      ensures this.presets == presets && !showingCustomSize && selections == []
    {
      this.presets := presets;
      showingCustomSize := false;
      selections := [];
    }

    /** Tapping a preset row selects it. */
    method SelectPreset(preset: PhotoPreset)
      modifies this`selections
      ensures selections == old(selections) + [preset]
    {
      selections := selections + [preset];
    }

    method OpenCustomSize()
      modifies this`showingCustomSize
      ensures showingCustomSize
    {
      showingCustomSize := true;
    }

    /** A submitted custom size closes the sheet and is selected unchanged. */
    method CustomSizeSubmitted(preset: PhotoPreset)
      modifies this`showingCustomSize, this`selections
      ensures !showingCustomSize && selections == old(selections) + [preset]
    {
      showingCustomSize := false;
      SelectPreset(preset);
    }
  }
}
