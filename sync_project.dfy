/**
 * `scripts/sync_ios_project.py`: copies the manifest's app id, display name
 * and URL scheme into the Xcode project and the Info.plist. The two files are
 * objects holding their contents; reading and parsing them is not modelled,
 * and the manifest arrives already read (None when a key is missing).
 */
module SyncProject {
  import opened Wrappers
  import opened Strings

  // ---------------------------------------------------------------- project.pbxproj

  /** The setting's name and the separator the pattern expects before its value. */
  const Key: string := "PRODUCT_BUNDLE_IDENTIFIER = "

  /** The pattern `(PRODUCT_BUNDLE_IDENTIFIER = )[^;]+;` matches at `i`: the key, at least one non-';' character, then ';'. */
  predicate MatchAt(text: string, i: int) {
    0 <= i && i + |Key| <= |text| && text[i..i + |Key|] == Key && FirstIndex(text[i + |Key|..], ';') > 0
  }

  /** `re.subn` from left to right without overlaps: each match becomes the expanded replacement `rep`. Also returns the count. */
  function Substitute(text: string, rep: string): (r: (string, nat))
    ensures r.1 == 0 ==> r.0 == text
    decreases |text|
  {
    if text == [] then ([], 0)
    else if MatchAt(text, 0) then
      var semicolon := |Key| + FirstIndex(text[|Key|..], ';');
      var rest := Substitute(text[semicolon + 1..], rep);
      (rep + rest.0, rest.1 + 1)
    else
      var rest := Substitute(text[1..], rep);
      assert [text[0]] + text[1..] == text;
      ([text[0]] + rest.0, rest.1)
  }

  lemma MatchShift(text: string, i: nat)
    requires text != []
    ensures MatchAt(text[1..], i) <==> MatchAt(text, i + 1)
  {
    if i + 1 + |Key| <= |text| {
      assert text[1..][i..i + |Key|] == text[i + 1..i + 1 + |Key|];
      assert text[1..][i + |Key|..] == text[i + 1 + |Key|..];
    }
  }

  /** Nothing is substituted exactly when the pattern matches nowhere in the text. */
  lemma {:induction false} NoSubstitutionIffNoMatch(text: string, rep: string)
    ensures Substitute(text, rep).1 == 0 <==> forall i :: 0 <= i < |text| ==> !MatchAt(text, i)
    decreases |text|
  {
    if text != [] && !MatchAt(text, 0) {
      NoSubstitutionIffNoMatch(text[1..], rep);
      forall i | 0 <= i < |text| - 1 ensures MatchAt(text[1..], i) <==> MatchAt(text, i + 1) {
        MatchShift(text, i);
      }
      if Substitute(text, rep).1 != 0 {
        var i :| 0 <= i < |text[1..]| && MatchAt(text[1..], i);
        MatchShift(text, i);
      } else {
        forall j | 0 <= j < |text| ensures !MatchAt(text, j) {
          if j > 0 { MatchShift(text, j - 1); }
        }
      }
    }
  }

  /** A stretch with no 'P' in it cannot start a match and is copied unchanged. */
  lemma {:induction false} PlainPrefixUnchanged(plain: string, rest: string, rep: string)
    requires 'P' !in plain
    ensures Substitute(plain + rest, rep) == (plain + Substitute(rest, rep).0, Substitute(rest, rep).1)
    decreases |plain|
  {
    if plain != [] {
      var text := plain + rest;
      assert text[0] == plain[0] && Key[0] == 'P';
      assert !MatchAt(text, 0) by {
        if |Key| <= |text| { assert text[..|Key|][0] == plain[0]; }
      }
      assert text[1..] == plain[1..] + rest;
      PlainPrefixUnchanged(plain[1..], rest, rep);
      var tail := Substitute(rest, rep);
      assert Substitute(text, rep) == ([text[0]] + Substitute(text[1..], rep).0, tail.1);
      assert [plain[0]] + (plain[1..] + tail.0) == plain + tail.0;
    } else {
      assert plain + rest == rest;
      assert [] + Substitute(rest, rep).0 == Substitute(rest, rep).0;
    }
  }

  /** A setting `PRODUCT_BUNDLE_IDENTIFIER = value;` is replaced as a whole, and the scan goes on after it. */
  lemma SettingReplaced(value: string, rest: string, rep: string)
    requires value != [] && ';' !in value
    ensures Substitute(Key + (value + ";" + rest), rep) ==
      (rep + Substitute(rest, rep).0, Substitute(rest, rep).1 + 1)
  {
    var text := Key + (value + ";" + rest);
    SettingMatches(value, rest);
    MatchUnfolds(text, rest, rep);
  }

  lemma MatchUnfolds(text: string, after: string, rep: string)
    requires MatchAt(text, 0) && after == text[|Key| + FirstIndex(text[|Key|..], ';') + 1..]
    ensures Substitute(text, rep) == (rep + Substitute(after, rep).0, Substitute(after, rep).1 + 1)
  {
  }

  lemma SettingMatches(value: string, rest: string)
    requires value != [] && ';' !in value
    ensures var text := Key + (value + ";" + rest);
      MatchAt(text, 0) && |Key| + FirstIndex(text[|Key|..], ';') + 1 == |Key| + |value| + 1
      && text[|Key| + |value| + 1..] == rest
  {
    var text := Key + (value + ";" + rest);
    assert text[..|Key|] == Key;
    assert text[|Key|..] == value + ";" + rest;
    FirstIndexAfter(value, ';', rest);
  }

  lemma FirstIndexAfter(a: string, c: char, b: string)
    requires c !in a
    ensures FirstIndex(a + [c] + b, c) == |a|
  {
    var s := a + [c] + b;
    assert s[|a|] == c;
    assert s[..|a|] == a;
  }

  const UpdateFailed: string := "Failed to update PRODUCT_BUNDLE_IDENTIFIER in project file."

  predicate IsDigit(c: char) { '0' <= c <= '9' }

  predicate IsOctalDigit(c: char) { '0' <= c <= '7' }

  /**
   * The template `\1` + bundle id + `;`, expanded as far as a leading digit
   * of the bundle id changes it. A digit right after `\1` is read with it:
   * two octal digits make a three-digit octal escape (the character `0o1xy`,
   * and group 1 is not inserted); any other digit makes a reference to group
   * 1x, which the one-group pattern does not have, so `re` raises before
   * scanning. The model takes backslashes inside the bundle id literally;
   * `re` would read them as escapes.
   */
  function Replacement(bundleId: string): (r: Result<string, string>)
    ensures bundleId == [] || !IsDigit(bundleId[0]) ==> r == Success(Key + bundleId + ";")
    ensures |bundleId| >= 2 && IsOctalDigit(bundleId[0]) && IsOctalDigit(bundleId[1]) ==>
      && r.Success? && r.value != [] && r.value[1..] == bundleId[2..] + ";"
      && r.value[0] as int == 64 + 8 * (bundleId[0] as int - '0' as int) + (bundleId[1] as int - '0' as int)
    ensures r.Failure? <==> bundleId != [] && IsDigit(bundleId[0]) && !(|bundleId| >= 2 && IsOctalDigit(bundleId[0]) && IsOctalDigit(bundleId[1]))
  {
    if bundleId == [] || !IsDigit(bundleId[0]) then Success(Key + bundleId + ";")
    else if |bundleId| >= 2 && IsOctalDigit(bundleId[0]) && IsOctalDigit(bundleId[1]) then
      var code := 64 + 8 * (bundleId[0] as int - '0' as int) + (bundleId[1] as int - '0' as int);
      Success([code as char] + bundleId[2..] + ";")
    else Failure("invalid group reference 1" + [bundleId[0]] + " at position 1")
  }

  /**
   * `update_project_bundle_id` on the file's text: the template's error, the
   * RuntimeError when nothing matched, or the new text.
   */
  function UpdateProjectBundleId(text: string, bundleId: string): (r: Result<string, string>)
    ensures Replacement(bundleId).Failure? ==> r == Failure(Replacement(bundleId).error)
    ensures Replacement(bundleId).Success? ==>
      && (r.Failure? <==> forall i :: 0 <= i < |text| ==> !MatchAt(text, i))
      && (r.Failure? ==> r.error == UpdateFailed)
      && (r.Success? ==> r.value == Substitute(text, Replacement(bundleId).value).0)
  {
    match Replacement(bundleId)
    case Failure(e) => Failure(e)
    case Success(rep) =>
      NoSubstitutionIffNoMatch(text, rep);
      var (newText, count) := Substitute(text, rep);
      if count == 0 then Failure(UpdateFailed) else Success(newText)
  }

  /** A file whose text is one setting followed by `rest` gets the expanded replacement in place of that setting. */
  lemma SettingRewritten(value: string, rest: string, bundleId: string)
    requires value != [] && ';' !in value && Replacement(bundleId).Success?
    ensures var rep := Replacement(bundleId).value;
      UpdateProjectBundleId(Key + (value + ";" + rest), bundleId) == Success(rep + Substitute(rest, rep).0)
  {
    var rep := Replacement(bundleId).value;
    SettingReplaced(value, rest, rep);
  }

  /** With a bundle id that does not start with a digit, a setting comes out as the key, the bundle id and ';'. */
  lemma SettingGetsBundleId(value: string, rest: string, bundleId: string)
    requires value != [] && ';' !in value
    requires bundleId == [] || !IsDigit(bundleId[0])
    ensures UpdateProjectBundleId(Key + (value + ";" + rest), bundleId) ==
      Success(Key + bundleId + ";" + Substitute(rest, Key + bundleId + ";").0)
  {
    SettingRewritten(value, rest, bundleId);
  }

  /** A bundle id starting with a digit and then a non-octal character makes the script raise before it writes anything. */
  lemma LeadingDigitRaises(text: string)
    ensures UpdateProjectBundleId(text, "1abc") == Failure("invalid group reference 11 at position 1")
    ensures UpdateProjectBundleId(text, "9abc") == Failure("invalid group reference 19 at position 1")
  {
    var one, nine := "1abc", "9abc";
    assert IsDigit(one[0]) && !IsOctalDigit(one[1]);
    assert "invalid group reference 1" + [one[0]] + " at position 1" == "invalid group reference 11 at position 1";
    assert IsDigit(nine[0]) && !IsOctalDigit(nine[0]);
    assert "invalid group reference 1" + [nine[0]] + " at position 1" == "invalid group reference 19 at position 1";
  }

  /**
   * A bundle id starting with two octal digits swallows the key: the setting
   * `PRODUCT_BUNDLE_IDENTIFIER = value;` becomes `J3x;` for the bundle id
   * `123x` (octal 112 is 'J').
   */
  lemma OctalBundleIdDropsKey(value: string)
    requires value != [] && ';' !in value
    ensures UpdateProjectBundleId(Key + (value + ";"), "123x") == Success("J3x;")
  {
    OctalReplacement();
    SettingRewritten(value, [], "123x");
    assert Key + (value + ";" + []) == Key + (value + ";");
    assert "J3x;" + [] == "J3x;";
  }

  lemma OctalReplacement()
    ensures Replacement("123x") == Success("J3x;")
  {
    var b := "123x";
    assert IsDigit(b[0]) && IsOctalDigit(b[0]) && IsOctalDigit(b[1]);
    assert 64 + 8 * (b[0] as int - '0' as int) + (b[1] as int - '0' as int) == 'J' as int;
    assert ['J'] + b[2..] + ";" == "J3x;";
  }

  // ---------------------------------------------------------------- Info.plist

  /** A property-list value: a string, an array, a dictionary, or any other scalar. */
  datatype PlistValue = PString(s: string) | PArray(items: seq<PlistValue>) | PDict(entries: map<string, PlistValue>) | PScalar

  /** The first URL type after the update: its name and schemes set, its other keys kept. */
  function UpdatedUrlType(old0: map<string, PlistValue>, bundleId: string, urlScheme: string): (r: map<string, PlistValue>)
    ensures r.Keys == old0.Keys + {"CFBundleURLName", "CFBundleURLSchemes"}
    ensures r["CFBundleURLName"] == PString(bundleId) && r["CFBundleURLSchemes"] == PArray([PString(urlScheme)])
    ensures forall k :: k in old0 && k != "CFBundleURLName" && k != "CFBundleURLSchemes" ==> r[k] == old0[k]
  {
    old0["CFBundleURLName" := PString(bundleId)]["CFBundleURLSchemes" := PArray([PString(urlScheme)])]
  }

  /** The URL types after the update, or None where Python would raise (a non-list, or a first entry that is not a dict). */
  function UpdatedUrlTypes(existing: Option<PlistValue>, bundleId: string, urlScheme: string): (r: Option<seq<PlistValue>>)
    ensures existing.None? ==> r == Some([PDict(UpdatedUrlType(map[], bundleId, urlScheme))])
    ensures r.Some? ==>
      && |r.value| >= 1 && r.value[0].PDict?
      && "CFBundleURLName" in r.value[0].entries && "CFBundleURLSchemes" in r.value[0].entries
      && r.value[0].entries["CFBundleURLName"] == PString(bundleId)
      && r.value[0].entries["CFBundleURLSchemes"] == PArray([PString(urlScheme)])
    ensures existing.Some? ==> (r.Some? <==> existing.value.PArray? && (existing.value.items == [] || existing.value.items[0].PDict?))
    ensures r.Some? && existing.Some? ==>
      && existing.value.PArray?
      && (existing.value.items == [] ==> |r.value| == 1)
      && (existing.value.items != [] ==> r.value[1..] == existing.value.items[1..] && existing.value.items[0].PDict?)
    ensures r.Some? && existing.Some? && existing.value.items != [] ==>
      r.value[0].entries == existing.value.items[0].entries["CFBundleURLName" := PString(bundleId)]["CFBundleURLSchemes" := PArray([PString(urlScheme)])]
    ensures r.Some? && (existing.None? || existing.value.items == []) ==>
      r.value == [PDict(map["CFBundleURLName" := PString(bundleId), "CFBundleURLSchemes" := PArray([PString(urlScheme)])])]
  {
    match existing
    case None => Some([PDict(UpdatedUrlType(map[], bundleId, urlScheme))])
    case Some(PArray(items)) =>
      if items == [] then Some([PDict(UpdatedUrlType(map[], bundleId, urlScheme))])
      else if items[0].PDict? then Some([PDict(UpdatedUrlType(items[0].entries, bundleId, urlScheme))] + items[1..])
      else None
    case Some(_) => None
  }

  /** The URL types the plist already has, if any. */
  function ExistingUrlTypes(entries: map<string, PlistValue>): Option<PlistValue> {
    if "CFBundleURLTypes" in entries then Some(entries["CFBundleURLTypes"]) else None
  }

  /**
   * `update_info_plist` on the parsed plist: both bundle names set to the
   * display name and the URL types updated, every other key kept; None where
   * the URL-type update raises.
   */
  function UpdatedInfo(entries: map<string, PlistValue>, displayName: string, bundleId: string, urlScheme: string): (r: Option<map<string, PlistValue>>)
    ensures r.Some? <==> UpdatedUrlTypes(ExistingUrlTypes(entries), bundleId, urlScheme).Some?
    ensures r.Some? ==>
      && r.value.Keys == entries.Keys + {"CFBundleDisplayName", "CFBundleName", "CFBundleURLTypes"}
      && r.value["CFBundleDisplayName"] == PString(displayName) && r.value["CFBundleName"] == PString(displayName)
      && r.value["CFBundleURLTypes"] == PArray(UpdatedUrlTypes(ExistingUrlTypes(entries), bundleId, urlScheme).value)
      && forall k :: k in entries && k !in {"CFBundleDisplayName", "CFBundleName", "CFBundleURLTypes"} ==> r.value[k] == entries[k]
  {
    match UpdatedUrlTypes(ExistingUrlTypes(entries), bundleId, urlScheme)
    case None => None
    case Some(types) =>
      Some(entries["CFBundleDisplayName" := PString(displayName)]["CFBundleName" := PString(displayName)]["CFBundleURLTypes" := PArray(types)])
  }

  class InfoPlist {
    var entries: map<string, PlistValue>

    constructor(entries: map<string, PlistValue>)
      ensures this.entries == entries
    {
      this.entries := entries;
    }

    /**
     * `update_info_plist`: both bundle names become the display name, and the
     * first URL type (created when there is none) gets the bundle id and the
     * scheme. On a malformed URL-type list the script raises and nothing is written.
     */
    method Update(displayName: string, bundleId: string, urlScheme: string) returns (ok: bool)
      modifies this`entries
      ensures ok <==> UpdatedInfo(old(entries), displayName, bundleId, urlScheme).Some?
      ensures ok ==> entries == UpdatedInfo(old(entries), displayName, bundleId, urlScheme).value
      ensures !ok ==> entries == old(entries)
    {
      var existing := if "CFBundleURLTypes" in entries then Some(entries["CFBundleURLTypes"]) else None;
      var types := UpdatedUrlTypes(existing, bundleId, urlScheme);
      if types.None? {
        return false;
      }
      entries := entries["CFBundleDisplayName" := PString(displayName)];
      entries := entries["CFBundleName" := PString(displayName)];
      entries := entries["CFBundleURLTypes" := PArray(types.value)];
      ok := true;
    }
  }

  /** The project file's text. */
  class ProjectFile {
    var text: string

    constructor(text: string)
      ensures this.text == text
    {
      this.text := text;
    }
  }

  /** The three manifest values the script reads. */
  datatype SyncManifest = SyncManifest(appId: string, displayName: string, scheme: string)

  /** How the script ends: a usage exit, an uncaught exception, or normally. */
  datatype ExitStatus = Exited(code: int) | Raised(message: string) | Finished

  /**
   * `main`: exactly one argument, the manifest path; then the project file,
   * then the plist. A RuntimeError from the project step stops the script
   * before the plist is touched; a failure in the plist step comes after the
   * project file was written.
   */
  method Run(argv: seq<string>, manifest: Option<SyncManifest>, project: ProjectFile, plist: InfoPlist) returns (status: ExitStatus)
    modifies project`text, plist`entries
    ensures |argv| != 2 ==> status == Exited(1) && project.text == old(project.text) && plist.entries == old(plist.entries)
    ensures |argv| == 2 && manifest.None? ==> status.Raised? && project.text == old(project.text) && plist.entries == old(plist.entries)
    ensures |argv| == 2 && manifest.Some? ==>
      var m := manifest.value;
      var updated := UpdateProjectBundleId(old(project.text), m.appId);
      var info := UpdatedInfo(old(plist.entries), m.displayName, m.appId, m.scheme);
      && (updated.Failure? ==> status == Raised(updated.error) && project.text == old(project.text) && plist.entries == old(plist.entries))
      && (updated.Success? ==> project.text == updated.value)
      && (updated.Success? && info.None? ==> status.Raised? && plist.entries == old(plist.entries))
      && (updated.Success? && info.Some? ==> status == Finished && plist.entries == info.value)
    ensures status == Finished <==>
      |argv| == 2 && manifest.Some? && UpdateProjectBundleId(old(project.text), manifest.value.appId).Success?
      && UpdatedInfo(old(plist.entries), manifest.value.displayName, manifest.value.appId, manifest.value.scheme).Some?
  {
    if |argv| != 2 {
      return Exited(1);
    }
    if manifest.None? {
      return Raised("KeyError");
    }
    var m := manifest.value;
    var updated := UpdateProjectBundleId(project.text, m.appId);
    if updated.Failure? {
      return Raised(updated.error);
    }
    project.text := updated.value;
    var ok := plist.Update(m.displayName, m.appId, m.scheme);
    if !ok {
      return Raised("TypeError");
    }
    status := Finished;
  }
}
