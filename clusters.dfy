/** `ClusterExtensions.update`: decide from the installed version of a cluster
    extension whether a PATCH is needed and, when it is, build its body. The
    management client's `get` and `begin_update` are oracles. */
module Clusters {
  import opened Common

  const PreviewTag := "-preview"

  /** The PATCH body sent to the extension. */
  datatype ExtensionUpdate = ExtensionUpdate(autoUpgradeMinorVersion: bool, releaseTrain: string, version: string)

  /** `v.replace("-preview", "")`. */
  function StripPreview(v: string): string {
    RemoveAll(v, PreviewTag)
  }

  /** The decision of `update`: `None` when the installed version (missing
      counts as "0") is, as a plain string and with "-preview" removed from
      both sides, at least the new one; the PATCH body otherwise. */
  function UpdatePayload(currentVersion: Option<string>, newVersion: string, newTrain: string): (r: Option<ExtensionUpdate>)
    ensures r.None? <==> LexLe(StripPreview(newVersion), StripPreview(currentVersion.GetOr("0")))
    ensures r.Some? ==> !r.value.autoUpgradeMinorVersion && r.value.releaseTrain == newTrain && r.value.version == newVersion
  {
    var current := StripPreview(currentVersion.GetOr("0"));
    if LexLe(StripPreview(newVersion), current) then None
    else Some(ExtensionUpdate(false, newTrain, newVersion))
  }

  /** `ClusterExtensions.update`: `fetched` is what `ops.get` gave (the
      extension's `properties.version`, or the error it raised);
      `beginUpdate` stands for `ops.begin_update`, which may raise too. */
  function Update(fetched: Result<Option<string>>, newVersion: string, newTrain: string,
                  beginUpdate: ExtensionUpdate -> Result<Json>): (r: Result<Option<Json>>)
    ensures fetched.Err? ==> r == Err(fetched.error)
    ensures fetched.Ok? && UpdatePayload(fetched.value, newVersion, newTrain).None? ==> r == Ok(None)
    ensures fetched.Ok? && UpdatePayload(fetched.value, newVersion, newTrain).Some? ==>
      var sent := beginUpdate(ExtensionUpdate(false, newTrain, newVersion));
      && (sent.Err? ==> r == Err(sent.error))
      && (sent.Ok? ==> r == Ok(Some(sent.value)))
  {
    match fetched
    case Err(e) => Err(e)
    case Ok(current) =>
      match UpdatePayload(current, newVersion, newTrain)
      case None => Ok(None)
      case Some(body) =>
        match beginUpdate(body)
        case Err(e) => Err(e)
        case Ok(poller) => Ok(Some(poller))
  }

  /** Once the PATCH has been applied, the same call is a no-op. */
  lemma {:induction false} UpdateIsIdempotent(newVersion: string, newTrain: string)
    ensures UpdatePayload(Some(newVersion), newVersion, newTrain).None?
  {
    LexLeReflexive(StripPreview(newVersion));
  }

  /** Between two versions exactly one direction issues a PATCH, unless the
      stripped strings are equal, where neither does. */
  lemma {:induction false} UpdateAntisymmetric(a: string, b: string, train: string)
    ensures UpdatePayload(Some(a), b, train).None? || UpdatePayload(Some(b), a, train).None?
    ensures UpdatePayload(Some(a), b, train).None? && UpdatePayload(Some(b), a, train).None?
        <==> StripPreview(a) == StripPreview(b)
  {
    LexLeTotal(StripPreview(a), StripPreview(b));
    if StripPreview(a) == StripPreview(b) {
      LexLeReflexive(StripPreview(a));
    } else if LexLe(StripPreview(a), StripPreview(b)) && LexLe(StripPreview(b), StripPreview(a)) {
      LexLeAntisymmetric(StripPreview(a), StripPreview(b));
    }
  }

  /** The comparison is on strings, not on version numbers: "0.9.0" counts
      as at least "0.10.0", so no PATCH is issued. */
  lemma LexicographicNotNumeric(train: string)
    ensures UpdatePayload(Some("0.9.0"), "0.10.0", train).None?
  {
    assert StripPreview("0.9.0") == "0.9.0" by {
      NoOccurrenceOfShort("0.9.0", PreviewTag);
      RemoveAllNoOccurrence("0.9.0", PreviewTag);
    }
    assert StripPreview("0.10.0") == "0.10.0" by {
      NoOccurrenceOfShort("0.10.0", PreviewTag);
      RemoveAllNoOccurrence("0.10.0", PreviewTag);
    }
    assert "0.10.0"[1..] == ".10.0" && "0.9.0"[1..] == ".9.0";
    assert ".10.0"[1..] == "10.0" && ".9.0"[1..] == "9.0";
  }

  // ---------------------------------------------------------------------
  // What removing "-preview" does

  /** `pat` occurs in `v` starting at index `k`. */
  predicate OccursAt(v: string, pat: string, k: nat) {
    k + |pat| <= |v| && v[k..k + |pat|] == pat
  }

  /** `pat` does not occur anywhere in `v`. */
  ghost predicate NoOccurrence(v: string, pat: string) {
    forall k: nat :: !OccursAt(v, pat, k)
  }

  /** An occurrence in `v[1..]` is an occurrence in `v`, one place later. */
  lemma NoOccurrenceTail(v: string, pat: string)
    requires v != [] && NoOccurrence(v, pat)
    ensures NoOccurrence(v[1..], pat)
  {
    forall k: nat | OccursAt(v[1..], pat, k)
      ensures OccursAt(v, pat, k + 1)
    {
      assert v[1..][k..k + |pat|] == v[k + 1..k + 1 + |pat|];
    }
  }

  /** No proper prefix of `pat` is also a suffix of it, so two occurrences
      of `pat` can never overlap. */
  ghost predicate Borderless(pat: string) {
    forall j :: 0 < j < |pat| ==> pat[j..] != pat[..|pat| - j]
  }

  lemma NoOccurrenceOfShort(v: string, pat: string)
    requires |v| < |pat|
    ensures NoOccurrence(v, pat)
  {
  }

  lemma PreviewTagBorderless()
    ensures Borderless(PreviewTag)
  {
    forall j | 0 < j < |PreviewTag|
      ensures PreviewTag[j..] != PreviewTag[..|PreviewTag| - j]
    {
      assert PreviewTag[..|PreviewTag| - j][0] == '-';
      assert PreviewTag[j..][0] == PreviewTag[j] != '-';
    }
  }

  lemma {:induction false} RemoveAllNoOccurrence(v: string, pat: string)
    requires pat != [] && NoOccurrence(v, pat)
    ensures RemoveAll(v, pat) == v
    decreases |v|
  {
    if |v| >= |pat| {
      assert !OccursAt(v, pat, 0);
      assert v[..|pat|] == v[0..|pat|];
      NoOccurrenceTail(v, pat);
      RemoveAllNoOccurrence(v[1..], pat);
      assert v == [v[0]] + v[1..];
    }
  }

  /** With a borderless pattern, an occurrence appended at the end is
      removed on its own: no occurrence can straddle the join. */
  lemma {:induction false} RemoveAllAppended(v: string, pat: string)
    requires pat != [] && Borderless(pat)
    ensures RemoveAll(v + pat, pat) == RemoveAll(v, pat)
    decreases |v|
  {
    var s := v + pat;
    if v == [] {
      assert s == pat;
      assert s[|pat|..] == [];
    } else if |v| >= |pat| {
      assert s[..|pat|] == v[..|pat|];
      if v[..|pat|] == pat {
        assert s[|pat|..] == v[|pat|..] + pat;
        RemoveAllAppended(v[|pat|..], pat);
      } else {
        assert s[1..] == v[1..] + pat;
        RemoveAllAppended(v[1..], pat);
      }
    } else {
      NoStraddle(v, pat);
      assert s[1..] == v[1..] + pat;
      RemoveAllAppended(v[1..], pat);
      HeadTail(v);
    }
  }

  /** A borderless pattern cannot start inside a string shorter than it and
      run on into a copy of itself appended to that string. */
  lemma NoStraddle(v: string, pat: string)
    requires Borderless(pat) && 0 < |v| < |pat|
    ensures (v + pat)[..|pat|] != pat
  {
    var j := |v|;
    assert (v + pat)[..|pat|][j..] == pat[..|pat| - j];
    assert pat[j..] != pat[..|pat| - j];
  }

  lemma HeadTail(v: string)
    requires v != []
    ensures [v[0]] + v[1..] == v
  {
  }

  /** A trailing "-preview" on the installed version makes no difference to
      the decision. */
  lemma PreviewSuffixIgnored(v: string, newVersion: string, newTrain: string)
    ensures UpdatePayload(Some(v + PreviewTag), newVersion, newTrain) == UpdatePayload(Some(v), newVersion, newTrain)
  {
    PreviewTagBorderless();
    RemoveAllAppended(v, PreviewTag);
  }
}
