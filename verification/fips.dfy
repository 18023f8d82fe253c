/** The identifier normaliser: turning a county row into a five-character
    FIPS county code, a two-digit state code ("06" is California) followed by
    a three-digit county code. Both dashboards carry the same code for it. */
module Fips {
  import opened Wrappers
  import opened Seqs
  import opened Strings

  /** One feature of the county-boundary GeoJSON: its optional top-level
      `id` and the `NAME`, `STATEFP` and `COUNTYFP` properties. */
  datatype Feature = Feature(id: Option<string>, name: string, statefp: string, countyfp: string)

  const StateCode: string := "06"
  const Width: nat := 5

  /** `feat.get("id", "")`. */
  function IdOf(f: Feature): string
  {
    match f.id
    case Some(i) => i
    case None => ""
  }

  predicate InState(f: Feature)
  {
    StartsWith(IdOf(f), StateCode)
  }

  /** The boundary features reduced to California: exactly the features
      whose id starts with "06" (a feature without an id is dropped). */
  function StateFeatures(features: seq<Feature>): (r: seq<Feature>)
    ensures forall f :: f in r <==> f in features && StartsWith(IdOf(f), "06")
  {
    Filter(features, InState)
  }

  /** The reduction keeps the features in their original order: it commutes
      with concatenation and keeps every feature when all are Californian. */
  lemma {:induction false} StateFeaturesOrder(a: seq<Feature>, b: seq<Feature>)
    ensures StateFeatures(a + b) == StateFeatures(a) + StateFeatures(b)
    ensures (forall i :: 0 <= i < |a| ==> InState(a[i])) ==> StateFeatures(a) == a
  {
    FilterAppend(a, b, InState);
    if forall i :: 0 <= i < |a| ==> InState(a[i]) {
      FilterAll(a, InState);
    }
  }

  /** The lookup's test: the feature's upper-cased NAME equals the
      trimmed, upper-cased county name. */
  predicate Matches(f: Feature, countyName: string)
  {
    Upper(f.name) == Upper(Strip(countyName))
  }

  function Code(f: Feature): string
  {
    f.statefp + f.countyfp
  }

  /** Index of the first feature that matches, or `|features|` when none
      does. */
  function FirstMatchIndex(features: seq<Feature>, countyName: string): (k: nat)
    ensures k <= |features|
    ensures forall j :: 0 <= j < k ==> !Matches(features[j], countyName)
    ensures k < |features| ==> Matches(features[k], countyName)
  {
    if features == [] || Matches(features[0], countyName) then 0
    else
      var k := FirstMatchIndex(features[1..], countyName);
      assert forall j :: 1 <= j <= k ==> features[j] == features[1..][j - 1];
      1 + k
  }

  /** The name lookup as a specification: the code of the first matching
      feature, or None when no feature matches. */
  function FirstMatch(features: seq<Feature>, countyName: string): (r: Option<string>)
    ensures r.None? <==> forall i :: 0 <= i < |features| ==> !Matches(features[i], countyName)
    ensures r.Some? ==> r.value == Code(features[FirstMatchIndex(features, countyName)])
  {
    var k := FirstMatchIndex(features, countyName);
    if k < |features| then Some(Code(features[k])) else None
  }

  /** `fips_lookup`: scans the features in order and returns on the first
      match: the code of a matching feature none of whose predecessors
      matches, or None when nothing matches. */
  method FipsLookup(features: seq<Feature>, countyName: string) returns (r: Option<string>)
    ensures r == FirstMatch(features, countyName)
    ensures r.None? <==> forall i :: 0 <= i < |features| ==> !Matches(features[i], countyName)
    ensures r.Some? ==> r.value == Code(features[FirstMatchIndex(features, countyName)])
  {
    var name := Upper(Strip(countyName));
    var i := 0;
    while i < |features|
      invariant 0 <= i <= |features|
      invariant forall j :: 0 <= j < i ==> !Matches(features[j], countyName)
    {
      if Upper(features[i].name) == name {
        assert Matches(features[i], countyName);
        assert FirstMatchIndex(features, countyName) == i;
        return Some(features[i].statefp + features[i].countyfp);
      }
      i := i + 1;
    }
    return None;
  }

  /** Looking a name up in the Californian features finds the first
      Californian feature of that name, wherever features of other states
      stand in the full list. */
  lemma {:induction false} StateLookup(features: seq<Feature>, countyName: string)
    ensures var r := FirstMatch(StateFeatures(features), countyName);
      r.None? <==> forall i :: 0 <= i < |features| && InState(features[i]) ==> !Matches(features[i], countyName)
    ensures var r := FirstMatch(StateFeatures(features), countyName);
      r.Some? ==> exists i :: (0 <= i < |features| && InState(features[i])
                               && Matches(features[i], countyName) && r.value == Code(features[i]))
  {
    var cal := StateFeatures(features);
    var r := FirstMatch(cal, countyName);
    if r.Some? {
      var f := cal[FirstMatchIndex(cal, countyName)];
      assert f in cal;
      var i :| 0 <= i < |features| && features[i] == f;
    } else {
      forall i | 0 <= i < |features| && InState(features[i]) ensures !Matches(features[i], countyName) {
        assert features[i] in cal;
      }
    }
  }

  /** A name with no whitespace at either end is its own stripped form, so
      a feature of that very name matches it. */
  lemma MatchesOwnName(f: Feature)
    requires f.name != [] && !IsSpace(f.name[0]) && !IsSpace(f.name[|f.name| - 1])
    ensures Matches(f, f.name)
  {
    assert TrimStart(f.name) == f.name;
    assert TrimEnd(f.name) == f.name;
  }

  /** Arkansas and California both have a Nevada County: the full list
      finds Arkansas' code first, the Californian features give California's. */
  lemma StateLookupExample()
    ensures var ar := Feature(Some("05099"), "Nevada", "05", "099");
      var ca := Feature(Some("06057"), "Nevada", "06", "057");
      FirstMatch([ar, ca], "Nevada") == Some("05099")
      && FirstMatch(StateFeatures([ar, ca]), "Nevada") == Some("06057")
  {
    var ar := Feature(Some("05099"), "Nevada", "05", "099");
    var ca := Feature(Some("06057"), "Nevada", "06", "057");
    MatchesOwnName(ar);
    MatchesOwnName(ca);
    assert IdOf(ar)[..2][1] == '5';
    assert IdOf(ca)[..2] == "06";
    assert StateFeatures([ar, ca]) == [ca] by {
      assert [ar, ca][1..] == [ca];
    }
    assert FirstMatchIndex([ar, ca], "Nevada") == 0;
    assert FirstMatchIndex([ca], "Nevada") == 0;
    assert Code(ar) == "05099" && Code(ca) == "06057";
  }

  /** The "06" repair: a code that does not start with "06" becomes "06"
      followed by its last three characters. */
  function Repair(x: string): (r: string)
    ensures StartsWith(r, "06")
    ensures StartsWith(x, "06") ==> r == x
    ensures !StartsWith(x, "06") ==> r[2..] == Last(x, 3) && |r| == 2 + |Last(x, 3)|
  {
    if StartsWith(x, StateCode) then x else StateCode + Last(x, 3)
  }

  /** Repairing twice is repairing once. */
  lemma RepairIdempotent(x: string)
    ensures Repair(Repair(x)) == Repair(x)
  {
  }

  /** `zfill(5)` followed by the "06" repair, as applied to every fips value. */
  function PadRepair(x: string): (r: string)
    ensures StartsWith(r, "06")
    ensures |r| >= Width
    ensures r != ZFill(x, Width) ==> |r| == Width
    ensures r[|r| - 3..] == ZFill(x, Width)[|ZFill(x, Width)| - 3..]
  {
    Repair(ZFill(x, Width))
  }

  /** Normalising an already-normalised code changes nothing. */
  lemma PadRepairIdempotent(x: string)
    ensures PadRepair(PadRepair(x)) == PadRepair(x)
  {
    var r := PadRepair(x);
    assert ZFill(r, Width) == r;
  }

  /** A digit string of at most five characters becomes a five-digit code
      that starts with "06" and ends with the last three digits of its
      zero-padded form. */
  lemma {:induction false} PadRepairShortDigits(x: string)
    requires IsDigits(x) && |x| <= Width
    ensures var r := PadRepair(x);
      |r| == Width && IsDigits(r) && StartsWith(r, "06")
      && r[2..] == ZFill(x, Width)[2..]
  {
    var p := ZFill(x, Width);
    ZFillDigits(x, Width);
    assert |p| == Width;
    var r := PadRepair(x);
    if StartsWith(p, StateCode) {
      assert r == p;
    } else {
      assert r == StateCode + p[2..];
      forall i | 0 <= i < |r| ensures IsDigit(r[i]) {
        if i >= 2 { assert r[i] == p[i]; }
      }
    }
  }

  /** Worked cases: a county-only code and a bare county number gain the
      state prefix; a full code is kept. */
  lemma PadRepairExamples()
    ensures PadRepair("1") == "06001"
    ensures PadRepair("001") == "06001"
    ensures PadRepair("6001") == "06001"
    ensures PadRepair("06037") == "06037"
  {
    assert ZFill("1", Width) == "00001";
    assert ZFill("001", Width) == "00001";
    assert ZFill("6001", Width) == "06001";
    assert !StartsWith("00001", "06");
    assert Last("00001", 3) == "001";
  }

  /** The lookup result, padded and repaired when present: the padded code
      when it starts with "06", otherwise "06" and its last three
      characters. */
  function PadRepairOpt(x: Option<string>): (r: Option<string>)
    ensures r.Some? <==> x.Some?
    ensures r.Some? ==> StartsWith(r.value, "06") && |r.value| >= Width
    ensures r.Some? ==> r.value[|r.value| - 3..] == Last(ZFill(x.value, Width), 3)
    ensures r.Some? && StartsWith(ZFill(x.value, Width), "06") ==> r.value == ZFill(x.value, Width)
    ensures r.Some? && !StartsWith(ZFill(x.value, Width), "06") ==>
      r.value == "06" + Last(ZFill(x.value, Width), 3)
  {
    match x
    case Some(s) => Some(PadRepair(s))
    case None => None
  }
}
