/** The county table: one row per county with its name, its raw identifier
    columns and a map from column name to value. `Frame` is the table the
    dashboards update in place: the fips column is resolved and overwritten,
    standardised columns and the composite are added, and Alpine County is
    filtered out. */
module Table {
  import opened Wrappers
  import opened Seqs
  import opened Strings
  import opened Fips
  import opened Scores

  /** A numeric column: an indicator read from the CSV file under its own
      name, its standardised column `Z_<name>`, or `UOI_custom`. */
  datatype Key = Raw(name: string) | Z(col: string) | Composite

  /** The column name as the table spells it. */
  function KeyName(k: Key): string
  {
    match k
    case Raw(n) => n
    case Z(c) => "Z_" + c
    case Composite => "UOI_custom"
  }

  /** One county row: `County`, the `GEOID` text, the fips code (None when
      the name lookup found nothing) and the numeric columns. */
  datatype Row = Row(county: string, geoid: string, fips: Option<string>, values: map<Key, real>)

  /** Where the fips code of a row comes from. */
  datatype FipsSource = GeoidColumn | FipsColumn | NameLookup

  /** The precedence of the nine-indicator dashboard: a GEOID column wins,
      then an existing fips column, then the name lookup. */
  function SourceCa(hasGeoid: bool, hasFips: bool): (src: FipsSource)
    ensures src == GeoidColumn <==> hasGeoid
    ensures src == FipsColumn <==> !hasGeoid && hasFips
    ensures src == NameLookup <==> !hasGeoid && !hasFips
  {
    if hasGeoid then GeoidColumn else if hasFips then FipsColumn else NameLookup
  }

  /** The six-indicator dashboard ignores GEOID: an existing fips column,
      else the name lookup. */
  function SourceCali(hasFips: bool): (src: FipsSource)
    ensures src != GeoidColumn
    ensures src == FipsColumn <==> hasFips
  {
    if hasFips then FipsColumn else NameLookup
  }

  /** Without a GEOID column the two dashboards pick the same source, and a
      GEOID column outranks a fips column only in the nine-indicator one. */
  lemma SourcesAgree(hasGeoid: bool, hasFips: bool)
    ensures !hasGeoid ==> SourceCa(hasGeoid, hasFips) == SourceCali(hasFips)
    ensures hasGeoid ==> SourceCa(hasGeoid, hasFips) == GeoidColumn
    ensures SourceCali(hasFips) != GeoidColumn
  {
  }

  /** The code of a row before padding and repair. */
  function RawFips(r: Row, src: FipsSource, features: seq<Feature>): Option<string>
  {
    match src
    case GeoidColumn => Some(r.geoid)
    case FipsColumn => r.fips
    case NameLookup => FirstMatch(features, r.county)
  }

  /** The row with its fips code taken from `src`, padded to five characters
      and given the "06" prefix. Only the fips code changes; it is missing
      exactly when the fips column held none or the name lookup found no
      feature, and a present code starts with "06" and has at least five
      characters. */
  function Resolved(r: Row, src: FipsSource, features: seq<Feature>): (s: Row)
    ensures s.county == r.county && s.geoid == r.geoid && s.values == r.values
    ensures s.fips.None? <==>
      (src == FipsColumn && r.fips.None?)
      || (src == NameLookup && forall i :: 0 <= i < |features| ==> !Matches(features[i], r.county))
    ensures s.fips.Some? ==> StartsWith(s.fips.value, "06") && |s.fips.value| >= Width
    ensures src == GeoidColumn ==> s.fips == PadRepairOpt(Some(r.geoid))
    ensures src == FipsColumn ==> s.fips == PadRepairOpt(r.fips)
    ensures src == NameLookup ==> s.fips == PadRepairOpt(FirstMatch(features, r.county))
  {
    r.(fips := PadRepairOpt(RawFips(r, src, features)))
  }

  /** A county the lookup matches to a feature whose code is already five
      characters starting with "06" gets exactly that code. */
  lemma {:induction false} ResolvedLookupExact(r: Row, features: seq<Feature>)
    requires FirstMatchIndex(features, r.county) < |features|
    requires var c := Code(features[FirstMatchIndex(features, r.county)]);
      |c| == Width && StartsWith(c, "06")
    ensures Resolved(r, NameLookup, features).fips == Some(Code(features[FirstMatchIndex(features, r.county)]))
  {
    var c := Code(features[FirstMatchIndex(features, r.county)]);
    assert FirstMatch(features, r.county) == Some(c);
    assert ZFill(c, Width) == c;
  }

  /** A GEOID of at most five digits resolves to a five-digit code starting
      with "06" that keeps the GEOID's county digits. */
  lemma {:induction false} ResolvedGeoid(r: Row, features: seq<Feature>)
    requires IsDigits(r.geoid) && |r.geoid| <= Width
    ensures var s := Resolved(r, GeoidColumn, features);
      s.fips.Some? && |s.fips.value| == Width && IsDigits(s.fips.value)
      && StartsWith(s.fips.value, "06") && s.fips.value[2..] == ZFill(r.geoid, Width)[2..]
  {
    PadRepairShortDigits(r.geoid);
  }

  /** Resolving a resolved table again from its own fips column changes
      nothing. */
  lemma {:induction false} ResolvedIdempotent(r: Row, src: FipsSource, features: seq<Feature>)
    ensures Resolved(Resolved(r, src, features), FipsColumn, features) == Resolved(r, src, features)
  {
    var raw := RawFips(r, src, features);
    if raw.Some? {
      PadRepairIdempotent(raw.value);
    }
  }

  /** Every row resolved from `src`. */
  function ResolvedRows(rows: seq<Row>, src: FipsSource, features: seq<Feature>): (r: seq<Row>)
    ensures |r| == |rows|
  {
    seq(|rows|, i requires 0 <= i < |rows| => Resolved(rows[i], src, features))
  }

  /** `after` is `before` (whose rows carry `columns`) with the columns
      `added` set: the same rows in the same order, each with its other
      fields and every value outside `added` unchanged. */
  predicate Extends(before: seq<Row>, columns: set<Key>, after: seq<Row>, added: set<Key>)
  {
    |after| == |before|
    && (forall i :: 0 <= i < |before| ==> before[i].values.Keys == columns)
    && (forall i :: 0 <= i < |after| ==> after[i].values.Keys == columns + added)
    && (forall i :: 0 <= i < |after| ==> after[i] == before[i].(values := after[i].values))
    && (forall i, key :: 0 <= i < |after| && key in columns && key !in added ==>
          after[i].values[key] == before[i].values[key])
  }

  /** The values of one column, top to bottom. */
  function Column(rows: seq<Row>, col: Key): (c: seq<real>)
    requires forall i :: 0 <= i < |rows| ==> col in rows[i].values
    ensures |c| == |rows|
  {
    seq(|rows|, i requires 0 <= i < |rows| => rows[i].values[col])
  }

  /** The rows with column `key` set to `vals`, row by row. */
  function WithColumn(rows: seq<Row>, key: Key, vals: seq<real>): (r: seq<Row>)
    requires |vals| == |rows|
    ensures |r| == |rows|
  {
    seq(|rows|, i requires 0 <= i < |rows| => rows[i].(values := rows[i].values[key := vals[i]]))
  }

  /** Setting one column leaves every other column as it was. */
  lemma ColumnWithColumn(rows: seq<Row>, key: Key, vals: seq<real>, other: Key)
    requires |vals| == |rows|
    requires forall i :: 0 <= i < |rows| ==> other in rows[i].values
    ensures Column(WithColumn(rows, key, vals), key) == vals
    ensures other != key ==> Column(WithColumn(rows, key, vals), other) == Column(rows, other)
  {
  }

  /** Resolving the fips codes leaves every numeric column as it was. */
  lemma ColumnResolved(rows: seq<Row>, src: FipsSource, features: seq<Feature>, key: Key)
    requires forall i :: 0 <= i < |rows| ==> key in rows[i].values
    ensures Column(ResolvedRows(rows, src, features), key) == Column(rows, key)
  {
  }

  /** The standardised columns added for the indicators of `cols` that are
      present. */
  function ZKeys(cols: seq<string>, present: set<Key>): (r: set<Key>)
    ensures forall c :: c in cols && Raw(c) in present ==> Z(c) in r
    ensures forall c :: Z(c) in r ==> c in cols && Raw(c) in present
    ensures forall k :: k in r ==> k.Z?
  {
    set c | c in cols && Raw(c) in present :: Z(c)
  }

  /** The nine standardised values of a row, in weight order. */
  function ZVector(r: Row): (z: seq<real>)
    requires HasZColumns(r)
    ensures |z| == |Indicators|
  {
    seq(|Indicators|, k requires 0 <= k < |Indicators| => r.values[Z(Indicators[k])])
  }

  predicate HasZColumns(r: Row)
  {
    forall k :: 0 <= k < |Indicators| ==> Z(Indicators[k]) in r.values
  }

  /** `UOI_custom` of every row: the weighted sum of the row's own nine
      standardised values. */
  function Composites(rows: seq<Row>, w: seq<real>): (u: seq<real>)
    requires |w| == |Indicators|
    requires forall i :: 0 <= i < |rows| ==> HasZColumns(rows[i])
    ensures |u| == |rows|
    ensures forall i :: 0 <= i < |rows| ==> u[i] == Dot(ZVector(rows[i]), w)
  {
    seq(|rows|, i requires 0 <= i < |rows| => Uoi(ZVector(rows[i]), w))
  }

  /** Row `i`'s composite equals `c` when all nine of its standardised
      values equal `c` and the weights sum to 1. */
  lemma {:induction false} CompositesSpec(rows: seq<Row>, w: seq<real>, i: nat, c: real)
    requires |w| == |Indicators| && i < |rows|
    requires forall j :: 0 <= j < |rows| ==> HasZColumns(rows[j])
    ensures Sum(w) == 1.0 && (forall k :: 0 <= k < |Indicators| ==> ZVector(rows[i])[k] == c)
      ==> Composites(rows, w)[i] == c
  {
    if Sum(w) == 1.0 && (forall k :: 0 <= k < |Indicators| ==> ZVector(rows[i])[k] == c) {
      UoiOfConstant(ZVector(rows[i]), w, c);
    }
  }

  /** Column sums of the nine standardised columns, in weight order. */
  function ZSums(rows: seq<Row>): (s: seq<real>)
    requires forall i :: 0 <= i < |rows| ==> HasZColumns(rows[i])
    ensures |s| == |Indicators|
  {
    seq(|Indicators|, k requires 0 <= k < |Indicators| =>
      assert forall i :: 0 <= i < |rows| ==> HasZColumns(rows[i]) && Z(Indicators[k]) in rows[i].values;
      Sum(Column(rows, Z(Indicators[k]))))
  }

  /** Summing the composite down the table is weighting the nine column
      sums: the composite column total is linear in the column totals. */
  lemma {:induction false} CompositesSum(rows: seq<Row>, w: seq<real>)
    requires |w| == |Indicators|
    requires forall i :: 0 <= i < |rows| ==> HasZColumns(rows[i])
    ensures Sum(Composites(rows, w)) == Dot(ZSums(rows), w)
  {
    if rows == [] {
      DotConstant(ZSums(rows), w, 0.0);
    } else {
      var rest := rows[1..];
      CompositesSum(rest, w);
      assert Composites(rows, w)[1..] == Composites(rest, w);
      ZSumsHead(rows);
      DotAdd(ZVector(rows[0]), ZSums(rest), ZSums(rows), w);
    }
  }

  /** Each column sum is the first row's value plus the sum of the rest. */
  lemma ZSumsHead(rows: seq<Row>)
    requires |rows| > 0
    requires forall i :: 0 <= i < |rows| ==> HasZColumns(rows[i])
    ensures forall k :: 0 <= k < |Indicators| ==> ZSums(rows)[k] == ZVector(rows[0])[k] + ZSums(rows[1..])[k]
  {
    forall k | 0 <= k < |Indicators|
      ensures ZSums(rows)[k] == ZVector(rows[0])[k] + ZSums(rows[1..])[k]
    {
      assert Column(rows, Z(Indicators[k]))[1..] == Column(rows[1..], Z(Indicators[k]));
    }
  }

  const AlpineFips: string := "06003"

  predicate NotAlpine(r: Row)
  {
    r.fips != Some(AlpineFips)
  }

  /** `df[df["fips"] != "06003"]`. A row without a code compares unequal and
      is kept. */
  function ExcludeAlpine(rows: seq<Row>): (r: seq<Row>)
    ensures forall x :: x in r <==> x in rows && x.fips != Some("06003")
  {
    Filter(rows, NotAlpine)
  }

  /** The exclusion keeps the other rows in their original order and drops
      exactly the Alpine rows. */
  lemma {:induction false} ExcludeAlpineSpec(a: seq<Row>, b: seq<Row>)
    ensures ExcludeAlpine(a + b) == ExcludeAlpine(a) + ExcludeAlpine(b)
    ensures |ExcludeAlpine(a)| == Count(a, NotAlpine)
    ensures (forall i :: 0 <= i < |a| ==> a[i].fips != Some("06003")) ==> ExcludeAlpine(a) == a
  {
    FilterAppend(a, b, NotAlpine);
    FilterLength(a, NotAlpine);
    if forall i :: 0 <= i < |a| ==> a[i].fips != Some("06003") {
      FilterAll(a, NotAlpine);
    }
  }

  /** `df` as the dashboards hold it. `columns` are the numeric columns
      every row carries; `hasGeoid` and `hasFips` say whether the GEOID and
      fips columns exist. */
  class Frame {
    var rows: seq<Row>
    var columns: set<Key>
    var hasGeoid: bool
    var hasFips: bool

    ghost predicate Valid()
      reads this
    {
      forall i :: 0 <= i < |rows| ==> rows[i].values.Keys == columns
    }

    /** The table as read from the CSV file. */
    constructor (rows0: seq<Row>, columns0: set<Key>, hasGeoid0: bool, hasFips0: bool)
      requires forall i :: 0 <= i < |rows0| ==> rows0[i].values.Keys == columns0
      ensures Valid()
      ensures rows == rows0 && columns == columns0
      ensures hasGeoid == hasGeoid0 && hasFips == hasFips0
    {
      rows := rows0;
      columns := columns0;
      hasGeoid := hasGeoid0;
      hasFips := hasFips0;
    }

    /** Overwrites the fips code of every row from `src`, row by row, calling
        the lookup for each county when `src` is the name lookup. */
    method ResolveFips(src: FipsSource, features: seq<Feature>)
      modifies this
      requires Valid()
      ensures Valid()
      ensures rows == ResolvedRows(old(rows), src, features)
      ensures columns == old(columns) && hasGeoid == old(hasGeoid) && hasFips
    {
      var out: seq<Row> := [];
      var i := 0;
      while i < |rows|
        invariant 0 <= i <= |rows|
        invariant |out| == i
        invariant forall j :: 0 <= j < i ==> out[j] == Resolved(rows[j], src, features)
        invariant unchanged(this)
      {
        var r := rows[i];
        var raw: Option<string>;
        match src {
          case GeoidColumn => raw := Some(r.geoid);
          case FipsColumn => raw := r.fips;
          case NameLookup => raw := FipsLookup(features, r.county);
        }
        assert r.(fips := PadRepairOpt(raw)) == Resolved(r, src, features);
        out := out + [r.(fips := PadRepairOpt(raw))];
        i := i + 1;
      }
      rows := out;
      hasFips := true;
    }

    /** The fips step of the nine-indicator dashboard: GEOID, else fips, else
        name lookup, each padded and repaired. */
    method ResolveFipsCa(features: seq<Feature>)
      modifies this
      requires Valid()
      ensures Valid()
      ensures rows == ResolvedRows(old(rows), SourceCa(old(hasGeoid), old(hasFips)), features)
      ensures columns == old(columns) && hasGeoid == old(hasGeoid) && hasFips
    {
      ResolveFips(SourceCa(hasGeoid, hasFips), features);
    }

    /** The fips step of the six-indicator dashboard: fips, else name lookup,
        each padded and repaired. */
    method ResolveFipsCali(features: seq<Feature>)
      modifies this
      requires Valid()
      ensures Valid()
      ensures rows == ResolvedRows(old(rows), SourceCali(old(hasFips)), features)
      ensures columns == old(columns) && hasGeoid == old(hasGeoid) && hasFips
    {
      ResolveFips(SourceCali(hasFips), features);
    }

    /** `df[key] = vals`. */
    method SetColumn(key: Key, vals: seq<real>)
      modifies this
      requires Valid() && |vals| == |rows|
      ensures Valid()
      ensures rows == WithColumn(old(rows), key, vals)
      ensures columns == old(columns) + {key}
      ensures hasGeoid == old(hasGeoid) && hasFips == old(hasFips)
    {
      rows := WithColumn(rows, key, vals);
      columns := columns + {key};
    }

    /** One z-score loop: for every indicator of `cols` that is a column,
        sets `Z_<col>` to the column standardised by its mean and the given
        standard deviation, negated when the indicator is in `negated`; an
        absent indicator is skipped. No other value changes. */
    method AddZScores(cols: seq<string>, negated: set<string>, stds: map<string, real>)
      modifies this
      requires Valid() && |rows| >= 2
      requires forall c :: c in cols && Raw(c) in columns ==>
        c in stds && stds[c] > 0.0 && IsSampleStd(Column(rows, Raw(c)), stds[c])
      ensures Valid() && columns == old(columns) + ZKeys(cols, old(columns))
      ensures Extends(old(rows), old(columns), rows, ZKeys(cols, old(columns)))
      ensures forall c :: c in cols && Raw(c) in old(columns) ==>
        Column(rows, Z(c)) == ZScores(Column(old(rows), Raw(c)), stds[c], c in negated)
      ensures hasGeoid == old(hasGeoid) && hasFips == old(hasFips)
    {
      ghost var orig := rows;
      ghost var cols0 := columns;
      ghost var target := map c | c in cols && Raw(c) in columns :: ZScores(Column(rows, Raw(c)), stds[c], c in negated);
      StandardisedStart(target);
      var k := 0;
      while k < |cols|
        invariant 0 <= k <= |cols|
        invariant Standardised(orig, cols0, cols[..k], target)
        invariant hasGeoid == old(hasGeoid) && hasFips == old(hasFips)
      {
        assert cols[..k + 1] == cols[..k] + [cols[k]];
        StandardiseStep(cols[k], negated, stds, orig, cols0, cols[..k], target);
        k := k + 1;
      }
      assert cols[..k] == cols;
      StandardisedEnd(orig, cols0, cols, negated, stds, target);
    }

    lemma StandardisedStart(target: map<string, seq<real>>)
      requires Valid()
      ensures Standardised(rows, columns, [], target)
    {
      assert ZKeys([], columns) == {};
    }

    /** After the loop every present indicator's standardised column holds
        its target, the z-scores of the original column. */
    lemma StandardisedEnd(orig: seq<Row>, cols0: set<Key>, cols: seq<string>, negated: set<string>,
                          stds: map<string, real>, target: map<string, seq<real>>)
      requires Standardised(orig, cols0, cols, target) && |orig| > 0
      requires forall c :: c in cols && Raw(c) in cols0 ==> c in stds && stds[c] != 0.0
      requires target == map c | c in cols && Raw(c) in cols0 :: ZScores(Column(orig, Raw(c)), stds[c], c in negated)
      ensures Extends(orig, cols0, rows, ZKeys(cols, cols0))
      ensures forall c :: c in cols && Raw(c) in cols0 ==>
        Column(rows, Z(c)) == ZScores(Column(orig, Raw(c)), stds[c], c in negated)
    {
      forall c | c in cols && Raw(c) in cols0
        ensures Column(rows, Z(c)) == ZScores(Column(orig, Raw(c)), stds[c], c in negated)
      {
        assert Column(rows, Z(c)) == target[c];
      }
    }

    /** The state after the z-score loop has handled `done`: only the
        standardised columns of `done` are added, each holding its target. */
    ghost predicate Standardised(orig: seq<Row>, cols0: set<Key>, done: seq<string>, target: map<string, seq<real>>)
      reads this
    {
      Valid() && |rows| == |orig|
      && (forall i :: 0 <= i < |orig| ==> orig[i].values.Keys == cols0)
      && columns == cols0 + ZKeys(done, cols0)
      && (forall i :: 0 <= i < |rows| ==> rows[i] == orig[i].(values := rows[i].values))
      && (forall i, key :: 0 <= i < |rows| && key in cols0 && key !in ZKeys(done, cols0) ==>
            rows[i].values[key] == orig[i].values[key])
      && (forall c, i :: c in done && Raw(c) in cols0 && c in target && 0 <= i < |rows| && i < |target[c]| ==>
            rows[i].values[Z(c)] == target[c][i])
    }

    /** One pass of the z-score loop body: `df["Z_" + c] = ...` when `c` is a
        column, nothing otherwise. */
    method StandardiseStep(c: string, negated: set<string>, stds: map<string, real>, ghost orig: seq<Row>,
                           ghost cols0: set<Key>, ghost done: seq<string>, ghost target: map<string, seq<real>>)
      modifies this
      requires Standardised(orig, cols0, done, target)
      requires |orig| > 0
      requires Raw(c) in cols0 ==>
        (c in stds && stds[c] != 0.0 && c in target
         && target[c] == ZScores(Column(orig, Raw(c)), stds[c], c in negated))
      ensures Standardised(orig, cols0, done + [c], target)
      ensures hasGeoid == old(hasGeoid) && hasFips == old(hasFips)
    {
      if Raw(c) in columns {
        assert Raw(c) in cols0;
        assert Column(rows, Raw(c)) == Column(orig, Raw(c));
        var z := ZScores(Column(rows, Raw(c)), stds[c], c in negated);
        SetColumn(Z(c), z);
        assert ZKeys(done + [c], cols0) == ZKeys(done, cols0) + {Z(c)};
      } else {
        assert ZKeys(done + [c], cols0) == ZKeys(done, cols0);
      }
    }

    /** `UOI_custom`: the weighted sum of the nine standardised columns,
        added as a column. */
    method AddComposite(w: seq<real>)
      modifies this
      requires Valid() && |w| == |Indicators|
      requires forall k :: 0 <= k < |Indicators| ==> Z(Indicators[k]) in columns
      ensures Valid()
      ensures rows == WithColumn(old(rows), Composite, Composites(old(rows), w))
      ensures columns == old(columns) + {Composite}
      ensures hasGeoid == old(hasGeoid) && hasFips == old(hasFips)
    {
      SetColumn(Composite, Composites(rows, w));
    }

    /** `df = df[df["fips"] != "06003"]`. */
    method DropAlpine()
      modifies this
      requires Valid()
      ensures Valid()
      ensures rows == ExcludeAlpine(old(rows))
      ensures columns == old(columns) && hasGeoid == old(hasGeoid) && hasFips == old(hasFips)
    {
      rows := ExcludeAlpine(rows);
    }
  }

  predicate InRegion(r: Row, fipsList: seq<string>)
  {
    r.fips.Some? && r.fips.value in fipsList
  }

  /** The rows of a region: `df[df["fips"].isin(fips_list)]`. Every region
      row is kept, as often as it occurs. */
  function RegionRows(rows: seq<Row>, fipsList: seq<string>): (r: seq<Row>)
    ensures forall x :: x in r <==> x in rows && InRegion(x, fipsList)
    ensures forall i :: 0 <= i < |r| ==> r[i] in rows
    ensures |r| == Count(rows, RegionTest(fipsList))
  {
    FilterLength(rows, RegionTest(fipsList));
    Filter(rows, RegionTest(fipsList))
  }

  /** The region's rows keep their order in the table: the selection
      commutes with concatenation and keeps a table lying wholly in the
      region as it is. */
  lemma {:induction false} RegionRowsOrder(a: seq<Row>, b: seq<Row>, fipsList: seq<string>)
    ensures RegionRows(a + b, fipsList) == RegionRows(a, fipsList) + RegionRows(b, fipsList)
    ensures (forall i :: 0 <= i < |a| ==> InRegion(a[i], fipsList)) ==> RegionRows(a, fipsList) == a
  {
    var p := RegionTest(fipsList);
    FilterAppend(a, b, p);
    if forall i :: 0 <= i < |a| ==> InRegion(a[i], fipsList) {
      FilterAll(a, p);
    }
  }

  function RegionTest(fipsList: seq<string>): Row -> bool
  {
    (x: Row) => InRegion(x, fipsList)
  }

  /** The indicator's values over the region's rows, one per region row,
      in table order. */
  function RegionColumn(rows: seq<Row>, fipsList: seq<string>, indicator: Key): (c: seq<real>)
    requires forall r :: r in rows ==> indicator in r.values
    ensures |c| == Count(rows, RegionTest(fipsList))
    ensures forall i :: 0 <= i < |c| ==> c[i] == RegionRows(rows, fipsList)[i].values[indicator]
  {
    var region := RegionRows(rows, fipsList);
    assert forall i :: 0 <= i < |region| ==> region[i] in rows;
    Column(region, indicator)
  }

  /** `region_mean`: the mean of the indicator over the region's rows; None
      (pandas' NaN) when no row belongs to the region, else the indicator's
      total over the region's rows divided by their number. */
  function RegionMean(rows: seq<Row>, fipsList: seq<string>, indicator: Key): (m: Option<real>)
    requires forall r :: r in rows ==> indicator in r.values
    ensures m.None? <==> forall i :: 0 <= i < |rows| ==> !InRegion(rows[i], fipsList)
    ensures m.Some? ==>
      m.value == Sum(RegionColumn(rows, fipsList, indicator)) / (Count(rows, RegionTest(fipsList)) as real)
  {
    var col := RegionColumn(rows, fipsList, indicator);
    if col == [] then
      var region := RegionRows(rows, fipsList);
      assert region == [];
      assert forall i :: 0 <= i < |rows| ==> rows[i] in rows;
      None
    else
      var region := RegionRows(rows, fipsList);
      assert region[0] in region;
      Some(Mean(col))
  }

  /** A worked case: two region rows with values 1 and 3 around a row
      outside the region have mean 2. */
  lemma RegionMeanExample(a: Row, b: Row, c: Row, k: Key)
    requires a.fips == Some("06001") && b.fips == None && c.fips == Some("06003")
    requires a.values == map[k := 1.0] && b.values == map[k := 5.0] && c.values == map[k := 3.0]
    ensures RegionMean([a, b, c], ["06001", "06003"], k) == Some(2.0)
  {
    var rows := [a, b, c];
    var l := ["06001", "06003"];
    var p := RegionTest(l);
    assert l[0] == "06001" && l[1] == "06003";
    assert p(a) && !p(b) && p(c);
    assert rows[1..] == [b, c] && rows[1..][1..] == [c] && rows[1..][1..][1..] == [];
    assert Filter([c], p) == [c];
    assert Filter([b, c], p) == [c];
    assert Filter(rows, p) == [a, c];
    assert RegionRows(rows, l) == [a, c];
    assert Count(rows, p) == 2;
    assert RegionColumn(rows, l, k) == [1.0, 3.0];
    assert Sum([1.0, 3.0]) == 4.0 by {
      assert [1.0, 3.0][1..] == [3.0];
      assert [3.0][1..] == [];
    }
  }

  lemma {:induction false} FilterNone<T(!new)>(s: seq<T>, p: T -> bool)
    requires forall i :: 0 <= i < |s| ==> !p(s[i])
    ensures Filter(s, p) == []
  {
    if s != [] {
      FilterNone(s[1..], p);
    }
  }

  /** Rows outside the region are not among its rows, wherever they stand
      in the table. */
  lemma {:induction false} RegionRowsIgnoresOthers(a: seq<Row>, extra: seq<Row>, b: seq<Row>, fipsList: seq<string>)
    requires forall i :: 0 <= i < |extra| ==> !InRegion(extra[i], fipsList)
    ensures RegionRows(a + extra + b, fipsList) == RegionRows(a + b, fipsList)
  {
    var p := RegionTest(fipsList);
    forall i | 0 <= i < |extra| ensures !p(extra[i]) {
    }
    FilterNone(extra, p);
    calc {
      Filter(a + extra + b, p);
      == { FilterAppend(a + extra, b, p); }
      Filter(a + extra, p) + Filter(b, p);
      == { FilterAppend(a, extra, p); }
      Filter(a, p) + Filter(extra, p) + Filter(b, p);
      == { assert Filter(a, p) + [] == Filter(a, p); }
      Filter(a, p) + Filter(b, p);
      == { FilterAppend(a, b, p); }
      Filter(a + b, p);
    }
  }

  /** Rows outside the region have no effect on its mean. */
  lemma {:induction false} RegionMeanIgnoresOthers(a: seq<Row>, extra: seq<Row>, b: seq<Row>,
                                                   fipsList: seq<string>, indicator: Key)
    requires forall r :: r in a + extra + b ==> indicator in r.values
    requires forall i :: 0 <= i < |extra| ==> !InRegion(extra[i], fipsList)
    ensures RegionMean(a + extra + b, fipsList, indicator) == RegionMean(a + b, fipsList, indicator)
  {
    RegionRowsIgnoresOthers(a, extra, b, fipsList);
  }

  /** Bounds on the region's values bound its mean. */
  lemma {:induction false} RegionMeanBounds(rows: seq<Row>, fipsList: seq<string>, indicator: Key, lo: real, hi: real)
    requires forall r :: r in rows ==> indicator in r.values
    requires forall i :: 0 <= i < |rows| && InRegion(rows[i], fipsList) ==>
      lo <= rows[i].values[indicator] <= hi
    ensures RegionMean(rows, fipsList, indicator).Some? ==>
      lo <= RegionMean(rows, fipsList, indicator).value <= hi
  {
    var region := RegionRows(rows, fipsList);
    if region != [] {
      var col := Column(region, indicator);
      forall j | 0 <= j < |col| ensures lo <= col[j] <= hi {
        assert region[j] in region;
      }
      MeanBounds(col, lo, hi);
    }
  }
}
