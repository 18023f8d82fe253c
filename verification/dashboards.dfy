/** The two dashboards' table pipelines, in their scripts' order: resolve
    the fips codes, resolve the weights (a zero custom total stops the
    script), add the standardised columns, add `UOI_custom` and, in the
    nine-indicator dashboard, drop Alpine County. The boundary features, the
    table and the slider values arrive as parameters. */
module Dashboards {
  import opened Wrappers
  import opened Seqs
  import opened Fips
  import opened Weights
  import opened Scores
  import opened Table

  /** Every indicator the composite reads is a column of the table. */
  predicate HasIndicators(columns: set<Key>)
  {
    forall c :: c in Indicators ==> Raw(c) in columns
  }

  /** A table of at least two counties holding every indicator, with
      `stds[c]` the sample standard deviation of indicator `c`. */
  predicate SampleStds(rows: seq<Row>, columns: set<Key>, stds: map<string, real>)
  {
    |rows| >= 2 && HasIndicators(columns)
    && (forall i :: 0 <= i < |rows| ==> rows[i].values.Keys == columns)
    && forall c :: c in Indicators ==> c in stds && stds[c] > 0.0 && IsSampleStd(Column(rows, Raw(c)), stds[c])
  }

  /** The nine standardised columns. */
  const ZColumns: set<Key> := set c | c in Indicators :: Z(c)

  /** Setting `added1` and then `added2` sets their union. */
  lemma ExtendsTrans(before: seq<Row>, columns: set<Key>, mid: seq<Row>, added1: set<Key>,
                     after: seq<Row>, added2: set<Key>)
    requires Extends(before, columns, mid, added1)
    requires Extends(mid, columns + added1, after, added2)
    ensures Extends(before, columns, after, added1 + added2)
  {
    assert columns + added1 + added2 == columns + (added1 + added2);
  }

  /** One pass of a z-score loop over `cols`: the standardised columns of
      the indicators present are set, each to the z-scores of its raw
      column, and nothing else changes. */
  predicate ZPass(before: seq<Row>, columns: set<Key>, after: seq<Row>, cols: seq<string>,
                  negated: set<string>, stds: map<string, real>)
  {
    |before| > 0 && Extends(before, columns, after, ZKeys(cols, columns))
    && (forall c :: c in cols && Raw(c) in columns && c in stds && stds[c] != 0.0 ==>
          Column(after, Z(c)) == ZScores(Column(before, Raw(c)), stds[c], c in negated))
  }

  /** `after` is `before` with the nine standardised columns set: each holds
      the z-scores of its raw column over the whole table, negated for the
      four indicators where more is worse, and nothing else changes. */
  predicate ZStaged(before: seq<Row>, columns: set<Key>, after: seq<Row>, stds: map<string, real>)
  {
    SampleStds(before, columns, stds) && Extends(before, columns, after, ZColumns)
    && (forall c :: c in Indicators ==>
          Column(after, Z(c)) == ZScores(Column(before, Raw(c)), stds[c], c in Negated))
  }

  /** `scored` is `before` scored with the weights `w`: `staged` is `before`
      standardised, and `scored` is `staged` with `UOI_custom` set to every
      row's weighted sum of its nine standardised values. */
  predicate Scored(before: seq<Row>, columns: set<Key>, staged: seq<Row>, scored: seq<Row>,
                   w: seq<real>, stds: map<string, real>)
  {
    ZStaged(before, columns, staged, stds) && |w| == |Indicators|
    && (forall i :: 0 <= i < |staged| ==> HasZColumns(staged[i]))
    && scored == WithColumn(staged, Composite, Composites(staged, w))
  }

  /** With every indicator present, a loop over the nine indicators adds
      exactly the nine standardised columns. */
  lemma ZKeysOfIndicators(columns: set<Key>)
    requires HasIndicators(columns)
    ensures ZKeys(Indicators, columns) == ZColumns
  {
  }

  /** The single nine-indicator loop yields the standardised table. */
  lemma NinePassStaged(before: seq<Row>, columns: set<Key>, after: seq<Row>, stds: map<string, real>)
    requires SampleStds(before, columns, stds)
    requires ZPass(before, columns, after, Indicators, Negated, stds)
    ensures ZStaged(before, columns, after, stds)
  {
    ZKeysOfIndicators(columns);
  }

  /** The first loop of the six-indicator dashboard leaves every raw column
      as it was, so the standard deviations still describe the table. */
  lemma FirstPassKeepsStds(before: seq<Row>, columns: set<Key>, after: seq<Row>, stds: map<string, real>)
    requires SampleStds(before, columns, stds)
    requires ZPass(before, columns, after, FirstSix, NegatedOfFirstSix, stds)
    ensures SampleStds(after, columns + ZKeys(FirstSix, columns), stds)
  {
    forall c | c in Indicators ensures Column(after, Raw(c)) == Column(before, Raw(c)) {
      assert Raw(c) !in ZKeys(FirstSix, columns);
    }
  }

  /** The six-indicator dashboard's two loops, six indicators then three,
      yield the same standardised table as one loop over all nine. */
  lemma SplitPassStaged(before: seq<Row>, columns: set<Key>, mid: seq<Row>, after: seq<Row>, stds: map<string, real>)
    requires SampleStds(before, columns, stds)
    requires ZPass(before, columns, mid, FirstSix, NegatedOfFirstSix, stds)
    requires ZPass(mid, columns + ZKeys(FirstSix, columns), after, LastThree, NegatedOfLastThree, stds)
    ensures ZStaged(before, columns, after, stds)
  {
    SplitKeys(columns);
    ExtendsTrans(before, columns, mid, ZKeys(FirstSix, columns),
                 after, ZKeys(LastThree, columns + ZKeys(FirstSix, columns)));
    SplitFirstColumns(before, columns, mid, after, stds);
    SplitLastColumns(before, columns, mid, after, stds);
    SplitLoopsAgree();
  }

  /** With every indicator present, the two loops together add exactly the
      nine standardised columns. */
  lemma SplitKeys(columns: set<Key>)
    requires HasIndicators(columns)
    ensures ZKeys(FirstSix, columns) + ZKeys(LastThree, columns + ZKeys(FirstSix, columns)) == ZColumns
  {
    SplitLoopsAgree();
  }

  /** The second loop keeps the first loop's standardised columns. */
  lemma SplitFirstColumns(before: seq<Row>, columns: set<Key>, mid: seq<Row>, after: seq<Row>, stds: map<string, real>)
    requires SampleStds(before, columns, stds)
    requires ZPass(before, columns, mid, FirstSix, NegatedOfFirstSix, stds)
    requires ZPass(mid, columns + ZKeys(FirstSix, columns), after, LastThree, NegatedOfLastThree, stds)
    ensures forall c :: c in FirstSix ==>
      Column(after, Z(c)) == ZScores(Column(before, Raw(c)), stds[c], c in Negated)
  {
    forall c | c in FirstSix
      ensures Column(after, Z(c)) == ZScores(Column(before, Raw(c)), stds[c], c in Negated)
    {
      SplitFirstColumn(before, columns, mid, after, stds, c);
    }
  }

  lemma SplitFirstColumn(before: seq<Row>, columns: set<Key>, mid: seq<Row>, after: seq<Row>,
                         stds: map<string, real>, c: string)
    requires SampleStds(before, columns, stds)
    requires ZPass(before, columns, mid, FirstSix, NegatedOfFirstSix, stds)
    requires ZPass(mid, columns + ZKeys(FirstSix, columns), after, LastThree, NegatedOfLastThree, stds)
    requires c in FirstSix
    ensures Column(after, Z(c)) == ZScores(Column(before, Raw(c)), stds[c], c in Negated)
  {
    SplitLoopsAgree();
    var mids := columns + ZKeys(FirstSix, columns);
    assert c in Indicators && c !in LastThree;
    ColumnKept(mid, mids, after, ZKeys(LastThree, mids), Z(c));
  }

  /** The second loop standardises the raw columns the first left alone. */
  lemma SplitLastColumns(before: seq<Row>, columns: set<Key>, mid: seq<Row>, after: seq<Row>, stds: map<string, real>)
    requires SampleStds(before, columns, stds)
    requires ZPass(before, columns, mid, FirstSix, NegatedOfFirstSix, stds)
    requires ZPass(mid, columns + ZKeys(FirstSix, columns), after, LastThree, NegatedOfLastThree, stds)
    ensures forall c :: c in LastThree ==>
      Column(after, Z(c)) == ZScores(Column(before, Raw(c)), stds[c], c in Negated)
  {
    forall c | c in LastThree
      ensures Column(after, Z(c)) == ZScores(Column(before, Raw(c)), stds[c], c in Negated)
    {
      SplitLastColumn(before, columns, mid, after, stds, c);
    }
  }

  lemma SplitLastColumn(before: seq<Row>, columns: set<Key>, mid: seq<Row>, after: seq<Row>,
                        stds: map<string, real>, c: string)
    requires SampleStds(before, columns, stds)
    requires ZPass(before, columns, mid, FirstSix, NegatedOfFirstSix, stds)
    requires ZPass(mid, columns + ZKeys(FirstSix, columns), after, LastThree, NegatedOfLastThree, stds)
    requires c in LastThree
    ensures Column(after, Z(c)) == ZScores(Column(before, Raw(c)), stds[c], c in Negated)
  {
    SplitLoopsAgree();
    assert c in Indicators;
    ColumnKept(before, columns, mid, ZKeys(FirstSix, columns), Raw(c));
  }

  /** A column outside the ones set keeps its values. */
  lemma ColumnKept(before: seq<Row>, columns: set<Key>, after: seq<Row>, added: set<Key>, key: Key)
    requires Extends(before, columns, after, added) && key in columns && key !in added
    ensures forall i :: 0 <= i < |after| ==> key in after[i].values
    ensures Column(after, key) == Column(before, key)
  {
  }

  /** Standardised rows carry the nine columns the composite reads. */
  lemma StagedHasZColumns(before: seq<Row>, columns: set<Key>, mid: seq<Row>, stds: map<string, real>)
    requires ZStaged(before, columns, mid, stds)
    ensures forall i :: 0 <= i < |mid| ==> HasZColumns(mid[i])
    ensures forall k :: 0 <= k < |Indicators| ==> Z(Indicators[k]) in columns + ZColumns
  {
    forall k | 0 <= k < |Indicators| ensures Z(Indicators[k]) in ZColumns {
      assert Indicators[k] in Indicators;
    }
  }

  /** The standard deviations of a loop's indicators, in the form the loop
      needs them. */
  lemma PassStds(rows: seq<Row>, columns: set<Key>, stds: map<string, real>, cols: seq<string>)
    requires SampleStds(rows, columns, stds)
    requires forall c :: c in cols ==> c in Indicators
    ensures forall c :: c in cols && Raw(c) in columns ==>
      c in stds && stds[c] > 0.0 && IsSampleStd(Column(rows, Raw(c)), stds[c])
  {
  }

  /** The nine-indicator dashboard's z-score loop over all nine indicators. */
  method StandardiseNine(df: Frame, stds: map<string, real>)
    modifies df
    requires df.Valid() && SampleStds(df.rows, df.columns, stds)
    ensures df.Valid() && df.columns == old(df.columns) + ZColumns
    ensures ZStaged(old(df.rows), old(df.columns), df.rows, stds)
    ensures df.hasGeoid == old(df.hasGeoid) && df.hasFips == old(df.hasFips)
  {
    ghost var rows0 := df.rows;
    ghost var cols0 := df.columns;
    df.AddZScores(Indicators, Negated, stds);
    assert ZPass(rows0, cols0, df.rows, Indicators, Negated, stds);
    NinePassStaged(rows0, cols0, df.rows, stds);
  }

  /** The six-indicator dashboard's two z-score loops: the first six
      indicators, then the last three. */
  method StandardiseSplit(df: Frame, stds: map<string, real>)
    modifies df
    requires df.Valid() && SampleStds(df.rows, df.columns, stds)
    ensures df.Valid() && df.columns == old(df.columns) + ZColumns
    ensures ZStaged(old(df.rows), old(df.columns), df.rows, stds)
    ensures df.hasGeoid == old(df.hasGeoid) && df.hasFips == old(df.hasFips)
  {
    ghost var rows0 := df.rows;
    ghost var cols0 := df.columns;
    SplitLoopsAgree();
    PassStds(rows0, cols0, stds, FirstSix);
    df.AddZScores(FirstSix, NegatedOfFirstSix, stds);
    assert ZPass(rows0, cols0, df.rows, FirstSix, NegatedOfFirstSix, stds);
    ghost var rows1 := df.rows;
    FirstPassKeepsStds(rows0, cols0, rows1, stds);
    PassStds(rows1, df.columns, stds, LastThree);
    df.AddZScores(LastThree, NegatedOfLastThree, stds);
    assert ZPass(rows1, cols0 + ZKeys(FirstSix, cols0), df.rows, LastThree, NegatedOfLastThree, stds);
    SplitPassStaged(rows0, cols0, rows1, df.rows, stds);
    SplitKeys(cols0);
  }

  /** The nine-indicator scoring: its z-score loop, then the composite. */
  method ScoreNine(df: Frame, w: seq<real>, stds: map<string, real>) returns (ghost staged: seq<Row>)
    modifies df
    requires df.Valid() && |w| == |Indicators|
    requires SampleStds(df.rows, df.columns, stds)
    ensures df.Valid() && df.columns == old(df.columns) + ZColumns + {Composite}
    ensures Scored(old(df.rows), old(df.columns), staged, df.rows, w, stds)
    ensures df.hasGeoid == old(df.hasGeoid) && df.hasFips == old(df.hasFips)
  {
    StandardiseNine(df, stds);
    staged := df.rows;
    StagedHasZColumns(old(df.rows), old(df.columns), staged, stds);
    df.AddComposite(w);
  }

  /** The six-indicator scoring: its two z-score loops, then the composite. */
  method ScoreSplit(df: Frame, w: seq<real>, stds: map<string, real>) returns (ghost staged: seq<Row>)
    modifies df
    requires df.Valid() && |w| == |Indicators|
    requires SampleStds(df.rows, df.columns, stds)
    ensures df.Valid() && df.columns == old(df.columns) + ZColumns + {Composite}
    ensures Scored(old(df.rows), old(df.columns), staged, df.rows, w, stds)
    ensures df.hasGeoid == old(df.hasGeoid) && df.hasFips == old(df.hasFips)
  {
    StandardiseSplit(df, stds);
    staged := df.rows;
    StagedHasZColumns(old(df.rows), old(df.columns), staged, stds);
    df.AddComposite(w);
  }

  /** Resolving the fips codes changes no numeric value, so the standard
      deviations still describe the resolved table. */
  lemma ResolvedKeepsStds(rows: seq<Row>, columns: set<Key>, src: FipsSource, features: seq<Feature>,
                          stds: map<string, real>)
    requires SampleStds(rows, columns, stds)
    ensures SampleStds(ResolvedRows(rows, src, features), columns, stds)
  {
    forall c | c in Indicators
      ensures Column(ResolvedRows(rows, src, features), Raw(c)) == Column(rows, Raw(c))
    {
      ColumnResolved(rows, src, features, Raw(c));
    }
  }

  /** The nine-indicator dashboard (app_ca.py) from the table read to the
      table plotted. A zero custom weight total stops it after the fips
      step. Otherwise `scored` is the resolved table scored over every
      county, Alpine included, and the frame keeps `scored` without Alpine.
      The name lookup searches only the Californian features of `geojson`. */
  method RunCa(df: Frame, geojson: seq<Feature>, preset: string, sliders: seq<real>, stds: map<string, real>)
    returns (ok: bool, ghost staged: seq<Row>, ghost scored: seq<Row>)
    modifies df
    requires df.Valid() && |sliders| == NumWeights
    requires SampleStds(df.rows, df.columns, stds)
    ensures df.Valid()
    ensures ok <==> Resolve(preset, sliders).Some?
    ensures !ok ==> (df.columns == old(df.columns)
      && df.rows == ResolvedRows(old(df.rows), SourceCa(old(df.hasGeoid), old(df.hasFips)), StateFeatures(geojson)))
    ensures ok ==> Scored(ResolvedRows(old(df.rows), SourceCa(old(df.hasGeoid), old(df.hasFips)), StateFeatures(geojson)),
                          old(df.columns), staged, scored, Resolve(preset, sliders).value, stds)
    ensures ok ==> (df.rows == ExcludeAlpine(scored) && df.columns == old(df.columns) + ZColumns + {Composite})
  {
    ghost var src := SourceCa(df.hasGeoid, df.hasFips);
    ghost var rows0 := df.rows;
    var features := StateFeatures(geojson);
    df.ResolveFipsCa(features);
    ResolvedKeepsStds(rows0, df.columns, src, features, stds);
    var w := Resolve(preset, sliders);
    if w.None? {
      return false, df.rows, df.rows;
    }
    staged := ScoreNine(df, w.value, stds);
    scored := df.rows;
    df.DropAlpine();
    ok := true;
  }

  /** The six-indicator dashboard (src/cali.py) from the table read to the
      table plotted: the same steps with its own fips precedence, its two
      z-score loops and no Alpine exclusion. The name lookup searches only
      the Californian features of `geojson`. */
  method RunCali(df: Frame, geojson: seq<Feature>, preset: string, sliders: seq<real>, stds: map<string, real>)
    returns (ok: bool, ghost staged: seq<Row>)
    modifies df
    requires df.Valid() && |sliders| == NumWeights
    requires SampleStds(df.rows, df.columns, stds)
    ensures df.Valid()
    ensures ok <==> Resolve(preset, sliders).Some?
    ensures !ok ==> (df.columns == old(df.columns)
      && df.rows == ResolvedRows(old(df.rows), SourceCali(old(df.hasFips)), StateFeatures(geojson)))
    ensures ok ==> (df.columns == old(df.columns) + ZColumns + {Composite}
      && Scored(ResolvedRows(old(df.rows), SourceCali(old(df.hasFips)), StateFeatures(geojson)),
                old(df.columns), staged, df.rows, Resolve(preset, sliders).value, stds))
  {
    ghost var src := SourceCali(df.hasFips);
    ghost var rows0 := df.rows;
    var features := StateFeatures(geojson);
    df.ResolveFipsCali(features);
    ResolvedKeepsStds(rows0, df.columns, src, features, stds);
    var w := Resolve(preset, sliders);
    if w.None? {
      return false, df.rows;
    }
    staged := ScoreSplit(df, w.value, stds);
    ok := true;
  }

  /** What the standardised table says about one indicator's columns. */
  lemma StagedColumn(before: seq<Row>, columns: set<Key>, after: seq<Row>, stds: map<string, real>, c: string)
    requires ZStaged(before, columns, after, stds) && c in Indicators
    ensures |before| >= 2 && |after| == |before|
    ensures forall i :: 0 <= i < |before| ==> Raw(c) in before[i].values
    ensures forall i :: 0 <= i < |after| ==> Z(c) in after[i].values
    ensures c in stds && IsSampleStd(Column(before, Raw(c)), stds[c])
    ensures Column(after, Z(c)) == ZScores(Column(before, Raw(c)), stds[c], c in Negated)
  {
  }

  /** The standardised table is determined by its input and the standard
      deviations, whichever loops built it. */
  lemma ZStagedUnique(before: seq<Row>, columns: set<Key>, a: seq<Row>, b: seq<Row>, stds: map<string, real>)
    requires ZStaged(before, columns, a, stds) && ZStaged(before, columns, b, stds)
    ensures a == b
  {
    forall i | 0 <= i < |a| ensures a[i] == b[i] {
      StagedZValuesAgree(before, columns, a, b, stds, i);
      RowsAgree(a[i], b[i], before[i], columns);
    }
  }

  /** Two standardised versions of a table agree on every standardised value. */
  lemma StagedZValuesAgree(before: seq<Row>, columns: set<Key>, a: seq<Row>, b: seq<Row>,
                           stds: map<string, real>, i: nat)
    requires ZStaged(before, columns, a, stds) && ZStaged(before, columns, b, stds)
    requires i < |a|
    ensures forall c :: c in Indicators ==> Z(c) in a[i].values && a[i].values[Z(c)] == b[i].values[Z(c)]
  {
    forall c | c in Indicators ensures Z(c) in a[i].values && a[i].values[Z(c)] == b[i].values[Z(c)] {
      StagedColumn(before, columns, a, stds, c);
      StagedColumn(before, columns, b, stds, c);
      assert Column(a, Z(c))[i] == Column(b, Z(c))[i];
    }
  }

  /** Two rows built from the same row with the same columns, the same
      standardised values and every other input value kept are equal. */
  lemma RowsAgree(x: Row, y: Row, base: Row, columns: set<Key>)
    requires x == base.(values := x.values) && y == base.(values := y.values)
    requires x.values.Keys == columns + ZColumns && y.values.Keys == columns + ZColumns
    requires forall key :: key in columns && key !in ZColumns ==>
      key in base.values && x.values[key] == base.values[key] && y.values[key] == base.values[key]
    requires forall c :: c in Indicators ==> Z(c) in x.values && x.values[Z(c)] == y.values[Z(c)]
    ensures x == y
  {
    forall key | key in x.values ensures x.values[key] == y.values[key] {
      if key in ZColumns {
        var c :| c in Indicators && key == Z(c);
      }
    }
    assert x.values == y.values;
  }

  /** The scored table is determined by its input, its weights and the
      standard deviations: two scored versions of one table are equal. */
  lemma ScoredUnique(before: seq<Row>, columns: set<Key>, staged1: seq<Row>, scored1: seq<Row>,
                     staged2: seq<Row>, scored2: seq<Row>, w: seq<real>, stds: map<string, real>)
    requires Scored(before, columns, staged1, scored1, w, stds)
    requires Scored(before, columns, staged2, scored2, w, stds)
    ensures staged1 == staged2 && scored1 == scored2
  {
    ZStagedUnique(before, columns, staged1, staged2, stds);
  }

  /** The six- and nine-indicator dashboards compute the same scored table
      from a table without a GEOID column: the two fips steps pick the same
      source and the split loops standardise exactly as the single loop. */
  lemma DashboardsAgree(rows: seq<Row>, columns: set<Key>, hasFips: bool, features: seq<Feature>,
                        w: seq<real>, stds: map<string, real>,
                        stagedCa: seq<Row>, scoredCa: seq<Row>, stagedCali: seq<Row>, scoredCali: seq<Row>)
    requires Scored(ResolvedRows(rows, SourceCa(false, hasFips), features), columns, stagedCa, scoredCa, w, stds)
    requires Scored(ResolvedRows(rows, SourceCali(hasFips), features), columns, stagedCali, scoredCali, w, stds)
    ensures scoredCa == scoredCali
  {
    SourcesAgree(false, hasFips);
    ScoredUnique(ResolvedRows(rows, SourceCali(hasFips), features), columns,
                 stagedCa, scoredCa, stagedCali, scoredCali, w, stds);
  }

  /** What the scored table says about its standardised columns and its
      composite. */
  lemma ScoredColumns(before: seq<Row>, columns: set<Key>, staged: seq<Row>, scored: seq<Row>,
                      w: seq<real>, stds: map<string, real>)
    requires Scored(before, columns, staged, scored, w, stds)
    ensures |scored| == |staged| && |w| == |Indicators|
    ensures forall i :: 0 <= i < |scored| ==> HasZColumns(scored[i]) && Composite in scored[i].values
    ensures forall c :: c in Indicators ==> Column(scored, Z(c)) == Column(staged, Z(c))
    ensures Column(scored, Composite) == Composites(scored, w)
  {
    forall c | c in Indicators ensures Column(scored, Z(c)) == Column(staged, Z(c)) {
      StagedColumn(before, columns, staged, stds, c);
      ColumnWithColumn(staged, Composite, Composites(staged, w), Z(c));
    }
    CompositeColumnSet(staged, w, scored);
  }

  /** Setting `UOI_custom` keeps the nine values it is computed from, so the
      column set is the composite of the new rows too. */
  lemma CompositeColumnSet(staged: seq<Row>, w: seq<real>, scored: seq<Row>)
    requires |w| == |Indicators|
    requires forall i :: 0 <= i < |staged| ==> HasZColumns(staged[i])
    requires scored == WithColumn(staged, Composite, Composites(staged, w))
    ensures forall i :: 0 <= i < |scored| ==> HasZColumns(scored[i]) && Composite in scored[i].values
    ensures Column(scored, Composite) == Composites(scored, w)
  {
    var u := Composites(staged, w);
    forall i | 0 <= i < |scored| ensures HasZColumns(scored[i]) && ZVector(scored[i]) == ZVector(staged[i]) {
    }
    assert Composites(scored, w) == u;
    assert Column(scored, Composite) == u;
  }

  /** Every standardised column of the scored table has mean 0 and sample
      variance 1. */
  lemma ScoredColumnsStandard(before: seq<Row>, columns: set<Key>, staged: seq<Row>, scored: seq<Row>,
                              w: seq<real>, stds: map<string, real>, c: string)
    requires Scored(before, columns, staged, scored, w, stds) && c in Indicators
    ensures Mean(Column(scored, Z(c))) == 0.0
    ensures SampleVariance(Column(scored, Z(c))) == 1.0
  {
    ScoredColumns(before, columns, staged, scored, w, stds);
    StagedColumn(before, columns, staged, stds, c);
    StandardColumn(Column(before, Raw(c)), Column(scored, Z(c)), stds[c], c in Negated);
  }

  lemma StandardColumn(xs: seq<real>, zs: seq<real>, std: real, negate: bool)
    requires |xs| >= 2 && IsSampleStd(xs, std) && zs == ZScores(xs, std, negate)
    ensures |zs| >= 2 && Mean(zs) == 0.0 && SampleVariance(zs) == 1.0
  {
    ZScoresSumZero(xs, std, negate);
    ZScoresUnitVariance(xs, std, negate);
  }

  /** Standardising keeps the order of the counties on a positive indicator
      and reverses it on a negated one. */
  lemma ScoredColumnsOrder(before: seq<Row>, columns: set<Key>, staged: seq<Row>, scored: seq<Row>,
                           w: seq<real>, stds: map<string, real>, c: string, i: nat, j: nat)
    requires Scored(before, columns, staged, scored, w, stds) && c in Indicators
    requires i < |scored| && j < |scored|
    ensures c !in Negated ==>
      (scored[i].values[Z(c)] < scored[j].values[Z(c)] <==> before[i].values[Raw(c)] < before[j].values[Raw(c)])
    ensures c in Negated ==>
      (scored[i].values[Z(c)] < scored[j].values[Z(c)] <==> before[j].values[Raw(c)] < before[i].values[Raw(c)])
  {
    ScoredColumns(before, columns, staged, scored, w, stds);
    StagedColumn(before, columns, staged, stds, c);
    ZScoresOrder(Column(before, Raw(c)), stds[c], c in Negated, i, j);
    assert Column(scored, Z(c))[i] == scored[i].values[Z(c)];
    assert Column(scored, Z(c))[j] == scored[j].values[Z(c)];
  }

  /** Row `i`'s `UOI_custom` is the weighted sum of its nine standardised
      values. */
  lemma ScoredComposite(before: seq<Row>, columns: set<Key>, staged: seq<Row>, scored: seq<Row>,
                        w: seq<real>, stds: map<string, real>, i: nat)
    requires Scored(before, columns, staged, scored, w, stds) && i < |scored|
    ensures |w| == |Indicators| && HasZColumns(scored[i]) && Composite in scored[i].values
    ensures scored[i].values[Composite] == Uoi(ZVector(scored[i]), w)
    ensures scored[i].values[Composite] == Dot(ZVector(scored[i]), w)
  {
    ScoredColumns(before, columns, staged, scored, w, stds);
    CompositeAt(scored, w, i);
  }

  lemma CompositeAt(rows: seq<Row>, w: seq<real>, i: nat)
    requires |w| == |Indicators| && i < |rows|
    requires forall j :: 0 <= j < |rows| ==> HasZColumns(rows[j]) && Composite in rows[j].values
    requires Column(rows, Composite) == Composites(rows, w)
    ensures rows[i].values[Composite] == Uoi(ZVector(rows[i]), w)
    ensures rows[i].values[Composite] == Dot(ZVector(rows[i]), w)
  {
    assert Column(rows, Composite)[i] == Composites(rows, w)[i];
  }

  /** `UOI_custom` has mean 0 over the scored table, whatever the weights:
      every standardised column sums to zero and the composite is linear in
      them. The six-indicator map centres its colour scale on this mean. */
  lemma ScoredCompositeMeanZero(before: seq<Row>, columns: set<Key>, staged: seq<Row>, scored: seq<Row>,
                                w: seq<real>, stds: map<string, real>)
    requires Scored(before, columns, staged, scored, w, stds)
    ensures Mean(Column(scored, Composite)) == 0.0
  {
    ScoredColumns(before, columns, staged, scored, w, stds);
    forall k | 0 <= k < |Indicators| ensures ZSums(scored)[k] == 0.0 {
      var c := Indicators[k];
      StagedColumn(before, columns, staged, stds, c);
      ZScoresSumZero(Column(before, Raw(c)), stds[c], c in Negated);
    }
    CompositesMeanZero(scored, w);
  }

  /** When every standardised column sums to zero, so does the composite. */
  lemma CompositesMeanZero(rows: seq<Row>, w: seq<real>)
    requires |rows| > 0 && |w| == |Indicators|
    requires forall i :: 0 <= i < |rows| ==> HasZColumns(rows[i])
    requires forall k :: 0 <= k < |Indicators| ==> ZSums(rows)[k] == 0.0
    ensures Sum(Composites(rows, w)) == 0.0 && Mean(Composites(rows, w)) == 0.0
  {
    CompositesSum(rows, w);
    DotConstant(ZSums(rows), w, 0.0);
  }
}
