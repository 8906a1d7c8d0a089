/** The data the complexity charts are drawn from
    (components/complexity-chart.tsx:27-62): one bar per function with a
    shortened name, a four-bucket distribution with the empty buckets removed,
    and one scatter point per function. */
module ComplexityChart {
  import opened Extraction
  import opened ComplexityResults

  /** One bar of the function chart. */
  datatype BarDatum = BarDatum(name: string, complexity: int, lines: int)

  /** One point of the lines-versus-complexity scatter. */
  datatype ScatterDatum = ScatterDatum(name: string, lines: int, complexity: int)

  /** One slice of the distribution pie. */
  datatype Slice = Slice(name: string, value: nat, color: string)

  /** Names longer than this are cut for the bar labels. */
  const NameWidth := 12

  /** `name.length > 12 ? name.substring(0, 12) + "..." : name`. */
  function TruncateName(name: string): (shown: string)
    ensures |name| <= NameWidth ==> shown == name
    ensures |name| > NameWidth ==> |shown| == NameWidth + 3 && shown[..NameWidth] == name[..NameWidth] && shown[NameWidth..] == "..."
  {
    if |name| > NameWidth then name[..NameWidth] + "..." else name
  }

  /** Shortening a label again changes nothing. */
  lemma TruncateIdempotent(name: string)
    ensures TruncateName(TruncateName(name)) == TruncateName(name)
  {
    if |name| > NameWidth {
      var shown := TruncateName(name);
      assert shown[..NameWidth] + "..." == shown;
    }
  }

  /** `functionData`. */
  function FunctionData(functions: seq<FunctionRecord>): (bars: seq<BarDatum>)
    ensures |bars| == |functions|
    ensures forall i :: 0 <= i < |functions| ==>
      bars[i] == BarDatum(TruncateName(functions[i].name), functions[i].complexity, functions[i].lines)
  {
    seq(|functions|, i requires 0 <= i < |functions| =>
      BarDatum(TruncateName(functions[i].name), functions[i].complexity, functions[i].lines))
  }

  /** Every bar label is at most 15 characters long and begins with the first
      (up to 12) characters of its function's name. */
  lemma BarLabels(functions: seq<FunctionRecord>)
    ensures forall i :: 0 <= i < |functions| ==>
      var name := functions[i].name;
      var shown := FunctionData(functions)[i].name;
      |shown| <= NameWidth + 3
      && (|name| <= NameWidth ==> shown == name)
      && (|name| > NameWidth ==> name[..NameWidth] <= shown)
  {
    forall i | 0 <= i < |functions|
      ensures var name := functions[i].name;
        var shown := FunctionData(functions)[i].name;
        |shown| <= NameWidth + 3
        && (|name| <= NameWidth ==> shown == name)
        && (|name| > NameWidth ==> name[..NameWidth] <= shown)
    {
      var name, shown := functions[i].name, FunctionData(functions)[i].name;
      if |name| > NameWidth {
        assert shown[..NameWidth] == name[..NameWidth];
      }
    }
  }

  /** `scatterData`. */
  function ScatterData(functions: seq<FunctionRecord>): (points: seq<ScatterDatum>)
    ensures |points| == |functions|
    ensures forall i :: 0 <= i < |functions| ==>
      points[i] == ScatterDatum(functions[i].name, functions[i].lines, functions[i].complexity)
  {
    seq(|functions|, i requires 0 <= i < |functions| =>
      ScatterDatum(functions[i].name, functions[i].lines, functions[i].complexity))
  }

  /** The bars and the scatter points describe the same functions in the same
      order; only the bar labels are shortened. */
  lemma BarsMatchScatter(functions: seq<FunctionRecord>)
    ensures var bars, points := FunctionData(functions), ScatterData(functions);
      |bars| == |points|
      && forall i :: 0 <= i < |bars| ==>
        bars[i].name == TruncateName(points[i].name)
        && bars[i].complexity == points[i].complexity && bars[i].lines == points[i].lines
  {
  }

  /** The bucket conditions of `complexityDistribution`, in slice order. */
  predicate InBucket(bucket: nat, complexity: int)
  {
    match bucket
    case 0 => complexity <= 5
    case 1 => complexity > 5 && complexity <= 10
    case 2 => complexity > 10 && complexity <= 20
    case 3 => complexity > 20
    case _ => false
  }

  /** `functions.filter(...).length` for one bucket. */
  function BucketCount(functions: seq<FunctionRecord>, bucket: nat): (n: nat)
    ensures n <= |functions|
  {
    if functions == [] then 0
    else (if InBucket(bucket, functions[0].complexity) then 1 else 0) + BucketCount(functions[1..], bucket)
  }

  const BucketNames := ["Low (1-5)", "Moderate (6-10)", "High (11-20)", "Very High (20+)"]
  const BucketColors := ["hsl(var(--chart-1))", "hsl(var(--chart-2))", "hsl(var(--chart-3))", "hsl(var(--chart-4))"]

  /** The four slices before the filter. */
  function AllSlices(functions: seq<FunctionRecord>): (slices: seq<Slice>)
    ensures |slices| == 4
    ensures forall b :: 0 <= b < 4 ==> slices[b] == Slice(BucketNames[b], BucketCount(functions, b), BucketColors[b])
  {
    seq(4, b requires 0 <= b < 4 => Slice(BucketNames[b], BucketCount(functions, b), BucketColors[b]))
  }

  /** `.filter((item) => item.value > 0)`. */
  function KeepNonEmpty(slices: seq<Slice>): (kept: seq<Slice>)
    ensures |kept| <= |slices|
  {
    if slices == [] then []
    else (if slices[0].value > 0 then [slices[0]] else []) + KeepNonEmpty(slices[1..])
  }

  /** The filter keeps exactly the slices with a positive value. */
  lemma {:induction false} KeepNonEmptyMembers(slices: seq<Slice>)
    ensures forall s :: s in KeepNonEmpty(slices) <==> s in slices && s.value > 0
  {
    if slices != [] {
      KeepNonEmptyMembers(slices[1..]);
      assert slices == [slices[0]] + slices[1..];
    }
  }

  /** `complexityDistribution`. */
  function ComplexityDistribution(functions: seq<FunctionRecord>): seq<Slice>
  {
    KeepNonEmpty(AllSlices(functions))
  }

  /** Every complexity falls in exactly one bucket. */
  lemma OneBucketEach(complexity: int)
    ensures InBucket(0, complexity) || InBucket(1, complexity) || InBucket(2, complexity) || InBucket(3, complexity)
    ensures forall b, c :: 0 <= b < c < 4 ==> !(InBucket(b, complexity) && InBucket(c, complexity))
  {
  }

  /** The four bucket counts add up to the number of functions. */
  lemma {:induction false} BucketsPartition(functions: seq<FunctionRecord>)
    ensures BucketCount(functions, 0) + BucketCount(functions, 1) + BucketCount(functions, 2)
            + BucketCount(functions, 3) == |functions|
  {
    if functions != [] {
      BucketsPartition(functions[1..]);
      OneBucketEach(functions[0].complexity);
    }
  }

  /** The filter keeps order: filtering a concatenation filters each part. */
  lemma {:induction false} KeepNonEmptyAppend(a: seq<Slice>, b: seq<Slice>)
    ensures KeepNonEmpty(a + b) == KeepNonEmpty(a) + KeepNonEmpty(b)
  {
    if a == [] {
      assert a + b == b;
    } else {
      assert (a + b)[0] == a[0];
      assert (a + b)[1..] == a[1..] + b;
      KeepNonEmptyAppend(a[1..], b);
    }
  }

  lemma KeepOne(x: Slice)
    ensures KeepNonEmpty([x]) == if x.value > 0 then [x] else []
  {
    assert [x][1..] == [];
  }

  /** The distribution is the four slices in the order Low, Moderate, High,
      Very High, each present exactly when its bucket is not empty. */
  lemma DistributionDropsEmptyBuckets(functions: seq<FunctionRecord>)
    ensures var s := AllSlices(functions);
      ComplexityDistribution(functions)
      == KeepNonEmpty([s[0]]) + KeepNonEmpty([s[1]]) + KeepNonEmpty([s[2]]) + KeepNonEmpty([s[3]])
    ensures var s := AllSlices(functions);
      forall b :: 0 <= b < 4 ==> KeepNonEmpty([s[b]]) == if BucketCount(functions, b) > 0 then [s[b]] else []
  {
    var s := AllSlices(functions);
    var ab, c, d := [s[0]] + [s[1]], [s[2]], [s[3]];
    assert s == ab + c + d;
    KeepNonEmptyAppend(ab + c, d);
    KeepNonEmptyAppend(ab, c);
    KeepNonEmptyAppend([s[0]], [s[1]]);
    forall b | 0 <= b < 4 ensures KeepNonEmpty([s[b]]) == if BucketCount(functions, b) > 0 then [s[b]] else [] {
      KeepOne(s[b]);
    }
  }

  function SumValues(slices: seq<Slice>): nat
  {
    if slices == [] then 0 else slices[0].value + SumValues(slices[1..])
  }

  lemma {:induction false} SumValuesKeepNonEmpty(slices: seq<Slice>)
    ensures SumValues(KeepNonEmpty(slices)) == SumValues(slices)
  {
    if slices != [] {
      SumValuesKeepNonEmpty(slices[1..]);
      var rest := KeepNonEmpty(slices[1..]);
      if slices[0].value > 0 {
        var kept := [slices[0]] + rest;
        assert KeepNonEmpty(slices) == kept;
        assert kept[0] == slices[0] && kept[1..] == rest;
      } else {
        assert KeepNonEmpty(slices) == [] + rest;
        assert [] + rest == rest;
      }
    }
  }

  /** The slices of the pie add up to the number of functions. */
  lemma DistributionCoversAllFunctions(functions: seq<FunctionRecord>)
    ensures SumValues(ComplexityDistribution(functions)) == |functions|
  {
    var s := AllSlices(functions);
    SumValuesKeepNonEmpty(s);
    BucketsPartition(functions);
    var t1, t2, t3 := s[1..], s[1..][1..], s[1..][1..][1..];
    assert t3[1..] == [];
    assert SumValues(t3) == s[3].value;
    assert SumValues(t2) == s[2].value + s[3].value;
    assert SumValues(t1) == s[1].value + s[2].value + s[3].value;
  }

  /** The buckets are the levels of the results view: bucket `b` holds exactly
      the complexities whose level is the `b`-th complexity level. */
  lemma BucketsAreComplexityLevels(bucket: nat, complexity: int)
    requires bucket < 4
    ensures InBucket(bucket, complexity) <==> GetComplexityLevel(complexity).level == ComplexityLevels[bucket]
  {
    ComplexityLevelThresholds(complexity);
  }
}
