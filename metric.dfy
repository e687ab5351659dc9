/**
 * The metric calculator: the joint files of a gold-standard recording and of a comparison
 * recording are read, each reshaped into `total_joints` rows of (x, y, z), and scored by the
 * mean per-joint position error (the mean of the Euclidean distances between corresponding
 * joints). Coordinates are reals; the square root is a parameter that satisfies `IsSqrt`.
 */
module Metrics {
  import opened Wrappers

  datatype Point = Point(x: real, y: real, z: real)

  /** The exceptions the calculator can raise, and the NaN that `np.mean` returns for an
      empty list. */
  datatype MetricError =
    | FileNotFound(path: string)
    | ShapeMismatch(size: int, totalJoints: int)
    | IndexOutOfRange(index: int)
    | EmptyMean

  /** Real multiplication. Squares are written `Times(x, x)` rather than `x * x` so that the
      solver keeps them as ordinary products. */
  function Times(a: real, b: real): real {
    a * b
  }

  /** The product of two reals of the same strict sign is positive. */
  lemma TimesPositive(a: real, b: real)
    requires (a > 0.0 && b > 0.0) || (a < 0.0 && b < 0.0)
    ensures Times(a, b) > 0.0
  {
  }

  /** A square is never negative, and it is zero only for zero. */
  lemma SquareSign(x: real)
    ensures Times(x, x) >= 0.0
    ensures x != 0.0 ==> Times(x, x) > 0.0
  {
    if x != 0.0 {
      TimesPositive(x, x);
    }
  }

  /** Two non-negative reals with the same square are equal. */
  lemma SquareInjective(q: real, r: real)
    requires 0.0 <= q && 0.0 <= r && Times(q, q) == Times(r, r)
    ensures q == r
  {
    if q < r {
      TimesPositive(r - q, r + q);
      assert false;
    } else if r < q {
      TimesPositive(q - r, q + r);
      assert false;
    }
  }

  /** `sqrt` returns the non-negative square root of every non-negative real. */
  ghost predicate IsSqrt(sqrt: real -> real) {
    forall x :: 0.0 <= x ==> 0.0 <= sqrt(x) && Times(sqrt(x), sqrt(x)) == x
  }

  /** A non-negative real is the square root of its square, whichever root function. */
  lemma SqrtOfSquare(sqrt: real -> real, r: real)
    requires IsSqrt(sqrt) && 0.0 <= r
    ensures sqrt(Times(r, r)) == r
  {
    SquareSign(r);
    SquareInjective(sqrt(Times(r, r)), r);
  }

  // ---------------------------------------------------------------- distance

  function SquaredDistance(a: Point, b: Point): (d: real)
    ensures d >= 0.0
    ensures d == 0.0 <==> a == b
  {
    var dx, dy, dz := a.x - b.x, a.y - b.y, a.z - b.z;
    SquareSign(dx); SquareSign(dy); SquareSign(dz);
    Times(dx, dx) + Times(dy, dy) + Times(dz, dz)
  }

  /** `calculate_euclidean_distance`: the root of the sum of the squared coordinate
      differences; it is zero exactly for equal points. */
  function Distance(a: Point, b: Point, sqrt: real -> real): (d: real)
    requires IsSqrt(sqrt)
    ensures d >= 0.0 && Times(d, d) == SquaredDistance(a, b)
    ensures d == 0.0 <==> a == b
  {
    var d := sqrt(SquaredDistance(a, b));
    SquareSign(d);
    d
  }

  lemma DistanceSymmetric(a: Point, b: Point, sqrt: real -> real)
    requires IsSqrt(sqrt)
    ensures Distance(a, b, sqrt) == Distance(b, a, sqrt)
  {
    assert SquaredDistance(a, b) == SquaredDistance(b, a);
  }

  /** Two points whose squared distance is the square of a non-negative `r` are `r` apart. */
  lemma DistanceFromSquare(a: Point, b: Point, sqrt: real -> real, r: real)
    requires IsSqrt(sqrt) && 0.0 <= r && SquaredDistance(a, b) == Times(r, r)
    ensures Distance(a, b, sqrt) == r
  {
    SqrtOfSquare(sqrt, r);
  }

  /** Squared distances of the 3-4-5 and 5-12-13 triangles. */
  lemma SquaredDistanceExamples()
    ensures SquaredDistance(Point(0.0, 0.0, 0.0), Point(3.0, 4.0, 0.0)) == Times(5.0, 5.0)
    ensures SquaredDistance(Point(1.0, 2.0, 0.0), Point(6.0, 14.0, 0.0)) == Times(13.0, 13.0)
  {
    var a, b := Point(0.0, 0.0, 0.0), Point(3.0, 4.0, 0.0);
    assert Times(a.x - b.x, a.x - b.x) == 9.0;
    assert Times(a.y - b.y, a.y - b.y) == 16.0;
    assert Times(a.z - b.z, a.z - b.z) == 0.0;
    assert Times(5.0, 5.0) == 25.0;
    var c, d := Point(1.0, 2.0, 0.0), Point(6.0, 14.0, 0.0);
    assert Times(c.x - d.x, c.x - d.x) == 25.0;
    assert Times(c.y - d.y, c.y - d.y) == 144.0;
    assert Times(c.z - d.z, c.z - d.z) == 0.0;
    assert Times(13.0, 13.0) == 169.0;
  }

  /** The 3-4-5 triangle. */
  lemma DistanceExample(sqrt: real -> real)
    requires IsSqrt(sqrt)
    ensures Distance(Point(0.0, 0.0, 0.0), Point(3.0, 4.0, 0.0), sqrt) == 5.0
  {
    SquaredDistanceExamples();
    DistanceFromSquare(Point(0.0, 0.0, 0.0), Point(3.0, 4.0, 0.0), sqrt, 5.0);
  }

  // ---------------------------------------------------------------- mean per-joint position error

  function Sum(xs: seq<real>): real
    decreases |xs|
  {
    if xs == [] then 0.0 else Sum(xs[..|xs| - 1]) + xs[|xs| - 1]
  }

  /** `np.mean` of a non-empty list. */
  function Mean(xs: seq<real>): real
    requires |xs| > 0
  {
    Sum(xs) / |xs| as real
  }

  /** The distance of every gold joint to the comparison joint in the same row. */
  function JointDistances(gold: seq<Point>, comparison: seq<Point>, sqrt: real -> real): (ds: seq<real>)
    requires IsSqrt(sqrt) && |gold| <= |comparison|
    ensures |ds| == |gold|
  {
    seq(|gold|, i requires 0 <= i < |gold| => Distance(gold[i], comparison[i], sqrt))
  }

  /** The mean per-joint position error: row `i` of the gold joints is paired with row `i`
      of the comparison joints; a comparison with fewer rows fails on the first missing row,
      extra comparison rows are never looked at, and no rows at all leaves nothing to
      average. */
  function MeanPerJointError(gold: seq<Point>, comparison: seq<Point>, sqrt: real -> real): Result<real, MetricError>
    requires IsSqrt(sqrt)
  {
    if |comparison| < |gold| then Err(IndexOutOfRange(|comparison|))
    else if |gold| == 0 then Err(EmptyMean)
    else Ok(Mean(JointDistances(gold, comparison, sqrt)))
  }

  /** `calculate_mean_per_joint_position_error`: the distances are collected row by row
      and then averaged. */
  method MeanPerJointPositionError(gold: seq<Point>, comparison: seq<Point>, sqrt: real -> real)
    returns (r: Result<real, MetricError>)
    requires IsSqrt(sqrt)
    ensures r == MeanPerJointError(gold, comparison, sqrt)
  {
    var distances: seq<real> := [];
    var row := 0;
    while row < |gold|
      invariant row <= |gold| && row <= |comparison|
      invariant distances == JointDistances(gold[..row], comparison, sqrt)
    {
      if row >= |comparison| {
        return Err(IndexOutOfRange(row));
      }
      var distance := Distance(gold[row], comparison[row], sqrt);
      distances := distances + [distance];
      row := row + 1;
      assert gold[..row][..row - 1] == gold[..row - 1];
    }
    assert gold[..row] == gold;
    if distances == [] {
      return Err(EmptyMean);
    }
    return Ok(Mean(distances));
  }

  lemma {:induction false} SumNonNegative(xs: seq<real>)
    requires forall i :: 0 <= i < |xs| ==> xs[i] >= 0.0
    ensures Sum(xs) >= 0.0
    ensures Sum(xs) == 0.0 <==> forall i :: 0 <= i < |xs| ==> xs[i] == 0.0
    decreases |xs|
  {
    if xs != [] {
      var init := xs[..|xs| - 1];
      SumNonNegative(init);
      assert forall i :: 0 <= i < |init| ==> init[i] == xs[i];
    }
  }

  /** The error is never negative, and it is zero exactly when every gold joint coincides
      with the comparison joint in its row. */
  lemma MeanPerJointErrorZero(gold: seq<Point>, comparison: seq<Point>, sqrt: real -> real)
    requires IsSqrt(sqrt)
    ensures MeanPerJointError(gold, comparison, sqrt).Ok? ==>
      var e := MeanPerJointError(gold, comparison, sqrt).value;
      e >= 0.0 && (e == 0.0 <==> forall i :: 0 <= i < |gold| ==> gold[i] == comparison[i])
  {
    if |gold| <= |comparison| && |gold| > 0 {
      var ds := JointDistances(gold, comparison, sqrt);
      SumNonNegative(ds);
      assert forall i :: 0 <= i < |gold| ==> (ds[i] == 0.0 <==> gold[i] == comparison[i]);
    }
  }

  /** Comparison rows past the last gold row change nothing. */
  lemma ExtraComparisonRowsIgnored(gold: seq<Point>, comparison: seq<Point>, extra: seq<Point>, sqrt: real -> real)
    requires IsSqrt(sqrt) && |gold| <= |comparison|
    ensures MeanPerJointError(gold, comparison + extra, sqrt) == MeanPerJointError(gold, comparison, sqrt)
  {
    if |gold| > 0 {
      assert JointDistances(gold, comparison + extra, sqrt) == JointDistances(gold, comparison, sqrt);
    }
  }

  /** With as many rows on both sides, swapping the recordings gives the same error. */
  lemma MeanPerJointErrorSymmetric(gold: seq<Point>, comparison: seq<Point>, sqrt: real -> real)
    requires IsSqrt(sqrt) && |gold| == |comparison|
    ensures MeanPerJointError(gold, comparison, sqrt) == MeanPerJointError(comparison, gold, sqrt)
  {
    forall i | 0 <= i < |gold|
      ensures Distance(gold[i], comparison[i], sqrt) == Distance(comparison[i], gold[i], sqrt)
    {
      DistanceSymmetric(gold[i], comparison[i], sqrt);
    }
    assert JointDistances(gold, comparison, sqrt) == JointDistances(comparison, gold, sqrt);
  }

  /** Two joints at distances 5 and 13 average to 9. */
  lemma MeanPerJointErrorExample(sqrt: real -> real)
    requires IsSqrt(sqrt)
    ensures MeanPerJointError([Point(0.0, 0.0, 0.0), Point(1.0, 2.0, 0.0)],
                              [Point(3.0, 4.0, 0.0), Point(6.0, 14.0, 0.0)], sqrt) == Ok(9.0)
  {
    var gold := [Point(0.0, 0.0, 0.0), Point(1.0, 2.0, 0.0)];
    var comparison := [Point(3.0, 4.0, 0.0), Point(6.0, 14.0, 0.0)];
    SquaredDistanceExamples();
    DistanceFromSquare(gold[0], comparison[0], sqrt, 5.0);
    DistanceFromSquare(gold[1], comparison[1], sqrt, 13.0);
    var ds := JointDistances(gold, comparison, sqrt);
    assert ds == [5.0, 13.0];
    assert ds[..1] == [5.0] && ds[..1][..0] == [];
    assert Sum(ds) == Sum([5.0]) + 13.0 == 18.0;
  }

  // ---------------------------------------------------------------- reshaping

  /** `np.reshape(flat, (total_joints, 3))`: row `i` is elements 3i, 3i + 1 and 3i + 2; a
      negative row count is the unknown dimension and is inferred from the size (as NumPy 1.x
      does for any negative entry), and any other size mismatch fails. */
  function Reshape(flat: seq<real>, totalJoints: int): (r: Result<seq<Point>, MetricError>)
    ensures r.Ok? <==>
      (totalJoints >= 0 && |flat| == 3 * totalJoints) || (totalJoints < 0 && |flat| % 3 == 0)
    ensures r.Ok? ==>
      3 * |r.value| == |flat| && forall i :: 0 <= i < |r.value| ==> r.value[i] == Point(flat[3 * i], flat[3 * i + 1], flat[3 * i + 2])
  {
    var rows := if totalJoints < 0 then |flat| / 3 else totalJoints;
    if |flat| != 3 * rows then Err(ShapeMismatch(|flat|, totalJoints))
    else Ok(seq(rows, i requires 0 <= i < rows => Point(flat[3 * i], flat[3 * i + 1], flat[3 * i + 2])))
  }

  /** The row-major flattening a reshape undoes. */
  function Flatten(points: seq<Point>): (flat: seq<real>)
    ensures |flat| == 3 * |points|
    decreases |points|
  {
    if points == [] then []
    else Flatten(points[..|points| - 1]) + [points[|points| - 1].x, points[|points| - 1].y, points[|points| - 1].z]
  }

  lemma {:induction false} FlattenAt(points: seq<Point>, i: nat)
    requires i < |points|
    ensures Flatten(points)[3 * i] == points[i].x
    ensures Flatten(points)[3 * i + 1] == points[i].y
    ensures Flatten(points)[3 * i + 2] == points[i].z
    decreases |points|
  {
    if i < |points| - 1 {
      FlattenAt(points[..|points| - 1], i);
    }
  }

  /** Reshaping the flattening of n points into n rows gives the points back. */
  lemma ReshapeFlatten(points: seq<Point>)
    ensures Reshape(Flatten(points), |points|) == Ok(points)
  {
    var flat := Flatten(points);
    var r := Reshape(flat, |points|);
    assert r.Ok? && |r.value| == |points|;
    forall i | 0 <= i < |points|
      ensures r.value[i] == points[i]
    {
      FlattenAt(points, i);
      assert r.value[i] == Point(flat[3 * i], flat[3 * i + 1], flat[3 * i + 2]);
    }
    assert r.value == points;
  }

  /** A successful reshape is undone by flattening. */
  lemma FlattenReshape(flat: seq<real>, totalJoints: int)
    requires Reshape(flat, totalJoints).Ok?
    ensures Flatten(Reshape(flat, totalJoints).value) == flat
  {
    var ps := Reshape(flat, totalJoints).value;
    forall k | 0 <= k < |flat|
      ensures Flatten(ps)[k] == flat[k]
    {
      var i, j := k / 3, k % 3;
      assert k == 3 * i + j && 0 <= j < 3;
      FlattenAt(ps, i);
    }
  }

  lemma ReshapeExamples()
    ensures Reshape([1.0, 2.0, 3.0, 4.0, 5.0, 6.0], 2) ==
      Ok([Point(1.0, 2.0, 3.0), Point(4.0, 5.0, 6.0)])
    ensures Reshape([1.0, 2.0, 3.0, 4.0, 5.0, 6.0], 14).Err?
    ensures Reshape([1.0, 2.0, 3.0, 4.0, 5.0, 6.0], -2) == Reshape([1.0, 2.0, 3.0, 4.0, 5.0, 6.0], 2)
    ensures Reshape([1.0, 2.0, 3.0, 4.0, 5.0], -1).Err?
  {
    var flat := [1.0, 2.0, 3.0, 4.0, 5.0, 6.0];
    var r := Reshape(flat, 2);
    assert r.Ok? && |r.value| == 2;
    assert r.value[0] == Point(flat[0], flat[1], flat[2]);
    assert r.value[1] == Point(flat[3], flat[4], flat[5]);
    assert r.value == [Point(1.0, 2.0, 3.0), Point(4.0, 5.0, 6.0)];
  }

  // ---------------------------------------------------------------- the calculator

  /** `fetch_joints`' file name: `<root>/<grasp>` without a date, `<root>/<date>/<grasp>`
      with one. */
  function JointsPath(root: string, grasp: string, date: Option<string>): string {
    match date
    case None => root + "/" + grasp
    case Some(d) => root + "/" + d + "/" + grasp
  }

  /** The dated file is the undated file of the date's sub-folder, and either way the file
      is named after the grasp. */
  lemma JointsPathShape(root: string, grasp: string, date: string)
    ensures JointsPath(root, grasp, Some(date)) == JointsPath(root + "/" + date, grasp, None)
    ensures var p := JointsPath(root, grasp, Some(date));
      |p| > |grasp| && p[|p| - |grasp| - 1..] == "/" + grasp
    ensures var p := JointsPath(root, grasp, None);
      |p| > |grasp| && p[..|root| + 1] == root + "/" && p[|p| - |grasp| - 1..] == "/" + grasp
  {
  }

  datatype MetricCalculator = MetricCalculator(goldStandardRootPath: string, comparisonRootPath: string)
  {
    /** `fetch_joints` over the files the calculator can read: `files` maps a path to the
        numbers `np.loadtxt` reads from it, in order. */
    function FetchJoints(files: map<string, seq<real>>, root: string, grasp: string, date: Option<string>)
      : (r: Result<seq<real>, MetricError>)
      ensures JointsPath(root, grasp, date) in files <==> r.Ok?
      ensures r.Ok? ==> r.value == files[JointsPath(root, grasp, date)]
      ensures r.Err? ==> r.error == FileNotFound(JointsPath(root, grasp, date))
    {
      var path := JointsPath(root, grasp, date);
      if path in files then Ok(files[path]) else Err(FileNotFound(path))
    }

    /** `calculate_metrics`: the gold standard is read without a date, the comparison with
        it; both are reshaped to the same joint count and scored, the first failure in that
        order being the result. */
    function Metrics(files: map<string, seq<real>>, grasp: string, date: Option<string>, totalJoints: int,
                     sqrt: real -> real): Result<real, MetricError>
      requires IsSqrt(sqrt)
    {
      var gold := FetchJoints(files, goldStandardRootPath, grasp, None);
      if gold.Err? then Err(gold.error) else
      var comparison := FetchJoints(files, comparisonRootPath, grasp, date);
      if comparison.Err? then Err(comparison.error) else
      var goldT := Reshape(gold.value, totalJoints);
      if goldT.Err? then Err(goldT.error) else
      var comparisonT := Reshape(comparison.value, totalJoints);
      if comparisonT.Err? then Err(comparisonT.error) else
      MeanPerJointError(goldT.value, comparisonT.value, sqrt)
    }

    method CalculateMetrics(files: map<string, seq<real>>, grasp: string, date: Option<string>, totalJoints: int,
                            sqrt: real -> real) returns (r: Result<real, MetricError>)
      requires IsSqrt(sqrt)
      ensures r == Metrics(files, grasp, date, totalJoints, sqrt)
    {
      var goldJoints := FetchJoints(files, goldStandardRootPath, grasp, None);
      if goldJoints.Err? {
        return Err(goldJoints.error);
      }
      var comparisonJoints := FetchJoints(files, comparisonRootPath, grasp, date);
      if comparisonJoints.Err? {
        return Err(comparisonJoints.error);
      }
      var goldT := Reshape(goldJoints.value, totalJoints);
      if goldT.Err? {
        return Err(goldT.error);
      }
      var comparisonT := Reshape(comparisonJoints.value, totalJoints);
      if comparisonT.Err? {
        return Err(comparisonT.error);
      }
      r := MeanPerJointPositionError(goldT.value, comparisonT.value, sqrt);
    }

    /** The score depends on the two files the calculator names and on nothing else it
        could read. */
    lemma MetricsReadsTwoFiles(files: map<string, seq<real>>, other: map<string, seq<real>>, grasp: string,
                               date: Option<string>, totalJoints: int, sqrt: real -> real)
      requires IsSqrt(sqrt)
      requires forall path :: path in {JointsPath(goldStandardRootPath, grasp, None),
                                       JointsPath(comparisonRootPath, grasp, date)} ==>
        (path in files <==> path in other) && (path in files ==> files[path] == other[path])
      ensures Metrics(files, grasp, date, totalJoints, sqrt) == Metrics(other, grasp, date, totalJoints, sqrt)
    {
      var g, c := JointsPath(goldStandardRootPath, grasp, None), JointsPath(comparisonRootPath, grasp, date);
      assert (g in files <==> g in other) && (c in files <==> c in other);
    }

    /** With a fixed joint count both recordings have that many rows, so the score never
        fails on a missing row: it is a non-negative number, or NaN for zero joints. */
    lemma MetricsWithFixedJointCount(files: map<string, seq<real>>, grasp: string, date: Option<string>,
                                     totalJoints: int, sqrt: real -> real)
      requires IsSqrt(sqrt) && totalJoints >= 0
      ensures var r := Metrics(files, grasp, date, totalJoints, sqrt);
        && !(r.Err? && r.error.IndexOutOfRange?)
        && (r.Err? && r.error == EmptyMean ==> totalJoints == 0)
        && (r.Ok? ==> r.value >= 0.0)
    {
      var r := Metrics(files, grasp, date, totalJoints, sqrt);
      if r.Ok? {
        var gold := Reshape(files[JointsPath(goldStandardRootPath, grasp, None)], totalJoints).value;
        var comparison := Reshape(files[JointsPath(comparisonRootPath, grasp, date)], totalJoints).value;
        MeanPerJointErrorZero(gold, comparison, sqrt);
      }
    }

    /** A comparison recording identical to the gold standard scores zero. */
    lemma IdenticalRecordingScoresZero(files: map<string, seq<real>>, grasp: string, date: Option<string>,
                                       totalJoints: int, sqrt: real -> real)
      requires IsSqrt(sqrt) && totalJoints >= 1
      requires JointsPath(goldStandardRootPath, grasp, None) in files
      requires JointsPath(comparisonRootPath, grasp, date) in files
      requires files[JointsPath(goldStandardRootPath, grasp, None)] == files[JointsPath(comparisonRootPath, grasp, date)]
      requires |files[JointsPath(goldStandardRootPath, grasp, None)]| == 3 * totalJoints
      ensures Metrics(files, grasp, date, totalJoints, sqrt) == Ok(0.0)
    {
      var joints := Reshape(files[JointsPath(goldStandardRootPath, grasp, None)], totalJoints).value;
      MeanPerJointErrorZero(joints, joints, sqrt);
    }
  }
}
