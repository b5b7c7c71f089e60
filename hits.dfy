/** The record array the boundary searches build from ray hits (one row per hit:
    the volume hit, the hit point and the face it lies on, with its distance from
    the ray origin), and the numpy selections they apply to it: the minimum
    distance, `np.where(distances == min)`, deletion of the rows of given volumes,
    deletion of one row and the count of rows of a volume. */
module HitSelection {

  import opened RealMath

  datatype Candidate = Candidate(volume: string, point: Vec3, face: Face, dist: real)

  /** Distance `np.linalg.norm(origin - point)`. */
  function Distance(m: MathLib, origin: Vec3, p: Vec3): real {
    m.sqrt(NormSq(Sub(origin, p)))
  }

  /** `distances[np.argmin(distances)]`. */
  function MinDist(C: seq<Candidate>): (d: real)
    requires |C| > 0
    ensures forall i :: 0 <= i < |C| ==> d <= C[i].dist
    ensures exists i :: 0 <= i < |C| && C[i].dist == d
    decreases |C|
  {
    if |C| == 1 then C[0].dist
    else
      var p := MinDist(C[..|C| - 1]);
      assert forall i :: 0 <= i < |C| - 1 ==> C[..|C| - 1][i] == C[i];
      if C[|C| - 1].dist < p then C[|C| - 1].dist else p
  }

  /** `np.where(distances == d)[0]`: the rows at distance `d`, in ascending order. */
  function IndicesAt(C: seq<Candidate>, d: real): (r: seq<nat>)
    ensures forall k :: 0 <= k < |r| ==> r[k] < |C| && C[r[k]].dist == d
    ensures forall i :: 0 <= i < |C| && C[i].dist == d ==> i in r
    ensures forall k, l :: 0 <= k < l < |r| ==> r[k] < r[l]
    decreases |C|
  {
    if |C| == 0 then []
    else
      var p := IndicesAt(C[..|C| - 1], d);
      assert forall i :: 0 <= i < |C| - 1 ==> C[..|C| - 1][i] == C[i];
      if C[|C| - 1].dist == d then p + [|C| - 1] else p
  }

  /** `closestIntersectIndex`: the rows at the minimum distance. */
  function Closest(C: seq<Candidate>): seq<nat>
    requires |C| > 0
  {
    IndicesAt(C, MinDist(C))
  }

  /** Row `i` is a nearest row and every earlier row is strictly farther. */
  predicate IsFirstNearest(C: seq<Candidate>, i: int) {
    && 0 <= i < |C|
    && (forall j :: 0 <= j < |C| ==> C[i].dist <= C[j].dist)
    && (forall j :: 0 <= j < i ==> C[i].dist < C[j].dist)
  }

  /** The tie set is never empty, holds exactly the nearest rows, and its first
      element is the first nearest row (what `np.argmin` returns). */
  lemma ClosestFacts(C: seq<Candidate>)
    requires |C| > 0
    ensures |Closest(C)| > 0
    ensures forall i :: 0 <= i < |C| ==> (i in Closest(C) <==> forall j :: 0 <= j < |C| ==> C[i].dist <= C[j].dist)
    ensures IsFirstNearest(C, Closest(C)[0])
  {
    var d := MinDist(C);
    var r := Closest(C);
    var w :| 0 <= w < |C| && C[w].dist == d;
    assert w in r;
    forall i | 0 <= i < |C|
      ensures i in r <==> forall j :: 0 <= j < |C| ==> C[i].dist <= C[j].dist
    {
      if i in r {
        var k :| 0 <= k < |r| && r[k] == i;
      }
    }
    var f := r[0];
    forall j | 0 <= j < f
      ensures C[f].dist < C[j].dist
    {
      assert j !in r by {
        forall k | 0 <= k < |r|
          ensures r[k] != j
        {
          if k > 0 {
            assert r[0] < r[k];
          }
        }
      }
    }
  }

  /** The tie set has more than one element exactly when two rows share the
      minimum distance. */
  lemma ClosestTie(C: seq<Candidate>)
    requires |C| > 0
    ensures |Closest(C)| > 1 <==>
      exists i, j :: 0 <= i < j < |C| && C[i].dist == MinDist(C) && C[j].dist == MinDist(C)
  {
    var d := MinDist(C);
    var r := IndicesAt(C, d);
    if |r| > 1 {
      var i, j := r[0], r[1];
      assert 0 <= i < j < |C| && C[i].dist == d && C[j].dist == d;
    } else {
      forall i, j | 0 <= i < j < |C| && C[i].dist == d
        ensures C[j].dist != d
      {
        if C[j].dist == d {
          assert false;
        }
      }
    }
  }

  /** The row indices `np.delete` keeps when it deletes the rows of the volumes
      in `names`: every row of another volume, in ascending order. */
  function KeptRows(C: seq<Candidate>, names: set<string>): (r: seq<nat>)
    ensures forall k :: 0 <= k < |r| ==> r[k] < |C| && C[r[k]].volume !in names
    ensures forall i :: 0 <= i < |C| && C[i].volume !in names ==> i in r
    ensures forall k, l :: 0 <= k < l < |r| ==> r[k] < r[l]
    decreases |C|
  {
    if |C| == 0 then []
    else
      var p := KeptRows(C[..|C| - 1], names);
      assert forall i :: 0 <= i < |C| - 1 ==> C[..|C| - 1][i] == C[i];
      if C[|C| - 1].volume in names then p else p + [|C| - 1]
  }

  /** `np.delete` of every row whose volume is in `names`: the kept rows, in
      their original order. */
  function WithoutVolumes(C: seq<Candidate>, names: set<string>): (r: seq<Candidate>)
    ensures |r| == |KeptRows(C, names)|
    ensures forall k :: 0 <= k < |r| ==> r[k] == C[KeptRows(C, names)[k]]
    ensures forall c :: c in r <==> c in C && c.volume !in names
  {
    var k := KeptRows(C, names);
    var r := seq(|k|, i requires 0 <= i < |k| => C[k[i]]);
    assert forall c :: c in C && c.volume !in names ==> c in r by {
      forall c | c in C && c.volume !in names
        ensures c in r
      {
        var i :| 0 <= i < |C| && C[i] == c;
        var n :| 0 <= n < |k| && k[n] == i;
        assert r[n] == c;
      }
    }
    r
  }

  /** `np.delete` of row `i`. */
  function WithoutRow(C: seq<Candidate>, i: nat): (r: seq<Candidate>)
    requires i < |C|
    ensures |r| == |C| - 1
    ensures forall j :: 0 <= j < i ==> r[j] == C[j]
    ensures forall j :: i <= j < |r| ==> r[j] == C[j + 1]
  {
    C[..i] + C[i + 1..]
  }

  /** `len(np.where(volumes == v)[0])`. */
  function CountVolume(C: seq<Candidate>, v: string): (n: nat)
    ensures n <= |C|
    ensures n == 0 <==> forall c :: c in C ==> c.volume != v
    decreases |C|
  {
    if |C| == 0 then 0
    else (if C[0].volume == v then 1 else 0) + CountVolume(C[1..], v)
  }

  /** A volume with exactly one row has that row and no other of its name. */
  lemma {:induction false} CountOne(C: seq<Candidate>, i: nat)
    requires i < |C| && CountVolume(C, C[i].volume) == 1
    ensures forall j :: 0 <= j < |C| && j != i ==> C[j].volume != C[i].volume
    decreases |C|
  {
    var v := C[i].volume;
    if i == 0 {
      assert CountVolume(C[1..], v) == 0;
      forall j | 0 < j < |C| ensures C[j].volume != v {
        assert C[1..][j - 1] == C[j];
      }
    } else {
      assert C[1..][i - 1] == C[i];
      CountOne(C[1..], i - 1);
      forall j | 0 < j < |C| && j != i ensures C[j].volume != v {
        assert C[1..][j - 1] == C[j];
      }
    }
  }
}
