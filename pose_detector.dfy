/** The detector adapter's projection of a detected pose to named pixel
    positions. The detection itself is not modelled: its landmark list is
    the input here. */
module Detector {
  import opened Landmarks
  import Renderer

  /** One named entry of the result: pixel coordinates and the detector's
      visibility. */
  datatype Position = Position(x: int, y: int, visibility: real)

  /** The name-to-index table, in the order the loop visits it. */
  const LandmarkIndices: seq<(string, nat)> := [
    ("nose", 0), ("left_eye", 2), ("right_eye", 5), ("left_ear", 7), ("right_ear", 8),
    ("left_shoulder", 11), ("right_shoulder", 12), ("left_elbow", 13), ("right_elbow", 14),
    ("left_wrist", 15), ("right_wrist", 16), ("left_hip", 23), ("right_hip", 24),
    ("left_knee", 25), ("right_knee", 26), ("left_ankle", 27), ("right_ankle", 28)
  ]

  /** The largest index in the table. */
  const MaxTableIndex := 28

  /** No name occurs twice in `t`. */
  predicate DistinctNames(t: seq<(string, nat)>)
  {
    forall a, b :: 0 <= a < b < |t| ==> t[a].0 != t[b].0
  }

  /** Every index of `t` is a valid position in a list of length `n`. */
  predicate IndicesBelow(t: seq<(string, nat)>, n: nat)
  {
    forall k :: 0 <= k < |t| ==> t[k].1 < n
  }

  /** The names of the first `k` entries of `t`. */
  function NamesUpTo(t: seq<(string, nat)>, k: nat): set<string>
    requires k <= |t|
  {
    set j | 0 <= j < k :: t[j].0
  }

  /** Every index in the table is at most 28, and the last entry is 28. */
  lemma TableIndices()
    ensures |LandmarkIndices| == 17
    ensures forall k :: 0 <= k < |LandmarkIndices| ==> LandmarkIndices[k].1 <= MaxTableIndex
    ensures LandmarkIndices[|LandmarkIndices| - 1].1 == MaxTableIndex
  {
  }

  /** The names of rows `lo` to `hi - 1` of `t` differ from every later
      name. */
  predicate RowsDistinct(t: seq<(string, nat)>, lo: nat, hi: nat)
  {
    forall a, b :: lo <= a < hi && a < b < |t| ==> t[a].0 != t[b].0
  }

  // The distinctness of the 17 names, a few rows at a time: one lemma over
  // all 136 pairs of string literals is more than the solver proves in one
  // step, so each lemma compares a few rows with every later row.

  lemma Rows0To2Distinct()
    ensures RowsDistinct(LandmarkIndices, 0, 2)
  {
  }

  lemma Rows2To4Distinct()
    ensures RowsDistinct(LandmarkIndices, 2, 4)
  {
  }

  lemma Rows4To6Distinct()
    ensures RowsDistinct(LandmarkIndices, 4, 6)
  {
  }

  lemma Rows6To9Distinct()
    ensures RowsDistinct(LandmarkIndices, 6, 9)
  {
  }

  lemma Rows9To12Distinct()
    ensures RowsDistinct(LandmarkIndices, 9, 12)
  {
  }

  lemma Rows12To17Distinct()
    ensures RowsDistinct(LandmarkIndices, 12, 17)
  {
  }

  /** The 17 names of the table are pairwise distinct. */
  lemma TableNamesDistinct()
    ensures DistinctNames(LandmarkIndices)
  {
    Rows0To2Distinct();
    Rows2To4Distinct();
    Rows4To6Distinct();
    Rows6To9Distinct();
    Rows9To12Distinct();
    Rows12To17Distinct();
    var t := LandmarkIndices;
    forall a, b | 0 <= a < b < |t|
      ensures t[a].0 != t[b].0
    {
      if a < 2 {
        assert RowsDistinct(t, 0, 2);
      } else if a < 4 {
        assert RowsDistinct(t, 2, 4);
      } else if a < 6 {
        assert RowsDistinct(t, 4, 6);
      } else if a < 9 {
        assert RowsDistinct(t, 6, 9);
      } else if a < 12 {
        assert RowsDistinct(t, 9, 12);
      } else {
        assert RowsDistinct(t, 12, 17);
      }
    }
  }

  /** A pose covers every table index exactly when it has more than 28
      landmarks. */
  lemma LongEnoughForTable(landmarks: Pose)
    ensures IndicesBelow(LandmarkIndices, |landmarks|) <==> MaxTableIndex < |landmarks|
  {
    TableIndices();
    if IndicesBelow(LandmarkIndices, |landmarks|) {
      assert LandmarkIndices[16].1 < |landmarks|;
    }
  }

  /** The entry of one landmark: `int(x * width)`, `int(y * height)` and
      the visibility unchanged. */
  function PositionOf(l: Landmark, imageWidth: int, imageHeight: int): (r: Position)
    ensures r.x == ToPixel(l.x, imageWidth) && r.y == ToPixel(l.y, imageHeight)
    ensures r.visibility == l.visibility
  {
    Position(ToPixel(l.x, imageWidth), ToPixel(l.y, imageHeight), l.visibility)
  }

  /** Moving one entry further through a table with distinct names adds
      exactly that entry's name, which was not among the earlier ones. */
  lemma NextName(t: seq<(string, nat)>, k: nat)
    requires DistinctNames(t) && k < |t|
    ensures NamesUpTo(t, k + 1) == NamesUpTo(t, k) + {t[k].0}
    ensures t[k].0 !in NamesUpTo(t, k)
  {
    assert forall j :: 0 <= j < k ==> t[j].0 != t[k].0;
  }

  /** The state of the loop of `get_landmark_positions` after the first
      `k` entries of `t`: their indices were in range, and exactly their
      names are keys, each holding the projected position of the landmark
      at its index. */
  predicate FilledUpTo(t: seq<(string, nat)>, k: nat, landmarks: Pose, imageWidth: int, imageHeight: int,
                       positions: map<string, Position>)
    requires k <= |t|
  {
    (forall j :: 0 <= j < k ==> t[j].1 < |landmarks|) &&
    positions.Keys == NamesUpTo(t, k) && |positions| == k &&
    forall j :: 0 <= j < k ==> positions[t[j].0] == PositionOf(landmarks[t[j].1], imageWidth, imageHeight)
  }

  /** Storing entry `k` under its (fresh) name extends the filled prefix. */
  lemma StoreNext(t: seq<(string, nat)>, k: nat, landmarks: Pose, imageWidth: int, imageHeight: int,
                  positions: map<string, Position>)
    requires DistinctNames(t) && k < |t| && t[k].1 < |landmarks|
    requires FilledUpTo(t, k, landmarks, imageWidth, imageHeight, positions)
    ensures FilledUpTo(t, k + 1, landmarks, imageWidth, imageHeight,
                       positions[t[k].0 := PositionOf(landmarks[t[k].1], imageWidth, imageHeight)])
  {
    StoreFresh(t, k, positions, PositionOf(landmarks[t[k].1], imageWidth, imageHeight));
  }

  /** Storing a value under the name of entry `k` of a table with distinct
      names, in a map keyed by exactly the earlier names, adds one key and
      leaves the values stored under the earlier names as they were. */
  lemma StoreFresh<V>(t: seq<(string, nat)>, k: nat, m: map<string, V>, v: V)
    requires DistinctNames(t) && k < |t|
    requires m.Keys == NamesUpTo(t, k) && |m| == k
    ensures m[t[k].0 := v].Keys == NamesUpTo(t, k + 1)
    ensures |m[t[k].0 := v]| == k + 1
    ensures m[t[k].0 := v][t[k].0] == v
    ensures forall j :: 0 <= j < k ==> m[t[k].0 := v][t[j].0] == m[t[j].0]
  {
    NextName(t, k);
    AddsOneKey(m, t[k].0, v);
    assert |m[t[k].0 := v]| == k + 1;
    assert m[t[k].0 := v].Keys == m.Keys + {t[k].0};
  }

  /** A map grows by one when a value is stored under a key it lacks. */
  lemma AddsOneKey<K, V>(m: map<K, V>, key: K, v: V)
    requires key !in m
    ensures |m[key := v]| == |m| + 1
  {
  }

  /** The loop of `get_landmark_positions` over a name-to-index table `t`:
      for each entry in order, read the landmark at its index and store
      its projected position under its name. An index past the end of the
      landmark list raises IndexError, and nothing is returned. */
  method ProjectTable(t: seq<(string, nat)>, landmarks: Pose, imageWidth: int, imageHeight: int)
    returns (r: Option<map<string, Position>>)
    requires DistinctNames(t)
    ensures r.None? <==> !IndicesBelow(t, |landmarks|)
    ensures r.Some? ==> r.value.Keys == NamesUpTo(t, |t|) && |r.value| == |t|
    ensures r.Some? ==> forall k :: 0 <= k < |t| ==>
              t[k].1 < |landmarks| && r.value[t[k].0] == PositionOf(landmarks[t[k].1], imageWidth, imageHeight)
  {
    var positions := map[];
    for k := 0 to |t|
      invariant FilledUpTo(t, k, landmarks, imageWidth, imageHeight, positions)
    {
      var (name, index) := t[k];
      if |landmarks| <= index {
        assert !(t[k].1 < |landmarks|);
        return None;
      }
      StoreNext(t, k, landmarks, imageWidth, imageHeight, positions);
      var landmark := landmarks[index];
      positions := positions[name := Position(ToPixel(landmark.x, imageWidth), ToPixel(landmark.y, imageHeight),
                                              landmark.visibility)];
    }
    return Some(positions);
  }

  /** `get_landmark_positions`: the table's 17 names, each mapped to the
      projected position of the landmark at its index; IndexError, and no
      result, when the list stops before index 28. */
  method GetLandmarkPositions(landmarks: Pose, imageWidth: int, imageHeight: int)
    returns (r: Option<map<string, Position>>)
    ensures r.None? <==> |landmarks| <= MaxTableIndex
    ensures r.Some? ==> r.value.Keys == NamesUpTo(LandmarkIndices, |LandmarkIndices|) && |r.value| == 17
    ensures r.Some? ==> forall k :: 0 <= k < |LandmarkIndices| ==>
              LandmarkIndices[k].1 < |landmarks| &&
              r.value[LandmarkIndices[k].0] == PositionOf(landmarks[LandmarkIndices[k].1], imageWidth, imageHeight)
  {
    TableIndices();
    TableNamesDistinct();
    LongEnoughForTable(landmarks);
    r := ProjectTable(LandmarkIndices, landmarks, imageWidth, imageHeight);
  }

  /** The index the table gives `name`, if any. */
  function IndexOf(t: seq<(string, nat)>, name: string): (r: Option<nat>)
    ensures r.None? <==> forall k :: 0 <= k < |t| ==> t[k].0 != name
    ensures r.Some? ==> exists k :: 0 <= k < |t| && t[k] == (name, r.value)
  {
    if |t| == 0 then None
    else if t[0].0 == name then Some(t[0].1)
    else
      var r := IndexOf(t[1..], name);
      assert r.Some? ==> t[1..][0].0 == name || exists k :: 0 <= k < |t[1..]| && t[1..][k] == (name, r.value);
      r
  }

  /** With distinct names, looking up the name of entry `k` finds entry
      `k`'s index. */
  lemma IndexOfEntry(t: seq<(string, nat)>, k: nat)
    requires DistinctNames(t) && k < |t|
    ensures IndexOf(t, t[k].0) == Some(t[k].1)
  {
    if k > 0 {
      assert t[0].0 != t[k].0;
      assert DistinctNames(t[1..]) by {
        forall a, b | 0 <= a < b < |t[1..]|
          ensures t[1..][a].0 != t[1..][b].0
        {
          assert t[1..][a] == t[a + 1] && t[1..][b] == t[b + 1];
        }
      }
      IndexOfEntry(t[1..], k - 1);
    }
  }

  /** For every body point the renderer reads, the table holds the same
      index under the point's name. */
  lemma RendererIndicesAgree()
    ensures IndexOf(LandmarkIndices, "nose") == Some(Renderer.NoseIndex)
    ensures IndexOf(LandmarkIndices, "left_eye") == Some(Renderer.LeftEyeIndex)
    ensures IndexOf(LandmarkIndices, "right_eye") == Some(Renderer.RightEyeIndex)
    ensures IndexOf(LandmarkIndices, "left_shoulder") == Some(Renderer.LeftShoulderIndex)
    ensures IndexOf(LandmarkIndices, "right_shoulder") == Some(Renderer.RightShoulderIndex)
    ensures IndexOf(LandmarkIndices, "left_elbow") == Some(Renderer.LeftElbowIndex)
    ensures IndexOf(LandmarkIndices, "right_elbow") == Some(Renderer.RightElbowIndex)
    ensures IndexOf(LandmarkIndices, "left_wrist") == Some(Renderer.LeftWristIndex)
    ensures IndexOf(LandmarkIndices, "right_wrist") == Some(Renderer.RightWristIndex)
    ensures IndexOf(LandmarkIndices, "left_hip") == Some(Renderer.LeftHipIndex)
    ensures IndexOf(LandmarkIndices, "right_hip") == Some(Renderer.RightHipIndex)
    ensures IndexOf(LandmarkIndices, "left_knee") == Some(Renderer.LeftKneeIndex)
    ensures IndexOf(LandmarkIndices, "right_knee") == Some(Renderer.RightKneeIndex)
    ensures IndexOf(LandmarkIndices, "left_ankle") == Some(Renderer.LeftAnkleIndex)
    ensures IndexOf(LandmarkIndices, "right_ankle") == Some(Renderer.RightAnkleIndex)
  {
    TableNamesDistinct();
    var t := LandmarkIndices;
    IndexOfEntry(t, 0);
    IndexOfEntry(t, 1);
    IndexOfEntry(t, 2);
    IndexOfEntry(t, 5);
    IndexOfEntry(t, 6);
    IndexOfEntry(t, 7);
    IndexOfEntry(t, 8);
    IndexOfEntry(t, 9);
    IndexOfEntry(t, 10);
    IndexOfEntry(t, 11);
    IndexOfEntry(t, 12);
    IndexOfEntry(t, 13);
    IndexOfEntry(t, 14);
    IndexOfEntry(t, 15);
    IndexOfEntry(t, 16);
  }

  /** With distinct names, the position stored under a name is the one of
      the landmark its table entry points at. */
  lemma PositionByName(t: seq<(string, nat)>, landmarks: Pose, imageWidth: int, imageHeight: int,
                       positions: map<string, Position>, name: string)
    requires DistinctNames(t) && IndicesBelow(t, |landmarks|)
    requires positions.Keys == NamesUpTo(t, |t|)
    requires forall k :: 0 <= k < |t| ==> positions[t[k].0] == PositionOf(landmarks[t[k].1], imageWidth, imageHeight)
    requires name in positions
    ensures IndexOf(t, name).Some?
    ensures IndexOf(t, name).value < |landmarks|
    ensures positions[name] == PositionOf(landmarks[IndexOf(t, name).value], imageWidth, imageHeight)
  {
    var k :| 0 <= k < |t| && t[k].0 == name;
    IndexOfEntry(t, k);
  }
}
