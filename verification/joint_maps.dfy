/**
 * Joint configurations as name-to-angle dictionaries, the seed built from
 * them, and the dictionary built from a solution's parallel name and
 * position lists.
 */
module JointMaps {
  import opened Results

  /** A joint configuration keyed by joint name (a Limb API dictionary). */
  type JointMap = map<string, real>

  /** sensor_msgs JointState, restricted to the two fields the routine fills. */
  datatype JointState = JointState(name: seq<string>, position: seq<real>)

  /** The seven arm joints, in the order the seed lists them. */
  const JointNames: seq<string> :=
    ["right_j0", "right_j1", "right_j2", "right_j3", "right_j4", "right_j5", "right_j6"]

  /** No name occurs twice in `names`. */
  predicate Distinct(names: seq<string>)
  {
    forall i, j :: 0 <= i < j < |names| ==> names[i] != names[j]
  }

  /** `q` has an angle for each of the seven arm joints. */
  predicate Covers(q: JointMap)
  {
    forall k {:trigger JointNames[k] in q} :: 0 <= k < |JointNames| ==> JointNames[k] in q
  }

  /**
   * The index of the first of the seven joints, from `from` on, that `q`
   * lacks, or `|JointNames|` when it has them all. The list display
   * `[q['right_j0'], ..., q['right_j6']]` is evaluated left to right, so the
   * KeyError it raises names this joint.
   */
  function FirstMissing(q: JointMap, from: nat): (k: nat)
    requires from <= |JointNames|
    ensures from <= k <= |JointNames|
    ensures k < |JointNames| ==> JointNames[k] !in q
    ensures forall j {:trigger JointNames[j] in q} :: from <= j < k ==> JointNames[j] in q
    decreases |JointNames| - from
  {
    if from == |JointNames| then from
    else if JointNames[from] !in q then from
    else FirstMissing(q, from + 1)
  }

  /**
   * The seed of an IK request: the seven joint names in order with the
   * matching angles of `q`, or the first joint `q` lacks.
   */
  function SeedState(q: JointMap): (r: Result<JointState, string>)
    ensures r.Ok? <==> Covers(q)
    ensures r.Ok? ==> r.value.name == JointNames && |r.value.position| == |JointNames|
    ensures r.Ok? ==> forall k {:trigger r.value.position[k]} :: 0 <= k < |JointNames| ==> r.value.position[k] == q[JointNames[k]]
    ensures r.Err? ==> FirstMissing(q, 0) < |JointNames| && r.error == JointNames[FirstMissing(q, 0)]
  {
    var missing := FirstMissing(q, 0);
    if missing < |JointNames| then Err(JointNames[missing])
    else Ok(JointState(JointNames, seq(|JointNames|, k requires 0 <= k < |JointNames| => q[JointNames[k]])))
  }

  /** A configuration without `right_j0` fails the seed lookup on that name first. */
  lemma SeedOfEmptyMap()
    ensures SeedState(map[]) == Err(JointNames[0])
  {
    var empty: JointMap := map[];
    assert FirstMissing(empty, 0) == 0;
  }

  /** `names[k]` is not repeated among the first `n` names after index `k`. */
  predicate LastBefore(names: seq<string>, n: nat, k: nat)
    requires k < n <= |names|
  {
    forall j :: k < j < n ==> names[j] != names[k]
  }

  /** The dictionary built from the first `n` pairs, inserted left to right. */
  function ZipPrefix(names: seq<string>, positions: seq<real>, n: nat): (r: JointMap)
    requires n <= |names| && n <= |positions|
    ensures forall x :: x in r <==> exists k :: 0 <= k < n && names[k] == x
    ensures forall k :: 0 <= k < n && LastBefore(names, n, k) ==> r[names[k]] == positions[k]
    decreases n
  {
    if n == 0 then map[]
    else
      var earlier := ZipPrefix(names, positions, n - 1);
      var r := earlier[names[n - 1] := positions[n - 1]];
      assert forall k :: 0 <= k < n - 1 && LastBefore(names, n, k) ==> LastBefore(names, n - 1, k);
      r
  }

  /**
   * `dict(zip(names, positions))`: pairs the lists up to the shorter length
   * and inserts them left to right, so a later duplicate name wins.
   */
  function ZipToMap(names: seq<string>, positions: seq<real>): (r: JointMap)
    ensures forall x :: x in r <==> exists k :: 0 <= k < Min(|names|, |positions|) && names[k] == x
    ensures forall k :: 0 <= k < Min(|names|, |positions|) && LastBefore(names, Min(|names|, |positions|), k)
              ==> r[names[k]] == positions[k]
  {
    ZipPrefix(names, positions, Min(|names|, |positions|))
  }

  /** With distinct names, each name maps to the position at its own index. */
  lemma ZipDistinct(names: seq<string>, positions: seq<real>)
    requires Distinct(names)
    ensures forall k :: 0 <= k < Min(|names|, |positions|) ==>
      names[k] in ZipToMap(names, positions) && ZipToMap(names, positions)[names[k]] == positions[k]
  {
  }

  /** The seven joint names differ in their last character. */
  lemma JointNamesDistinct()
    ensures Distinct(JointNames)
  {
    forall i, j | 0 <= i < j < |JointNames| ensures JointNames[i] != JointNames[j] {
      assert |JointNames[i]| == 8 && |JointNames[j]| == 8;
      assert JointNames[i][7] != JointNames[j][7];
    }
  }

  /** The dictionary of a seven-joint solution holds each joint's own angle. */
  lemma ZipJointNames(angles: seq<real>)
    requires |angles| == |JointNames|
    ensures forall k :: 0 <= k < |JointNames| ==>
      JointNames[k] in ZipToMap(JointNames, angles) && ZipToMap(JointNames, angles)[JointNames[k]] == angles[k]
  {
    JointNamesDistinct();
    ZipDistinct(JointNames, angles);
  }

  /** A configuration that holds the given seven angles seeds with exactly them. */
  lemma SeedOfAngles(q: JointMap, angles: seq<real>)
    requires |angles| == |JointNames|
    requires forall k :: 0 <= k < |JointNames| ==> JointNames[k] in q && q[JointNames[k]] == angles[k]
    ensures SeedState(q) == Ok(JointState(JointNames, angles))
  {
    var r := SeedState(q);
    assert r.value.position == angles;
  }

  /** The seed message, read back as a dictionary, holds `q`'s seven joint angles and nothing else. */
  lemma SeedRoundTrip(q: JointMap)
    requires Covers(q)
    ensures var s := SeedState(q).value;
            && (forall x :: x in ZipToMap(s.name, s.position) ==> x in JointNames)
            && (forall k :: 0 <= k < |JointNames| ==>
                  JointNames[k] in ZipToMap(s.name, s.position)
                  && ZipToMap(s.name, s.position)[JointNames[k]] == q[JointNames[k]])
  {
    var s := SeedState(q).value;
    var z := ZipToMap(JointNames, s.position);
    assert forall x :: x in z ==> x in JointNames by {
      forall x | x in z ensures x in JointNames {
        var k :| 0 <= k < |JointNames| && JointNames[k] == x;
      }
    }
    assert forall k :: 0 <= k < |JointNames| ==> JointNames[k] in z && z[JointNames[k]] == q[JointNames[k]] by {
      ZipJointNames(s.position);
    }
  }

  /** A solution listing exactly the seven joints seeds the next request with its own angles. */
  lemma ZipThenSeed(angles: seq<real>)
    requires |angles| == |JointNames|
    ensures SeedState(ZipToMap(JointNames, angles)) == Ok(JointState(JointNames, angles))
  {
    ZipJointNames(angles);
    SeedOfAngles(ZipToMap(JointNames, angles), angles);
  }
}
