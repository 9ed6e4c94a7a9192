/**
 The three qualitative classifiers of the dataset builder: each maps the
 average pixel value of one material map to one of three fixed labels.

 The branch tests are Python's `value in range(lo, hi)` applied to a float.
 A range object has a fast membership test only for integers; for any other
 value it compares the value for equality with each integer lo, lo+1, ...,
 hi-1. So the test holds only for a whole number in [lo, hi): 12.0 is in
 range(10, 15), 12.5 is not. The statistic is modelled as an exact real.
 */
module Classifiers {

  const DULL := "dull"
  const GLOSSY := "glossy"
  const EXTRA_SHINY := "extra shiny"

  const DECENTLY_SMOOTH := "decently smooth"
  const A_BIT_ROUGH := "a bit rough"
  const PRETTY_ROUGH := "pretty rough"

  const LOW_ROUGHNESS := "low roughness"
  const AVERAGE_ROUGHNESS := "average roughness"
  const HIGH_ROUGHNESS := "high roughness"

  const SPECULAR_LABELS: set<string> := {DULL, GLOSSY, EXTRA_SHINY}
  const ROUGHNESS_LABELS: set<string> := {DECENTLY_SMOOTH, A_BIT_ROUGH, PRETTY_ROUGH}
  const NORMALS_LABELS: set<string> := {LOW_ROUGHNESS, AVERAGE_ROUGHNESS, HIGH_ROUGHNESS}

  /** Python's `value in range(lo, hi)` as the interpreter evaluates it for a
      float: the value equals one of the integers the range yields. */
  ghost predicate RangeHolds(value: real, lo: int, hi: int) {
    exists i: int :: lo <= i < hi && value == AsReal(i)
  }

  /** `i as real` under a name, so the quantifier in `RangeHolds` has a term
      to trigger on; it has no counterpart in the script. */
  function AsReal(i: int): real {
    i as real
  }

  predicate IsWhole(value: real) {
    value == value.Floor as real
  }

  /** The decidable form of the same membership test. */
  predicate InRange(value: real, lo: int, hi: int) {
    IsWhole(value) && lo <= value.Floor < hi
  }

  lemma InRangeIsRangeMembership(value: real, lo: int, hi: int)
    ensures InRange(value, lo, hi) <==> RangeHolds(value, lo, hi)
  {
    if InRange(value, lo, hi) {
      var i := value.Floor;
      assert lo <= i < hi && value == AsReal(i);
    }
    if RangeHolds(value, lo, hi) {
      var i :| lo <= i < hi && value == AsReal(i);
      assert value.Floor == i;
    }
  }

  function DescribeSpecular(value: real): (desc: string)
    ensures desc in SPECULAR_LABELS
    ensures desc == DULL <==> RangeHolds(value, 10, 15)
    ensures desc == GLOSSY <==> RangeHolds(value, 15, 20)
    ensures desc == EXTRA_SHINY <==> !IsWhole(value) || value < 10.0 || 20.0 <= value
  {
    InRangeIsRangeMembership(value, 10, 15);
    InRangeIsRangeMembership(value, 15, 20);
    if InRange(value, 10, 15) then DULL
    else if InRange(value, 15, 20) then GLOSSY
    else EXTRA_SHINY
  }

  function DescribeRoughness(value: real): (desc: string)
    ensures desc in ROUGHNESS_LABELS
    ensures desc == DECENTLY_SMOOTH <==> RangeHolds(value, 50, 100)
    ensures desc == A_BIT_ROUGH <==> RangeHolds(value, 100, 150)
    ensures desc == PRETTY_ROUGH <==> !IsWhole(value) || value < 50.0 || 150.0 <= value
  {
    InRangeIsRangeMembership(value, 50, 100);
    InRangeIsRangeMembership(value, 100, 150);
    if InRange(value, 50, 100) then DECENTLY_SMOOTH
    else if InRange(value, 100, 150) then A_BIT_ROUGH
    else PRETTY_ROUGH
  }

  /** The second argument is accepted and never consulted; the first branch
      is an ordinary comparison, so it also catches non-whole values. */
  function DescribeNormals(avgValue: real, stdevValue: real): (desc: string)
    ensures desc in NORMALS_LABELS
    ensures desc == LOW_ROUGHNESS <==> avgValue < 160.0
    ensures desc == AVERAGE_ROUGHNESS <==> RangeHolds(avgValue, 160, 170)
    ensures desc == HIGH_ROUGHNESS <==> 160.0 <= avgValue && (!IsWhole(avgValue) || 170.0 <= avgValue)
  {
    InRangeIsRangeMembership(avgValue, 160, 170);
    if avgValue < 160.0 then LOW_ROUGHNESS
    else if InRange(avgValue, 160, 170) then AVERAGE_ROUGHNESS
    else HIGH_ROUGHNESS
  }

  /** Each classifier picks exactly one of three distinct labels. */
  lemma LabelsAreDistinct()
    ensures |SPECULAR_LABELS| == 3 && |ROUGHNESS_LABELS| == 3 && |NORMALS_LABELS| == 3
  {
    assert DULL != GLOSSY && DULL != EXTRA_SHINY && GLOSSY != EXTRA_SHINY by {
      assert DULL[0] != GLOSSY[0] && DULL[0] != EXTRA_SHINY[0] && GLOSSY[0] != EXTRA_SHINY[0];
    }
    assert DECENTLY_SMOOTH[0] != A_BIT_ROUGH[0];
    assert DECENTLY_SMOOTH[0] != PRETTY_ROUGH[0];
    assert A_BIT_ROUGH[0] != PRETTY_ROUGH[0];
    assert LOW_ROUGHNESS[0] != AVERAGE_ROUGHNESS[0];
    assert LOW_ROUGHNESS[0] != HIGH_ROUGHNESS[0];
    assert AVERAGE_ROUGHNESS[0] != HIGH_ROUGHNESS[0];
  }

  lemma NormalsIgnoresStdev(avgValue: real, stdev1: real, stdev2: real)
    ensures DescribeNormals(avgValue, stdev1) == DescribeNormals(avgValue, stdev2)
  {
  }

  /** Worked values, and the fractional values that fall through every
      range test. */
  lemma ClassifierExamples()
    ensures DescribeSpecular(12.0) == DULL && DescribeSpecular(17.0) == GLOSSY
    ensures DescribeSpecular(5.0) == EXTRA_SHINY && DescribeSpecular(22.0) == EXTRA_SHINY
    ensures DescribeSpecular(12.5) == EXTRA_SHINY
    ensures DescribeRoughness(75.0) == DECENTLY_SMOOTH && DescribeRoughness(120.0) == A_BIT_ROUGH
    ensures DescribeRoughness(200.0) == PRETTY_ROUGH && DescribeRoughness(75.25) == PRETTY_ROUGH
    ensures DescribeNormals(140.0, 0.0) == LOW_ROUGHNESS && DescribeNormals(159.5, 0.0) == LOW_ROUGHNESS
    ensures DescribeNormals(165.0, 0.0) == AVERAGE_ROUGHNESS
    ensures DescribeNormals(180.0, 0.0) == HIGH_ROUGHNESS && DescribeNormals(165.5, 0.0) == HIGH_ROUGHNESS
  {
  }
}
