/**
 * The dashboard's selection logic: the sensor vocabularies, the filter that resolves a sensor
 * choice to three column codes and three labels, the plot titles and their left/right rule,
 * the axis pickers, the row filters and column projection, and the dispatch on the selected
 * body unit. Widgets supply the selection; plotting and statistics are not modelled.
 */
module Dashboard {
  import opened Outcomes
  import opened Strings
  import opened Seqs
  import opened Frames
  import DataCleaning
  import DatasetProperties

  // ---------------------------------------------------------------------------
  // Vocabularies (lines 167-171)

  const Xyz: seq<string> := ["X", "Y", "Z"]
  const Motion: seq<string> := ["Acc", "Gyro", "Mag"]
  const MotionLabels: seq<string> := ["Acceleration", "Angular Velocity", "Magnetic Fields"]

  /** The options of the sensor select box (lines 229-235). */
  const Sensors: seq<string> := ["Accelerometers", "Gyroscopes", "Magnetometers"]

  /** The unit codes the dispatch passes (lines 249, 298, 316, 335, 353). */
  const UnitCodes: seq<string> := ["T_", "LA_", "RA_", "LL_", "RL_"]

  /** For each motion label, the three axis names in front of it. */
  function LabelBlocks(): seq<seq<string>>
  {
    seq(|MotionLabels|, j requires 0 <= j < |MotionLabels| =>
      seq(|Xyz|, i requires 0 <= i < |Xyz| => Xyz[i] + " " + MotionLabels[j]))
  }

  /** `sensors_labels`: the nested comprehension, motion label outer and axis inner. */
  function SensorsLabels(): seq<string>
  {
    Flatten(LabelBlocks())
  }

  /** For each motion, the three lower-cased axis letters in front of the lower-cased motion. */
  function CodeBlocks(): seq<seq<string>>
  {
    seq(|Motion|, j requires 0 <= j < |Motion| =>
      seq(|Xyz|, i requires 0 <= i < |Xyz| => Lower(Xyz[i]) + Lower(Motion[j])))
  }

  /** `sensors_codes`: the nested comprehension, motion outer and axis inner. */
  function SensorsCodes(): seq<string>
  {
    Flatten(CodeBlocks())
  }

  lemma LabelAt(j: nat, i: nat)
    requires j < 3 && i < 3
    ensures |SensorsLabels()| == 9
    ensures SensorsLabels()[3 * j + i] == Xyz[i] + " " + MotionLabels[j]
  {
    FlattenUniform(LabelBlocks(), 3, j, i);
  }

  lemma CodeAt(j: nat, i: nat)
    requires j < 3 && i < 3
    ensures |SensorsCodes()| == 9
    ensures SensorsCodes()[3 * j + i] == Lower(Xyz[i]) + Lower(Motion[j])
  {
    FlattenUniform(CodeBlocks(), 3, j, i);
  }

  /** The keys the resolver looks for in the labels, one per sensor. */
  const LabelKeys: seq<string> := ["Acc", "Vel", "Mag"]

  /**
   * After a one-letter axis name and a space, a key with no space in its first two places
   * occurs just when it occurs in what follows.
   */
  lemma ContainsAfterAxis(c: string, b: string, sub: string)
    requires |c| == 1 && |sub| >= 2 && sub[0] != ' ' && sub[1] != ' '
    ensures Contains(c + " " + b, sub) <==> Contains(b, sub)
  {
    var s := c + " " + b;
    var t := s[1..];
    if |sub| <= |s| {
      assert s[..|sub|][1] == ' ';
    }
    assert t == " " + b;
    if |sub| <= |t| {
      assert t[..|sub|][0] == ' ';
    }
    assert t[1..] == b;
  }

  /** Each motion label contains its own sensor's key and neither of the others. */
  lemma MotionLabelKeys(j: nat, m: nat)
    requires j < 3 && m < 3
    ensures Contains(MotionLabels[j], LabelKeys[m]) <==> j == m
  {
    if j == 0 && m == 0 { ContainsAt(MotionLabels[0], LabelKeys[0], 0); }
    else if j == 0 && m == 1 { NoFirstChar(MotionLabels[0], LabelKeys[1]); }
    else if j == 0 && m == 2 { NoFirstChar(MotionLabels[0], LabelKeys[2]); }
    else if j == 1 && m == 0 { NoAdjacentPair(MotionLabels[1], LabelKeys[0]); }
    else if j == 1 && m == 1 { ContainsAt(MotionLabels[1], LabelKeys[1], 8); }
    else if j == 1 && m == 2 { NoFirstChar(MotionLabels[1], LabelKeys[2]); }
    else if j == 2 && m == 0 { NoFirstChar(MotionLabels[2], LabelKeys[0]); }
    else if j == 2 && m == 1 { NoFirstChar(MotionLabels[2], LabelKeys[1]); }
    else if j == 2 && m == 2 { ContainsAt(MotionLabels[2], LabelKeys[2], 0); }
  }

  /** The labels that contain the key of sensor `m` are exactly the three of motion `m`. */
  lemma LabelKey(m: nat, i: nat)
    requires m < 3 && i < 9
    ensures |SensorsLabels()| == 9
    ensures Contains(SensorsLabels()[i], LabelKeys[m]) <==> 3 * m <= i < 3 * m + 3
  {
    var j, k := i / 3, i % 3;
    assert i == 3 * j + k;
    LabelAt(j, k);
    ContainsAfterAxis(Xyz[k], MotionLabels[j], LabelKeys[m]);
    MotionLabelKeys(j, m);
  }

  lemma AccelerationCodes()
    ensures |SensorsCodes()| == 9
    ensures SensorsCodes()[0] == "xacc" && SensorsCodes()[1] == "yacc" && SensorsCodes()[2] == "zacc"
  {
    assert Lower("X") == "x" && Lower("Y") == "y" && Lower("Z") == "z";
    assert Lower("Acc") == "acc";
    CodeAt(0, 0);
    assert SensorsCodes()[0] == "xacc" by { CodeAt(0, 0); }
    assert SensorsCodes()[1] == "yacc" by { CodeAt(0, 1); }
    assert SensorsCodes()[2] == "zacc" by { CodeAt(0, 2); }
  }

  lemma GyroscopeCodes()
    ensures |SensorsCodes()| == 9
    ensures SensorsCodes()[3] == "xgyro" && SensorsCodes()[4] == "ygyro" && SensorsCodes()[5] == "zgyro"
  {
    assert Lower("X") == "x" && Lower("Y") == "y" && Lower("Z") == "z";
    assert Lower("Gyro") == "gyro";
    CodeAt(1, 0);
    assert SensorsCodes()[3] == "xgyro" by { CodeAt(1, 0); }
    assert SensorsCodes()[4] == "ygyro" by { CodeAt(1, 1); }
    assert SensorsCodes()[5] == "zgyro" by { CodeAt(1, 2); }
  }

  lemma MagnetometerCodes()
    ensures |SensorsCodes()| == 9
    ensures SensorsCodes()[6] == "xmag" && SensorsCodes()[7] == "ymag" && SensorsCodes()[8] == "zmag"
  {
    assert Lower("X") == "x" && Lower("Y") == "y" && Lower("Z") == "z";
    assert Lower("Mag") == "mag";
    CodeAt(2, 0);
    assert SensorsCodes()[6] == "xmag" by { CodeAt(2, 0); }
    assert SensorsCodes()[7] == "ymag" by { CodeAt(2, 1); }
    assert SensorsCodes()[8] == "zmag" by { CodeAt(2, 2); }
  }

  /** The dashboard's nine codes are the builder's nine sensor names, in the same order. */
  lemma SensorsCodesLiteral()
    ensures SensorsCodes() == DataCleaning.SensorsCodes
  {
    AccelerationCodes();
    GyroscopeCodes();
    MagnetometerCodes();
    var c := SensorsCodes();
    assert c == [c[0], c[1], c[2], c[3], c[4], c[5], c[6], c[7], c[8]];
  }

  // ---------------------------------------------------------------------------
  // Resolving a sensor choice (lines 40-52)

  /** The elements of `xs` that contain `sub`, in order. */
  function Matching(xs: seq<string>, sub: string): seq<string>
  {
    if |xs| == 0 then []
    else Matching(xs[..|xs| - 1], sub) + if Contains(xs[|xs| - 1], sub) then [xs[|xs| - 1]] else []
  }

  /** `p` in front of every element. */
  function Prefixed(p: string, xs: seq<string>): (r: seq<string>)
    ensures |r| == |xs| && forall i :: 0 <= i < |xs| ==> r[i] == p + xs[i]
  {
    seq(|xs|, i requires 0 <= i < |xs| => p + xs[i])
  }

  /**
   * `sensor_codes_and_labels`, with the selected sensor as a parameter. For a sensor outside
   * the three branches both results are unbound when the function returns; that is None.
   */
  function SensorCodesAndLabels(sensorSelected: string, sensorsCodes: seq<string>, sensorsLabels: seq<string>,
                                unitCode: string): (r: Option<(seq<string>, seq<string>)>)
    ensures r.Some? <==> sensorSelected in Sensors
  {
    if sensorSelected == "Accelerometers" then
      Some((Prefixed(unitCode, Matching(sensorsCodes, "acc")), Matching(sensorsLabels, "Acc")))
    else if sensorSelected == "Gyroscopes" then
      Some((Prefixed(unitCode, Matching(sensorsCodes, "gyro")), Matching(sensorsLabels, "Vel")))
    else if sensorSelected == "Magnetometers" then
      Some((Prefixed(unitCode, Matching(sensorsCodes, "mag")), Matching(sensorsLabels, "Mag")))
    else None
  }

  /** When the elements containing `sub` are exactly those at positions `lo` to `hi`, those are the matches. */
  lemma {:induction false} MatchingBlock(xs: seq<string>, sub: string, lo: nat, hi: nat)
    requires lo <= hi <= |xs|
    requires forall i :: 0 <= i < |xs| ==> (Contains(xs[i], sub) <==> lo <= i < hi)
    ensures Matching(xs, sub) == xs[lo..hi]
    decreases |xs|
  {
    if |xs| > 0 {
      var n := |xs|;
      var init := xs[..n - 1];
      if hi < n {
        MatchingBlock(init, sub, lo, hi);
      } else if lo < n {
        MatchingBlock(init, sub, lo, n - 1);
        assert xs[lo..n] == init[lo..n - 1] + [xs[n - 1]];
      } else {
        MatchingBlock(init, sub, n - 1, n - 1);
      }
    }
  }

  /** Which raw codes contain "acc". */
  lemma CodeKey0(i: nat)
    requires i < 9
    ensures Contains(DataCleaning.SensorsCodes[i], "acc") <==> 0 <= i < 3
  {
    if i == 0 { ContainsAt(DataCleaning.SensorsCodes[0], "acc", 1); }
    else if i == 1 { ContainsAt(DataCleaning.SensorsCodes[1], "acc", 1); }
    else if i == 2 { ContainsAt(DataCleaning.SensorsCodes[2], "acc", 1); }
    else if i == 3 { NoFirstChar(DataCleaning.SensorsCodes[3], "acc"); }
    else if i == 4 { NoFirstChar(DataCleaning.SensorsCodes[4], "acc"); }
    else if i == 5 { NoFirstChar(DataCleaning.SensorsCodes[5], "acc"); }
    else if i == 6 { NoAdjacentPair(DataCleaning.SensorsCodes[6], "acc"); }
    else if i == 7 { NoAdjacentPair(DataCleaning.SensorsCodes[7], "acc"); }
    else if i == 8 { NoAdjacentPair(DataCleaning.SensorsCodes[8], "acc"); }
  }

  /** Which raw codes contain "gyro". */
  lemma CodeKey1(i: nat)
    requires i < 9
    ensures Contains(DataCleaning.SensorsCodes[i], "gyro") <==> 3 <= i < 6
  {
    if i == 0 { NoFirstChar(DataCleaning.SensorsCodes[0], "gyro"); }
    else if i == 1 { NoFirstChar(DataCleaning.SensorsCodes[1], "gyro"); }
    else if i == 2 { NoFirstChar(DataCleaning.SensorsCodes[2], "gyro"); }
    else if i == 3 { ContainsAt(DataCleaning.SensorsCodes[3], "gyro", 1); }
    else if i == 4 { ContainsAt(DataCleaning.SensorsCodes[4], "gyro", 1); }
    else if i == 5 { ContainsAt(DataCleaning.SensorsCodes[5], "gyro", 1); }
    else if i == 6 { NoAdjacentPair(DataCleaning.SensorsCodes[6], "gyro"); }
    else if i == 7 { NoAdjacentPair(DataCleaning.SensorsCodes[7], "gyro"); }
    else if i == 8 { NoAdjacentPair(DataCleaning.SensorsCodes[8], "gyro"); }
  }

  /** Which raw codes contain "mag". */
  lemma CodeKey2(i: nat)
    requires i < 9
    ensures Contains(DataCleaning.SensorsCodes[i], "mag") <==> 6 <= i < 9
  {
    if i == 0 { NoFirstChar(DataCleaning.SensorsCodes[0], "mag"); }
    else if i == 1 { NoFirstChar(DataCleaning.SensorsCodes[1], "mag"); }
    else if i == 2 { NoFirstChar(DataCleaning.SensorsCodes[2], "mag"); }
    else if i == 3 { NoFirstChar(DataCleaning.SensorsCodes[3], "mag"); }
    else if i == 4 { NoFirstChar(DataCleaning.SensorsCodes[4], "mag"); }
    else if i == 5 { NoFirstChar(DataCleaning.SensorsCodes[5], "mag"); }
    else if i == 6 { ContainsAt(DataCleaning.SensorsCodes[6], "mag", 1); }
    else if i == 7 { ContainsAt(DataCleaning.SensorsCodes[7], "mag", 1); }
    else if i == 8 { ContainsAt(DataCleaning.SensorsCodes[8], "mag", 1); }
  }

  /** The three raw codes of motion `m`, in X, Y, Z order, as the builder names them. */
  function Channels(m: nat): seq<string>
    requires m < 3
  {
    DataCleaning.SensorsCodes[3 * m..3 * m + 3]
  }

  /** The three labels of motion `m`: an axis name, a space, the motion label. */
  function ChannelLabels(m: nat): seq<string>
    requires m < 3
  {
    seq(3, i requires 0 <= i < 3 => Xyz[i] + " " + MotionLabels[m])
  }

  /** When the two keys select block `m` of the codes and of the labels, the matches are that block. */
  lemma ResolvedBlock(m: nat, unitCode: string, codeKey: string, labelKey: string)
    requires m < 3
    requires forall i :: 0 <= i < 9 ==> (Contains(DataCleaning.SensorsCodes[i], codeKey) <==> 3 * m <= i < 3 * m + 3)
    requires |SensorsLabels()| == 9
    requires forall i :: 0 <= i < 9 ==> (Contains(SensorsLabels()[i], labelKey) <==> 3 * m <= i < 3 * m + 3)
    ensures Matching(SensorsCodes(), codeKey) == Channels(m)
    ensures Matching(SensorsLabels(), labelKey) == ChannelLabels(m)
  {
    SensorsCodesLiteral();
    MatchingBlock(DataCleaning.SensorsCodes, codeKey, 3 * m, 3 * m + 3);
    MatchingBlock(SensorsLabels(), labelKey, 3 * m, 3 * m + 3);
    forall i | 0 <= i < 3 ensures SensorsLabels()[3 * m..3 * m + 3][i] == ChannelLabels(m)[i] {
      LabelAt(m, i);
    }
  }

  /**
   * Each of the three sensor choices resolves, for any unit code, to the unit code in front of
   * that sensor's three raw codes and to that sensor's three labels, in X, Y, Z order.
   */
  lemma ResolvedChannels(m: nat, unitCode: string)
    requires m < 3
    ensures SensorCodesAndLabels(Sensors[m], SensorsCodes(), SensorsLabels(), unitCode)
         == Some((Prefixed(unitCode, Channels(m)), ChannelLabels(m)))
  {
    LabelAt(0, 0);
    if m == 0 {
      forall i | 0 <= i < 9 ensures Contains(DataCleaning.SensorsCodes[i], "acc") <==> 0 <= i < 3 { CodeKey0(i); }
      forall i | 0 <= i < 9 ensures Contains(SensorsLabels()[i], "Acc") <==> 0 <= i < 3 { LabelKey(0, i); }
      ResolvedBlock(0, unitCode, "acc", "Acc");
    } else if m == 1 {
      forall i | 0 <= i < 9 ensures Contains(DataCleaning.SensorsCodes[i], "gyro") <==> 3 <= i < 6 { CodeKey1(i); }
      forall i | 0 <= i < 9 ensures Contains(SensorsLabels()[i], "Vel") <==> 3 <= i < 6 { LabelKey(1, i); }
      ResolvedBlock(1, unitCode, "gyro", "Vel");
    } else {
      forall i | 0 <= i < 9 ensures Contains(DataCleaning.SensorsCodes[i], "mag") <==> 6 <= i < 9 { CodeKey2(i); }
      forall i | 0 <= i < 9 ensures Contains(SensorsLabels()[i], "Mag") <==> 6 <= i < 9 { LabelKey(2, i); }
      ResolvedBlock(2, unitCode, "mag", "Mag");
    }
  }

  /** Code `i` and label `i` name the same axis: the letter after the unit code is the label's, lower-cased. */
  lemma ChannelAxes(m: nat, unitCode: string, i: nat)
    requires m < 3 && i < 3
    ensures |unitCode| < |Prefixed(unitCode, Channels(m))[i]|
    ensures Prefixed(unitCode, Channels(m))[i][|unitCode|] == LowerChar(ChannelLabels(m)[i][0])
  {
    var raw := DataCleaning.SensorsCodes[3 * m + i];
    assert Prefixed(unitCode, Channels(m))[i] == unitCode + raw;
    assert raw[0] == "xyz"[i];
    assert ChannelLabels(m)[i][0] == Xyz[i][0];
  }

  /** For every unit code the dispatch uses, every resolved code is one of the builder's 45 columns. */
  lemma ResolvedCodesAreColumns(m: nat, unitCode: string, i: nat)
    requires m < 3 && i < 3 && unitCode in UnitCodes
    ensures Prefixed(unitCode, Channels(m))[i] in DataCleaning.DataColumns()
  {
    DatasetProperties.DataColumnsLayout();
    var u := if unitCode == "T_" then 0 else if unitCode == "RA_" then 1 else if unitCode == "LA_" then 2
             else if unitCode == "RL_" then 3 else 4;
    assert unitCode == DataCleaning.UnitsCodes[u] + "_";
    assert DataCleaning.DataColumns()[9 * u + (3 * m + i)]
        == DataCleaning.UnitsCodes[u] + "_" + DataCleaning.SensorsCodes[3 * m + i];
  }

  // ---------------------------------------------------------------------------
  // Plot titles (lines 56-64, 101, 107-112, 128-133, 162)

  /** Which side of the body a unit code names, by the substring tests of the plotting functions. */
  datatype Side = Left | Right | Unsided

  function SideOf(unitCode: string): Side
  {
    if Contains(unitCode, "LA") || Contains(unitCode, "LL") then Left
    else if Contains(unitCode, "RA") || Contains(unitCode, "RL") then Right
    else Unsided
  }

  /** The unit as a title names it: "Left Arms", "Right Legs", or the bare unit. */
  function Sided(side: Side, unitSelected: string): string
  {
    match side
    case Left => "Left " + unitSelected
    case Right => "Right " + unitSelected
    case Unsided => unitSelected
  }

  /**
   * The value `sensor_linechart` assigns to `tick_stepsize`, which no chart reads, and the
   * subheader it writes.
   */
  datatype LineChart = LineChart(tickStep: nat, title: string)

  /**
   * `sensor_linechart`'s settings. For Arms and Legs `tick_stepsize` is assigned 4 and the title
   * names a side; a unit code naming neither side leaves `title` unbound, which is None here.
   */
  function LineChartOf(unitSelected: string, unitCode: string, sensorSelected: string, activitySelected: string)
    : Option<LineChart>
  {
    if unitSelected in ["Arms", "Legs"] then
      match SideOf(unitCode)
      case Unsided => None
      case _ => Some(LineChart(4, sensorSelected + " on " + Sided(SideOf(unitCode), unitSelected) + " while " + activitySelected))
    else Some(LineChart(2, sensorSelected + " on " + unitSelected + " while " + activitySelected))
  }

  /** `sensor_pearson_correlation`'s subheader. */
  function PearsonTitle(unitSelected: string, unitCode: string, sensorSelected: string): string
  {
    "Pearson Correlation of " + Sided(SideOf(unitCode), unitSelected) + " " + sensorSelected
  }

  /** `sensor_distribution`'s subheader. */
  function DistributionTitle(unitSelected: string, unitCode: string, sensorSelected: string): string
  {
    "Distribution of " + Sided(SideOf(unitCode), unitSelected) + " " + sensorSelected
  }

  /** `sensor_3dplot`'s subheader. */
  function ScatterTitle(sensorSelected: string): string
  {
    sensorSelected + " in 3D Space Over Time"
  }

  /** `motion_boxplots`' subheader. */
  function BoxplotTitle(sensorLabel: string): string
  {
    "Boxplot Analysis of " + sensorLabel + " Across Multiple Activities"
  }

  /** The unit each unit code belongs to in the dispatch. */
  function UnitOf(unitCode: string): string
  {
    if unitCode == "T_" then "Torso"
    else if unitCode in ["LA_", "RA_"] then "Arms"
    else "Legs"
  }

  /** The unit codes the dispatch renders for a unit, in page order: left column first. */
  function PanelCodes(unitSelected: string): seq<string>
  {
    if unitSelected == "Torso" then ["T_"]
    else if unitSelected == "Arms" then ["LA_", "RA_"]
    else if unitSelected == "Legs" then ["LL_", "RL_"]
    else []
  }

  /** The side word a title should carry, read off the unit code's first letter. */
  function SidePrefix(unitCode: string): string
  {
    if |unitCode| > 0 && unitCode[0] == 'L' then "Left "
    else if |unitCode| > 0 && unitCode[0] == 'R' then "Right "
    else ""
  }

  /** On the five unit codes the substring tests name the side the first letter names. */
  lemma SideOfUnitCode(unitCode: string, unitSelected: string)
    requires unitCode in UnitCodes
    ensures Sided(SideOf(unitCode), unitSelected) == SidePrefix(unitCode) + unitSelected
    ensures SideOf(unitCode) == Unsided <==> unitCode == "T_"
  {
    if unitCode == "T_" {
      NoFirstChar("T_", "LA"); NoFirstChar("T_", "LL");
      NoFirstChar("T_", "RA"); NoFirstChar("T_", "RL");
    } else if unitCode == "LA_" {
      ContainsAt("LA_", "LA", 0);
    } else if unitCode == "RA_" {
      NoFirstChar("RA_", "LA"); NoFirstChar("RA_", "LL");
      ContainsAt("RA_", "RA", 0);
    } else if unitCode == "LL_" {
      ContainsAt("LL_", "LL", 0);
    } else {
      NoAdjacentPair("RL_", "LA"); NoAdjacentPair("RL_", "LL");
      ContainsAt("RL_", "RL", 0);
    }
  }

  /**
   * The titles of a unit code's panel, as the dispatch calls the plotting functions: the torso
   * chart assigns `tick_stepsize` 2 and names no side; a limb chart assigns 4 and names the code's
   * side. The assigned step is never read by the chart.
   */
  lemma PanelTitles(unitCode: string, sensorSelected: string, activitySelected: string)
    requires unitCode in UnitCodes
    ensures LineChartOf(UnitOf(unitCode), unitCode, sensorSelected, activitySelected)
         == Some(LineChart(if unitCode == "T_" then 2 else 4,
                           sensorSelected + " on " + SidePrefix(unitCode) + UnitOf(unitCode) + " while " + activitySelected))
    ensures PearsonTitle(UnitOf(unitCode), unitCode, sensorSelected)
         == "Pearson Correlation of " + SidePrefix(unitCode) + UnitOf(unitCode) + " " + sensorSelected
    ensures DistributionTitle(UnitOf(unitCode), unitCode, sensorSelected)
         == "Distribution of " + SidePrefix(unitCode) + UnitOf(unitCode) + " " + sensorSelected
  {
    SideOfUnitCode(unitCode, UnitOf(unitCode));
    var s, p, u := sensorSelected, SidePrefix(unitCode), UnitOf(unitCode);
    assert s + " on " + (p + u) + " while " + activitySelected == s + " on " + p + u + " while " + activitySelected;
    if unitCode != "T_" {
      assert u in ["Arms", "Legs"];
    }
  }

  /** A limb chart for a code that names no side has no title: the torso code under Arms or Legs. */
  lemma UnsidedLimbChart(unitSelected: string, sensorSelected: string, activitySelected: string)
    requires unitSelected in ["Arms", "Legs"]
    ensures LineChartOf(unitSelected, "T_", sensorSelected, activitySelected) == None
  {
    SideOfUnitCode("T_", unitSelected);
  }

  // ---------------------------------------------------------------------------
  // Axis pickers (lines 93-95, 279, 286)

  /** The position of the first element satisfying `p`, None when there is none. */
  function FirstWhere(xs: seq<string>, p: string -> bool): (r: Option<nat>)
    ensures r.None? <==> forall i :: 0 <= i < |xs| ==> !p(xs[i])
    ensures r.Some? ==> r.value < |xs| && p(xs[r.value]) && forall j :: 0 <= j < r.value ==> !p(xs[j])
  {
    if |xs| == 0 then None
    else if p(xs[0]) then Some(0)
    else match FirstWhere(xs[1..], p)
      case None => None
      case Some(i) => Some(i + 1)
  }

  /** `[x for x in xs if sub in x][0]`; None stands for the IndexError on an empty list. */
  function FirstContaining(xs: seq<string>, sub: string): Option<string>
  {
    match FirstWhere(xs, x => Contains(x, sub))
    case None => None
    case Some(i) => Some(xs[i])
  }

  /** `sensor_3dplot`'s three picks: the first entry containing "x", "y" and "z". */
  function Axes3D(codes: seq<string>): Option<(string, string, string)>
  {
    match (FirstContaining(codes, "x"), FirstContaining(codes, "y"), FirstContaining(codes, "z"))
    case (Some(x), Some(y), Some(z)) => Some((x, y, z))
    case _ => None
  }

  /** The boxplot's code: the first containing the lower-cased first letter of the choice (line 286). */
  function BoxplotCode(codes: seq<string>, choice: string): Option<string>
  {
    if |choice| == 0 then None else FirstContaining(codes, Lower(choice[..1]))
  }

  /** The choices of the boxplot's select box for a sensor (line 279). */
  function BoxplotOptions(sensorSelected: string): seq<string>
  {
    seq(3, i requires 0 <= i < 3 => Xyz[i] + " " + sensorSelected)
  }

  /** Which resolved codes contain a lower-case axis letter: the unit code contributes none. */
  lemma ResolvedLetters(m: nat, unitCode: string, i: nat, c: char)
    requires m < 3 && i < 3 && unitCode in UnitCodes && 'a' <= c <= 'z'
    ensures Contains(Prefixed(unitCode, Channels(m))[i], [c]) <==> c in DataCleaning.SensorsCodes[3 * m + i]
  {
    var code := Prefixed(unitCode, Channels(m))[i];
    assert code == unitCode + DataCleaning.SensorsCodes[3 * m + i];
    assert c !in unitCode;
    ContainsChar(code, c);
  }

  /** The picks when the first entry holding the letter stands at a given position. */
  lemma FirstContainingAt(xs: seq<string>, sub: string, i: nat)
    requires i < |xs| && Contains(xs[i], sub) && forall j :: 0 <= j < i ==> !Contains(xs[j], sub)
    ensures FirstContaining(xs, sub) == Some(xs[i])
  {
    var r := FirstWhere(xs, x => Contains(x, sub));
    assert (x => Contains(x, sub))(xs[i]);
  }

  /** The lower-case axis letters the pickers look for, in X, Y, Z order. */
  const AxisLetters: string := "xyz"

  /** Which raw codes hold which axis letter: only its own, except that every "gyro" code holds a "y". */
  lemma RawAxisLetters(m: nat, i: nat, a: nat)
    requires m < 3 && i < 3 && a < 3
    ensures AxisLetters[a] in DataCleaning.SensorsCodes[3 * m + i] <==> i == a || (m == 1 && a == 1)
  {
    var raw := DataCleaning.SensorsCodes[3 * m + i];
    if m == 1 {
      assert raw[2] == 'y';
    }
  }

  /** The pick for one letter among the resolved codes: its own axis, or X for "y" among gyroscope codes. */
  lemma ResolvedPick(m: nat, unitCode: string, a: nat)
    requires m < 3 && a < 3 && unitCode in UnitCodes
    ensures FirstContaining(Prefixed(unitCode, Channels(m)), [AxisLetters[a]])
         == Some(Prefixed(unitCode, Channels(m))[if m == 1 && a == 1 then 0 else a])
  {
    var codes := Prefixed(unitCode, Channels(m));
    var c := AxisLetters[a];
    forall i | 0 <= i < 3 ensures Contains(codes[i], [c]) <==> i == a || (m == 1 && a == 1) {
      ResolvedLetters(m, unitCode, i, c);
      RawAxisLetters(m, i, a);
    }
    FirstContainingAt(codes, [c], if m == 1 && a == 1 then 0 else a);
  }

  /**
   * Lines 93-95 on the resolved codes: accelerometer and magnetometer codes give the X, Y and Z
   * columns; for gyroscopes the "y" pick lands on the X column, because "gyro" holds a "y".
   */
  lemma ScatterAxesAsWritten(m: nat, unitCode: string)
    requires m < 3 && unitCode in UnitCodes
    ensures Axes3D(Prefixed(unitCode, Channels(m)))
         == Some((Prefixed(unitCode, Channels(m))[0],
                  Prefixed(unitCode, Channels(m))[if m == 1 then 0 else 1],
                  Prefixed(unitCode, Channels(m))[2]))
  {
    assert "x" == [AxisLetters[0]] && "y" == [AxisLetters[1]] && "z" == [AxisLetters[2]];
    ResolvedPick(m, unitCode, 0);
    ResolvedPick(m, unitCode, 1);
    ResolvedPick(m, unitCode, 2);
  }

  /** The gyroscope scatter plots the X column against itself and never shows the Y column. */
  lemma GyroscopeScatterSkipsY(unitCode: string)
    requires unitCode in UnitCodes
    ensures Axes3D(Prefixed(unitCode, Channels(1))).Some?
    ensures Axes3D(Prefixed(unitCode, Channels(1))).value.0 == unitCode + "xgyro"
    ensures Axes3D(Prefixed(unitCode, Channels(1))).value.1 == unitCode + "xgyro"
    ensures unitCode + "ygyro" !in [Axes3D(Prefixed(unitCode, Channels(1))).value.0,
                                    Axes3D(Prefixed(unitCode, Channels(1))).value.1,
                                    Axes3D(Prefixed(unitCode, Channels(1))).value.2]
  {
    ScatterAxesAsWritten(1, unitCode);
    var codes := Prefixed(unitCode, Channels(1));
    assert codes[0] == unitCode + "xgyro" && codes[2] == unitCode + "zgyro";
    assert (unitCode + "xgyro")[|unitCode|] != (unitCode + "ygyro")[|unitCode|];
    assert (unitCode + "zgyro")[|unitCode|] != (unitCode + "ygyro")[|unitCode|];
  }

  /** An appended entry that does not hold `sub` does not change the first match. */
  lemma FirstContainingAppend(xs: seq<string>, t: string, sub: string)
    requires !Contains(t, sub)
    ensures FirstContaining(xs + [t], sub) == FirstContaining(xs, sub)
  {
    var p := x => Contains(x, sub);
    var r := FirstWhere(xs, p);
    var r' := FirstWhere(xs + [t], p);
    assert forall i :: 0 <= i < |xs| ==> (xs + [t])[i] == xs[i];
    if r.None? {
      assert !p((xs + [t])[|xs|]);
    }
  }

  /** "segment" holds none of the axis letters. */
  lemma SegmentHasNoAxisLetter(a: nat)
    requires a < 3
    ensures !Contains("segment", [AxisLetters[a]])
  {
    ContainsChar("segment", AxisLetters[a]);
  }

  /**
   * Lines 319-324 and 356-361 pass the projected table, whose iteration gives the codes and then
   * "segment"; the picks are the same as from the codes alone.
   */
  lemma ProjectedTableAxes(m: nat, unitCode: string)
    requires m < 3 && unitCode in UnitCodes
    ensures Axes3D(Prefixed(unitCode, Channels(m)) + ["segment"]) == Axes3D(Prefixed(unitCode, Channels(m)))
  {
    var codes := Prefixed(unitCode, Channels(m));
    assert "x" == [AxisLetters[0]] && "y" == [AxisLetters[1]] && "z" == [AxisLetters[2]];
    SegmentHasNoAxisLetter(0);
    SegmentHasNoAxisLetter(1);
    SegmentHasNoAxisLetter(2);
    FirstContainingAppend(codes, "segment", "x");
    FirstContainingAppend(codes, "segment", "y");
    FirstContainingAppend(codes, "segment", "z");
  }

  /** Line 286 on the resolved codes, for the three choices the select box offers. */
  lemma BoxplotCodeAsWritten(m: nat, unitCode: string, a: nat)
    requires m < 3 && a < 3 && unitCode in UnitCodes
    ensures BoxplotCode(Prefixed(unitCode, Channels(m)), BoxplotOptions(Sensors[m])[a])
         == Some(Prefixed(unitCode, Channels(m))[if m == 1 && a == 1 then 0 else a])
  {
    var choice := BoxplotOptions(Sensors[m])[a];
    assert choice[..1] == [Xyz[a][0]];
    assert Lower(choice[..1]) == [AxisLetters[a]];
    ResolvedPick(m, unitCode, a);
  }

  // ---------------------------------------------------------------------------
  // Corrected axis pickers: the axis letter right after the unit code's underscore

  /** The block the corrected pickers look for: an underscore and the axis letter. */
  function AxisKey(letter: string): string
  {
    "_" + letter
  }

  /** `sensor_3dplot`'s picks, each by the letter after the underscore. */
  function AxesByKey(codes: seq<string>): Option<(string, string, string)>
  {
    match (FirstContaining(codes, AxisKey("x")), FirstContaining(codes, AxisKey("y")), FirstContaining(codes, AxisKey("z")))
    case (Some(x), Some(y), Some(z)) => Some((x, y, z))
    case _ => None
  }

  /** The boxplot's code, by the choice's lower-cased first letter after the underscore. */
  function BoxplotCodeByKey(codes: seq<string>, choice: string): Option<string>
  {
    if |choice| == 0 then None else FirstContaining(codes, AxisKey(Lower(choice[..1])))
  }

  /** In a name with a single underscore, "_c" occurs just when `c` opens the part after it. */
  lemma UnderscoreKey(p: string, raw: string, c: char)
    requires '_' !in p && '_' !in raw && |raw| > 0
    ensures Contains(p + "_" + raw, AxisKey([c])) <==> raw[0] == c
  {
    var s := p + "_" + raw;
    var sub := AxisKey([c]);
    if raw[0] == c {
      ContainsAt(s, sub, |p|);
    } else {
      forall i | 0 <= i < |s| - 1 ensures !(s[i] == sub[0] && s[i + 1] == sub[1]) {
        if i < |p| {
          assert s[i] == p[i];
        } else if i > |p| {
          assert s[i] == raw[i - |p| - 1];
        }
      }
      NoAdjacentPair(s, sub);
    }
  }

  /** A unit code is a unit name without underscores followed by one underscore. */
  lemma UnitCodeShape(unitCode: string) returns (u: nat)
    requires unitCode in UnitCodes
    ensures u < |DataCleaning.UnitsCodes| && unitCode == DataCleaning.UnitsCodes[u] + "_"
    ensures '_' !in DataCleaning.UnitsCodes[u]
  {
    u := if unitCode == "T_" then 0 else if unitCode == "RA_" then 1 else if unitCode == "LA_" then 2
         else if unitCode == "RL_" then 3 else 4;
  }

  /** Among the resolved codes, and among them followed by "segment", each key picks its own axis. */
  lemma ResolvedKeyPick(m: nat, unitCode: string, a: nat)
    requires m < 3 && a < 3 && unitCode in UnitCodes
    ensures FirstContaining(Prefixed(unitCode, Channels(m)), AxisKey([AxisLetters[a]]))
         == Some(Prefixed(unitCode, Channels(m))[a])
    ensures FirstContaining(Prefixed(unitCode, Channels(m)) + ["segment"], AxisKey([AxisLetters[a]]))
         == Some(Prefixed(unitCode, Channels(m))[a])
  {
    var codes := Prefixed(unitCode, Channels(m));
    var c := AxisLetters[a];
    var u := UnitCodeShape(unitCode);
    forall i | 0 <= i < 3 ensures Contains(codes[i], AxisKey([c])) <==> i == a {
      var raw := DataCleaning.SensorsCodes[3 * m + i];
      assert codes[i] == DataCleaning.UnitsCodes[u] + "_" + raw;
      UnderscoreKey(DataCleaning.UnitsCodes[u], raw, c);
    }
    FirstContainingAt(codes, AxisKey([c]), a);
    NoFirstChar("segment", AxisKey([c]));
    FirstContainingAppend(codes, "segment", AxisKey([c]));
  }

  /** The corrected scatter picks the X, Y and Z columns, from the codes or from the projected table. */
  lemma ScatterAxesByKey(m: nat, unitCode: string)
    requires m < 3 && unitCode in UnitCodes
    ensures AxesByKey(Prefixed(unitCode, Channels(m)))
         == Some((Prefixed(unitCode, Channels(m))[0], Prefixed(unitCode, Channels(m))[1], Prefixed(unitCode, Channels(m))[2]))
    ensures AxesByKey(Prefixed(unitCode, Channels(m)) + ["segment"]) == AxesByKey(Prefixed(unitCode, Channels(m)))
  {
    assert "x" == [AxisLetters[0]] && "y" == [AxisLetters[1]] && "z" == [AxisLetters[2]];
    ResolvedKeyPick(m, unitCode, 0);
    ResolvedKeyPick(m, unitCode, 1);
    ResolvedKeyPick(m, unitCode, 2);
  }

  /** The corrected boxplot pick is the column of the chosen axis, for every sensor. */
  lemma BoxplotCodeByKeyPicksAxis(m: nat, unitCode: string, a: nat)
    requires m < 3 && a < 3 && unitCode in UnitCodes
    ensures BoxplotCodeByKey(Prefixed(unitCode, Channels(m)), BoxplotOptions(Sensors[m])[a])
         == Some(Prefixed(unitCode, Channels(m))[a])
  {
    var choice := BoxplotOptions(Sensors[m])[a];
    assert choice[..1] == [Xyz[a][0]];
    assert Lower(choice[..1]) == [AxisLetters[a]];
    ResolvedKeyPick(m, unitCode, a);
  }
}
