/**
 * The exploratory page of the dashboard: the subject and activity row filters, the projection
 * onto the resolved columns, and the dispatch on the selected body unit that decides which unit
 * codes get a panel of charts and what each chart is given. The selection arrives as a value;
 * what the charts draw is not modelled, only their inputs and titles.
 */
module DashboardPage {
  import opened Outcomes
  import opened Strings
  import opened Frames
  import DataCleaning
  import DatasetProperties
  import opened Dashboard

  // ---------------------------------------------------------------------------
  // Row filters (lines 247, 284, 293)

  /** `(data["subject"] == person) & (data["activity_name"] == activity)` on one row. */
  predicate IsSubjectAndActivity(columns: seq<string>, row: Row, person: string, activity: string)
  {
    IsText(CellAt(columns, row, "subject"), person) && IsText(CellAt(columns, row, "activity_name"), activity)
  }

  /**
   * `(data["subject"] == person) & (data["activity_name"].isin(activities))` on one row. The
   * selected activities are cells of the label column, so a selected NaN matches a NaN label.
   */
  predicate IsSubjectInActivities(columns: seq<string>, row: Row, person: string, activities: seq<Cell>)
  {
    IsText(CellAt(columns, row, "subject"), person) && CellAt(columns, row, "activity_name") in activities
  }

  /** The rows `out` are those of `rows` that `keep` accepts, one for one, in their original order. */
  predicate SelectsInOrder(out: seq<Row>, rows: seq<Row>, keep: Row -> bool)
  {
    && |out| == |KeptPositions(rows, keep)|
    && (forall k :: 0 <= k < |out| ==>
          KeptPositions(rows, keep)[k] < |rows| && out[k] == rows[KeptPositions(rows, keep)[k]])
    && (forall k1, k2 :: 0 <= k1 < k2 < |out| ==> KeptPositions(rows, keep)[k1] < KeptPositions(rows, keep)[k2])
    && (forall j :: 0 <= j < |rows| ==> (j in KeptPositions(rows, keep) <==> keep(rows[j])))
  }

  /** `df[mask]` read through the positions of the kept rows. */
  lemma WhereSelectsInOrder(f: Frame, keep: Row -> bool)
    requires Valid(f)
    ensures SelectsInOrder(Where(f, keep).rows, f.rows, keep)
  {
    FilterAt(f.rows, keep);
    KeptPositionsSpec(f.rows, keep);
  }

  /**
   * Lines 247 and 293: the rows of `person` doing `activity`, in their original order, under all
   * columns. Either column missing raises, `subject` being looked up first.
   */
  function FilterSubjectAndActivity(data: Frame, person: string, activity: string): (r: Result<Frame, Frames.Error>)
    requires Valid(data)
    ensures "subject" !in data.columns ==> r == Err(KeyError("subject"))
    ensures "subject" in data.columns && "activity_name" !in data.columns ==> r == Err(KeyError("activity_name"))
    ensures r.Ok? <==> "subject" in data.columns && "activity_name" in data.columns
    ensures r.Ok? ==> Valid(r.value) && r.value.columns == data.columns
    ensures r.Ok? ==> SelectsInOrder(r.value.rows, data.rows,
                                     row => IsSubjectAndActivity(data.columns, row, person, activity))
  {
    if "subject" !in data.columns then Err(KeyError("subject"))
    else if "activity_name" !in data.columns then Err(KeyError("activity_name"))
    else
      var keep := row => IsSubjectAndActivity(data.columns, row, person, activity);
      WhereSelectsInOrder(data, keep);
      Ok(Where(data, keep))
  }

  /** Line 284: the rows of `person` whose activity label is one of `activities`, in their original order. */
  function FilterSubjectInActivities(data: Frame, person: string, activities: seq<Cell>)
    : (r: Result<Frame, Frames.Error>)
    requires Valid(data)
    ensures "subject" !in data.columns ==> r == Err(KeyError("subject"))
    ensures "subject" in data.columns && "activity_name" !in data.columns ==> r == Err(KeyError("activity_name"))
    ensures r.Ok? <==> "subject" in data.columns && "activity_name" in data.columns
    ensures r.Ok? ==> Valid(r.value) && r.value.columns == data.columns
    ensures r.Ok? ==> SelectsInOrder(r.value.rows, data.rows,
                                     row => IsSubjectInActivities(data.columns, row, person, activities))
  {
    if "subject" !in data.columns then Err(KeyError("subject"))
    else if "activity_name" !in data.columns then Err(KeyError("activity_name"))
    else
      var keep := row => IsSubjectInActivities(data.columns, row, person, activities);
      WhereSelectsInOrder(data, keep);
      Ok(Where(data, keep))
  }

  /**
   * Lines 269-284 with the multi-select left at its default, every label the column holds: the
   * boxplot keeps every row of the subject, NaN-labelled rows included.
   */
  lemma DefaultActivitiesKeepSubject(data: Frame, person: string, activities: seq<Cell>)
    requires Valid(data) && "subject" in data.columns && "activity_name" in data.columns
    requires forall k :: 0 <= k < |data.rows| ==> CellAt(data.columns, data.rows[k], "activity_name") in activities
    ensures FilterSubjectInActivities(data, person, activities).Ok?
    ensures SelectsInOrder(FilterSubjectInActivities(data, person, activities).value.rows, data.rows,
                           row => IsText(CellAt(data.columns, row, "subject"), person))
  {
    var keep := row => IsSubjectInActivities(data.columns, row, person, activities);
    var keep' := row => IsText(CellAt(data.columns, row, "subject"), person);
    KeptPositionsSame(data.rows, keep, keep');
  }

  // ---------------------------------------------------------------------------
  // Projection (lines 252, 301, 319, 338, 356)

  /**
   * `filtered[codes + ["segment"]]` on a table with the dataset's columns: it succeeds, has exactly
   * the three resolved codes and "segment" as columns, keeps every row, and each cell is the one
   * the row held under that name.
   */
  lemma ProjectResolved(f: Frame, m: nat, unitCode: string)
    requires Valid(f) && f.columns == DatasetProperties.OutputColumns()
    requires m < 3 && unitCode in UnitCodes
    ensures Project(f, Prefixed(unitCode, Channels(m)) + ["segment"]).Ok?
    ensures Project(f, Prefixed(unitCode, Channels(m)) + ["segment"]).value.columns
         == Prefixed(unitCode, Channels(m)) + ["segment"]
    ensures |Project(f, Prefixed(unitCode, Channels(m)) + ["segment"]).value.rows| == |f.rows|
    ensures forall k, j :: 0 <= k < |f.rows| && 0 <= j < 4 ==>
      Project(f, Prefixed(unitCode, Channels(m)) + ["segment"]).value.rows[k][j]
        == CellAt(f.columns, f.rows[k], (Prefixed(unitCode, Channels(m)) + ["segment"])[j])
  {
    var names := Prefixed(unitCode, Channels(m)) + ["segment"];
    forall j | 0 <= j < |names| ensures names[j] in f.columns {
      if j < 3 {
        ResolvedCodesAreColumns(m, unitCode, j);
      }
    }
  }

  // ---------------------------------------------------------------------------
  // One panel of charts for one unit code (lines 54-152 as called at 249-264 and 295-367)

  /** The widget values the page reads. */
  datatype Selection = Selection(
    person: string,              // subject select box
    activity: string,            // activity select box
    unit: string,                // body unit select box
    sensor: string,              // sensor select box
    activities: seq<Cell>,       // multi-select over `activity_name.unique()`, NaN included
    boxplotChoice: string)       // "X …", "Y …" or "Z …" for the boxplot

  /** What the charts of one unit code are given. */
  datatype Panel = Panel(
    unitCode: string,
    codes: seq<string>,           // the three resolved columns
    labels: seq<string>,          // their axis labels
    data: Frame,                  // the filtered rows projected on the codes and "segment"
    lineChart: LineChart,         // assigned tick_stepsize and title of the line chart
    scatterInput: seq<string>,    // what the 3D scatter iterates for its columns
    scatterAxes: (string, string, string),
    scatterTitle: string,
    distributionTitle: string,
    correlationData: Frame,       // the filtered rows under all columns
    pearsonTitle: string)

  /** The boxplot below the torso panel. */
  datatype Boxplot = Boxplot(code: string, choice: string, data: Frame, title: string)

  datatype Page = Page(panels: seq<Panel>, boxplot: Option<Boxplot>)

  /** Why rendering stops: a pandas exception, a name read before assignment, or an empty pick list. */
  datatype Failure =
    | Pandas(error: Frames.Error)
    | UnboundLocal(name: string)
    | IndexError

  /**
   * The charts of one unit code. The scatter of a right arm or leg is handed the projected table,
   * which iterates as its column names; every other call hands it the codes. The scatter picks its
   * columns as `sensor_3dplot` does, by the first name holding each axis letter.
   */
  function PanelFor(filtered: Frame, sel: Selection, unitCode: string): (r: Result<Panel, Failure>)
    requires Valid(filtered)
    ensures sel.sensor !in Sensors ==> r == Err(UnboundLocal("filtered_sensor_codes"))
    ensures r.Ok? ==> r.value.unitCode == unitCode && r.value.correlationData == filtered
    ensures r.Ok? ==> r.value.data.columns == r.value.codes + ["segment"] && |r.value.data.rows| == |filtered.rows|
    ensures r.Ok? ==> r.value.scatterInput == if unitCode in ["RA_", "RL_"] then r.value.data.columns else r.value.codes
    ensures r.Ok? ==> Axes3D(r.value.scatterInput) == Some(r.value.scatterAxes)
    ensures r.Ok? ==> SensorCodesAndLabels(sel.sensor, SensorsCodes(), SensorsLabels(), unitCode) == Some((r.value.codes, r.value.labels))
    ensures r.Ok? ==> Project(filtered, r.value.codes + ["segment"]) == Ok(r.value.data)
  {
    match SensorCodesAndLabels(sel.sensor, SensorsCodes(), SensorsLabels(), unitCode)
    case None => Err(UnboundLocal("filtered_sensor_codes"))
    case Some((codes, labels)) =>
      match Project(filtered, codes + ["segment"])
      case Err(e) => Err(Pandas(e))
      case Ok(projected) =>
        match LineChartOf(sel.unit, unitCode, sel.sensor, sel.activity)
        case None => Err(UnboundLocal("title"))
        case Some(chart) =>
          var scatterInput := if unitCode in ["RA_", "RL_"] then projected.columns else codes;
          match Axes3D(scatterInput)
          case None => Err(IndexError)
          case Some(axes) =>
            Ok(Panel(unitCode, codes, labels, projected, chart, scatterInput, axes, ScatterTitle(sel.sensor),
                     DistributionTitle(sel.unit, unitCode, sel.sensor), filtered,
                     PearsonTitle(sel.unit, unitCode, sel.sensor)))
  }

  /** The panels of the given unit codes, in order, or the first failure. */
  function Panels(filtered: Frame, sel: Selection, unitCodes: seq<string>): (r: Result<seq<Panel>, Failure>)
    requires Valid(filtered)
    ensures r.Ok? ==> |r.value| == |unitCodes|
    ensures r.Ok? ==> forall i :: 0 <= i < |unitCodes| ==> PanelFor(filtered, sel, unitCodes[i]) == Ok(r.value[i])
    ensures r.Ok? <==> forall i :: 0 <= i < |unitCodes| ==> PanelFor(filtered, sel, unitCodes[i]).Ok?
    ensures r.Ok? ==> forall i :: 0 <= i < |unitCodes| ==> r.value[i].unitCode == unitCodes[i]
  {
    CollectAll(unitCodes, (c: string) => PanelFor(filtered, sel, c))
  }

  /** The torso's boxplot across the selected activities (lines 269-288). */
  function BoxplotFor(data: Frame, sel: Selection, codes: seq<string>): (r: Result<Boxplot, Failure>)
    requires Valid(data)
    ensures r.Ok? ==> r.value.choice == sel.boxplotChoice && r.value.code in codes
    ensures r.Ok? ==> r.value.title == BoxplotTitle(sel.boxplotChoice)
    ensures r.Ok? ==> BoxplotCode(codes, sel.boxplotChoice) == Some(r.value.code)
    ensures r.Ok? <==> FilterSubjectInActivities(data, sel.person, sel.activities).Ok? && BoxplotCode(codes, sel.boxplotChoice).Some?
    ensures r.Ok? ==> FilterSubjectInActivities(data, sel.person, sel.activities) == Ok(r.value.data)
  {
    match FilterSubjectInActivities(data, sel.person, sel.activities)
    case Err(e) => Err(Pandas(e))
    case Ok(rows) =>
      match BoxplotCode(codes, sel.boxplotChoice)
      case None => Err(IndexError)
      case Some(code) =>
        assert code in codes by {
          var i := FirstWhere(codes, x => Contains(x, Lower(sel.boxplotChoice[..1]))).value;
          assert codes[i] == code;
        }
        Ok(Boxplot(code, sel.boxplotChoice, rows, BoxplotTitle(sel.boxplotChoice)))
  }

  /**
   * Lines 244-367: the torso gets one panel and a boxplot; arms and legs get a left panel and a
   * right panel; any other unit gets nothing after the row filter.
   */
  function Render(data: Frame, sel: Selection): (r: Result<Page, Failure>)
    requires Valid(data)
    ensures r.Ok? ==> |r.value.panels| == |PanelCodes(sel.unit)|
    ensures r.Ok? ==> forall i :: 0 <= i < |r.value.panels| ==> r.value.panels[i].unitCode == PanelCodes(sel.unit)[i]
    ensures r.Ok? ==> (r.value.boxplot.Some? <==> sel.unit == "Torso")
    ensures FilterSubjectAndActivity(data, sel.person, sel.activity).Err? ==>
      r == Err(Pandas(FilterSubjectAndActivity(data, sel.person, sel.activity).error))
    ensures r.Ok? ==> FilterSubjectAndActivity(data, sel.person, sel.activity).Ok?
    ensures r.Ok? ==>
      Panels(FilterSubjectAndActivity(data, sel.person, sel.activity).value, sel, PanelCodes(sel.unit)) == Ok(r.value.panels)
    ensures r.Ok? && sel.unit == "Torso" ==>
      |r.value.panels| == 1 && BoxplotFor(data, sel, r.value.panels[0].codes) == Ok(r.value.boxplot.value)
  {
    var unitCodes := PanelCodes(sel.unit);
    match FilterSubjectAndActivity(data, sel.person, sel.activity)
    case Err(e) => Err(Pandas(e))
    case Ok(filtered) =>
      match Panels(filtered, sel, unitCodes)
      case Err(e) => Err(e)
      case Ok(panels) =>
        if sel.unit == "Torso" then
          assert |panels| == |unitCodes| == 1;
          TorsoPage(data, sel, panels)
        else Ok(Page(panels, None))
  }

  /** The torso's page: its panels, then the boxplot over the whole table with the first panel's codes. */
  function TorsoPage(data: Frame, sel: Selection, panels: seq<Panel>): (r: Result<Page, Failure>)
    requires Valid(data) && |panels| > 0
    ensures r.Ok? <==> BoxplotFor(data, sel, panels[0].codes).Ok?
    ensures r.Ok? ==> r.value.panels == panels && r.value.boxplot == Some(BoxplotFor(data, sel, panels[0].codes).value)
    ensures r.Err? ==> r == Err(BoxplotFor(data, sel, panels[0].codes).error)
  {
    match BoxplotFor(data, sel, panels[0].codes)
    case Err(e) => Err(e)
    case Ok(b) => Ok(Page(panels, Some(b)))
  }

  // ---------------------------------------------------------------------------
  // What the page shows for the builder's dataset

  /**
   * The headings of a unit code's panel on the chosen sensor `m`: the three columns of that sensor
   * behind the unit code and their labels, the scatter's columns (X, Y, Z, except that the
   * gyroscope scatter takes the X column for its y axis), the value assigned to `tick_stepsize` and the
   * titles with the code's side.
   */
  predicate PanelHeads(p: Panel, sel: Selection, m: nat, unitCode: string)
    requires m < 3
  {
    var codes := Prefixed(unitCode, Channels(m));
    && p.codes == codes
    && p.labels == ChannelLabels(m)
    && p.scatterAxes == (codes[0], codes[if m == 1 then 0 else 1], codes[2])
    && p.lineChart == LineChart(if unitCode == "T_" then 2 else 4,
                                sel.sensor + " on " + SidePrefix(unitCode) + sel.unit + " while " + sel.activity)
    && p.scatterTitle == ScatterTitle(sel.sensor)
    && p.distributionTitle == "Distribution of " + SidePrefix(unitCode) + sel.unit + " " + sel.sensor
    && p.pearsonTitle == "Pearson Correlation of " + SidePrefix(unitCode) + sel.unit + " " + sel.sensor
  }

  /** The rows of a panel: the correlation heatmap sees the filtered rows, the charts their `codes` and segment, by name. */
  predicate PanelRows(p: Panel, filtered: Frame, codes: seq<string>)
    requires |codes| == 3
  {
    && p.correlationData == filtered
    && |p.data.rows| == |filtered.rows|
    && forall k, j :: 0 <= k < |filtered.rows| && 0 <= j < 4 ==>
         j < |p.data.rows[k]| && p.data.rows[k][j] == CellAt(filtered.columns, filtered.rows[k], (codes + ["segment"])[j])
  }

  /** What a unit code's panel shows on the chosen sensor `m`. */
  predicate PanelShows(p: Panel, filtered: Frame, sel: Selection, m: nat, unitCode: string)
    requires m < 3
  {
    PanelHeads(p, sel, m, unitCode) && PanelRows(p, filtered, Prefixed(unitCode, Channels(m)))
  }

  /** Every step of a panel succeeds on the dataset's columns; the panel these steps build. */
  lemma PanelForSteps(filtered: Frame, sel: Selection, m: nat, unitCode: string)
    requires Valid(filtered) && filtered.columns == DatasetProperties.OutputColumns()
    requires m < 3 && sel.sensor == Sensors[m]
    requires unitCode in UnitCodes && sel.unit == UnitOf(unitCode)
    ensures var codes := Prefixed(unitCode, Channels(m));
      && Project(filtered, codes + ["segment"]).Ok?
      && var projected := Project(filtered, codes + ["segment"]).value;
         PanelFor(filtered, sel, unitCode)
           == Ok(Panel(unitCode, codes, ChannelLabels(m), projected,
                       LineChartOf(sel.unit, unitCode, sel.sensor, sel.activity).value,
                       if unitCode in ["RA_", "RL_"] then projected.columns else codes,
                       (codes[0], codes[if m == 1 then 0 else 1], codes[2]), ScatterTitle(sel.sensor),
                       DistributionTitle(sel.unit, unitCode, sel.sensor), filtered,
                       PearsonTitle(sel.unit, unitCode, sel.sensor)))
  {
    var codes := Prefixed(unitCode, Channels(m));
    ResolvedChannels(m, unitCode);
    ProjectResolved(filtered, m, unitCode);
    PanelTitles(unitCode, sel.sensor, sel.activity);
    ScatterAxesAsWritten(m, unitCode);
    ProjectedTableAxes(m, unitCode);
  }

  /** The rows a unit code's panel shows on the dataset's columns. */
  lemma PanelRowsOnDataset(filtered: Frame, sel: Selection, m: nat, unitCode: string)
    requires Valid(filtered) && filtered.columns == DatasetProperties.OutputColumns()
    requires m < 3 && sel.sensor == Sensors[m]
    requires unitCode in UnitCodes && sel.unit == UnitOf(unitCode)
    ensures PanelFor(filtered, sel, unitCode).Ok?
    ensures PanelRows(PanelFor(filtered, sel, unitCode).value, filtered, Prefixed(unitCode, Channels(m)))
  {
    PanelForSteps(filtered, sel, m, unitCode);
    ProjectResolved(filtered, m, unitCode);
    var codes := Prefixed(unitCode, Channels(m));
    assert PanelFor(filtered, sel, unitCode).value.data == Project(filtered, codes + ["segment"]).value;
  }

  /** One unit code's panel on rows with the dataset's columns, under the unit the dispatch gives that code. */
  lemma PanelOnDataset(filtered: Frame, sel: Selection, m: nat, unitCode: string)
    requires Valid(filtered) && filtered.columns == DatasetProperties.OutputColumns()
    requires m < 3 && sel.sensor == Sensors[m]
    requires unitCode in UnitCodes && sel.unit == UnitOf(unitCode)
    ensures PanelFor(filtered, sel, unitCode).Ok?
    ensures PanelShows(PanelFor(filtered, sel, unitCode).value, filtered, sel, m, unitCode)
  {
    PanelRowsOnDataset(filtered, sel, m, unitCode);
    PanelForSteps(filtered, sel, m, unitCode);
    PanelTitles(unitCode, sel.sensor, sel.activity);
  }

  /** The unit codes of a body unit's panels all belong to that unit. */
  lemma PanelCodesOfUnit(unit: string, i: nat)
    requires unit in ["Torso", "Arms", "Legs"] && i < |PanelCodes(unit)|
    ensures PanelCodes(unit)[i] in UnitCodes && UnitOf(PanelCodes(unit)[i]) == unit
  {
  }

  /** The panels of a body unit on rows with the dataset's columns: one per unit code, each on the chosen sensor. */
  lemma PanelsOnDataset(filtered: Frame, sel: Selection, m: nat)
    requires Valid(filtered) && filtered.columns == DatasetProperties.OutputColumns()
    requires m < 3 && sel.sensor == Sensors[m]
    requires sel.unit in ["Torso", "Arms", "Legs"]
    ensures Panels(filtered, sel, PanelCodes(sel.unit)).Ok?
    ensures forall i :: 0 <= i < |PanelCodes(sel.unit)| ==>
      PanelShows(Panels(filtered, sel, PanelCodes(sel.unit)).value[i], filtered, sel, m, PanelCodes(sel.unit)[i])
  {
    var codes := PanelCodes(sel.unit);
    forall i | 0 <= i < |codes|
      ensures PanelFor(filtered, sel, codes[i]).Ok?
      ensures PanelShows(PanelFor(filtered, sel, codes[i]).value, filtered, sel, m, codes[i])
    {
      PanelCodesOfUnit(sel.unit, i);
      PanelOnDataset(filtered, sel, m, codes[i]);
    }
  }

  /**
   * What the torso boxplot shows on the chosen sensor `m`: the column of the chosen axis, except
   * that "Y Gyroscopes" gives the X column, over the rows of the subject in the chosen activities,
   * each once, in their original order.
   */
  predicate BoxplotShows(b: Boxplot, data: Frame, sel: Selection, m: nat)
    requires m < 3
  {
    && (forall a :: 0 <= a < 3 && sel.boxplotChoice == BoxplotOptions(sel.sensor)[a] ==>
          b.code == Prefixed("T_", Channels(m))[if m == 1 && a == 1 then 0 else a])
    && SelectsInOrder(b.data.rows, data.rows, row => IsSubjectInActivities(data.columns, row, sel.person, sel.activities))
  }

  /** The boxplot choice names one axis. */
  lemma ChoiceAxis(sensor: string, a: nat, b: nat)
    requires a < 3 && b < 3 && BoxplotOptions(sensor)[a] == BoxplotOptions(sensor)[b]
    ensures a == b
  {
    assert BoxplotOptions(sensor)[a][0] == Xyz[a][0];
    assert BoxplotOptions(sensor)[b][0] == Xyz[b][0];
  }

  /**
   * Lines 269-288 on the builder's dataset: the boxplot shows the torso column of the chosen axis,
   * except that "Y Gyroscopes" shows the X column, over the rows of the subject in the chosen
   * activities, in their original order.
   */
  lemma BoxplotOnDataset(data: Frame, sel: Selection, m: nat, a: nat)
    requires Valid(data) && data.columns == DatasetProperties.OutputColumns()
    requires m < 3 && sel.sensor == Sensors[m]
    requires a < 3 && sel.boxplotChoice == BoxplotOptions(sel.sensor)[a]
    ensures BoxplotFor(data, sel, Prefixed("T_", Channels(m))).Ok?
    ensures BoxplotFor(data, sel, Prefixed("T_", Channels(m))).value.code
         == Prefixed("T_", Channels(m))[if m == 1 && a == 1 then 0 else a]
    ensures SelectsInOrder(BoxplotFor(data, sel, Prefixed("T_", Channels(m))).value.data.rows, data.rows,
                           row => IsSubjectInActivities(data.columns, row, sel.person, sel.activities))
  {
    DatasetProperties.TaggedColumns();
    BoxplotCodeAsWritten(m, "T_", a);
  }

  /**
   * Lines 244-367 on the builder's dataset, for a sensor and a body unit the select boxes offer:
   * the page renders; each panel shows the chosen sensor's three columns behind its unit code and
   * gets the rows of the selected subject and activity in their original order; the torso's
   * boxplot shows the column of the chosen axis (the X column for "Y Gyroscopes") over the rows of
   * the subject in the chosen activities.
   */
  lemma RenderOnDataset(data: Frame, sel: Selection, m: nat)
    requires Valid(data) && data.columns == DatasetProperties.OutputColumns()
    requires m < 3 && sel.sensor == Sensors[m]
    requires sel.unit in ["Torso", "Arms", "Legs"]
    requires sel.unit == "Torso" ==> sel.boxplotChoice in BoxplotOptions(sel.sensor)
    ensures Render(data, sel).Ok?
    ensures forall i :: 0 <= i < |Render(data, sel).value.panels| ==>
      && i < |PanelCodes(sel.unit)|
      && Render(data, sel).value.panels[i].codes == Prefixed(PanelCodes(sel.unit)[i], Channels(m))
      && Render(data, sel).value.panels[i].labels == ChannelLabels(m)
      && SelectsInOrder(Render(data, sel).value.panels[i].correlationData.rows, data.rows,
                        row => IsSubjectAndActivity(data.columns, row, sel.person, sel.activity))
    ensures sel.unit == "Torso" ==>
      Render(data, sel).value.boxplot.Some? && BoxplotShows(Render(data, sel).value.boxplot.value, data, sel, m)
  {
    RenderPanelsOnDataset(data, sel, m);
    RenderBoxplotOnDataset(data, sel, m);
  }

  /** The panels part of `RenderOnDataset`. */
  lemma RenderPanelsOnDataset(data: Frame, sel: Selection, m: nat)
    requires Valid(data) && data.columns == DatasetProperties.OutputColumns()
    requires m < 3 && sel.sensor == Sensors[m]
    requires sel.unit in ["Torso", "Arms", "Legs"]
    requires sel.unit == "Torso" ==> sel.boxplotChoice in BoxplotOptions(sel.sensor)
    ensures Render(data, sel).Ok?
    ensures forall i :: 0 <= i < |Render(data, sel).value.panels| ==>
      && i < |PanelCodes(sel.unit)|
      && Render(data, sel).value.panels[i].codes == Prefixed(PanelCodes(sel.unit)[i], Channels(m))
      && Render(data, sel).value.panels[i].labels == ChannelLabels(m)
      && SelectsInOrder(Render(data, sel).value.panels[i].correlationData.rows, data.rows,
                        row => IsSubjectAndActivity(data.columns, row, sel.person, sel.activity))
  {
    var filtered := FilterSubjectAndActivity(data, sel.person, sel.activity).value;
    RenderSteps(data, sel, m);
    PanelsOnDataset(filtered, sel, m);
    var panels := Render(data, sel).value.panels;
    forall i | 0 <= i < |panels|
      ensures i < |PanelCodes(sel.unit)|
      ensures panels[i].codes == Prefixed(PanelCodes(sel.unit)[i], Channels(m))
      ensures panels[i].labels == ChannelLabels(m)
      ensures panels[i].correlationData == filtered
    {
      assert PanelShows(panels[i], filtered, sel, m, PanelCodes(sel.unit)[i]);
    }
  }

  /** The boxplot part of `RenderOnDataset`. */
  lemma RenderBoxplotOnDataset(data: Frame, sel: Selection, m: nat)
    requires Valid(data) && data.columns == DatasetProperties.OutputColumns()
    requires m < 3 && sel.sensor == Sensors[m]
    requires sel.unit in ["Torso", "Arms", "Legs"]
    requires sel.unit == "Torso" ==> sel.boxplotChoice in BoxplotOptions(sel.sensor)
    ensures Render(data, sel).Ok?
    ensures sel.unit == "Torso" ==>
      Render(data, sel).value.boxplot.Some? && BoxplotShows(Render(data, sel).value.boxplot.value, data, sel, m)
  {
    RenderSteps(data, sel, m);
    if sel.unit == "Torso" {
      var a :| 0 <= a < 3 && sel.boxplotChoice == BoxplotOptions(sel.sensor)[a];
      BoxplotOnDataset(data, sel, m, a);
      var b := BoxplotFor(data, sel, Prefixed("T_", Channels(m))).value;
      forall a' | 0 <= a' < 3 && sel.boxplotChoice == BoxplotOptions(sel.sensor)[a']
        ensures b.code == Prefixed("T_", Channels(m))[if m == 1 && a' == 1 then 0 else a']
      {
        ChoiceAxis(sel.sensor, a, a');
      }
      assert BoxplotShows(b, data, sel, m);
    }
  }

  /** The page `Render` builds on the dataset: the panels of the filtered rows and, for Torso, the boxplot of the torso codes. */
  lemma RenderSteps(data: Frame, sel: Selection, m: nat)
    requires Valid(data) && data.columns == DatasetProperties.OutputColumns()
    requires m < 3 && sel.sensor == Sensors[m]
    requires sel.unit in ["Torso", "Arms", "Legs"]
    requires sel.unit == "Torso" ==> sel.boxplotChoice in BoxplotOptions(sel.sensor)
    ensures FilterSubjectAndActivity(data, sel.person, sel.activity).Ok?
    ensures var filtered := FilterSubjectAndActivity(data, sel.person, sel.activity).value;
      && Valid(filtered) && filtered.columns == data.columns
      && Panels(filtered, sel, PanelCodes(sel.unit)).Ok?
      && Render(data, sel).Ok?
      && Render(data, sel).value.panels == Panels(filtered, sel, PanelCodes(sel.unit)).value
    ensures sel.unit == "Torso" ==>
      && BoxplotFor(data, sel, Prefixed("T_", Channels(m))).Ok?
      && Render(data, sel).value.boxplot == Some(BoxplotFor(data, sel, Prefixed("T_", Channels(m))).value)
  {
    DatasetProperties.TaggedColumns();
    var filtered := FilterSubjectAndActivity(data, sel.person, sel.activity).value;
    PanelsOnDataset(filtered, sel, m);
    if sel.unit == "Torso" {
      TorsoPageOnDataset(data, sel, m, Panels(filtered, sel, PanelCodes(sel.unit)).value);
    }
  }

  /** The torso's boxplot step succeeds when its one panel carries the torso codes of the sensor. */
  lemma TorsoPageOnDataset(data: Frame, sel: Selection, m: nat, panels: seq<Panel>)
    requires Valid(data) && data.columns == DatasetProperties.OutputColumns()
    requires m < 3 && sel.sensor == Sensors[m] && sel.boxplotChoice in BoxplotOptions(sel.sensor)
    requires |panels| == 1 && panels[0].codes == Prefixed("T_", Channels(m))
    ensures TorsoPage(data, sel, panels).Ok?
    ensures BoxplotFor(data, sel, Prefixed("T_", Channels(m))).Ok?
    ensures TorsoPage(data, sel, panels).value == Page(panels, Some(BoxplotFor(data, sel, Prefixed("T_", Channels(m))).value))
  {
    var a :| 0 <= a < 3 && sel.boxplotChoice == BoxplotOptions(sel.sensor)[a];
    BoxplotOnDataset(data, sel, m, a);
  }

  /** A sensor outside the select box's three options stops the page once the rows are filtered. */
  lemma UnknownSensorFails(data: Frame, sel: Selection)
    requires Valid(data) && "subject" in data.columns && "activity_name" in data.columns
    requires sel.unit in ["Torso", "Arms", "Legs"] && sel.sensor !in Sensors
    ensures Render(data, sel) == Err(UnboundLocal("filtered_sensor_codes"))
  {
    var filtered := FilterSubjectAndActivity(data, sel.person, sel.activity).value;
    var codes := PanelCodes(sel.unit);
    assert PanelFor(filtered, sel, codes[0]).Err?;
    var r := Panels(filtered, sel, codes);
    assert forall i :: 0 <= i < |codes| ==> PanelFor(filtered, sel, codes[i]) == Err(UnboundLocal("filtered_sensor_codes"));
  }

  /** A unit outside the three branches renders no panel and no boxplot. */
  lemma UnknownUnitRendersNothing(data: Frame, sel: Selection)
    requires Valid(data) && "subject" in data.columns && "activity_name" in data.columns
    requires sel.unit !in ["Torso", "Arms", "Legs"]
    ensures Render(data, sel) == Ok(Page([], None))
  {
  }
}
