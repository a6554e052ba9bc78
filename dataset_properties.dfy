/**
 * What the dataset builder produces, stated against an independent enumeration of the
 * rows of the directory tree (`Origins`): the output columns, the contents of every row
 * with its provenance tags, the row count, the row order, the activity labels, and
 * exactly when a run aborts.
 */
module DatasetProperties {
  import opened Outcomes
  import opened Seqs
  import opened Frames
  import opened DataCleaning

  // ---------------------------------------------------------------------------
  // Column names

  /** `data_columns` has 45 names, unit-major and sensor-minor. */
  lemma DataColumnsLayout()
    ensures |DataColumns()| == 45
    ensures forall u, s :: 0 <= u < 5 && 0 <= s < 9 ==>
      DataColumns()[9 * u + s] == UnitsCodes[u] + "_" + SensorsCodes[s]
  {
    FlattenUniform(UnitBlocks(), 9, 0, 0);
    forall u, s | 0 <= u < 5 && 0 <= s < 9
      ensures DataColumns()[9 * u + s] == UnitsCodes[u] + "_" + SensorsCodes[s]
    {
      FlattenUniform(UnitBlocks(), 9, u, s);
    }
  }

  /** Every sensor column name starts with the letter of its body unit. */
  lemma DataColumnInitials(x: string)
    requires x in DataColumns()
    ensures |x| > 0 && (x[0] == 'T' || x[0] == 'R' || x[0] == 'L')
  {
    var k :| 0 <= k < |DataColumns()| && DataColumns()[k] == x;
    FlattenMember(UnitBlocks(), k);
    var u, s :| 0 <= u < |UnitBlocks()| && 0 <= s < |UnitBlocks()[u]| && x == UnitBlocks()[u][s];
    assert x == UnitsCodes[u] + "_" + SensorsCodes[s];
    assert x[0] == UnitsCodes[u][0];
  }

  /** None of the four provenance columns collides with a sensor column, so each tag adds a column. */
  lemma TagsAreNewColumns()
    ensures "segment" !in DataColumns() && "subject" !in DataColumns()
    ensures "activity" !in DataColumns() && "activity_name" !in DataColumns()
  {
    if "segment" in DataColumns() { DataColumnInitials("segment"); }
    if "subject" in DataColumns() { DataColumnInitials("subject"); }
    if "activity" in DataColumns() { DataColumnInitials("activity"); }
    if "activity_name" in DataColumns() { DataColumnInitials("activity_name"); }
  }

  /** The columns of the written file. */
  function OutputColumns(): seq<string>
  {
    DataColumns() + ["segment", "subject", "activity", "activity_name"]
  }

  lemma TaggedColumns()
    ensures WithColumn(DataColumns(), "segment") == DataColumns() + ["segment"]
    ensures WithColumn(DataColumns() + ["segment"], "subject") == DataColumns() + ["segment", "subject"]
    ensures WithColumn(DataColumns() + ["segment", "subject"], "activity")
         == DataColumns() + ["segment", "subject", "activity"]
    ensures WithColumn(DataColumns() + ["segment", "subject", "activity"], "activity_name") == OutputColumns()
  {
    TagsAreNewColumns();
    assert DataColumns() + ["segment"] + ["subject"] == DataColumns() + ["segment", "subject"];
    assert DataColumns() + ["segment", "subject"] + ["activity"] == DataColumns() + ["segment", "subject", "activity"];
    assert DataColumns() + ["segment", "subject", "activity"] + ["activity_name"] == OutputColumns();
  }

  // ---------------------------------------------------------------------------
  // Where each row comes from: an enumeration of the tree, independent of the frames

  /**
   * The listing positions and names that lead to one line of one segment file, the line's fields,
   * and how many leading fields of that file's lines the reader takes as index.
   */
  datatype Origin = Origin(
    activityPos: nat, activity: string,
    subjectPos: nat, subject: string,
    segmentPos: nat, file: string,
    rowPos: nat, values: seq<Sample>, lead: nat)

  function FileOrigins(ai: nat, a: string, si: nat, s: string, fi: nat, f: Entry): seq<Origin>
  {
    if f.File? then
      seq(|f.rows|, r requires 0 <= r < |f.rows| => Origin(ai, a, si, s, fi, f.name, r, f.rows[r], LeadingFields(f.rows, 45)))
    else []
  }

  /** The 45 sensor cells the reader makes of origin `o`'s line. */
  function Cells(o: Origin): Row
  {
    CsvRow(o.values, o.lead, 45)
  }

  function SegmentGroups(ai: nat, a: string, si: nat, s: string, files: seq<Entry>): seq<seq<Origin>>
  {
    seq(|files|, fi requires 0 <= fi < |files| => FileOrigins(ai, a, si, s, fi, files[fi]))
  }

  function SubjectOrigins(ai: nat, a: string, si: nat, subject: Entry): seq<Origin>
  {
    if subject.Dir? then Flatten(SegmentGroups(ai, a, si, subject.name, subject.entries)) else []
  }

  function SubjectGroups(ai: nat, a: string, subjects: seq<Entry>): seq<seq<Origin>>
  {
    seq(|subjects|, si requires 0 <= si < |subjects| => SubjectOrigins(ai, a, si, subjects[si]))
  }

  function ActivityOrigins(root: seq<Entry>, ai: nat, activity: Entry): seq<Origin>
  {
    if activity.Dir? then Flatten(SubjectGroups(ai, activity.name, SubjectFolders(root, activity))) else []
  }

  function ActivityGroups(root: seq<Entry>, folders: seq<Entry>): seq<seq<Origin>>
  {
    seq(|folders|, ai requires 0 <= ai < |folders| => ActivityOrigins(root, ai, folders[ai]))
  }

  /** Every line of every segment file, activity listing first, then subject, segment and line. */
  function Origins(root: seq<Entry>): seq<Origin>
  {
    Flatten(ActivityGroups(root, ActivityFolders(root)))
  }

  /** The cells a row of origin `o` has after `depth` provenance tags (segment, subject, activity). */
  function Tagged(o: Origin, depth: nat): Row
    requires depth <= 3
  {
    if depth == 0 then Cells(o)
    else Tagged(o, depth - 1) + [if depth == 1 then Text(SegmentId(o.file))
                                 else if depth == 2 then Text(o.subject)
                                 else Text(o.activity)]
  }

  function TaggedRows(os: seq<Origin>, depth: nat): seq<Row>
    requires depth <= 3
  {
    seq(|os|, k requires 0 <= k < |os| => Tagged(os[k], depth))
  }

  /** Tagging the parts and concatenating them is tagging the concatenation. */
  lemma {:induction false} FlattenTagged(rss: seq<seq<Row>>, g: seq<seq<Origin>>, depth: nat)
    requires depth <= 3 && |rss| == |g|
    requires forall i :: 0 <= i < |g| ==> rss[i] == TaggedRows(g[i], depth)
    ensures Flatten(rss) == TaggedRows(Flatten(g), depth)
    decreases |g|
  {
    if |g| > 0 {
      var n := |g|;
      FlattenTagged(rss[..n - 1], g[..n - 1], depth);
      var a, b := Flatten(g[..n - 1]), g[n - 1];
      assert Flatten(g) == a + b;
      assert TaggedRows(a + b, depth) == TaggedRows(a, depth) + TaggedRows(b, depth);
    }
  }

  /** All origins of one file carry the listing positions and names of the path to it. */
  predicate FromPath(o: Origin, ai: nat, a: string, si: nat, s: string)
  {
    o.activityPos == ai && o.activity == a && o.subjectPos == si && o.subject == s
  }

  lemma SubjectOriginsPath(ai: nat, a: string, si: nat, subject: Entry, k: nat)
    requires k < |SubjectOrigins(ai, a, si, subject)|
    ensures FromPath(SubjectOrigins(ai, a, si, subject)[k], ai, a, si, subject.name)
  {
    FlattenMember(SegmentGroups(ai, a, si, subject.name, subject.entries), k);
  }

  lemma ActivityOriginsPath(root: seq<Entry>, ai: nat, activity: Entry, k: nat)
    requires k < |ActivityOrigins(root, ai, activity)|
    ensures ActivityOrigins(root, ai, activity)[k].activityPos == ai
    ensures ActivityOrigins(root, ai, activity)[k].activity == activity.name
  {
    var g := SubjectGroups(ai, activity.name, SubjectFolders(root, activity));
    FlattenMember(g, k);
    var i, j :| 0 <= i < |g| && 0 <= j < |g[i]| && Flatten(g)[k] == g[i][j];
    SubjectOriginsPath(ai, activity.name, i, SubjectFolders(root, activity)[i], j);
  }

  // ---------------------------------------------------------------------------
  // The frames of each level, row by row

  lemma SegmentFrameRows(ai: nat, a: string, si: nat, s: string, fi: nat, file: Entry, f: Frame)
    requires SegmentFrame([a, s, file.name], file, DataColumns()) == Ok(f)
    ensures f.columns == DataColumns() + ["segment"]
    ensures f.rows == TaggedRows(FileOrigins(ai, a, si, s, fi, file), 1)
  {
    TaggedColumns();
    DataColumnsLayout();
    var read := ReadCsv([a, s, file.name], file, DataColumns()).value;
    var os := FileOrigins(ai, a, si, s, fi, file);
    assert |f.rows| == |os|;
    forall k | 0 <= k < |os| ensures f.rows[k] == Tagged(os[k], 1) {
      assert f.rows[k] == read.rows[k] + [Text(SegmentId(file.name))];
    }
  }

  /** A tag column assigned to frame `c` extends each enumerated line by that line's next tag. */
  lemma AppendTag(c: Frame, name: string, cell: Cell, os: seq<Origin>, depth: nat)
    requires 1 <= depth <= 3 && Valid(c) && name !in c.columns
    requires c.rows == TaggedRows(os, depth - 1)
    requires forall k :: 0 <= k < |os| ==> Tagged(os[k], depth) == Tagged(os[k], depth - 1) + [cell]
    ensures AssignConst(c, name, cell).rows == TaggedRows(os, depth)
  {
    var f := AssignConst(c, name, cell);
    forall k | 0 <= k < |os| ensures f.rows[k] == Tagged(os[k], depth) {
      assert f.rows[k] == c.rows[k] + [cell];
    }
  }

  lemma SubjectFrameRows(ai: nat, a: string, si: nat, subject: Entry, f: Frame)
    requires SubjectFrame(a, subject, DataColumns()) == Ok(f)
    ensures f.columns == DataColumns() + ["segment", "subject"]
    ensures f.rows == TaggedRows(SubjectOrigins(ai, a, si, subject), 2)
  {
    TaggedColumns();
    var files := subject.entries;
    var fs := SegmentFrames(a, subject.name, files, DataColumns()).value;
    var g := SegmentGroups(ai, a, si, subject.name, files);
    forall i | 0 <= i < |fs| ensures RowsOf(fs)[i] == TaggedRows(g[i], 1) {
      SegmentFrameRows(ai, a, si, subject.name, i, files[i], fs[i]);
    }
    FlattenTagged(RowsOf(fs), g, 1);
    var c := Concat(fs).value;
    ConcatValid(fs);
    var os := SubjectOrigins(ai, a, si, subject);
    forall k | 0 <= k < |os| ensures Tagged(os[k], 2) == Tagged(os[k], 1) + [Text(subject.name)] {
      SubjectOriginsPath(ai, a, si, subject, k);
    }
    AppendTag(c, "subject", Text(subject.name), os, 2);
  }

  lemma ActivityFrameRows(root: seq<Entry>, ai: nat, activity: Entry, f: Frame)
    requires ActivityFrame(root, activity, DataColumns()) == Ok(f)
    ensures f.columns == DataColumns() + ["segment", "subject", "activity"]
    ensures f.rows == TaggedRows(ActivityOrigins(root, ai, activity), 3)
  {
    TaggedColumns();
    var subjects := SubjectFolders(root, activity);
    var fs := SubjectFrames(activity.name, subjects, DataColumns()).value;
    var g := SubjectGroups(ai, activity.name, subjects);
    forall i | 0 <= i < |fs| ensures RowsOf(fs)[i] == TaggedRows(g[i], 2) {
      SubjectFrameRows(ai, activity.name, i, subjects[i], fs[i]);
    }
    FlattenTagged(RowsOf(fs), g, 2);
    var c := Concat(fs).value;
    ConcatValid(fs);
    var os := ActivityOrigins(root, ai, activity);
    forall k | 0 <= k < |os| ensures Tagged(os[k], 3) == Tagged(os[k], 2) + [Text(activity.name)] {
      ActivityOriginsPath(root, ai, activity, k);
    }
    AppendTag(c, "activity", Text(activity.name), os, 3);
  }

  lemma TaggedShape(o: Origin)
    ensures Tagged(o, 3) == Cells(o) + [Text(SegmentId(o.file)), Text(o.subject), Text(o.activity)]
  {
    assert Tagged(o, 1) == Cells(o) + [Text(SegmentId(o.file))];
    assert Tagged(o, 2) == Cells(o) + [Text(SegmentId(o.file))] + [Text(o.subject)];
  }

  /** The label table the builder uses for `root`. */
  function Labels(root: seq<Entry>): map<string, string>
  {
    ActivitiesMapping(ActivityFolders(root))
  }

  /** The row for origin `o` in the written file. */
  function OutputRow(root: seq<Entry>, o: Origin): Row
  {
    Cells(o) + [Text(SegmentId(o.file)), Text(o.subject), Text(o.activity), Lookup(Labels(root), Text(o.activity))]
  }

  /** The concatenation of all activity frames holds every enumerated line with its three tags. */
  lemma AllActivitiesRows(root: seq<Entry>, fs: seq<Frame>, c: Frame)
    requires ActivityFrames(root, ActivityFolders(root), DataColumns()) == Ok(fs)
    requires Concat(fs) == Ok(c)
    ensures c.columns == DataColumns() + ["segment", "subject", "activity"]
    ensures c.rows == TaggedRows(Origins(root), 3)
  {
    var folders := ActivityFolders(root);
    var g := ActivityGroups(root, folders);
    forall i | 0 <= i < |fs| ensures RowsOf(fs)[i] == TaggedRows(g[i], 3) {
      ActivityFrameRows(root, i, folders[i], fs[i]);
    }
    FlattenTagged(RowsOf(fs), g, 3);
    ActivityFrameRows(root, 0, folders[0], fs[0]);
  }

  /** In the three-tag columns the first "activity" is at index 47. */
  lemma ActivityColumnIndex()
    ensures IndexOf(DataColumns() + ["segment", "subject", "activity"], "activity") == Some(47)
  {
    DataColumnsLayout();
    TagsAreNewColumns();
    var cols := DataColumns() + ["segment", "subject", "activity"];
    assert cols[47] == "activity";
    forall j | 0 <= j < 47 ensures cols[j] != "activity" {
      if j < 45 { assert cols[j] == DataColumns()[j]; }
    }
  }

  /** Labelling one row of the concatenated table: its activity cell looked up and appended. */
  lemma LabelledRow(root: seq<Entry>, c: Frame, labels: seq<Cell>, k: nat)
    requires Valid(c) && c.columns == DataColumns() + ["segment", "subject", "activity"]
    requires c.rows == TaggedRows(Origins(root), 3)
    requires MapColumn(c, "activity", Labels(root)) == Ok(labels)
    requires k < |c.rows|
    ensures Assign(c, "activity_name", labels).rows[k] == OutputRow(root, Origins(root)[k])
  {
    TagsAreNewColumns();
    DataColumnsLayout();
    ActivityColumnIndex();
    var o := Origins(root)[k];
    TaggedShape(o);
    assert c.rows[k] == Tagged(o, 3);
    assert |c.rows[k]| == 48;
    assert c.rows[k][47] == Text(o.activity);
    assert "activity_name" !in c.columns;
    assert Assign(c, "activity_name", labels).rows[k] == c.rows[k] + [labels[k]];
  }

  /**
   * Lines 8-68: the dataset has the 45 sensor columns and the four tags, and its k-th row is the
   * cells read from the k-th line of the enumeration (NaN for missing fields, index fields
   * dropped) with that line's segment, subject, activity and label.
   */
  lemma CompleteDatasetRows(root: seq<Entry>)
    requires CompleteDataset(root).Ok?
    ensures CompleteDataset(root).value.columns == OutputColumns()
    ensures |OutputColumns()| == 49
    ensures |CompleteDataset(root).value.rows| == |Origins(root)|
    ensures forall k :: 0 <= k < |Origins(root)| ==>
      CompleteDataset(root).value.rows[k] == OutputRow(root, Origins(root)[k])
  {
    TaggedColumns();
    DataColumnsLayout();
    var fs := ActivityFrames(root, ActivityFolders(root), DataColumns()).value;
    var c := Concat(fs).value;
    ConcatValid(fs);
    AllActivitiesRows(root, fs, c);
    var labels := MapColumn(c, "activity", Labels(root)).value;
    var t := CompleteDataset(root).value;
    assert t == Assign(c, "activity_name", labels);
    forall k | 0 <= k < |Origins(root)| ensures t.rows[k] == OutputRow(root, Origins(root)[k]) {
      LabelledRow(root, c, labels, k);
    }
  }

  /** Origin `o` is line `o.rowPos` of segment file `o.segmentPos` of folder `subject`. */
  predicate InSubject(o: Origin, subject: Entry)
  {
    && subject.Dir?
    && subject.name == o.subject
    && o.segmentPos < |subject.entries|
    && subject.entries[o.segmentPos].File?
    && subject.entries[o.segmentPos].name == o.file
    && o.rowPos < |subject.entries[o.segmentPos].rows|
    && subject.entries[o.segmentPos].rows[o.rowPos] == o.values
    && o.lead == LeadingFields(subject.entries[o.segmentPos].rows, 45)
  }

  /** Origin `o` lies in subject `o.subjectPos` of the listing of folder `activity`. */
  predicate InActivity(root: seq<Entry>, o: Origin, activity: Entry)
  {
    && activity.Dir?
    && activity.name == o.activity
    && o.subjectPos < |SubjectFolders(root, activity)|
    && InSubject(o, SubjectFolders(root, activity)[o.subjectPos])
  }

  /** Each origin names a real line: its positions index the listings and its names and values match. */
  predicate ComesFrom(root: seq<Entry>, o: Origin)
  {
    o.activityPos < |ActivityFolders(root)| && InActivity(root, o, ActivityFolders(root)[o.activityPos])
  }

  lemma SubjectOriginsFrom(ai: nat, a: string, si: nat, subject: Entry, k: nat)
    requires k < |SubjectOrigins(ai, a, si, subject)|
    ensures InSubject(SubjectOrigins(ai, a, si, subject)[k], subject)
  {
    var g := SegmentGroups(ai, a, si, subject.name, subject.entries);
    FlattenMember(g, k);
  }

  lemma ActivityOriginsFrom(root: seq<Entry>, ai: nat, activity: Entry, k: nat)
    requires k < |ActivityOrigins(root, ai, activity)|
    ensures InActivity(root, ActivityOrigins(root, ai, activity)[k], activity)
  {
    var subjects := SubjectFolders(root, activity);
    var g := SubjectGroups(ai, activity.name, subjects);
    FlattenMember(g, k);
    var i, j :| 0 <= i < |g| && 0 <= j < |g[i]| && Flatten(g)[k] == g[i][j];
    SubjectOriginsFrom(ai, activity.name, i, subjects[i], j);
    SubjectOriginsPath(ai, activity.name, i, subjects[i], j);
  }

  /** Every enumerated line comes from where its positions say. */
  lemma OriginsComeFrom(root: seq<Entry>, k: nat)
    requires k < |Origins(root)|
    ensures ComesFrom(root, Origins(root)[k])
  {
    var folders := ActivityFolders(root);
    var g := ActivityGroups(root, folders);
    FlattenMember(g, k);
    var i, j :| 0 <= i < |g| && 0 <= j < |g[i]| && Flatten(g)[k] == g[i][j];
    ActivityOriginsFrom(root, i, folders[i], j);
    ActivityOriginsPath(root, i, folders[i], j);
  }

  // ---------------------------------------------------------------------------
  // Row count

  function FileRowCount(f: Entry): nat
  {
    if f.File? then |f.rows| else 0
  }

  function SegmentsRowCount(files: seq<Entry>): nat
  {
    if |files| == 0 then 0 else SegmentsRowCount(files[..|files| - 1]) + FileRowCount(files[|files| - 1])
  }

  function SubjectsRowCount(subjects: seq<Entry>): nat
  {
    if |subjects| == 0 then 0
    else
      var s := subjects[|subjects| - 1];
      SubjectsRowCount(subjects[..|subjects| - 1]) + if s.Dir? then SegmentsRowCount(s.entries) else 0
  }

  function ActivitiesRowCount(root: seq<Entry>, folders: seq<Entry>): nat
  {
    if |folders| == 0 then 0
    else
      var a := folders[|folders| - 1];
      ActivitiesRowCount(root, folders[..|folders| - 1]) + if a.Dir? then SubjectsRowCount(SubjectFolders(root, a)) else 0
  }

  /** The number of lines in all segment files the walk reaches. */
  function TotalRowCount(root: seq<Entry>): nat
  {
    ActivitiesRowCount(root, ActivityFolders(root))
  }

  lemma {:induction false} SegmentsCount(ai: nat, a: string, si: nat, s: string, files: seq<Entry>)
    ensures |Flatten(SegmentGroups(ai, a, si, s, files))| == SegmentsRowCount(files)
    decreases |files|
  {
    if |files| > 0 {
      var n := |files|;
      assert SegmentGroups(ai, a, si, s, files)[..n - 1] == SegmentGroups(ai, a, si, s, files[..n - 1]);
      SegmentsCount(ai, a, si, s, files[..n - 1]);
    }
  }

  lemma {:induction false} SubjectsCount(ai: nat, a: string, subjects: seq<Entry>)
    ensures |Flatten(SubjectGroups(ai, a, subjects))| == SubjectsRowCount(subjects)
    decreases |subjects|
  {
    if |subjects| > 0 {
      var n := |subjects|;
      assert SubjectGroups(ai, a, subjects)[..n - 1] == SubjectGroups(ai, a, subjects[..n - 1]);
      SubjectsCount(ai, a, subjects[..n - 1]);
      var s := subjects[n - 1];
      if s.Dir? {
        SegmentsCount(ai, a, n - 1, s.name, s.entries);
      }
    }
  }

  lemma {:induction false} ActivitiesCount(root: seq<Entry>, folders: seq<Entry>)
    ensures |Flatten(ActivityGroups(root, folders))| == ActivitiesRowCount(root, folders)
    decreases |folders|
  {
    if |folders| > 0 {
      var n := |folders|;
      assert ActivityGroups(root, folders)[..n - 1] == ActivityGroups(root, folders[..n - 1]);
      ActivitiesCount(root, folders[..n - 1]);
      var a := folders[n - 1];
      if a.Dir? {
        SubjectsCount(n - 1, a.name, SubjectFolders(root, a));
      }
    }
  }

  /** The dataset has as many rows as all reached segment files have lines together. */
  lemma CompleteDatasetRowCount(root: seq<Entry>)
    requires CompleteDataset(root).Ok?
    ensures |CompleteDataset(root).value.rows| == TotalRowCount(root)
  {
    CompleteDatasetRows(root);
    ActivitiesCount(root, ActivityFolders(root));
  }

  // ---------------------------------------------------------------------------
  // Row order

  /** Lexicographic order of listing positions: activity, then subject, then segment, then line. */
  predicate Before(o1: Origin, o2: Origin)
  {
    || o1.activityPos < o2.activityPos
    || (o1.activityPos == o2.activityPos && o1.subjectPos < o2.subjectPos)
    || (o1.activityPos == o2.activityPos && o1.subjectPos == o2.subjectPos && o1.segmentPos < o2.segmentPos)
    || (o1.activityPos == o2.activityPos && o1.subjectPos == o2.subjectPos && o1.segmentPos == o2.segmentPos
        && o1.rowPos < o2.rowPos)
  }

  predicate InOrder(os: seq<Origin>)
  {
    forall k1, k2 :: 0 <= k1 < k2 < |os| ==> Before(os[k1], os[k2])
  }

  /** Concatenating ordered groups, each wholly before the next, gives an ordered sequence. */
  lemma {:induction false} FlattenInOrder(g: seq<seq<Origin>>)
    requires forall i :: 0 <= i < |g| ==> InOrder(g[i])
    requires forall i1, i2, j1, j2 :: 0 <= i1 < i2 < |g| && 0 <= j1 < |g[i1]| && 0 <= j2 < |g[i2]| ==>
      Before(g[i1][j1], g[i2][j2])
    ensures InOrder(Flatten(g))
    decreases |g|
  {
    if |g| > 0 {
      var n := |g|;
      var init := g[..n - 1];
      FlattenInOrder(init);
      var a, b := Flatten(init), g[n - 1];
      assert Flatten(g) == a + b;
      forall k1, k2 | 0 <= k1 < k2 < |a + b| ensures Before((a + b)[k1], (a + b)[k2]) {
        if k2 < |a| {
          assert (a + b)[k1] == a[k1] && (a + b)[k2] == a[k2];
        } else if k1 >= |a| {
          assert (a + b)[k1] == b[k1 - |a|] && (a + b)[k2] == b[k2 - |a|];
        } else {
          FlattenMember(init, k1);
          var i, j :| 0 <= i < |init| && 0 <= j < |init[i]| && a[k1] == init[i][j];
          assert (a + b)[k2] == g[n - 1][k2 - |a|];
          assert Before(g[i][j], g[n - 1][k2 - |a|]);
        }
      }
    }
  }

  lemma SubjectOriginsInOrder(ai: nat, a: string, si: nat, subject: Entry)
    ensures InOrder(SubjectOrigins(ai, a, si, subject))
  {
    if subject.Dir? {
      FlattenInOrder(SegmentGroups(ai, a, si, subject.name, subject.entries));
    }
  }

  lemma ActivityOriginsInOrder(root: seq<Entry>, ai: nat, activity: Entry)
    ensures InOrder(ActivityOrigins(root, ai, activity))
  {
    if activity.Dir? {
      var subjects := SubjectFolders(root, activity);
      var g := SubjectGroups(ai, activity.name, subjects);
      forall i | 0 <= i < |g| ensures InOrder(g[i]) {
        SubjectOriginsInOrder(ai, activity.name, i, subjects[i]);
      }
      forall i1, i2, j1, j2 | 0 <= i1 < i2 < |g| && 0 <= j1 < |g[i1]| && 0 <= j2 < |g[i2]|
        ensures Before(g[i1][j1], g[i2][j2])
      {
        SubjectOriginsPath(ai, activity.name, i1, subjects[i1], j1);
        SubjectOriginsPath(ai, activity.name, i2, subjects[i2], j2);
      }
      FlattenInOrder(g);
    }
  }

  /** The enumeration is strictly increasing in (activity, subject, segment, line) position. */
  lemma OriginsInOrder(root: seq<Entry>)
    ensures InOrder(Origins(root))
  {
    var folders := ActivityFolders(root);
    var g := ActivityGroups(root, folders);
    forall i | 0 <= i < |g| ensures InOrder(g[i]) {
      ActivityOriginsInOrder(root, i, folders[i]);
    }
    forall i1, i2, j1, j2 | 0 <= i1 < i2 < |g| && 0 <= j1 < |g[i1]| && 0 <= j2 < |g[i2]|
      ensures Before(g[i1][j1], g[i2][j2])
    {
      ActivityOriginsPath(root, i1, folders[i1], j1);
      ActivityOriginsPath(root, i2, folders[i2], j2);
    }
    FlattenInOrder(g);
  }

  // ---------------------------------------------------------------------------
  // Listings

  /** A listed entry is kept exactly when the root holds no file of the same name. */
  lemma {:induction false} NotFilesInRootMember(root: seq<Entry>, listing: seq<Entry>, e: Entry)
    ensures e in NotFilesInRoot(root, listing) <==> e in listing && !IsFileInRoot(root, e.name)
    decreases |listing|
  {
    if |listing| > 0 {
      var init := listing[..|listing| - 1];
      NotFilesInRootMember(root, init, e);
      assert listing == init + [listing[|listing| - 1]];
    }
  }

  /** Filtering the root by its own files leaves only directories. */
  lemma ActivityFoldersAreDirs(root: seq<Entry>)
    ensures forall i :: 0 <= i < |ActivityFolders(root)| ==> ActivityFolders(root)[i].Dir?
  {
    forall i | 0 <= i < |ActivityFolders(root)| ensures ActivityFolders(root)[i].Dir? {
      var e := ActivityFolders(root)[i];
      NotFilesInRootMember(root, root, e);
    }
  }

  // ---------------------------------------------------------------------------
  // Activity labels

  predicate Distinct(names: seq<string>)
  {
    forall p, q :: 0 <= p < q < |names| ==> names[p] != names[q]
  }

  /** The keys of the dict are the first `n` keys. */
  lemma {:induction false} ZipPrefixKeys(keys: seq<string>, values: seq<string>, n: nat, k: string)
    requires n <= |keys| && n <= |values|
    ensures k in ZipPrefix(keys, values, n) <==> exists i :: 0 <= i < n && keys[i] == k
    decreases n
  {
    if n > 0 {
      ZipPrefixKeys(keys, values, n - 1, k);
      if keys[n - 1] == k {
        assert 0 <= n - 1 < n && keys[n - 1] == k;
      }
    }
  }

  /** A key takes the value paired with its last occurrence among the first `n` keys. */
  lemma {:induction false} ZipPrefixLast(keys: seq<string>, values: seq<string>, n: nat, i: nat)
    requires n <= |keys| && n <= |values| && i < n
    requires forall j :: i < j < n ==> keys[j] != keys[i]
    ensures keys[i] in ZipPrefix(keys, values, n)
    ensures ZipPrefix(keys, values, n)[keys[i]] == values[i]
    decreases n
  {
    if i < n - 1 {
      ZipPrefixLast(keys, values, n - 1, i);
    }
  }

  /** With distinct keys, key `i` maps to value `i` when there is one, and is absent otherwise. */
  lemma DictZipAt(keys: seq<string>, values: seq<string>, i: nat)
    requires Distinct(keys) && i < |keys|
    ensures i < |values| ==> keys[i] in DictZip(keys, values) && DictZip(keys, values)[keys[i]] == values[i]
    ensures i >= |values| ==> keys[i] !in DictZip(keys, values)
  {
    var n := if |keys| <= |values| then |keys| else |values|;
    if i < n {
      ZipPrefixLast(keys, values, n, i);
    } else {
      ZipPrefixKeys(keys, values, n, keys[i]);
    }
  }

  /**
   * Lines 65-68: when the activity folders have distinct names, a row's `activity_name` is the
   * label at its folder's listing position, and NaN for folders past the last label.
   */
  lemma ActivityNameByPosition(root: seq<Entry>, k: nat)
    requires CompleteDataset(root).Ok?
    requires Distinct(Names(ActivityFolders(root)))
    requires k < |CompleteDataset(root).value.rows|
    ensures k < |Origins(root)|
    ensures |CompleteDataset(root).value.rows[k]| == 49
         && CompleteDataset(root).value.rows[k][48] ==
              if Origins(root)[k].activityPos < |ActivitiesCodes| then Text(ActivitiesCodes[Origins(root)[k].activityPos])
              else NaN
  {
    var t := CompleteDataset(root).value;
    CompleteDatasetRows(root);
    DataColumnsLayout();
    var o := Origins(root)[k];
    assert t.rows[k] == OutputRow(root, o);
    assert |t.rows[k]| == 49;
    assert t.rows[k][48] == Lookup(Labels(root), Text(o.activity));
    OriginsComeFrom(root, k);
    var folders := ActivityFolders(root);
    assert Names(folders)[o.activityPos] == o.activity;
    DictZipAt(Names(folders), ActivitiesCodes, o.activityPos);
  }

  // ---------------------------------------------------------------------------
  // When a run succeeds

  /**
   * A segment entry `read_csv` accepts: a file none of whose later lines has more fields than
   * its first line or, when that is shorter, the 45 names.
   */
  predicate SegmentLoadable(e: Entry)
  {
    e.File? && forall k :: 0 < k < |e.rows| ==> |e.rows[k]| <= TableWidth(e.rows, 45)
  }

  /** A subject entry: a non-empty directory of loadable segments. */
  predicate SubjectLoadable(s: Entry)
  {
    s.Dir? && |s.entries| > 0 && forall i :: 0 <= i < |s.entries| ==> SegmentLoadable(s.entries[i])
  }

  /** An activity entry: a directory whose kept listing is non-empty and all loadable. */
  predicate ActivityLoadable(root: seq<Entry>, a: Entry)
  {
    && a.Dir?
    && |SubjectFolders(root, a)| > 0
    && forall i :: 0 <= i < |SubjectFolders(root, a)| ==> SubjectLoadable(SubjectFolders(root, a)[i])
  }

  /** A data directory the builder accepts. */
  predicate Loadable(root: seq<Entry>)
  {
    && |ActivityFolders(root)| > 0
    && forall i :: 0 <= i < |ActivityFolders(root)| ==> ActivityLoadable(root, ActivityFolders(root)[i])
  }

  lemma SegmentFrameOk(path: seq<string>, e: Entry)
    ensures SegmentFrame(path, e, DataColumns()).Ok? <==> SegmentLoadable(e)
  {
    DataColumnsLayout();
  }

  lemma SubjectFrameOk(a: string, s: Entry)
    ensures SubjectFrame(a, s, DataColumns()).Ok? <==> SubjectLoadable(s)
  {
    if s.Dir? {
      var r := SegmentFrames(a, s.name, s.entries, DataColumns());
      forall i | 0 <= i < |s.entries|
        ensures SegmentFrame([a, s.name, s.entries[i].name], s.entries[i], DataColumns()).Ok?
            <==> SegmentLoadable(s.entries[i])
      {
        SegmentFrameOk([a, s.name, s.entries[i].name], s.entries[i]);
      }
      if r.Ok? {
        assert SameColumns(r.value);
      }
    }
  }

  lemma ActivityFrameOk(root: seq<Entry>, a: Entry)
    ensures ActivityFrame(root, a, DataColumns()).Ok? <==> ActivityLoadable(root, a)
  {
    if a.Dir? {
      var subjects := SubjectFolders(root, a);
      var r := SubjectFrames(a.name, subjects, DataColumns());
      forall i | 0 <= i < |subjects|
        ensures SubjectFrame(a.name, subjects[i], DataColumns()).Ok? <==> SubjectLoadable(subjects[i])
      {
        SubjectFrameOk(a.name, subjects[i]);
      }
      if r.Ok? {
        assert SameColumns(r.value);
      }
    }
  }

  /** The three steps after the activity loop that can fail. */
  lemma CompleteDatasetSteps(root: seq<Entry>)
    ensures CompleteDataset(root).Ok? <==>
      && ActivityFrames(root, ActivityFolders(root), DataColumns()).Ok?
      && Concat(ActivityFrames(root, ActivityFolders(root), DataColumns()).value).Ok?
      && "activity" in Concat(ActivityFrames(root, ActivityFolders(root), DataColumns()).value).value.columns
  {
  }

  /** Every activity frame has the sensor columns and the three tags. */
  lemma ActivityFramesColumns(root: seq<Entry>, fs: seq<Frame>)
    requires ActivityFrames(root, ActivityFolders(root), DataColumns()) == Ok(fs)
    ensures SameColumns(fs)
    ensures |fs| > 0 ==> fs[0].columns == DataColumns() + ["segment", "subject", "activity"]
  {
    TaggedColumns();
  }

  /** Once the activity loop succeeds, only an empty listing can stop the run. */
  lemma LabelStepOk(root: seq<Entry>, fs: seq<Frame>)
    requires ActivityFrames(root, ActivityFolders(root), DataColumns()) == Ok(fs)
    ensures CompleteDataset(root).Ok? <==> |fs| > 0
  {
    CompleteDatasetSteps(root);
    if |fs| > 0 {
      ActivityFramesColumns(root, fs);
      ActivityColumnIndex();
    }
  }

  /**
   * Lines 21-68: a run succeeds exactly when there is an activity folder, every kept folder
   * and subject listing is non-empty, every subject entry is a directory and every segment
   * entry is a file none of whose later lines has more fields than its first line or, when
   * that is shorter, the 45 names.
   */
  lemma CompleteDatasetOk(root: seq<Entry>)
    ensures CompleteDataset(root).Ok? <==> Loadable(root)
  {
    var folders := ActivityFolders(root);
    var r := ActivityFrames(root, folders, DataColumns());
    forall i | 0 <= i < |folders|
      ensures ActivityFrame(root, folders[i], DataColumns()).Ok? <==> ActivityLoadable(root, folders[i])
    {
      ActivityFrameOk(root, folders[i]);
    }
    if r.Ok? {
      LabelStepOk(root, r.value);
    }
  }

  /**
   * The `isfile` test of line 34 looks in the root: a file inside an activity folder is kept
   * in the subject listing unless the root holds a file of that name, and then the run aborts.
   */
  lemma FileInActivityFolderAborts(root: seq<Entry>, i: nat, j: nat)
    requires i < |ActivityFolders(root)|
    requires ActivityFolders(root)[i].Dir? && j < |ActivityFolders(root)[i].entries|
    requires ActivityFolders(root)[i].entries[j].File?
    requires !IsFileInRoot(root, ActivityFolders(root)[i].entries[j].name)
    ensures CompleteDataset(root).Err?
  {
    var a := ActivityFolders(root)[i];
    var e := a.entries[j];
    NotFilesInRootMember(root, a.entries, e);
    var p :| 0 <= p < |SubjectFolders(root, a)| && SubjectFolders(root, a)[p] == e;
    CompleteDatasetOk(root);
  }
}
