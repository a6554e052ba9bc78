/**
 * The dataset builder: the 45 sensor column names, the walk over activity, subject and
 * segment entries of the data directory, the provenance tags added at each level, the
 * row-wise concatenations, and the positional folder-to-label table that fills
 * `activity_name`. The directory tree and the parsed contents of each file are inputs.
 */
module DataCleaning {
  import opened Outcomes
  import opened Strings
  import opened Seqs
  import opened Frames

  /** Body units, in the order the columns are laid out. */
  const UnitsCodes: seq<string> := ["T", "RA", "LA", "RL", "LL"]

  /** Sensor channels of one unit: accelerometer, gyroscope and magnetometer, each on x, y, z. */
  const SensorsCodes: seq<string> :=
    ["xacc", "yacc", "zacc", "xgyro", "ygyro", "zgyro", "xmag", "ymag", "zmag"]

  /** The activity labels, matched by position against the listed activity folders. */
  const ActivitiesCodes: seq<string> :=
    ["Sitting", "Standing", "Lying on Back", "Lying on Right Side", "Ascending Stairs",
     "Descending Stairs", "Standing in an Elevator", "Moving in an Elevator", "Walking in a Parking Lot",
     "Walking on a Treadmill", "Walking on a Treadmill with an Incline", "Running on a Treadmill",
     "Exercising on a Stepper", "Exercising on a Cross Trainer",
     "Cycling on an Exercise Bike in a Horizontal Position",
     "Cycling on an Exercise Bike in a Vertical Position",
     "Rowing", "Jumping", "Playing Basketball"]

  /** The names one pass of the inner loop appends for unit `u`. */
  function UnitBlock(u: nat): seq<string>
    requires u < |UnitsCodes|
  {
    seq(|SensorsCodes|, s requires 0 <= s < |SensorsCodes| => UnitsCodes[u] + "_" + SensorsCodes[s])
  }

  function UnitBlocks(): seq<seq<string>>
  {
    seq(|UnitsCodes|, u requires 0 <= u < |UnitsCodes| => UnitBlock(u))
  }

  /** `data_columns`: the unit blocks one after another. */
  function DataColumns(): seq<string>
  {
    Flatten(UnitBlocks())
  }

  /** The nested `append` loops that build `data_columns`. */
  method BuildDataColumns() returns (columns: seq<string>)
    ensures columns == DataColumns()
  {
    columns := [];
    for u := 0 to |UnitsCodes|
      invariant columns == Flatten(UnitBlocks()[..u])
    {
      for s := 0 to |SensorsCodes|
        invariant columns == Flatten(UnitBlocks()[..u]) + UnitBlock(u)[..s]
      {
        columns := columns + [UnitsCodes[u] + "_" + SensorsCodes[s]];
      }
      assert UnitBlocks()[..u + 1][..u] == UnitBlocks()[..u];
    }
    assert UnitBlocks()[..|UnitsCodes|] == UnitBlocks();
  }

  /** A directory entry: a segment file with its parsed rows, or a directory with its listing. */
  datatype Entry =
    | File(name: string, rows: seq<seq<Sample>>)
    | Dir(name: string, entries: seq<Entry>)

  /** Why a run aborts. `path` lists the activity, subject and segment names leading to the entry. */
  datatype Failure =
    | Pandas(error: Frames.Error)   // an exception raised by pandas
    | NotADirectory(path: seq<string>) // `listdir` on a file
    | IsADirectory(path: seq<string>)  // `read_csv` on a directory
    | FieldCount(path: seq<string>)    // pandas' parser error: a later line wider than the table

  /** `isfile(join(path, name))`: the ROOT directory holds a file called `name`. */
  predicate IsFileInRoot(root: seq<Entry>, name: string)
  {
    exists i :: 0 <= i < |root| && root[i].File? && root[i].name == name
  }

  /**
   * `[f for f in listing if not isfile(join(path, f))]`. The test looks the name up in the root,
   * whichever directory `listing` came from.
   */
  function NotFilesInRoot(root: seq<Entry>, listing: seq<Entry>): seq<Entry>
  {
    if |listing| == 0 then []
    else
      var last := listing[|listing| - 1];
      NotFilesInRoot(root, listing[..|listing| - 1]) + if IsFileInRoot(root, last.name) then [] else [last]
  }

  /** `activity_folders`. */
  function ActivityFolders(root: seq<Entry>): seq<Entry>
  {
    NotFilesInRoot(root, root)
  }

  /** `subject_folders` of an activity directory. */
  function SubjectFolders(root: seq<Entry>, activity: Entry): seq<Entry>
    requires activity.Dir?
  {
    NotFilesInRoot(root, activity.entries)
  }

  function Nums(values: seq<Sample>): Row
  {
    seq(|values|, i requires 0 <= i < |values| => Num(values[i]))
  }

  /**
   * The fields `read_csv` takes as an implicit index: those by which the first line is wider than
   * the names. The concatenation with `ignore_index=True` drops that index again.
   */
  function LeadingFields(lines: seq<seq<Sample>>, n: nat): nat
  {
    if |lines| > 0 && |lines[0]| > n then |lines[0]| - n else 0
  }

  /**
   * The number of fields a line may have: the first line's or, when the names are more, the
   * number of names. The tokenizer expects that many fields on every line.
   */
  function TableWidth(lines: seq<seq<Sample>>, n: nat): nat
  {
    if |lines| > 0 && |lines[0]| > n then |lines[0]| else n
  }


  /** The row a line gives under `n` names after `lead` index fields: field `lead + j` fills column `j`, NaN when the line is too short. */
  function CsvRow(line: seq<Sample>, lead: nat, n: nat): (r: Row)
    ensures |r| == n
  {
    seq(n, j requires 0 <= j < n => if lead + j < |line| then Num(line[lead + j]) else NaN)
  }

  /** Cells completed with NaN up to `width`, as the tokenizer completes a line with missing fields. */
  function Padded(cells: Row, width: nat): (r: Row)
    ensures |r| == if |cells| >= width then |cells| else width
  {
    if |cells| >= width then cells else cells + seq(width - |cells|, _ => NaN)
  }

  /** Padding a line to the table width and dropping the index fields leaves its row under the names. */
  lemma PaddedLine(line: seq<Sample>, lead: nat, n: nat)
    requires |line| <= lead + n
    ensures lead <= |Padded(Nums(line), lead + n)|
    ensures Padded(Nums(line), lead + n)[lead..] == CsvRow(line, lead, n)
  {
    var p := Padded(Nums(line), lead + n);
    forall j | 0 <= j < n ensures p[lead..][j] == CsvRow(line, lead, n)[j] {
      if lead + j < |line| {
        assert p[lead + j] == Nums(line)[lead + j];
      }
    }
  }

  /**
   * `pd.read_csv(path, names=names)` of an entry whose lines are already split into fields. The
   * table is as wide as the first line or, when there are more names, as the names; a later line
   * with more fields than that is a parser error; a line with fewer fields is completed with NaN;
   * the fields by which the first line is wider than the names form the index.
   */
  function ReadCsv(path: seq<string>, e: Entry, names: seq<string>): (r: Result<Frame, Failure>)
    ensures r.Ok? <==> e.File? && forall k :: 0 < k < |e.rows| ==> |e.rows[k]| <= TableWidth(e.rows, |names|)
    ensures r.Ok? ==> Valid(r.value) && r.value.columns == names && |r.value.rows| == |e.rows|
    ensures r.Ok? ==> forall k :: 0 <= k < |e.rows| ==>
      r.value.rows[k] == CsvRow(e.rows[k], LeadingFields(e.rows, |names|), |names|)
  {
    if e.Dir? then Err(IsADirectory(path))
    else if exists k :: 0 < k < |e.rows| && |e.rows[k]| > TableWidth(e.rows, |names|) then Err(FieldCount(path))
    else
      var lead := LeadingFields(e.rows, |names|);
      assert forall k :: 0 <= k < |e.rows| ==> |e.rows[k]| <= lead + |names| && lead <= |Padded(Nums(e.rows[k]), lead + |names|)|;
      var rows := seq(|e.rows|, k requires 0 <= k < |e.rows| => Padded(Nums(e.rows[k]), lead + |names|)[lead..]);
      assert forall k :: 0 <= k < |e.rows| ==> rows[k] == CsvRow(e.rows[k], lead, |names|) by {
        forall k | 0 <= k < |e.rows| ensures rows[k] == CsvRow(e.rows[k], lead, |names|) {
          PaddedLine(e.rows[k], lead, |names|);
        }
      }
      Ok(Frame(names, rows))
  }

  /** A file whose every line has one field per name is read value for value. */
  lemma ReadCsvExact(path: seq<string>, e: Entry, names: seq<string>)
    requires e.File? && forall k :: 0 <= k < |e.rows| ==> |e.rows[k]| == |names|
    ensures ReadCsv(path, e, names).Ok?
    ensures ReadCsv(path, e, names).value.rows == seq(|e.rows|, k requires 0 <= k < |e.rows| => Nums(e.rows[k]))
  {
    var r := ReadCsv(path, e, names).value;
    forall k | 0 <= k < |e.rows| ensures r.rows[k] == Nums(e.rows[k]) {
      assert CsvRow(e.rows[k], 0, |names|) == Nums(e.rows[k]);
    }
  }

  /**
   * A first line shorter than the names does not narrow the table: later lines may have one
   * field per name, and the first row is completed with NaN.
   */
  lemma ShortFirstLineReads(path: seq<string>, e: Entry, names: seq<string>)
    requires e.File? && |e.rows| > 0 && |e.rows[0]| < |names|
    requires forall k :: 0 <= k < |e.rows| ==> |e.rows[k]| <= |names|
    ensures ReadCsv(path, e, names).Ok?
    ensures forall j :: |e.rows[0]| <= j < |names| ==> ReadCsv(path, e, names).value.rows[0][j] == NaN
  {
  }

  /** The segment id: the file name without its last four characters (`segment[:-4]`). */
  function SegmentId(fileName: string): string
  {
    DropLast(fileName, 4)
  }

  /** One segment file read and tagged with its `segment` id. */
  function SegmentFrame(path: seq<string>, e: Entry, names: seq<string>): (r: Result<Frame, Failure>)
    ensures r.Ok? <==> ReadCsv(path, e, names).Ok?
    ensures r.Ok? ==> Valid(r.value) && r.value.columns == WithColumn(names, "segment")
  {
    match ReadCsv(path, e, names)
    case Err(x) => Err(x)
    case Ok(f) => Ok(AssignConst(f, "segment", Text(SegmentId(e.name))))
  }

  /** The segment loop of one subject directory. */
  function SegmentFrames(activity: string, subject: string, files: seq<Entry>, names: seq<string>)
    : (r: Result<seq<Frame>, Failure>)
    ensures r.Ok? <==> forall i :: 0 <= i < |files| ==> SegmentFrame([activity, subject, files[i].name], files[i], names).Ok?
    ensures r.Ok? ==> |r.value| == |files| && forall i :: 0 <= i < |files| ==>
      SegmentFrame([activity, subject, files[i].name], files[i], names) == Ok(r.value[i])
    ensures r.Err? ==>
      exists i :: 0 <= i < |files| &&
        SegmentFrame([activity, subject, files[i].name], files[i], names) == Err(r.error) &&
        forall j :: 0 <= j < i ==> SegmentFrame([activity, subject, files[j].name], files[j], names).Ok?
  {
    CollectAll(files, (e: Entry) => SegmentFrame([activity, subject, e.name], e, names))
  }

  /** Lines 41-58: a subject's segments concatenated and tagged with `subject`. */
  function SubjectFrame(activity: string, subject: Entry, names: seq<string>): (r: Result<Frame, Failure>)
    ensures r.Ok? ==> Valid(r.value) && r.value.columns == WithColumn(WithColumn(names, "segment"), "subject")
  {
    if subject.File? then Err(NotADirectory([activity, subject.name]))
    else
      match SegmentFrames(activity, subject.name, subject.entries, names)
      case Err(x) => Err(x)
      case Ok(fs) =>
        match Concat(fs)
        case Err(x) => Err(Pandas(x))
        case Ok(f) =>
          ConcatValid(fs);
          Ok(AssignConst(f, "subject", Text(subject.name)))
  }

  /** The subject loop of one activity directory. */
  function SubjectFrames(activity: string, subjects: seq<Entry>, names: seq<string>)
    : (r: Result<seq<Frame>, Failure>)
    ensures r.Ok? <==> forall i :: 0 <= i < |subjects| ==> SubjectFrame(activity, subjects[i], names).Ok?
    ensures r.Ok? ==> |r.value| == |subjects| && forall i :: 0 <= i < |subjects| ==>
      SubjectFrame(activity, subjects[i], names) == Ok(r.value[i])
    ensures r.Err? ==>
      exists i :: 0 <= i < |subjects| &&
        SubjectFrame(activity, subjects[i], names) == Err(r.error) &&
        forall j :: 0 <= j < i ==> SubjectFrame(activity, subjects[j], names).Ok?
  {
    CollectAll(subjects, (s: Entry) => SubjectFrame(activity, s, names))
  }

  /** Lines 34-63: an activity's subjects concatenated and tagged with `activity`. */
  function ActivityFrame(root: seq<Entry>, activity: Entry, names: seq<string>): (r: Result<Frame, Failure>)
    ensures r.Ok? ==> Valid(r.value)
    ensures r.Ok? ==> r.value.columns == WithColumn(WithColumn(WithColumn(names, "segment"), "subject"), "activity")
  {
    if activity.File? then Err(NotADirectory([activity.name]))
    else
      match SubjectFrames(activity.name, SubjectFolders(root, activity), names)
      case Err(x) => Err(x)
      case Ok(fs) =>
        match Concat(fs)
        case Err(x) => Err(Pandas(x))
        case Ok(f) =>
          ConcatValid(fs);
          Ok(AssignConst(f, "activity", Text(activity.name)))
  }

  /** The activity loop. */
  function ActivityFrames(root: seq<Entry>, folders: seq<Entry>, names: seq<string>)
    : (r: Result<seq<Frame>, Failure>)
    ensures r.Ok? <==> forall i :: 0 <= i < |folders| ==> ActivityFrame(root, folders[i], names).Ok?
    ensures r.Ok? ==> |r.value| == |folders| && forall i :: 0 <= i < |folders| ==>
      ActivityFrame(root, folders[i], names) == Ok(r.value[i])
    ensures r.Err? ==>
      exists i :: 0 <= i < |folders| &&
        ActivityFrame(root, folders[i], names) == Err(r.error) &&
        forall j :: 0 <= j < i ==> ActivityFrame(root, folders[j], names).Ok?
  {
    CollectAll(folders, (a: Entry) => ActivityFrame(root, a, names))
  }

  function Names(entries: seq<Entry>): seq<string>
  {
    seq(|entries|, i requires 0 <= i < |entries| => entries[i].name)
  }

  /** The first `n` pairs of `zip(keys, values)` entered into a dict; a repeated key keeps its last value. */
  function ZipPrefix(keys: seq<string>, values: seq<string>, n: nat): map<string, string>
    requires n <= |keys| && n <= |values|
  {
    if n == 0 then map[] else ZipPrefix(keys, values, n - 1)[keys[n - 1] := values[n - 1]]
  }

  /** `dict(zip(keys, values))`: `zip` stops at the shorter of the two. */
  function DictZip(keys: seq<string>, values: seq<string>): map<string, string>
  {
    ZipPrefix(keys, values, if |keys| <= |values| then |keys| else |values|)
  }

  /** `activities_mapping`. */
  function ActivitiesMapping(folders: seq<Entry>): map<string, string>
  {
    DictZip(Names(folders), ActivitiesCodes)
  }

  /** Lines 21-68: the whole dataset, or the failure that aborts the run. */
  function CompleteDataset(root: seq<Entry>): (r: Result<Frame, Failure>)
    ensures r.Ok? ==> Valid(r.value)
  {
    var names := DataColumns();
    var folders := ActivityFolders(root);
    match ActivityFrames(root, folders, names)
    case Err(x) => Err(x)
    case Ok(fs) =>
      match Concat(fs)
      case Err(x) => Err(Pandas(x))
      case Ok(f) =>
        ConcatValid(fs);
        match MapColumn(f, "activity", ActivitiesMapping(folders))
        case Err(x) => Err(Pandas(x))
        case Ok(labels) => Ok(Assign(f, "activity_name", labels))
  }

  /** Once a prefix of the segment listing fails, the whole loop fails with the same error. */
  lemma {:induction false} SegmentFramesPrefix(activity: string, subject: string, files: seq<Entry>, names: seq<string>, i: nat)
    requires i <= |files| && SegmentFrames(activity, subject, files[..i], names).Err?
    ensures SegmentFrames(activity, subject, files, names) == SegmentFrames(activity, subject, files[..i], names)
    decreases |files|
  {
    if i < |files| {
      var init := files[..|files| - 1];
      assert init[..i] == files[..i];
      SegmentFramesPrefix(activity, subject, init, names, i);
    } else {
      assert files[..i] == files;
    }
  }

  /** Once a prefix of the subject listing fails, the whole loop fails with the same error. */
  lemma {:induction false} SubjectFramesPrefix(activity: string, subjects: seq<Entry>, names: seq<string>, i: nat)
    requires i <= |subjects| && SubjectFrames(activity, subjects[..i], names).Err?
    ensures SubjectFrames(activity, subjects, names) == SubjectFrames(activity, subjects[..i], names)
    decreases |subjects|
  {
    if i < |subjects| {
      var init := subjects[..|subjects| - 1];
      assert init[..i] == subjects[..i];
      SubjectFramesPrefix(activity, init, names, i);
    } else {
      assert subjects[..i] == subjects;
    }
  }

  /** Once a prefix of the activity listing fails, the whole loop fails with the same error. */
  lemma {:induction false} ActivityFramesPrefix(root: seq<Entry>, folders: seq<Entry>, names: seq<string>, i: nat)
    requires i <= |folders| && ActivityFrames(root, folders[..i], names).Err?
    ensures ActivityFrames(root, folders, names) == ActivityFrames(root, folders[..i], names)
    decreases |folders|
  {
    if i < |folders| {
      var init := folders[..|folders| - 1];
      assert init[..i] == folders[..i];
      ActivityFramesPrefix(root, init, names, i);
    } else {
      assert folders[..i] == folders;
    }
  }

  /** The body of the segment loop and the concatenation after it (lines 41-59). */
  method LoadSubject(names: seq<string>, activity: string, subject: Entry) returns (r: Result<Frame, Failure>)
    ensures r == SubjectFrame(activity, subject, names)
  {
    if subject.File? {
      return Err(NotADirectory([activity, subject.name]));
    }
    var segmentFiles := subject.entries;
    var segments: seq<Frame> := [];
    var i := 0;
    while i < |segmentFiles|
      invariant 0 <= i <= |segmentFiles|
      invariant SegmentFrames(activity, subject.name, segmentFiles[..i], names) == Ok(segments)
    {
      var segment := segmentFiles[i];
      var segmentData := SegmentFrame([activity, subject.name, segment.name], segment, names);
      assert segmentFiles[..i + 1][..i] == segmentFiles[..i];
      if segmentData.Err? {
        SegmentFramesPrefix(activity, subject.name, segmentFiles, names, i + 1);
        return Err(segmentData.error);
      }
      segments := segments + [segmentData.value];
      i := i + 1;
    }
    assert segmentFiles[..i] == segmentFiles;
    var allSegments := Concat(segments);
    if allSegments.Err? {
      return Err(Pandas(allSegments.error));
    }
    ConcatValid(segments);
    r := Ok(AssignConst(allSegments.value, "subject", Text(subject.name)));
  }

  /** The body of the subject loop and the concatenation after it (lines 34-64). */
  method LoadActivity(names: seq<string>, root: seq<Entry>, activity: Entry) returns (r: Result<Frame, Failure>)
    ensures r == ActivityFrame(root, activity, names)
  {
    if activity.File? {
      return Err(NotADirectory([activity.name]));
    }
    var subjectFolders := SubjectFolders(root, activity);
    var subjects: seq<Frame> := [];
    var i := 0;
    while i < |subjectFolders|
      invariant 0 <= i <= |subjectFolders|
      invariant SubjectFrames(activity.name, subjectFolders[..i], names) == Ok(subjects)
    {
      var allSegments := LoadSubject(names, activity.name, subjectFolders[i]);
      assert subjectFolders[..i + 1][..i] == subjectFolders[..i];
      if allSegments.Err? {
        SubjectFramesPrefix(activity.name, subjectFolders, names, i + 1);
        return Err(allSegments.error);
      }
      subjects := subjects + [allSegments.value];
      i := i + 1;
    }
    assert subjectFolders[..i] == subjectFolders;
    var allSubjects := Concat(subjects);
    if allSubjects.Err? {
      return Err(Pandas(allSubjects.error));
    }
    ConcatValid(subjects);
    r := Ok(AssignConst(allSubjects.value, "activity", Text(activity.name)));
  }

  /** The activity loop (lines 31-64): one frame per listed activity folder, or the first failure. */
  method LoadActivities(names: seq<string>, root: seq<Entry>, activityFolders: seq<Entry>)
    returns (r: Result<seq<Frame>, Failure>)
    ensures r == ActivityFrames(root, activityFolders, names)
  {
    var activities: seq<Frame> := [];
    var i := 0;
    while i < |activityFolders|
      invariant 0 <= i <= |activityFolders|
      invariant ActivityFrames(root, activityFolders[..i], names) == Ok(activities)
    {
      var allSubjects := LoadActivity(names, root, activityFolders[i]);
      assert activityFolders[..i + 1][..i] == activityFolders[..i];
      if allSubjects.Err? {
        ActivityFramesPrefix(root, activityFolders, names, i + 1);
        return Err(allSubjects.error);
      }
      activities := activities + [allSubjects.value];
      i := i + 1;
    }
    assert activityFolders[..i] == activityFolders;
    r := Ok(activities);
  }

  /** The script's main block (lines 8-68), without the final write to disk. */
  method BuildDataset(root: seq<Entry>) returns (r: Result<Frame, Failure>)
    ensures r == CompleteDataset(root)
  {
    var dataColumns := BuildDataColumns();
    var activityFolders := ActivityFolders(root);
    var activitiesMapping := ActivitiesMapping(activityFolders);
    var activities := LoadActivities(dataColumns, root, activityFolders);
    if activities.Err? {
      return Err(activities.error);
    }
    var completeDataset := Concat(activities.value);
    if completeDataset.Err? {
      return Err(Pandas(completeDataset.error));
    }
    ConcatValid(activities.value);
    var labels := MapColumn(completeDataset.value, "activity", activitiesMapping);
    if labels.Err? {
      return Err(Pandas(labels.error));
    }
    r := Ok(Assign(completeDataset.value, "activity_name", labels.value));
  }
}
