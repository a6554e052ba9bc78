# Biomechanics dataset builder and dashboard selection logic, in Dafny

This project models two parts of a motion-sensor analysis repository.

**The dataset builder** (`data_cleaning.py`) turns a data directory into one table. It builds the
45 sensor column names, five body units times nine channels, unit-major. Then it walks the
directory: activity folders, subject folders inside them, segment files inside those. Each file
is read into the 45 sensor columns and tagged with its `segment` id, the file name minus its last
four characters. Reading follows pandas: the table is as wide as the first line or, when that is shorter, as the
45 names; a shorter line is completed with NaN, a later line wider than the table is a parser
error, and the fields by which the first line exceeds the 45 names become an index that the
concatenations drop. The segments of a subject are concatenated and tagged with `subject`. The subjects of
an activity are concatenated and tagged with `activity`. Last, all activities are concatenated.
Each row then gets an `activity_name`: its activity folder is looked up in a table that pairs the
listed activity folders, by position, with 19 fixed labels.

**The dashboard's selection logic** (`streamlit_app.py`) covers these pieces:
- the nine sensor codes and nine labels;
- `sensor_codes_and_labels`, which turns a sensor choice and a unit code into three column names and three labels;
- the left/right rule for chart titles;
- the pickers that choose the 3D scatter's axes and the boxplot's column;
- the row filters on subject and activity, and the projection onto the chosen columns;
- the dispatch on the body unit: Torso gets one panel and a boxplot; Arms and Legs get a left panel and a right panel.

Modules:
- `Outcomes` (outcomes.dfy): Option and Result values.
- `Seqs` (seqs.dfy): concatenation of a sequence of sequences.
- `Strings` (strings.dfy): Python's `in` on strings, `lower()`, and `s[:-n]`.
- `Frames` (frames.dfy): the pandas operations the scripts use, on a table of columns and rows. The operations are column assignment, `concat`, `Series.map`, boolean-mask filtering and column projection.
- `DataCleaning` (data_cleaning.dfy): the builder.
  - Functions give each level of the walk.
  - Methods with loops mirror the script's loops. Each method is proved equal to its function.
- `DatasetProperties` (dataset_properties.dfy): what the builder produces.
  - The reference is `Origins`, an enumeration of every line of every reached file with its listing positions. It is defined independently of the table code.
  - The lemmas state the output's columns, rows, row count, row order and activity labels against it, and exactly when a run aborts.
- `Dashboard` (dashboard.dfy): the vocabularies, the resolver, the titles and the axis pickers.
- `DashboardPage` (dashboard_page.dfy): the row filters, the projection, the panels and the unit dispatch.

The directory tree is a value, `Entry = File(name, rows) | Dir(name, entries)`. Listing order is
sequence order, and a file's contents are already split into lines of fields. Sensor values are an opaque
type `Sample`. A cell is a sample, a text tag, or pandas' missing value `NaN`.

Run failures are `Result` errors, not preconditions:
- a subject or segment entry of the wrong kind;
- a later segment line with more fields than its file's first line and than the 45 names (pandas' parser error);
- `concat` of an empty collection, which happens when a subject folder has no files or an activity folder has no kept subjects;
- a missing column (`KeyError`);
- a name read before it is assigned (`UnboundLocalError`);
- an empty pick list (`IndexError`).

Two details follow the code rather than its description:
- The `isfile` test at `data_cleaning.py:34` looks the name up in the data root, not in the activity folder. Every entry of an activity folder is therefore kept as a subject unless the root holds a file of that name. A stray file in an activity folder then aborts the run, because listing a file fails.
- The right-hand scatter plots (`streamlit_app.py:324,361`) are passed the projected table instead of the code list. Iterating a table gives its column names: the three codes, then `"segment"`. `"segment"` holds no axis letter, so the picks come out the same. This call is not a defect in behaviour.

## Model

| member | source | states |
|---|---|---|
| `DataCleaning.BuildDataColumns` | data_cleaning.py:8-15 | The nested append loops build exactly `data_columns`, unit blocks in unit order. |
| `DatasetProperties.DataColumnsLayout` | data_cleaning.py:8-15 | `data_columns` has 45 names, and name `9*u+s` is unit code `u`, an underscore, then sensor code `s`. |
| `DatasetProperties.DataColumnInitials` | data_cleaning.py:8-15 | Every sensor column name starts with the letter of its body unit (T, R or L). |
| `DatasetProperties.TagsAreNewColumns` | data_cleaning.py:53-68 | None of `segment`, `subject`, `activity` or `activity_name` is a sensor column, so no tag overwrites a sensor column. |
| `DatasetProperties.TaggedColumns` | data_cleaning.py:53-68 | Each tag appends one new column, so no level overwrites an inner level's tag. The final columns are the 45 names and the four tags, in that order. |
| `DataCleaning.ReadCsv` | data_cleaning.py:47 | Reading succeeds exactly on a file none of whose later lines has more fields than its first line or, when that is shorter, than the names. The frame then has the given names and one row per line. Column j holds the line's field at j plus the index width, or NaN where the line is too short. The index width is how far the first line exceeds the names. |
| `DataCleaning.ReadCsvExact` | data_cleaning.py:47 | A file whose every line has one field per name is read value for value. |
| `DataCleaning.ShortFirstLineReads` | data_cleaning.py:47 | A first line shorter than the names does not narrow the table: later lines with one field per name are read, and the first row's missing fields are NaN. |
| `DataCleaning.SegmentFrame` | data_cleaning.py:47-53 | A segment reads exactly when its file does, and gains the `segment` column. |
| `DataCleaning.SegmentFrames` | data_cleaning.py:41-54 | The segment loop succeeds exactly when every file reads, and gives one frame per file in listing order. Otherwise it stops with the first failing file's error. |
| `DataCleaning.SubjectFrame` | data_cleaning.py:41-59 | A subject's frame has the sensor columns, `segment` and `subject`, and every row has one cell per column. |
| `DataCleaning.SubjectFrames` | data_cleaning.py:37-59 | The subject loop gives one frame per kept subject in listing order, or the first failure. |
| `DataCleaning.ActivityFrame` | data_cleaning.py:34-64 | An activity's frame has the sensor columns and the three tags `segment`, `subject`, `activity`, and every row has one cell per column. |
| `DataCleaning.ActivityFrames` | data_cleaning.py:30-64 | The activity loop gives one frame per activity folder in listing order, or the first failure. |
| `DataCleaning.CompleteDataset` | data_cleaning.py:8-68 | A successful run gives a table where every row has one cell per column. |
| `DataCleaning.SegmentFramesPrefix` | data_cleaning.py:45-54 | Once a segment fails, the rest of the listing cannot change the loop's outcome. |
| `DataCleaning.SubjectFramesPrefix` | data_cleaning.py:38-59 | Once a subject fails, the rest of the listing cannot change the loop's outcome. |
| `DataCleaning.ActivityFramesPrefix` | data_cleaning.py:31-64 | Once an activity fails, the rest of the listing cannot change the loop's outcome. |
| `DataCleaning.LoadSubject` | data_cleaning.py:41-59 | The segment loop with its concatenation and `subject` tag returns exactly the subject's frame or failure. |
| `DataCleaning.LoadActivity` | data_cleaning.py:34-64 | The subject loop with its concatenation and `activity` tag returns exactly the activity's frame or failure. |
| `DataCleaning.LoadActivities` | data_cleaning.py:30-64 | The activity loop returns one frame per activity folder, or the first failure. |
| `DataCleaning.BuildDataset` | data_cleaning.py:8-68 | The whole script, without the final write, returns exactly the complete dataset or the failure that aborts it. |
| `Frames.Assign` | data_cleaning.py:53 | Assigning a new column appends it as the last column, with that cell added to each row. Assigning an existing column overwrites only that column. |
| `Frames.Concat` | data_cleaning.py:57 | `concat` of no frames raises. Otherwise the rows are those of the frames one after another, in order, under the shared columns. |
| `Frames.MapColumn` | data_cleaning.py:68 | Mapping a column gives one cell per row: the row's key looked up in the table, or NaN when it is absent. A missing column raises `KeyError`. |
| `DatasetProperties.SegmentFrameRows` | data_cleaning.py:47-53 | A segment frame's rows are the cells read from its file's lines, in order, each with the file's segment id. |
| `DatasetProperties.SubjectFrameRows` | data_cleaning.py:41-58 | A subject frame's rows are its files' lines in listing order, each with segment id and subject name. |
| `DatasetProperties.ActivityFrameRows` | data_cleaning.py:34-63 | An activity frame's rows are its subjects' lines in listing order, each tagged with segment, subject and activity. |
| `DatasetProperties.AllActivitiesRows` | data_cleaning.py:67 | The final concatenation holds every enumerated line with its three tags, in enumeration order. |
| `DatasetProperties.CompleteDatasetRows` | data_cleaning.py:31-68 | The dataset has the 49 output columns. Row k holds the 45 cells read from line k (NaN for missing fields, index fields dropped), then its file name minus the last four characters, its subject folder, its activity folder, and that folder's label. |
| `DatasetProperties.OriginsComeFrom` | data_cleaning.py:31-47 | Every enumerated line is the stated line of the stated file, in the stated subject and activity folder of the listings. |
| `DatasetProperties.CompleteDatasetRowCount` | data_cleaning.py:31-67 | The row count is the sum of the line counts of all reached segment files. |
| `DatasetProperties.OriginsInOrder` | data_cleaning.py:31-67 | Rows are strictly ordered by activity listing position, then subject, then segment, then line. |
| `DatasetProperties.NotFilesInRootMember` | data_cleaning.py:34 | A listed entry is kept exactly when the root holds no file of the same name. |
| `DatasetProperties.ActivityFoldersAreDirs` | data_cleaning.py:21 | Every kept activity entry is a directory. |
| `DatasetProperties.DictZipAt` | data_cleaning.py:27 | With distinct keys, key i maps to value i while values last. Keys past the last value are absent, because `zip` truncates. |
| `DatasetProperties.ActivityNameByPosition` | data_cleaning.py:22-68 | A row from the i-th listed activity folder gets label i when i < 19, and NaN otherwise. |
| `DatasetProperties.CompleteDatasetOk` | data_cleaning.py:21-67 | A run succeeds exactly when three things hold. There is an activity folder. Every activity's kept subject list is non-empty and holds only directories. Every subject folder is non-empty and holds only files, none of whose later lines has more fields than the file's first line or, when that is shorter, the 45 names. |
| `DatasetProperties.FileInActivityFolderAborts` | data_cleaning.py:34-41 | A file inside an activity folder whose name is not a file in the root is kept as a subject, and the run aborts. |
| `Dashboard.LabelAt` | streamlit_app.py:167-170 | `sensors_labels` has nine entries; entry `3*j+i` is axis name i, a space, motion label j. |
| `Dashboard.CodeAt` | streamlit_app.py:167-171 | `sensors_codes` has nine entries; entry `3*j+i` is the lower-cased axis name i followed by the lower-cased motion j. |
| `Dashboard.SensorsCodesLiteral` | streamlit_app.py:171 | The dashboard's nine codes are `xacc … zmag`, the same list, in the same order, as the builder's sensor codes. |
| `Dashboard.LabelKey` | streamlit_app.py:44-50 | Among the nine labels, exactly the three of a sensor hold that sensor's key (`Acc`, `Vel`, `Mag`). |
| `Dashboard.CodeKey1` | streamlit_app.py:46 | Among the nine codes exactly the three gyroscope codes hold `gyro`. |
| `Dashboard.ResolvedChannels` | streamlit_app.py:40-52 | Each sensor choice gives three codes and three labels for any unit code. The codes are the unit code followed by the sensor's raw codes in X, Y, Z order; the labels are that sensor's labels in the same order. |
| `Dashboard.SensorCodesAndLabels` | streamlit_app.py:40-52 | A result exists exactly for the three sensor options; any other choice leaves the results unbound. |
| `Dashboard.ChannelAxes` | streamlit_app.py:43-50 | Code i and label i name the same axis. |
| `Dashboard.ResolvedCodesAreColumns` | streamlit_app.py:43-50 | For each unit code `T_`, `LA_`, `RA_`, `LL_`, `RL_` and each sensor, every resolved code is one of the builder's 45 column names. |
| `Dashboard.SideOfUnitCode` | streamlit_app.py:107-112 | On the five unit codes, the substring tests give "Left" for LA/LL, "Right" for RA/RL, and no side only for T. |
| `Dashboard.PanelTitles` | streamlit_app.py:56-64 | For each unit code under its own unit, `tick_stepsize` is assigned 2 for Torso and 4 for limbs; no chart reads it. The line-chart, correlation and distribution titles name the code's side. |
| `Dashboard.UnsidedLimbChart` | streamlit_app.py:56-61 | Under Arms or Legs, a unit code naming no side leaves the line chart's title unbound. |
| `Dashboard.ScatterAxesAsWritten` | streamlit_app.py:93-95 | On the resolved codes, the first-match picks give the X, Y and Z columns for accelerometers and magnetometers. For gyroscopes the `y` pick is the X column. |
| `Dashboard.GyroscopeScatterSkipsY` | streamlit_app.py:93-95 | The gyroscope scatter plots the X column on both the x and y axes and never shows the Y column. |
| `Dashboard.ProjectedTableAxes` | streamlit_app.py:319-324 | Passing the projected table (codes then `"segment"`) gives the same picks as passing the codes. |
| `Dashboard.BoxplotCodeAsWritten` | streamlit_app.py:279-286 | For each offered choice the boxplot uses the chosen axis's column, except that "Y Gyroscopes" gives the X column. |
| `Dashboard.ScatterAxesByKey` | streamlit_app.py:93-95 | The corrected picker gives the X, Y and Z columns for every sensor and unit, from the codes or from the projected table. |
| `Dashboard.BoxplotCodeByKeyPicksAxis` | streamlit_app.py:286 | The corrected boxplot picker gives the chosen axis's column for every sensor. |
| `Frames.Where` | streamlit_app.py:247 | A boolean-mask filter keeps the same columns and exactly the rows the mask accepts. |
| `Frames.Project` | streamlit_app.py:252 | Projection succeeds exactly when every listed name is a column. The result has exactly those columns, in that order, the same number of rows, and each cell is what the row holds under that name. |
| `Frames.FilterAt` | streamlit_app.py:247 | The filtered rows are the input rows at the kept positions, one for one, in order. |
| `Frames.KeptPositionsSpec` | streamlit_app.py:247 | The kept positions are strictly increasing and are exactly the positions the mask accepts. |
| `DashboardPage.FilterSubjectAndActivity` | streamlit_app.py:247 | Missing `subject` or `activity_name` raises `KeyError`. Otherwise the result has the same columns and exactly the rows with that subject and that activity label, each once, in original order. |
| `DashboardPage.FilterSubjectInActivities` | streamlit_app.py:269-284 | The same, keeping the rows of the subject whose label cell is one of the selected cells. A selected NaN matches NaN labels, as `isin` does. |
| `DashboardPage.DefaultActivitiesKeepSubject` | streamlit_app.py:269-284 | With the multi-select at its default, every label the column holds, the boxplot keeps every row of the subject in original order, NaN-labelled rows included. |
| `DashboardPage.ProjectResolved` | streamlit_app.py:252 | On the dataset's columns, projecting the resolved codes plus `"segment"` succeeds. It keeps exactly those four columns and every row, and each cell is the row's value under that name. |
| `DashboardPage.PanelFor` | streamlit_app.py:249-264 | A panel's codes and labels are the resolver's result for the sensor and unit code. It is given the filtered rows for the correlation and exactly their projection on its codes and `"segment"`, cells by name. The right-hand scatter iterates the projected table; the others iterate the codes. The scatter axes are what the first-match picker gives on that input. An unknown sensor leaves the codes unbound. |
| `DashboardPage.Panels` | streamlit_app.py:295-367 | One panel per unit code, in order, each carrying its unit code, or the first failure. |
| `DashboardPage.BoxplotFor` | streamlit_app.py:269-288 | The boxplot succeeds exactly when the subject/activities filter succeeds and the picker finds a code. Its column is one of the resolved codes, the first-match pick for the choice's lower-cased initial. Its rows are exactly the filter's result. Its label and title are the chosen axis text. |
| `DashboardPage.Render` | streamlit_app.py:244-367 | The page first filters on subject and activity; a filter error stops it. Its panels are `Panels` over the filtered rows, one per unit code of the selected unit, left before right. Torso has one panel and a boxplot, which is `BoxplotFor` over the unfiltered table with that panel's codes; other units have none. |
| `DashboardPage.TorsoPage` | streamlit_app.py:284-288 | The torso page succeeds exactly when its boxplot does. It keeps the given panels and adds the boxplot over the whole table, drawn from the first panel's codes. |
| `DashboardPage.PanelOnDataset` | streamlit_app.py:249-264 | On the dataset's columns, a unit code's panel has these parts. The chosen sensor's columns behind that unit code, with their labels. The scatter axes: X, Y, Z for accelerometers and magnetometers; X, X, Z for gyroscopes. The titles with the code's side, and the value assigned to `tick_stepsize`. Cells projected by name. |
| `DashboardPage.PanelsOnDataset` | streamlit_app.py:295-367 | Arms and Legs render both panels, and Torso renders its one. Each panel has the parts `PanelOnDataset` states for its unit code, the gyroscope scatter's X column on the y axis included. |
| `DashboardPage.BoxplotOnDataset` | streamlit_app.py:284-288 | The torso boxplot shows the chosen axis's column, the X column for "Y Gyroscopes", over the subject's rows in the chosen activities, in original order. |
| `DashboardPage.RenderOnDataset` | streamlit_app.py:244-367 | On the dataset, any offered sensor and unit renders. Every panel has its unit code's three columns and the rows of the selected subject and activity, in order. The torso boxplot has the chosen axis's column, the X column for "Y Gyroscopes". |
| `DashboardPage.UnknownSensorFails` | streamlit_app.py:42-52 | A sensor outside the three options stops the page with an unbound-name failure. |
| `DashboardPage.UnknownUnitRendersNothing` | streamlit_app.py:290-295 | A unit outside the three branches renders no panel and no boxplot. |

## Left out

- File-system and CSV I/O are not modelled: `listdir`, `isfile`, `read_csv`'s splitting of text into fields and of fields into numbers, `to_csv` and the dashboard's `load_data`, including its fallback to the `_subset.csv` file. The directory tree and each file's values are inputs, and the dashboard's table is an input.
- Line 18's `path` is a placeholder for the data root ("ENTER PATH HERE"), and the model takes the tree as that root. With the empty string as written, `listdir('')` raises and lines 34 and 41 would list `/<activity>` from the file-system root; that unfilled state is not modelled.
- `DataCleaning.ReadCsv`: a file's lines hold no blank lines, which pandas skips. An index field is dropped unread, since only `ignore_index=True` concatenations follow.
- Progress `print`s, `@st.cache`, page layout and widgets, and the duplicate widget key `"unit"` are not modelled. So is the "Machine Learning" placeholder. Widget values arrive as a `Selection`.
- Plotting and numeric library work are not modelled: `find_peaks`, `df.corr()`, `histplot` with KDE, the boxplot, the scatter and the loops over subplot axes. A panel records what these charts are given (columns, labels, rows, titles), not what they draw. It also keeps the value assigned to `tick_stepsize` (2 or 4), which no chart reads.
- Sample values are an opaque type. The commented-out rolling mean (lines 49-51 of `data_cleaning.py`) is dead code and is not modelled.
- `Frames.Project`: a missing name raises `KeyError` carrying that one name; pandas' message lists every missing name, which is not modelled.
- `Frames.Concat` models `concat` only for frames with the same columns; pandas' column union is not modelled. In the builder every concatenated frame has the same columns, which `DatasetProperties.ActivityFramesColumns` proves.
- CSV round-trip typing is not modelled. The dashboard's table is taken with text cells for the tag columns, as the builder wrote them; pandas' type inference when reading the file back is not modelled.
- Calling `sensor_codes_and_labels` twice gives the same result because it is a pure function here, so no lemma states it.
- `DatasetProperties.ActivityNameByPosition`: requires distinct activity folder names. A directory listing never repeats a name, so this holds for every real listing.
- `DataCleaning.SegmentFrames`, `DataCleaning.SubjectFrames` and `DataCleaning.ActivityFrames` keep their frames in a sequence in listing order, where the script keys dicts (`segments`, `subjects`, `activities`) by name. The two agree because a listing never repeats a name; a repeated name, which would overwrite a dict entry, is not modelled.
- `DashboardPage.RenderOnDataset`: states the page only for a table with the builder's 49 columns. Other tables are covered by the error cases of the filters and the projection.

## Findings

| source | as written | input that shows it | evidently intended | confidence | as-written member | corrected member |
|---|---|---|---|---|---|---|
| streamlit_app.py:93-95 | `y` is the first code containing `"y"` | sensor "Gyroscopes", any unit: the codes are `T_xgyro`, `T_ygyro`, `T_zgyro`, and `"gyro"` contains `y`, so `y = T_xgyro` | the scatter's y axis is the Y column (`T_ygyro`) | high; not executed | `Dashboard.GyroscopeScatterSkipsY` | `Dashboard.ScatterAxesByKey` |
| streamlit_app.py:286 | the boxplot column is the first code containing the choice's lower-cased first letter | choice "Y Gyroscopes": `T_xgyro` contains `y`, so the X column is plotted | the Y column (`T_ygyro`) | high; not executed | `Dashboard.BoxplotCodeAsWritten` | `Dashboard.BoxplotCodeByKeyPicksAxis` |

The corrected pickers look for the axis letter right after the unit code's underscore (`"_y"`).
The page model (`DashboardPage.PanelFor`, `DashboardPage.BoxplotFor`) keeps the pickers as written, so
its lemmas state what the dashboard shows; the corrected pickers stand beside them with their own lemmas.
