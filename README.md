# Survey coder — a verified Dafny model

The survey coder (`SurveyData/Script.py`, with a byte-identical copy at
`SurveyData/VRGroup/Script.py`; every line number below holds for both) turns
one raw survey export into a table of coded records, one per participant. It:

1. lists the `.csv` files next to the script and drops those whose base name
   starts with `coded_`. The coder's own earlier output is one of these. Exactly
   one file must remain: none is a "no input" error, and two or more is an
   "ambiguous input" error.
2. picks the study group from that file's base name. If the name contains
   `VR`, the group is VR, with questions Q16–Q27 before and Q87–Q98 after the
   session. Otherwise the group is Video, with Q48–Q57, Q52.1 and Q55.1 before
   and Q71–Q81 and Q84 after. Each group has its own answer key.
3. builds one record per row, in order. The record holds:
   - `id`, the row's position;
   - `group`;
   - the background answers Q1, Q2 and Q3_1, copied under new names when those
     columns exist;
   - for every question column that exists and holds an answer, a 0/1
     correctness flag. An answer is the cell's text with the whitespace at
     both ends removed; `""`, `nan` and `NaN` count as no answer;
   - `pre_score` and `post_score`, the running totals of those flags;
   - `gain`, read back from the record as `post_score - pre_score`.
4. saves the records as `coded_results.csv` in the same folder.

The model has five modules, one per file:

- `Strings` (strings.dfy): Python's `str.strip()` over the `str.isspace`
  characters, and substring search (`sub in s`).
- `Paths` (paths.dfy): POSIX `os.path.basename` and `os.path.join`.
- `Groups` (groups.dfy): the two hard-coded configurations and the choice
  between them.
- `Scoring` (scoring.dfy): the per-row loops as methods with loop invariants.
  Each method is proved equal to a specification function, and lemmas state
  what a coded record holds.
- `Coder` (coder.dfy): input selection and one whole run, with the
  file-system listing and the CSV reader passed in as parameters.

A row is a map from column name to cell text. The table's columns are a set,
and every row has a cell for each of them. A record maps field names to
`Num` or `Text` values.

## Model

| member | source | states |
|---|---|---|
| Strings.TrimStart | SurveyData/Script.py:125 | The result is a suffix of the input, everything dropped is whitespace, and the result does not start with whitespace. |
| Strings.TrimEnd | SurveyData/Script.py:125 | The result is a prefix of the input, everything dropped is whitespace, and the result does not end with whitespace. |
| Strings.Trim | SurveyData/Script.py:125 | `str.strip()`: the result is no longer than the input and has whitespace at neither end. |
| Strings.TrimIsInfix | SurveyData/Script.py:125 | The stripped answer is a contiguous piece of the cell text with only whitespace before and after it. |
| Strings.TrimUnique | SurveyData/Script.py:125 | Any whitespace around a stripped text is removed exactly: stripping `a + m + b` gives back `m`. |
| Strings.TrimIdempotent | SurveyData/Script.py:125 | Stripping an already stripped answer changes nothing. |
| Strings.Contains | SurveyData/Script.py:44 | `"VR" in file_name` holds exactly when "VR" occurs at some position of the name. |
| Paths.Basename | SurveyData/Script.py:22 | The base name is no longer than the path. Which part of the path it is, is stated by Paths.BasenameIsLastComponent. |
| Paths.BasenameIsLastComponent | SurveyData/Script.py:22 | The base name is a suffix of the path that contains no separator, and a separator stands right before it unless it is the whole path. |
| Paths.Join | SurveyData/Script.py:147 | POSIX `os.path.join(dir, name)` ends with `name`. An absolute `name` is the whole result. Otherwise the result is `dir`, then one separator, then `name`, and its length is fixed accordingly. The separator is left out when `dir` is empty or already ends in one. |
| Paths.BasenameOfJoin | SurveyData/Script.py:147 | The base name of `join(dir, name)` is `name` for every folder, when `name` has no separator. |
| Groups.VrKeyed | SurveyData/Script.py:47-75 | Every VR pre-test and post-test column has an answer key entry, so the lookup at line 127 cannot fail. |
| Groups.VrSeparated | SurveyData/Script.py:47-48 | No VR column is both a pre-test and a post-test column, and none is named like an id, group, score or background field. |
| Groups.VideoKeyed | SurveyData/Script.py:80-108 | Every Video pre-test and post-test column has an answer key entry. |
| Groups.VideoSeparated | SurveyData/Script.py:80-81 | No Video column is both a pre-test and a post-test column, and none is named like a fixed field. |
| Groups.ConfigsValid | SurveyData/Script.py:44-108 | Both configurations are keyed and separated, and each phase of each has 12 columns. |
| Groups.SelectGroup | SurveyData/Script.py:44-108 | The VR configuration is chosen exactly when "VR" occurs in the file name and Video otherwise. The group label is "VR" exactly then. The chosen configuration is valid and has 12 columns per phase. |
| Scoring.Flag | SurveyData/Script.py:127 | The flag is 0 or 1, and it is 1 exactly when the trimmed answer equals the key text. |
| Scoring.PhaseFlagsMeaning | SurveyData/Script.py:123-128 | `PhaseFlags`, the flags one phase writes: a phase writes a flag for exactly the columns that are in the table and answered (not `""`, `nan`, `NaN`), and that flag is the answer's correctness flag. |
| Scoring.PhaseFlagsAreNums | SurveyData/Script.py:127 | Every value a phase writes is a number, so reading the flag back (line 128) is an integer. |
| Scoring.CountPresent | SurveyData/Script.py:123-124 | The number of a phase's columns present in the table is at most the phase's length. |
| Scoring.PhaseScore | SurveyData/Script.py:122-129 | A phase's score lies between 0 and the number of its columns present in the table. |
| Scoring.CopiedFieldsMeaning | SurveyData/Script.py:117-119 | `CopiedFields`, the fields the background copy writes: a background field is written exactly when its source column is in the table, holds the source cell unchanged, and no other field is written. |
| Scoring.HeadFields | SurveyData/Script.py:114-119 | Before scoring, the record (`RecordHead`: id, group and the copied background fields) holds no field other than `id`, `group`, `cs_background`, `nn_course` and `derivative_familiarity`. |
| Scoring.CopyBackground | SurveyData/Script.py:117-119 | The loop adds exactly the copied background fields (`CopiedFields`) to the record. |
| Scoring.ScorePhase | SurveyData/Script.py:122-129 | The loop adds exactly the phase's flags (`PhaseFlags`) to the record, and its running total is the phase's score (`PhaseScore`). |
| Scoring.CodeRow | SurveyData/Script.py:114-141 | The record built field by field for one row is `CodedRecord` of that row: `RecordHead` (id, group, background), then the pre-test flags, `pre_score`, the post-test flags, `post_score` and `gain`, each write in source order. The Record* lemmas below state what that record holds. |
| Scoring.CodeTable | SurveyData/Script.py:111-142 | One record per row, in row order, each the coded record of its row with the row's position as id. |
| Scoring.ScoreIsSumOfFlags | SurveyData/Script.py:122-129 | A phase's score equals the sum of the flags held for its columns, in any record holding exactly that phase's flags. |
| Scoring.FullMarks | SurveyData/Script.py:123-128 | A phase scores full marks exactly when every one of its columns is present, answered, and answered with the key text. |
| Scoring.HeadIdentity | SurveyData/Script.py:114 | Before scoring, the record's id is the row position and its group is the selected group's label. |
| Scoring.ScoringKeeps | SurveyData/Script.py:121-141 | Scoring leaves every field that is not a scored column or a score exactly as the header wrote it. |
| Scoring.RecordIdentity | SurveyData/Script.py:114 | A coded record's id is its row's position and its group is the selected group. |
| Scoring.RecordBackground | SurveyData/Script.py:117-119 | A coded record holds a background field exactly when its source column exists, and then holds the source cell unchanged. |
| Scoring.RecordFlags | SurveyData/Script.py:123-138 | A scored column carries a flag exactly when it is present and answered, and the flag is 1 exactly when the trimmed answer equals the key. |
| Scoring.RecordScores | SurveyData/Script.py:122-141 | `pre_score` and `post_score` are the sums of their phase's flags as the record holds them. Each lies between 0 and that phase's present columns (at most its length), and `gain` is `post_score - pre_score`. |
| Coder.Candidates | SurveyData/Script.py:21-22 | A path is a candidate exactly when it is listed and its base name does not start with `coded_`. |
| Coder.SelectInput | SurveyData/Script.py:24-29 | No input is an error exactly when every listed path is a coded output. A chosen input is listed, is not a coded output, and is the only listed path that is not one. |
| Coder.TwoUncodedGiveTwoCandidates | SurveyData/Script.py:21-22 | Two listed positions holding non-coded paths give at least two candidates. |
| Coder.TwoCandidatesHaveTwoSources | SurveyData/Script.py:21-22 | At least two candidates come from two listed positions holding non-coded paths. |
| Coder.AmbiguousInputMeaning | SurveyData/Script.py:26-27 | Selection is ambiguous exactly when two listed positions hold paths that are not coded outputs. |
| Coder.CandidatesAppend | SurveyData/Script.py:21-22 | Filtering a concatenation is concatenating the filtered parts. |
| Coder.CandidatesMultiset | SurveyData/Script.py:21-22 | Each path is a candidate as often as it is listed, unless it is a coded output. |
| Coder.ListingOrderIrrelevant | SurveyData/Script.py:21-29 | The order in which the folder is listed does not change the outcome of selection. |
| Coder.OutputIsNeverAnInput | SurveyData/Script.py:20-22 | The file the coder writes is a coded output, wherever the folder is. |
| Coder.RerunSelectsSameInput | SurveyData/Script.py:20-29 | After a run has saved its output into the folder, selection gives the same result as before. |
| Coder.DirectoryDoesNotPickGroup | SurveyData/Script.py:35-44 | The folder an input sits in (for example one named VRGroup) has no effect on the group. Only the file's own name is searched. |
| Coder.RunCoder | SurveyData/Script.py:18-148 | In the model, where reading a file cannot fail, a run fails exactly when selection fails, with the same error. Otherwise it reads the selected input, writes to `coded_results.csv` in the script's folder, reports the group chosen from the input's base name, and produces the coded record of every row in order. |

## Left out

- Directory listing: `glob.glob`, `os.path.abspath` and `os.path.dirname` are not modelled. The listing is a parameter, a sequence of paths that already end in `.csv`.
- CSV reading and writing: `pd.read_csv`, building the `DataFrame` from the records, and `to_csv` are not modelled. Reading is a total function parameter `read`, so the error `pd.read_csv` raises on an unreadable or malformed file is not modelled; writing is represented only by the output path the run returns.
- Output columns: the column order and the filling of missing fields that `DataFrame(records)` performs are not modelled. A record is a map, so the insertion order of a Python dict is not kept.
- Cell text: pandas' conversion of cells to text (a missing cell becoming `nan`, a number becoming `1.0`) is not modelled. Cells are taken as already-converted text.
- Background values: these are copied by the source as raw pandas values and are modelled as that cell's text.
- Record id: `id` is modelled as the row's position, which is what the default index `read_csv` creates gives.
- Duplicate headers: pandas renames repeated column headers with suffixes such as `Q52.1`. The model takes the column names after that renaming.
- Strings.Trim: its contract states only the length bound and that neither end is whitespace. Where the result sits in the input is stated by Strings.TrimIsInfix instead.
- Paths.Basename: its contract states only the length bound. Which part of the path it returns is stated by Paths.BasenameIsLastComponent instead.
- Windows paths: Paths.Basename and Paths.Join model only the POSIX rules (separator `/`, no drive letters). On Windows, `ntpath` also splits and joins at `\` and handles drives, and neither is modelled. So for a path such as `G:\d\coded_results.csv`, Coder.IsCodedOutput, Coder.Candidates, Coder.OutputIsNeverAnInput and Coder.DirectoryDoesNotPickGroup state the POSIX behaviour, not the Windows one. In the model that path is a candidate, while on Windows it is excluded.
- Console output: the `print` calls and `coded_df.head()` are not modelled.
- Legacy code: the commented-out block at lines 6–16 is not modelled.
