/** Scoring one participant row against a group's answer key, and coding a
    whole table into one record per row. */
module Scoring {
  import opened Strings
  import opened Groups

  /** A record field: a number (id, flag, score, gain) or text (group, background answer). */
  datatype Value = Num(n: int) | Text(s: string)

  /** One survey row: column name to cell, each cell already converted to text. */
  type Row = map<string, string>

  /** One participant's coded record: field name to value. */
  type Record = map<string, Value>

  /** The loaded survey: its column names and its rows in file order. */
  datatype Table = Table(columns: set<string>, rows: seq<Row>)

  /** Every column of the table has a cell in the row. */
  predicate HasColumns(row: Row, columns: set<string>) {
    columns <= row.Keys
  }

  predicate WellFormed(table: Table) {
    forall i :: 0 <= i < |table.rows| ==> HasColumns(table.rows[i], table.columns)
  }

  /** A trimmed answer that counts as no response. */
  predicate IsBlank(answer: string) {
    answer == "" || answer == "nan" || answer == "NaN"
  }

  /** Column c is in the table and its trimmed cell is a response: exactly the
      columns that receive a flag. (A column of the table always has a cell in
      the row; the second conjunct only names that cell.) */
  predicate Answered(row: Row, columns: set<string>, c: string) {
    c in columns && c in row && !IsBlank(Trim(row[c]))
  }

  /** The correctness flag of an answer: 1 for an exact match with the key, 0 otherwise. */
  function Flag(answer: string, expected: string): (f: int)
    ensures f == 0 || f == 1
    ensures f == 1 <==> answer == expected
  {
    if answer == expected then 1 else 0
  }

  /** The flags one phase writes into a record, one per answered column of
      cols; PhaseFlagsMeaning states which columns and which values. */
  function PhaseFlags(row: Row, columns: set<string>, cols: seq<string>, key: map<string, string>): Record
    requires HasColumns(row, columns) && Keyed(cols, key)
    decreases |cols|
  {
    if cols == [] then map[]
    else
      var c := cols[|cols| - 1];
      var flags := PhaseFlags(row, columns, cols[..|cols| - 1], key);
      if Answered(row, columns, c) then flags[c := Num(Flag(Trim(row[c]), key[c]))] else flags
  }

  /** A phase holds a flag for exactly the answered columns of cols, and that
      flag is the answer's correctness flag. */
  lemma {:induction false} PhaseFlagsMeaning(row: Row, columns: set<string>, cols: seq<string>, key: map<string, string>)
    requires HasColumns(row, columns) && Keyed(cols, key)
    ensures var flags := PhaseFlags(row, columns, cols, key);
      && (forall c :: c in flags <==> c in cols && Answered(row, columns, c))
      && (forall c :: c in cols && Answered(row, columns, c) ==> flags[c] == Num(Flag(Trim(row[c]), key[c])))
    decreases |cols|
  {
    if cols != [] {
      var prefix := cols[..|cols| - 1];
      assert forall d :: d in cols <==> d in prefix || d == cols[|cols| - 1];
      PhaseFlagsMeaning(row, columns, prefix, key);
    }
  }

  /** Every value a phase writes is a number. */
  lemma {:induction false} PhaseFlagsAreNums(row: Row, columns: set<string>, cols: seq<string>, key: map<string, string>)
    requires HasColumns(row, columns) && Keyed(cols, key)
    ensures forall c :: c in PhaseFlags(row, columns, cols, key) ==> PhaseFlags(row, columns, cols, key)[c].Num?
    decreases |cols|
  {
    if cols != [] {
      PhaseFlagsAreNums(row, columns, cols[..|cols| - 1], key);
    }
  }

  /** How many entries of cols are columns of the table. */
  function CountPresent(columns: set<string>, cols: seq<string>): (n: nat)
    ensures n <= |cols|
  {
    if cols == [] then 0
    else CountPresent(columns, cols[..|cols| - 1]) + (if cols[|cols| - 1] in columns then 1 else 0)
  }

  /** A phase's score: the running total of its flags, in column order. */
  function PhaseScore(row: Row, columns: set<string>, cols: seq<string>, key: map<string, string>): (score: int)
    requires HasColumns(row, columns) && Keyed(cols, key)
    ensures 0 <= score <= CountPresent(columns, cols)
    decreases |cols|
  {
    if cols == [] then 0
    else
      var c := cols[|cols| - 1];
      PhaseScore(row, columns, cols[..|cols| - 1], key)
        + (if Answered(row, columns, c) then Flag(Trim(row[c]), key[c]) else 0)
  }

  /** The flag a record holds for column c, or 0 when it holds none. */
  function FlagAt(rec: Record, c: string): int {
    if c in rec && rec[c].Num? then rec[c].n else 0
  }

  /** The sum of the flags a record holds for the columns cols. */
  function SumFlags(rec: Record, cols: seq<string>): int {
    if cols == [] then 0 else SumFlags(rec, cols[..|cols| - 1]) + FlagAt(rec, cols[|cols| - 1])
  }

  /** No two pairs copy into the same field. */
  predicate DistinctTargets(pairs: seq<(string, string)>) {
    forall i, j :: 0 <= i < j < |pairs| ==> pairs[i].1 != pairs[j].1
  }

  /** The background fields copied from a row; CopiedFieldsMeaning states
      which fields and which values. */
  function CopiedFields(row: Row, columns: set<string>, pairs: seq<(string, string)>): Record
    requires HasColumns(row, columns)
    decreases |pairs|
  {
    if pairs == [] then map[]
    else
      var (source, field) := pairs[|pairs| - 1];
      var fields := CopiedFields(row, columns, pairs[..|pairs| - 1]);
      if source in columns then fields[field := Text(row[source])] else fields
  }

  /** For each (source, field) pair whose source column is in the table, the
      field holds the source cell unchanged; no other field is written. */
  lemma {:induction false} CopiedFieldsMeaning(row: Row, columns: set<string>, pairs: seq<(string, string)>)
    requires HasColumns(row, columns) && DistinctTargets(pairs)
    ensures var fields := CopiedFields(row, columns, pairs);
      && (forall k :: 0 <= k < |pairs| ==> (pairs[k].1 in fields <==> pairs[k].0 in columns))
      && (forall k :: 0 <= k < |pairs| && pairs[k].0 in columns ==> fields[pairs[k].1] == Text(row[pairs[k].0]))
      && (forall n :: n in fields ==> exists k :: 0 <= k < |pairs| && pairs[k].1 == n)
    decreases |pairs|
  {
    if pairs != [] {
      var prefix := pairs[..|pairs| - 1];
      assert forall k :: 0 <= k < |pairs| - 1 ==> prefix[k] == pairs[k];
      CopiedFieldsMeaning(row, columns, prefix);
    }
  }

  /** The fields a record holds before scoring: id, group and the background copy. */
  function RecordHead(idx: int, row: Row, columns: set<string>, cfg: GroupConfig): Record
    requires HasColumns(row, columns)
  {
    map["id" := Num(idx), "group" := Text(cfg.group)] + CopiedFields(row, columns, BackgroundCols)
  }

  /** Before scoring, a record holds only id, group and background fields. */
  lemma HeadFields(idx: int, row: Row, columns: set<string>, cfg: GroupConfig)
    requires HasColumns(row, columns)
    ensures RecordHead(idx, row, columns, cfg).Keys
         <= {"id", "group", "cs_background", "nn_course", "derivative_familiarity"}
  {
    assert DistinctTargets(BackgroundCols);
    CopiedFieldsMeaning(row, columns, BackgroundCols);
  }

  /** The record the coder builds for row number idx, field by field in the
      order the fields are written: id, group and background, pre-test flags,
      pre_score, post-test flags, post_score, and gain read back from the
      two scores. */
  function CodedRecord(idx: int, row: Row, columns: set<string>, cfg: GroupConfig): Record
    requires HasColumns(row, columns)
    requires Keyed(cfg.preCols, cfg.answerKey) && Keyed(cfg.postCols, cfg.answerKey)
  {
    PhaseFlagsAreNums(row, columns, cfg.postCols, cfg.answerKey);
    var withPre := RecordHead(idx, row, columns, cfg) + PhaseFlags(row, columns, cfg.preCols, cfg.answerKey);
    var withPost := withPre["pre_score" := Num(PhaseScore(row, columns, cfg.preCols, cfg.answerKey))]
                    + PhaseFlags(row, columns, cfg.postCols, cfg.answerKey);
    var scored := withPost["post_score" := Num(PhaseScore(row, columns, cfg.postCols, cfg.answerKey))];
    scored["gain" := Num(scored["post_score"].n - scored["pre_score"].n)]
  }

  /** Writing a field after a merge is merging the written map. */
  lemma UnionUpdate(base: Record, fields: Record, f: string, v: Value)
    ensures (base + fields)[f := v] == base + fields[f := v]
  {
  }

  /** One more column: the flags and the score of cols[..i + 1] extend those of cols[..i]. */
  lemma PhaseStep(row: Row, columns: set<string>, cols: seq<string>, key: map<string, string>, i: int)
    requires HasColumns(row, columns) && Keyed(cols, key) && 0 <= i < |cols|
    ensures Keyed(cols[..i], key) && Keyed(cols[..i + 1], key)
    ensures var c := cols[i];
      && PhaseFlags(row, columns, cols[..i + 1], key)
         == (if Answered(row, columns, c) then PhaseFlags(row, columns, cols[..i], key)[c := Num(Flag(Trim(row[c]), key[c]))]
             else PhaseFlags(row, columns, cols[..i], key))
      && PhaseScore(row, columns, cols[..i + 1], key)
         == PhaseScore(row, columns, cols[..i], key) + (if Answered(row, columns, c) then Flag(Trim(row[c]), key[c]) else 0)
  {
    assert cols[..i + 1][..i] == cols[..i];
  }

  /** One more pair: the fields copied by pairs[..k + 1] extend those of pairs[..k]. */
  lemma CopyStep(row: Row, columns: set<string>, pairs: seq<(string, string)>, k: int)
    requires HasColumns(row, columns) && DistinctTargets(pairs) && 0 <= k < |pairs|
    ensures DistinctTargets(pairs[..k]) && DistinctTargets(pairs[..k + 1])
    ensures CopiedFields(row, columns, pairs[..k + 1])
         == if pairs[k].0 in columns then CopiedFields(row, columns, pairs[..k])[pairs[k].1 := Text(row[pairs[k].0])]
            else CopiedFields(row, columns, pairs[..k])
  {
    assert pairs[..k + 1][..k] == pairs[..k];
  }

  /** Copies the background columns present in the table into rec. */
  method CopyBackground(row: Row, columns: set<string>, pairs: seq<(string, string)>, rec0: Record)
    returns (rec: Record)
    requires HasColumns(row, columns) && DistinctTargets(pairs)
    ensures rec == rec0 + CopiedFields(row, columns, pairs)
  {
    rec := rec0;
    for k := 0 to |pairs|
      invariant rec == rec0 + CopiedFields(row, columns, pairs[..k])
    {
      var (source, field) := pairs[k];
      CopyStep(row, columns, pairs, k);
      if source in columns {
        UnionUpdate(rec0, CopiedFields(row, columns, pairs[..k]), field, Text(row[source]));
        rec := rec[field := Text(row[source])];
      }
    }
    assert pairs[..|pairs|] == pairs;
  }

  /** Scores one phase: writes a flag into rec for every answered column and
      adds it to the running score. */
  method ScorePhase(row: Row, columns: set<string>, cols: seq<string>, key: map<string, string>, rec0: Record)
    returns (rec: Record, score: int)
    requires HasColumns(row, columns) && Keyed(cols, key)
    ensures rec == rec0 + PhaseFlags(row, columns, cols, key)
    ensures score == PhaseScore(row, columns, cols, key)
  {
    rec, score := rec0, 0;
    var i := 0;
    while i < |cols|
      invariant 0 <= i <= |cols|
      invariant rec == rec0 + PhaseFlags(row, columns, cols[..i], key)
      invariant score == PhaseScore(row, columns, cols[..i], key)
    {
      var c := cols[i];
      PhaseStep(row, columns, cols, key, i);
      if c in columns {
        var answer := Trim(row[c]);
        if !IsBlank(answer) {
          UnionUpdate(rec0, PhaseFlags(row, columns, cols[..i], key), c, Num(Flag(answer, key[c])));
          rec := rec[c := Num(Flag(answer, key[c]))];
          score := score + rec[c].n;
        }
      }
      i := i + 1;
    }
    assert cols[..|cols|] == cols;
  }

  /** Codes one participant row. */
  method CodeRow(idx: int, row: Row, columns: set<string>, cfg: GroupConfig) returns (rec: Record)
    requires HasColumns(row, columns)
    requires Keyed(cfg.preCols, cfg.answerKey) && Keyed(cfg.postCols, cfg.answerKey)
    ensures rec == CodedRecord(idx, row, columns, cfg)
  {
    PhaseFlagsAreNums(row, columns, cfg.postCols, cfg.answerKey);
    rec := map["id" := Num(idx), "group" := Text(cfg.group)];
    rec := CopyBackground(row, columns, BackgroundCols, rec);
    var preScore, postScore;
    rec, preScore := ScorePhase(row, columns, cfg.preCols, cfg.answerKey, rec);
    rec := rec["pre_score" := Num(preScore)];
    rec, postScore := ScorePhase(row, columns, cfg.postCols, cfg.answerKey, rec);
    rec := rec["post_score" := Num(postScore)];
    rec := rec["gain" := Num(rec["post_score"].n - rec["pre_score"].n)];
  }

  /** Codes every row of the table, one record per row in row order, the id
      of each record being its row's position. */
  method CodeTable(table: Table, cfg: GroupConfig) returns (records: seq<Record>)
    requires WellFormed(table)
    requires Keyed(cfg.preCols, cfg.answerKey) && Keyed(cfg.postCols, cfg.answerKey)
    ensures |records| == |table.rows|
    ensures forall i :: 0 <= i < |records| ==> records[i] == CodedRecord(i, table.rows[i], table.columns, cfg)
  {
    records := [];
    for idx := 0 to |table.rows|
      invariant |records| == idx
      invariant forall i :: 0 <= i < idx ==> records[i] == CodedRecord(i, table.rows[i], table.columns, cfg)
    {
      var rec := CodeRow(idx, table.rows[idx], table.columns, cfg);
      records := records + [rec];
    }
  }

  // Properties of scoring

  /** Reading the flags of cols back from any record that holds exactly the
      phase's flags for them, their sum is the phase's score. */
  lemma {:induction false} ScoreIsSumOfFlags(row: Row, columns: set<string>, cols: seq<string>, key: map<string, string>, rec: Record)
    requires HasColumns(row, columns) && Keyed(cols, key)
    requires forall c :: c in cols && Answered(row, columns, c) ==> c in rec && rec[c] == Num(Flag(Trim(row[c]), key[c]))
    requires forall c :: c in cols && !Answered(row, columns, c) ==> c !in rec
    ensures PhaseScore(row, columns, cols, key) == SumFlags(rec, cols)
    decreases |cols|
  {
    if cols != [] {
      var prefix := cols[..|cols| - 1];
      assert forall c :: c in prefix ==> c in cols;
      ScoreIsSumOfFlags(row, columns, prefix, key, rec);
    }
  }

  /** A phase scores full marks exactly when every one of its columns is in the
      table, answered, and answered with the key's text. */
  lemma {:induction false} FullMarks(row: Row, columns: set<string>, cols: seq<string>, key: map<string, string>)
    requires HasColumns(row, columns) && Keyed(cols, key)
    ensures PhaseScore(row, columns, cols, key) == |cols|
        <==> forall c :: c in cols ==> Answered(row, columns, c) && Trim(row[c]) == key[c]
    decreases |cols|
  {
    if cols != [] {
      var prefix := cols[..|cols| - 1];
      var last := cols[|cols| - 1];
      assert forall c :: c in cols <==> c in prefix || c == last;
      FullMarks(row, columns, prefix, key);
    }
  }

  /** Before scoring, a record holds the row's position as id and the group label. */
  lemma HeadIdentity(idx: int, row: Row, columns: set<string>, cfg: GroupConfig)
    requires HasColumns(row, columns)
    ensures var head := RecordHead(idx, row, columns, cfg);
      "id" in head && head["id"] == Num(idx) && "group" in head && head["group"] == Text(cfg.group)
  {
    var bg := CopiedFields(row, columns, BackgroundCols);
    CopiedFieldsMeaning(row, columns, BackgroundCols);
    assert "id" !in bg && "group" !in bg;
  }

  /** Scoring does not touch a field that is neither a scored column nor a score. */
  lemma ScoringKeeps(idx: int, row: Row, columns: set<string>, cfg: GroupConfig, f: string)
    requires HasColumns(row, columns) && ValidConfig(cfg)
    requires f !in cfg.preCols && f !in cfg.postCols && f != "pre_score" && f != "post_score" && f != "gain"
    ensures var rec := CodedRecord(idx, row, columns, cfg);
      var head := RecordHead(idx, row, columns, cfg);
      (f in rec <==> f in head) && (f in rec ==> rec[f] == head[f])
  {
    PhaseFlagsMeaning(row, columns, cfg.preCols, cfg.answerKey);
    PhaseFlagsMeaning(row, columns, cfg.postCols, cfg.answerKey);
  }

  /** A coded record's id is its row's position and its group is the selected group. */
  lemma RecordIdentity(idx: int, row: Row, columns: set<string>, cfg: GroupConfig, rec: Record)
    requires HasColumns(row, columns) && ValidConfig(cfg)
    requires rec == CodedRecord(idx, row, columns, cfg)
    ensures "id" in rec && rec["id"] == Num(idx)
    ensures "group" in rec && rec["group"] == Text(cfg.group)
  {
    HeadIdentity(idx, row, columns, cfg);
    ScoringKeeps(idx, row, columns, cfg, "id");
    ScoringKeeps(idx, row, columns, cfg, "group");
  }

  /** A background field is in a coded record exactly when its source column is
      in the table, and then it holds the source cell unchanged. */
  lemma RecordBackground(idx: int, row: Row, columns: set<string>, cfg: GroupConfig, rec: Record)
    requires HasColumns(row, columns) && ValidConfig(cfg)
    requires rec == CodedRecord(idx, row, columns, cfg)
    ensures forall k :: 0 <= k < |BackgroundCols| ==>
              (BackgroundCols[k].1 in rec <==> BackgroundCols[k].0 in columns)
    ensures forall k :: 0 <= k < |BackgroundCols| && BackgroundCols[k].0 in columns ==>
              rec[BackgroundCols[k].1] == Text(row[BackgroundCols[k].0])
  {
    CopiedFieldsMeaning(row, columns, BackgroundCols);
    forall k | 0 <= k < |BackgroundCols|
      ensures BackgroundCols[k].1 in rec <==> BackgroundCols[k].0 in columns
      ensures BackgroundCols[k].0 in columns ==> rec[BackgroundCols[k].1] == Text(row[BackgroundCols[k].0])
    {
      var f := BackgroundCols[k].1;
      assert f in FixedFields && f != "pre_score" && f != "post_score" && f != "gain";
      ScoringKeeps(idx, row, columns, cfg, f);
    }
  }

  /** A scored column carries a flag exactly when it is in the table and
      answered, and the flag is 1 exactly when the trimmed answer equals the key. */
  lemma RecordFlags(idx: int, row: Row, columns: set<string>, cfg: GroupConfig, rec: Record)
    requires HasColumns(row, columns) && ValidConfig(cfg)
    requires rec == CodedRecord(idx, row, columns, cfg)
    ensures forall c :: c in cfg.preCols + cfg.postCols ==> (c in rec <==> Answered(row, columns, c))
    ensures forall c :: c in cfg.preCols + cfg.postCols && Answered(row, columns, c) ==>
              rec[c] == Num(Flag(Trim(row[c]), cfg.answerKey[c]))
  {
    var head := RecordHead(idx, row, columns, cfg);
    var pre := PhaseFlags(row, columns, cfg.preCols, cfg.answerKey);
    var post := PhaseFlags(row, columns, cfg.postCols, cfg.answerKey);
    HeadFields(idx, row, columns, cfg);
    PhaseFlagsMeaning(row, columns, cfg.preCols, cfg.answerKey);
    PhaseFlagsMeaning(row, columns, cfg.postCols, cfg.answerKey);
    forall c | c in cfg.preCols
      ensures c !in FixedFields && c !in head && c !in post
      ensures (c in rec <==> c in pre) && (c in pre ==> rec[c] == pre[c])
    {
    }
    forall c | c in cfg.postCols
      ensures c !in FixedFields
      ensures (c in rec <==> c in post) && (c in post ==> rec[c] == post[c])
    {
    }
  }

  /** Each score is the sum of that phase's flags as the record holds them,
      lies between 0 and the number of that phase's columns in the table, and
      gain is the post-test score minus the pre-test score. */
  lemma RecordScores(idx: int, row: Row, columns: set<string>, cfg: GroupConfig, rec: Record)
    requires HasColumns(row, columns) && ValidConfig(cfg)
    requires rec == CodedRecord(idx, row, columns, cfg)
    ensures "pre_score" in rec && rec["pre_score"] == Num(SumFlags(rec, cfg.preCols))
    ensures "post_score" in rec && rec["post_score"] == Num(SumFlags(rec, cfg.postCols))
    ensures 0 <= SumFlags(rec, cfg.preCols) <= CountPresent(columns, cfg.preCols) <= |cfg.preCols|
    ensures 0 <= SumFlags(rec, cfg.postCols) <= CountPresent(columns, cfg.postCols) <= |cfg.postCols|
    ensures "gain" in rec && rec["gain"] == Num(SumFlags(rec, cfg.postCols) - SumFlags(rec, cfg.preCols))
  {
    var post := PhaseFlags(row, columns, cfg.postCols, cfg.answerKey);
    PhaseFlagsMeaning(row, columns, cfg.postCols, cfg.answerKey);
    assert "pre_score" !in post && "post_score" !in post;
    RecordFlags(idx, row, columns, cfg, rec);
    ScoreIsSumOfFlags(row, columns, cfg.preCols, cfg.answerKey, rec);
    ScoreIsSumOfFlags(row, columns, cfg.postCols, cfg.answerKey, rec);
  }
}
