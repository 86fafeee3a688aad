/** The coder's top level: choosing the one raw survey export in the script's
    folder, picking the group from its file name, and coding every row. */
module Coder {
  import opened Strings
  import opened Paths
  import opened Groups
  import opened Scoring

  /** Why no input could be chosen: no raw export at all, or more than one. */
  datatype InputError = NoInputFound | AmbiguousInput

  datatype Result<T> = Success(value: T) | Failure(error: InputError)

  /** Base names starting with this are the coder's own outputs. */
  const CodedPrefix: string := "coded_"

  /** The name of the file the coded records are saved to. */
  const OutputName: string := "coded_results.csv"

  /** A path whose base name marks it as an earlier coded output. */
  predicate IsCodedOutput(path: string) {
    StartsWith(Basename(path), CodedPrefix)
  }

  /** The listed paths that are not coded outputs, in listing order. */
  function Candidates(paths: seq<string>): (r: seq<string>)
    ensures forall p :: p in r <==> p in paths && !IsCodedOutput(p)
    ensures |r| <= |paths|
  {
    if paths == [] then []
    else (if IsCodedOutput(paths[0]) then [] else [paths[0]]) + Candidates(paths[1..])
  }

  /** The input chosen among the listed paths: the single path that is not a
      coded output. No such path, or more than one, is an error. */
  function SelectInput(paths: seq<string>): (r: Result<string>)
    ensures r == Failure(NoInputFound) <==> forall p :: p in paths ==> IsCodedOutput(p)
    ensures r.Success? ==> r.value in paths && !IsCodedOutput(r.value)
    ensures r.Success? ==> forall p :: p in paths && !IsCodedOutput(p) ==> p == r.value
  {
    var candidates := Candidates(paths);
    if |candidates| == 0 then Failure(NoInputFound)
    else
      assert candidates[0] in candidates;
      if |candidates| > 1 then Failure(AmbiguousInput)
      else
        assert forall p :: p in candidates ==> p == candidates[0];
        Success(candidates[0])
  }

  /** Two listed positions holding paths that are not coded outputs give at
      least two candidates. */
  lemma {:induction false} TwoUncodedGiveTwoCandidates(paths: seq<string>, i: int, j: int)
    requires 0 <= i < j < |paths| && !IsCodedOutput(paths[i]) && !IsCodedOutput(paths[j])
    ensures |Candidates(paths)| >= 2
    decreases |paths|
  {
    var rest := paths[1..];
    if i == 0 {
      assert paths[j] == rest[j - 1];
      assert paths[j] in Candidates(rest);
    } else {
      assert rest[i - 1] == paths[i] && rest[j - 1] == paths[j];
      TwoUncodedGiveTwoCandidates(rest, i - 1, j - 1);
    }
  }

  /** At least two candidates come from two listed positions holding paths that
      are not coded outputs. */
  lemma {:induction false} TwoCandidatesHaveTwoSources(paths: seq<string>)
    requires |Candidates(paths)| >= 2
    ensures exists i, j :: 0 <= i < j < |paths| && !IsCodedOutput(paths[i]) && !IsCodedOutput(paths[j])
    decreases |paths|
  {
    var rest := paths[1..];
    if IsCodedOutput(paths[0]) || |Candidates(rest)| >= 2 {
      TwoCandidatesHaveTwoSources(rest);
      var i, j :| 0 <= i < j < |rest| && !IsCodedOutput(rest[i]) && !IsCodedOutput(rest[j]);
      assert paths[i + 1] == rest[i] && paths[j + 1] == rest[j];
    } else {
      var p := Candidates(rest)[0];
      assert p in Candidates(rest);
      var j :| 0 <= j < |rest| && rest[j] == p;
      assert paths[j + 1] == p;
    }
  }

  /** Input selection is ambiguous exactly when two listed positions hold paths
      that are not coded outputs. */
  lemma AmbiguousInputMeaning(paths: seq<string>)
    ensures SelectInput(paths) == Failure(AmbiguousInput)
        <==> exists i, j :: 0 <= i < j < |paths| && !IsCodedOutput(paths[i]) && !IsCodedOutput(paths[j])
  {
    if exists i, j :: 0 <= i < j < |paths| && !IsCodedOutput(paths[i]) && !IsCodedOutput(paths[j]) {
      var i, j :| 0 <= i < j < |paths| && !IsCodedOutput(paths[i]) && !IsCodedOutput(paths[j]);
      TwoUncodedGiveTwoCandidates(paths, i, j);
    }
    if |Candidates(paths)| >= 2 {
      TwoCandidatesHaveTwoSources(paths);
    }
  }

  /** The candidates of a concatenation are the candidates of its parts. */
  lemma {:induction false} CandidatesAppend(a: seq<string>, b: seq<string>)
    ensures Candidates(a + b) == Candidates(a) + Candidates(b)
    decreases |a|
  {
    if a != [] {
      assert (a + b)[1..] == a[1..] + b;
      CandidatesAppend(a[1..], b);
      var head := if IsCodedOutput(a[0]) then [] else [a[0]];
      assert Candidates(a + b) == head + Candidates(a[1..] + b);
      assert head + (Candidates(a[1..]) + Candidates(b)) == (head + Candidates(a[1..])) + Candidates(b);
    } else {
      assert a + b == b;
    }
  }

  /** How often each path occurs among the candidates: as often as it is
      listed, unless it is a coded output. */
  lemma {:induction false} CandidatesMultiset(paths: seq<string>)
    ensures forall p :: multiset(Candidates(paths))[p] == if IsCodedOutput(p) then 0 else multiset(paths)[p]
    decreases |paths|
  {
    if paths != [] {
      CandidatesMultiset(paths[1..]);
      assert paths == [paths[0]] + paths[1..];
    }
  }

  /** Two listings holding the same paths equally often have candidates that
      hold the same paths equally often. */
  lemma SameCandidates(a: seq<string>, b: seq<string>)
    requires multiset(a) == multiset(b)
    ensures multiset(Candidates(a)) == multiset(Candidates(b))
  {
    CandidatesMultiset(a);
    CandidatesMultiset(b);
  }

  /** The order in which the folder is listed does not change the input chosen. */
  lemma ListingOrderIrrelevant(a: seq<string>, b: seq<string>)
    requires multiset(a) == multiset(b)
    ensures SelectInput(a) == SelectInput(b)
  {
    var ca, cb := Candidates(a), Candidates(b);
    SameCandidates(a, b);
    assert |ca| == |multiset(ca)| && |cb| == |multiset(cb)|;
    if |ca| == 1 {
      assert ca == [ca[0]] && cb == [cb[0]];
      assert ca[0] in multiset(cb);
    }
  }

  /** The coder's own output file is never a candidate input, wherever the folder is. */
  lemma OutputIsNeverAnInput(dir: string)
    ensures IsCodedOutput(Join(dir, OutputName))
  {
    BasenameOfJoin(dir, OutputName);
  }

  /** Running the coder again after it has saved its output chooses the same
      input as the first run (or fails the same way). */
  lemma RerunSelectsSameInput(dir: string, paths: seq<string>)
    ensures SelectInput(paths + [Join(dir, OutputName)]) == SelectInput(paths)
  {
    var out := Join(dir, OutputName);
    OutputIsNeverAnInput(dir);
    CandidatesAppend(paths, [out]);
    assert [out][1..] == [];
    assert Candidates([out]) == [];
    assert Candidates(paths) + [] == Candidates(paths);
  }

  /** The folder an input sits in has no say in its group: only the file's own
      name is searched for "VR". */
  lemma DirectoryDoesNotPickGroup(dir: string, name: string)
    requires Separator !in name
    ensures SelectGroup(Basename(Join(dir, name))) == SelectGroup(name)
  {
    BasenameOfJoin(dir, name);
  }

  /** What a successful run produces: the input it read, the file it writes,
      the group it detected and the coded records in row order. */
  datatype Output = Output(inputPath: string, outputPath: string, group: string, records: seq<Record>)

  /** One run of the coder over the folder scriptDir, whose raw exports are
      listed in paths; read(p) is the table the export at p holds. */
  method RunCoder(scriptDir: string, paths: seq<string>, read: string -> Table) returns (r: Result<Output>)
    requires forall p :: p in paths && !IsCodedOutput(p) ==> WellFormed(read(p))
    ensures r.Failure? <==> SelectInput(paths).Failure?
    ensures r.Failure? ==> r.error == SelectInput(paths).error
    ensures r.Success? ==> SelectInput(paths).Success?
    ensures r.Success? ==>
      var path := SelectInput(paths).value;
      var table := read(path);
      var cfg := SelectGroup(Basename(path));
      && r.value.inputPath == path && path in paths && WellFormed(table)
      && r.value.outputPath == Join(scriptDir, OutputName)
      && r.value.group == cfg.group
      && |r.value.records| == |table.rows|
      && forall i :: 0 <= i < |table.rows| ==> r.value.records[i] == CodedRecord(i, table.rows[i], table.columns, cfg)
  {
    var selected := SelectInput(paths);
    if selected.Failure? {
      return Failure(selected.error);
    }
    var inputPath := selected.value;
    var table := read(inputPath);
    var fileName := Basename(inputPath);
    var cfg := SelectGroup(fileName);
    var records := CodeTable(table, cfg);
    var outputPath := Join(scriptDir, OutputName);
    r := Success(Output(inputPath, outputPath, cfg.group, records));
  }
}
