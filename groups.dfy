/** The two hard-coded study groups and the choice between them. */
module Groups {
  import opened Strings

  /** A group's label, its pre-test and post-test question columns, and the
      expected answer text for each question. */
  datatype GroupConfig = GroupConfig(
    group: string,
    preCols: seq<string>,
    postCols: seq<string>,
    answerKey: map<string, string>)

  /** Background survey columns and the record fields they are copied to, in order. */
  const BackgroundCols: seq<(string, string)> :=
    [("Q1", "cs_background"), ("Q2", "nn_course"), ("Q3_1", "derivative_familiarity")]

  /** The record fields that are not per-question flags. */
  const FixedFields: set<string> :=
    {"id", "group", "pre_score", "post_score", "gain", "cs_background", "nn_course", "derivative_familiarity"}

  /** The VR group's pre-test question columns, in scoring order. */
  const VrPre: seq<string> :=
    ["Q16", "Q17", "Q18", "Q19", "Q20", "Q21", "Q22", "Q23", "Q24", "Q25", "Q26", "Q27"]

  /** The VR group's post-test question columns, in scoring order. */
  const VrPost: seq<string> :=
    ["Q87", "Q88", "Q89", "Q90", "Q91", "Q92", "Q93", "Q94", "Q95", "Q96", "Q97", "Q98"]

  /** The VR group's expected answer text per question column. */
  const VrKey: map<string, string> :=
    map[
      "Q16" := "One entire pass over all training samples",
      "Q17" := "6 4 3 1 5 2",
      "Q18" := "A function measuring prediction error",
      "Q19" := "Inputs are weighted and summed through the network",
      "Q20" := "Inputs are weighted and summed through the network",
      "Q21" := "Combining the outputs of previous neurons to generate the result of the network.",
      "Q22" := "Determine the influence strength of an input on the neuron's output",
      "Q23" := "Computes how errors change with respect to weights and biases",
      "Q24" := "It provides feedback on how far predictions are from actual targets",
      "Q25" := "2,3",
      "Q26" := "To enable the activation function to shift left or right",
      "Q27" := "Bias is learned during training like weights",
      "Q87" := "One entire pass over all training samples",
      "Q88" := "6 4 3 1 5 2",
      "Q89" := "A function measuring prediction error",
      "Q90" := "Inputs are weighted and summed through the network",
      "Q91" := "Inputs are weighted and summed through the network",
      "Q92" := "Combining the outputs of previous neurons to generate the result of the network.",
      "Q93" := "Determine the influence strength of an input on the neuron's output",
      "Q94" := "Computes how errors change with respect to weights and biases",
      "Q95" := "It provides feedback on how far predictions are from actual targets",
      "Q96" := "2,3",
      "Q97" := "To enable the activation function to shift left or right",
      "Q98" := "Bias is learned during training like weights"
    ]

  /** The configuration used when the file name contains "VR". */
  const VrConfig: GroupConfig := GroupConfig("VR", VrPre, VrPost, VrKey)

  /** The Video group's pre-test question columns, in scoring order. */
  const VideoPre: seq<string> :=
    ["Q48", "Q49", "Q50", "Q51", "Q52", "Q53", "Q54", "Q55", "Q56", "Q57", "Q52.1", "Q55.1"]

  /** The Video group's post-test question columns, in scoring order. */
  const VideoPost: seq<string> :=
    ["Q71", "Q72", "Q73", "Q74", "Q75", "Q76", "Q77", "Q78", "Q79", "Q80", "Q81", "Q84"]

  /** The Video group's expected answer text per question column. */
  const VideoKey: map<string, string> :=
    map[
      "Q48" := "One entire pass over all training samples",
      "Q49" := "6 4 3 1 5 2",
      "Q50" := "A function measuring prediction error",
      "Q51" := "Inputs are weighted and summed through the network",
      "Q52" := "Inputs are weighted and summed through the network",
      "Q53" := "Combining the outputs of previous neurons to generate the result of the network.",
      "Q54" := "Determine the influence strength of an input on the neuron's output",
      "Q55" := "Computes how errors change with respect to weights and biases",
      "Q56" := "It provides feedback on how far predictions are from actual targets",
      "Q57" := "2,3",
      "Q52.1" := "To enable the activation function to shift left or right",
      "Q55.1" := "Bias is learned during training like weights",
      "Q71" := "One entire pass over all training samples",
      "Q72" := "6 4 3 1 5 2",
      "Q73" := "A function measuring prediction error",
      "Q74" := "Inputs are weighted and summed through the network",
      "Q75" := "Inputs are weighted and summed through the network",
      "Q76" := "Combining the outputs of previous neurons to generate the result of the network.",
      "Q77" := "Determine the influence strength of an input on the neuron's output",
      "Q78" := "Computes how errors change with respect to weights and biases",
      "Q79" := "It provides feedback on how far predictions are from actual targets",
      "Q80" := "2,3",
      "Q81" := "To enable the activation function to shift left or right",
      "Q84" := "Bias is learned during training like weights"
    ]

  /** The configuration used for every other file name. */
  const VideoConfig: GroupConfig := GroupConfig("Video", VideoPre, VideoPost, VideoKey)

  /** Every column of cols has an entry in key, so looking its answer up never fails. */
  predicate Keyed(cols: seq<string>, key: map<string, string>) {
    forall c :: c in cols ==> c in key
  }

  /** What scoring needs of a configuration: every scored column has a key
      entry, no column is both a pre-test and a post-test column, and no
      scored column is named like a fixed record field, so no write to a
      record overwrites another. */
  predicate ValidConfig(cfg: GroupConfig) {
    && Keyed(cfg.preCols, cfg.answerKey)
    && Keyed(cfg.postCols, cfg.answerKey)
    && (forall c :: c in cfg.preCols ==> c !in cfg.postCols)
    && (forall c :: c in cfg.preCols ==> c !in FixedFields)
    && (forall c :: c in cfg.postCols ==> c !in FixedFields)
  }

  /** Every VR question, pre-test or post-test, has an answer key entry. */
  lemma VrKeyed()
    ensures Keyed(VrPre, VrKey) && Keyed(VrPost, VrKey)
  {
  }

  /** No VR question is both a pre-test and a post-test question, and none is
      named like a fixed record field. */
  lemma VrSeparated()
    ensures forall c :: c in VrPre ==> c !in VrPost
    ensures forall c :: c in VrPre + VrPost ==> c !in FixedFields
  {
  }

  /** Every Video question, pre-test or post-test, has an answer key entry. */
  lemma VideoKeyed()
    ensures Keyed(VideoPre, VideoKey) && Keyed(VideoPost, VideoKey)
  {
  }

  /** No Video question is both a pre-test and a post-test question, and none
      is named like a fixed record field. */
  lemma VideoSeparated()
    ensures forall c :: c in VideoPre ==> c !in VideoPost
    ensures forall c :: c in VideoPre + VideoPost ==> c !in FixedFields
  {
  }

  /** Both hard-coded configurations are valid and score twelve questions per phase. */
  lemma ConfigsValid()
    ensures ValidConfig(VrConfig) && |VrConfig.preCols| == 12 && |VrConfig.postCols| == 12
    ensures ValidConfig(VideoConfig) && |VideoConfig.preCols| == 12 && |VideoConfig.postCols| == 12
  {
    VrKeyed();
    VrSeparated();
    VideoKeyed();
    VideoSeparated();
  }

  /** The group is VR exactly when "VR" occurs in the file name, and Video otherwise. */
  function SelectGroup(fileName: string): (cfg: GroupConfig)
    ensures Occurs("VR", fileName) ==> cfg == VrConfig
    ensures !Occurs("VR", fileName) ==> cfg == VideoConfig
    ensures cfg.group == "VR" <==> Occurs("VR", fileName)
    ensures ValidConfig(cfg) && |cfg.preCols| == 12 && |cfg.postCols| == 12
  {
    ConfigsValid();
    if Contains(fileName, "VR") then VrConfig else VideoConfig
  }
}
