/**
 * `PipelineGenerator`: CI/CD pipelines (GitHub Actions, GitLab CI, Jenkins),
 * including the heuristic that lists the stage names found in the generated text.
 */
module Pipeline {
  import opened Wrappers
  import opened PyStr
  import opened Prompts
  import opened Schemas

  /** The template table; the prose is abbreviated, the placeholders are the source's. */
  const Templates: map<string, Prompts.Template> := map[
    "github" := [
      Text("Generate GitHub Actions workflow for:\nRequirements: "), Field("requirements"),
      Text("\nInfrastructure: "), Field("iac_description"),
      Text("\nConfiguration: "), Field("config_description"),
      Text("\nInclude: CI/CD stages, testing, security scanning, infrastructure and application deployment\n")],
    "gitlab" := [
      Text("Generate GitLab CI pipeline for:\nRequirements: "), Field("requirements"),
      Text("\nInfrastructure: "), Field("iac_description"),
      Text("\nConfiguration: "), Field("config_description"),
      Text("\nInclude: CI/CD stages, testing, security scanning, infrastructure and application deployment\n")],
    "jenkins" := [
      Text("Generate Jenkinsfile for:\nRequirements: "), Field("requirements"),
      Text("\nInfrastructure: "), Field("iac_description"),
      Text("\nConfiguration: "), Field("config_description"),
      Text("\nInclude: pipeline stages, testing, security scanning, infrastructure and application deployment\n")]]

  const ErrorPrefix := "Error generating pipeline: "
  const SuccessMessage := "Successfully generated pipeline"

  /** The three platforms the table holds. */
  lemma TemplateKeys()
    ensures Templates.Keys == {"github", "gitlab", "jenkins"}
  {
  }

  /** What `str(e)` gives for the `IndexError` of indexing a one-element list at 1. */
  const IndexErrorMessage := "list index out of range"

  function Platform(kwargs: map<string, string>): string {
    Get(kwargs, "platform", "github")
  }

  function UnsupportedMessage(platform: string): string {
    "Pipeline platform " + platform + " not supported"
  }

  function PromptArgs(prompt: string, iacTemplate: Option<CodeTemplate>, configTemplate: Option<CodeTemplate>)
    : map<string, string>
  {
    map["requirements" := prompt, "iac_description" := DescriptionOr(iacTemplate),
        "config_description" := DescriptionOr(configTemplate)]
  }

  /** Every placeholder of every template is supplied, and the description fills the second segment. */
  lemma TemplateShape(platform: string)
    requires platform in Templates
    ensures Fields(Templates[platform]) <= {"requirements", "iac_description", "config_description"}
    ensures Templates[platform][1] == Field("requirements")
    ensures Templates[platform][3] == Field("iac_description")
    ensures Templates[platform][5] == Field("config_description")
  {
    FieldsWithin(Templates[platform], {"requirements", "iac_description", "config_description"});
  }

  /** The prompt sent to the language model. */
  function PromptFor(prompt: string, iacTemplate: Option<CodeTemplate>, configTemplate: Option<CodeTemplate>,
                     kwargs: map<string, string>): string
    requires Platform(kwargs) in Templates
  {
    TemplateShape(Platform(kwargs));
    Format(Templates[Platform(kwargs)], PromptArgs(prompt, iacTemplate, configTemplate))
  }

  /** `_get_language`: "groovy" for Jenkins, "yaml" for every other platform. */
  function Language(platform: string): (tag: string)
    ensures tag == "groovy" <==> platform == "jenkins"
    ensures tag != "groovy" ==> tag == "yaml"
  {
    var languageMap := map["github" := "yaml", "gitlab" := "yaml", "jenkins" := "groovy"];
    if platform in languageMap then languageMap[platform] else "yaml"
  }

  // ---- stage extraction ----

  /** What one line of generated text contributes to the stage list. */
  datatype LineOutcome = NoStage | Stage(name: string) | Raises

  /**
   * One iteration of `_extract_stages`. The patterns are searched for in the
   * lower-cased line, but the line itself is split: when the pattern occurs only
   * with other capitalisation, `split(...)[1]` raises `IndexError`.
   */
  function LineStage(line: string): LineOutcome
  {
    if Contains(Lower(line), "stage:") then
      var parts := Split(line, "stage:");
      if |parts| < 2 then Raises else Stage(ColonName(parts[1]))
    else if Contains(Lower(line), "stage(") then
      var parts := Split(line, "stage(");
      if |parts| < 2 then Raises else Stage(ParenName(parts[1]))
    else
      NoStage
  }

  /** `segment.strip().strip('"\'')`: the name after "stage:". */
  function ColonName(segment: string): string {
    StripChars(Strip(segment), Quotes)
  }

  /** `segment.split(")")[0].strip('"\'')`: the name after "stage(". */
  function ParenName(segment: string): string {
    StripChars(Split(segment, ")")[0], Quotes)
  }

  /**
   * The loop's accumulation over the outcomes of the lines, in line order: one
   * stage per `Stage` outcome, nothing for `NoStage`, and the `IndexError`
   * message as soon as a line raises.
   */
  function Collect(outcomes: seq<LineOutcome>): (r: Result<seq<string>, string>)
    ensures r.Ok? ==> |r.value| <= |outcomes|
    ensures r.Err? ==> r.error == IndexErrorMessage
    decreases |outcomes|
  {
    if outcomes == [] then Ok([])
    else
      match Collect(outcomes[..|outcomes| - 1])
      case Err(e) => Err(e)
      case Ok(prev) =>
        match outcomes[|outcomes| - 1]
        case Raises => Err(IndexErrorMessage)
        case NoStage => Ok(prev)
        case Stage(name) => Ok(prev + [name])
  }

  /** `f` applied to every element, in order. */
  function MapSeq<T, U>(f: T -> U, xs: seq<T>): (ys: seq<U>)
    ensures |ys| == |xs| && forall i :: 0 <= i < |xs| ==> ys[i] == f(xs[i])
  {
    seq(|xs|, i requires 0 <= i < |xs| => f(xs[i]))
  }

  lemma MapSeqAppend<T, U>(f: T -> U, a: seq<T>, b: seq<T>)
    ensures MapSeq(f, a + b) == MapSeq(f, a) + MapSeq(f, b)
  {
  }

  /** The outcome of each line. */
  function Outcomes(lines: seq<string>): (o: seq<LineOutcome>)
    ensures |o| == |lines| && forall i :: 0 <= i < |lines| ==> o[i] == LineStage(lines[i])
  {
    MapSeq(LineStage, lines)
  }

  /** The stages of a sequence of lines. */
  function Stages(lines: seq<string>): Result<seq<string>, string>
  {
    Collect(Outcomes(lines))
  }

  /** `_extract_stages(pipeline_code)` as a value: the stages of its "\n"-separated lines. */
  function StagesOf(pipelineCode: string): Result<seq<string>, string>
  {
    Stages(Split(pipelineCode, "\n"))
  }

  /** `_extract_stages`: the loop over the lines, appending to a local list. */
  method ExtractStages(pipelineCode: string) returns (r: Result<seq<string>, string>)
    ensures r == StagesOf(pipelineCode)
    ensures r.Ok? ==> |r.value| <= |Split(pipelineCode, "\n")|
  {
    var stages: seq<string> := [];
    var lines := Split(pipelineCode, "\n");
    ghost var outcomes := Outcomes(lines);
    for k := 0 to |lines|
      invariant Collect(outcomes[..k]) == Ok(stages)
    {
      var line := lines[k];
      if Contains(Lower(line), "stage:") {
        var parts := Split(line, "stage:");
        if |parts| < 2 {
          assert outcomes[k] == Raises;
          CollectRaisesAt(outcomes, k);
          return Err(IndexErrorMessage);
        }
        var stage := StripChars(Strip(parts[1]), Quotes);
        assert outcomes[k] == Stage(stage);
        CollectStep(outcomes, k);
        stages := stages + [stage];
      } else if Contains(Lower(line), "stage(") {
        var parts := Split(line, "stage(");
        if |parts| < 2 {
          assert outcomes[k] == Raises;
          CollectRaisesAt(outcomes, k);
          return Err(IndexErrorMessage);
        }
        var stage := StripChars(Split(parts[1], ")")[0], Quotes);
        assert outcomes[k] == Stage(stage);
        CollectStep(outcomes, k);
        stages := stages + [stage];
      } else {
        assert outcomes[k] == NoStage;
        CollectStep(outcomes, k);
      }
    }
    assert outcomes[..|lines|] == outcomes;
    return Ok(stages);
  }

  /** `PipelineGenerator.generate(prompt, iac_template, config_template, **kwargs)`. */
  function Generate(prompt: string, iacTemplate: Option<CodeTemplate>, configTemplate: Option<CodeTemplate>,
                    kwargs: map<string, string>, llm: string -> Result<string, string>): (r: GeneratorResponse)
    ensures WellShaped(r)
    ensures Platform(kwargs) !in Templates ==>
      r == NewResponse(false, UnsupportedMessage(Platform(kwargs)))
    ensures Platform(kwargs) in Templates ==>
      var answer := llm(PromptFor(prompt, iacTemplate, configTemplate, kwargs));
      (r.success <==> answer.Ok? && StagesOf(answer.value).Ok?)
      && (r.success ==> r.message == SuccessMessage)
      && (r.success ==>
            r.templates[0] == PipelineTemplate(answer.value, Language(Platform(kwargs)),
                                               "Generated " + Platform(kwargs) + " pipeline", "pipeline",
                                               Platform(kwargs), StagesOf(answer.value).value))
      && (answer.Err? ==> r.message == ErrorPrefix + answer.error)
      && (answer.Ok? && !r.success ==> r.message == ErrorPrefix + IndexErrorMessage)
  {
    var platform := Platform(kwargs);
    if platform !in Templates then
      NewResponse(false, UnsupportedMessage(platform))
    else
      match llm(PromptFor(prompt, iacTemplate, configTemplate, kwargs))
      case Err(e) => NewResponse(false, ErrorPrefix + e)
      case Ok(code) =>
        match StagesOf(code)
        case Err(e) => NewResponse(false, ErrorPrefix + e)
        case Ok(stages) =>
          Succeeded(SuccessMessage,
                    PipelineTemplate(code, Language(platform), "Generated " + platform + " pipeline",
                                     "pipeline", platform, stages))
  }

  // ---- properties of stage extraction ----

  /** The accumulation is compositional: two blocks of outcomes give the stages of each, in order. */
  lemma {:induction false} CollectAppend(a: seq<LineOutcome>, b: seq<LineOutcome>)
    ensures Collect(a + b) == if Collect(a).Ok? && Collect(b).Ok? then Ok(Collect(a).value + Collect(b).value)
                              else Err(IndexErrorMessage)
    decreases |b|
  {
    if b == [] {
      assert a + b == a;
      assert Collect(a).Ok? ==> Collect(a).value + [] == Collect(a).value;
    } else {
      var b' := b[..|b| - 1];
      var last := b[|b| - 1];
      CollectAppend(a, b');
      assert (a + b)[..|a + b| - 1] == a + b';
      assert (a + b)[|a + b| - 1] == last;
      if Collect(a).Ok? && Collect(b').Ok? {
        var x, y := Collect(a).value, Collect(b').value;
        match last
        case Raises =>
        case NoStage =>
        case Stage(name) =>
          assert (x + y) + [name] == x + (y + [name]);
      }
    }
  }

  /** The accumulation fails exactly when some outcome raises. */
  lemma {:induction false} CollectFailIff(outcomes: seq<LineOutcome>)
    ensures Collect(outcomes).Err? <==> exists i :: 0 <= i < |outcomes| && outcomes[i].Raises?
    decreases |outcomes|
  {
    if outcomes != [] {
      var init := outcomes[..|outcomes| - 1];
      CollectFailIff(init);
      assert forall i :: 0 <= i < |init| ==> init[i] == outcomes[i];
    }
  }

  /** Outcomes with no stage and no error give the empty list. */
  lemma {:induction false} CollectNothing(outcomes: seq<LineOutcome>)
    requires forall i :: 0 <= i < |outcomes| ==> outcomes[i].NoStage?
    ensures Collect(outcomes) == Ok([])
    decreases |outcomes|
  {
    if outcomes != [] {
      var init := outcomes[..|outcomes| - 1];
      assert forall i :: 0 <= i < |init| ==> init[i] == outcomes[i];
      CollectNothing(init);
    }
  }

  /** Extraction works line by line: the stages of two blocks of lines are the stages of each, in order. */
  lemma StagesAppend(a: seq<string>, b: seq<string>)
    ensures Stages(a + b) == if Stages(a).Ok? && Stages(b).Ok? then Ok(Stages(a).value + Stages(b).value)
                             else Err(IndexErrorMessage)
  {
    MapSeqAppend(LineStage, a, b);
    CollectAppend(Outcomes(a), Outcomes(b));
  }

  /** A single outcome contributes at most one stage. */
  lemma CollectOne(o: LineOutcome)
    ensures o.Stage? ==> Collect([o]) == Ok([o.name])
    ensures o.NoStage? ==> Collect([o]) == Ok([])
    ensures o.Raises? ==> Collect([o]) == Err(IndexErrorMessage)
  {
    assert [o][..0] == [];
    if o.Stage? {
      assert [] + [o.name] == [o.name];
    }
  }

  /** A single line contributes its own outcome: one stage, nothing, or the error. */
  lemma StagesOneLine(line: string)
    ensures LineStage(line).Stage? ==> Stages([line]) == Ok([LineStage(line).name])
    ensures LineStage(line).NoStage? ==> Stages([line]) == Ok([])
    ensures LineStage(line).Raises? ==> Stages([line]) == Err(IndexErrorMessage)
  {
    assert Outcomes([line]) == [LineStage(line)];
    CollectOne(LineStage(line));
  }

  /** One more outcome extends the accumulation by at most one stage. */
  lemma CollectStep(outcomes: seq<LineOutcome>, k: nat)
    requires k < |outcomes| && Collect(outcomes[..k]).Ok?
    ensures outcomes[k].Stage? ==> Collect(outcomes[..k + 1]) == Ok(Collect(outcomes[..k]).value + [outcomes[k].name])
    ensures outcomes[k].NoStage? ==> Collect(outcomes[..k + 1]) == Collect(outcomes[..k])
  {
    assert outcomes[..k + 1][..k] == outcomes[..k];
  }

  /** One raising outcome fails the whole accumulation. */
  lemma CollectRaisesAt(outcomes: seq<LineOutcome>, k: nat)
    requires k < |outcomes| && outcomes[k].Raises?
    ensures Collect(outcomes) == Err(IndexErrorMessage)
  {
    CollectFailIff(outcomes);
  }

  /** Extraction fails exactly when some line raises. */
  lemma StagesFailIff(lines: seq<string>)
    ensures Stages(lines).Err? <==> exists i :: 0 <= i < |lines| && LineStage(lines[i]).Raises?
  {
    CollectFailIff(Outcomes(lines));
  }

  /** Lines that match neither pattern give no stages. */
  lemma NoMatchNoStages(lines: seq<string>)
    requires forall i :: 0 <= i < |lines| ==> LineStage(lines[i]).NoStage?
    ensures Stages(lines) == Ok([])
  {
    CollectNothing(Outcomes(lines));
  }

  /** Text in which neither marker occurs, in any capitalisation, gives no stages. */
  lemma NoMarkerNoStages(pipelineCode: string)
    requires !Contains(Lower(pipelineCode), "stage:") && !Contains(Lower(pipelineCode), "stage(")
    ensures StagesOf(pipelineCode) == Ok([])
  {
    var lines := Split(pipelineCode, "\n");
    forall i | 0 <= i < |lines| ensures LineStage(lines[i]).NoStage? {
      var line := lines[i];
      var off := SplitPieceOffset(pipelineCode, "\n", i);
      var j := off + |line|;
      assert line == pipelineCode[off..j];
      LowerSlice(pipelineCode, off, j);
      if Contains(Lower(line), "stage:") {
        ContainsSlice(Lower(pipelineCode), off, j, "stage:");
      }
      if Contains(Lower(line), "stage(") {
        ContainsSlice(Lower(pipelineCode), off, j, "stage(");
      }
      NoMarkerLine(line);
    }
    NoMatchNoStages(lines);
  }

  lemma NoMarkerLine(line: string)
    requires !Contains(Lower(line), "stage:") && !Contains(Lower(line), "stage(")
    ensures LineStage(line).NoStage?
  {
  }

  /**
   * A line raises exactly when "stage:" occurs in its lower-cased copy but not
   * in the line itself ("Stage: build"), or, when the lower-cased copy has no
   * "stage:", "stage(" occurs in it but not in the line ("STAGE('x')").
   */
  lemma LineRaisesIff(line: string)
    ensures LineStage(line).Raises? <==>
      (Contains(Lower(line), "stage:") && !Contains(line, "stage:"))
      || (!Contains(Lower(line), "stage:") && Contains(Lower(line), "stage(") && !Contains(line, "stage("))
  {
    SplitHasSecond(line, "stage:");
    SplitHasSecond(line, "stage(");
  }

  /**
   * The name after "stage:" begins and ends with no quote and lacks any
   * marker the segment lacks.
   */
  lemma ColonNameShape(segment: string, marker: string)
    requires !Contains(segment, marker)
    ensures var name := ColonName(segment);
      !Contains(name, marker)
      && (name != "" ==> name[0] !in Quotes && name[|name| - 1] !in Quotes)
  {
    StripTwiceShape(segment, Whitespace, Quotes, marker);
  }

  /**
   * The name after "stage(" begins and ends with no quote, holds no ")", and
   * lacks any marker the segment lacks.
   */
  lemma ParenNameShape(segment: string, marker: string)
    requires !Contains(segment, marker)
    ensures var name := ParenName(segment);
      !Contains(name, ")") && !Contains(name, marker)
      && (name != "" ==> name[0] !in Quotes && name[|name| - 1] !in Quotes)
  {
    var inner := Split(segment, ")")[0];
    SplitPiecesFree(segment, ")");
    var off := SplitPieceOffset(segment, ")", 0);
    if Contains(inner, marker) {
      ContainsWithin(segment, off, inner, marker);
    }
    var _ := StripCharsKeepsAbsence(inner, Quotes, marker);
    var _ := StripCharsKeepsAbsence(inner, Quotes, ")");
    var _ := StripCharsShape(inner, Quotes);
  }

  /** A line written with the lower-case marker "stage:" always yields a stage, whatever else it holds. */
  lemma ColonLineStage(line: string)
    requires Contains(line, "stage:")
    ensures LineStage(line).Stage?
    ensures var name := LineStage(line).name;
      !Contains(name, "stage:")
      && (name != "" ==> name[0] !in Quotes && name[|name| - 1] !in Quotes)
  {
    ContainsLower(line, "stage:");
    SplitHasSecond(line, "stage:");
    var segment := Split(line, "stage:")[1];
    assert LineStage(line) == Stage(ColonName(segment));
    SplitPiecesFree(line, "stage:");
    ColonNameShape(segment, "stage:");
  }

  /**
   * A line with the lower-case marker "stage(" and no "stage:" in any
   * capitalisation yields a stage that holds no ")" and no further "stage(".
   */
  lemma ParenLineStage(line: string)
    requires !Contains(Lower(line), "stage:") && Contains(line, "stage(")
    ensures LineStage(line).Stage?
    ensures var name := LineStage(line).name;
      !Contains(name, ")") && !Contains(name, "stage(")
      && (name != "" ==> name[0] !in Quotes && name[|name| - 1] !in Quotes)
  {
    ContainsLower(line, "stage(");
    SplitHasSecond(line, "stage(");
    var segment := Split(line, "stage(")[1];
    assert LineStage(line) == Stage(ParenName(segment));
    SplitPiecesFree(line, "stage(");
    ParenNameShape(segment, "stage(");
  }

  /**
   * A line such as "Stage: build" names a stage for the lower-cased test, but
   * has no "stage:" to split at: the whole extraction fails with `IndexError`.
   * This holds for every one-line `rest` without a lower-case "stage:".
   */
  lemma CapitalisedMarkerFails(rest: string)
    requires !Contains(rest, "stage:") && '\n' !in rest
    ensures LineStage("Stage:" + rest) == Raises
    ensures StagesOf("Stage:" + rest) == Err(IndexErrorMessage)
  {
    var line := "Stage:" + rest;
    CapitalisedLine(rest);
    CapitalisedNoMarker(rest);
    SplitNone(line, "stage:");
    MissingCharNotContains(line, "\n", 0);
    SplitNone(line, "\n");
    StagesOneLine(line);
  }

  /** No "stage:" can begin inside the prefix "Stage:", so one after it lies wholly in `rest`. */
  lemma CapitalisedNoMarker(rest: string)
    requires !Contains(rest, "stage:")
    ensures !Contains("Stage:" + rest, "stage:")
  {
    var line := "Stage:" + rest;
    forall j: nat | j <= |line|
      ensures !OccursAt(line, "stage:", j)
    {
      if j + 6 <= |line| {
        if j < 6 {
          assert line[j..j + 6][0] == line[j] == "Stage:"[j];
        } else {
          assert line[j..j + 6] == rest[j - 6..j];
          assert !OccursAt(rest, "stage:", j - 6);
        }
      }
    }
  }

  lemma CapitalisedLine(rest: string)
    ensures Contains(Lower("Stage:" + rest), "stage:")
  {
    LowerConcat("Stage:", rest);
    assert Lower("Stage:") == "stage:";
    assert Lower("Stage:" + rest) == "" + "stage:" + Lower(rest);
    ContainsConcat("", "stage:", Lower(rest));
  }

  /** The line `stage: "<name>"`. */
  function ColonLine(name: string): string {
    "stage: \"" + name + "\""
  }

  /** The line `stage("<name>")`. */
  function ParenLine(name: string): string {
    "stage(\"" + name + "\")"
  }

  /** A name whose ends survive both strips: no whitespace and no quote at either end. */
  predicate CleanEnds(name: string) {
    name != "" ==> name[0] !in Whitespace + Quotes && name[|name| - 1] !in Whitespace + Quotes
  }

  /** Quoting a clean name and stripping the quotes gives the name back. */
  lemma UnquoteClean(name: string)
    requires CleanEnds(name)
    ensures StripChars("\"" + name + "\"", Quotes) == name
  {
    assert "\"" + name + "\"" == ['"'] + (name + ['"']);
    TrimLeftSkip('"', name + ['"'], Quotes);
    if name == "" {
      assert name + ['"'] == ['"'] + [];
      TrimLeftSkip('"', [], Quotes);
    } else {
      TrimLeftKeep(name + ['"'], Quotes);
      TrimRightSkip(name, '"', Quotes);
      TrimRightKeep(name, Quotes);
    }
  }

  /** A clean name without ':' written as `stage: "<name>"` is extracted back unchanged. */
  lemma ColonRoundTrip(name: string)
    requires CleanEnds(name) && ':' !in name
    ensures LineStage(ColonLine(name)) == Stage(name)
  {
    var rest := " \"" + name + "\"";
    ColonLineMatches(name);
    ColonLineSplit(name);
    ColonNameOfRest(name);
    assert LineStage(ColonLine(name)) == Stage(ColonName(rest));
  }

  lemma ColonLineMatches(name: string)
    ensures Contains(Lower(ColonLine(name)), "stage:")
  {
    var rest := " \"" + name + "\"";
    assert ColonLine(name) == "stage:" + rest;
    assert Lower("stage:") == "stage:";
    ContainsLowerPrefix("stage:", rest);
  }

  lemma ColonLineSplit(name: string)
    requires ':' !in name
    ensures Split(ColonLine(name), "stage:") == ["", " \"" + name + "\""]
  {
    var rest := " \"" + name + "\"";
    assert ColonLine(name) == "stage:" + rest;
    MissingCharNotContains(rest, "stage:", 5);
    SplitAtStart("stage:", rest);
  }

  lemma ColonNameOfRest(name: string)
    requires CleanEnds(name)
    ensures ColonName(" \"" + name + "\"") == name
  {
    StripOfRest(name);
    UnquoteClean(name);
  }

  /** The blank after "stage:" goes, the quotes stay. */
  lemma StripOfRest(name: string)
    ensures Strip(" \"" + name + "\"") == "\"" + name + "\""
  {
    var q := "\"" + name + "\"";
    assert " \"" + name + "\"" == [' '] + q;
    assert q[0] == q[|q| - 1] == '"';
    StripCharsPadded(' ', q, Whitespace);
  }

  /** A clean name without ':', '(' or ')' written as `stage("<name>")` is extracted back unchanged. */
  lemma ParenRoundTrip(name: string)
    requires CleanEnds(name) && ':' !in name && '(' !in name && ')' !in name
    ensures LineStage(ParenLine(name)) == Stage(name)
  {
    var rest := "\"" + name + "\")";
    ParenLineMatches(name);
    ParenLineSplit(name);
    ParenNameOfRest(name);
    assert LineStage(ParenLine(name)) == Stage(ParenName(rest));
  }

  lemma ParenLineMatches(name: string)
    requires ':' !in name
    ensures !Contains(Lower(ParenLine(name)), "stage:")
    ensures Contains(Lower(ParenLine(name)), "stage(")
  {
    var line := ParenLine(name);
    var rest := "\"" + name + "\")";
    assert line == "stage(" + rest;
    assert Lower("stage(") == "stage(";
    ContainsLowerPrefix("stage(", rest);
    MissingCharNotContains(Lower(line), "stage:", 5);
  }

  lemma ParenLineSplit(name: string)
    requires '(' !in name
    ensures Split(ParenLine(name), "stage(") == ["", "\"" + name + "\")"]
  {
    var rest := "\"" + name + "\")";
    assert ParenLine(name) == "stage(" + rest;
    MissingCharNotContains(rest, "stage(", 5);
    SplitAtStart("stage(", rest);
  }

  lemma ParenNameOfRest(name: string)
    requires CleanEnds(name) && ')' !in name
    ensures ParenName("\"" + name + "\")") == name
  {
    var q := "\"" + name + "\"";
    assert "\"" + name + "\")" == q + ")" + "";
    SplitAfter(q, ")", "");
    SplitNone("", ")");
    UnquoteClean(name);
  }

  /** The two notations on consecutive lines give both names, in order. */
  lemma TwoNotations(first: string, second: string)
    requires CleanEnds(first) && ':' !in first && '\n' !in first
    requires CleanEnds(second) && ':' !in second && '(' !in second && ')' !in second && '\n' !in second
    ensures StagesOf(ColonLine(first) + "\n" + ParenLine(second)) == Ok([first, second])
  {
    TwoNotationsLines(first, second);
    ColonRoundTrip(first);
    ParenRoundTrip(second);
    TwoLines(ColonLine(first), ParenLine(second), first, second);
  }

  lemma TwoNotationsLines(first: string, second: string)
    requires '\n' !in first && '\n' !in second
    ensures Split(ColonLine(first) + "\n" + ParenLine(second), "\n") == [ColonLine(first), ParenLine(second)]
  {
    var a := ColonLine(first);
    var b := ParenLine(second);
    assert a[0] == 's';
    SplitAfter(a, "\n", b);
    MissingCharNotContains(b, "\n", 0);
    SplitNone(b, "\n");
  }

  lemma CollectTwo(x: string, y: string)
    ensures Collect([Stage(x), Stage(y)]) == Ok([x, y])
  {
    assert [Stage(x), Stage(y)][..1] == [Stage(x)];
    CollectOne(Stage(x));
    assert [x] + [y] == [x, y];
  }

  lemma CollectMapTwo(f: string -> LineOutcome, a: string, b: string, x: string, y: string)
    requires f(a) == Stage(x) && f(b) == Stage(y)
    ensures Collect(MapSeq(f, [a, b])) == Ok([x, y])
  {
    assert MapSeq(f, [a, b]) == [Stage(x), Stage(y)];
    CollectTwo(x, y);
  }

  lemma TwoLines(a: string, b: string, x: string, y: string)
    requires LineStage(a) == Stage(x) && LineStage(b) == Stage(y)
    ensures Stages([a, b]) == Ok([x, y])
  {
    CollectMapTwo(LineStage, a, b, x, y);
  }

  /** `stage: "build"` followed by `stage("deploy")` gives the stages build and deploy. */
  lemma BuildDeployExample()
    ensures StagesOf(ColonLine("build") + "\n" + ParenLine("deploy")) == Ok(["build", "deploy"])
  {
    LowerWord("build");
    LowerWord("deploy");
    TwoNotations("build", "deploy");
  }

  /** A word of lower-case letters is a clean name with none of the marker characters. */
  lemma LowerWord(w: string)
    requires forall k :: 0 <= k < |w| ==> 'a' <= w[k] <= 'z'
    ensures CleanEnds(w) && ':' !in w && '(' !in w && ')' !in w && '\n' !in w
  {
  }

  /** The description reaches the language model: the prompt contains it verbatim. */
  lemma PromptContainsDescription(prompt: string, iacTemplate: Option<CodeTemplate>,
                                  configTemplate: Option<CodeTemplate>, kwargs: map<string, string>)
    requires Platform(kwargs) in Templates
    ensures Contains(PromptFor(prompt, iacTemplate, configTemplate, kwargs), prompt)
  {
    var t := Templates[Platform(kwargs)];
    TemplateShape(Platform(kwargs));
    assert t[1] in t;
    FormatContains(t, PromptArgs(prompt, iacTemplate, configTemplate), "requirements");
  }

  /** The prompt also carries the descriptions of the earlier infrastructure and configuration templates. */
  lemma PromptCarriesEarlierTemplates(prompt: string, iacTemplate: CodeTemplate, configTemplate: CodeTemplate,
                                      kwargs: map<string, string>)
    requires Platform(kwargs) in Templates
    ensures Contains(PromptFor(prompt, Some(iacTemplate), Some(configTemplate), kwargs), iacTemplate.description)
    ensures Contains(PromptFor(prompt, Some(iacTemplate), Some(configTemplate), kwargs), configTemplate.description)
  {
    var t := Templates[Platform(kwargs)];
    var args := PromptArgs(prompt, Some(iacTemplate), Some(configTemplate));
    TemplateShape(Platform(kwargs));
    assert t[3] in t && t[5] in t;
    FormatContains(t, args, "iac_description");
    FormatContains(t, args, "config_description");
  }

  /** The description the default platform gives, spelled out. */
  lemma DefaultDescription()
    ensures "Generated " + "github" + " pipeline" == "Generated github pipeline"
  {
    var head := "Generated " + "github";
    assert head == "Generated github";
  }

  /** With every default applied, a working model yields one GitHub Actions workflow with the extracted stages. */
  lemma DefaultsSucceed(prompt: string, iacTemplate: Option<CodeTemplate>, configTemplate: Option<CodeTemplate>,
                        llm: string -> Result<string, string>, code: string, stages: seq<string>)
    requires llm(PromptFor(prompt, iacTemplate, configTemplate, map[])) == Ok(code)
    requires StagesOf(code) == Ok(stages)
    ensures var r := Generate(prompt, iacTemplate, configTemplate, map[], llm);
      r.success && r.message == "Successfully generated pipeline"
      && r.templates == [PipelineTemplate(code, "yaml", "Generated github pipeline", "pipeline", "github", stages)]
  {
    assert Platform(map[]) == "github";
    TemplateKeys();
    assert Language("github") == "yaml";
    DefaultDescription();
    var r := Generate(prompt, iacTemplate, configTemplate, map[], llm);
    assert r.success;
    assert r.templates == [r.templates[0]];
  }

  /** An unknown platform is refused and the message names it. */
  lemma UnsupportedNamesPlatform(prompt: string, iacTemplate: Option<CodeTemplate>,
                                 configTemplate: Option<CodeTemplate>, kwargs: map<string, string>,
                                 llm: string -> Result<string, string>)
    requires Platform(kwargs) !in Templates
    ensures var r := Generate(prompt, iacTemplate, configTemplate, kwargs, llm);
      !r.success && r.templates == [] && Contains(r.message, Platform(kwargs))
  {
    ContainsConcat("Pipeline platform ", Platform(kwargs), " not supported");
  }

  /** Generated text that is one line with a capitalised marker ("Stage: build") makes the whole generation fail. */
  lemma CapitalisedMarkerResponse(prompt: string, iacTemplate: Option<CodeTemplate>,
                                  configTemplate: Option<CodeTemplate>, kwargs: map<string, string>,
                                  llm: string -> Result<string, string>, rest: string)
    requires Platform(kwargs) in Templates && !Contains(rest, "stage:") && '\n' !in rest
    requires llm(PromptFor(prompt, iacTemplate, configTemplate, kwargs)) == Ok("Stage:" + rest)
    ensures Generate(prompt, iacTemplate, configTemplate, kwargs, llm)
         == NewResponse(false, ErrorPrefix + IndexErrorMessage)
  {
    CapitalisedMarkerFails(rest);
  }

  /** Generated text in the two lower-case notations succeeds and lists the stages in order. */
  lemma BuildDeployResponse(prompt: string, iacTemplate: Option<CodeTemplate>,
                            configTemplate: Option<CodeTemplate>, kwargs: map<string, string>,
                            llm: string -> Result<string, string>)
    requires Platform(kwargs) in Templates
    requires llm(PromptFor(prompt, iacTemplate, configTemplate, kwargs))
          == Ok(ColonLine("build") + "\n" + ParenLine("deploy"))
    ensures var r := Generate(prompt, iacTemplate, configTemplate, kwargs, llm);
      r.success && r.templates[0].stages == ["build", "deploy"]
  {
    BuildDeployExample();
  }
}
