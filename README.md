# aiiac generators in Dafny

aiiac turns a plain-language description into infrastructure code (Terraform),
configuration files (Kubernetes, Docker, Terraform variables), CI/CD pipelines
(GitHub Actions, GitLab CI, Jenkins) and small utilities (a network scanner,
kubectl commands, MongoDB queries). Each generator picks a prompt template by a
keyword argument. It fills the template's placeholders with `str.format` and
passes the prompt to a language model. It then wraps the generated text in a
typed template record inside a `GeneratorResponse`. The pipeline generator also
scans the generated text line by line for stage names (`_extract_stages`).
A separate module validates generated code by language tag.

This project models those generators, the stage extraction, the validators and
the record types. Everything is modelled on values, because the source only
builds values: no generator keeps state between calls. The single loop in the
core, `_extract_stages`, is a `method` with a `for` loop. It is proved equal to
a function on the lines, and the properties are proved about that function.

Modules:

- `Wrappers`: `Option` and `Result`.
- `Schemas`: `CodeTemplate` and its three subclasses as the constructors of one
  datatype. The Python field `type` is named `kind` here. Also
  `GeneratorResponse`, and `WellShaped`: a response either succeeded with
  exactly one template or failed with none, and its metadata is empty.
- `PyStr`: the parts of Python's `str` the core relies on.
  - `in` is `Contains`, with `Find` as the leftmost occurrence.
  - `split(sep)` is `Split`.
  - `strip()` and `strip(chars)` are `Strip` and `StripChars`.
  - `lower()` and `upper()` on ASCII letters are `Lower` and `Upper`.
- `Prompts`: templates as literal text and named placeholders, and
  `str.format` over them (`BaseGenerator._prepare_prompt`).
- `Validators`: `validate_output` and `validate_terraform`.
- `IaC`, `Config`, `Utility`, `Pipeline`: the four generators. `Pipeline` also
  holds `_extract_stages` (`ExtractStages`, `LineStage`, `StagesOf`).

The language model is the parameter `llm: string -> Result<string, string>`.
`Ok` is the generated text. `Err` is the message of an exception the call
raised, which the generator's `except` clause turns into
`"Error generating …: " + message`.

The model and its proofs reproduce one behaviour of the stage extraction
exactly. A line is matched against its lower-cased copy, but the original line
is what gets split. So a line such as `Stage: build` passes the test
`"stage:" in line.lower()`, and then `line.split("stage:")[1]` raises
`IndexError`. The exception reaches the generator's `except` clause. The whole
generation then fails with `"Error generating pipeline: list index out of
range"` and no template. `LineRaisesIff` gives the exact condition for a line to
raise. `StagesFailIff` shows that a single such line fails every extraction.
`CapitalisedMarkerResponse` gives the response the generator returns then.

## Model

| member | source | states |
|---|---|---|
| Schemas.CodeTemplate | src/aiiac/models/schemas.py:4-24 | definition: the base record and its three subclasses as four constructors sharing `code`, `language`, `description` and `kind`; its properties are in Schemas.NewPipelineTemplate and the Generate contracts |
| Schemas.GeneratorResponse | src/aiiac/models/schemas.py:26-31 | definition; its properties are in Schemas.NewResponse, Schemas.Succeeded and Schemas.WellShaped |
| Schemas.DescriptionOr | src/aiiac/generators/config.py:71 | definition of `t.description if t else "Not provided"`, shared by the configuration and pipeline prompts; its properties are in Config.KubernetesPromptCarriesIac and Pipeline.PromptCarriesEarlierTemplates |
| Schemas.NewPipelineTemplate | src/aiiac/models/schemas.py:21-24 | a pipeline template built without stages has the empty stage list and the given base fields |
| Schemas.NewResponse | src/aiiac/models/schemas.py:26-31 | a response built without templates or metadata has neither |
| Schemas.Succeeded | src/aiiac/models/schemas.py:26-31 | the success response holds exactly the one template and no metadata |
| PyStr.Contains | src/aiiac/generators/pipeline.py:122 | definition of `in` (some index holds an occurrence); its properties are in PyStr.FindIffContains and PyStr.ContainsLower |
| PyStr.Find | src/aiiac/generators/pipeline.py:122 | the result is an occurrence of the word and no earlier index holds one; `None` means no index holds one |
| PyStr.FindIffContains | src/aiiac/generators/pipeline.py:122 | `Find` succeeds exactly when the word occurs (`in`) |
| PyStr.Split | src/aiiac/generators/pipeline.py:119 | a split always yields at least one piece |
| PyStr.SplitJoin | src/aiiac/generators/pipeline.py:119 | joining the pieces with the separator gives back the original text |
| PyStr.SplitPiecesFree | src/aiiac/generators/pipeline.py:119 | no piece of a split contains the separator |
| PyStr.SplitHasSecond | src/aiiac/generators/pipeline.py:123 | `split(sep)[1]` exists exactly when `sep` occurs in the text |
| PyStr.SplitFirst | src/aiiac/generators/pipeline.py:126 | the first piece is the text before the first separator, or all of it when there is none |
| PyStr.SplitPieceOffset | src/aiiac/generators/pipeline.py:119 | every piece of a split is a contiguous part of the original text |
| PyStr.TrimLeft | src/aiiac/generators/pipeline.py:123 | the result is the longest suffix not starting with a stripped character, and everything dropped is in the set |
| PyStr.TrimRight | src/aiiac/generators/pipeline.py:123 | the result is the longest prefix not ending with a stripped character, and everything dropped is in the set |
| PyStr.StripChars | src/aiiac/generators/pipeline.py:123 | definition of `strip(chars)` as TrimLeft then TrimRight; its properties are in PyStr.StripCharsShape and PyStr.StripCharsKeepsAbsence |
| PyStr.Strip | src/aiiac/generators/pipeline.py:123 | definition of `strip()` over the Unicode whitespace set; its properties are in PyStr.StripTwiceShape |
| PyStr.StripCharsShape | src/aiiac/generators/pipeline.py:123 | `strip(chars)` keeps a contiguous part, cuts only characters of the set, and leaves neither end in the set |
| PyStr.StripCharsKeepsAbsence | src/aiiac/generators/pipeline.py:123 | stripping never introduces a substring the input lacks |
| PyStr.StripTwiceShape | src/aiiac/generators/pipeline.py:123 | `.strip().strip('"\'')` introduces no substring and leaves no quote at either end |
| PyStr.Lower | src/aiiac/generators/pipeline.py:122 | `lower()` keeps the length and lower-cases each character |
| PyStr.LowerIdempotent | src/aiiac/utils/validators.py:26 | lower-casing twice gives the same text as lower-casing once |
| PyStr.LowerForgetsUpper | src/aiiac/utils/validators.py:26 | on ASCII text, lower-casing after upper-casing gives the same text as lower-casing alone |
| PyStr.ContainsLower | src/aiiac/generators/pipeline.py:122 | a lower-case word found in a line is found in the lower-cased line too |
| Prompts.Get | src/aiiac/generators/pipeline.py:63 | `kwargs.get(key, default)`: the supplied value, or the default when the key is absent |
| Prompts.Format | src/aiiac/generators/base.py:17-19 | definition of `template.format(**kwargs)`; its properties are in Prompts.FormatContains |
| Prompts.FormatContains | src/aiiac/generators/base.py:17-19 | the formatted prompt contains the value of every keyword a placeholder names |
| Validators.ValidateOutput | src/aiiac/utils/validators.py:4-12 | dispatch on the tag: YAML, Terraform and Python go to their checks; any other tag passes |
| Validators.ValidateTerraform | src/aiiac/utils/validators.py:23-26 | definition; its properties are in Validators.ValidateTerraformIff, Validators.ValidateTerraformIgnoresCase, Validators.ValidateTerraformMonotone and Validators.ValidateTerraformEmpty |
| Validators.ValidateTerraformIff | src/aiiac/utils/validators.py:23-26 | Terraform code passes exactly when the lower-cased code contains both "resource" and "provider" |
| Validators.ValidateTerraformIgnoresCase | src/aiiac/utils/validators.py:26 | lower-casing the code does not change the verdict |
| Validators.ValidateTerraformIgnoresUpper | src/aiiac/utils/validators.py:26 | upper-casing ASCII code does not change the verdict |
| Validators.ValidateTerraformMonotone | src/aiiac/utils/validators.py:23-26 | text added before or after valid code keeps it valid |
| Validators.ValidateTerraformEmpty | src/aiiac/utils/validators.py:23-26 | empty code fails |
| IaC.Templates | src/aiiac/generators/iac.py:8-24 | definition of `TEMPLATES`; its properties are in IaC.TemplateKeys and IaC.TemplateShape |
| IaC.TemplateKeys | src/aiiac/generators/iac.py:8-24 | the table holds exactly the type "terraform" |
| IaC.TemplateType | src/aiiac/generators/iac.py:28 | definition of `kwargs.get("template_type", "terraform")`; its properties are in IaC.DefaultsSucceed |
| IaC.Provider | src/aiiac/generators/iac.py:29 | definition of `kwargs.get("provider", "aws")`; its properties are in IaC.DefaultsSucceed |
| IaC.ResourceType | src/aiiac/generators/iac.py:44 | definition of `kwargs.get("resource_type", "general")`; its properties are in IaC.DefaultsSucceed |
| IaC.UnsupportedMessage | src/aiiac/generators/iac.py:35 | definition of the refusal message; its properties are in IaC.OtherUiTypesUnsupported |
| IaC.PromptArgs | src/aiiac/generators/iac.py:40-45 | definition of the keywords passed to `_prepare_prompt`; its properties are in IaC.TemplateShape and IaC.PromptContainsDescription |
| IaC.PromptFor | src/aiiac/generators/iac.py:40-45 | definition of the formatted prompt; its properties are in IaC.PromptContainsDescription and IaC.OnlyThePromptMatters |
| IaC.TemplateShape | src/aiiac/generators/iac.py:8-24 | every placeholder of the template is among the keywords the generator supplies, and the description fills one of them |
| IaC.Generate | src/aiiac/generators/iac.py:26-69 | a well-shaped response; an unknown type is refused with its message; for "terraform", success exactly when the model answers, with the template's fields from the answer and the defaults and the message "Successfully generated IaC"; otherwise the error message |
| IaC.PromptContainsDescription | src/aiiac/generators/iac.py:40-45 | the prompt sent to the model contains the description verbatim |
| IaC.DefaultsSucceed | src/aiiac/generators/iac.py:28-62 | with no keywords a working model yields one Terraform template for "aws", resource type "general", with the success message |
| IaC.OtherUiTypesUnsupported | src/aiiac/generators/iac.py:31-37 | "cloudformation" and "kubernetes" are refused, and the message names the type |
| IaC.OnlyThePromptMatters | src/aiiac/generators/iac.py:40-47 | two models that answer the formatted prompt alike give the same response |
| Config.Templates | src/aiiac/generators/config.py:8-47 | definition of `TEMPLATES`; its properties are in Config.TemplateKeys and Config.TemplateShape |
| Config.TemplateKeys | src/aiiac/generators/config.py:8-47 | the table holds exactly the types "kubernetes", "docker" and "terraform_vars" |
| Config.ConfigType | src/aiiac/generators/config.py:56 | definition of `kwargs.get("config_type", "kubernetes")`; its properties are in Config.DefaultsSucceed |
| Config.Environment | src/aiiac/generators/config.py:57 | definition of `kwargs.get("environment", "development")`; its properties are in Config.DefaultsSucceed |
| Config.UnsupportedMessage | src/aiiac/generators/config.py:63 | definition of the refusal message; its properties are in Config.UnsupportedNamesType |
| Config.PromptArgs | src/aiiac/generators/config.py:68-73 | definition of the keywords passed to `_prepare_prompt`; its properties are in Config.TemplateShape and Config.KubernetesPromptCarriesIac |
| Config.PromptFor | src/aiiac/generators/config.py:68-73 | definition of the formatted prompt; its properties are in Config.PromptContainsDescription and Config.KubernetesPromptCarriesIac |
| Config.DefaultsSucceed | src/aiiac/generators/config.py:56-92 | with no keywords a working model yields one configuration of type "kubernetes" for "development", tagged "yaml", with the success message |
| Config.TemplateShape | src/aiiac/generators/config.py:8-47 | every placeholder of every template is supplied, and the description fills one of them |
| Config.Language | src/aiiac/generators/config.py:99-106 | a non-empty tag, and "yaml" for a type without a template |
| Config.FormatTag | src/aiiac/generators/config.py:108-115 | a non-empty tag, and "yaml" for a type without a template |
| Config.Generate | src/aiiac/generators/config.py:49-97 | a well-shaped response; unknown types refused; success exactly when the model answers, with language, format, description and environment as the source builds them and the message "Successfully generated configuration"; otherwise the error message |
| Config.TagTable | src/aiiac/generators/config.py:99-115 | the language and format tags of each of the three types |
| Config.PromptContainsDescription | src/aiiac/generators/config.py:67-73 | the prompt contains the description verbatim |
| Config.KubernetesPromptCarriesIac | src/aiiac/generators/config.py:68-73 | the Kubernetes prompt contains the earlier infrastructure template's description |
| Config.UnsupportedNamesType | src/aiiac/generators/config.py:59-65 | an unknown type fails with no template and a message naming the type |
| Config.TagsIgnoreGeneratedText | src/aiiac/generators/config.py:77-84 | the language and format tags depend on the type alone, not on the generated text |
| Utility.Templates | src/aiiac/generators/utility.py:8-42 | definition of `TEMPLATES`; its properties are in Utility.TemplateKeys and Utility.TemplateShape |
| Utility.TemplateKeys | src/aiiac/generators/utility.py:8-42 | the table holds exactly the types "network_scanner", "kubectl" and "mongo_query" |
| Utility.UtilityType | src/aiiac/generators/utility.py:46 | definition of `kwargs.get("utility_type", "network_scanner")`; its properties are in Utility.DefaultsSucceed |
| Utility.UnsupportedMessage | src/aiiac/generators/utility.py:52 | definition of the refusal message; its properties are in Utility.UnsupportedNamesType |
| Utility.PromptFor | src/aiiac/generators/utility.py:57-60 | definition of the formatted prompt; its properties are in Utility.PromptContainsDescription |
| Utility.DefaultsSucceed | src/aiiac/generators/utility.py:46-77 | with no keywords a working model yields one "network_scanner" utility in "python", with the success message |
| Utility.TemplateShape | src/aiiac/generators/utility.py:8-42 | every template has the one placeholder "requirements" |
| Utility.Language | src/aiiac/generators/utility.py:84-91 | a non-empty tag, and "text" for a type without a template |
| Utility.Generate | src/aiiac/generators/utility.py:44-82 | a well-shaped response; unknown types refused; success exactly when the model answers, with the type's language and description and the message "Successfully generated utility"; otherwise the error message |
| Utility.LanguageTable | src/aiiac/generators/utility.py:84-91 | the language tag of each of the three types |
| Utility.PromptContainsDescription | src/aiiac/generators/utility.py:56-60 | the prompt contains the description verbatim |
| Utility.UnsupportedNamesType | src/aiiac/generators/utility.py:48-54 | an unknown type fails with no template and a message naming the type |
| Utility.LanguageIgnoresGeneratedText | src/aiiac/generators/utility.py:64-69 | the language tag depends on the type alone |
| Pipeline.Templates | src/aiiac/generators/pipeline.py:8-53 | definition of `TEMPLATES`; its properties are in Pipeline.TemplateKeys and Pipeline.TemplateShape |
| Pipeline.TemplateKeys | src/aiiac/generators/pipeline.py:8-53 | the table holds exactly the platforms "github", "gitlab" and "jenkins" |
| Pipeline.Platform | src/aiiac/generators/pipeline.py:63 | definition of `kwargs.get("platform", "github")`; its properties are in Pipeline.DefaultsSucceed |
| Pipeline.UnsupportedMessage | src/aiiac/generators/pipeline.py:69 | definition of the refusal message; its properties are in Pipeline.UnsupportedNamesPlatform |
| Pipeline.PromptArgs | src/aiiac/generators/pipeline.py:74-79 | definition of the keywords passed to `_prepare_prompt`; its properties are in Pipeline.TemplateShape and Pipeline.PromptCarriesEarlierTemplates |
| Pipeline.PromptFor | src/aiiac/generators/pipeline.py:74-79 | definition of the formatted prompt; its properties are in Pipeline.PromptContainsDescription and Pipeline.PromptCarriesEarlierTemplates |
| Pipeline.DefaultsSucceed | src/aiiac/generators/pipeline.py:63-100 | with no keywords, a working model and an answer whose stage extraction succeeds yield one "github" pipeline in "yaml" with those stages and the success message |
| Pipeline.TemplateShape | src/aiiac/generators/pipeline.py:8-53 | every placeholder is supplied, and each template names the description and both earlier templates |
| Pipeline.Language | src/aiiac/generators/pipeline.py:107-114 | "groovy" exactly for Jenkins, "yaml" for every other platform |
| Pipeline.LineStage | src/aiiac/generators/pipeline.py:122-127 | definition of one iteration of the loop; its properties are in Pipeline.LineRaisesIff, Pipeline.ColonLineStage, Pipeline.ParenLineStage, Pipeline.ColonRoundTrip and Pipeline.ParenRoundTrip |
| Pipeline.ColonName | src/aiiac/generators/pipeline.py:123 | definition of the name after "stage:"; its properties are in Pipeline.ColonNameShape |
| Pipeline.ParenName | src/aiiac/generators/pipeline.py:126 | definition of the name after "stage("; its properties are in Pipeline.ParenNameShape |
| Pipeline.Collect | src/aiiac/generators/pipeline.py:121-127 | the loop's accumulation: never more stages than lines, and the only failure is the `IndexError` message |
| Pipeline.Outcomes | src/aiiac/generators/pipeline.py:121 | one outcome per line, in line order |
| Pipeline.Stages | src/aiiac/generators/pipeline.py:116-129 | definition of the stages of a list of lines; its properties are in Pipeline.StagesAppend, Pipeline.StagesFailIff and Pipeline.NoMatchNoStages |
| Pipeline.StagesOf | src/aiiac/generators/pipeline.py:116-129 | definition of `_extract_stages` on the whole text; its properties are in Pipeline.ExtractStages and Pipeline.NoMarkerNoStages |
| Pipeline.ExtractStages | src/aiiac/generators/pipeline.py:116-129 | the loop returns exactly the stages of the "\n"-separated lines, or the `IndexError`, and never more stages than lines |
| Pipeline.Generate | src/aiiac/generators/pipeline.py:55-105 | a well-shaped response; unknown platforms refused; success exactly when the model answers and stage extraction does not raise, with the extracted stages in the template and the message "Successfully generated pipeline"; the error message of either failure |
| Pipeline.CollectAppend | src/aiiac/generators/pipeline.py:121-127 | accumulating two runs of outcomes gives the first run's stages followed by the second's, or the error |
| Pipeline.StagesAppend | src/aiiac/generators/pipeline.py:121-127 | extraction is line by line: the stages of two blocks of lines are those of each, concatenated |
| Pipeline.StagesOneLine | src/aiiac/generators/pipeline.py:122-127 | one line contributes one stage, nothing, or the error |
| Pipeline.CollectFailIff | src/aiiac/generators/pipeline.py:121-127 | the accumulation fails exactly when some outcome raises |
| Pipeline.StagesFailIff | src/aiiac/generators/pipeline.py:121-127 | extraction fails exactly when some line raises |
| Pipeline.NoMatchNoStages | src/aiiac/generators/pipeline.py:121-129 | lines matching neither pattern give no stages |
| Pipeline.NoMarkerNoStages | src/aiiac/generators/pipeline.py:116-129 | text without "stage:" or "stage(" in any capitalisation gives no stages |
| Pipeline.LineRaisesIff | src/aiiac/generators/pipeline.py:122-126 | a line raises exactly when "stage:" occurs in its lower-cased copy but not in the line itself, or, when the lower-cased line has no "stage:", "stage(" occurs in the lower-cased line but not in the line |
| Pipeline.ColonNameShape | src/aiiac/generators/pipeline.py:123 | the name after "stage:" has no quote at either end and no marker the rest of the line lacks |
| Pipeline.ParenNameShape | src/aiiac/generators/pipeline.py:126 | the name after "stage(" has no quote at either end, no ")", and no marker the rest of the line lacks |
| Pipeline.ColonLineStage | src/aiiac/generators/pipeline.py:122-124 | a line with a lower-case "stage:" always yields a stage, with no further "stage:" in its name |
| Pipeline.ParenLineStage | src/aiiac/generators/pipeline.py:125-127 | a line with a lower-case "stage(" and no "stage:" in any capitalisation yields a stage without ")" or "stage(" |
| Pipeline.CapitalisedMarkerFails | src/aiiac/generators/pipeline.py:122-123 | `Stage:` followed by one line of text holding no lower-case "stage:" raises, and the whole extraction fails |
| Pipeline.ColonRoundTrip | src/aiiac/generators/pipeline.py:122-124 | a name with no whitespace or quote at either end and no ':' anywhere, written as `stage: "<name>"`, is extracted back unchanged |
| Pipeline.ParenRoundTrip | src/aiiac/generators/pipeline.py:125-127 | a name with no whitespace or quote at either end and no ':', '(' or ')' anywhere, written as `stage("<name>")`, is extracted back unchanged |
| Pipeline.TwoNotations | src/aiiac/generators/pipeline.py:119-129 | the two notations on consecutive lines give both names, in line order, for names meeting the two round-trip conditions and without a line break |
| Pipeline.BuildDeployExample | src/aiiac/generators/pipeline.py:116-129 | `stage: "build"` then `stage("deploy")` gives the stages build and deploy |
| Pipeline.PromptContainsDescription | src/aiiac/generators/pipeline.py:74-79 | the prompt contains the description verbatim |
| Pipeline.PromptCarriesEarlierTemplates | src/aiiac/generators/pipeline.py:77-78 | the prompt contains the descriptions of the infrastructure and configuration templates passed in |
| Pipeline.UnsupportedNamesPlatform | src/aiiac/generators/pipeline.py:65-71 | an unknown platform fails with no template and a message naming the platform |
| Pipeline.CapitalisedMarkerResponse | src/aiiac/generators/pipeline.py:83-105 | a one-line answer `Stage:` + rest, where rest holds no lower-case "stage:", fails the generation with the `IndexError` message and no template |
| Pipeline.BuildDeployResponse | src/aiiac/generators/pipeline.py:83-98 | the answer `stage: "build"` / `stage("deploy")` succeeds with the stages build and deploy |

## Left out

- The language model (`OllamaLLM`, an HTTP call) is the parameter `llm`. The network, timeouts and the model's output are not modelled.
- The prose of the prompt templates is abbreviated. The placeholders and their order are the source's.
- `validate_yaml` and `validate_python` call `yaml.safe_load` and `compile`. These are the parameters `validateYaml` and `validatePython` of `Validators.ValidateOutput`.
- The command-line interface, the web interface, the Streamlit entry point and the writing of generated files are not part of this model.
- Pipeline.ColonRoundTrip, Pipeline.ParenRoundTrip and Pipeline.TwoNotations: ask for no ':' in the name, which is more than needed. Python also gives back a name such as `deploy:prod` from either notation. The extraction only goes wrong when the name itself holds a marker: "stage:" in the colon form, or "stage:" in any capitalisation or a ')' in the paren form.
- PyStr.Upper: upper-cases ASCII letters only. Python's `upper()` also maps a dotless i to `I`, a long s to `S` and a sharp s to `SS`, so Validators.ValidateTerraformIgnoresUpper and PyStr.LowerForgetsUpper are stated for ASCII text only.
- PyStr.Lower: lower-cases ASCII letters only. Python's `lower()` is Unicode-wide, but the two agree on whether "stage:", "stage(", "resource" or "provider" occur. No non-ASCII character lower-cases to text that can complete one of those words.
- Keyword arguments are modelled as a map from names to strings. Values of other types, and `None` passed explicitly, are not modelled.
- Pydantic's field validation is not modelled. Every generator passes strings where strings are declared.
- PyStr.Split: requires a non-empty separator. Every separator the core uses ("\n", "stage:", "stage(", ")") is non-empty. Python raises `ValueError` for an empty one.
- Prompts.Format: requires every placeholder to be supplied. Every generator supplies all of its template's placeholders (the `TemplateShape` lemmas), so the `KeyError` path of `str.format` cannot arise.
