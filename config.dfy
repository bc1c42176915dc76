/**
 * `ConfigGenerator`: configuration files (Kubernetes, Docker, Terraform
 * variables) from a description, optionally informed by an infrastructure
 * template produced earlier.
 */
module Config {
  import opened Wrappers
  import opened PyStr
  import opened Prompts
  import opened Schemas

  /** The template table; the prose is abbreviated, the placeholders are the source's. */
  const Templates: map<string, Prompts.Template> := map[
    "kubernetes" := [
      Text("Generate Kubernetes configuration for:\nRequirements: "), Field("requirements"),
      Text("\nInfrastructure: "), Field("iac_description"),
      Text("\nEnvironment: "), Field("environment"),
      Text("\nInclude: ConfigMaps, Secrets (templates), resource limits, environment variables\n")],
    "docker" := [
      Text("Generate Docker configuration for:\nRequirements: "), Field("requirements"),
      Text("\nEnvironment: "), Field("environment"),
      Text("\nInclude: Dockerfile, Docker Compose, environment settings, volume mappings\n")],
    "terraform_vars" := [
      Text("Generate Terraform variables for:\nRequirements: "), Field("requirements"),
      Text("\nEnvironment: "), Field("environment"),
      Text("\nInclude: variable definitions, default values, environment-specific values\n")]]

  const ErrorPrefix := "Error generating configuration: "
  const SuccessMessage := "Successfully generated configuration"

  /** The three configuration types the table holds. */
  lemma TemplateKeys()
    ensures Templates.Keys == {"kubernetes", "docker", "terraform_vars"}
  {
  }

  function ConfigType(kwargs: map<string, string>): string {
    Get(kwargs, "config_type", "kubernetes")
  }

  function Environment(kwargs: map<string, string>): string {
    Get(kwargs, "environment", "development")
  }

  function UnsupportedMessage(configType: string): string {
    "Configuration type " + configType + " not supported"
  }

  /** The keyword arguments `_prepare_prompt` receives; the Docker and Terraform templates ignore `iac_description`. */
  function PromptArgs(prompt: string, iacTemplate: Option<CodeTemplate>, kwargs: map<string, string>)
    : map<string, string>
  {
    map["requirements" := prompt, "iac_description" := DescriptionOr(iacTemplate),
        "environment" := Environment(kwargs)]
  }

  /**
   * Every placeholder of every template is supplied, the description fills the
   * second segment, and the Kubernetes template also asks for the infrastructure.
   */
  lemma TemplateShape(configType: string)
    requires configType in Templates
    ensures Fields(Templates[configType]) <= {"requirements", "iac_description", "environment"}
    ensures Templates[configType][1] == Field("requirements")
    ensures configType == "kubernetes" ==> Templates[configType][3] == Field("iac_description")
  {
    FieldsWithin(Templates[configType], {"requirements", "iac_description", "environment"});
  }

  /** The prompt sent to the language model. */
  function PromptFor(prompt: string, iacTemplate: Option<CodeTemplate>, kwargs: map<string, string>): string
    requires ConfigType(kwargs) in Templates
  {
    TemplateShape(ConfigType(kwargs));
    Format(Templates[ConfigType(kwargs)], PromptArgs(prompt, iacTemplate, kwargs))
  }

  /** `_get_language`: a fixed tag per configuration type, "yaml" for any other. */
  function Language(configType: string): (tag: string)
    ensures tag != ""
    ensures configType !in Templates ==> tag == "yaml"
  {
    var languageMap := map["kubernetes" := "yaml", "docker" := "dockerfile", "terraform_vars" := "hcl"];
    if configType in languageMap then languageMap[configType] else "yaml"
  }

  /** `_get_format`: a fixed tag per configuration type, "yaml" for any other. */
  function FormatTag(configType: string): (tag: string)
    ensures tag != ""
    ensures configType !in Templates ==> tag == "yaml"
  {
    var formatMap := map["kubernetes" := "yaml", "docker" := "compose", "terraform_vars" := "tfvars"];
    if configType in formatMap then formatMap[configType] else "yaml"
  }

  /** `ConfigGenerator.generate(prompt, iac_template, **kwargs)`. */
  function Generate(prompt: string, iacTemplate: Option<CodeTemplate>, kwargs: map<string, string>,
                    llm: string -> Result<string, string>): (r: GeneratorResponse)
    ensures WellShaped(r)
    ensures ConfigType(kwargs) !in Templates ==>
      r == NewResponse(false, UnsupportedMessage(ConfigType(kwargs)))
    ensures ConfigType(kwargs) in Templates ==>
      (r.success <==> llm(PromptFor(prompt, iacTemplate, kwargs)).Ok?)
    ensures r.success ==> r.message == SuccessMessage
    ensures ConfigType(kwargs) in Templates && r.success ==>
      r.templates[0] == ConfigTemplate(llm(PromptFor(prompt, iacTemplate, kwargs)).value,
                                       Language(ConfigType(kwargs)),
                                       "Generated " + ConfigType(kwargs) + " configuration for " + Environment(kwargs),
                                       "config", FormatTag(ConfigType(kwargs)), Environment(kwargs))
    ensures ConfigType(kwargs) in Templates && !r.success ==>
      r.message == ErrorPrefix + llm(PromptFor(prompt, iacTemplate, kwargs)).error
  {
    var configType := ConfigType(kwargs);
    var environment := Environment(kwargs);
    if configType !in Templates then
      NewResponse(false, UnsupportedMessage(configType))
    else
      match llm(PromptFor(prompt, iacTemplate, kwargs))
      case Err(e) => NewResponse(false, ErrorPrefix + e)
      case Ok(code) =>
        Succeeded(SuccessMessage,
                  ConfigTemplate(code, Language(configType),
                                 "Generated " + configType + " configuration for " + environment,
                                 "config", FormatTag(configType), environment))
  }

  /** The description the defaults give, spelled out. */
  lemma DefaultDescription()
    ensures "Generated " + "kubernetes" + " configuration for " + "development"
         == "Generated kubernetes configuration for development"
  {
    var head := "Generated " + "kubernetes";
    assert head == "Generated kubernetes";
    assert head + " configuration for " == "Generated kubernetes configuration for ";
  }

  /** With every default applied, a working model yields one Kubernetes configuration for development. */
  lemma DefaultsSucceed(prompt: string, iacTemplate: Option<CodeTemplate>, llm: string -> Result<string, string>,
                        code: string)
    requires llm(PromptFor(prompt, iacTemplate, map[])) == Ok(code)
    ensures var r := Generate(prompt, iacTemplate, map[], llm);
      r.success && r.message == "Successfully generated configuration"
      && r.templates == [ConfigTemplate(code, "yaml", "Generated kubernetes configuration for development", "config",
                                        "yaml", "development")]
  {
    assert ConfigType(map[]) == "kubernetes" && Environment(map[]) == "development";
    TemplateKeys();
    TagTable();
    DefaultDescription();
    var r := Generate(prompt, iacTemplate, map[], llm);
    assert r.success;
    assert r.templates == [r.templates[0]];
  }

  /** The language and format tags of each supported type. */
  lemma TagTable()
    ensures Language("kubernetes") == "yaml" && FormatTag("kubernetes") == "yaml"
    ensures Language("docker") == "dockerfile" && FormatTag("docker") == "compose"
    ensures Language("terraform_vars") == "hcl" && FormatTag("terraform_vars") == "tfvars"
  {
  }

  /** The description reaches the language model: the prompt contains it verbatim. */
  lemma PromptContainsDescription(prompt: string, iacTemplate: Option<CodeTemplate>, kwargs: map<string, string>)
    requires ConfigType(kwargs) in Templates
    ensures Contains(PromptFor(prompt, iacTemplate, kwargs), prompt)
  {
    var key := ConfigType(kwargs);
    var args := PromptArgs(prompt, iacTemplate, kwargs);
    TemplateShape(key);
    FormatContains(Templates[key], args, "requirements");
  }

  /** For the Kubernetes template, the prompt also carries the earlier infrastructure template's description. */
  lemma KubernetesPromptCarriesIac(prompt: string, t: CodeTemplate, kwargs: map<string, string>)
    requires ConfigType(kwargs) == "kubernetes"
    ensures Contains(PromptFor(prompt, Some(t), kwargs), t.description)
  {
    TemplateShape("kubernetes");
    FormatContains(Templates["kubernetes"], PromptArgs(prompt, Some(t), kwargs), "iac_description");
  }

  /** An unknown type is refused and the message names it. */
  lemma UnsupportedNamesType(prompt: string, iacTemplate: Option<CodeTemplate>, kwargs: map<string, string>,
                             llm: string -> Result<string, string>)
    requires ConfigType(kwargs) !in Templates
    ensures var r := Generate(prompt, iacTemplate, kwargs, llm);
      !r.success && r.templates == [] && Contains(r.message, ConfigType(kwargs))
  {
    ContainsConcat("Configuration type ", ConfigType(kwargs), " not supported");
  }

  /** The tags come from the type alone, never from the generated text. */
  lemma TagsIgnoreGeneratedText(prompt: string, iacTemplate: Option<CodeTemplate>, kwargs: map<string, string>,
                                llm1: string -> Result<string, string>, llm2: string -> Result<string, string>)
    requires Generate(prompt, iacTemplate, kwargs, llm1).success
    requires Generate(prompt, iacTemplate, kwargs, llm2).success
    ensures Generate(prompt, iacTemplate, kwargs, llm1).templates[0].language
         == Generate(prompt, iacTemplate, kwargs, llm2).templates[0].language
    ensures Generate(prompt, iacTemplate, kwargs, llm1).templates[0].format
         == Generate(prompt, iacTemplate, kwargs, llm2).templates[0].format
  {
  }
}
