/**
 * `IaCGenerator`: infrastructure code from a description. Only the "terraform"
 * template exists. The language model is the parameter `llm`, from prompt to
 * generated text or an error message.
 */
module IaC {
  import opened Wrappers
  import opened PyStr
  import opened Prompts
  import opened Schemas

  /** The template table; the prose is abbreviated, the placeholders are the source's. */
  const Templates: map<string, Prompts.Template> := map[
    "terraform" := [
      Text("Generate Terraform code for the following infrastructure:\nRequirements:\n"),
      Field("requirements"),
      Text("\nProvider: "), Field("provider"),
      Text("\nResource Type: "), Field("resource_type"),
      Text("\nInclude: resource configurations, variables, outputs, provider configuration\n")]]

  const ErrorPrefix := "Error generating IaC: "
  const SuccessMessage := "Successfully generated IaC"

  /** The one template type the table holds. */
  lemma TemplateKeys()
    ensures Templates.Keys == {"terraform"}
  {
  }

  function TemplateType(kwargs: map<string, string>): string {
    Get(kwargs, "template_type", "terraform")
  }

  function Provider(kwargs: map<string, string>): string {
    Get(kwargs, "provider", "aws")
  }

  function ResourceType(kwargs: map<string, string>): string {
    Get(kwargs, "resource_type", "general")
  }

  function UnsupportedMessage(templateType: string): string {
    "Template type " + templateType + " not supported"
  }

  /** The keyword arguments `_prepare_prompt` receives. */
  function PromptArgs(prompt: string, kwargs: map<string, string>): map<string, string> {
    map["requirements" := prompt, "provider" := Provider(kwargs), "resource_type" := ResourceType(kwargs)]
  }

  /** Every placeholder of the template is supplied, and the description fills the second segment. */
  lemma TemplateShape(templateType: string)
    requires templateType in Templates
    ensures Fields(Templates[templateType]) <= {"requirements", "provider", "resource_type"}
    ensures Templates[templateType][1] == Field("requirements")
  {
  }

  /** The prompt sent to the language model; every placeholder of the template is supplied. */
  function PromptFor(prompt: string, kwargs: map<string, string>): string
    requires TemplateType(kwargs) in Templates
  {
    TemplateShape(TemplateType(kwargs));
    Format(Templates[TemplateType(kwargs)], PromptArgs(prompt, kwargs))
  }

  /** `IaCGenerator.generate(prompt, **kwargs)`. */
  function Generate(prompt: string, kwargs: map<string, string>, llm: string -> Result<string, string>)
    : (r: GeneratorResponse)
    ensures WellShaped(r)
    ensures TemplateType(kwargs) != "terraform" ==>
      r == NewResponse(false, UnsupportedMessage(TemplateType(kwargs)))
    ensures TemplateType(kwargs) == "terraform" ==>
      (r.success <==> llm(PromptFor(prompt, kwargs)).Ok?)
    ensures r.success ==> r.message == SuccessMessage
    ensures TemplateType(kwargs) == "terraform" && r.success ==>
      r.templates[0] == IaCTemplate(llm(PromptFor(prompt, kwargs)).value, "terraform",
                                     "Generated " + "terraform" + " code for " + Provider(kwargs), "iac",
                                     Provider(kwargs), ResourceType(kwargs))
    ensures TemplateType(kwargs) == "terraform" && !r.success ==>
      r.message == ErrorPrefix + llm(PromptFor(prompt, kwargs)).error
  {
    var templateType := TemplateType(kwargs);
    if templateType !in Templates then
      NewResponse(false, UnsupportedMessage(templateType))
    else
      match llm(PromptFor(prompt, kwargs))
      case Err(e) => NewResponse(false, ErrorPrefix + e)
      case Ok(code) =>
        Succeeded(SuccessMessage,
                  IaCTemplate(code, templateType, "Generated " + templateType + " code for " + Provider(kwargs),
                              "iac", Provider(kwargs), ResourceType(kwargs)))
  }

  /** The description reaches the language model: the prompt contains it verbatim. */
  lemma PromptContainsDescription(prompt: string, kwargs: map<string, string>)
    requires TemplateType(kwargs) in Templates
    ensures Contains(PromptFor(prompt, kwargs), prompt)
  {
    TemplateShape(TemplateType(kwargs));
    FormatContains(Templates[TemplateType(kwargs)], PromptArgs(prompt, kwargs), "requirements");
  }

  /** With every default applied, a working model yields one Terraform template for AWS. */
  lemma DefaultsSucceed(prompt: string, llm: string -> Result<string, string>, code: string)
    requires llm(PromptFor(prompt, map[])) == Ok(code)
    ensures var r := Generate(prompt, map[], llm);
      r.success && r.message == "Successfully generated IaC"
      && r.templates == [IaCTemplate(code, "terraform", "Generated terraform code for aws", "iac", "aws", "general")]
  {
    assert "Generated " + "terraform" + " code for " + "aws" == "Generated terraform code for aws";
  }

  /** The types the web UI offers besides "terraform" are refused, and the message names them. */
  lemma OtherUiTypesUnsupported(prompt: string, kwargs: map<string, string>, llm: string -> Result<string, string>)
    requires Get(kwargs, "template_type", "terraform") in {"cloudformation", "kubernetes"}
    ensures var r := Generate(prompt, kwargs, llm);
      !r.success && r.templates == [] && Contains(r.message, TemplateType(kwargs))
  {
    ContainsConcat("Template type ", TemplateType(kwargs), " not supported");
  }

  /** The language model is consulted once, on the formatted prompt: nothing else about it matters. */
  lemma OnlyThePromptMatters(prompt: string, kwargs: map<string, string>,
                             llm1: string -> Result<string, string>, llm2: string -> Result<string, string>)
    requires TemplateType(kwargs) in Templates
    requires llm1(PromptFor(prompt, kwargs)) == llm2(PromptFor(prompt, kwargs))
    ensures Generate(prompt, kwargs, llm1) == Generate(prompt, kwargs, llm2)
  {
  }
}
