/**
 * `UtilityGenerator`: small operational programs (a network scanner, kubectl
 * commands, a MongoDB query) from a description.
 */
module Utility {
  import opened Wrappers
  import opened PyStr
  import opened Prompts
  import opened Schemas

  /** The template table; the prose is abbreviated, the placeholders are the source's. */
  const Templates: map<string, Prompts.Template> := map[
    "network_scanner" := [
      Text("Generate a Python network scanner that:\nRequirements: "), Field("requirements"),
      Text("\nInclude: port scanning, error handling, security best practices, documentation\n")],
    "kubectl" := [
      Text("Generate kubectl commands for:\nRequirements: "), Field("requirements"),
      Text("\nInclude: command explanation, required permissions, example usage\n")],
    "mongo_query" := [
      Text("Generate MongoDB query for:\nRequirements: "), Field("requirements"),
      Text("\nInclude: query explanation, index recommendations, performance considerations\n")]]

  const ErrorPrefix := "Error generating utility: "
  const SuccessMessage := "Successfully generated utility"

  /** The three utility types the table holds. */
  lemma TemplateKeys()
    ensures Templates.Keys == {"network_scanner", "kubectl", "mongo_query"}
  {
  }

  function UtilityType(kwargs: map<string, string>): string {
    Get(kwargs, "utility_type", "network_scanner")
  }

  function UnsupportedMessage(utilityType: string): string {
    "Utility type " + utilityType + " not supported"
  }

  /** Every placeholder of every template is supplied, and the description fills the second segment. */
  lemma TemplateShape(utilityType: string)
    requires utilityType in Templates
    ensures Fields(Templates[utilityType]) <= {"requirements"}
    ensures Templates[utilityType][1] == Field("requirements")
  {
    if utilityType == "network_scanner" {
    } else if utilityType == "kubectl" {
    } else {
    }
  }

  /** The prompt sent to the language model. */
  function PromptFor(prompt: string, kwargs: map<string, string>): string
    requires UtilityType(kwargs) in Templates
  {
    TemplateShape(UtilityType(kwargs));
    Format(Templates[UtilityType(kwargs)], map["requirements" := prompt])
  }

  /** `_get_language`: a fixed tag per utility type, "text" for any other. */
  function Language(utilityType: string): (tag: string)
    ensures tag != ""
    ensures utilityType !in Templates ==> tag == "text"
  {
    var languageMap := map["network_scanner" := "python", "kubectl" := "bash", "mongo_query" := "mongodb"];
    if utilityType in languageMap then languageMap[utilityType] else "text"
  }

  /** `UtilityGenerator.generate(prompt, **kwargs)`. */
  function Generate(prompt: string, kwargs: map<string, string>, llm: string -> Result<string, string>)
    : (r: GeneratorResponse)
    ensures WellShaped(r)
    ensures UtilityType(kwargs) !in Templates ==>
      r == NewResponse(false, UnsupportedMessage(UtilityType(kwargs)))
    ensures UtilityType(kwargs) in Templates ==>
      (r.success <==> llm(PromptFor(prompt, kwargs)).Ok?)
    ensures r.success ==> r.message == SuccessMessage
    ensures UtilityType(kwargs) in Templates && r.success ==>
      r.templates[0] == CodeTemplate(llm(PromptFor(prompt, kwargs)).value, Language(UtilityType(kwargs)),
                                     "Generated " + UtilityType(kwargs) + " utility", "utility")
    ensures UtilityType(kwargs) in Templates && !r.success ==>
      r.message == ErrorPrefix + llm(PromptFor(prompt, kwargs)).error
  {
    var utilityType := UtilityType(kwargs);
    if utilityType !in Templates then
      NewResponse(false, UnsupportedMessage(utilityType))
    else
      match llm(PromptFor(prompt, kwargs))
      case Err(e) => NewResponse(false, ErrorPrefix + e)
      case Ok(code) =>
        Succeeded(SuccessMessage,
                  CodeTemplate(code, Language(utilityType), "Generated " + utilityType + " utility", "utility"))
  }

  /** With every default applied, a working model yields one Python network scanner. */
  lemma DefaultsSucceed(prompt: string, llm: string -> Result<string, string>, code: string)
    requires llm(PromptFor(prompt, map[])) == Ok(code)
    ensures var r := Generate(prompt, map[], llm);
      r.success && r.message == "Successfully generated utility"
      && r.templates == [CodeTemplate(code, "python", "Generated network_scanner utility", "utility")]
  {
    assert UtilityType(map[]) == "network_scanner";
    TemplateKeys();
    LanguageTable();
    assert "Generated " + "network_scanner" + " utility" == "Generated network_scanner utility";
  }

  /** The language tag of each supported type. */
  lemma LanguageTable()
    ensures Language("network_scanner") == "python"
    ensures Language("kubectl") == "bash"
    ensures Language("mongo_query") == "mongodb"
  {
  }

  /** The description reaches the language model: the prompt contains it verbatim. */
  lemma PromptContainsDescription(prompt: string, kwargs: map<string, string>)
    requires UtilityType(kwargs) in Templates
    ensures Contains(PromptFor(prompt, kwargs), prompt)
  {
    TemplateShape(UtilityType(kwargs));
    FormatContains(Templates[UtilityType(kwargs)], map["requirements" := prompt], "requirements");
  }

  /** An unknown type is refused and the message names it. */
  lemma UnsupportedNamesType(prompt: string, kwargs: map<string, string>, llm: string -> Result<string, string>)
    requires UtilityType(kwargs) !in Templates
    ensures var r := Generate(prompt, kwargs, llm);
      !r.success && r.templates == [] && Contains(r.message, UtilityType(kwargs))
  {
    ContainsConcat("Utility type ", UtilityType(kwargs), " not supported");
  }

  /** The language tag comes from the type alone, never from the generated text. */
  lemma LanguageIgnoresGeneratedText(prompt: string, kwargs: map<string, string>,
                                     llm1: string -> Result<string, string>, llm2: string -> Result<string, string>)
    requires Generate(prompt, kwargs, llm1).success && Generate(prompt, kwargs, llm2).success
    ensures Generate(prompt, kwargs, llm1).templates[0].language == Generate(prompt, kwargs, llm2).templates[0].language
  {
  }
}
