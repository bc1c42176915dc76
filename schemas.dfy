/**
 * The record types every generator returns. The Python classes form a small
 * hierarchy (`CodeTemplate` and three subclasses that add fields); here they are
 * the four constructors of one datatype, sharing the four base fields. The
 * Python field `type` is called `kind`, because `type` is a Dafny keyword.
 */
module Schemas {
  import opened Wrappers

  datatype CodeTemplate =
    | CodeTemplate(code: string, language: string, description: string, kind: string)
    | IaCTemplate(code: string, language: string, description: string, kind: string,
                  provider: string, resourceType: string)
    | ConfigTemplate(code: string, language: string, description: string, kind: string,
                     format: string, environment: string)
    | PipelineTemplate(code: string, language: string, description: string, kind: string,
                       platform: string, stages: seq<string>)

  /** `metadata` is a free-form mapping; no generator ever fills it. */
  datatype GeneratorResponse = GeneratorResponse(
    success: bool, message: string, templates: seq<CodeTemplate>, metadata: map<string, string>)

  /** A `PipelineTemplate` built without `stages` gets the empty list. */
  function NewPipelineTemplate(code: string, language: string, description: string, kind: string,
                               platform: string): (t: CodeTemplate)
    ensures t.PipelineTemplate? && t.stages == []
    ensures t.code == code && t.language == language && t.description == description
    ensures t.kind == kind && t.platform == platform
  {
    PipelineTemplate(code, language, description, kind, platform, [])
  }

  /** A response built without `templates` or `metadata` has neither. */
  function NewResponse(success: bool, message: string): (r: GeneratorResponse)
    ensures r.success == success && r.message == message
    ensures r.templates == [] && r.metadata == map[]
  {
    GeneratorResponse(success, message, [], map[])
  }

  /** The success response every generator builds around its one template. */
  function Succeeded(message: string, t: CodeTemplate): (r: GeneratorResponse)
    ensures r.success && r.message == message && r.templates == [t] && r.metadata == map[]
  {
    GeneratorResponse(true, message, [t], map[])
  }

  /**
   * What a prompt says about an earlier template that may be missing: its
   * description, or "Not provided" when there is none.
   */
  function DescriptionOr(t: Option<CodeTemplate>): string {
    match t
    case Some(x) => x.description
    case None => "Not provided"
  }

  /**
   * No partial results: a response either succeeded with exactly one template
   * or failed with none, and its metadata is empty.
   */
  predicate WellShaped(r: GeneratorResponse) {
    (r.success <==> |r.templates| == 1)
    && (!r.success <==> r.templates == [])
    && r.metadata == map[]
  }
}
