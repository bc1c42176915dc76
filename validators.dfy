/**
 * Post-generation validation (`aiiac.utils.validators`): a dispatch on the
 * language tag, and a case-insensitive keyword test for Terraform. The YAML and
 * Python checks call `yaml.safe_load` and `compile`, which are not part of this
 * model; they are parameters here.
 */
module Validators {
  import opened PyStr

  /** The blocks a Terraform file must mention. */
  const RequiredBlocks: seq<string> := ["resource", "provider"]

  /** `validate_terraform`: every required block occurs in the lower-cased code. */
  predicate ValidateTerraform(code: string) {
    forall k :: 0 <= k < |RequiredBlocks| ==> Contains(Lower(code), RequiredBlocks[k])
  }

  /** `validate_output`: dispatch on the language tag; an unknown tag passes. */
  function ValidateOutput(code: string, language: string,
                          validateYaml: string -> bool, validatePython: string -> bool): (ok: bool)
    ensures language == "yaml" ==> ok == validateYaml(code)
    ensures language == "terraform" ==> ok == ValidateTerraform(code)
    ensures language == "python" ==> ok == validatePython(code)
    ensures language != "yaml" && language != "terraform" && language != "python" ==> ok
  {
    if language == "yaml" then validateYaml(code)
    else if language == "terraform" then ValidateTerraform(code)
    else if language == "python" then validatePython(code)
    else true
  }

  /** Terraform code passes exactly when its lower-cased text contains both "resource" and "provider". */
  lemma ValidateTerraformIff(code: string)
    ensures ValidateTerraform(code) <==> Contains(Lower(code), "resource") && Contains(Lower(code), "provider")
  {
    assert RequiredBlocks[0] == "resource" && RequiredBlocks[1] == "provider";
  }

  /** Lower-casing the code does not change the verdict. */
  lemma ValidateTerraformIgnoresCase(code: string)
    ensures ValidateTerraform(Lower(code)) == ValidateTerraform(code)
  {
    LowerIdempotent(code);
  }

  /** Upper-casing ASCII code does not change the verdict either. */
  lemma ValidateTerraformIgnoresUpper(code: string)
    requires IsAscii(code)
    ensures ValidateTerraform(Upper(code)) == ValidateTerraform(code)
  {
    LowerForgetsUpper(code);
  }

  /** Adding text before or after valid Terraform code keeps it valid. */
  lemma ValidateTerraformMonotone(code: string, more: string)
    requires ValidateTerraform(code)
    ensures ValidateTerraform(code + more)
    ensures ValidateTerraform(more + code)
  {
    LowerConcat(code, more);
    LowerConcat(more, code);
    forall k | 0 <= k < |RequiredBlocks|
      ensures Contains(Lower(code + more), RequiredBlocks[k])
      ensures Contains(Lower(more + code), RequiredBlocks[k])
    {
      ContainsExtend(Lower(code), RequiredBlocks[k], "", Lower(more));
      assert "" + Lower(code) + Lower(more) == Lower(code + more);
      ContainsExtend(Lower(code), RequiredBlocks[k], Lower(more), "");
      assert Lower(more) + Lower(code) + "" == Lower(more + code);
    }
  }

  /** Empty code is not valid Terraform. */
  lemma ValidateTerraformEmpty()
    ensures !ValidateTerraform("")
  {
    NotContainsEmpty(RequiredBlocks[0]);
  }
}
