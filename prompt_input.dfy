/** The prompt form (src/components/PromptInput.tsx): its fields, the
    submit guard that refuses empty and whitespace-only prompts, and the
    trimmed request it hands to `onGenerate`. */
module PromptInput {
  import opened Wrappers
  import opened Text

  /** The argument of `onGenerate`. */
  datatype GenerateRequest = GenerateRequest(
    prompt: string, negativePrompt: string, numInferenceSteps: int, guidanceScale: real)

  const InitialSteps: int := 50
  const InitialGuidanceScale: real := 7.5
  const MinSteps: int := 20
  const MaxSteps: int := 100

  /** What `handleSubmit` hands to `onGenerate` for these field values, or
      nothing when the prompt is empty or whitespace only. The prompt passed
      on is the non-empty trimmed prompt and the negative prompt is trimmed;
      steps and guidance scale pass through unchanged. */
  function Submission(prompt: string, negativePrompt: string, numSteps: int, guidanceScale: real)
    : (r: Option<GenerateRequest>)
    ensures r.None? <==> AllSpace(prompt)
    ensures r.Some? ==>
      && r.value.prompt != [] && !IsSpace(r.value.prompt[0]) && !IsSpace(r.value.prompt[|r.value.prompt| - 1])
      && r.value.prompt == Trim(prompt) && r.value.negativePrompt == Trim(negativePrompt)
      && r.value.numInferenceSteps == numSteps && r.value.guidanceScale == guidanceScale
  {
    TrimEmptyIffAllSpace(prompt);
    if Trim(prompt) == [] then None
    else Some(GenerateRequest(Trim(prompt), Trim(negativePrompt), numSteps, guidanceScale))
  }

  /** Submitting again what a submission produced yields the same request:
      the strings handed on are already trimmed. */
  lemma ResubmitIsStable(prompt: string, negativePrompt: string, numSteps: int, guidanceScale: real)
    requires Submission(prompt, negativePrompt, numSteps, guidanceScale).Some?
    ensures var q := Submission(prompt, negativePrompt, numSteps, guidanceScale).value;
      Submission(q.prompt, q.negativePrompt, q.numInferenceSteps, q.guidanceScale) == Some(q)
  {
    TrimIdempotent(prompt);
    TrimIdempotent(negativePrompt);
  }

  /** The form's state. */
  class Form {
    var prompt: string
    var negativePrompt: string
    var numSteps: int
    var guidanceScale: real
    var showAdvancedOptions: bool

    /** The step count stays within the slider's range 20..100. */
    ghost predicate Valid()
      reads this
    {
      MinSteps <= numSteps <= MaxSteps
    }

    constructor ()
      ensures Valid()
      ensures prompt == "" && negativePrompt == ""
      ensures numSteps == InitialSteps && guidanceScale == InitialGuidanceScale
      ensures !showAdvancedOptions
    {
      prompt := "";
      negativePrompt := "";
      numSteps := InitialSteps;
      guidanceScale := InitialGuidanceScale;
      showAdvancedOptions := false;
    }

    /** The prompt text area. */
    method SetPrompt(s: string)
      modifies this`prompt
      ensures prompt == s
    {
      prompt := s;
    }

    /** The negative prompt text area. */
    method SetNegativePrompt(s: string)
      modifies this`negativePrompt
      ensures negativePrompt == s
    {
      negativePrompt := s;
    }

    /** The inference steps slider: values 20..100. */
    method SetNumSteps(v: int)
      requires MinSteps <= v <= MaxSteps
      modifies this`numSteps
      ensures Valid() && numSteps == v
    {
      numSteps := v;
    }

    /** The guidance scale slider: values 1..15. */
    method SetGuidanceScale(g: real)
      requires 1.0 <= g <= 15.0
      modifies this`guidanceScale
      ensures guidanceScale == g
    {
      guidanceScale := g;
    }

    /** The "Show/Hide Advanced Options" button negates the flag. */
    method ToggleAdvancedOptions()
      modifies this`showAdvancedOptions
      ensures showAdvancedOptions == !old(showAdvancedOptions)
    {
      showAdvancedOptions := !showAdvancedOptions;
    }

    /** `handleSubmit`: the request handed to `onGenerate`, or `None` when
        `onGenerate` is not called because the prompt is blank. A request
        always carries a step count within 20..100. */
    method HandleSubmit() returns (request: Option<GenerateRequest>)
      requires Valid()
      ensures request == Submission(prompt, negativePrompt, numSteps, guidanceScale)
      ensures request.None? <==> AllSpace(prompt)
      ensures request.Some? ==> MinSteps <= request.value.numInferenceSteps <= MaxSteps
    {
      request := Submission(prompt, negativePrompt, numSteps, guidanceScale);
    }

    /** The submit button is disabled while generating or while the prompt
        is blank; when it is enabled, a submission goes through. */
    function SubmitDisabled(isGenerating: bool): (disabled: bool)
      reads this
      ensures disabled <==> isGenerating || AllSpace(prompt)
      ensures !disabled ==> Submission(prompt, negativePrompt, numSteps, guidanceScale).Some?
    {
      TrimEmptyIffAllSpace(prompt);
      isGenerating || Trim(prompt) == []
    }
  }

  /** Toggling the advanced options twice restores the flag. */
  method ToggleTwice(f: Form)
    modifies f
    ensures f.showAdvancedOptions == old(f.showAdvancedOptions)
  {
    f.ToggleAdvancedOptions();
    f.ToggleAdvancedOptions();
  }
}
