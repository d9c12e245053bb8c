/**
 * The instruction texts of the four relay endpoints (api/app.py). Each is an
 * f-string with the user's prompt interpolated once, so each is kept here as
 * the text before the prompt and the text after it. The wording differs per
 * intent and per modality, including two irregularities of the source:
 * the text-only rewrite instruction has no "no formatting" clause after the
 * prompt, and the text-only detailed instruction still refers to an attached
 * image although none is sent.
 */
module Templates {

  /** Which endpoint: /rewrite, /concise, /detailed or /math. */
  datatype Intent = Rewrite | Concise | Detailed | Math

  /** Whether the request carries an image. */
  datatype Modality = TextOnly | WithImage

  /** The clause that asks for plain text, after the prompt. */
  const NoFormatting := ", do not use any special characters or symbols or bullets i just need plain white text with no formatting."
  /** The clause that asks for the prompt alone, before NoFormatting. */
  const PromptOnly := ", generate only the prompt and no other text"
  /** The last clause of the math instructions. */
  const MathPassThrough := " if you don't find maths relevance to the prompt, just return the prompt as is."

  /** The instruction text before the prompt. */
  function Prefix(intent: Intent, modality: Modality): string {
    match (intent, modality)
    case (Rewrite, WithImage) =>
      "Rewrite the following user prompt to be more detailed, descriptive, and effective for an AI assistant. The rewritten prompt should be a single, continuous sentence without bullet points or newlines. Use the attached image as context. The original prompt is: "
    case (Rewrite, TextOnly) =>
      "Rewrite the following user prompt to be more detailed, descriptive, and effective for an AI assistant. The rewritten prompt should be a single, continuous sentence without bullet points or newlines. The original prompt is: "
    case (Concise, WithImage) =>
      "Rewrite the following user prompt to be more detailed, descriptive, and effective for an AI assistant. The rewritten prompt should be a single, continuous sentence without bullet points or newlines and should direct the AI assistant to give a concise and to the point answer. Use the attached image as context. The original prompt is: "
    case (Concise, TextOnly) =>
      "Rewrite the following user prompt to be more detailed, descriptive, and effective for an AI assistant. The rewritten prompt should be a single, continuous sentence without bullet points or newlines and should direct the AI assistant to give a concise and to the point answer. The original prompt is: "
    case (Detailed, _) =>
      "rewrite the below prompt such that when sent to an AI assistant it Provides a thorough, detailed, step-by-step explanation or solution. Cover assumptions, rationale, alternatives, and edge cases. Use clear, plain text in multiple sentences without bullet points, special characters, or markdown. Use the attached image as context if relevant. The user prompt is: "
    case (Math, WithImage) =>
      "rewrite the below prompt such that when sent to an AI assistant it solves mathematics equations, theorems, and related problems efficiently and accurately, providing clear step-by-step reasoning, proofs or derivations when relevant, and strong explanations of each step. Use the attached image as context if relevant. The user prompt is: "
    case (Math, TextOnly) =>
      "rewrite the below prompt such that when sent to an AI assistant it solves mathematics equations, theorems, and related problems efficiently and accurately, providing clear step-by-step reasoning, proofs or derivations when relevant, and strong explanations of each step. The user prompt is: "
  }

  /** The instruction text after the prompt; it is empty for the text-only
      rewrite instruction and for no other. */
  function Suffix(intent: Intent, modality: Modality): (r: string)
    ensures r == [] <==> (intent, modality) == (Rewrite, TextOnly)
  {
    match (intent, modality)
    case (Rewrite, WithImage) => NoFormatting
    case (Rewrite, TextOnly) => ""
    case (Concise, _) => NoFormatting
    case (Detailed, _) => PromptOnly + NoFormatting
    case (Math, _) => PromptOnly + NoFormatting + MathPassThrough
  }

  /** The text part sent upstream: the prompt spliced once into the template. */
  function Instruction(intent: Intent, modality: Modality, prompt: string): (t: string)
    ensures |t| == |Prefix(intent, modality)| + |prompt| + |Suffix(intent, modality)|
    ensures t[..|Prefix(intent, modality)|] == Prefix(intent, modality)
    ensures t[|Prefix(intent, modality)|..|t| - |Suffix(intent, modality)|] == prompt
    ensures t[|t| - |Suffix(intent, modality)|..] == Suffix(intent, modality)
  {
    Prefix(intent, modality) + prompt + Suffix(intent, modality)
  }

  /** The prompt can be read back from the instruction, so different prompts
      give different instructions. */
  lemma InstructionInjective(intent: Intent, modality: Modality, p1: string, p2: string)
    requires Instruction(intent, modality, p1) == Instruction(intent, modality, p2)
    ensures p1 == p2
  {
    SpliceInjective(Prefix(intent, modality), Suffix(intent, modality), p1, p2);
  }

  lemma SpliceInjective(a: string, b: string, p1: string, p2: string)
    requires a + p1 + b == a + p2 + b
    ensures p1 == p2
  {
    var t := a + p1 + b;
    assert p1 == t[|a|..|t| - |b|] == p2;
  }

  /** k occurs in s starting at position j. */
  predicate OccursAt(k: string, s: string, j: int) {
    0 <= j <= |s| - |k| && s[j..j + |k|] == k
  }

  /** Whether the no-formatting clause appears in the text after the prompt. */
  ghost predicate ForbidsFormatting(intent: Intent, modality: Modality) {
    exists j :: OccursAt(NoFormatting, Suffix(intent, modality), j)
  }

  /** Every instruction asks for plain text after the prompt, except the
      text-only rewrite instruction, whose text after the prompt is empty. */
  lemma ForbidsFormattingExceptRewriteTextOnly(intent: Intent, modality: Modality)
    ensures ForbidsFormatting(intent, modality) <==> (intent, modality) != (Rewrite, TextOnly)
    ensures (intent, modality) == (Rewrite, TextOnly) ==> Suffix(intent, modality) == ""
  {
    var s := Suffix(intent, modality);
    var n := |NoFormatting|;
    match (intent, modality)
    case (Rewrite, TextOnly) =>
    case (Rewrite, WithImage) =>
      assert OccursAt(NoFormatting, s, 0);
    case (Concise, _) =>
      assert OccursAt(NoFormatting, s, 0);
    case (Detailed, _) =>
      assert OccursAt(NoFormatting, s, |PromptOnly|);
    case (Math, _) =>
      assert OccursAt(NoFormatting, s, |PromptOnly|);
  }

  /** The text-only detailed instruction is word for word the multimodal
      one, so it too asks the model to use an attached image. */
  lemma DetailedIgnoresModality(prompt: string)
    ensures Instruction(Detailed, TextOnly, prompt) == Instruction(Detailed, WithImage, prompt)
  {
  }

  /** The math instructions end by asking the model to return a prompt that
      has nothing to do with mathematics unchanged. */
  lemma MathPassesThroughNonMath(modality: Modality)
    ensures |Suffix(Math, modality)| >= |MathPassThrough|
    ensures Suffix(Math, modality)[|Suffix(Math, modality)| - |MathPassThrough|..] == MathPassThrough
  {
  }
}
