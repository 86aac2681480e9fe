/**
 * src/utils/prompts.ts: `appendPromptModifiers`, which extends a generation
 * prompt with at most one length modifier and then an optional free-form
 * instruction from the user.
 */
module Prompts {
  import opened Wrappers
  import opened Strings

  /** The `modifier` argument: `''`, `'concise'` or `'detailed'`. */
  datatype Modifier = NoModifier | Concise | Detailed

  /** The opening both modifier paragraphs share, up to the word that differs. */
  const MODIFIER_HEAD: string := "\n\nIMPORTANT: Make this description MORE "

  /** The paragraph `'concise'` appends. */
  const CONCISE_TEXT: string := MODIFIER_HEAD + "CONCISE" +
    ". For dataset descriptions, target ~100 words while still covering content, key fields, scope, and users. For column descriptions, target ~50 words while still covering definition, values, and empty cells. Cut filler phrases and combine sentences where possible."

  /** The paragraph `'detailed'` appends. */
  const DETAILED_TEXT: string := MODIFIER_HEAD + "DETAILED" +
    ". For dataset descriptions, expand to ~150 words covering all 4 required elements in depth with specific examples from the data. For column descriptions, expand to ~80 words covering all 5 WA guidance elements (definition, units, possible values, empty cells, methods/standards)."

  /** What precedes a custom instruction. */
  const CUSTOM_PREFIX: string := "\n\nAdditional instruction: "

  /** A custom instruction is used when it is present and non-empty (JavaScript truthiness). */
  predicate Present(customInstruction: Option<string>)
  {
    customInstruction.Some? && customInstruction.value != ""
  }

  /** The paragraph a modifier contributes. */
  function ModifierText(m: Modifier): (t: string)
    ensures m.NoModifier? <==> t == ""
  {
    match m
    case NoModifier => ""
    case Concise => CONCISE_TEXT
    case Detailed => DETAILED_TEXT
  }

  /** The text a custom instruction contributes. */
  function CustomText(customInstruction: Option<string>): (t: string)
    ensures Present(customInstruction) <==> t != ""
  {
    if Present(customInstruction) then CUSTOM_PREFIX + customInstruction.value else ""
  }

  /** The modified prompt: the prompt, the modifier's paragraph, the instruction. */
  function Modified(prompt: string, modifier: Modifier, customInstruction: Option<string>): string
  {
    prompt + ModifierText(modifier) + CustomText(customInstruction)
  }

  /** `appendPromptModifiers(prompt, modifier, customInstruction)`. */
  method AppendPromptModifiers(prompt: string, modifier: Modifier, customInstruction: Option<string>)
    returns (result: string)
    ensures result == Modified(prompt, modifier, customInstruction)
  {
    result := prompt;
    if modifier == Concise {
      result := result + CONCISE_TEXT;
    } else if modifier == Detailed {
      result := result + DETAILED_TEXT;
    }
    assert result == prompt + ModifierText(modifier);
    if customInstruction.Some? && customInstruction.value != "" {
      result := result + (CUSTOM_PREFIX + customInstruction.value);
    }
  }

  /** The prompt comes first, then the modifier's paragraph; with no instruction, nothing else. */
  lemma ModifiedExtendsPrompt(prompt: string, modifier: Modifier, customInstruction: Option<string>)
    ensures StartsWith(Modified(prompt, modifier, customInstruction), prompt + ModifierText(modifier))
    ensures !Present(customInstruction) ==> Modified(prompt, modifier, customInstruction) == prompt + ModifierText(modifier)
  {
    var h := prompt + ModifierText(modifier);
    assert (h + CustomText(customInstruction))[..|h|] == h;
  }

  /** The prompt comes back unchanged exactly when there is no modifier and no instruction. */
  lemma ModifiedUnchangedIff(prompt: string, modifier: Modifier, customInstruction: Option<string>)
    ensures Modified(prompt, modifier, customInstruction) == prompt <==> modifier.NoModifier? && !Present(customInstruction)
  {
    assert |Modified(prompt, modifier, customInstruction)|
        == |prompt| + |ModifierText(modifier)| + |CustomText(customInstruction)|;
  }

  /** A present instruction ends the prompt, after its prefix. */
  lemma ModifiedEndsWithInstruction(prompt: string, modifier: Modifier, customInstruction: Option<string>)
    requires Present(customInstruction)
    ensures EndsWith(Modified(prompt, modifier, customInstruction), CUSTOM_PREFIX + customInstruction.value)
  {
    var t := CUSTOM_PREFIX + customInstruction.value;
    var h := prompt + ModifierText(modifier);
    assert Modified(prompt, modifier, customInstruction) == h + t;
    assert (h + t)[|h|..] == t;
  }

  /** Different modifiers give different prompts: at most one paragraph is ever appended, and which one shows. */
  lemma ModifierRecoverable(prompt: string, m1: Modifier, m2: Modifier, customInstruction: Option<string>)
    requires m1 != m2
    ensures Modified(prompt, m1, customInstruction) != Modified(prompt, m2, customInstruction)
  {
    assert |ModifierText(m1)| != |ModifierText(m2)|;
  }

  /** Different present instructions give different prompts. */
  lemma InstructionRecoverable(prompt: string, m: Modifier, c1: string, c2: string)
    requires c1 != "" && c2 != "" && c1 != c2
    ensures Modified(prompt, m, Some(c1)) != Modified(prompt, m, Some(c2))
  {
    AppendCancel(CUSTOM_PREFIX, c1, c2);
    AppendCancel(prompt + ModifierText(m), CUSTOM_PREFIX + c1, CUSTOM_PREFIX + c2);
  }

  /** A common prefix cancels. */
  lemma AppendCancel(h: string, a: string, b: string)
    ensures h + a == h + b <==> a == b
  {
    assert (h + a)[|h|..] == a;
    assert (h + b)[|h|..] == b;
  }
}
