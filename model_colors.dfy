/**
 * src/utils/modelColors.ts: the five-colour palette that comparison slots
 * cycle through, and the display labels of model slots and prompt variants.
 */
module ModelColors {
  import opened Wrappers
  import opened Strings

  /** `ModelColor`: the CSS colours of one slot. */
  datatype ModelColor = ModelColor(
    primary: string, light: string, lighter: string, border: string, text: string,
    gradientFrom: string, gradientTo: string, barGradientFrom: string, barGradientTo: string,
    focusShadow: string)

  /** `MODEL_COLORS`: blue, green, amber, red and purple. */
  const MODEL_COLORS: seq<ModelColor> := [
    ModelColor("#3b82f6", "#dbeafe", "#eff6ff", "#93c5fd", "#1d4ed8",
               "#eff6ff", "#dbeafe", "#3b82f6", "#60a5fa", "rgba(59, 130, 246, 0.1)"),
    ModelColor("#22c55e", "#dcfce7", "#f0fdf4", "#86efac", "#15803d",
               "#f0fdf4", "#dcfce7", "#34d399", "#22c55e", "rgba(34, 197, 94, 0.1)"),
    ModelColor("#f59e0b", "#fef3c7", "#fffbeb", "#fcd34d", "#b45309",
               "#fffbeb", "#fef3c7", "#f59e0b", "#fbbf24", "rgba(245, 158, 11, 0.1)"),
    ModelColor("#ef4444", "#fee2e2", "#fef2f2", "#fca5a5", "#b91c1c",
               "#fef2f2", "#fee2e2", "#ef4444", "#f87171", "rgba(239, 68, 68, 0.1)"),
    ModelColor("#8b5cf6", "#ede9fe", "#f5f3ff", "#c4b5fd", "#6d28d9",
               "#f5f3ff", "#ede9fe", "#8b5cf6", "#a78bfa", "rgba(139, 92, 246, 0.1)")
  ]

  /** JavaScript's `%`: the remainder takes the sign of the dividend. */
  function JsRemainder(a: int, b: int): (r: int)
    requires b > 0
    ensures a >= 0 ==> r == a % b
    ensures a < 0 ==> -b < r <= 0 && r == -((-a) % b)
  {
    if a >= 0 then a % b else -((-a) % b)
  }

  /**
   * `getModelColor(index)`: `MODEL_COLORS[index % 5]`. A negative index
   * gives a negative remainder, an index the array does not have, and so
   * `undefined` (`None`), except for multiples of 5, whose remainder `-0`
   * reads element 0.
   */
  function GetModelColor(index: int): (c: Option<ModelColor>)
    ensures index >= 0 ==> c == Some(MODEL_COLORS[index % |MODEL_COLORS|])
    ensures index < 0 ==> (c.Some? <==> index % |MODEL_COLORS| == 0)
    ensures c.Some? ==> c.value in MODEL_COLORS
  {
    var r := JsRemainder(index, |MODEL_COLORS|);
    if 0 <= r then Some(MODEL_COLORS[r]) else None
  }

  /** Colours repeat with period 5 over the non-negative indices. */
  lemma ColorsPeriodic(index: int)
    requires index >= 0
    ensures GetModelColor(index + |MODEL_COLORS|) == GetModelColor(index)
  {
  }

  /** The first five slots all get different colours. */
  lemma FirstFiveColorsDiffer(i: int, j: int)
    requires 0 <= i < j < |MODEL_COLORS|
    ensures GetModelColor(i) != GetModelColor(j)
  {
    var c := MODEL_COLORS;
    assert c[0].primary[1] == '3' && c[1].primary[1] == '2' && c[2].primary[1] == 'f'
        && c[3].primary[1] == 'e' && c[4].primary[1] == '8';
    assert c[i].primary[1] != c[j].primary[1];
  }

  /** The number a label shows: `index + 1`. */
  function SlotNumber(index: int): string
  {
    IntToString(index + 1)
  }

  /** `getModelLabel(index, modelName)`: `Model <n>`, with ` (<name>)` when the name is non-empty. */
  function GetModelLabel(index: int, modelName: Option<string>): (r: string)
    ensures StartsWith(r, "Model " + SlotNumber(index))
    ensures (r == "Model " + SlotNumber(index)) <==> !(modelName.Some? && modelName.value != "")
    ensures modelName.Some? && modelName.value != "" ==> EndsWith(r, " (" + modelName.value + ")")
  {
    var base := "Model " + SlotNumber(index);
    if modelName.Some? && modelName.value != "" then base + " (" + modelName.value + ")" else base
  }

  /** The number comes right after `Model ` and ends at the next space, so the label determines the slot. */
  lemma ModelLabelShowsIndex(index: int, modelName: Option<string>)
    ensures var r := GetModelLabel(index, modelName);
            |r| >= 6 && Split(r[6..], ' ')[0] == SlotNumber(index)
  {
    var r := GetModelLabel(index, modelName);
    var n := SlotNumber(index);
    assert ' ' !in n;
    if modelName.Some? && modelName.value != "" {
      assert r[6..] == n + (" (" + modelName.value + ")");
      LeadingWord(n, " (" + modelName.value + ")");
    } else {
      assert r[6..] == n + [];
      LeadingWord(n, []);
    }
  }

  /** Different slots get different model labels, whatever the names. */
  lemma ModelLabelsDiffer(i: int, j: int, a: Option<string>, b: Option<string>)
    requires i != j
    ensures GetModelLabel(i, a) != GetModelLabel(j, b)
  {
    ModelLabelShowsIndex(i, a);
    ModelLabelShowsIndex(j, b);
    IntToStringInjective(i + 1, j + 1);
  }

  /** The label a prompt variant gets when it has none of its own: `Prompt <n>`. */
  function DefaultVariantLabel(index: int): string
  {
    "Prompt " + SlotNumber(index)
  }

  /**
   * `getVariantLabel(index, variantLabel)`: `Prompt <n>`, with ` (<label>)` when
   * the label is non-empty and not that default.
   */
  function GetVariantLabel(index: int, variantLabel: Option<string>): (r: string)
    ensures StartsWith(r, DefaultVariantLabel(index))
    ensures r == DefaultVariantLabel(index) <==>
              !(variantLabel.Some? && variantLabel.value != "" && variantLabel.value != DefaultVariantLabel(index))
  {
    var d := DefaultVariantLabel(index);
    if variantLabel.Some? && variantLabel.value != "" && variantLabel.value != d then d + " (" + variantLabel.value + ")" else d
  }

  /** A custom label is shown in parentheses after the default and can be read back from the result. */
  lemma VariantLabelRecoverable(index: int, variantLabel: Option<string>)
    requires GetVariantLabel(index, variantLabel) != DefaultVariantLabel(index)
    ensures var r := GetVariantLabel(index, variantLabel);
            var d := DefaultVariantLabel(index);
            |r| == |d| + |variantLabel.value| + 3 && r[|d| + 2..|r| - 1] == variantLabel.value
  {
    var d := DefaultVariantLabel(index);
    var r := d + " (" + variantLabel.value + ")";
    assert r[|d| + 2..|r| - 1] == variantLabel.value;
  }
}
