/**
 * The pure helpers of `ReasoningOrchestrator`: choosing a model for a
 * request, building the system prompt and the framed user prompt, pulling
 * the reasoning chain out of a response, and the length-based confidence.
 */
module Reasoning {
  import opened Wrappers
  import opened PyStr
  import opened PyValue
  import opened Seqs
  import opened Dicts

  datatype ModelType = Reasoning | Reflection | Creative | Fast | Subconscious | Testing {
    function Value(): string {
      match this
      case Reasoning => "reasoning"
      case Reflection => "reflection"
      case Creative => "creative"
      case Fast => "fast"
      case Subconscious => "subconscious"
      case Testing => "testing"
    }
  }

  datatype ModelConfig = ModelConfig(
    name: string, modelType: ModelType, temperature: real, maxTokens: nat,
    vramRequirement: int, priority: int)

  /** The client's table of known models, in its declaration order. */
  function ModelConfigs(): seq<(string, ModelConfig)> {
    [ ("mistral:latest", ModelConfig("mistral:latest", Reasoning, 0.7, 2048, 8, 8)),
      ("mixtral:latest", ModelConfig("mixtral:latest", Reasoning, 0.6, 4096, 24, 9)),
      ("llama3:latest", ModelConfig("llama3:latest", Reasoning, 0.7, 2048, 16, 7)),
      ("deepseek-r1:latest", ModelConfig("deepseek-r1:latest", Reasoning, 0.6, 2048, 12, 8)),
      ("qwen3:latest", ModelConfig("qwen3:latest", Reasoning, 0.7, 2048, 12, 7)),
      ("Hudson/mamba-chat:latest", ModelConfig("Hudson/mamba-chat:latest", Subconscious, 0.7, 2048, 8, 6)) ]
  }

  const DefaultModel: string := "Hudson/mamba-chat:latest"

  /** The table's names are distinct, so it is a dictionary. */
  lemma ModelConfigsIsDictionary()
    ensures NoDup(Keys(ModelConfigs()))
  {
    var ks := Keys(ModelConfigs());
    assert ks == ["mistral:latest", "mixtral:latest", "llama3:latest", "deepseek-r1:latest", "qwen3:latest",
                  "Hudson/mamba-chat:latest"];
    assert ks[0][2] != ks[1][2];
    assert forall i, j :: 0 <= i < j < 6 && (i, j) != (0, 1) ==> ks[i][0] != ks[j][0];
  }

  // ---------------------------------------------------------------------------
  // Model selection
  // ---------------------------------------------------------------------------

  /** `can_load_model`: with no GPU information any model loads, otherwise free VRAM (GB) must cover it. */
  predicate CanLoadModel(gpuFree: Option<real>, vramRequirement: int) {
    gpuFree.None? || gpuFree.value >= vramRequirement as real
  }

  /**
   * What `_select_model_for_request` relies on: the client's configuration
   * table is a dictionary and discovery only makes its names available.
   */
  predicate ClientOk(configs: seq<(string, ModelConfig)>, available: seq<string>) {
    NoDup(Keys(configs)) && forall i :: 0 <= i < |available| ==> available[i] in Keys(configs)
  }

  function ConfigOf(configs: seq<(string, ModelConfig)>, name: string): ModelConfig
    requires name in Keys(configs)
  {
    Get(configs, name).value
  }

  /** The available models of the requested type, in table order. */
  function TypedCandidates(configs: seq<(string, ModelConfig)>, requested: ModelType, available: seq<string>): (r: seq<string>)
    ensures forall i :: 0 <= i < |r| ==> r[i] in available
    ensures forall i :: 0 <= i < |r| ==> exists j :: 0 <= j < |configs| && configs[j].0 == r[i] && configs[j].1.modelType == requested
    ensures forall j :: 0 <= j < |configs| && configs[j].0 in available && configs[j].1.modelType == requested ==> configs[j].0 in r
  {
    if configs == [] then []
    else
      var rest := TypedCandidates(configs[..|configs| - 1], requested, available);
      var last := configs[|configs| - 1];
      assert forall j :: 0 <= j < |configs| - 1 ==> configs[..|configs| - 1][j] == configs[j];
      rest + (if last.1.modelType == requested && last.0 in available then [last.0] else [])
  }

  /** The models tried: those of the requested type, or failing that every available model. */
  function Candidates(configs: seq<(string, ModelConfig)>, requested: ModelType, available: seq<string>): (r: seq<string>)
    requires ClientOk(configs, available)
    ensures forall i :: 0 <= i < |r| ==> r[i] in available && r[i] in Keys(configs)
    ensures r == [] <==> available == []
  {
    var typed := TypedCandidates(configs, requested, available);
    forall i | 0 <= i < |typed| ensures typed[i] in Keys(configs) {
      var j :| 0 <= j < |configs| && configs[j].0 == typed[i] && configs[j].1.modelType == requested;
      assert Keys(configs)[j] == typed[i];
    }
    assert typed != [] ==> typed[0] in available;
    if typed != [] then typed else available
  }

  /** Index of the first candidate whose VRAM requirement fits, if any. */
  function FirstLoadable(configs: seq<(string, ModelConfig)>, cands: seq<string>, gpuFree: Option<real>): (r: Option<nat>)
    requires forall i :: 0 <= i < |cands| ==> cands[i] in Keys(configs)
    ensures r.Some? ==> r.value < |cands| && CanLoadModel(gpuFree, ConfigOf(configs, cands[r.value]).vramRequirement)
    ensures r.Some? ==> forall j :: 0 <= j < r.value ==> !CanLoadModel(gpuFree, ConfigOf(configs, cands[j]).vramRequirement)
    ensures r.None? ==> forall j :: 0 <= j < |cands| ==> !CanLoadModel(gpuFree, ConfigOf(configs, cands[j]).vramRequirement)
  {
    if cands == [] then None
    else if CanLoadModel(gpuFree, ConfigOf(configs, cands[0]).vramRequirement) then Some(0)
    else
      var r := FirstLoadable(configs, cands[1..], gpuFree);
      if r.Some? then Some(r.value + 1) else None
  }

  /**
   * `_select_model_for_request`: the first candidate that fits in VRAM; if
   * none fits, the first candidate; with no model available at all, the
   * mamba chat model.
   */
  function SelectModel(configs: seq<(string, ModelConfig)>, requested: ModelType, available: seq<string>,
                       gpuFree: Option<real>): (r: string)
    requires ClientOk(configs, available)
    ensures available == [] ==> r == DefaultModel
    ensures available != [] ==> r in Candidates(configs, requested, available) && r in Keys(configs)
    ensures available != [] ==>
      var cands := Candidates(configs, requested, available);
      (exists i :: 0 <= i < |cands| && CanLoadModel(gpuFree, ConfigOf(configs, cands[i]).vramRequirement))
      ==> CanLoadModel(gpuFree, ConfigOf(configs, r).vramRequirement)
    ensures available != [] ==>
      var cands := Candidates(configs, requested, available);
      || (exists i :: 0 <= i < |cands| && r == cands[i] && CanLoadModel(gpuFree, ConfigOf(configs, cands[i]).vramRequirement)
            && forall j :: 0 <= j < i ==> !CanLoadModel(gpuFree, ConfigOf(configs, cands[j]).vramRequirement))
      || (r == cands[0] && forall j :: 0 <= j < |cands| ==> !CanLoadModel(gpuFree, ConfigOf(configs, cands[j]).vramRequirement))
  {
    var cands := Candidates(configs, requested, available);
    match FirstLoadable(configs, cands, gpuFree)
    case Some(i) => cands[i]
    case None => if cands != [] then cands[0] else DefaultModel
  }

  /** When some available model has the requested type, the chosen model has it too. */
  lemma SelectedHasRequestedType(configs: seq<(string, ModelConfig)>, requested: ModelType, available: seq<string>,
                                 gpuFree: Option<real>, j: int)
    requires ClientOk(configs, available)
    requires 0 <= j < |configs| && configs[j].0 in available && configs[j].1.modelType == requested
    ensures SelectModel(configs, requested, available, gpuFree) in Keys(configs)
    ensures ConfigOf(configs, SelectModel(configs, requested, available, gpuFree)).modelType == requested
  {
    var typed := TypedCandidates(configs, requested, available);
    assert configs[j].0 in typed;
    var r := SelectModel(configs, requested, available, gpuFree);
    assert r in typed;
    var k :| 0 <= k < |configs| && configs[k].0 == r && configs[k].1.modelType == requested;
    GetAtPosition(configs, k);
  }

  /** With no configured model of the requested type there is no typed candidate. */
  lemma {:induction false} NoTypedCandidates(configs: seq<(string, ModelConfig)>, requested: ModelType, available: seq<string>)
    requires forall j :: 0 <= j < |configs| ==> configs[j].1.modelType != requested
    ensures TypedCandidates(configs, requested, available) == []
  {
    if configs != [] {
      var init := configs[..|configs| - 1];
      assert forall j :: 0 <= j < |init| ==> init[j] == configs[j];
      NoTypedCandidates(init, requested, available);
    }
  }

  /** No known model has the reflection, creative, fast or testing type, so those requests take any available model. */
  lemma UntypedRequestsTakeAnyModel(requested: ModelType, available: seq<string>)
    requires requested != Reasoning && requested != Subconscious
    requires ClientOk(ModelConfigs(), available)
    ensures Candidates(ModelConfigs(), requested, available) == available
  {
    NoTypedCandidates(ModelConfigs(), requested, available);
  }

  // ---------------------------------------------------------------------------
  // Prompts
  // ---------------------------------------------------------------------------

  const ReasoningText: string :=
    "Ты - модуль логического мышления AIbox агента. \nТвоя задача - анализировать информацию, строить логические цепочки и принимать обоснованные решения.\nВсегда объясняй свои рассуждения пошагово."
  const ReflectionText: string :=
    "Ты - модуль глубокой рефлексии AIbox агента.\nТвоя задача - анализировать собственные мысли, эмоции и поведение.\nБудь честным и глубоким в самоанализе."
  const CreativeText: string :=
    "Ты - модуль творческого мышления AIbox агента.\nТвоя задача - генерировать оригинальные идеи, создавать истории и находить нестандартные решения.\nБудь креативным и вдохновляющим."
  const FastText: string :=
    "Ты - модуль быстрого мышления AIbox агента.\nТвоя задача - быстро анализировать ситуации и давать краткие, но точные ответы.\nБудь эффективным и лаконичным."
  const SubconsciousText: string :=
    "Ты - модуль подсознания AIbox агента.\nТвоя задача - обрабатывать фоновые мысли, интуитивные ощущения и глубинные паттерны.\nДействуй интуитивно и образно."

  /** The base system prompt of each type; a type without one (testing) gets the reasoning text. */
  function BasePrompt(t: ModelType): string {
    match t
    case Reflection => ReflectionText
    case Creative => CreativeText
    case Fast => FastText
    case Subconscious => SubconsciousText
    case _ => ReasoningText
  }

  const EmotionLabel: string := "\nТвое эмоциональное состояние: "
  const GoalLabel: string := "\nТвоя текущая цель: "

  /** The line a context key adds, when present. */
  function ContextLine(context: seq<(string, Value)>, key: string, caption: string): (r: string)
    ensures key !in Keys(context) ==> r == []
    ensures key in Keys(context) ==> r == caption + Str(Get(context, key).value)
  {
    match Get(context, key)
    case Some(v) => caption + Str(v)
    case None => []
  }

  /** A base text followed by the emotional-state line and the goal line of the context, when present. */
  function WithContextLines(base: string, context: Option<seq<(string, Value)>>): (r: string)
    ensures StartsWith(r, base)
    ensures r == base <==>
      (context.None? || ("emotional_state" !in Keys(context.value) && "current_goal" !in Keys(context.value)))
    ensures context.Some? && "current_goal" in Keys(context.value) ==>
      var goal := GoalLabel + Str(Get(context.value, "current_goal").value);
      |goal| <= |r| && r[|r| - |goal|..] == goal
    ensures context.Some? && "emotional_state" in Keys(context.value) ==>
      StartsWith(r[|base|..], EmotionLabel + Str(Get(context.value, "emotional_state").value))
  {
    match context
    case None => base
    case Some(c) =>
      var emotion := ContextLine(c, "emotional_state", EmotionLabel);
      var goal := ContextLine(c, "current_goal", GoalLabel);
      var r := base + emotion + goal;
      assert r[..|base|] == base;
      assert r[|base|..] == emotion + goal;
      assert r[|r| - |goal|..] == goal;
      assert |emotion + goal| > 0 <== emotion != [] || goal != [];
      r
  }

  /**
   * `_build_system_prompt`: the type's base text (the reasoning text for a
   * type without one), then the emotional-state line and then the goal line,
   * each only when its key is in the context.
   */
  function SystemPrompt(t: ModelType, context: Option<seq<(string, Value)>>): (r: string)
    ensures StartsWith(r, BasePrompt(t))
    ensures r == BasePrompt(t) <==>
      (context.None? || ("emotional_state" !in Keys(context.value) && "current_goal" !in Keys(context.value)))
  {
    WithContextLines(BasePrompt(t), context)
  }

  /** A testing request has no system text of its own and gets the reasoning one. */
  lemma TestingUsesReasoningText()
    ensures BasePrompt(Testing) == BasePrompt(Reasoning)
  {
  }

  /** The text placed before and after the user prompt for the framed types. */
  function Framing(t: ModelType): Option<(string, string)> {
    match t
    case Reasoning => Some((
      "Проанализируй следующий запрос и дай обоснованный ответ:\n\nЗАПРОС: ",
      "\n\nРАССУЖДЕНИЕ:\n1. Сначала определи суть вопроса\n2. Проанализируй возможные подходы\n3. Выбери наиболее логичное решение\n4. Объясни свои рассуждения\n\nОТВЕТ:"))
    case Reflection => Some((
      "Проведи глубокую рефлексию по поводу:\n\n",
      "\n\nРЕФЛЕКСИЯ:\n1. Что я чувствую по этому поводу?\n2. Какие мысли это вызывает?\n3. Что это говорит обо мне?\n4. Как это влияет на мое понимание себя?\n\nРАЗМЫШЛЕНИЯ:"))
    case Creative => Some((
      "Создай что-то творческое на основе:\n\n",
      "\n\nТВОРЧЕСКИЙ ПРОЦЕСС:\n1. Вдохновись идеей\n2. Развивай оригинальные мысли\n3. Создавай неожиданные связи\n4. Выражай креативно\n\nРЕЗУЛЬТАТ:"))
    case _ => None
  }

  /** `head + body + tail`, with each part recoverable by position. */
  function Framed(head: string, body: string, tail: string): (r: string)
    ensures |r| == |head| + |body| + |tail|
    ensures StartsWith(r, head) && r[|head|..|head| + |body|] == body && r[|head| + |body|..] == tail
  {
    var r := head + body + tail;
    assert r[..|head|] == head;
    assert r[|head|..|head| + |body|] == body;
    r
  }

  /**
   * `_build_reasoning_prompt`: reasoning, reflection and creative requests
   * get the user prompt framed by their template; any other type passes it
   * through unchanged.
   */
  function ReasoningPrompt(userPrompt: string, t: ModelType): (r: string)
    ensures Framing(t).None? ==> r == userPrompt
    ensures Framing(t).Some? ==> r == Framed(Framing(t).value.0, userPrompt, Framing(t).value.1)
  {
    match Framing(t)
    case None => userPrompt
    case Some((head, tail)) => Framed(head, userPrompt, tail)
  }

  /** Different user prompts give different framed prompts: the framing loses nothing. */
  lemma ReasoningPromptInjective(u1: string, u2: string, t: ModelType)
    requires ReasoningPrompt(u1, t) == ReasoningPrompt(u2, t)
    ensures u1 == u2
  {
    if Framing(t).Some? {
      FramedInjective(Framing(t).value.0, u1, u2, Framing(t).value.1);
    }
  }

  lemma FramedInjective(head: string, u1: string, u2: string, tail: string)
    requires Framed(head, u1, tail) == Framed(head, u2, tail)
    ensures u1 == u2
  {
    assert |u1| == |u2|;
  }

  // ---------------------------------------------------------------------------
  // Reasoning chain and confidence
  // ---------------------------------------------------------------------------

  const StepMarkers: seq<string> := ["1.", "2.", "3.", "4.", "5.", "РАССУЖДЕНИЕ:", "РЕФЛЕКСИЯ:", "ТВОРЧЕСКИЙ ПРОЦЕСС:"]

  /** `line.startswith(prefixes)` for a tuple of prefixes. */
  predicate StartsWithAny(line: string, prefixes: seq<string>) {
    exists i :: 0 <= i < |prefixes| && StartsWith(line, prefixes[i])
  }

  /** The stripped lines that start with one of the markers, in order. */
  function Steps(lines: seq<string>, markers: seq<string>): (r: seq<string>)
    ensures |r| <= |lines|
    ensures forall i :: 0 <= i < |r| ==> StartsWithAny(r[i], markers)
    ensures forall i :: 0 <= i < |r| ==> exists j :: 0 <= j < |lines| && r[i] == Strip(lines[j])
  {
    if lines == [] then []
    else
      var rest := Steps(lines[..|lines| - 1], markers);
      var line := Strip(lines[|lines| - 1]);
      assert forall j :: 0 <= j < |lines| - 1 ==> lines[..|lines| - 1][j] == lines[j];
      rest + (if StartsWithAny(line, markers) then [line] else [])
  }

  /** Every line that starts with a marker once stripped is kept. */
  lemma {:induction false} StepsComplete(lines: seq<string>, markers: seq<string>, j: int)
    requires 0 <= j < |lines| && StartsWithAny(Strip(lines[j]), markers)
    ensures Strip(lines[j]) in Steps(lines, markers)
  {
    if j < |lines| - 1 {
      assert lines[..|lines| - 1][j] == lines[j];
      StepsComplete(lines[..|lines| - 1], markers, j);
    }
  }

  /** The steps of consecutive blocks of lines come in the blocks' order. */
  lemma {:induction false} StepsAppend(a: seq<string>, b: seq<string>, markers: seq<string>)
    ensures Steps(a + b, markers) == Steps(a, markers) + Steps(b, markers)
    decreases |b|
  {
    if b == [] {
      assert a + b == a;
    } else {
      assert (a + b)[..|a + b| - 1] == a + b[..|b| - 1];
      assert (a + b)[|a + b| - 1] == b[|b| - 1];
      StepsAppend(a, b[..|b| - 1], markers);
    }
  }

  lemma StepsSnoc(lines: seq<string>, i: int, markers: seq<string>)
    requires 0 <= i < |lines|
    ensures Steps(lines[..i + 1], markers)
      == Steps(lines[..i], markers) + (if StartsWithAny(Strip(lines[i]), markers) then [Strip(lines[i])] else [])
  {
    assert lines[..i + 1][..i] == lines[..i];
  }

  /** The fallback chain: the first 200 characters of the response, then an ellipsis. */
  function Fallback(content: string): string {
    Take(content, 200) + "..."
  }

  /**
   * `_extract_reasoning_chain`'s result: the stripped lines that start with
   * a step number 1-5 or a section header, or the fallback when there are none.
   */
  function ReasoningChain(content: string): (r: seq<string>)
    ensures r != []
    ensures Steps(SplitOn(content, '\n'), StepMarkers) != [] ==> r == Steps(SplitOn(content, '\n'), StepMarkers)
    ensures Steps(SplitOn(content, '\n'), StepMarkers) != [] ==> forall i :: 0 <= i < |r| ==> StartsWithAny(r[i], StepMarkers)
    ensures Steps(SplitOn(content, '\n'), StepMarkers) == [] ==> r == [Fallback(content)]
  {
    var steps := Steps(SplitOn(content, '\n'), StepMarkers);
    if steps == [] then [Fallback(content)] else steps
  }

  /** `_extract_reasoning_chain`: walks the response's lines, keeping the stripped step lines. */
  method ExtractReasoningChain(content: string) returns (r: seq<string>)
    ensures r == ReasoningChain(content)
  {
    var lines := SplitOn(content, '\n');
    var steps: seq<string> := [];
    var i := 0;
    while i < |lines|
      invariant 0 <= i <= |lines|
      invariant steps == Steps(lines[..i], StepMarkers)
    {
      var line := Strip(lines[i]);
      StepsSnoc(lines, i, StepMarkers);
      if StartsWithAny(line, StepMarkers) {
        steps := steps + [line];
      }
      i := i + 1;
    }
    assert lines[..i] == lines;
    r := if steps != [] then steps else [Fallback(content)];
  }

  /** `_calculate_confidence`: 0.3 under 50 characters, 0.9 over 500, else 0.6. */
  function Confidence(content: string): (r: real)
    ensures r == 0.3 || r == 0.6 || r == 0.9
    ensures r == 0.3 <==> |content| < 50
    ensures r == 0.9 <==> |content| > 500
  {
    if |content| < 50 then 0.3 else if |content| > 500 then 0.9 else 0.6
  }

  /** A longer response never gets a lower confidence. */
  lemma ConfidenceMonotone(a: string, b: string)
    requires |a| <= |b|
    ensures Confidence(a) <= Confidence(b)
  {
  }
}
