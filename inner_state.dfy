/**
 * `InnerStateModule`: the agent's current emotional, cognitive and
 * motivational state with its clamped levels, the counters of state
 * transitions, the bounded history of snapshots, and the bounded log of
 * self-evaluations.
 */
module InnerState {
  import opened Bounded
  import opened Seqs
  import opened Levels

  /** `max_history_length`. */
  const MaxHistoryLength: nat := 1000
  /** The reflection log keeps its last 100 entries. */
  const ReflectionCap: nat := 100
  /** `add_thought` keeps the last 10 thoughts. */
  const ThoughtCap: nat := 10

  datatype EmotionalState = Neutral | Curious | Focused | Confused | Satisfied | Frustrated | Confident | Uncertain
  {
    function Value(): string {
      match this
      case Neutral => "neutral"
      case Curious => "curious"
      case Focused => "focused"
      case Confused => "confused"
      case Satisfied => "satisfied"
      case Frustrated => "frustrated"
      case Confident => "confident"
      case Uncertain => "uncertain"
    }
  }

  datatype CognitiveState = Idle | Processing | Learning | ProblemSolving | Reflecting | Planning | Executing
  {
    function Value(): string {
      match this
      case Idle => "idle"
      case Processing => "processing"
      case Learning => "learning"
      case ProblemSolving => "problem_solving"
      case Reflecting => "reflecting"
      case Planning => "planning"
      case Executing => "executing"
    }
  }

  datatype MotivationLevel = Low | Medium | High | VeryHigh
  {
    function Value(): (v: nat)
      ensures 1 <= v <= 4
    {
      match this
      case Low => 1
      case Medium => 2
      case High => 3
      case VeryHigh => 4
    }
  }

  /** The values the module stores in a snapshot's `metadata`: a reason text or a list of texts. */
  datatype MetaValue = Text(text: string) | Texts(items: seq<string>)

  /** `InnerStateSnapshot`. */
  datatype Snapshot = Snapshot(
    timestamp: Time, emotionalState: EmotionalState, cognitiveState: CognitiveState,
    motivationLevel: MotivationLevel, attentionFocus: string,
    energyLevel: real, stressLevel: real, confidenceLevel: real, learningRate: real,
    contextAwareness: real, selfEvaluationScore: real,
    currentThoughts: seq<string>, activeConcerns: seq<string>, metadata: map<string, MetaValue>)

  /** A fresh `InnerStateSnapshot()`; an empty `attentionFocus` stands for None. */
  function InitialSnapshot(now: Time): Snapshot {
    Snapshot(now, Neutral, Idle, Medium, "", 1.0, 0.0, 0.5, 0.5, 0.5, 0.5, [], [], map[])
  }

  /** What every snapshot the module produces satisfies. */
  predicate LevelsInUnit(s: Snapshot) {
    && 0.0 <= s.energyLevel <= 1.0 && 0.0 <= s.stressLevel <= 1.0
    && 0.0 <= s.confidenceLevel <= 1.0 && 0.0 <= s.selfEvaluationScore <= 1.0
  }

  /** `if reason: metadata[key] = reason` (an empty text is falsy). */
  function Noted(md: map<string, MetaValue>, key: string, text: string): map<string, MetaValue> {
    if text == "" then md else md[key := Text(text)]
  }

  /** The stressors recorded so far. */
  function Stressors(md: map<string, MetaValue>): seq<string> {
    if "stressors" in md && md["stressors"].Texts? then md["stressors"].items else []
  }

  // ---------------------------------------------------------------------------
  // Transition counters
  // ---------------------------------------------------------------------------

  function EmotionalTransition(from: EmotionalState, to: EmotionalState): string {
    from.Value() + " -> " + to.Value()
  }

  function CognitiveTransition(from: CognitiveState, to: CognitiveState): string {
    "cognitive: " + from.Value() + " -> " + to.Value()
  }

  /** `counts[key] = counts.get(key, 0) + 1`. */
  function Bump(counts: map<string, nat>, key: string): (r: map<string, nat>)
    ensures r.Keys == counts.Keys + {key}
    ensures r[key] == (if key in counts then counts[key] else 0) + 1
    ensures forall k :: k in counts && k != key ==> r[k] == counts[k]
  {
    counts[key := (if key in counts then counts[key] else 0) + 1]
  }

  /** No emotional transition shares its counter with a cognitive one. */
  lemma TransitionKeysDistinct(a: EmotionalState, b: EmotionalState, c: CognitiveState, d: CognitiveState)
    ensures EmotionalTransition(a, b) != CognitiveTransition(c, d)
  {
    var v := a.Value();
    EmotionalNotCognitive(a);
    var e := EmotionalTransition(a, b);
    var k := CognitiveTransition(c, d);
    assert e[0] == v[0] && e[1] == v[1] && e[2] == v[2];
    assert k[0] == 'c' && k[1] == 'o' && k[2] == 'g';
  }

  /** No emotional state's name starts with "cog". */
  lemma EmotionalNotCognitive(a: EmotionalState)
    ensures |a.Value()| >= 3 && (a.Value()[0] != 'c' || a.Value()[1] != 'o' || a.Value()[2] != 'g')
  {
    match a
    case Neutral => assert a.Value()[0] == 'n';
    case Curious => assert a.Value()[1] == 'u';
    case Focused => assert a.Value()[0] == 'f';
    case Confused => assert a.Value()[2] == 'n';
    case Satisfied => assert a.Value()[0] == 's';
    case Frustrated => assert a.Value()[0] == 'f';
    case Confident => assert a.Value()[2] == 'n';
    case Uncertain => assert a.Value()[0] == 'u';
  }

  // ---------------------------------------------------------------------------
  // Self-evaluation
  // ---------------------------------------------------------------------------

  /** The five factors `self_evaluate` weighs. */
  datatype Factors = Factors(energy: real, confidence: real, stress: real, motivation: real, concerns: real)

  function FactorsOf(s: Snapshot): (f: Factors)
    ensures LevelsInUnit(s) ==> 0.0 <= f.energy <= 1.0 && 0.0 <= f.confidence <= 1.0 && 0.0 <= f.stress <= 1.0
    ensures 0.25 <= f.motivation <= 1.0 && 0.0 <= f.concerns <= 1.0
    ensures f.concerns == 0.0 <==> |s.activeConcerns| >= 10
  {
    Factors(s.energyLevel, s.confidenceLevel, 1.0 - s.stressLevel,
            s.motivationLevel.Value() as real / 4.0,
            AtLeastZero(1.0 - |s.activeConcerns| as real / 10.0))
  }

  /** The weights 0.2, 0.3, 0.2, 0.2 and 0.1, which sum to 1. */
  function Weighted(f: Factors): real {
    f.energy * 0.2 + f.confidence * 0.3 + f.stress * 0.2 + f.motivation * 0.2 + f.concerns * 0.1
  }

  /**
   * The score of `self_evaluate`: in [0, 1] whenever the levels are, at least
   * 0.05 (the motivation factor is at least 1/4), and rising with energy and
   * confidence and falling with stress.
   */
  function Evaluation(s: Snapshot): (score: real)
    ensures LevelsInUnit(s) ==> 0.05 <= score <= 1.0
  {
    Weighted(FactorsOf(s))
  }

  /** More energy or confidence, or less stress, never lowers the score. */
  lemma EvaluationMonotone(s: Snapshot, t: Snapshot)
    requires t == s.(energyLevel := t.energyLevel, stressLevel := t.stressLevel, confidenceLevel := t.confidenceLevel)
    requires t.energyLevel >= s.energyLevel && t.stressLevel <= s.stressLevel && t.confidenceLevel >= s.confidenceLevel
    ensures Evaluation(t) >= Evaluation(s)
  {
  }

  datatype Reflection = Reflection(timestamp: Time, context: string, evaluationScore: real,
                                   factors: Factors, state: Snapshot)

  // ---------------------------------------------------------------------------
  // Pattern analysis
  // ---------------------------------------------------------------------------

  /** Every concern of every snapshot, in history order. */
  function AllConcerns(history: seq<Snapshot>): seq<string> {
    if history == [] then [] else AllConcerns(history[..|history| - 1]) + history[|history| - 1].activeConcerns
  }

  /** The counter dictionary `_analyze_concerns` builds, one increment per occurrence. */
  function Frequencies(xs: seq<string>): (m: map<string, nat>)
    ensures m.Keys == set x | x in xs
  {
    if xs == [] then map[] else Bump(Frequencies(xs[..|xs| - 1]), xs[|xs| - 1])
  }

  function Occurrences(xs: seq<string>, x: string): nat {
    if xs == [] then 0 else Occurrences(xs[..|xs| - 1], x) + (if xs[|xs| - 1] == x then 1 else 0)
  }

  /** Each counter is the number of occurrences of its concern. */
  lemma {:induction false} FrequenciesCount(xs: seq<string>, x: string)
    requires x in xs
    ensures Frequencies(xs)[x] == Occurrences(xs, x)
  {
    var init := xs[..|xs| - 1];
    if x in init {
      FrequenciesCount(init, x);
    } else {
      assert x == xs[|xs| - 1];
      OccurrencesAbsent(init, x);
    }
  }

  lemma {:induction false} OccurrencesAbsent(xs: seq<string>, x: string)
    requires x !in xs
    ensures Occurrences(xs, x) == 0
  {
    if xs != [] {
      assert x !in xs[..|xs| - 1];
      OccurrencesAbsent(xs[..|xs| - 1], x);
    }
  }

  lemma {:induction false} OccurrencesAppend(xs: seq<string>, ys: seq<string>, x: string)
    ensures Occurrences(xs + ys, x) == Occurrences(xs, x) + Occurrences(ys, x)
  {
    if ys != [] {
      assert (xs + ys)[..|xs + ys| - 1] == xs + ys[..|ys| - 1];
      OccurrencesAppend(xs, ys[..|ys| - 1], x);
    } else {
      assert xs + ys == xs;
    }
  }

  lemma {:induction false} OccurrencesNoDup(xs: seq<string>, x: string)
    requires NoDup(xs)
    ensures Occurrences(xs, x) == if x in xs then 1 else 0
  {
    if xs != [] {
      var init := xs[..|xs| - 1];
      assert NoDup(init);
      OccurrencesNoDup(init, x);
      assert xs == init + [xs[|xs| - 1]];
      assert xs[|xs| - 1] !in init;
    }
  }

  /** How many snapshots of `history` list `c` among their concerns. */
  function SnapshotsWith(history: seq<Snapshot>, c: string): nat {
    if history == [] then 0
    else SnapshotsWith(history[..|history| - 1], c) + (if c in history[|history| - 1].activeConcerns then 1 else 0)
  }

  /**
   * Concerns never repeat within a snapshot, so the frequency of a concern is
   * the number of snapshots in which it was active.
   */
  lemma {:induction false} ConcernFrequencyIsSnapshotCount(history: seq<Snapshot>, c: string)
    requires forall i :: 0 <= i < |history| ==> NoDup(history[i].activeConcerns)
    ensures Occurrences(AllConcerns(history), c) == SnapshotsWith(history, c)
  {
    if history != [] {
      var init := history[..|history| - 1];
      var last := history[|history| - 1];
      ConcernFrequencyIsSnapshotCount(init, c);
      OccurrencesAppend(AllConcerns(init), last.activeConcerns, c);
      OccurrencesNoDup(last.activeConcerns, c);
    }
  }

  /** One more concern of the snapshot being counted. */
  lemma CountOneMore(seen: seq<string>, concerns: seq<string>, j: nat)
    requires j < |concerns|
    ensures Frequencies(seen + concerns[..j + 1]) == Bump(Frequencies(seen + concerns[..j]), concerns[j])
  {
    assert seen + concerns[..j + 1] == (seen + concerns[..j]) + [concerns[j]];
    FrequenciesSnoc(seen + concerns[..j], concerns[j]);
  }

  /** Counting one more occurrence bumps its counter. */
  lemma FrequenciesSnoc(xs: seq<string>, x: string)
    ensures Frequencies(xs + [x]) == Bump(Frequencies(xs), x)
  {
    assert (xs + [x])[..|xs|] == xs;
  }

  /** The concerns of the first `i + 1` snapshots follow those of the first `i`. */
  lemma NextSnapshot(history: seq<Snapshot>, i: nat)
    requires i < |history|
    ensures AllConcerns(history[..i + 1]) == AllConcerns(history[..i]) + history[i].activeConcerns[..|history[i].activeConcerns|]
  {
    assert history[..i + 1][..i] == history[..i];
    assert history[i].activeConcerns[..|history[i].activeConcerns|] == history[i].activeConcerns;
  }

  function SumEnergy(h: seq<Snapshot>): real {
    if h == [] then 0.0 else SumEnergy(h[..|h| - 1]) + h[|h| - 1].energyLevel
  }

  function SumStress(h: seq<Snapshot>): real {
    if h == [] then 0.0 else SumStress(h[..|h| - 1]) + h[|h| - 1].stressLevel
  }

  function SumConfidence(h: seq<Snapshot>): real {
    if h == [] then 0.0 else SumConfidence(h[..|h| - 1]) + h[|h| - 1].confidenceLevel
  }

  lemma {:induction false} SumsBounded(h: seq<Snapshot>)
    requires forall i :: 0 <= i < |h| ==> LevelsInUnit(h[i])
    ensures 0.0 <= SumEnergy(h) <= |h| as real
    ensures 0.0 <= SumStress(h) <= |h| as real
    ensures 0.0 <= SumConfidence(h) <= |h| as real
  {
    if h != [] {
      SumsBounded(h[..|h| - 1]);
      assert LevelsInUnit(h[|h| - 1]);
    }
  }

  lemma MeanInUnit(s: real, n: nat)
    requires n >= 1 && 0.0 <= s <= n as real
    ensures 0.0 <= s / n as real <= 1.0
  {
  }

  /** The result of `analyze_state_patterns`, without the most common states. */
  datatype Analysis =
    | InsufficientData(message: string)
    | Patterns(totalStates: nat, stateTransitions: map<string, nat>, averageEnergy: real,
               averageStress: real, averageConfidence: real, concernsFrequency: map<string, nat>)

  /**
   * `analyze_state_patterns`: fewer than two snapshots give the message;
   * otherwise the means of the three levels over the history, which are in
   * [0, 1] when the levels are, and the frequency of every concern in it.
   */
  function PatternsOf(history: seq<Snapshot>, transitions: map<string, nat>): (r: Analysis)
    ensures r.InsufficientData? <==> |history| < 2
    ensures r.Patterns? ==> r.totalStates == |history| && r.stateTransitions == transitions
    ensures r.Patterns? && (forall i :: 0 <= i < |history| ==> LevelsInUnit(history[i])) ==>
      0.0 <= r.averageEnergy <= 1.0 && 0.0 <= r.averageStress <= 1.0 && 0.0 <= r.averageConfidence <= 1.0
    ensures r.Patterns? ==> r.concernsFrequency == Frequencies(AllConcerns(history))
    ensures r.Patterns? ==> forall c :: c in r.concernsFrequency ==> c in AllConcerns(history)
    ensures r.Patterns? ==>
      && r.averageEnergy == SumEnergy(history) / |history| as real
      && r.averageStress == SumStress(history) / |history| as real
      && r.averageConfidence == SumConfidence(history) / |history| as real
  {
    if |history| < 2 then InsufficientData("Недостаточно данных для анализа")
    else
      var n := |history|;
      var r := Patterns(n, transitions, SumEnergy(history) / n as real, SumStress(history) / n as real,
                        SumConfidence(history) / n as real, Frequencies(AllConcerns(history)));
      if forall i :: 0 <= i < |history| ==> LevelsInUnit(history[i]) then
        SumsBounded(history);
        MeanInUnit(SumEnergy(history), n);
        MeanInUnit(SumStress(history), n);
        MeanInUnit(SumConfidence(history), n);
        r
      else
        r
  }

  // ---------------------------------------------------------------------------
  // The module
  // ---------------------------------------------------------------------------

  class InnerStateModule {
    var currentState: Snapshot
    var stateHistory: seq<Snapshot>
    var stateTransitions: map<string, nat>
    var reflectionLog: seq<Reflection>

    /** What every operation keeps: levels in [0, 1], bounded lists, no repeated concern. */
    ghost predicate Valid()
      reads this
    {
      && LevelsInUnit(currentState)
      && |currentState.currentThoughts| <= ThoughtCap
      && NoDup(currentState.activeConcerns)
      && |stateHistory| <= MaxHistoryLength
      && (forall i :: 0 <= i < |stateHistory| ==> LevelsInUnit(stateHistory[i]) && NoDup(stateHistory[i].activeConcerns))
      && |reflectionLog| <= ReflectionCap
    }

    constructor (now: Time)
      ensures Valid()
      ensures currentState == InitialSnapshot(now)
      ensures stateHistory == [] && stateTransitions == map[] && reflectionLog == []
    {
      currentState := InitialSnapshot(now);
      stateHistory := [];
      stateTransitions := map[];
      reflectionLog := [];
    }

    /** `_save_state_snapshot`: append a copy of the current state and keep the last 1000. */
    method SaveStateSnapshot()
      requires Valid()
      modifies this`stateHistory
      ensures Valid()
      ensures stateHistory == KeepLast(old(stateHistory) + [currentState], MaxHistoryLength)
    {
      stateHistory := stateHistory + [currentState];
      if |stateHistory| > MaxHistoryLength {
        stateHistory := stateHistory[|stateHistory| - MaxHistoryLength..];
      }
    }

    method UpdateEmotionalState(newState: EmotionalState, reason: string)
      requires Valid()
      modifies this`currentState, this`stateTransitions, this`stateHistory
      ensures Valid()
      ensures currentState == old(currentState).(emotionalState := newState,
        metadata := Noted(old(currentState).metadata, "emotional_change_reason", reason))
      ensures stateTransitions == Bump(old(stateTransitions), EmotionalTransition(old(currentState).emotionalState, newState))
      ensures stateHistory == KeepLast(old(stateHistory) + [currentState], MaxHistoryLength)
    {
      var oldState := currentState.emotionalState;
      currentState := currentState.(emotionalState := newState);
      var transition := EmotionalTransition(oldState, newState);
      stateTransitions := stateTransitions[transition := (if transition in stateTransitions then stateTransitions[transition] else 0) + 1];
      if reason != "" {
        currentState := currentState.(metadata := currentState.metadata["emotional_change_reason" := Text(reason)]);
      }
      SaveStateSnapshot();
    }

    method UpdateCognitiveState(newState: CognitiveState, context: string)
      requires Valid()
      modifies this`currentState, this`stateTransitions, this`stateHistory
      ensures Valid()
      ensures currentState == old(currentState).(cognitiveState := newState,
        attentionFocus := if context != "" then context else old(currentState).attentionFocus)
      ensures stateTransitions == Bump(old(stateTransitions), CognitiveTransition(old(currentState).cognitiveState, newState))
      ensures stateHistory == KeepLast(old(stateHistory) + [currentState], MaxHistoryLength)
    {
      var oldState := currentState.cognitiveState;
      currentState := currentState.(cognitiveState := newState);
      if context != "" {
        currentState := currentState.(attentionFocus := context);
      }
      var transition := CognitiveTransition(oldState, newState);
      stateTransitions := stateTransitions[transition := (if transition in stateTransitions then stateTransitions[transition] else 0) + 1];
      SaveStateSnapshot();
    }

    method UpdateMotivation(level: MotivationLevel, factors: seq<string>)
      requires Valid()
      modifies this`currentState, this`stateHistory
      ensures Valid()
      ensures currentState == old(currentState).(motivationLevel := level,
        metadata := if factors != [] then old(currentState).metadata["motivation_factors" := Texts(factors)] else old(currentState).metadata)
      ensures stateHistory == KeepLast(old(stateHistory) + [currentState], MaxHistoryLength)
    {
      currentState := currentState.(motivationLevel := level);
      if factors != [] {
        currentState := currentState.(metadata := currentState.metadata["motivation_factors" := Texts(factors)]);
      }
      SaveStateSnapshot();
    }

    /** `adjust_energy_level`: whatever `delta`, the energy stays in [0, 1]. */
    method AdjustEnergyLevel(delta: real, reason: string)
      requires Valid()
      modifies this`currentState, this`stateHistory
      ensures Valid()
      ensures currentState == old(currentState).(energyLevel := Clamp01(old(currentState).energyLevel + delta),
        metadata := Noted(old(currentState).metadata, "energy_change_reason", reason))
      ensures stateHistory == KeepLast(old(stateHistory) + [currentState], MaxHistoryLength)
    {
      var oldEnergy := currentState.energyLevel;
      currentState := currentState.(energyLevel := Clamp01(oldEnergy + delta));
      if reason != "" {
        currentState := currentState.(metadata := currentState.metadata["energy_change_reason" := Text(reason)]);
      }
      SaveStateSnapshot();
    }

    /** `adjust_stress_level`: whatever `delta`, the stress stays in [0, 1]; a stressor is appended to the list. */
    method AdjustStressLevel(delta: real, stressor: string)
      requires Valid()
      modifies this`currentState, this`stateHistory
      ensures Valid()
      ensures currentState == old(currentState).(stressLevel := Clamp01(old(currentState).stressLevel + delta),
        metadata := if stressor != "" then old(currentState).metadata["stressors" := Texts(Stressors(old(currentState).metadata) + [stressor])]
                    else old(currentState).metadata)
      ensures stateHistory == KeepLast(old(stateHistory) + [currentState], MaxHistoryLength)
    {
      var oldStress := currentState.stressLevel;
      currentState := currentState.(stressLevel := Clamp01(oldStress + delta));
      if stressor != "" {
        var stressors := Stressors(currentState.metadata);
        currentState := currentState.(metadata := currentState.metadata["stressors" := Texts(stressors + [stressor])]);
      }
      SaveStateSnapshot();
    }

    /** `update_confidence`: the new level is clamped to [0, 1]. */
    method UpdateConfidence(newLevel: real, context: string)
      requires Valid()
      modifies this`currentState, this`stateHistory
      ensures Valid()
      ensures currentState == old(currentState).(confidenceLevel := Clamp01(newLevel),
        metadata := Noted(old(currentState).metadata, "confidence_context", context))
      ensures stateHistory == KeepLast(old(stateHistory) + [currentState], MaxHistoryLength)
    {
      currentState := currentState.(confidenceLevel := Clamp01(newLevel));
      if context != "" {
        currentState := currentState.(metadata := currentState.metadata["confidence_context" := Text(context)]);
      }
      SaveStateSnapshot();
    }

    /** `add_thought`: the ten most recent thoughts, in order; no snapshot is taken. */
    method AddThought(thought: string)
      requires Valid()
      modifies this`currentState
      ensures Valid()
      ensures currentState == old(currentState).(currentThoughts := KeepLast(old(currentState).currentThoughts + [thought], ThoughtCap))
    {
      currentState := currentState.(currentThoughts := currentState.currentThoughts + [thought]);
      if |currentState.currentThoughts| > ThoughtCap {
        var ts := currentState.currentThoughts;
        currentState := currentState.(currentThoughts := ts[|ts| - ThoughtCap..]);
      }
    }

    /** `add_concern`: a concern already active is not added again; no snapshot is taken. */
    method AddConcern(concern: string)
      requires Valid()
      modifies this`currentState
      ensures Valid()
      ensures currentState == old(currentState).(activeConcerns := AppendUnique(old(currentState).activeConcerns, concern))
    {
      if concern !in currentState.activeConcerns {
        currentState := currentState.(activeConcerns := currentState.activeConcerns + [concern]);
      }
    }

    /** `resolve_concern`: removes the concern when active, otherwise changes nothing. */
    method ResolveConcern(concern: string)
      requires Valid()
      modifies this`currentState
      ensures Valid()
      ensures currentState == old(currentState).(activeConcerns := RemoveFirst(old(currentState).activeConcerns, concern))
      ensures concern !in currentState.activeConcerns
    {
      if concern in currentState.activeConcerns {
        currentState := currentState.(activeConcerns := RemoveFirst(currentState.activeConcerns, concern));
      }
    }

    /** `self_evaluate`: stores and returns the weighted score, and logs it (last 100 kept). */
    method SelfEvaluate(context: string, now: Time) returns (score: real)
      requires Valid()
      modifies this`currentState, this`reflectionLog
      ensures Valid()
      ensures score == Evaluation(old(currentState)) && 0.05 <= score <= 1.0
      ensures currentState == old(currentState).(selfEvaluationScore := score)
      ensures reflectionLog == KeepLast(old(reflectionLog) + [Reflection(now, context, score, FactorsOf(old(currentState)), currentState)], ReflectionCap)
    {
      var factors := FactorsOf(currentState);
      score := Weighted(factors);
      assert score == Evaluation(currentState);
      currentState := currentState.(selfEvaluationScore := score);
      reflectionLog := reflectionLog + [Reflection(now, context, score, factors, currentState)];
      if |reflectionLog| > ReflectionCap {
        reflectionLog := reflectionLog[|reflectionLog| - ReflectionCap..];
      }
    }

    /** `_analyze_concerns`: count every concern of every snapshot. */
    method AnalyzeConcerns() returns (counts: map<string, nat>)
      ensures counts == Frequencies(AllConcerns(stateHistory))
    {
      counts := map[];
      var i := 0;
      while i < |stateHistory|
        invariant i <= |stateHistory|
        invariant counts == Frequencies(AllConcerns(stateHistory[..i]))
      {
        var concerns := stateHistory[i].activeConcerns;
        ghost var seen := AllConcerns(stateHistory[..i]);
        assert seen + concerns[..0] == seen;
        var j := 0;
        while j < |concerns|
          invariant j <= |concerns|
          invariant counts == Frequencies(seen + concerns[..j])
        {
          var c := concerns[j];
          CountOneMore(seen, concerns, j);
          counts := Bump(counts, c);
          j := j + 1;
        }
        NextSnapshot(stateHistory, i);
        i := i + 1;
      }
      assert stateHistory[..i] == stateHistory;
    }

    /** `analyze_state_patterns`. */
    method AnalyzeStatePatterns() returns (r: Analysis)
      ensures r == PatternsOf(stateHistory, stateTransitions)
    {
      if |stateHistory| < 2 {
        return InsufficientData("Недостаточно данных для анализа");
      }
      var concerns := AnalyzeConcerns();
      var n := |stateHistory|;
      r := Patterns(n, stateTransitions, SumEnergy(stateHistory) / n as real, SumStress(stateHistory) / n as real,
                    SumConfidence(stateHistory) / n as real, concerns);
    }
  }

  /** The snapshot of each update is its new state, so the latest snapshot is the current state. */
  lemma LatestSnapshotIsCurrent(history: seq<Snapshot>, s: Snapshot)
    ensures var h := KeepLast(history + [s], MaxHistoryLength); |h| >= 1 && h[|h| - 1] == s
  {
  }
}
