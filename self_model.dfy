/**
 * The self-model: reflections with their deduplicated insight and action
 * lists, the personality profile (traits and values moved in capped steps
 * inside [0, 1]), the motivation system (keyword-driven motivation for an
 * action and its adjustment after an outcome), and the parts of
 * `SelfModelModule` that compute with them: motivation for a goal, the role
 * understanding, self-confidence, recent performance and the bounded
 * development log.
 */
module SelfModel {
  import opened Wrappers
  import opened PyStr
  import opened PyValue
  import opened Levels
  import opened Bounded
  import opened Ordering
  import opened Seqs
  import opened Dicts

  /** The development log keeps its last 500 events. */
  const DevelopmentLogCap: nat := 500

  // ---------------------------------------------------------------------------
  // Reflections
  // ---------------------------------------------------------------------------

  /** `SelfReflection`: one reflection whose insight and action lists grow in place. */
  class SelfReflection {
    const topic: string
    const content: string
    const timestamp: Time
    var insights: seq<string>
    var actionItems: seq<string>
    /** In [-1, 1]. */
    var emotionalImpact: real
    /** In [0, 1]. */
    var learningValue: real

    /** Neither list ever holds the same text twice. */
    predicate Valid()
      reads this
    {
      NoDup(insights) && NoDup(actionItems)
    }

    constructor (topic: string, content: string, now: Time)
      ensures Valid()
      ensures this.topic == topic && this.content == content && timestamp == now
      ensures insights == [] && actionItems == []
      ensures emotionalImpact == 0.0 && learningValue == 0.5
    {
      this.topic := topic;
      this.content := content;
      timestamp := now;
      insights := [];
      actionItems := [];
      emotionalImpact := 0.0;
      learningValue := 0.5;
    }

    /** `add_insight`: appended unless already present. */
    method AddInsight(insight: string)
      requires Valid()
      modifies this`insights
      ensures Valid()
      ensures insights == AppendUnique(old(insights), insight)
    {
      if insight !in insights {
        insights := insights + [insight];
      }
    }

    /** `add_action_item`: appended unless already present. */
    method AddActionItem(action: string)
      requires Valid()
      modifies this`actionItems
      ensures Valid()
      ensures actionItems == AppendUnique(old(actionItems), action)
    {
      if action !in actionItems {
        actionItems := actionItems + [action];
      }
    }
  }

  // ---------------------------------------------------------------------------
  // Personality
  // ---------------------------------------------------------------------------

  datatype PersonalityTrait = Curiosity | Persistence | Caution | Creativity | Analytical | Social | Independent | Perfectionist
  {
    function Value(): string {
      match this
      case Curiosity => "curiosity"
      case Persistence => "persistence"
      case Caution => "caution"
      case Creativity => "creativity"
      case Analytical => "analytical"
      case Social => "social"
      case Independent => "independent"
      case Perfectionist => "perfectionist"
    }
  }

  datatype ValueType = Knowledge | Efficiency | HelpOthers | Truth | Progress | Safety | Freedom | Learning
  {
    function Value(): string {
      match this
      case Knowledge => "knowledge"
      case Efficiency => "efficiency"
      case HelpOthers => "help_others"
      case Truth => "truth"
      case Progress => "progress"
      case Safety => "safety"
      case Freedom => "freedom"
      case Learning => "learning"
    }
  }

  /** The traits in declaration order, which is the order of the `traits` dictionary. */
  const AllTraits: seq<PersonalityTrait> :=
    [Curiosity, Persistence, Caution, Creativity, Analytical, Social, Independent, Perfectionist]

  /** The values in declaration order, which is the order of the `values` dictionary. */
  const AllValues: seq<ValueType> :=
    [Knowledge, Efficiency, HelpOthers, Truth, Progress, Safety, Freedom, Learning]

  lemma AllTraitsListed(t: PersonalityTrait)
    ensures t in AllTraits
  {
  }

  lemma AllValuesListed(v: ValueType)
    ensures v in AllValues
  {
  }

  /** `max(-max_change, min(max_change, delta))`. */
  function CappedChange(delta: real, maxChange: real): (c: real)
    ensures maxChange >= 0.0 ==> -maxChange <= c <= maxChange
    ensures maxChange >= 0.0 && -maxChange <= delta <= maxChange ==> c == delta
    ensures maxChange > 0.0 ==> (delta >= 0.0 <==> c >= 0.0)
    ensures maxChange < 0.0 ==> c == -maxChange
  {
    var m := if maxChange < delta then maxChange else delta;
    if m < -maxChange then -maxChange else m
  }

  /** `update_trait` / `update_value` on one level: a capped step, then clamped to [0, 1]. */
  function Stepped(current: real, delta: real, maxChange: real): (r: real)
    ensures 0.0 <= r <= 1.0
  {
    Clamp01(current + CappedChange(delta, maxChange))
  }

  function Abs(x: real): real {
    if x < 0.0 then -x else x
  }

  /**
   * From a level in [0, 1], one step moves it by at most `|max_change|`, and
   * with a non-negative cap it moves in the direction of `delta`.
   */
  lemma SteppedBounds(current: real, delta: real, maxChange: real)
    requires 0.0 <= current <= 1.0
    ensures Abs(Stepped(current, delta, maxChange) - current) <= Abs(maxChange)
    ensures maxChange >= 0.0 && delta >= 0.0 ==> Stepped(current, delta, maxChange) >= current
    ensures maxChange >= 0.0 && delta <= 0.0 ==> Stepped(current, delta, maxChange) <= current
    ensures maxChange >= 0.0 && 0.0 <= current + delta <= 1.0 && Abs(delta) <= maxChange ==>
      Stepped(current, delta, maxChange) == current + delta
  {
  }

  /** A negative `max_change` always raises the level by `|max_change|` (clamped), whatever `delta`'s sign. */
  lemma NegativeCapAlwaysRaises(current: real, delta: real, maxChange: real)
    requires maxChange < 0.0
    ensures Stepped(current, delta, maxChange) == Clamp01(current - maxChange)
  {
  }

  /** `sorted(items, key=value, reverse=True)[:n]`: a stable descending sort, then a Python slice. */
  function TopByKey<T>(items: seq<(T, real)>, n: int): (r: seq<(T, real)>)
    ensures SortedDesc(r)
    ensures 0 <= n ==> |r| == if n < |items| then n else |items|
    ensures forall i :: 0 <= i < |r| ==> r[i] in items
    ensures multiset(r) <= multiset(items)
    ensures forall p, i :: p in multiset(items) - multiset(r) && 0 <= i < |r| ==> p.1 <= r[i].1
    ensures forall v :: |WithKey(r, v)| <= |WithKey(items, v)| && WithKey(r, v) == WithKey(items, v)[..|WithKey(r, v)|]
  {
    var sorted := SortDesc(items);
    SortedPrefix(items, |SliceTo(sorted, n)|);
    SortedPrefixTop(items, |SliceTo(sorted, n)|);
    SortedPrefixStableAll(items, |SliceTo(sorted, n)|);
    SliceTo(sorted, n)
  }

  predicate TraitsInUnit(traits: map<PersonalityTrait, real>) {
    forall t :: t in traits ==> 0.0 <= traits[t] <= 1.0
  }

  predicate ValuesInUnit(values: map<ValueType, real>) {
    forall v :: v in values ==> 0.0 <= values[v] <= 1.0
  }

  /** The trait dictionary's items as (name, level) pairs, in dictionary order. */
  function TraitItems(traits: map<PersonalityTrait, real>): (r: seq<(string, real)>)
    requires forall t :: t in traits
    ensures |r| == |AllTraits|
  {
    seq(|AllTraits|, i requires 0 <= i < |AllTraits| => (AllTraits[i].Value(), traits[AllTraits[i]]))
  }

  /** The value dictionary's items as (name, strength) pairs, in dictionary order. */
  function ValueItems(values: map<ValueType, real>): (r: seq<(string, real)>)
    requires forall v :: v in values
    ensures |r| == |AllValues|
  {
    seq(|AllValues|, i requires 0 <= i < |AllValues| => (AllValues[i].Value(), values[AllValues[i]]))
  }

  /** `p` is a trait's name with the trait's level. */
  predicate NamesTrait(traits: map<PersonalityTrait, real>, p: (string, real))
    requires forall t :: t in traits
  {
    exists t: PersonalityTrait :: p == (t.Value(), traits[t])
  }

  /** `p` is a value's name with the value's strength. */
  predicate NamesValue(values: map<ValueType, real>, p: (string, real))
    requires forall v :: v in values
  {
    exists v: ValueType :: p == (v.Value(), values[v])
  }

  /** Every pair taken from the trait items names a trait and carries its level. */
  lemma TraitPairsNamed(traits: map<PersonalityTrait, real>, r: seq<(string, real)>)
    requires forall t :: t in traits
    requires forall i :: 0 <= i < |r| ==> r[i] in TraitItems(traits)
    ensures forall i :: 0 <= i < |r| ==> NamesTrait(traits, r[i])
  {
    forall i | 0 <= i < |r|
      ensures NamesTrait(traits, r[i])
    {
      var k :| 0 <= k < |AllTraits| && TraitItems(traits)[k] == r[i];
      var t := AllTraits[k];
      assert r[i] == (t.Value(), traits[t]);
    }
  }

  /** Every pair taken from the value items names a value and carries its strength. */
  lemma ValuePairsNamed(values: map<ValueType, real>, r: seq<(string, real)>)
    requires forall v :: v in values
    requires forall i :: 0 <= i < |r| ==> r[i] in ValueItems(values)
    ensures forall i :: 0 <= i < |r| ==> NamesValue(values, r[i])
  {
    forall i | 0 <= i < |r|
      ensures NamesValue(values, r[i])
    {
      var k :| 0 <= k < |AllValues| && ValueItems(values)[k] == r[i];
      var v := AllValues[k];
      assert r[i] == (v.Value(), values[v]);
    }
  }

  /** `PersonalityProfile`: trait and value levels, each dictionary holding every member of its enum. */
  class PersonalityProfile {
    var traits: map<PersonalityTrait, real>
    var values: map<ValueType, real>
    /** Never written by the profile itself. */
    var behavioralPatterns: map<string, real>
    const adaptationRate: real

    predicate Valid()
      reads this
    {
      && (forall t :: t in traits) && TraitsInUnit(traits)
      && (forall v :: v in values) && ValuesInUnit(values)
    }

    constructor ()
      ensures Valid()
      ensures forall t :: t in traits && traits[t] == 0.5
      ensures forall v :: v in values && values[v] == 0.5
      ensures behavioralPatterns == map[] && adaptationRate == 0.1
    {
      traits := map t: PersonalityTrait | t in AllTraits :: 0.5;
      values := map v: ValueType | v in AllValues :: 0.5;
      behavioralPatterns := map[];
      adaptationRate := 0.1;
      new;
      forall t: PersonalityTrait
        ensures t in traits
      {
        AllTraitsListed(t);
      }
      forall v: ValueType
        ensures v in values
      {
        AllValuesListed(v);
      }
    }

    /** `update_trait`: only `trait` changes, by one capped, clamped step. */
    method UpdateTrait(target: PersonalityTrait, delta: real, maxChange: real)
      requires Valid()
      modifies this`traits
      ensures Valid()
      ensures traits == old(traits)[target := Stepped(old(traits)[target], delta, maxChange)]
    {
      traits := traits[target := Stepped(traits[target], delta, maxChange)];
    }

    /** `update_value`: only `value` changes, by one capped, clamped step. */
    method UpdateValue(value: ValueType, delta: real, maxChange: real)
      requires Valid()
      modifies this`values
      ensures Valid()
      ensures values == old(values)[value := Stepped(old(values)[value], delta, maxChange)]
    {
      values := values[value := Stepped(values[value], delta, maxChange)];
    }

    /** `get_dominant_traits`: the `top_n` strongest traits, strongest first (earlier trait on ties). */
    function GetDominantTraits(topN: int): (r: seq<(string, real)>)
      reads this
      requires Valid()
      ensures SortedDesc(r)
      ensures 0 <= topN ==> |r| == if topN < 8 then topN else 8
      ensures forall i :: 0 <= i < |r| ==> NamesTrait(traits, r[i])
      ensures multiset(r) <= multiset(TraitItems(traits))
      ensures forall p, i :: p in multiset(TraitItems(traits)) - multiset(r) && 0 <= i < |r| ==> p.1 <= r[i].1
      ensures forall v :: |WithKey(r, v)| <= |WithKey(TraitItems(traits), v)| && WithKey(r, v) == WithKey(TraitItems(traits), v)[..|WithKey(r, v)|]
    {
      var r := TopByKey(TraitItems(traits), topN);
      TraitPairsNamed(traits, r);
      r
    }

    /** `get_core_values`: the `top_n` strongest values, strongest first (earlier value on ties). */
    function GetCoreValues(topN: int): (r: seq<(string, real)>)
      reads this
      requires Valid()
      ensures SortedDesc(r)
      ensures 0 <= topN ==> |r| == if topN < 8 then topN else 8
      ensures forall i :: 0 <= i < |r| ==> NamesValue(values, r[i])
      ensures multiset(r) <= multiset(ValueItems(values))
      ensures forall p, i :: p in multiset(ValueItems(values)) - multiset(r) && 0 <= i < |r| ==> p.1 <= r[i].1
      ensures forall v :: |WithKey(r, v)| <= |WithKey(ValueItems(values), v)| && WithKey(r, v) == WithKey(ValueItems(values), v)[..|WithKey(r, v)|]
    {
      var r := TopByKey(ValueItems(values), topN);
      ValuePairsNamed(values, r);
      r
    }
  }

  // ---------------------------------------------------------------------------
  // Motivation
  // ---------------------------------------------------------------------------

  predicate InUnit(m: map<string, real>) {
    forall k :: k in m ==> 0.0 <= m[k] <= 1.0
  }

  /** `d.get(key, default)`. */
  function GetOr(m: map<string, real>, key: string, default: real): (r: real)
    ensures InUnit(m) && 0.0 <= default <= 1.0 ==> 0.0 <= r <= 1.0
  {
    if key in m then m[key] else default
  }

  /** `bool(context.get(key, False))`. */
  predicate Flag(context: seq<(string, Value)>, key: string) {
    match Get(context, key)
    case Some(v) => Truthy(v)
    case None => false
  }

  /** `word in text.lower()`. */
  predicate Mentions(text: string, word: string) {
    Contains(Lower(text), word)
  }

  /** True when no keyword of `calculate_motivation_for_action` and no context flag applies. */
  predicate NoMotivationCue(actionType: string, context: seq<(string, Value)>) {
    && !Mentions(actionType, "learning") && !Mentions(actionType, "problem")
    && !Mentions(actionType, "solve") && !Mentions(actionType, "help")
    && !Flag(context, "user_requested") && !Flag(context, "task_critical")
  }

  /** The uncapped keyword sum of `calculate_motivation_for_action`. */
  function MotivationSum(intrinsic: map<string, real>, extrinsic: map<string, real>,
                         actionType: string, context: seq<(string, Value)>): (s: real)
    ensures InUnit(intrinsic) && InUnit(extrinsic) ==> 0.0 <= s
    ensures NoMotivationCue(actionType, context) ==> s == 0.0
  {
    (if Mentions(actionType, "learning") then GetOr(intrinsic, "learn_new_things", 0.5) else 0.0)
    + (if Mentions(actionType, "problem") || Mentions(actionType, "solve") then GetOr(intrinsic, "solve_problems", 0.5) else 0.0)
    + (if Mentions(actionType, "help") then GetOr(intrinsic, "help_others", 0.5) else 0.0)
    + (if Flag(context, "user_requested") then GetOr(extrinsic, "user_approval", 0.5) else 0.0)
    + (if Flag(context, "task_critical") then GetOr(extrinsic, "task_completion", 0.5) else 0.0)
  }

  /**
   * `calculate_motivation_for_action`: the keyword sum capped at 1.0, scaled
   * by the drive level; so it never exceeds the drive, and it is 0 when no
   * cue applies.
   */
  function ActionMotivation(intrinsic: map<string, real>, extrinsic: map<string, real>, drive: real,
                            actionType: string, context: seq<(string, Value)>): (r: real)
    ensures 0.0 <= drive ==> r <= drive
    ensures InUnit(intrinsic) && InUnit(extrinsic) && 0.0 <= drive ==> 0.0 <= r
    ensures NoMotivationCue(actionType, context) ==> r == 0.0
  {
    var capped := AtMostOne(MotivationSum(intrinsic, extrinsic, actionType, context));
    if 0.0 <= drive then ScaledBelow(capped, drive); capped * drive else capped * drive
  }

  /** Scaling by a non-negative factor `d` a value at most 1 gives at most `d`. */
  lemma ScaledBelow(a: real, d: real)
    requires a <= 1.0 && 0.0 <= d
    ensures a * d <= d
    ensures 0.0 <= a ==> 0.0 <= a * d
  {
    assert (1.0 - a) * d >= 0.0;
  }

  /** A full drive and a sum of at least 1 give full motivation. */
  lemma SaturatedMotivation(intrinsic: map<string, real>, extrinsic: map<string, real>, drive: real,
                            actionType: string, context: seq<(string, Value)>)
    requires MotivationSum(intrinsic, extrinsic, actionType, context) >= 1.0
    ensures ActionMotivation(intrinsic, extrinsic, drive, actionType, context) == drive
  {
  }

  /** The intrinsic motivations an action's outcome adjusts, in the order they are looked for. */
  function RelevantMotivations(actionType: string): (r: seq<string>)
    ensures NoDup(r)
    ensures forall k :: k in r ==> k in {"learn_new_things", "solve_problems", "help_others"}
    ensures "learn_new_things" in r <==> Mentions(actionType, "learning")
    ensures "solve_problems" in r <==> Mentions(actionType, "problem")
    ensures "help_others" in r <==> Mentions(actionType, "help")
  {
    (if Mentions(actionType, "learning") then ["learn_new_things"] else [])
    + (if Mentions(actionType, "problem") then ["solve_problems"] else [])
    + (if Mentions(actionType, "help") then ["help_others"] else [])
  }

  /** +0.05 on success, -0.025 on failure. */
  function Adjustment(success: bool): (a: real)
    ensures success <==> a > 0.0
    ensures -0.05 <= a <= 0.05
  {
    if success then 0.05 else -0.05 * 0.5
  }

  /** The intrinsic motivations after every listed one present is moved by `adjustment` and clamped. */
  function Adjusted(intrinsic: map<string, real>, relevant: seq<string>, adjustment: real): map<string, real> {
    map k | k in intrinsic :: if k in relevant then Clamp01(intrinsic[k] + adjustment) else intrinsic[k]
  }

  /**
   * Only the listed motivations change, each stays in [0, 1], and none moves
   * by more than the adjustment.
   */
  lemma AdjustedSpec(intrinsic: map<string, real>, relevant: seq<string>, adjustment: real)
    ensures var r := Adjusted(intrinsic, relevant, adjustment);
      && r.Keys == intrinsic.Keys
      && (forall k :: k in r && k !in relevant ==> r[k] == intrinsic[k])
      && (forall k :: k in r && k in relevant ==> 0.0 <= r[k] <= 1.0)
      && (InUnit(intrinsic) ==> InUnit(r))
      && (InUnit(intrinsic) ==> forall k :: k in r ==> Abs(r[k] - intrinsic[k]) <= Abs(adjustment))
  {
  }

  /** One record of `motivation_history`. */
  datatype MotivationRecord = MotivationRecord(timestamp: Time, actionType: string, outcome: string, success: bool,
                                               relevantMotivations: seq<string>, adjustment: real)

  /** `MotivationSystem` of the self-model: the motivation dictionaries and drive, and the outcome history. */
  class MotivationSystem {
    var intrinsic: map<string, real>
    var extrinsic: map<string, real>
    const currentDriveLevel: real
    var motivationHistory: seq<MotivationRecord>

    predicate Valid()
      reads this
    {
      InUnit(intrinsic) && InUnit(extrinsic) && 0.0 <= currentDriveLevel <= 1.0
    }

    constructor ()
      ensures Valid()
      ensures intrinsic == map["learn_new_things" := 0.8, "solve_problems" := 0.7, "help_others" := 0.6,
                               "understand_world" := 0.8, "improve_self" := 0.7, "create_something" := 0.5,
                               "explore_ideas" := 0.8, "achieve_goals" := 0.7]
      ensures extrinsic == map["user_approval" := 0.6, "task_completion" := 0.8, "avoid_errors" := 0.7,
                               "efficiency" := 0.6]
      ensures currentDriveLevel == 0.7 && motivationHistory == []
    {
      intrinsic := map["learn_new_things" := 0.8, "solve_problems" := 0.7, "help_others" := 0.6,
                       "understand_world" := 0.8, "improve_self" := 0.7, "create_something" := 0.5,
                       "explore_ideas" := 0.8, "achieve_goals" := 0.7];
      extrinsic := map["user_approval" := 0.6, "task_completion" := 0.8, "avoid_errors" := 0.7,
                       "efficiency" := 0.6];
      currentDriveLevel := 0.7;
      motivationHistory := [];
    }

    /** `calculate_motivation_for_action`: in [0, current_drive_level]. */
    function CalculateMotivationForAction(actionType: string, context: seq<(string, Value)>): (r: real)
      reads this
      requires Valid()
      ensures 0.0 <= r <= currentDriveLevel
    {
      ActionMotivation(intrinsic, extrinsic, currentDriveLevel, actionType, context)
    }

    /**
     * `update_motivation_based_on_outcome`: moves each keyword-matched intrinsic
     * motivation by the adjustment, clamped to [0, 1], and appends one history
     * record.
     */
    method UpdateMotivationBasedOnOutcome(actionType: string, outcome: string, success: bool, now: Time)
      requires Valid()
      modifies this`intrinsic, this`motivationHistory
      ensures Valid()
      ensures intrinsic == Adjusted(old(intrinsic), RelevantMotivations(actionType), Adjustment(success))
      ensures motivationHistory == old(motivationHistory) + [MotivationRecord(now, actionType, outcome, success,
                                                                RelevantMotivations(actionType), Adjustment(success))]
    {
      var relevant := RelevantMotivations(actionType);
      var adjustment := Adjustment(success);
      ghost var start := intrinsic;
      var i := 0;
      while i < |relevant|
        invariant 0 <= i <= |relevant|
        invariant intrinsic == Adjusted(start, relevant[..i], adjustment)
        invariant motivationHistory == old(motivationHistory)
      {
        AdjustNext(start, relevant, i, adjustment);
        i := i + 1;
      }
      assert relevant[..i] == relevant;
      AdjustedSpec(start, relevant, adjustment);
      motivationHistory := motivationHistory + [MotivationRecord(now, actionType, outcome, success, relevant, adjustment)];
    }

    /** One pass of the loop in `update_motivation_based_on_outcome`: the `i`-th listed motivation, if present. */
    method AdjustNext(ghost start: map<string, real>, relevant: seq<string>, i: nat, adjustment: real)
      requires NoDup(relevant) && i < |relevant|
      requires intrinsic == Adjusted(start, relevant[..i], adjustment)
      modifies this`intrinsic
      ensures intrinsic == Adjusted(start, relevant[..i + 1], adjustment)
    {
      var motivation := relevant[i];
      AdjustedStep(start, relevant, i, adjustment);
      if motivation in intrinsic {
        intrinsic := intrinsic[motivation := Clamp01(intrinsic[motivation] + adjustment)];
      }
    }
  }

  /** Adjusting the `i`-th listed motivation extends the adjustment of the first `i`. */
  lemma AdjustedStep(start: map<string, real>, relevant: seq<string>, i: nat, adjustment: real)
    requires NoDup(relevant) && i < |relevant|
    ensures var before := Adjusted(start, relevant[..i], adjustment);
      var m := relevant[i];
      Adjusted(start, relevant[..i + 1], adjustment)
        == if m in before then before[m := Clamp01(before[m] + adjustment)] else before
  {
    var m := relevant[i];
    assert relevant[..i + 1] == relevant[..i] + [m];
    assert m !in relevant[..i];
  }

  // ---------------------------------------------------------------------------
  // Assessments of an experience
  // ---------------------------------------------------------------------------

  /**
   * The keys of `experience_data` the assessments read. `complexity`, when
   * present, is a number; the other keys hold any value.
   */
  datatype Experience = Experience(success: Option<Value>, novelSituation: Option<Value>,
                                   userFeedback: Option<Value>, complexity: Option<real>)

  /** `bool(experience_data.get(key, default))`. */
  function Given(v: Option<Value>, default: bool): bool {
    match v
    case Some(x) => Truthy(x)
    case None => default
  }

  /** The feedback term of `_assess_emotional_impact`. */
  function FeedbackImpact(feedback: string): (r: real)
    ensures -0.3 <= r <= 0.4
  {
    var f := Lower(feedback);
    if Contains(f, "excellent") || Contains(f, "great") then 0.4
    else if Contains(f, "good") then 0.2
    else if Contains(f, "poor") || Contains(f, "bad") then -0.3
    else 0.0
  }

  /**
   * `_assess_emotional_impact`: `None` where the code fails, on a feedback
   * that is not a string (`.lower()` raises). Otherwise the result lies in
   * [-0.5, 0.9], so the clamp to [-1, 1] never binds; it is at least 0 after
   * a success and at most 0.4 after a failure.
   */
  function AssessEmotionalImpact(e: Experience): (r: Option<real>)
    ensures r.None? <==> e.userFeedback.Some? && !e.userFeedback.value.VStr?
    ensures r.Some? ==> -0.5 <= r.value <= 0.9
    ensures r.Some? && Given(e.success, false) ==> 0.0 <= r.value
    ensures r.Some? && !Given(e.success, false) ==> r.value <= 0.4
  {
    var base := (if Given(e.success, false) then 0.3 else -0.2) + (if Given(e.novelSituation, false) then 0.2 else 0.0);
    match e.userFeedback
    case None => Some(Clamp01Signed(base))
    case Some(VStr(s)) => Some(Clamp01Signed(base + FeedbackImpact(s)))
    case Some(_) => None
  }

  /** `max(-1.0, min(1.0, x))`. */
  function Clamp01Signed(x: real): (r: real)
    ensures -1.0 <= r <= 1.0
    ensures -1.0 <= x <= 1.0 ==> r == x
  {
    if 1.0 < x then 1.0 else if x < -1.0 then -1.0 else x
  }

  /**
   * `_assess_learning_value`: 0.5 plus 0.3 for a novel situation, 0.2 for a
   * failure (success defaults to true) and 0.2 for complexity above 0.6
   * (default 0.5), capped at 1.0. It exceeds 0.5 exactly when one of those holds.
   */
  function AssessLearningValue(e: Experience): (r: real)
    ensures 0.5 <= r <= 1.0
    ensures r > 0.5 <==> Given(e.novelSituation, false) || !Given(e.success, true)
                          || (e.complexity.Some? && e.complexity.value > 0.6)
  {
    var complexity := if e.complexity.Some? then e.complexity.value else 0.5;
    AtMostOne(0.5 + (if Given(e.novelSituation, false) then 0.3 else 0.0)
                  + (if !Given(e.success, true) then 0.2 else 0.0)
                  + (if complexity > 0.6 then 0.2 else 0.0))
  }

  // ---------------------------------------------------------------------------
  // Recent performance and self-confidence
  // ---------------------------------------------------------------------------

  function SumFirst(ps: seq<(real, real)>): real {
    if ps == [] then 0.0 else SumFirst(ps[..|ps| - 1]) + ps[|ps| - 1].0
  }

  function SumSecond(ps: seq<(real, real)>): real {
    if ps == [] then 0.0 else SumSecond(ps[..|ps| - 1]) + ps[|ps| - 1].1
  }

  /**
   * The performance formula of `_assess_recent_performance_in_area` on the
   * (learning value, emotional impact) pairs of the matching reflections:
   * the fallback when there are none, otherwise
   * 0.5 + (mean learning value - 0.5) * 0.3 + mean impact * 0.2, clamped.
   */
  function Performance(matching: seq<(real, real)>, fallback: real): (r: real)
    ensures matching == [] ==> r == fallback
    ensures matching != [] ==> 0.0 <= r <= 1.0
  {
    if matching == [] then fallback
    else
      var n := |matching| as real;
      Clamp01(0.5 + (SumFirst(matching) / n - 0.5) * 0.3 + SumSecond(matching) / n * 0.2)
  }

  lemma {:induction false} SumsOfDefaults(ps: seq<(real, real)>)
    requires forall i :: 0 <= i < |ps| ==> ps[i] == (0.5, 0.0)
    ensures SumFirst(ps) == 0.5 * |ps| as real && SumSecond(ps) == 0.0
  {
    if ps != [] {
      SumsOfDefaults(ps[..|ps| - 1]);
    }
  }

  /**
   * Reflections whose learning value and emotional impact keep their initial
   * 0.5 and 0.0 always score exactly 0.5.
   */
  lemma DefaultReflectionsScoreHalf(matching: seq<(real, real)>, fallback: real)
    requires matching != []
    requires forall i :: 0 <= i < |matching| ==> matching[i] == (0.5, 0.0)
    ensures Performance(matching, fallback) == 0.5
  {
    SumsOfDefaults(matching);
    var n := |matching| as real;
    assert SumFirst(matching) / n == 0.5;
  }

  /** `self_confidence += (performance - self_confidence) * 0.05`, clamped to [0, 1]. */
  function TowardPerformance(confidence: real, performance: real): (r: real)
    ensures 0.0 <= r <= 1.0
  {
    Clamp01(confidence + (performance - confidence) * 0.05)
  }

  /**
   * From levels in [0, 1], confidence moves toward the performance score,
   * never past it, closing exactly 5% of the gap.
   */
  lemma TowardPerformanceConverges(confidence: real, performance: real)
    requires 0.0 <= confidence <= 1.0 && 0.0 <= performance <= 1.0
    ensures var r := TowardPerformance(confidence, performance);
      && (confidence <= performance ==> confidence <= r <= performance)
      && (performance <= confidence ==> performance <= r <= confidence)
      && Abs(r - performance) == 0.95 * Abs(confidence - performance)
  {
  }

  // ---------------------------------------------------------------------------
  // The self-model
  // ---------------------------------------------------------------------------

  datatype DevelopmentData =
    | RoleUpdated(newInsight: string, context: string, previousUnderstandingLength: nat, newAwarenessLevel: real)

  datatype DevelopmentEvent = DevelopmentEvent(timestamp: Time, eventType: string, data: DevelopmentData)

  function InitialRole(): string {
    "Я автономный цифровой агент с способностью к самосознанию и рефлексии"
  }

  /** The text `update_role_understanding` appends for an insight, dated `today` (`YYYY-MM-DD`). */
  function RoleUpdate(today: string, newInsight: string): string {
    "\n\nОбновление (" + today + "): " + newInsight
  }

  predicate CapabilitiesInUnit(capabilities: map<string, real>) {
    forall c :: c in capabilities ==> 0.0 <= capabilities[c] <= 1.0
  }

  /** The (learning value, emotional impact) of the recent reflections whose content mentions `capability`. */
  function Matching(reflections: seq<SelfReflection>, capability: string): (r: seq<(real, real)>)
    reads reflections
    ensures |r| <= |reflections|
  {
    if reflections == [] then []
    else
      var last := reflections[|reflections| - 1];
      Matching(reflections[..|reflections| - 1], capability)
        + (if Contains(Lower(last.content), Lower(capability)) then [(last.learningValue, last.emotionalImpact)] else [])
  }

  /** `SelfModelModule`: the modelled part of the agent's self-model. */
  class SelfModelModule {
    const agentName: string
    const creationTime: Time
    const personality: PersonalityProfile
    const motivationSystem: MotivationSystem
    var reflections: seq<SelfReflection>
    var roleUnderstanding: string
    var capabilities: map<string, real>
    var selfConfidence: real
    var selfAwarenessLevel: real
    var growthMindset: real
    var metaLearningRate: real
    var developmentLog: seq<DevelopmentEvent>

    predicate Valid()
      reads this, personality, motivationSystem
    {
      && personality.Valid() && motivationSystem.Valid()
      && CapabilitiesInUnit(capabilities)
      && 0.0 <= selfConfidence <= 1.0 && 0.0 <= selfAwarenessLevel <= 1.0
      && |developmentLog| <= DevelopmentLogCap
    }

    constructor (agentName: string, now: Time)
      ensures Valid()
      ensures this.agentName == agentName && creationTime == now
      ensures fresh(personality) && fresh(motivationSystem)
      ensures reflections == [] && roleUnderstanding == InitialRole() && developmentLog == []
      ensures capabilities == map["reasoning" := 0.8, "learning" := 0.7, "communication" := 0.8,
                                  "problem_solving" := 0.7, "creativity" := 0.6, "emotional_intelligence" := 0.5,
                                  "self_awareness" := 0.6, "adaptability" := 0.7]
      ensures selfConfidence == 0.6 && selfAwarenessLevel == 0.7 && growthMindset == 0.8 && metaLearningRate == 0.1
    {
      this.agentName := agentName;
      creationTime := now;
      personality := new PersonalityProfile();
      motivationSystem := new MotivationSystem();
      reflections := [];
      roleUnderstanding := InitialRole();
      capabilities := map["reasoning" := 0.8, "learning" := 0.7, "communication" := 0.8,
                          "problem_solving" := 0.7, "creativity" := 0.6, "emotional_intelligence" := 0.5,
                          "self_awareness" := 0.6, "adaptability" := 0.7];
      selfConfidence := 0.6;
      selfAwarenessLevel := 0.7;
      growthMindset := 0.8;
      metaLearningRate := 0.1;
      developmentLog := [];
    }

    /**
     * `generate_motivation_for_goal`: the motivation system's value for the
     * goal raised by trait and value modifiers and capped at 1.0; so it lies
     * between that base value and 1.0.
     */
    function GenerateMotivationForGoal(goalDescription: string, context: seq<(string, Value)>): (r: real)
      reads this, personality, motivationSystem
      requires Valid()
      ensures motivationSystem.CalculateMotivationForAction(goalDescription, context) <= r <= 1.0
      ensures 0.0 <= r
    {
      var base := motivationSystem.CalculateMotivationForAction(goalDescription, context);
      var traits := personality.traits;
      var values := personality.values;
      var personalityModifier :=
        (if Mentions(goalDescription, "learn") then traits[Curiosity] * 0.3 else 0.0)
        + (if Mentions(goalDescription, "solve") then traits[Analytical] * 0.3 else 0.0)
        + (if Mentions(goalDescription, "create") then traits[Creativity] * 0.3 else 0.0);
      var valuesModifier :=
        (if Mentions(goalDescription, "knowledge") || Mentions(goalDescription, "learn")
            || Mentions(goalDescription, "understand") then values[Knowledge] * 0.2 else 0.0)
        + (if Mentions(goalDescription, "help") then values[HelpOthers] * 0.2 else 0.0);
      AtMostOne(base + personalityModifier + valuesModifier)
    }

    /** `_assess_recent_performance_in_area`, over the last ten reflections. */
    function AssessRecentPerformanceInArea(capability: string): (r: real)
      reads this, reflections
      requires CapabilitiesInUnit(capabilities)
      ensures 0.0 <= r <= 1.0
      ensures Matching(KeepLast(reflections, 10), capability) == [] ==> r == GetOr(capabilities, capability, 0.5)
    {
      Performance(Matching(KeepLast(reflections, 10), capability), GetOr(capabilities, capability, 0.5))
    }

    /** `_update_self_confidence`. */
    method UpdateSelfConfidence(performanceScore: real)
      requires Valid()
      modifies this`selfConfidence
      ensures Valid()
      ensures selfConfidence == TowardPerformance(old(selfConfidence), performanceScore)
    {
      selfConfidence := TowardPerformance(selfConfidence, performanceScore);
    }

    /** `_log_development_event`: append, keeping the last 500 events. */
    method LogDevelopmentEvent(eventType: string, data: DevelopmentData, now: Time)
      requires Valid()
      modifies this`developmentLog
      ensures Valid()
      ensures developmentLog == AppendBounded(old(developmentLog), DevelopmentEvent(now, eventType, data), DevelopmentLogCap)
    {
      developmentLog := AppendBounded(developmentLog, DevelopmentEvent(now, eventType, data), DevelopmentLogCap);
    }

    /**
     * `update_role_understanding`: an insight of at most 20 characters changes
     * nothing; a longer one is appended, dated, to the role understanding,
     * raises self-awareness by 0.05 (capped at 1.0) and logs a "role_updated" event.
     */
    method UpdateRoleUnderstanding(newInsight: string, experienceContext: string, today: string, now: Time)
      requires Valid()
      modifies this`roleUnderstanding, this`selfAwarenessLevel, this`developmentLog
      ensures Valid()
      ensures |newInsight| <= 20 ==>
        roleUnderstanding == old(roleUnderstanding) && selfAwarenessLevel == old(selfAwarenessLevel)
        && developmentLog == old(developmentLog)
      ensures |newInsight| > 20 ==>
        && roleUnderstanding == old(roleUnderstanding) + RoleUpdate(today, newInsight)
        && selfAwarenessLevel == AtMostOne(old(selfAwarenessLevel) + 0.05)
        && developmentLog == AppendBounded(old(developmentLog),
             DevelopmentEvent(now, "role_updated",
               RoleUpdated(newInsight, experienceContext, |old(roleUnderstanding)|, selfAwarenessLevel)),
             DevelopmentLogCap)
    {
      var current := roleUnderstanding;
      if |newInsight| > 20 {
        roleUnderstanding := roleUnderstanding + RoleUpdate(today, newInsight);
        selfAwarenessLevel := AtMostOne(selfAwarenessLevel + 0.05);
        LogDevelopmentEvent("role_updated", RoleUpdated(newInsight, experienceContext, |current|, selfAwarenessLevel), now);
      }
    }
  }

  /** Self-awareness never falls and, from a level in [0, 1], never leaves it. */
  lemma AwarenessRises(level: real)
    requires 0.0 <= level <= 1.0
    ensures level <= AtMostOne(level + 0.05) <= 1.0
    ensures level <= 0.95 ==> AtMostOne(level + 0.05) == level + 0.05
  {
  }
}
