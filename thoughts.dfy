/**
 * The values of the thought-tree engine: a thought node with its scores, the
 * auto-evaluation heuristics, the critique and hypothesis generators, the
 * similarity scan, the attention stack, and the enumeration of root-to-leaf
 * paths with best-mean selection.
 *
 * The arena `ts: seq<Thought>` stands for the `thoughts` dictionary. Ids come
 * from a counter, so the thought with id `k` sits at position `k` and the
 * dictionary's insertion order is the order of positions.
 */
module Thoughts {
  import opened Wrappers
  import opened PyStr
  import opened PyValue
  import opened Seqs
  import opened Ordering
  import opened Levels

  /** A thought id: the n-th thought added gets id n, which is never already a key. */
  type Id = nat

  datatype ThoughtType =
    | Observation | Hypothesis | Analysis | Plan | Decision | Reflection | Critique | Alternative
  {
    function Value(): string {
      match this
      case Observation => "observation"
      case Hypothesis => "hypothesis"
      case Analysis => "analysis"
      case Plan => "plan"
      case Decision => "decision"
      case Reflection => "reflection"
      case Critique => "critique"
      case Alternative => "alternative"
    }
  }

  datatype ThoughtStatus = Active | Evaluated | Selected | Rejected | Paused
  {
    function Value(): string {
      match this
      case Active => "active"
      case Evaluated => "evaluated"
      case Selected => "selected"
      case Rejected => "rejected"
      case Paused => "paused"
    }
  }

  /** The overall score: 0.3 feasibility + 0.3 confidence + 0.2 novelty + 0.2 relevance. */
  function Weighted(feasibility: real, confidence: real, novelty: real, relevance: real): (w: real)
    ensures (0.0 <= feasibility <= 1.0 && 0.0 <= confidence <= 1.0 && 0.0 <= novelty <= 1.0
             && 0.0 <= relevance <= 1.0) ==> 0.0 <= w <= 1.0
  {
    feasibility * 0.3 + confidence * 0.3 + novelty * 0.2 + relevance * 0.2
  }

  /** The value a score takes after `update_scores`: the clamped argument, or the old value if omitted. */
  function ClampOr(arg: Option<real>, old_: real): real {
    if arg.Some? then Clamp01(arg.value) else old_
  }

  datatype Thought = Thought(
    id: Id,
    content: string,
    thoughtType: ThoughtType,
    parentId: Option<Id>,
    childrenIds: seq<Id>,
    status: ThoughtStatus,
    createdAt: Time,
    updatedAt: Time,
    feasibility: real,
    confidence: real,
    novelty: real,
    relevance: real,
    overall: real,
    context: map<string, Value>,
    evidence: seq<string>,
    counterarguments: seq<string>,
    assumptions: seq<string>,
    dependencies: seq<Id>)
  {
    predicate ScoresInRange() {
      0.0 <= feasibility <= 1.0 && 0.0 <= confidence <= 1.0
      && 0.0 <= novelty <= 1.0 && 0.0 <= relevance <= 1.0
    }

    /** Every score in [0, 1] and the overall score the weighted sum of the other four. */
    predicate ScoresValid() {
      ScoresInRange() && overall == Weighted(feasibility, confidence, novelty, relevance)
    }

    /** `add_child`: append the id unless present; the timestamp moves only on an append. */
    function AddChild(childId: Id, now: Time): (t: Thought)
      ensures childId in t.childrenIds
      ensures childId in childrenIds ==> t == this
      ensures childId !in childrenIds ==> t == this.(childrenIds := childrenIds + [childId], updatedAt := now)
    {
      if childId in childrenIds then this
      else this.(childrenIds := childrenIds + [childId], updatedAt := now)
    }

    /** `add_evidence`: the evidence list never holds an entry twice. */
    function AddEvidence(e: string, now: Time): (t: Thought)
      ensures e in t.evidence
      ensures NoDup(evidence) ==> NoDup(t.evidence)
      ensures e in evidence ==> t == this
      ensures e !in evidence ==> t == this.(evidence := evidence + [e], updatedAt := now)
    {
      if e in evidence then this
      else this.(evidence := evidence + [e], updatedAt := now)
    }

    /** `add_counterargument`: the counterargument list never holds an entry twice. */
    function AddCounterargument(arg: string, now: Time): (t: Thought)
      ensures arg in t.counterarguments
      ensures NoDup(counterarguments) ==> NoDup(t.counterarguments)
      ensures arg in counterarguments ==> t == this
      ensures arg !in counterarguments ==> t == this.(counterarguments := counterarguments + [arg], updatedAt := now)
    {
      if arg in counterarguments then this
      else this.(counterarguments := counterarguments + [arg], updatedAt := now)
    }

    /**
     * `update_scores`: each supplied score is clamped to [0, 1], omitted ones
     * keep their value, and the overall score is recomputed from the four.
     */
    function UpdateScores(f: Option<real>, c: Option<real>, n: Option<real>, r: Option<real>, now: Time): (t: Thought)
      ensures ScoresInRange() ==> t.ScoresValid()
      ensures f.Some? ==> 0.0 <= t.feasibility <= 1.0
      ensures c.Some? ==> 0.0 <= t.confidence <= 1.0
      ensures n.Some? ==> 0.0 <= t.novelty <= 1.0
      ensures r.Some? ==> 0.0 <= t.relevance <= 1.0
      ensures f.Some? && c.Some? && n.Some? && r.Some? ==> t.ScoresValid()
      ensures t == this.(feasibility := ClampOr(f, feasibility), confidence := ClampOr(c, confidence),
                         novelty := ClampOr(n, novelty), relevance := ClampOr(r, relevance),
                         overall := t.overall, updatedAt := now)
      ensures t.overall == Weighted(t.feasibility, t.confidence, t.novelty, t.relevance)
    {
      var fe := ClampOr(f, feasibility);
      var co := ClampOr(c, confidence);
      var no := ClampOr(n, novelty);
      var re := ClampOr(r, relevance);
      this.(feasibility := fe, confidence := co, novelty := no, relevance := re,
            overall := Weighted(fe, co, no, re), updatedAt := now)
    }
  }

  /** `Thought(content, thought_type, parent_id)`: active, no children, every score 0.5. */
  function NewThought(id: Id, content: string, thoughtType: ThoughtType, parentId: Option<Id>, now: Time): (t: Thought)
    ensures t.ScoresValid() && t.overall == 0.5
  {
    Thought(id, content, thoughtType, parentId, [], Active, now, now,
            0.5, 0.5, 0.5, 0.5, 0.5, map[], [], [], [], [])
  }

  /** The per-type confidence table of the auto-evaluation. */
  function ConfidenceFor(thoughtType: ThoughtType): (c: real)
    ensures 0.5 <= c <= 0.9
  {
    match thoughtType
    case Observation => 0.9
    case Hypothesis => 0.6
    case Analysis => 0.7
    case Plan => 0.5
    case Decision => 0.8
    case Reflection => 0.7
    case Critique => 0.6
    case Alternative => 0.5
  }

  /** `content_lower in other.lower() or other.lower() in content_lower`. */
  predicate Similar(content: string, other: string) {
    Contains(Lower(other), Lower(content)) || Contains(Lower(content), Lower(other))
  }

  /** `_is_similar_thought_exists`: some stored thought is similar to `content`. */
  predicate SimilarThoughtExists(ts: seq<Thought>, content: string) {
    exists k :: 0 <= k < |ts| && Similar(content, ts[k].content)
  }

  /**
   * `_auto_evaluate_thought` on the stored thought `id`: feasibility from the
   * length, confidence from the type, novelty from the similarity scan over all
   * stored thoughts, relevance from the context. The scan always meets the
   * thought itself, so novelty always comes out 0.3.
   */
  function AutoEvaluated(ts: seq<Thought>, id: Id, now: Time): (t: Thought)
    requires id < |ts|
    ensures t.ScoresValid()
    ensures t.novelty == 0.3
    ensures t.confidence >= 0.5
  {
    var th := ts[id];
    var feasibility := if |th.content| > 20 then 0.8 else 0.5;
    var confidence := ConfidenceFor(th.thoughtType);
    var novelty := if !SimilarThoughtExists(ts, th.content) then 0.7 else 0.3;
    var relevance := if th.context != map[] then 0.8 else 0.5;
    ScanFindsItself(ts, id);
    th.UpdateScores(Some(feasibility), Some(confidence), Some(novelty), Some(relevance), now)
  }

  /** The similarity scan over the stored thoughts always finds any stored thought's own content. */
  lemma ScanFindsItself(ts: seq<Thought>, id: Id)
    requires id < |ts|
    ensures SimilarThoughtExists(ts, ts[id].content)
  {
    ContainsSelf(Lower(ts[id].content));
    assert Similar(ts[id].content, ts[id].content);
  }

  /**
   * A freshly added thought after its auto-evaluation: feasibility 0.8 exactly
   * when the content is longer than 20 characters (else 0.5), the type's
   * confidence, novelty 0.3, relevance 0.8 exactly when a non-empty context was
   * given (else 0.5).
   */
  function FreshThought(id: Id, content: string, thoughtType: ThoughtType, parentId: Option<Id>,
                        context: map<string, Value>, now: Time): (t: Thought)
    ensures t.ScoresValid()
    ensures t.id == id && t.content == content && t.thoughtType == thoughtType && t.parentId == parentId
    ensures t.childrenIds == [] && t.status == Active
    ensures t.feasibility == 0.8 <==> |content| > 20
    ensures t.relevance == 0.8 <==> context != map[]
    ensures t.confidence >= 0.5 && t.novelty == 0.3
  {
    var feasibility := if |content| > 20 then 0.8 else 0.5;
    var relevance := if context != map[] then 0.8 else 0.5;
    NewThought(id, content, thoughtType, parentId, now).(context := context)
      .UpdateScores(Some(feasibility), Some(ConfidenceFor(thoughtType)), Some(0.3), Some(relevance), now)
  }

  /** Auto-evaluating a just-inserted thought gives exactly FreshThought, whatever else is stored. */
  lemma AutoEvaluatedIsFresh(ts: seq<Thought>, id: Id, content: string, thoughtType: ThoughtType,
                             parentId: Option<Id>, context: map<string, Value>, now: Time)
    requires id < |ts|
    requires ts[id] == NewThought(id, content, thoughtType, parentId, now).(context := context)
    ensures AutoEvaluated(ts, id, now) == FreshThought(id, content, thoughtType, parentId, context, now)
  {
  }

  const NoEvidenceCritique: string := "Недостаточно доказательств для поддержки этой мысли"
  const LowConfidenceCritique: string := "Низкий уровень уверенности требует дополнительного анализа"

  /** The two questions each of HYPOTHESIS, PLAN and DECISION raises; none for the other types. */
  function TypeCritiques(t: Thought): (cs: seq<string>)
    ensures |cs| == if t.thoughtType in {Hypothesis, Plan, Decision} then 2 else 0
    ensures |cs| == 2 ==> Contains(cs[0], t.content)
  {
    match t.thoughtType
    case Hypothesis =>
      var q := "Какие доказательства поддерживают гипотезу: '" + t.content + "'?";
      QuotedContains("Какие доказательства поддерживают гипотезу: '", t.content, "'?");
      [q, "Какие альтернативные объяснения возможны?"]
    case Plan =>
      var q := "Какие риски связаны с планом: '" + t.content + "'?";
      QuotedContains("Какие риски связаны с планом: '", t.content, "'?");
      [q, "Что может пойти не так при выполнении этого плана?"]
    case Decision =>
      var q := "Рассмотрены ли все варианты при принятии решения: '" + t.content + "'?";
      QuotedContains("Рассмотрены ли все варианты при принятии решения: '", t.content, "'?");
      [q, "Каковы долгосрочные последствия этого решения?"]
    case _ => []
  }

  lemma QuotedContains(pre: string, s: string, post: string)
    ensures Contains(pre + s + post, s)
  {
    ContainsSelf(s);
    assert StartsWith((pre + s + post)[|pre|..], s) by {
      assert (pre + s + post)[|pre|..][..|s|] == s;
    }
    ContainsInSuffix(pre + s + post, |pre|, s);
  }

  /**
   * `_generate_auto_critique`: the type's questions, then the missing-evidence
   * remark when there is no evidence, then the low-confidence remark when
   * confidence is below 0.5.
   */
  function AutoCritiques(t: Thought): (cs: seq<string>)
    ensures |cs| == |TypeCritiques(t)| + (if t.evidence == [] then 1 else 0) + (if t.confidence < 0.5 then 1 else 0)
    ensures cs[..|TypeCritiques(t)|] == TypeCritiques(t)
    ensures t.evidence == [] ==> cs[|TypeCritiques(t)|] == NoEvidenceCritique
    ensures t.confidence < 0.5 ==> cs[|cs| - 1] == LowConfidenceCritique
  {
    TypeCritiques(t)
    + (if t.evidence == [] then [NoEvidenceCritique] else [])
    + (if t.confidence < 0.5 then [LowConfidenceCritique] else [])
  }

  /**
   * A thought whose confidence is the auto-evaluation's never draws the
   * low-confidence remark, because the table's smallest entry is 0.5: a
   * HYPOTHESIS, PLAN or DECISION gets two critiques, any other type none, and
   * one more when it has no evidence.
   */
  lemma AutoEvaluatedCritiqueCount(t: Thought)
    requires t.confidence == ConfidenceFor(t.thoughtType)
    ensures |AutoCritiques(t)| == (if t.thoughtType in {Hypothesis, Plan, Decision} then 2 else 0)
                                  + (if t.evidence == [] then 1 else 0)
    ensures AutoCritiques(t) == TypeCritiques(t) + (if t.evidence == [] then [NoEvidenceCritique] else [])
  {
  }

  /** `_generate_hypotheses`: three fixed phrasings, each ending with the observation. */
  function Hypotheses(observation: string): (hs: seq<string>)
    ensures |hs| == 3
    ensures forall k :: 0 <= k < 3 ==> |hs[k]| > |observation| && hs[k][|hs[k]| - |observation|..] == observation
    ensures |hs[0]| == 19 + |observation| && |hs[1]| > 20 && |hs[2]| > 20
  {
    ["Возможная причина: " + observation,
     "Альтернативное объяснение для: " + observation,
     "Потенциальная связь с предыдущими наблюдениями: " + observation]
  }

  // ---------------------------------------------------------------------------
  // The arena and its shape
  // ---------------------------------------------------------------------------

  /** Every child id is larger than its parent's id: the parent links form no cycle. */
  predicate ChildrenAfter(ts: seq<Thought>) {
    forall k, j :: 0 <= k < |ts| && 0 <= j < |ts[k].childrenIds| ==> k < ts[k].childrenIds[j]
  }

  /** Every child id names a stored thought. */
  predicate ChildrenStored(ts: seq<Thought>) {
    forall k, j :: 0 <= k < |ts| && 0 <= j < |ts[k].childrenIds| ==> ts[k].childrenIds[j] < |ts|
  }

  /**
   * The shape that add_thought keeps at position `k`: the id is the position,
   * the scores are valid, the child list holds no duplicate and only later,
   * stored thoughts that name this one as their parent, and a thought whose
   * parent existed when it was added is in that parent's child list.
   */
  predicate WellPlaced(ts: seq<Thought>, k: nat)
    requires k < |ts|
  {
    && ts[k].id == k && ts[k].ScoresValid() && NoDup(ts[k].childrenIds)
    && (forall j :: 0 <= j < |ts[k].childrenIds| ==>
          k < ts[k].childrenIds[j] < |ts| && ts[ts[k].childrenIds[j]].parentId == Some(k))
    && (ts[k].parentId.Some? && ts[k].parentId.value < k ==> k in ts[ts[k].parentId.value].childrenIds)
  }

  /** Every stored thought is well placed. */
  predicate WellFormed(ts: seq<Thought>) {
    forall k :: 0 <= k < |ts| ==> WellPlaced(ts, k)
  }

  lemma WellFormedChildren(ts: seq<Thought>)
    requires WellFormed(ts)
    ensures ChildrenAfter(ts) && ChildrenStored(ts)
  {
    forall k, j | 0 <= k < |ts| && 0 <= j < |ts[k].childrenIds|
      ensures k < ts[k].childrenIds[j] < |ts|
    {
      assert WellPlaced(ts, k);
    }
  }

  /**
   * `add_thought` on the arena: the new thought is stored under the next id
   * and auto-evaluated, and a parent that is already stored gets the new id
   * appended to its children. The fresh id never equals a caller-supplied
   * parent id, so `parent_id in self.thoughts` is a test on the old arena.
   */
  function Added(ts: seq<Thought>, content: string, thoughtType: ThoughtType, parentId: Option<Id>,
                 context: map<string, Value>, now: Time): (r: seq<Thought>)
    ensures |r| == |ts| + 1
    ensures r[|ts|] == FreshThought(|ts|, content, thoughtType, parentId, context, now)
  {
    var id := |ts|;
    var linked :=
      if parentId.Some? && parentId.value < id then ts[parentId.value := ts[parentId.value].AddChild(id, now)]
      else ts;
    linked + [FreshThought(id, content, thoughtType, parentId, context, now)]
  }

  /** The arena right after add_thought inserts and links the new thought, before the auto-evaluation. */
  function Inserted(ts: seq<Thought>, content: string, thoughtType: ThoughtType, parentId: Option<Id>,
                    context: map<string, Value>, now: Time): (r: seq<Thought>)
    ensures |r| == |ts| + 1
  {
    var id := |ts|;
    var stored := ts + [NewThought(id, content, thoughtType, parentId, now).(context := context)];
    if parentId.Some? && parentId.value < id then stored[parentId.value := stored[parentId.value].AddChild(id, now)]
    else stored
  }

  /** Auto-evaluating the inserted thought completes add_thought. */
  lemma InsertedThenEvaluated(ts: seq<Thought>, content: string, thoughtType: ThoughtType, parentId: Option<Id>,
                              context: map<string, Value>, now: Time)
    ensures var r := Inserted(ts, content, thoughtType, parentId, context, now);
      r[|ts| := AutoEvaluated(r, |ts|, now)] == Added(ts, content, thoughtType, parentId, context, now)
  {
    var r := Inserted(ts, content, thoughtType, parentId, context, now);
    AutoEvaluatedIsFresh(r, |ts|, content, thoughtType, parentId, context, now);
    assert r[|ts| := AutoEvaluated(r, |ts|, now)] == r[..|ts|] + [FreshThought(|ts|, content, thoughtType, parentId, context, now)];
  }

  /**
   * add_thought linking: with a stored parent the new id appears exactly once
   * among the parent's children and after the children it had; with an unknown
   * parent (or none) no thought lists the new id. No thought is removed, and
   * nothing but the parent's child list and timestamp changes.
   */
  lemma AddedLinks(ts: seq<Thought>, content: string, thoughtType: ThoughtType, parentId: Option<Id>,
                   context: map<string, Value>, now: Time)
    requires WellFormed(ts)
    ensures var r := Added(ts, content, thoughtType, parentId, context, now);
      && (parentId.Some? && parentId.value < |ts| ==>
            var p := parentId.value;
            r[p].childrenIds == ts[p].childrenIds + [|ts|] && NoDup(r[p].childrenIds)
            && r[p] == ts[p].(childrenIds := r[p].childrenIds, updatedAt := now))
      && (!(parentId.Some? && parentId.value < |ts|) ==>
            forall k :: 0 <= k < |r| ==> |ts| !in r[k].childrenIds)
      && (forall k :: 0 <= k < |ts| && Some(k) != parentId ==> r[k] == ts[k])
  {
    var r := Added(ts, content, thoughtType, parentId, context, now);
    if parentId.Some? && parentId.value < |ts| {
      var p := parentId.value;
      assert WellPlaced(ts, p);
      forall j | 0 <= j < |ts[p].childrenIds| ensures ts[p].childrenIds[j] != |ts| {
      }
    } else {
      forall k, j | 0 <= k < |ts| && 0 <= j < |ts[k].childrenIds| ensures ts[k].childrenIds[j] != |ts| {
        assert WellPlaced(ts, k);
      }
    }
  }

  /** add_thought keeps the arena well formed. */
  lemma AddedKeepsWellFormed(ts: seq<Thought>, content: string, thoughtType: ThoughtType, parentId: Option<Id>,
                             context: map<string, Value>, now: Time)
    requires WellFormed(ts)
    ensures WellFormed(Added(ts, content, thoughtType, parentId, context, now))
  {
    var r := Added(ts, content, thoughtType, parentId, context, now);
    var n := |ts|;
    AddedLinks(ts, content, thoughtType, parentId, context, now);
    var linked := parentId.Some? && parentId.value < n;
    forall k | 0 <= k < |r| ensures WellPlaced(r, k) {
      if k < n {
        assert WellPlaced(ts, k);
        forall j | 0 <= j < |r[k].childrenIds|
          ensures k < r[k].childrenIds[j] < |r| && r[r[k].childrenIds[j]].parentId == Some(k)
        {
          if linked && k == parentId.value && j == |ts[k].childrenIds| {
            assert r[k].childrenIds[j] == n;
          } else {
            assert r[k].childrenIds[j] == ts[k].childrenIds[j];
          }
        }
        if r[k].parentId.Some? && r[k].parentId.value < k {
          var p := r[k].parentId.value;
          assert k in ts[p].childrenIds;
          if linked && p == parentId.value {
            assert ts[p].childrenIds[..|ts[p].childrenIds|] == ts[p].childrenIds;
            assert k in r[p].childrenIds[..|ts[p].childrenIds|];
          }
        }
      } else {
        assert r[k].childrenIds == [];
      }
    }
  }

  /**
   * Thoughts that `texts` adds one by one, in order, as children of `parent`
   * (the loops of branch_thought, critique_thought and generate_hypothesis).
   */
  function AddedAll(ts: seq<Thought>, parent: Id, texts: seq<string>, thoughtType: ThoughtType, now: Time): (r: seq<Thought>)
    ensures |r| == |ts| + |texts|
    decreases |texts|, 1
  {
    if texts == [] then ts else AddedLast(ts, parent, texts, thoughtType, now)
  }

  /** The last pass of those loops: the earlier texts are added, then the last one. */
  function AddedLast(ts: seq<Thought>, parent: Id, texts: seq<string>, thoughtType: ThoughtType, now: Time): (r: seq<Thought>)
    requires texts != []
    ensures |r| == |ts| + |texts|
    decreases |texts|, 0
  {
    Added(AddedAll(ts, parent, texts[..|texts| - 1], thoughtType, now), texts[|texts| - 1], thoughtType, Some(parent), map[], now)
  }

  lemma AddedAllUnfold(ts: seq<Thought>, parent: Id, texts: seq<string>, thoughtType: ThoughtType, now: Time)
    requires texts != []
    ensures AddedAll(ts, parent, texts, thoughtType, now)
      == Added(AddedAll(ts, parent, texts[..|texts| - 1], thoughtType, now), texts[|texts| - 1], thoughtType, Some(parent), map[], now)
  {
    assert AddedAll(ts, parent, texts, thoughtType, now) == AddedLast(ts, parent, texts, thoughtType, now);
  }

  /** One more pass of the loop adds the next text. */
  lemma AddedAllSnoc(ts: seq<Thought>, parent: Id, texts: seq<string>, thoughtType: ThoughtType, now: Time, i: nat,
                     before: seq<Thought>, after: seq<Thought>)
    requires i < |texts|
    requires before == AddedAll(ts, parent, texts[..i], thoughtType, now)
    requires after == Added(before, texts[i], thoughtType, Some(parent), map[], now)
    ensures after == AddedAll(ts, parent, texts[..i + 1], thoughtType, now)
  {
    assert texts[..i + 1][..i] == texts[..i];
    AddedAllUnfold(ts, parent, texts[..i + 1], thoughtType, now);
  }

  /**
   * Adding children one by one to a stored parent: the arena stays well
   * formed, the k-th new thought holds the k-th text, the parent's children
   * grow by exactly the new ids in order, and every other old thought is as
   * it was.
   */
  lemma {:induction false} AddedAllWellFormed(ts: seq<Thought>, parent: Id, texts: seq<string>, thoughtType: ThoughtType, now: Time)
    requires WellFormed(ts)
    ensures WellFormed(AddedAll(ts, parent, texts, thoughtType, now))
    decreases |texts|
  {
    if texts != [] {
      var m := |texts| - 1;
      AddedAllUnfold(ts, parent, texts, thoughtType, now);
      AddedAllWellFormed(ts, parent, texts[..m], thoughtType, now);
      AddedKeepsWellFormed(AddedAll(ts, parent, texts[..m], thoughtType, now), texts[m], thoughtType, Some(parent), map[], now);
    }
  }

  lemma AddedToParent(ts: seq<Thought>, content: string, thoughtType: ThoughtType, parent: Id, now: Time)
    requires parent < |ts| && |ts| !in ts[parent].childrenIds
    ensures Added(ts, content, thoughtType, Some(parent), map[], now)[parent]
      == ts[parent].(childrenIds := ts[parent].childrenIds + [|ts|], updatedAt := now)
  {
  }

  lemma AppendRange(a: seq<nat>, lo: nat, m: nat)
    ensures (a + Range(lo, lo + m)) + [lo + m] == a + Range(lo, lo + m + 1)
  {
    RangeSnoc(lo, lo + m);
  }

  /** The k-th thought added by AddedAll holds the k-th text, auto-evaluated, under `parent`. */
  lemma {:induction false} AddedAllNew(ts: seq<Thought>, parent: Id, texts: seq<string>, thoughtType: ThoughtType, now: Time)
    requires parent < |ts|
    ensures forall j :: 0 <= j < |texts| ==>
      AddedAll(ts, parent, texts, thoughtType, now)[|ts| + j] == FreshThought(|ts| + j, texts[j], thoughtType, Some(parent), map[], now)
    decreases |texts|
  {
    if texts != [] {
      var m := |texts| - 1;
      AddedAllUnfold(ts, parent, texts, thoughtType, now);
      var front := texts[..m];
      AddedAllNew(ts, parent, front, thoughtType, now);
      var r' := AddedAll(ts, parent, front, thoughtType, now);
      var r := AddedAll(ts, parent, texts, thoughtType, now);
      assert r == Added(r', texts[m], thoughtType, Some(parent), map[], now);
      forall j | 0 <= j < |texts|
        ensures r[|ts| + j] == FreshThought(|ts| + j, texts[j], thoughtType, Some(parent), map[], now)
      {
        if j < m {
          assert r[|ts| + j] == r'[|ts| + j];
          assert front[j] == texts[j];
        }
      }
    }
  }

  /** AddedAll leaves every old thought other than the parent as it was. */
  lemma {:induction false} AddedAllOthers(ts: seq<Thought>, parent: Id, texts: seq<string>, thoughtType: ThoughtType, now: Time)
    requires parent < |ts|
    ensures forall k :: 0 <= k < |ts| && k != parent ==> AddedAll(ts, parent, texts, thoughtType, now)[k] == ts[k]
    decreases |texts|
  {
    if texts != [] {
      var m := |texts| - 1;
      AddedAllUnfold(ts, parent, texts, thoughtType, now);
      AddedAllOthers(ts, parent, texts[..m], thoughtType, now);
    }
  }

  /** AddedAll appends exactly the new ids, in order, to the parent's children. */
  lemma {:induction false} AddedAllParentChildren(ts: seq<Thought>, parent: Id, texts: seq<string>, thoughtType: ThoughtType, now: Time)
    requires parent < |ts| && forall j :: 0 <= j < |ts[parent].childrenIds| ==> ts[parent].childrenIds[j] < |ts|
    ensures AddedAll(ts, parent, texts, thoughtType, now)[parent].childrenIds == ts[parent].childrenIds + Range(|ts|, |ts| + |texts|)
    decreases |texts|
  {
    if texts != [] {
      var m := |texts| - 1;
      AddedAllUnfold(ts, parent, texts, thoughtType, now);
      var front := texts[..m];
      AddedAllParentChildren(ts, parent, front, thoughtType, now);
      var r' := AddedAll(ts, parent, front, thoughtType, now);
      var old' := r'[parent].childrenIds;
      assert |r'| !in old' by {
        forall j | 0 <= j < |old'| ensures old'[j] < |r'| {
          if j >= |ts[parent].childrenIds| {
            assert old'[j] == Range(|ts|, |ts| + m)[j - |ts[parent].childrenIds|];
          }
        }
      }
      AddedToParent(r', texts[m], thoughtType, parent, now);
      AppendRange(ts[parent].childrenIds, |ts|, m);
    }
  }

  /** Apart from its children, AddedAll changes only the parent's timestamp, and only when it adds something. */
  lemma {:induction false} AddedAllParent(ts: seq<Thought>, parent: Id, texts: seq<string>, thoughtType: ThoughtType, now: Time)
    requires parent < |ts| && forall j :: 0 <= j < |ts[parent].childrenIds| ==> ts[parent].childrenIds[j] < |ts|
    ensures var p := AddedAll(ts, parent, texts, thoughtType, now)[parent];
      p == ts[parent].(childrenIds := p.childrenIds, updatedAt := if texts == [] then ts[parent].updatedAt else now)
    decreases |texts|
  {
    if texts != [] {
      var m := |texts| - 1;
      AddedAllUnfold(ts, parent, texts, thoughtType, now);
      var front := texts[..m];
      AddedAllParent(ts, parent, front, thoughtType, now);
      var r' := AddedAll(ts, parent, front, thoughtType, now);
      AddedAllParentChildren(ts, parent, front, thoughtType, now);
      var old' := r'[parent].childrenIds;
      assert |r'| !in old' by {
        forall j | 0 <= j < |old'| ensures old'[j] < |r'| {
          if j >= |ts[parent].childrenIds| {
            assert old'[j] == Range(|ts|, |ts| + m)[j - |ts[parent].childrenIds|];
          }
        }
      }
      AddedToParent(r', texts[m], thoughtType, parent, now);
    }
  }

  // ---------------------------------------------------------------------------
  // Paths and best-path selection
  // ---------------------------------------------------------------------------

  /**
   * `_find_all_paths(id, prefix, ...)`: every path `prefix + [id, ...]` that
   * follows child lists in insertion order down to a thought with no
   * children, skipping child ids that are not stored.
   */
  function Paths(ts: seq<Thought>, id: Id, prefix: seq<Id>): seq<seq<Id>>
    requires ChildrenAfter(ts) && id < |ts|
    decreases |ts| - id, 1
  {
    var path := prefix + [id];
    if ts[id].childrenIds == [] then [path]
    else ChildPaths(ts, id, ts[id].childrenIds, path)
  }

  /** The paths through the children `kids` of `parent`, in the order of `kids`. */
  function ChildPaths(ts: seq<Thought>, parent: Id, kids: seq<Id>, prefix: seq<Id>): seq<seq<Id>>
    requires ChildrenAfter(ts) && parent < |ts|
    requires forall j :: 0 <= j < |kids| ==> parent < kids[j]
    decreases |ts| - parent, 0, |kids|
  {
    if kids == [] then []
    else
      var c := kids[|kids| - 1];
      ChildPaths(ts, parent, kids[..|kids| - 1], prefix) + (if c < |ts| then Paths(ts, c, prefix) else [])
  }

  /** One more child adds its paths after those of the children before it. */
  lemma ChildPathsStep(ts: seq<Thought>, parent: Id, kids: seq<Id>, i: nat, prefix: seq<Id>, acc: seq<seq<Id>>)
    requires ChildrenAfter(ts) && parent < |ts| && i < |kids|
    requires forall j :: 0 <= j < |kids| ==> parent < kids[j]
    ensures acc + ChildPaths(ts, parent, kids[..i + 1], prefix)
      == (acc + ChildPaths(ts, parent, kids[..i], prefix)) + (if kids[i] < |ts| then Paths(ts, kids[i], prefix) else [])
  {
    assert kids[..i + 1][..i] == kids[..i];
  }

  /** A non-empty chain of stored thoughts, each the parent of the next, ending at a thought with no children. */
  predicate IsLeafChain(ts: seq<Thought>, p: seq<Id>) {
    && |p| > 0
    && (forall i :: 0 <= i < |p| ==> p[i] < |ts|)
    && (forall i :: 0 <= i < |p| - 1 ==> p[i + 1] in ts[p[i]].childrenIds)
    && ts[p[|p| - 1]].childrenIds == []
  }

  lemma ConsLeafChain(ts: seq<Thought>, id: Id, q: seq<Id>)
    requires id < |ts| && IsLeafChain(ts, q) && q[0] in ts[id].childrenIds
    ensures IsLeafChain(ts, [id] + q)
  {
    var p := [id] + q;
    forall i | 0 <= i < |p| - 1 ensures p[i + 1] in ts[p[i]].childrenIds {
      if i > 0 {
        assert p[i] == q[i - 1] && p[i + 1] == q[i];
      }
    }
  }

  /** Every enumerated path extends the prefix with a leaf chain that starts at `id`. */
  lemma {:induction false} PathsAreLeafChains(ts: seq<Thought>, id: Id, prefix: seq<Id>)
    requires ChildrenAfter(ts) && id < |ts|
    ensures forall p :: p in Paths(ts, id, prefix) ==>
      |p| > |prefix| && p[..|prefix|] == prefix && p[|prefix|] == id && IsLeafChain(ts, p[|prefix|..])
    decreases |ts| - id, 1
  {
    var path := prefix + [id];
    if ts[id].childrenIds == [] {
      assert path[|prefix|..] == [id];
    } else {
      ChildPathsAreLeafChains(ts, id, ts[id].childrenIds, path);
      forall p | p in Paths(ts, id, prefix)
        ensures |p| > |prefix| && p[..|prefix|] == prefix && p[|prefix|] == id && IsLeafChain(ts, p[|prefix|..])
      {
        var q := p[|path|..];
        assert p[..|path|] == path;
        assert p[..|prefix|] == path[..|prefix|];
        assert p[|prefix|..] == [id] + q;
        ConsLeafChain(ts, id, q);
      }
    }
  }

  lemma {:induction false} ChildPathsAreLeafChains(ts: seq<Thought>, parent: Id, kids: seq<Id>, prefix: seq<Id>)
    requires ChildrenAfter(ts) && parent < |ts|
    requires forall j :: 0 <= j < |kids| ==> parent < kids[j]
    ensures forall p :: p in ChildPaths(ts, parent, kids, prefix) ==>
      |p| > |prefix| && p[..|prefix|] == prefix && p[|prefix|] in kids && IsLeafChain(ts, p[|prefix|..])
    decreases |ts| - parent, 0, |kids|
  {
    if kids != [] {
      var c := kids[|kids| - 1];
      var front := kids[..|kids| - 1];
      ChildPathsAreLeafChains(ts, parent, front, prefix);
      if c < |ts| {
        PathsAreLeafChains(ts, c, prefix);
      }
      forall p | p in ChildPaths(ts, parent, kids, prefix)
        ensures |p| > |prefix| && p[..|prefix|] == prefix && p[|prefix|] in kids && IsLeafChain(ts, p[|prefix|..])
      {
        if p in ChildPaths(ts, parent, front, prefix) {
          assert p[|prefix|] in front;
        }
      }
    }
  }

  /** Conversely, every leaf chain that starts at `id` is enumerated, after the prefix. */
  lemma {:induction false} PathsComplete(ts: seq<Thought>, id: Id, prefix: seq<Id>, q: seq<Id>)
    requires ChildrenAfter(ts) && id < |ts|
    requires IsLeafChain(ts, q) && q[0] == id
    ensures prefix + q in Paths(ts, id, prefix)
    decreases |ts| - id, 1
  {
    var path := prefix + [id];
    assert |q| > 1 ==> q[1] in ts[id].childrenIds;
    if ts[id].childrenIds == [] {
      assert q == [id];
    } else {
      assert |q| > 1;
      var rest := q[1..];
      assert rest[0] == q[1] && q[1] in ts[id].childrenIds;
      assert IsLeafChain(ts, rest) by {
        forall i | 0 <= i < |rest| - 1 ensures rest[i + 1] in ts[rest[i]].childrenIds {
          assert rest[i] == q[i + 1] && rest[i + 1] == q[i + 2];
        }
      }
      ChildPathsComplete(ts, id, ts[id].childrenIds, path, rest);
      assert path + rest == prefix + q;
    }
  }

  lemma {:induction false} ChildPathsComplete(ts: seq<Thought>, parent: Id, kids: seq<Id>, prefix: seq<Id>, q: seq<Id>)
    requires ChildrenAfter(ts) && parent < |ts|
    requires forall j :: 0 <= j < |kids| ==> parent < kids[j]
    requires IsLeafChain(ts, q) && q[0] in kids
    ensures prefix + q in ChildPaths(ts, parent, kids, prefix)
    decreases |ts| - parent, 0, |kids|
  {
    var c := kids[|kids| - 1];
    var front := kids[..|kids| - 1];
    if q[0] == c {
      PathsComplete(ts, c, prefix, q);
    } else {
      assert q[0] in front;
      ChildPathsComplete(ts, parent, front, prefix, q);
    }
  }

  /** With every child stored, a thought always has at least one path. */
  lemma {:induction false} PathsNonEmpty(ts: seq<Thought>, id: Id, prefix: seq<Id>)
    requires ChildrenAfter(ts) && ChildrenStored(ts) && id < |ts|
    ensures |Paths(ts, id, prefix)| > 0
    decreases |ts| - id
  {
    var kids := ts[id].childrenIds;
    if kids != [] {
      var c := kids[|kids| - 1];
      PathsNonEmpty(ts, c, prefix + [id]);
    }
  }

  /** Sum of the overall scores of the stored ids of `ids` (missing ids are skipped). */
  function SumPresent(ts: seq<Thought>, ids: seq<Id>): real {
    if ids == [] then 0.0
    else
      var last := ids[|ids| - 1];
      SumPresent(ts, ids[..|ids| - 1]) + (if last < |ts| then ts[last].overall else 0.0)
  }

  /** Number of stored ids in `ids`. */
  function CountPresent(ts: seq<Thought>, ids: seq<Id>): (n: nat)
    ensures n <= |ids|
  {
    if ids == [] then 0
    else CountPresent(ts, ids[..|ids| - 1]) + (if ids[|ids| - 1] < |ts| then 1 else 0)
  }

  lemma {:induction false} SumPresentBounds(ts: seq<Thought>, ids: seq<Id>)
    requires WellFormed(ts)
    ensures 0.0 <= SumPresent(ts, ids) <= CountPresent(ts, ids) as real
    decreases |ids|
  {
    if ids != [] {
      SumPresentBounds(ts, ids[..|ids| - 1]);
      var last := ids[|ids| - 1];
      if last < |ts| {
        assert WellPlaced(ts, last);
      }
    }
  }

  lemma {:induction false} AllPresentCount(ts: seq<Thought>, ids: seq<Id>)
    requires forall i :: 0 <= i < |ids| ==> ids[i] < |ts|
    ensures CountPresent(ts, ids) == |ids|
    decreases |ids|
  {
    if ids != [] {
      AllPresentCount(ts, ids[..|ids| - 1]);
    }
  }

  /**
   * A branch's score in `evaluate_branches`: the mean overall score of its
   * stored thoughts, or 0.0 when none is stored.
   */
  function BranchMean(ts: seq<Thought>, ids: seq<Id>): real {
    var n := CountPresent(ts, ids);
    if n > 0 then SumPresent(ts, ids) / (n as real) else 0.0
  }

  /** A path's score in `select_best_path`: the mean overall score along it. */
  function PathMean(ts: seq<Thought>, path: seq<Id>): real
    requires |path| > 0
  {
    SumPresent(ts, path) / (|path| as real)
  }

  lemma MeanInUnit(s: real, n: real)
    requires 0.0 <= s <= n && n > 0.0
    ensures 0.0 <= s / n <= 1.0
  {
    var m := s / n;
    assert m * n == s;
  }

  /** Both means lie in [0, 1] because every overall score does. */
  lemma MeansInUnit(ts: seq<Thought>, ids: seq<Id>)
    requires WellFormed(ts)
    ensures 0.0 <= BranchMean(ts, ids) <= 1.0
    ensures (|ids| > 0 && forall i :: 0 <= i < |ids| ==> ids[i] < |ts|) ==>
      0.0 <= PathMean(ts, ids) <= 1.0 && PathMean(ts, ids) == BranchMean(ts, ids)
  {
    SumPresentBounds(ts, ids);
    var n := CountPresent(ts, ids);
    if n > 0 {
      MeanInUnit(SumPresent(ts, ids), n as real);
    }
    if |ids| > 0 && forall i :: 0 <= i < |ids| ==> ids[i] < |ts| {
      AllPresentCount(ts, ids);
    }
  }

  function Means(ts: seq<Thought>, ps: seq<seq<Id>>): (ms: seq<real>)
    requires forall k :: 0 <= k < |ps| ==> |ps[k]| > 0
    ensures |ms| == |ps|
    ensures forall k :: 0 <= k < |ps| ==> ms[k] == PathMean(ts, ps[k])
  {
    seq(|ps|, k requires 0 <= k < |ps| => PathMean(ts, ps[k]))
  }

  /**
   * `select_best_path`'s choice: [] for an unknown id; otherwise the first
   * enumerated path whose mean is maximal.
   */
  function BestPath(ts: seq<Thought>, from: Id): seq<Id>
    requires WellFormed(ts)
  {
    WellFormedChildren(ts);
    if from >= |ts| then []
    else
      var ps := Paths(ts, from, []);
      PathsAreLeafChains(ts, from, []);
      if ps == [] then [] else ps[ArgMaxFirst(Means(ts, ps))]
  }

  /**
   * For a stored thought the chosen path runs parent to child from that
   * thought down to a leaf; no enumerated path has a strictly larger mean, and
   * every path enumerated before it has a strictly smaller one (ties go to the
   * first in depth-first order).
   */
  lemma BestPathIsFirstBest(ts: seq<Thought>, from: Id)
    requires WellFormed(ts) && from < |ts|
    ensures ChildrenAfter(ts)
    ensures var b := BestPath(ts, from);
      var ps := Paths(ts, from, []);
      && IsLeafChain(ts, b) && b[0] == from
      && (forall j :: 0 <= j < |ps| ==> IsLeafChain(ts, ps[j]) && ps[j][0] == from)
      && (forall j :: 0 <= j < |ps| ==> PathMean(ts, ps[j]) <= PathMean(ts, b))
      && exists k :: 0 <= k < |ps| && ps[k] == b && forall j :: 0 <= j < k ==> PathMean(ts, ps[j]) < PathMean(ts, b)
  {
    WellFormedChildren(ts);
    var ps := Paths(ts, from, []);
    RootPathsAreLeafChains(ts, from);
    PathsNonEmpty(ts, from, []);
    var ms := Means(ts, ps);
    var k := ArgMaxFirst(ms);
    var b := ps[k];
    assert BestPath(ts, from) == b;
    forall j | 0 <= j < |ps| ensures PathMean(ts, ps[j]) <= PathMean(ts, b) {
      assert ms[j] <= ms[k];
    }
    assert forall j :: 0 <= j < k ==> PathMean(ts, ps[j]) < PathMean(ts, b) by {
      forall j | 0 <= j < k ensures PathMean(ts, ps[j]) < PathMean(ts, b) {
        assert ms[j] < ms[k];
      }
    }
  }

  /**
   * The choice is optimal over every chain from `from` down to a leaf, not
   * only over the enumerated ones: the enumeration misses none of them.
   */
  lemma BestPathBeatsEveryChain(ts: seq<Thought>, from: Id, q: seq<Id>)
    requires WellFormed(ts) && from < |ts|
    requires IsLeafChain(ts, q) && q[0] == from
    ensures var b := BestPath(ts, from); |b| > 0 && PathMean(ts, q) <= PathMean(ts, b)
  {
    BestPathIsFirstBest(ts, from);
    var ps := Paths(ts, from, []);
    PathsComplete(ts, from, [], q);
    assert [] + q == q;
    var j :| 0 <= j < |ps| && ps[j] == q;
  }

  /** Each path from `from` starts at `from` and runs down to a leaf. */
  lemma RootPathsAreLeafChains(ts: seq<Thought>, from: Id)
    requires ChildrenAfter(ts) && from < |ts|
    ensures var ps := Paths(ts, from, []);
      forall j :: 0 <= j < |ps| ==> IsLeafChain(ts, ps[j]) && ps[j][0] == from
  {
    var ps := Paths(ts, from, []);
    PathsAreLeafChains(ts, from, []);
    forall j | 0 <= j < |ps| ensures IsLeafChain(ts, ps[j]) && ps[j][0] == from {
      var p := ps[j];
      assert p in ps;
      assert p[0..] == p;
    }
  }

  /** Every thought on the chosen path is stored, so the marking loop never misses. */
  lemma BestPathStored(ts: seq<Thought>, from: Id)
    requires WellFormed(ts)
    ensures forall i :: 0 <= i < |BestPath(ts, from)| ==> BestPath(ts, from)[i] < |ts|
  {
    if from < |ts| {
      BestPathIsFirstBest(ts, from);
    }
  }

  // ---------------------------------------------------------------------------
  // The attention stack
  // ---------------------------------------------------------------------------

  /** `current_focus` and `attention_stack`. */
  datatype Attention = Attention(focus: Option<Id>, stack: seq<Id>)
  {
    /** `set_focus` on a stored id: the previous focus, if any, is pushed. */
    function Focused(id: Id): (a: Attention)
      ensures a.focus == Some(id)
      ensures |a.stack| == |stack| + (if focus.Some? then 1 else 0)
      ensures a.stack[..|stack|] == stack
      ensures focus.Some? ==> a.stack[|stack|] == focus.value
    {
      Attention(Some(id), if focus.Some? then stack + [focus.value] else stack)
    }

    /** `pop_focus`: the top of the stack becomes the focus and is returned; an empty stack changes nothing. */
    function Pop(): (res: (Attention, Option<Id>))
      ensures stack == [] <==> res.1 == None
      ensures stack == [] ==> res.0 == this
      ensures stack != [] ==> res.0.focus == res.1 && |res.0.stack| == |stack| - 1
      ensures stack != [] ==> res.1 == Some(stack[|stack| - 1]) && res.0.stack == stack[..|stack| - 1]
    {
      if stack == [] then (this, None)
      else (Attention(Some(stack[|stack| - 1]), stack[..|stack| - 1]), Some(stack[|stack| - 1]))
    }
  }

  /** `set_focus` for each id in turn. */
  function FocusAll(a: Attention, ids: seq<Id>): Attention
    decreases |ids|
  {
    if ids == [] then a else FocusAll(a.Focused(ids[0]), ids[1..])
  }

  /** The focus in force just before each of those `set_focus` calls. */
  function PriorFoci(a: Attention, ids: seq<Id>): (r: seq<Option<Id>>)
    ensures |r| == |ids|
    decreases |ids|
  {
    if ids == [] then [] else [a.focus] + PriorFoci(a.Focused(ids[0]), ids[1..])
  }

  /** `n` calls of `pop_focus`: the final attention state and the values returned, in call order. */
  function PopTimes(a: Attention, n: nat): (Attention, seq<Option<Id>>) {
    if n == 0 then (a, [])
    else
      var (b, rs) := PopTimes(a, n - 1);
      var (c, r) := b.Pop();
      (c, rs + [r])
  }

  /**
   * LIFO: after a run of `set_focus` calls from a state with a focus, as many
   * `pop_focus` calls hand back the earlier foci newest first and restore the
   * original focus and stack exactly.
   */
  lemma {:induction false} PopsUndoFocuses(a: Attention, ids: seq<Id>)
    requires a.focus.Some?
    ensures PopTimes(FocusAll(a, ids), |ids|) == (a, Reverse(PriorFoci(a, ids)))
    decreases |ids|
  {
    if ids != [] {
      var a' := a.Focused(ids[0]);
      PopsUndoFocuses(a', ids[1..]);
      var prior := PriorFoci(a, ids);
      assert prior[1..] == PriorFoci(a', ids[1..]);
    }
  }
}
