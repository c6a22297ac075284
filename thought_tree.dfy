/**
 * `ThoughtTreeModule`: the store of thoughts, the alternative branches, the
 * attention focus with its stack, and the bounded reasoning log, all updated
 * in place by the module's operations.
 */
module ThoughtTree {
  import opened Wrappers
  import opened PyStr
  import opened PyValue
  import opened Seqs
  import opened Bounded
  import opened Ordering
  import opened Thoughts
  import opened Levels

  /** The reasoning log keeps its last 1000 entries. */
  const LogCap: nat := 1000

  // ---------------------------------------------------------------------------
  // Branches
  // ---------------------------------------------------------------------------

  datatype BranchStatus = Exploring | BranchEvaluated | BranchSelected | Abandoned

  /** `ThoughtBranch`; the uuid becomes a number handed out by the module. */
  datatype Branch = Branch(id: nat, name: string, rootThoughtId: Id, thoughtIds: seq<Id>,
                           status: BranchStatus, depth: nat, branchScore: real)
  {
    /** The shape every branch keeps: its root first, no repeats, depth = number of thoughts. */
    predicate Ok() {
      thoughtIds != [] && thoughtIds[0] == rootThoughtId && NoDup(thoughtIds) && depth == |thoughtIds|
    }

    /** `ThoughtBranch.add_thought`: append unless already present; depth follows the length. */
    function AddThought(thoughtId: Id): (b: Branch)
      ensures thoughtId in b.thoughtIds
      ensures thoughtId in thoughtIds ==> b == this
      ensures thoughtId !in thoughtIds ==> b.thoughtIds == thoughtIds + [thoughtId] && b.depth == |b.thoughtIds|
      ensures Ok() ==> b.Ok()
      ensures b == this.(thoughtIds := b.thoughtIds, depth := b.depth)
    {
      if thoughtId in thoughtIds then this
      else this.(thoughtIds := thoughtIds + [thoughtId], depth := |thoughtIds| + 1)
    }
  }

  /** `ThoughtBranch(name, root)`: exploring, only the root, depth 1, score 0.5. */
  function NewBranch(id: nat, name: string, root: Id): (b: Branch)
    ensures b.Ok() && b.status == Exploring && b.thoughtIds == [root]
  {
    Branch(id, name, root, [root], Exploring, 1, 0.5)
  }

  /** `branch_name or len(alternatives) > 1`: whether branch_thought records branches. */
  predicate MakesBranches(branchName: string, count: nat) {
    branchName != [] || count > 1
  }

  /**
   * The name of the branch for the i-th alternative (0-based). The loop
   * rebinds `branch_name` on its first pass, so an unnamed call labels every
   * branch after the first alternative: "Альтернатива 1_1", "Альтернатива 1_2", ...
   */
  function BranchLabel(branchName: string, i: nat): string {
    (if branchName != [] then branchName else AlternativeName(1)) + "_" + NatToString(i + 1)
  }

  /** The default name `f"Альтернатива {k}"`. */
  function AlternativeName(k: nat): string {
    "Альтернатива " + NatToString(k)
  }

  /** The branches recorded for `n` alternatives whose thoughts got ids `first`, `first + 1`, ... */
  function NewBranches(start: nat, first: Id, branchName: string, n: nat): (m: map<nat, Branch>)
    ensures forall j :: j in m <==> start <= j < start + n
  {
    if n == 0 then map[]
    else NewBranches(start, first, branchName, n - 1)[start + n - 1 := NewBranch(start + n - 1, BranchLabel(branchName, n - 1), first + n - 1)]
  }

  /** Recording one more branch extends the recorded map by that branch. */
  lemma NewBranchesSnoc(base: map<nat, Branch>, start: nat, first: Id, branchName: string, n: nat)
    ensures base + NewBranches(start, first, branchName, n + 1)
         == (base + NewBranches(start, first, branchName, n))[start + n := NewBranch(start + n, BranchLabel(branchName, n), first + n)]
  {
  }

  /** The branch map after `i` passes of branch_thought's loop over `count` alternatives. */
  function BranchesAfter(base: map<nat, Branch>, start: nat, first: Id, branchName: string, count: nat, i: nat): map<nat, Branch> {
    if MakesBranches(branchName, count) then base + NewBranches(start, first, branchName, i) else base
  }

  /** The next branch id after `i` passes of branch_thought's loop over `count` alternatives. */
  function NextBranchAfter(start: nat, branchName: string, count: nat, i: nat): nat {
    if MakesBranches(branchName, count) then start + i else start
  }

  /** The name the first unnamed alternative gets. */
  lemma FirstAlternativeName()
    ensures AlternativeName(1) == "Альтернатива 1"
  {
    assert NatToString(1) == "1";
  }

  /** `evaluate_branches` on one branch: an exploring branch gets the mean score of its stored thoughts. */
  function ScoredBranch(b: Branch, ts: seq<Thought>): Branch {
    if b.status == Exploring then b.(branchScore := BranchMean(ts, b.thoughtIds)) else b
  }

  /** Each branch sits under its own id, below the next id to hand out, and keeps its shape. */
  predicate BranchMapOk(m: map<nat, Branch>, next: nat) {
    forall b :: b in m ==> b < next && m[b].id == b && m[b].Ok()
  }

  /** The branch map partway through `evaluate_branches`: those outside `todo` are scored. */
  function PartlyScored(br0: map<nat, Branch>, todo: set<nat>, ts: seq<Thought>): (m: map<nat, Branch>)
    ensures m.Keys == br0.Keys
  {
    map b | b in br0 :: if b in todo then br0[b] else ScoredBranch(br0[b], ts)
  }

  /** The scores returned so far: one per exploring branch outside `todo`. */
  function ScoresSoFar(br0: map<nat, Branch>, todo: set<nat>, ts: seq<Thought>): (m: map<nat, real>)
    ensures forall b :: b in m <==> b in br0 && b !in todo && br0[b].status == Exploring
  {
    map b | b in br0 && b !in todo && br0[b].status == Exploring :: BranchMean(ts, br0[b].thoughtIds)
  }

  /** Scoring one more branch extends both maps by that branch. */
  lemma ScoringStep(br0: map<nat, Branch>, todo: set<nat>, ts: seq<Thought>, b: nat)
    requires b in todo && b in br0
    ensures PartlyScored(br0, todo - {b}, ts) == PartlyScored(br0, todo, ts)[b := ScoredBranch(br0[b], ts)]
    ensures br0[b].status == Exploring ==>
      ScoresSoFar(br0, todo - {b}, ts) == ScoresSoFar(br0, todo, ts)[b := BranchMean(ts, br0[b].thoughtIds)]
    ensures br0[b].status != Exploring ==> ScoresSoFar(br0, todo - {b}, ts) == ScoresSoFar(br0, todo, ts)
  {
  }

  /** Scoring changes only scores, so the branch map keeps its shape. */
  lemma PartlyScoredOk(br0: map<nat, Branch>, todo: set<nat>, ts: seq<Thought>, next: nat)
    requires BranchMapOk(br0, next)
    ensures BranchMapOk(PartlyScored(br0, todo, ts), next)
  {
  }

  // ---------------------------------------------------------------------------
  // The reasoning log
  // ---------------------------------------------------------------------------

  /** The `data` payload of each `_log_reasoning` call; the action name is `Action()`. */
  datatype Event =
    | ThoughtAdded(thoughtId: Id, content: string, thoughtType: ThoughtType, parentId: Option<Id>)
    | ThoughtBranched(branchedFrom: Id, alternativesCount: nat, newThoughtIds: seq<Id>)
    | ThoughtCritiqued(thoughtId: Id, critiquesGenerated: nat)
    | FocusChanged(newFocus: Id, thoughtContent: string)
    | BestPathSelected(fromThought: Id, path: seq<Id>, pathLength: nat)
  {
    function Action(): string {
      match this
      case ThoughtAdded(_, _, _, _) => "thought_added"
      case ThoughtBranched(_, _, _) => "thought_branched"
      case ThoughtCritiqued(_, _) => "thought_critiqued"
      case FocusChanged(_, _) => "focus_changed"
      case BestPathSelected(_, _, _) => "best_path_selected"
    }
  }

  datatype LogEntry = LogEntry(timestamp: Time, event: Event)

  /** The `thought_added` entries written while `texts` are added as children of `parent`, ids from `start`. */
  function AddedEvents(start: Id, parent: Id, texts: seq<string>, thoughtType: ThoughtType, now: Time): seq<LogEntry> {
    seq(|texts|, j requires 0 <= j < |texts| => LogEntry(now, ThoughtAdded(start + j, texts[j], thoughtType, Some(parent))))
  }

  /** Logging one more `thought_added` entry extends the bounded log by the next event. */
  lemma AddedEventsSnoc(log: seq<LogEntry>, start: Id, parent: Id, texts: seq<string>, thoughtType: ThoughtType, now: Time, i: nat)
    requires i < |texts|
    ensures KeepLast(KeepLast(log + AddedEvents(start, parent, texts[..i], thoughtType, now), LogCap)
                     + [LogEntry(now, ThoughtAdded(start + i, texts[i], thoughtType, Some(parent)))], LogCap)
         == KeepLast(log + AddedEvents(start, parent, texts[..i + 1], thoughtType, now), LogCap)
  {
    var pre := log + AddedEvents(start, parent, texts[..i], thoughtType, now);
    var e := LogEntry(now, ThoughtAdded(start + i, texts[i], thoughtType, Some(parent)));
    KeepLastAppend(pre, [e], LogCap);
    assert AddedEvents(start, parent, texts[..i + 1], thoughtType, now) == AddedEvents(start, parent, texts[..i], thoughtType, now) + [e];
  }

  // ---------------------------------------------------------------------------
  // Marking the best path
  // ---------------------------------------------------------------------------

  /** The arena after the thoughts on `path` are marked SELECTED (their timestamps untouched). */
  function MarkSelected(ts: seq<Thought>, path: seq<Id>): (r: seq<Thought>)
    ensures |r| == |ts|
    ensures forall k :: 0 <= k < |ts| ==> r[k] == ts[k].(status := r[k].status)
    ensures forall k :: 0 <= k < |ts| ==> (r[k].status == Selected <==> k in path || ts[k].status == Selected)
  {
    seq(|ts|, k requires 0 <= k < |ts| => if k in path then ts[k].(status := Selected) else ts[k])
  }

  /** Marking changes only statuses, so the arena stays well formed. */
  lemma MarkSelectedKeepsWellFormed(ts: seq<Thought>, path: seq<Id>)
    requires WellFormed(ts)
    ensures WellFormed(MarkSelected(ts, path))
  {
    var r := MarkSelected(ts, path);
    forall k | 0 <= k < |r| ensures WellPlaced(r, k) {
      assert WellPlaced(ts, k);
      assert forall c :: 0 <= c < |ts| ==> r[c].childrenIds == ts[c].childrenIds && r[c].parentId == ts[c].parentId;
    }
  }

  /** Marking an empty path changes nothing. */
  lemma MarkNothing(ts: seq<Thought>)
    ensures MarkSelected(ts, []) == ts
  {
    assert forall k :: 0 <= k < |ts| ==> MarkSelected(ts, [])[k] == ts[k];
  }

  /** Marking one more stored thought of the path sets that thought's status. */
  lemma MarkSelectedSnoc(ts: seq<Thought>, path: seq<Id>, i: nat)
    requires i < |path| && path[i] < |ts|
    ensures var r := MarkSelected(ts, path[..i]);
      MarkSelected(ts, path[..i + 1]) == r[path[i] := r[path[i]].(status := Selected)]
  {
    var r := MarkSelected(ts, path[..i]);
    assert path[..i + 1] == path[..i] + [path[i]];
    assert forall k :: 0 <= k < |ts| ==> (k in path[..i + 1] <==> k in path[..i] || k == path[i]);
  }

  // ---------------------------------------------------------------------------
  // Hypotheses
  // ---------------------------------------------------------------------------

  /** The overall scores of the thoughts `ids`, in order: the key of `max(hypothesis_ids, key=...)`. */
  function Overalls(ts: seq<Thought>, ids: seq<Id>): (r: seq<real>)
    requires forall k :: 0 <= k < |ids| ==> ids[k] < |ts|
    ensures |r| == |ids| && forall k :: 0 <= k < |ids| ==> r[k] == ts[ids[k]].overall
  {
    seq(|ids|, k requires 0 <= k < |ids| => ts[ids[k]].overall)
  }

  /** The arena after `generate_hypothesis`: the observation, then its three hypotheses under it. */
  function WithHypotheses(ts: seq<Thought>, observation: string, context: map<string, Value>, now: Time): (r: seq<Thought>)
    ensures |r| == |ts| + 4
  {
    AddedAll(Added(ts, observation, Observation, None, context, now), |ts|, Hypotheses(observation), Hypothesis, now)
  }

  /**
   * The three hypotheses differ only in feasibility, and only the first can be
   * short: it wins (the first of equal maxima) unless the observation has fewer
   * than two characters, when the second does.
   */
  lemma HypothesisChoice(ts: seq<Thought>, observation: string, context: map<string, Value>, now: Time)
    ensures var r := WithHypotheses(ts, observation, context, now);
      ArgMaxFirst(Overalls(r, Range(|ts| + 1, |ts| + 4))) == if |observation| >= 2 then 0 else 1
  {
    var obs := Added(ts, observation, Observation, None, context, now);
    var hs := Hypotheses(observation);
    var r := WithHypotheses(ts, observation, context, now);
    AddedAllNew(obs, |ts|, hs, Hypothesis, now);
    var xs := Overalls(r, Range(|ts| + 1, |ts| + 4));
    var long := Weighted(0.8, 0.6, 0.3, 0.5);
    var short := Weighted(0.5, 0.6, 0.3, 0.5);
    assert r[|ts| + 1] == FreshThought(|ts| + 1, hs[0], Hypothesis, Some(|ts|), map[], now);
    assert r[|ts| + 2] == FreshThought(|ts| + 2, hs[1], Hypothesis, Some(|ts|), map[], now);
    assert r[|ts| + 3] == FreshThought(|ts| + 3, hs[2], Hypothesis, Some(|ts|), map[], now);
    assert xs[0] == if |observation| >= 2 then long else short;
    assert xs[1] == long && xs[2] == long;
    assert short < long;
  }

  // ---------------------------------------------------------------------------
  // Visualization
  // ---------------------------------------------------------------------------

  datatype Node = Node(id: Id, caption: string, thoughtType: string, status: string, score: real, isFocus: bool)

  datatype Edge = Edge(from: Id, to: Id)

  /** A node label: the first 50 characters and "..." for longer contents. */
  function Label(content: string): (caption: string)
    ensures |content| <= 50 ==> caption == content
    ensures |content| > 50 ==> |caption| == 53 && caption[..50] == content[..50] && caption[50..] == "..."
  {
    if |content| > 50 then content[..50] + "..." else content
  }

  function NodeOf(id: Id, t: Thought, focus: Option<Id>): Node {
    Node(id, Label(t.content), t.thoughtType.Value(), t.status.Value(), t.overall, focus == Some(id))
  }

  /** One node per stored thought, in id order. */
  function Nodes(ts: seq<Thought>, focus: Option<Id>, n: nat): seq<Node>
    requires n <= |ts|
  {
    seq(n, k requires 0 <= k < n => NodeOf(k, ts[k], focus))
  }

  function ChildEdges(from: Id, kids: seq<Id>): seq<Edge> {
    seq(|kids|, j requires 0 <= j < |kids| => Edge(from, kids[j]))
  }

  /** The edges of the first `n` thoughts: each thought's child list, in order. */
  function EdgesOf(ts: seq<Thought>, n: nat): seq<Edge>
    requires n <= |ts|
  {
    if n == 0 then [] else EdgesOf(ts, n - 1) + ChildEdges(n - 1, ts[n - 1].childrenIds)
  }

  /** An edge is listed exactly when its target is in its source's child list. */
  lemma {:induction false} EdgesAreChildLinks(ts: seq<Thought>, n: nat)
    requires n <= |ts|
    ensures forall e :: e in EdgesOf(ts, n) <==> e.from < n && e.to in ts[e.from].childrenIds
  {
    if n > 0 {
      EdgesAreChildLinks(ts, n - 1);
      var kids := ts[n - 1].childrenIds;
      forall e: Edge ensures e in ChildEdges(n - 1, kids) <==> e.from == n - 1 && e.to in kids {
        if e.from == n - 1 && e.to in kids {
          var j :| 0 <= j < |kids| && kids[j] == e.to;
          assert ChildEdges(n - 1, kids)[j] == e;
        }
      }
    }
  }

  /**
   * In a well-formed arena the edges are exactly the parent links: an edge
   * `p -> c` is drawn if and only if `c` is stored, names `p` as its parent
   * and was added after it.
   */
  lemma EdgesAreParentLinks(ts: seq<Thought>)
    requires WellFormed(ts)
    ensures forall e :: e in EdgesOf(ts, |ts|) <==>
      e.to < |ts| && ts[e.to].parentId == Some(e.from) && e.from < e.to
  {
    EdgesAreChildLinks(ts, |ts|);
    forall e: Edge | e.from < |ts| && e.to in ts[e.from].childrenIds
      ensures e.to < |ts| && ts[e.to].parentId == Some(e.from) && e.from < e.to
    {
      var j :| 0 <= j < |ts[e.from].childrenIds| && ts[e.from].childrenIds[j] == e.to;
      assert WellPlaced(ts, e.from);
    }
    forall e: Edge | e.to < |ts| && ts[e.to].parentId == Some(e.from) && e.from < e.to
      ensures e.to in ts[e.from].childrenIds
    {
      assert WellPlaced(ts, e.to);
    }
  }

  // ---------------------------------------------------------------------------
  // The module
  // ---------------------------------------------------------------------------

  class ThoughtTreeModule {
    var thoughts: seq<Thought>
    var branches: map<nat, Branch>
    var nextBranchId: nat
    var currentFocus: Option<Id>
    var attentionStack: seq<Id>
    var reasoningLog: seq<LogEntry>
    var critiqueEnabled: bool

    /** The store keeps the arena shape of `WellFormed`. */
    ghost predicate ThoughtsValid()
      reads this`thoughts
    {
      WellFormed(thoughts)
    }

    /** The focus and every id on the attention stack name stored thoughts. */
    ghost predicate AttentionValid()
      reads this`thoughts, this`currentFocus, this`attentionStack
    {
      && (currentFocus.Some? ==> currentFocus.value < |thoughts|)
      && (forall i :: 0 <= i < |attentionStack| ==> attentionStack[i] < |thoughts|)
    }

    /** Each branch sits under its own id, below the next id to hand out, and keeps its shape. */
    ghost predicate BranchesValid()
      reads this`branches, this`nextBranchId
    {
      BranchMapOk(branches, nextBranchId)
    }

    ghost predicate Valid()
      reads this
    {
      ThoughtsValid() && AttentionValid() && |reasoningLog| <= LogCap && BranchesValid()
    }

    constructor ()
      ensures Valid()
      ensures thoughts == [] && branches == map[] && reasoningLog == []
      ensures currentFocus == None && attentionStack == [] && critiqueEnabled
    {
      thoughts := [];
      branches := map[];
      nextBranchId := 0;
      currentFocus := None;
      attentionStack := [];
      reasoningLog := [];
      critiqueEnabled := true;
    }

    /** `_log_reasoning`: append the entry, then keep only the last 1000. */
    method LogReasoning(event: Event, now: Time)
      modifies this`reasoningLog
      ensures reasoningLog == KeepLast(old(reasoningLog) + [LogEntry(now, event)], LogCap)
      ensures |reasoningLog| <= LogCap
    {
      reasoningLog := reasoningLog + [LogEntry(now, event)];
      if |reasoningLog| > LogCap {
        reasoningLog := reasoningLog[|reasoningLog| - LogCap..];
      }
    }

    /** `_auto_evaluate_thought`: score a stored thought; an unknown id changes nothing. */
    method AutoEvaluateThought(id: Id, now: Time)
      modifies this`thoughts
      ensures thoughts == if id < |old(thoughts)| then old(thoughts)[id := AutoEvaluated(old(thoughts), id, now)] else old(thoughts)
    {
      if id >= |thoughts| {
        return;
      }
      var thought := thoughts[id];
      var feasibility := if |thought.content| > 20 then 0.8 else 0.5;
      var confidence := ConfidenceFor(thought.thoughtType);
      var novelty := if !SimilarThoughtExists(thoughts, thought.content) then 0.7 else 0.3;
      var relevance := if thought.context != map[] then 0.8 else 0.5;
      thoughts := thoughts[id := thought.UpdateScores(Some(feasibility), Some(confidence), Some(novelty), Some(relevance), now)];
    }

    /**
     * `add_thought`: store a new thought under the next id, link it under a
     * stored parent, auto-evaluate it and log it.
     */
    method AddThought(content: string, thoughtType: ThoughtType, parentId: Option<Id>,
                      context: map<string, Value>, now: Time) returns (id: Id)
      requires Valid()
      modifies this`thoughts, this`reasoningLog
      ensures Valid()
      ensures id == old(|thoughts|)
      ensures thoughts == Added(old(thoughts), content, thoughtType, parentId, context, now)
      ensures reasoningLog == KeepLast(old(reasoningLog) + [LogEntry(now, ThoughtAdded(id, content, thoughtType, parentId))], LogCap)
      ensures branches == old(branches) && nextBranchId == old(nextBranchId)
      ensures currentFocus == old(currentFocus) && attentionStack == old(attentionStack)
      ensures critiqueEnabled == old(critiqueEnabled)
    {
      ghost var ts := thoughts;
      id := |thoughts|;
      var thought := NewThought(id, content, thoughtType, parentId, now);
      if context != map[] {
        thought := thought.(context := context);
      }
      var arena := thoughts + [thought];
      if parentId.Some? && parentId.value < id {
        arena := arena[parentId.value := arena[parentId.value].AddChild(id, now)];
      }
      assert arena == Inserted(ts, content, thoughtType, parentId, context, now);
      thoughts := arena;
      AutoEvaluateThought(id, now);
      InsertedThenEvaluated(ts, content, thoughtType, parentId, context, now);
      AddedKeepsWellFormed(ts, content, thoughtType, parentId, context, now);
      LogReasoning(ThoughtAdded(id, content, thoughtType, parentId), now);
    }

    /** One round of the children loop: add `texts[i]` under `parent`. */
    method AddChildStep(parent: Id, texts: seq<string>, thoughtType: ThoughtType, now: Time, i: nat,
                        ghost ts0: seq<Thought>, ghost log0: seq<LogEntry>) returns (id: Id)
      requires Valid()
      requires i < |texts| && |thoughts| == |ts0| + i
      requires thoughts == AddedAll(ts0, parent, texts[..i], thoughtType, now)
      requires reasoningLog == KeepLast(log0 + AddedEvents(|ts0|, parent, texts[..i], thoughtType, now), LogCap)
      modifies this`thoughts, this`reasoningLog
      ensures Valid()
      ensures id == |ts0| + i && |thoughts| == |ts0| + i + 1
      ensures thoughts == AddedAll(ts0, parent, texts[..i + 1], thoughtType, now)
      ensures reasoningLog == KeepLast(log0 + AddedEvents(|ts0|, parent, texts[..i + 1], thoughtType, now), LogCap)
      ensures branches == old(branches) && nextBranchId == old(nextBranchId)
      ensures currentFocus == old(currentFocus) && attentionStack == old(attentionStack)
      ensures critiqueEnabled == old(critiqueEnabled)
    {
      ghost var before := thoughts;
      id := AddThought(texts[i], thoughtType, Some(parent), map[], now);
      AddedAllSnoc(ts0, parent, texts, thoughtType, now, i, before, thoughts);
      AddedEventsSnoc(log0, |ts0|, parent, texts, thoughtType, now, i);
    }

    /** The `for text in texts: self.add_thought(text, type, parent_id=parent)` loops. */
    method AddChildren(parent: Id, texts: seq<string>, thoughtType: ThoughtType, now: Time) returns (ids: seq<Id>)
      requires Valid()
      modifies this`thoughts, this`reasoningLog
      ensures Valid()
      ensures |ids| == |texts| && forall k :: 0 <= k < |ids| ==> ids[k] == old(|thoughts|) + k
      ensures thoughts == AddedAll(old(thoughts), parent, texts, thoughtType, now)
      ensures reasoningLog == KeepLast(old(reasoningLog) + AddedEvents(old(|thoughts|), parent, texts, thoughtType, now), LogCap)
      ensures branches == old(branches) && nextBranchId == old(nextBranchId)
      ensures currentFocus == old(currentFocus) && attentionStack == old(attentionStack)
      ensures critiqueEnabled == old(critiqueEnabled)
    {
      var n0 := |thoughts|;
      ids := [];
      var i := 0;
      while i < |texts|
        invariant 0 <= i <= |texts|
        invariant Valid()
        invariant |thoughts| == n0 + i
        invariant |ids| == i && forall k :: 0 <= k < i ==> ids[k] == n0 + k
        invariant thoughts == AddedAll(old(thoughts), parent, texts[..i], thoughtType, now)
        invariant reasoningLog == KeepLast(old(reasoningLog) + AddedEvents(n0, parent, texts[..i], thoughtType, now), LogCap)
        invariant branches == old(branches) && nextBranchId == old(nextBranchId)
        invariant currentFocus == old(currentFocus) && attentionStack == old(attentionStack)
        invariant critiqueEnabled == old(critiqueEnabled)
      {
        var id := AddChildStep(parent, texts, thoughtType, now, i, old(thoughts), old(reasoningLog));
        ids := ids + [id];
        i := i + 1;
      }
      assert texts[..i] == texts;
    }

    /** The state after `i` passes of branch_thought's loop, started from `ts0`, `log0`, `br0` and branch id `b0`. */
    ghost predicate Branching(parentId: Id, alternatives: seq<string>, branchName: string, now: Time, i: nat, name: string,
                              ts0: seq<Thought>, log0: seq<LogEntry>, br0: map<nat, Branch>, b0: nat)
      reads this`thoughts, this`reasoningLog, this`branches, this`nextBranchId
    {
      && i <= |alternatives| && |thoughts| == |ts0| + i
      && thoughts == AddedAll(ts0, parentId, alternatives[..i], Alternative, now)
      && reasoningLog == KeepLast(log0 + AddedEvents(|ts0|, parentId, alternatives[..i], Alternative, now), LogCap)
      && name == (if MakesBranches(branchName, |alternatives|) && i > 0 && branchName == [] then AlternativeName(1) else branchName)
      && branches == BranchesAfter(br0, b0, |ts0|, branchName, |alternatives|, i)
      && nextBranchId == NextBranchAfter(b0, branchName, |alternatives|, i)
    }

    /** One pass of branch_thought's loop: add the i-th alternative and, if branches are made, its branch. */
    method BranchStep(parentId: Id, alternatives: seq<string>, branchName: string, now: Time, i: nat, name: string,
                      ghost ts0: seq<Thought>, ghost log0: seq<LogEntry>, ghost br0: map<nat, Branch>, b0: nat)
      returns (altId: Id, name': string)
      requires Valid() && i < |alternatives| && parentId < |ts0|
      requires Branching(parentId, alternatives, branchName, now, i, name, ts0, log0, br0, b0)
      modifies this`thoughts, this`reasoningLog, this`branches, this`nextBranchId
      ensures Valid() && altId == |ts0| + i
      ensures Branching(parentId, alternatives, branchName, now, i + 1, name', ts0, log0, br0, b0)
    {
      altId := AddChildStep(parentId, alternatives, Alternative, now, i, ts0, log0);
      name' := RecordBranch(branchName, |alternatives|, i, name, altId, br0, b0, |ts0|);
    }

    /** The branch half of one pass of branch_thought's loop, for the thought stored as `altId`. */
    method RecordBranch(branchName: string, count: nat, i: nat, name: string, altId: Id,
                        ghost br0: map<nat, Branch>, b0: nat, ghost first: Id) returns (name': string)
      requires BranchesValid()
      requires i < count && altId == first + i
      requires name == if MakesBranches(branchName, count) && i > 0 && branchName == [] then AlternativeName(1) else branchName
      requires branches == BranchesAfter(br0, b0, first, branchName, count, i) && nextBranchId == NextBranchAfter(b0, branchName, count, i)
      modifies this`branches, this`nextBranchId
      ensures BranchesValid()
      ensures name' == if MakesBranches(branchName, count) && branchName == [] then AlternativeName(1) else branchName
      ensures branches == BranchesAfter(br0, b0, first, branchName, count, i + 1) && nextBranchId == NextBranchAfter(b0, branchName, count, i + 1)
    {
      name' := name;
      if name' != [] || count > 1 {
        name' := if name' != [] then name' else AlternativeName(i + 1);
        NewBranchesSnoc(br0, b0, first, branchName, i);
        branches := branches[nextBranchId := NewBranch(nextBranchId, name' + "_" + NatToString(i + 1), altId)];
        nextBranchId := nextBranchId + 1;
      }
    }

    /** The loop of `branch_thought`: one alternative thought, and possibly one branch, per pass. */
    method BranchLoop(parentId: Id, alternatives: seq<string>, branchName: string, now: Time) returns (newIds: seq<Id>)
      requires Valid() && parentId < |thoughts|
      modifies this`thoughts, this`reasoningLog, this`branches, this`nextBranchId
      ensures Valid()
      ensures |newIds| == |alternatives| && forall k :: 0 <= k < |newIds| ==> newIds[k] == old(|thoughts|) + k
      ensures thoughts == AddedAll(old(thoughts), parentId, alternatives, Alternative, now)
      ensures reasoningLog == KeepLast(old(reasoningLog) + AddedEvents(old(|thoughts|), parentId, alternatives, Alternative, now), LogCap)
      ensures branches == BranchesAfter(old(branches), old(nextBranchId), old(|thoughts|), branchName, |alternatives|, |alternatives|)
      ensures nextBranchId == NextBranchAfter(old(nextBranchId), branchName, |alternatives|, |alternatives|)
    {
      var n0 := |thoughts|;
      var b0 := nextBranchId;
      var name := branchName;
      newIds := [];
      var i := 0;
      while i < |alternatives|
        invariant 0 <= i <= |alternatives|
        invariant Valid()
        invariant |newIds| == i && forall k :: 0 <= k < i ==> newIds[k] == n0 + k
        invariant Branching(parentId, alternatives, branchName, now, i, name, old(thoughts), old(reasoningLog), old(branches), b0)
      {
        var altId;
        altId, name := BranchStep(parentId, alternatives, branchName, now, i, name, old(thoughts), old(reasoningLog), old(branches), b0);
        newIds := newIds + [altId];
        i := i + 1;
      }
      assert alternatives[..i] == alternatives;
    }

    /**
     * `branch_thought`: under a stored parent, add each alternative as an
     * ALTERNATIVE child and, when a name is given or there are several
     * alternatives, record a branch rooted at each new thought; then log the
     * branching. An unknown parent changes nothing and yields no ids.
     */
    method BranchThought(parentId: Id, alternatives: seq<string>, branchName: string, now: Time) returns (newIds: seq<Id>)
      requires Valid()
      modifies this`thoughts, this`reasoningLog, this`branches, this`nextBranchId
      ensures Valid()
      ensures parentId >= old(|thoughts|) ==>
        && newIds == [] && thoughts == old(thoughts) && reasoningLog == old(reasoningLog)
        && branches == old(branches) && nextBranchId == old(nextBranchId)
      ensures parentId < old(|thoughts|) ==>
        && newIds == Range(old(|thoughts|), old(|thoughts|) + |alternatives|)
        && thoughts == AddedAll(old(thoughts), parentId, alternatives, Alternative, now)
        && reasoningLog == KeepLast(old(reasoningLog) + AddedEvents(old(|thoughts|), parentId, alternatives, Alternative, now)
                                    + [LogEntry(now, ThoughtBranched(parentId, |alternatives|, newIds))], LogCap)
        && (MakesBranches(branchName, |alternatives|) ==>
              branches == old(branches) + NewBranches(old(nextBranchId), old(|thoughts|), branchName, |alternatives|)
              && nextBranchId == old(nextBranchId) + |alternatives|)
        && (!MakesBranches(branchName, |alternatives|) ==>
              branches == old(branches) && nextBranchId == old(nextBranchId))
    {
      if parentId >= |thoughts| {
        return [];
      }
      newIds := BranchLoop(parentId, alternatives, branchName, now);
      var n0 := old(|thoughts|);
      assert newIds == Range(n0, n0 + |alternatives|);
      LogReasoning(ThoughtBranched(parentId, |alternatives|, newIds), now);
      KeepLastAppend(old(reasoningLog) + AddedEvents(n0, parentId, alternatives, Alternative, now),
                     [LogEntry(now, ThoughtBranched(parentId, |alternatives|, newIds))], LogCap);
    }

    /**
     * `critique_thought`: an unknown id gives [] and logs nothing; otherwise the
     * auto-generated critiques of the thought (none when `autoGenerate` is
     * false) are added as its CRITIQUE children and their number is logged.
     */
    method CritiqueThought(thoughtId: Id, autoGenerate: bool, now: Time) returns (critiques: seq<Id>)
      requires Valid()
      modifies this`thoughts, this`reasoningLog
      ensures Valid()
      ensures thoughtId >= old(|thoughts|) ==>
        critiques == [] && thoughts == old(thoughts) && reasoningLog == old(reasoningLog)
      ensures thoughtId < old(|thoughts|) ==>
        var texts := if autoGenerate then AutoCritiques(old(thoughts)[thoughtId]) else [];
        && critiques == Range(old(|thoughts|), old(|thoughts|) + |texts|)
        && thoughts == AddedAll(old(thoughts), thoughtId, texts, Critique, now)
        && reasoningLog == KeepLast(old(reasoningLog) + AddedEvents(old(|thoughts|), thoughtId, texts, Critique, now)
                                    + [LogEntry(now, ThoughtCritiqued(thoughtId, |texts|))], LogCap)
    {
      if thoughtId >= |thoughts| {
        return [];
      }
      var texts := if autoGenerate then AutoCritiques(thoughts[thoughtId]) else [];
      critiques := AddCritiques(thoughtId, texts, now);
    }

    /** The critiques `texts` of a stored thought become its CRITIQUE children, and their number is logged. */
    method AddCritiques(thoughtId: Id, texts: seq<string>, now: Time) returns (critiques: seq<Id>)
      requires Valid() && thoughtId < |thoughts|
      modifies this`thoughts, this`reasoningLog
      ensures Valid()
      ensures critiques == Range(old(|thoughts|), old(|thoughts|) + |texts|)
      ensures thoughts == AddedAll(old(thoughts), thoughtId, texts, Critique, now)
      ensures reasoningLog == KeepLast(old(reasoningLog) + AddedEvents(old(|thoughts|), thoughtId, texts, Critique, now)
                                       + [LogEntry(now, ThoughtCritiqued(thoughtId, |texts|))], LogCap)
    {
      ghost var log0 := reasoningLog;
      var n0 := |thoughts|;
      critiques := AddChildren(thoughtId, texts, Critique, now);
      assert critiques == Range(n0, n0 + |texts|);
      LogReasoning(ThoughtCritiqued(thoughtId, |critiques|), now);
      KeepLastAppend(log0 + AddedEvents(n0, thoughtId, texts, Critique, now),
                     [LogEntry(now, ThoughtCritiqued(thoughtId, |texts|))], LogCap);
    }

    /** `set_focus`: focus a stored thought, pushing the previous focus, and log it; an unknown id changes nothing. */
    method SetFocus(thoughtId: Id, now: Time)
      requires Valid()
      modifies this`currentFocus, this`attentionStack, this`reasoningLog
      ensures Valid()
      ensures thoughtId < |thoughts| ==>
        && Attention(currentFocus, attentionStack) == Attention(old(currentFocus), old(attentionStack)).Focused(thoughtId)
        && reasoningLog == KeepLast(old(reasoningLog) + [LogEntry(now, FocusChanged(thoughtId, thoughts[thoughtId].content))], LogCap)
      ensures thoughtId >= |thoughts| ==>
        currentFocus == old(currentFocus) && attentionStack == old(attentionStack) && reasoningLog == old(reasoningLog)
    {
      if thoughtId < |thoughts| {
        if currentFocus.Some? {
          attentionStack := attentionStack + [currentFocus.value];
        }
        currentFocus := Some(thoughtId);
        LogReasoning(FocusChanged(thoughtId, thoughts[thoughtId].content), now);
      }
    }

    /** `pop_focus`: the most recently pushed focus comes back and is returned; an empty stack gives None. */
    method PopFocus() returns (previous: Option<Id>)
      requires Valid()
      modifies this`currentFocus, this`attentionStack
      ensures Valid()
      ensures (Attention(currentFocus, attentionStack), previous) == Attention(old(currentFocus), old(attentionStack)).Pop()
    {
      if attentionStack != [] {
        currentFocus := Some(attentionStack[|attentionStack| - 1]);
        attentionStack := attentionStack[..|attentionStack| - 1];
        return currentFocus;
      }
      return None;
    }

    /**
     * The inner loop of `evaluate_branches`: the mean overall score of the
     * stored thoughts among `ids`, 0.0 when none is stored.
     */
    method MeanScore(ids: seq<Id>) returns (score: real)
      ensures score == BranchMean(thoughts, ids)
    {
      var total := 0.0;
      var count := 0;
      var i := 0;
      while i < |ids|
        invariant 0 <= i <= |ids|
        invariant total == SumPresent(thoughts, ids[..i])
        invariant count == CountPresent(thoughts, ids[..i])
      {
        assert ids[..i + 1][..i] == ids[..i];
        if ids[i] < |thoughts| {
          total := total + thoughts[ids[i]].overall;
          count := count + 1;
        }
        i := i + 1;
      }
      assert ids[..i] == ids;
      score := if count > 0 then total / (count as real) else 0.0;
    }

    /** One pass of `evaluate_branches`: score branch `b` if it is exploring. */
    method ScoreBranch(b: nat, todo: set<nat>, scores: map<nat, real>, ghost br0: map<nat, Branch>) returns (scores': map<nat, real>)
      requires b in todo && todo <= br0.Keys
      requires branches == PartlyScored(br0, todo, thoughts) && scores == ScoresSoFar(br0, todo, thoughts)
      modifies this`branches
      ensures branches == PartlyScored(br0, todo - {b}, thoughts) && scores' == ScoresSoFar(br0, todo - {b}, thoughts)
    {
      ScoringStep(br0, todo, thoughts, b);
      var branch := branches[b];
      scores' := scores;
      if branch.status == Exploring {
        var score := MeanScore(branch.thoughtIds);
        branches := branches[b := branch.(branchScore := score)];
        scores' := scores[b := score];
      }
    }

    /**
     * `evaluate_branches`: every exploring branch gets the mean score of its
     * stored thoughts (statuses stay as they are), and the scores of exactly
     * those branches are returned.
     */
    method EvaluateBranches() returns (scores: map<nat, real>)
      requires Valid()
      modifies this`branches
      ensures Valid()
      ensures branches == map b | b in old(branches) :: ScoredBranch(old(branches)[b], thoughts)
      ensures forall b :: b in scores <==> b in old(branches) && old(branches)[b].status == Exploring
      ensures forall b :: b in scores ==> scores[b] == BranchMean(thoughts, old(branches)[b].thoughtIds)
    {
      var todo := branches.Keys;
      scores := map[];
      while todo != {}
        invariant todo <= old(branches).Keys
        invariant branches == PartlyScored(old(branches), todo, thoughts) && scores == ScoresSoFar(old(branches), todo, thoughts)
        decreases todo
      {
        var b :| b in todo;
        scores := ScoreBranch(b, todo, scores, old(branches));
        todo := todo - {b};
      }
      PartlyScoredOk(old(branches), {}, thoughts, nextBranchId);
    }

    /**
     * `_find_all_paths`: append to `acc` every path that extends `prefix` from
     * `id` down to a thought without children, children in insertion order and
     * unstored child ids skipped.
     */
    method FindAllPaths(id: Id, prefix: seq<Id>, acc: seq<seq<Id>>) returns (all: seq<seq<Id>>)
      requires ChildrenAfter(thoughts) && id < |thoughts|
      ensures all == acc + Paths(thoughts, id, prefix)
      decreases |thoughts| - id
    {
      var path := prefix + [id];
      var kids := thoughts[id].childrenIds;
      if kids == [] {
        return acc + [path];
      }
      all := acc;
      var i := 0;
      while i < |kids|
        invariant 0 <= i <= |kids|
        invariant all == acc + ChildPaths(thoughts, id, kids[..i], path)
      {
        ChildPathsStep(thoughts, id, kids, i, path, acc);
        if kids[i] < |thoughts| {
          all := FindAllPaths(kids[i], path, all);
        }
        i := i + 1;
      }
      assert kids[..i] == kids;
    }

    /** The marking loop of `select_best_path`: every thought on `path` becomes SELECTED. */
    method MarkPath(path: seq<Id>)
      requires forall i :: 0 <= i < |path| ==> path[i] < |thoughts|
      modifies this`thoughts
      ensures thoughts == MarkSelected(old(thoughts), path)
    {
      var i := 0;
      assert MarkSelected(thoughts, []) == thoughts;
      while i < |path|
        invariant 0 <= i <= |path|
        invariant thoughts == MarkSelected(old(thoughts), path[..i])
      {
        MarkSelectedSnoc(old(thoughts), path, i);
        thoughts := thoughts[path[i] := thoughts[path[i]].(status := Selected)];
        i := i + 1;
      }
      assert path[..i] == path;
    }

    /** The scoring loop of `select_best_path`: the mean overall score of each path, in order. */
    method PathScores(paths: seq<seq<Id>>) returns (scores: seq<real>)
      requires forall k :: 0 <= k < |paths| ==> |paths[k]| > 0
      ensures scores == Means(thoughts, paths)
    {
      scores := [];
      var k := 0;
      while k < |paths|
        invariant 0 <= k <= |paths|
        invariant scores == Means(thoughts, paths[..k])
      {
        scores := scores + [PathMean(thoughts, paths[k])];
        k := k + 1;
      }
      assert paths[..k] == paths;
    }

    /**
     * The choosing half of `select_best_path`: [] for an unknown id; otherwise
     * all paths from the thought are scored by their mean and the first of
     * maximal score is taken.
     */
    method ChoosePath(fromId: Id) returns (best: seq<Id>)
      requires ThoughtsValid()
      ensures best == BestPath(thoughts, fromId)
    {
      WellFormedChildren(thoughts);
      if fromId >= |thoughts| {
        return [];
      }
      var paths := FindAllPaths(fromId, [], []);
      assert paths == Paths(thoughts, fromId, []);
      PathsAreLeafChains(thoughts, fromId, []);
      var scores := PathScores(paths);
      if paths == [] {
        return [];
      }
      best := paths[ArgMaxFirst(scores)];
    }

    /**
     * `select_best_path`: the chosen path's thoughts are marked SELECTED and
     * the choice is logged; when nothing is chosen nothing changes.
     */
    method SelectBestPath(fromId: Id, now: Time) returns (best: seq<Id>)
      requires Valid()
      modifies this`thoughts, this`reasoningLog
      ensures Valid()
      ensures best == BestPath(old(thoughts), fromId)
      ensures thoughts == MarkSelected(old(thoughts), best)
      ensures best == [] ==> reasoningLog == old(reasoningLog)
      ensures best != [] ==> reasoningLog == KeepLast(old(reasoningLog) + [LogEntry(now, BestPathSelected(fromId, best, |best|))], LogCap)
    {
      best := ChoosePath(fromId);
      if best == [] {
        MarkNothing(thoughts);
        return;
      }
      BestPathStored(thoughts, fromId);
      MarkSelectedKeepsWellFormed(thoughts, best);
      MarkPath(best);
      LogReasoning(BestPathSelected(fromId, best, |best|), now);
    }

    /**
     * `generate_hypothesis`: store the observation, add the three generated
     * hypotheses under it, and return the first hypothesis of maximal overall
     * score.
     */
    method GenerateHypothesis(observation: string, context: map<string, Value>, now: Time) returns (bestId: Id)
      requires Valid()
      modifies this`thoughts, this`reasoningLog
      ensures Valid()
      ensures var n0 := old(|thoughts|);
        && thoughts == WithHypotheses(old(thoughts), observation, context, now)
        && reasoningLog == KeepLast(old(reasoningLog) + [LogEntry(now, ThoughtAdded(n0, observation, Observation, None))]
                                    + AddedEvents(n0 + 1, n0, Hypotheses(observation), Hypothesis, now), LogCap)
        && bestId == n0 + 1 + ArgMaxFirst(Overalls(thoughts, Range(n0 + 1, n0 + 4)))
    {
      var obsId := AddThought(observation, Observation, None, context, now);
      ghost var log1 := reasoningLog;
      var hypothesisIds := AddChildren(obsId, Hypotheses(observation), Hypothesis, now);
      assert hypothesisIds == Range(obsId + 1, obsId + 4);
      bestId := hypothesisIds[ArgMaxFirst(Overalls(thoughts, hypothesisIds))];
      KeepLastAppend(old(reasoningLog) + [LogEntry(now, ThoughtAdded(obsId, observation, Observation, None))],
                     AddedEvents(obsId + 1, obsId, Hypotheses(observation), Hypothesis, now), LogCap);
    }

    /**
     * `get_thought_tree_visualization`: one node per thought in id order, and
     * one edge per child link, parent by parent, children in order.
     */
    method GetVisualization() returns (nodes: seq<Node>, edges: seq<Edge>)
      ensures nodes == Nodes(thoughts, currentFocus, |thoughts|)
      ensures edges == EdgesOf(thoughts, |thoughts|)
    {
      nodes := [];
      edges := [];
      var k := 0;
      while k < |thoughts|
        invariant 0 <= k <= |thoughts|
        invariant nodes == Nodes(thoughts, currentFocus, k)
        invariant edges == EdgesOf(thoughts, k)
      {
        var thought := thoughts[k];
        nodes := nodes + [NodeOf(k, thought, currentFocus)];
        var j := 0;
        while j < |thought.childrenIds|
          invariant 0 <= j <= |thought.childrenIds|
          invariant edges == EdgesOf(thoughts, k) + ChildEdges(k, thought.childrenIds[..j])
        {
          edges := edges + [Edge(k, thought.childrenIds[j])];
          j := j + 1;
        }
        assert thought.childrenIds[..j] == thought.childrenIds;
        k := k + 1;
      }
    }
  }
}
