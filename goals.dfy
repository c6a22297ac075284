/**
 * `GoalModule`: the agent's goals with their priority and progress, the
 * motivation levels that promote new goals and grow with finished ones,
 * the per-category hierarchy, and the follow-up goals a completion adds.
 *
 * Goals are never removed, so the `goals` dictionary (insertion ordered)
 * is the sequence of goals and a goal's id is its position in it: the
 * eight-character uuid prefix becomes a number that never collides.
 */
module Goals {
  import opened Wrappers
  import opened PyStr
  import opened Levels

  type Id = nat

  // ---------------------------------------------------------------------------
  // Goals
  // ---------------------------------------------------------------------------

  datatype Priority = Low | Medium | High
  {
    /** The enum's string value, which every ordering of goals compares. */
    function Value(): string {
      match this
      case Low => "low"
      case Medium => "medium"
      case High => "high"
    }

    /** Position of `Value()` in string order: "high" < "low" < "medium". */
    function Rank(): (r: nat)
      ensures r < 3
    {
      match this
      case High => 0
      case Low => 1
      case Medium => 2
    }
  }

  lemma {:induction false} StrLessIrreflexive(s: string)
    ensures !StrLess(s, s)
  {
    if s != [] {
      StrLessIrreflexive(s[1..]);
    }
  }

  /** `Rank` is exactly the order Python's `<` puts on the priority strings. */
  lemma RankIsStringOrder(a: Priority, b: Priority)
    ensures a.Rank() < b.Rank() <==> StrLess(a.Value(), b.Value())
  {
    if a == b {
      StrLessIrreflexive(a.Value());
    }
  }

  datatype GoalStatus = Active | Completed | Paused | Cancelled

  datatype Goal = Goal(id: Id, description: string, category: string, priority: Priority,
                       status: GoalStatus, progress: real, createdAt: Time,
                       completedAt: Option<Time>, parentGoalId: Option<Id>, subGoals: seq<Id>)

  /** A goal as `Goal(description, category, priority)` creates it. */
  function NewGoal(id: Id, description: string, category: string, priority: Priority, now: Time): Goal {
    Goal(id, description, category, priority, Active, 0.0, now, None, None, [])
  }

  /** What every stored goal keeps: its id is its position and its progress lies in [0, 1]. */
  predicate GoalOk(goals: seq<Goal>, k: int) {
    0 <= k < |goals| && goals[k].id == k && 0.0 <= goals[k].progress <= 1.0
  }

  predicate GoalsOk(goals: seq<Goal>) {
    forall k :: 0 <= k < |goals| ==> GoalOk(goals, k)
  }

  // ---------------------------------------------------------------------------
  // Motivation
  // ---------------------------------------------------------------------------

  /** The intrinsic and extrinsic motivation dictionaries, whose keys are fixed. */
  datatype MotivationLevels = MotivationLevels(
    learnNewThings: real, solveProblems: real, helpOthers: real, understandSelf: real,
    userApproval: real, taskCompletion: real, performanceMetrics: real)
  {
    predicate InUnit() {
      && 0.0 <= learnNewThings <= 1.0 && 0.0 <= solveProblems <= 1.0
      && 0.0 <= helpOthers <= 1.0 && 0.0 <= understandSelf <= 1.0
      && 0.0 <= userApproval <= 1.0 && 0.0 <= taskCompletion <= 1.0
      && 0.0 <= performanceMetrics <= 1.0
    }

    /**
     * `update_motivation`: a success raises the category's motivation ("learning"
     * by 0.05, "communication" by 0.03) and task completion by 0.02, each capped
     * at 1.0; a failure lowers task completion by 0.01, floored at 0.0.
     */
    function Updated(category: string, success: bool): (r: MotivationLevels)
      ensures InUnit() ==> r.InUnit()
      ensures r.solveProblems == solveProblems && r.understandSelf == understandSelf
      ensures r.userApproval == userApproval && r.performanceMetrics == performanceMetrics
      ensures r.learnNewThings != learnNewThings ==> success && category == "learning"
      ensures r.helpOthers != helpOthers ==> success && category == "communication"
      ensures success && category == "learning" && learnNewThings <= 0.95 ==> r.learnNewThings == learnNewThings + 0.05
      ensures success && category == "communication" && helpOthers <= 0.97 ==> r.helpOthers == helpOthers + 0.03
      ensures success && taskCompletion <= 0.98 ==> r.taskCompletion == taskCompletion + 0.02
      ensures !success && taskCompletion >= 0.01 ==> r.taskCompletion == taskCompletion - 0.01
      ensures success && category == "learning" && learnNewThings > 0.95 ==> r.learnNewThings == 1.0
      ensures success && category == "communication" && helpOthers > 0.97 ==> r.helpOthers == 1.0
      ensures success && taskCompletion > 0.98 ==> r.taskCompletion == 1.0
      ensures !success && taskCompletion < 0.01 ==> r.taskCompletion == 0.0
      ensures InUnit() && success ==>
        r.learnNewThings >= learnNewThings && r.helpOthers >= helpOthers && r.taskCompletion >= taskCompletion
      ensures InUnit() && !success ==> r.taskCompletion <= taskCompletion
    {
      if success then
        var learn := if category == "learning" then AtMostOne(learnNewThings + 0.05) else learnNewThings;
        var help := if category == "communication" then AtMostOne(helpOthers + 0.03) else helpOthers;
        this.(learnNewThings := learn, helpOthers := help, taskCompletion := AtMostOne(taskCompletion + 0.02))
      else
        this.(taskCompletion := AtLeastZero(taskCompletion - 0.01))
    }

    /** The base of `get_motivation_for_goal`: the category's own motivation, 0.5 for any other category. */
    function ForCategory(category: string): real {
      if category == "learning" then learnNewThings
      else if category == "communication" then helpOthers
      else if category == "self_development" then understandSelf
      else if category == "problem_solving" then solveProblems
      else 0.5
    }

    /** `get_motivation_for_goal`: the base plus 0.2 for HIGH and 0.1 for MEDIUM, capped at 1.0. */
    function ForGoal(category: string, priority: Priority): (m: real)
      ensures m <= 1.0
      ensures InUnit() ==> 0.0 <= m
      ensures m >= ForCategory(category) || m == 1.0
    {
      var bonus := match priority case High => 0.2 case Medium => 0.1 case Low => 0.0;
      AtMostOne(ForCategory(category) + bonus)
    }
  }

  function InitialLevels(): (r: MotivationLevels)
    ensures r.InUnit()
  {
    MotivationLevels(0.89, 0.76, 0.92, 0.68, 0.71, 0.84, 0.62)
  }

  /** `MotivationSystem`: one object, owned by the goal module, whose levels change in place. */
  class MotivationSystem {
    var levels: MotivationLevels

    constructor ()
      ensures levels == InitialLevels()
    {
      levels := InitialLevels();
    }

    method UpdateMotivation(goal: Goal, success: bool)
      modifies this
      ensures levels == old(levels).Updated(goal.category, success)
      ensures old(levels).InUnit() ==> levels.InUnit()
    {
      levels := levels.Updated(goal.category, success);
    }

    function GetMotivationForGoal(goal: Goal): (m: real)
      reads this
      ensures m <= 1.0
      ensures levels.InUnit() ==> 0.0 <= m
    {
      levels.ForGoal(goal.category, goal.priority)
    }
  }

  /** `_integrate_with_motivation`: a MEDIUM goal whose motivation exceeds 0.8 becomes HIGH. */
  function Integrated(g: Goal, levels: MotivationLevels): (r: Goal)
    ensures r == g.(priority := r.priority)
  {
    if levels.ForGoal(g.category, g.priority) > 0.8 && g.priority == Medium then g.(priority := High) else g
  }

  /**
   * Only MEDIUM goals are ever promoted, and a MEDIUM goal is promoted exactly
   * when its category's motivation plus 0.1, capped at 1.0, exceeds 0.8.
   */
  lemma PromotionRule(g: Goal, levels: MotivationLevels)
    ensures g.priority != Medium ==> Integrated(g, levels) == g
    ensures g.priority == Medium ==>
      (Integrated(g, levels).priority == High <==> AtMostOne(levels.ForCategory(g.category) + 0.1) > 0.8)
    ensures Integrated(g, levels).priority in {g.priority, High}
  {
  }

  // ---------------------------------------------------------------------------
  // Adding goals
  // ---------------------------------------------------------------------------

  /** `description.lower() == other.lower()`. */
  predicate SameText(a: string, b: string) {
    Lower(a) == Lower(b)
  }

  /** The first stored goal whose description equals `description` up to case. */
  function DuplicateOf(goals: seq<Goal>, description: string): (r: Option<Id>)
    ensures r.Some? ==> r.value < |goals| && SameText(goals[r.value].description, description)
    ensures r.Some? ==> forall j :: 0 <= j < r.value ==> !SameText(goals[j].description, description)
    ensures r.None? <==> forall j :: 0 <= j < |goals| ==> !SameText(goals[j].description, description)
  {
    if goals == [] then None
    else if SameText(goals[0].description, description) then Some(0)
    else match DuplicateOf(goals[1..], description)
      case None => None
      case Some(k) => Some(k + 1)
  }

  /**
   * `add_goal` on the goal list: a description already present (up to case)
   * returns that goal's id and changes nothing; otherwise the new goal, after
   * integration with the motivation levels, is appended under the next id.
   */
  function WithGoal(goals: seq<Goal>, levels: MotivationLevels, description: string, category: string,
                    priority: Priority, now: Time): (seq<Goal>, Id)
  {
    match DuplicateOf(goals, description)
    case Some(k) => (goals, k)
    case None => (goals + [Integrated(NewGoal(|goals|, description, category, priority, now), levels)], |goals|)
  }

  /** After `add_goal` the returned id names a goal with the requested description, and nothing stored before changes. */
  lemma WithGoalFinds(goals: seq<Goal>, levels: MotivationLevels, description: string, category: string,
                      priority: Priority, now: Time)
    ensures var (goals', id) := WithGoal(goals, levels, description, category, priority, now);
      && id < |goals'| && SameText(goals'[id].description, description)
      && |goals| <= |goals'| <= |goals| + 1 && goals'[..|goals|] == goals
      && (GoalsOk(goals) ==> GoalsOk(goals'))
  {
    var (goals', id) := WithGoal(goals, levels, description, category, priority, now);
    assert goals'[..|goals|] == goals;
    if DuplicateOf(goals, description).None? {
      assert goals'[id] == Integrated(NewGoal(|goals|, description, category, priority, now), levels);
      assert GoalOk(goals', |goals|);
      forall k | 0 <= k < |goals| && GoalsOk(goals)
        ensures GoalOk(goals', k)
      {
        assert goals'[k] == goals[k] && GoalOk(goals, k);
      }
    }
  }

  /** Adding the same description twice is the same as adding it once. */
  lemma {:induction false} WithGoalIdempotent(goals: seq<Goal>, levels: MotivationLevels, description: string,
                                              category: string, priority: Priority, now: Time,
                                              levels': MotivationLevels, category': string, priority': Priority,
                                              now': Time)
    ensures var (goals', id) := WithGoal(goals, levels, description, category, priority, now);
      WithGoal(goals', levels', description, category', priority', now') == (goals', id)
  {
    var (goals', id) := WithGoal(goals, levels, description, category, priority, now);
    if DuplicateOf(goals, description).None? {
      var d := DuplicateOf(goals', description);
      assert goals'[|goals|].description == description;
      assert forall j :: 0 <= j < |goals| ==> goals'[j] == goals[j];
      assert d.Some? && d.value == |goals|;
    }
  }

  // ---------------------------------------------------------------------------
  // Hierarchy
  // ---------------------------------------------------------------------------

  /** The ids of the first `n` goals whose category is `c`, in insertion order. */
  function IdsIn(goals: seq<Goal>, c: string, n: nat): (ids: seq<Id>)
    requires n <= |goals|
    ensures forall i :: 0 <= i < |ids| ==> ids[i] < n && goals[ids[i]].category == c
    ensures forall k :: 0 <= k < n && goals[k].category == c ==> k in ids
  {
    if n == 0 then [] else IdsIn(goals, c, n - 1) + (if goals[n - 1].category == c then [n - 1] else [])
  }

  /** The categories of the first `n` goals. */
  function CategoriesIn(goals: seq<Goal>, n: nat): (cs: set<string>)
    requires n <= |goals|
    ensures forall k :: 0 <= k < n ==> goals[k].category in cs
  {
    if n == 0 then {} else CategoriesIn(goals, n - 1) + {goals[n - 1].category}
  }

  lemma {:induction false} CategoryUsed(goals: seq<Goal>, c: string, n: nat)
    requires n <= |goals| && c in CategoriesIn(goals, n)
    ensures exists k :: 0 <= k < n && goals[k].category == c
  {
    if goals[n - 1].category != c {
      CategoryUsed(goals, c, n - 1);
    }
  }

  lemma {:induction false} IdsInAbsent(goals: seq<Goal>, c: string, n: nat)
    requires n <= |goals| && c !in CategoriesIn(goals, n)
    ensures IdsIn(goals, c, n) == []
  {
    if n > 0 {
      IdsInAbsent(goals, c, n - 1);
    }
  }

  /** The grouping pass of `_update_goal_hierarchy` after the first `n` goals. */
  function Grouped(goals: seq<Goal>, n: nat): map<string, seq<Id>>
    requires n <= |goals|
  {
    map c | c in CategoriesIn(goals, n) :: IdsIn(goals, c, n)
  }

  /** `groups.setdefault(category, []).append(id)`. */
  function AddToGroup(groups: map<string, seq<Id>>, c: string, id: Id): map<string, seq<Id>> {
    groups[c := (if c in groups then groups[c] else []) + [id]]
  }

  lemma GroupedStep(goals: seq<Goal>, n: nat)
    requires n < |goals|
    ensures Grouped(goals, n + 1) == AddToGroup(Grouped(goals, n), goals[n].category, n)
  {
    var c := goals[n].category;
    var g := Grouped(goals, n);
    var g' := Grouped(goals, n + 1);
    var expected := g[c := (if c in g then g[c] else []) + [n]];
    if c !in g {
      IdsInAbsent(goals, c, n);
    }
    assert CategoriesIn(goals, n + 1) == CategoriesIn(goals, n) + {c};
    assert g'.Keys == expected.Keys;
    forall c' | c' in g'
      ensures g'[c'] == expected[c']
    {
      if c' == c {
        assert g'[c'] == IdsIn(goals, c, n) + [n];
      } else {
        assert g'[c'] == IdsIn(goals, c', n) == g[c'];
      }
    }
  }

  /** The ids among `ids` of goals with priority `p`, in their order in `ids`. */
  function WithPriority(goals: seq<Goal>, ids: seq<Id>, p: Priority): (r: seq<Id>)
    ensures forall i :: 0 <= i < |r| ==> r[i] < |goals| && goals[r[i]].priority == p
    ensures |r| <= |ids|
  {
    if ids == [] then []
    else
      var x := ids[|ids| - 1];
      WithPriority(goals, ids[..|ids| - 1], p) + (if x < |goals| && goals[x].priority == p then [x] else [])
  }

  /**
   * `ids.sort(key=priority.value, reverse=True)`: Python's sort is stable, and
   * in descending string order the priorities come as medium, low, high.
   */
  function ByPriorityDesc(goals: seq<Goal>, ids: seq<Id>): seq<Id> {
    WithPriority(goals, ids, Medium) + WithPriority(goals, ids, Low) + WithPriority(goals, ids, High)
  }

  /** The sorted list runs through the priorities in descending string order. */
  lemma ByPriorityDescSorted(goals: seq<Goal>, ids: seq<Id>)
    ensures var r := ByPriorityDesc(goals, ids);
      forall i, j :: 0 <= i < j < |r| ==>
        r[j] < |goals| && r[i] < |goals| && goals[r[j]].priority.Rank() <= goals[r[i]].priority.Rank()
  {
    var m, l, h := WithPriority(goals, ids, Medium), WithPriority(goals, ids, Low), WithPriority(goals, ids, High);
    var r := ByPriorityDesc(goals, ids);
    forall i | 0 <= i < |r|
      ensures r[i] < |goals| && goals[r[i]].priority.Rank() == (if i < |m| then 2 else if i < |m| + |l| then 1 else 0)
    {
      if i < |m| {
        assert r[i] == m[i];
      } else if i < |m| + |l| {
        assert r[i] == l[i - |m|];
      } else {
        assert r[i] == h[i - |m| - |l|];
      }
    }
  }

  /** Sorting only reorders: every id is kept exactly as often as it occurs. */
  lemma {:induction false} ByPriorityDescPermutes(goals: seq<Goal>, ids: seq<Id>)
    requires forall i :: 0 <= i < |ids| ==> ids[i] < |goals|
    ensures multiset(ByPriorityDesc(goals, ids)) == multiset(ids)
  {
    if ids == [] {
      assert WithPriority(goals, ids, Medium) == WithPriority(goals, ids, Low) == WithPriority(goals, ids, High) == [];
    } else {
      var init := ids[..|ids| - 1];
      var x := ids[|ids| - 1];
      ByPriorityDescPermutes(goals, init);
      WithPriorityLast(goals, ids, Medium);
      WithPriorityLast(goals, ids, Low);
      WithPriorityLast(goals, ids, High);
      var m, l, h := WithPriority(goals, init, Medium), WithPriority(goals, init, Low), WithPriority(goals, init, High);
      var m', l', h' := WithPriority(goals, ids, Medium), WithPriority(goals, ids, Low), WithPriority(goals, ids, High);
      assert multiset(ByPriorityDesc(goals, ids)) == multiset(m') + multiset(l') + multiset(h');
      assert multiset(m) + multiset(l) + multiset(h) == multiset(init);
      var p := goals[x].priority;
      AddToOne(multiset(m), multiset(l), multiset(h), multiset(m'), multiset(l'), multiset(h'),
        if p == Medium then 0 else if p == Low then 1 else 2, x);
      MultisetLast(ids);
    }
  }

  lemma MultisetLast(s: seq<Id>)
    requires s != []
    ensures multiset(s) == multiset(s[..|s| - 1]) + multiset{s[|s| - 1]}
  {
    assert s == s[..|s| - 1] + [s[|s| - 1]];
  }

  /** Adding `x` to exactly one of three bags adds it once to their sum. */
  lemma AddToOne(a: multiset<Id>, b: multiset<Id>, c: multiset<Id>,
                 a': multiset<Id>, b': multiset<Id>, c': multiset<Id>, which: nat, x: Id)
    requires a' == (if which == 0 then a + multiset{x} else a)
    requires b' == (if which == 1 then b + multiset{x} else b)
    requires c' == (if which >= 2 then c + multiset{x} else c)
    ensures a' + b' + c' == a + b + c + multiset{x}
  {
  }

  /** Dropping the last id takes it out of exactly the list of its own priority. */
  lemma WithPriorityLast(goals: seq<Goal>, ids: seq<Id>, q: Priority)
    requires ids != [] && ids[|ids| - 1] < |goals|
    ensures var x := ids[|ids| - 1];
      multiset(WithPriority(goals, ids, q))
        == multiset(WithPriority(goals, ids[..|ids| - 1], q)) + (if goals[x].priority == q then multiset{x} else multiset{})
  {
  }

  /** `_update_goal_hierarchy`: each category with its ids, sorted by priority. */
  function Hierarchy(goals: seq<Goal>): map<string, seq<Id>> {
    var g := Grouped(goals, |goals|);
    map c | c in g :: ByPriorityDesc(goals, g[c])
  }

  /**
   * The hierarchy has a list for exactly the categories in use; each list holds
   * exactly the ids of that category's goals, once each, in descending string
   * order of their priorities.
   */
  lemma HierarchyLists(goals: seq<Goal>, c: string)
    ensures c in Hierarchy(goals) <==> exists k :: 0 <= k < |goals| && goals[k].category == c
    ensures c in Hierarchy(goals) ==>
      && multiset(Hierarchy(goals)[c]) == multiset(IdsIn(goals, c, |goals|))
      && (forall k: nat :: k in Hierarchy(goals)[c] <==> k < |goals| && goals[k].category == c)
  {
    var g := Grouped(goals, |goals|);
    if c in g {
      CategoryUsed(goals, c, |goals|);
      var ids := IdsIn(goals, c, |goals|);
      ByPriorityDescPermutes(goals, ids);
      forall k: nat
        ensures k in Hierarchy(goals)[c] <==> k < |goals| && goals[k].category == c
      {
        assert k in Hierarchy(goals)[c] <==> k in multiset(Hierarchy(goals)[c]);
        assert k in ids <==> k in multiset(ids);
      }
    }
  }

  /** A hierarchy list for goals whose categories and priorities are unchanged stays the same. */
  predicate SameShape(goals: seq<Goal>, goals': seq<Goal>) {
    |goals| == |goals'| &&
    forall k :: 0 <= k < |goals| ==> goals'[k].category == goals[k].category && goals'[k].priority == goals[k].priority
  }

  lemma {:induction false} SameShapeIds(goals: seq<Goal>, goals': seq<Goal>, c: string, n: nat)
    requires SameShape(goals, goals') && n <= |goals|
    ensures IdsIn(goals, c, n) == IdsIn(goals', c, n)
  {
    if n > 0 {
      SameShapeIds(goals, goals', c, n - 1);
    }
  }

  lemma {:induction false} SameShapePriority(goals: seq<Goal>, goals': seq<Goal>, ids: seq<Id>, p: Priority)
    requires SameShape(goals, goals')
    ensures WithPriority(goals, ids, p) == WithPriority(goals', ids, p)
  {
    if ids != [] {
      SameShapePriority(goals, goals', ids[..|ids| - 1], p);
    }
  }

  lemma {:induction false} SameShapeCategories(goals: seq<Goal>, goals': seq<Goal>, n: nat)
    requires SameShape(goals, goals') && n <= |goals|
    ensures CategoriesIn(goals, n) == CategoriesIn(goals', n)
  {
    if n > 0 {
      SameShapeCategories(goals, goals', n - 1);
    }
  }

  /** Progress, status and completion time do not enter the hierarchy. */
  lemma HierarchyIgnoresProgress(goals: seq<Goal>, goals': seq<Goal>)
    requires SameShape(goals, goals')
    ensures Hierarchy(goals') == Hierarchy(goals)
  {
    SameShapeCategories(goals, goals', |goals|);
    var h, h' := Hierarchy(goals), Hierarchy(goals');
    assert h.Keys == h'.Keys;
    forall c | c in h
      ensures h'[c] == h[c]
    {
      var ids := IdsIn(goals, c, |goals|);
      SameShapeIds(goals, goals', c, |goals|);
      SameShapePriority(goals, goals', ids, Medium);
      SameShapePriority(goals, goals', ids, Low);
      SameShapePriority(goals, goals', ids, High);
    }
  }

  /** The sorting pass after the categories outside `todo` have been sorted. */
  function PartlySorted(goals: seq<Goal>, groups: map<string, seq<Id>>, todo: set<string>): (h: map<string, seq<Id>>)
    ensures h.Keys == groups.Keys
  {
    map c | c in groups :: if c in todo then groups[c] else ByPriorityDesc(goals, groups[c])
  }

  lemma NothingSorted(goals: seq<Goal>, groups: map<string, seq<Id>>)
    ensures PartlySorted(goals, groups, groups.Keys) == groups
  {
  }

  lemma SortingStep(goals: seq<Goal>, groups: map<string, seq<Id>>, todo: set<string>, c: string)
    requires c in todo && c in groups
    ensures PartlySorted(goals, groups, todo - {c}) ==
      PartlySorted(goals, groups, todo)[c := ByPriorityDesc(goals, groups[c])]
  {
  }

  // ---------------------------------------------------------------------------
  // Progress and completion
  // ---------------------------------------------------------------------------

  function ApplicationGoal(description: string): string {
    "Применить знания из '" + description + "'"
  }

  function ImprovementGoal(description: string): string {
    "Улучшить навыки на основе '" + description + "'"
  }

  /**
   * `_generate_follow_up_goals`: a finished "learning" goal adds an
   * "application" goal of MEDIUM priority, a "communication" goal an
   * "improvement" goal of LOW priority, both through the deduplicating add.
   */
  function FollowUps(goals: seq<Goal>, levels: MotivationLevels, id: Id, now: Time): seq<Goal>
    requires id < |goals|
  {
    var g := goals[id];
    if g.category == "learning" then WithGoal(goals, levels, ApplicationGoal(g.description), "application", Medium, now).0
    else if g.category == "communication" then WithGoal(goals, levels, ImprovementGoal(g.description), "improvement", Low, now).0
    else goals
  }

  /** `complete_goal` on a known id: the new goals and motivation levels. */
  function AfterCompletion(goals: seq<Goal>, levels: MotivationLevels, id: Id, now: Time): (seq<Goal>, MotivationLevels)
    requires id < |goals|
  {
    var levels' := levels.Updated(goals[id].category, true);
    (FollowUps(MarkCompleted(goals, id, now), levels', id, now), levels')
  }

  /** `update_goal_progress` on a known id: the new goals and motivation levels. */
  function AfterProgress(goals: seq<Goal>, levels: MotivationLevels, id: Id, progress: real, now: Time): (seq<Goal>, MotivationLevels)
    requires id < |goals|
  {
    var stored := goals[id := goals[id].(progress := Clamp01(progress))];
    var (goals', levels') :=
      if progress >= 1.0 && goals[id].status == Active then AfterCompletion(stored, levels, id, now) else (stored, levels);
    (goals', if progress > goals[id].progress then levels'.Updated(goals[id].category, true) else levels')
  }

  /**
   * Completing a goal marks it COMPLETED with progress 1.0 at `now`, keeps every
   * other stored goal, adds at most one goal (none outside "learning" and
   * "communication"), and raises motivation.
   */
  /** Replacing one goal by one of the same id, category and priority keeps the invariant and the hierarchy. */
  lemma Replaced(goals: seq<Goal>, id: Id, g: Goal)
    requires id < |goals| && g.id == goals[id].id && 0.0 <= g.progress <= 1.0
    requires g.category == goals[id].category && g.priority == goals[id].priority
    ensures SameShape(goals, goals[id := g])
    ensures GoalsOk(goals) ==> GoalsOk(goals[id := g])
    ensures Hierarchy(goals[id := g]) == Hierarchy(goals)
  {
    var goals' := goals[id := g];
    if GoalsOk(goals) {
      forall k | 0 <= k < |goals'| ensures GoalOk(goals', k) {
        assert GoalOk(goals, k);
      }
    }
    HierarchyIgnoresProgress(goals, goals');
  }

  function MarkCompleted(goals: seq<Goal>, id: Id, now: Time): seq<Goal>
    requires id < |goals|
  {
    goals[id := goals[id].(status := Completed, completedAt := Some(now), progress := 1.0)]
  }

  /**
   * Completing a goal marks it COMPLETED with progress 1.0 at `now`, keeps every
   * other stored goal, adds at most one goal (none outside "learning" and
   * "communication"), and raises motivation.
   */
  lemma CompletionEffect(goals: seq<Goal>, levels: MotivationLevels, id: Id, now: Time)
    requires id < |goals|
    ensures var r := AfterCompletion(goals, levels, id, now);
      && |goals| <= |r.0| <= |goals| + 1
      && r.0[id] == goals[id].(status := Completed, completedAt := Some(now), progress := 1.0)
      && (forall k :: 0 <= k < |goals| && k != id ==> r.0[k] == goals[k])
      && (goals[id].category != "learning" && goals[id].category != "communication" ==> |r.0| == |goals|)
      && r.1 == levels.Updated(goals[id].category, true)
      && (GoalsOk(goals) ==> GoalsOk(r.0))
      && (levels.InUnit() ==> r.1.InUnit())
  {
    var done := MarkCompleted(goals, id, now);
    var levels' := levels.Updated(goals[id].category, true);
    var d := goals[id].description;
    if GoalsOk(goals) {
      assert GoalOk(goals, id);
      Replaced(goals, id, done[id]);
    }
    WithGoalFinds(done, levels', ApplicationGoal(d), "application", Medium, now);
    WithGoalFinds(done, levels', ImprovementGoal(d), "improvement", Low, now);
  }

  /** A follow-up "application" goal has motivation min(1.0, 0.5 + 0.1) = 0.6, so it stays MEDIUM. */
  lemma ApplicationNotPromoted(levels: MotivationLevels, id: Id, text: string, now: Time)
    ensures Integrated(NewGoal(id, text, "application", Medium, now), levels) == NewGoal(id, text, "application", Medium, now)
  {
    assert levels.ForCategory("application") == 0.5;
  }

  /**
   * The follow-up of a finished "learning" goal is stored (or already was), and
   * when it is new it is appended as a MEDIUM "application" goal.
   */
  lemma LearningFollowUp(goals: seq<Goal>, levels: MotivationLevels, id: Id, now: Time)
    requires id < |goals| && goals[id].category == "learning"
    ensures var r := AfterCompletion(goals, levels, id, now);
      var text := ApplicationGoal(goals[id].description);
      && (exists k :: 0 <= k < |r.0| && SameText(r.0[k].description, text))
      && (DuplicateOf(goals, text).None? ==> r.0 == MarkCompleted(goals, id, now) + [NewGoal(|goals|, text, "application", Medium, now)])
  {
    var done := MarkCompleted(goals, id, now);
    var levels' := levels.Updated("learning", true);
    var text := ApplicationGoal(goals[id].description);
    WithGoalFinds(done, levels', text, "application", Medium, now);
    var w := WithGoal(done, levels', text, "application", Medium, now);
    assert AfterCompletion(goals, levels, id, now).0 == w.0;
    assert SameText(w.0[w.1].description, text);
    if DuplicateOf(goals, text).None? {
      assert forall j :: 0 <= j < |goals| ==> done[j].description == goals[j].description;
      assert DuplicateOf(done, text).None?;
      ApplicationNotPromoted(levels', |goals|, text, now);
    }
  }

  /**
   * The follow-up of a finished "communication" goal is stored (or already
   * was), and when it is new it is appended as a LOW "improvement" goal.
   */
  lemma CommunicationFollowUp(goals: seq<Goal>, levels: MotivationLevels, id: Id, now: Time)
    requires id < |goals| && goals[id].category == "communication"
    ensures var r := AfterCompletion(goals, levels, id, now);
      var text := ImprovementGoal(goals[id].description);
      && (exists k :: 0 <= k < |r.0| && SameText(r.0[k].description, text))
      && (DuplicateOf(goals, text).None? ==> r.0 == MarkCompleted(goals, id, now) + [NewGoal(|goals|, text, "improvement", Low, now)])
  {
    var done := MarkCompleted(goals, id, now);
    var levels' := levels.Updated("communication", true);
    var text := ImprovementGoal(goals[id].description);
    WithGoalFinds(done, levels', text, "improvement", Low, now);
    var w := WithGoal(done, levels', text, "improvement", Low, now);
    assert AfterCompletion(goals, levels, id, now).0 == w.0;
    assert SameText(w.0[w.1].description, text);
    if DuplicateOf(goals, text).None? {
      assert forall j :: 0 <= j < |goals| ==> done[j].description == goals[j].description;
      assert DuplicateOf(done, text).None?;
      PromotionRule(NewGoal(|goals|, text, "improvement", Low, now), levels');
    }
  }

  /**
   * `update_goal_progress` stores the clamped progress; a raw progress of at
   * least 1.0 on an ACTIVE goal completes it, and otherwise the status stays.
   */
  lemma ProgressEffect(goals: seq<Goal>, levels: MotivationLevels, id: Id, progress: real, now: Time)
    requires id < |goals|
    ensures var r := AfterProgress(goals, levels, id, progress, now);
      && r.0[id].progress == Clamp01(progress)
      && r.0[id].status == (if progress >= 1.0 && goals[id].status == Active then Completed else goals[id].status)
      && (forall k :: 0 <= k < |goals| && k != id ==> r.0[k] == goals[k])
      && (GoalsOk(goals) ==> GoalsOk(r.0))
      && (levels.InUnit() ==> r.1.InUnit())
      && (progress < 1.0 || goals[id].status != Active ==> |r.0| == |goals|)
  {
    var stored := goals[id := goals[id].(progress := Clamp01(progress))];
    if GoalsOk(goals) {
      assert GoalOk(goals, id);
      Replaced(goals, id, stored[id]);
    }
    if progress >= 1.0 && goals[id].status == Active {
      CompletionEffect(stored, levels, id, now);
    }
  }

  // ---------------------------------------------------------------------------
  // Queries
  // ---------------------------------------------------------------------------

  /** The goals with status `s`, in insertion order. */
  function WithStatus(goals: seq<Goal>, s: GoalStatus): (r: seq<Goal>)
    ensures forall g :: g in r <==> g in goals && g.status == s
    ensures |r| <= |goals|
  {
    if goals == [] then []
    else WithStatus(goals[..|goals| - 1], s) + (if goals[|goals| - 1].status == s then [goals[|goals| - 1]] else [])
  }

  /** Filtering one more goal appends it when its status matches. */
  lemma WithStatusSnoc(xs: seq<Goal>, x: Goal, s: GoalStatus)
    ensures WithStatus(xs + [x], s) == WithStatus(xs, s) + (if x.status == s then [x] else [])
  {
    assert (xs + [x])[..|xs|] == xs;
  }

  /** Filtering by status distributes over concatenation, so it keeps the goals' relative order. */
  lemma {:induction false} WithStatusAppend(a: seq<Goal>, b: seq<Goal>, s: GoalStatus)
    ensures WithStatus(a + b, s) == WithStatus(a, s) + WithStatus(b, s)
    decreases |b|
  {
    if b == [] {
      assert a + b == a;
    } else {
      var b', last := b[..|b| - 1], b[|b| - 1];
      var t := if last.status == s then [last] else [];
      WithStatusAppend(a, b', s);
      var x, y := WithStatus(a, s), WithStatus(b', s);
      assert WithStatus(a + b, s) == (x + y) + t by {
        assert (a + b)[..|a + b| - 1] == a + b' && (a + b)[|a + b| - 1] == last;
      }
      assert (x + y) + t == x + (y + t);
    }
  }

  /** `get_active_goals`. */
  function ActiveGoals(goals: seq<Goal>): (r: seq<Goal>)
    ensures forall g :: g in r <==> g in goals && g.status == Active
  {
    WithStatus(goals, Active)
  }

  /** `get_goals_by_priority`: the ACTIVE goals of one priority, in insertion order. */
  function GoalsByPriority(goals: seq<Goal>, p: Priority): (r: seq<Goal>)
    ensures forall g :: g in r <==> g in goals && g.status == Active && g.priority == p
    ensures |r| <= |goals|
  {
    if goals == [] then []
    else
      var g := goals[|goals| - 1];
      GoalsByPriority(goals[..|goals| - 1], p) + (if g.priority == p && g.status == Active then [g] else [])
  }

  /** `a` sorts before `b` under the key `(priority.value, -progress)`. */
  predicate Before(a: Goal, b: Goal) {
    a.priority.Rank() < b.priority.Rank() || (a.priority == b.priority && a.progress > b.progress)
  }

  /** Index of the first element with the least key, which is where a stable sort puts it. */
  function FirstLeast(gs: seq<Goal>): (k: nat)
    requires gs != []
    ensures k < |gs|
    ensures forall j :: 0 <= j < |gs| ==> !Before(gs[j], gs[k])
    ensures forall j :: 0 <= j < k ==> Before(gs[k], gs[j])
  {
    if |gs| == 1 then 0
    else
      var k := FirstLeast(gs[..|gs| - 1]);
      if Before(gs[|gs| - 1], gs[k]) then |gs| - 1 else k
  }

  /**
   * `get_next_goal`: None exactly when no goal is ACTIVE; otherwise an ACTIVE
   * goal that no ACTIVE goal sorts before (HIGH, then LOW, then MEDIUM; more
   * progress first), the earliest such in insertion order.
   */
  function NextGoal(goals: seq<Goal>): (r: Option<Goal>)
    ensures r.None? <==> forall g :: g in goals ==> g.status != Active
    ensures r.Some? ==> r.value in goals && r.value.status == Active
    ensures r.Some? ==> forall g :: g in goals && g.status == Active ==> !Before(g, r.value)
  {
    var active := ActiveGoals(goals);
    if active == [] then None
    else
      var k := FirstLeast(active);
      assert forall g :: g in active ==> exists j :: 0 <= j < |active| && active[j] == g;
      Some(active[k])
  }

  /** The first element of the list `sorted` returns is the goal `NextGoal` picks. */
  lemma NextGoalIsFirstOfSorted(goals: seq<Goal>)
    requires ActiveGoals(goals) != []
    ensures var active := ActiveGoals(goals); var k := FirstLeast(active);
      NextGoal(goals) == Some(active[k]) && forall j :: 0 <= j < k ==> Before(active[k], active[j])
  {
  }

  function SumProgress(gs: seq<Goal>): real {
    if gs == [] then 0.0 else SumProgress(gs[..|gs| - 1]) + gs[|gs| - 1].progress
  }

  lemma {:induction false} SumProgressBounds(gs: seq<Goal>)
    requires forall g :: g in gs ==> 0.0 <= g.progress <= 1.0
    ensures 0.0 <= SumProgress(gs) <= |gs| as real
  {
    if gs != [] {
      assert forall g :: g in gs[..|gs| - 1] ==> g in gs;
      SumProgressBounds(gs[..|gs| - 1]);
      assert gs[|gs| - 1] in gs;
    }
  }

  lemma {:induction false} StatusCounts(goals: seq<Goal>)
    ensures |WithStatus(goals, Active)| + |WithStatus(goals, Completed)| <= |goals|
  {
    if goals != [] {
      StatusCounts(goals[..|goals| - 1]);
    }
  }

  lemma ActiveProgressBounds(goals: seq<Goal>)
    ensures GoalsOk(goals) ==> 0.0 <= SumProgress(ActiveGoals(goals)) <= |ActiveGoals(goals)| as real
  {
    var active := ActiveGoals(goals);
    if GoalsOk(goals) {
      forall g | g in active ensures 0.0 <= g.progress <= 1.0 {
        var k :| 0 <= k < |goals| && goals[k] == g;
        assert GoalOk(goals, k);
      }
      SumProgressBounds(active);
    }
  }

  lemma FractionInUnit(s: real, n: real)
    requires 1.0 <= n && 0.0 <= s <= n
    ensures 0.0 <= s / n <= 1.0
  {
  }

  /** The dictionary `get_goal_statistics` returns; `motivation` holds the intrinsic and extrinsic levels. */
  datatype GoalStatistics = GoalStatistics(
    totalGoals: nat, activeGoals: nat, completedGoals: nat, averageProgress: real,
    hierarchy: map<string, seq<Id>>, motivation: MotivationLevels)

  /**
   * `get_goal_statistics`: the counts of all, ACTIVE and COMPLETED goals, and
   * the summed progress of the ACTIVE goals divided by `max(1, active)`, so it
   * is 0.0 when none is active and lies in [0, 1]; the hierarchy and the
   * motivation levels are passed through.
   */
  function Statistics(goals: seq<Goal>, hierarchy: map<string, seq<Id>>, levels: MotivationLevels): (r: GoalStatistics)
    ensures r.totalGoals == |goals|
    ensures r.activeGoals == |ActiveGoals(goals)|
    ensures r.completedGoals == |WithStatus(goals, Completed)|
    ensures r.averageProgress
      == SumProgress(ActiveGoals(goals)) / (if |ActiveGoals(goals)| > 1 then |ActiveGoals(goals)| else 1) as real
    ensures r.activeGoals + r.completedGoals <= r.totalGoals
    ensures r.activeGoals == 0 ==> r.averageProgress == 0.0
    ensures GoalsOk(goals) ==> 0.0 <= r.averageProgress <= 1.0
    ensures r.hierarchy == hierarchy && r.motivation == levels
  {
    var active := ActiveGoals(goals);
    StatusCounts(goals);
    ActiveProgressBounds(goals);
    var divisor := if |active| > 1 then |active| else 1;
    var average := SumProgress(active) / divisor as real;
    assert GoalsOk(goals) ==> 0.0 <= average <= 1.0 by {
      if GoalsOk(goals) {
        FractionInUnit(SumProgress(active), divisor as real);
      }
    }
    GoalStatistics(|goals|, |active|, |WithStatus(goals, Completed)|, average, hierarchy, levels)
  }

  // ---------------------------------------------------------------------------
  // The module
  // ---------------------------------------------------------------------------

  /** The four goals every module starts with. */
  function DefaultGoalTable(): seq<(string, string, Priority)> {
    [("Понимать и помогать пользователям", "communication", High),
     ("Постоянно учиться и развиваться", "learning", High),
     ("Развивать самосознание и рефлексию", "self_development", Medium),
     ("Поддерживать позитивное взаимодействие", "social", Low)]
  }

  function DefaultGoals(now: Time): (r: seq<Goal>)
    ensures |r| == 4
  {
    var t := DefaultGoalTable();
    seq(4, i requires 0 <= i < 4 => NewGoal(i, t[i].0, t[i].1, t[i].2, now))
  }

  class GoalModule {
    var goals: seq<Goal>
    var goalHierarchy: map<string, seq<Id>>
    const motivationSystem: MotivationSystem

    ghost predicate Valid()
      reads this, motivationSystem
    {
      GoalsOk(goals) && motivationSystem.levels.InUnit() && goalHierarchy == Hierarchy(goals)
    }

    constructor (now: Time)
      ensures Valid() && fresh(motivationSystem)
      ensures motivationSystem.levels == InitialLevels()
      ensures goals == DefaultGoals(now)
    {
      goals := [];
      goalHierarchy := map[];
      motivationSystem := new MotivationSystem();
      new;
      assert Grouped([], 0) == map[];
      InitializeDefaultGoals(now);
    }

    /** `_initialize_default_goals`: the four defaults are distinct, so each is added, and none is promoted. */
    method InitializeDefaultGoals(now: Time)
      requires Valid() && goals == [] && motivationSystem.levels == InitialLevels()
      modifies this`goals, this`goalHierarchy
      ensures Valid() && goals == DefaultGoals(now)
    {
      var table := DefaultGoalTable();
      var i := 0;
      while i < |table|
        invariant 0 <= i <= |table| == 4
        invariant Valid() && goals == DefaultGoals(now)[..i]
      {
        var (description, category, priority) := table[i];
        DefaultStep(i, motivationSystem.levels, now);
        var _ := AddGoal(description, category, priority, now);
        i := i + 1;
      }
    }

    /** `add_goal`: see `WithGoal`, `WithGoalFinds` and `WithGoalIdempotent`. */
    method AddGoal(description: string, category: string, priority: Priority, now: Time) returns (id: Id)
      requires Valid()
      modifies this`goals, this`goalHierarchy
      ensures Valid()
      ensures (goals, id) == WithGoal(old(goals), motivationSystem.levels, description, category, priority, now)
    {
      var i := 0;
      while i < |goals|
        invariant i <= |goals|
        invariant forall j :: 0 <= j < i ==> !SameText(goals[j].description, description)
      {
        if Lower(goals[i].description) == Lower(description) {
          assert GoalOk(goals, i);
          return goals[i].id;
        }
        i := i + 1;
      }
      var goal := NewGoal(|goals|, description, category, priority, now);
      goals := goals + [goal];
      IntegrateWithMotivation(goal.id);
      assert goals == old(goals) + [Integrated(goal, motivationSystem.levels)];
      WithGoalFinds(old(goals), motivationSystem.levels, description, category, priority, now);
      UpdateGoalHierarchy();
      id := goal.id;
    }

    /** `_integrate_with_motivation`, on the goal stored under `id`. */
    method IntegrateWithMotivation(id: Id)
      requires id < |goals|
      modifies this`goals
      ensures goals == old(goals)[id := Integrated(old(goals)[id], motivationSystem.levels)]
    {
      var goal := goals[id];
      if motivationSystem.GetMotivationForGoal(goal) > 0.8 && goal.priority == Medium {
        goals := goals[id := goal.(priority := High)];
      }
    }

    /** `_update_goal_hierarchy`: group the ids by category, then sort each group by priority. */
    method UpdateGoalHierarchy()
      modifies this`goalHierarchy
      ensures goalHierarchy == Hierarchy(goals)
    {
      var groups := GroupByCategory();
      var sorted := SortGroups(groups);
      assert sorted == Hierarchy(goals);
      goalHierarchy := sorted;
    }

    /** The first loop of `_update_goal_hierarchy`. */
    method GroupByCategory() returns (groups: map<string, seq<Id>>)
      ensures groups == Grouped(goals, |goals|)
    {
      groups := map[];
      var k := 0;
      while k < |goals|
        invariant k <= |goals| && groups == Grouped(goals, k)
      {
        GroupedStep(goals, k);
        groups := AddToGroup(groups, goals[k].category, k);
        k := k + 1;
      }
    }

    /** The second loop of `_update_goal_hierarchy`; the categories are sorted independently, so their order is immaterial. */
    method SortGroups(groups: map<string, seq<Id>>) returns (sorted: map<string, seq<Id>>)
      ensures sorted == PartlySorted(goals, groups, {})
    {
      sorted := groups;
      var todo := groups.Keys;
      NothingSorted(goals, groups);
      while todo != {}
        invariant todo <= groups.Keys && sorted == PartlySorted(goals, groups, todo)
        decreases todo
      {
        var c :| c in todo;
        SortingStep(goals, groups, todo, c);
        sorted := sorted[c := ByPriorityDesc(goals, groups[c])];
        todo := todo - {c};
      }
    }

    /** `update_goal_progress`: an unknown id changes nothing; see `ProgressEffect`. */
    method UpdateGoalProgress(goalId: Id, progress: real, now: Time)
      requires Valid()
      modifies this`goals, this`goalHierarchy, motivationSystem
      ensures Valid()
      ensures goalId < |old(goals)| ==>
        (goals, motivationSystem.levels) == AfterProgress(old(goals), old(motivationSystem.levels), goalId, progress, now)
      ensures goalId >= |old(goals)| ==> goals == old(goals) && motivationSystem.levels == old(motivationSystem.levels)
    {
      if goalId < |goals| {
        var oldProgress := goals[goalId].progress;
        assert GoalOk(goals, goalId);
        Replaced(goals, goalId, goals[goalId].(progress := Clamp01(progress)));
        goals := goals[goalId := goals[goalId].(progress := Clamp01(progress))];
        if progress >= 1.0 && goals[goalId].status == Active {
          CompleteGoal(goalId, now);
        }
        if progress > oldProgress {
          motivationSystem.UpdateMotivation(goals[goalId], true);
        }
      }
    }

    /** `complete_goal`: an unknown id changes nothing; see `CompletionEffect` and `LearningFollowUp`. */
    method CompleteGoal(goalId: Id, now: Time)
      requires Valid()
      modifies this`goals, this`goalHierarchy, motivationSystem
      ensures Valid()
      ensures goalId < |old(goals)| ==>
        (goals, motivationSystem.levels) == AfterCompletion(old(goals), old(motivationSystem.levels), goalId, now)
      ensures goalId >= |old(goals)| ==> goals == old(goals) && motivationSystem.levels == old(motivationSystem.levels)
    {
      if goalId < |goals| {
        assert GoalOk(goals, goalId);
        Replaced(goals, goalId, MarkCompleted(goals, goalId, now)[goalId]);
        goals := MarkCompleted(goals, goalId, now);
        motivationSystem.UpdateMotivation(goals[goalId], true);
        GenerateFollowUpGoals(goalId, now);
      }
    }

    /** `_generate_follow_up_goals`. */
    method GenerateFollowUpGoals(completedId: Id, now: Time)
      requires Valid() && completedId < |goals|
      modifies this`goals, this`goalHierarchy
      ensures Valid()
      ensures goals == FollowUps(old(goals), motivationSystem.levels, completedId, now)
    {
      var completed := goals[completedId];
      if completed.category == "learning" {
        var _ := AddGoal(ApplicationGoal(completed.description), "application", Medium, now);
      } else if completed.category == "communication" {
        var _ := AddGoal(ImprovementGoal(completed.description), "improvement", Low, now);
      }
    }

    /** `get_goal_statistics` on this module: in a valid module the hierarchy reported is the one the goals determine. */
    function GetGoalStatistics(): (r: GoalStatistics)
      reads this, motivationSystem
      ensures r == Statistics(goals, goalHierarchy, motivationSystem.levels)
      ensures Valid() ==> r.hierarchy == Hierarchy(goals) && r.motivation.InUnit() && 0.0 <= r.averageProgress <= 1.0
    {
      Statistics(goals, goalHierarchy, motivationSystem.levels)
    }
  }

  /** Each default is new when it is added, and none is promoted by the initial motivation. */
  lemma DefaultStep(i: nat, levels: MotivationLevels, now: Time)
    requires i < 4 && levels == InitialLevels()
    ensures var (description, category, priority) := DefaultGoalTable()[i];
      WithGoal(DefaultGoals(now)[..i], levels, description, category, priority, now).0 == DefaultGoals(now)[..i + 1]
  {
    var t := DefaultGoalTable();
    var goals := DefaultGoals(now)[..i];
    DefaultsDistinct(i);
    assert forall j :: 0 <= j < i ==> goals[j].description == t[j].0;
    assert DuplicateOf(goals, t[i].0).None?;
    assert DefaultGoals(now)[..i + 1] == goals + [DefaultGoals(now)[i]];
  }

  /** The four default descriptions differ even when compared without case. */
  lemma DefaultsDistinct(i: nat)
    requires i < 4
    ensures forall j :: 0 <= j < i ==> !SameText(DefaultGoalTable()[j].0, DefaultGoalTable()[i].0)
  {
    var t := DefaultGoalTable();
    assert t[0].0[0] == 'П' && t[0].0[2] == 'н';
    assert t[1].0[0] == 'П' && t[1].0[2] == 'с';
    assert t[2].0[0] == 'Р';
    assert t[3].0[0] == 'П' && t[3].0[2] == 'д';
    forall j | 0 <= j < i
      ensures !SameText(t[j].0, t[i].0)
    {
      if i == 2 || j == 2 {
        assert Lower(t[j].0)[0] != Lower(t[i].0)[0];
      } else {
        assert Lower(t[j].0)[2] != Lower(t[i].0)[2];
      }
    }
  }
}
