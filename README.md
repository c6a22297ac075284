# ai-box cognitive core in Dafny

This project models the in-memory core of the ai-box autonomous agent and proves
properties of that model. The core is made of these parts:

- **Thought tree** (`thought_tree.dfy`, with the node type and path logic in `thoughts.dfy`).
  - The agent's deliberation is an arena of thoughts. Each node has an append-only
    child list and a parent back-reference.
  - Scores are clamped, and the overall score is a fixed weighted sum.
  - New thoughts are scored by deterministic heuristics. Critiques are generated
    from the thought's type.
  - Branching creates alternatives. Branches are scored by mean overall score.
  - Attention is a LIFO focus stack.
  - Best-path selection enumerates every path depth-first and keeps the first
    path with the best mean.
  - The reasoning log keeps the last 1000 entries.
- **Goal manager** (`goals.dfy`):
  - case-insensitive deduplication of goals;
  - motivation-driven promotion of MEDIUM goals;
  - progress, completion and follow-up goals;
  - the category hierarchy;
  - next-goal choice and statistics.
- **Inner state** (`inner_state.dfy`):
  - clamped energy, stress and confidence levels;
  - transition counters and a weighted self-evaluation;
  - histories bounded at 1000 snapshots, 100 reflections and 10 current thoughts.
- **World model** (`world_model.dfy`):
  - entities, facts and contexts;
  - Jaccard similarity and symmetric contradiction marking;
  - API and user-input ingestion;
  - relevance ranking;
  - a perception log bounded at 1000.
- **Self model** (`self_model.dfy`):
  - reflections with deduplicated lists;
  - personality traits and values, changed by capped steps;
  - motivation arithmetic;
  - performance and confidence updates;
  - a development log bounded at 500.
- **Fallback episodic memory** (`memory.dfy`):
  - a FIFO of at most 1000 episode ids with keyword search;
  - the metadata cleaning of `store_episode`.
- **Result cache** (`ollama_cache.dfy`): a size-bounded cache with oldest-first
  eviction and time-to-live expiry.
- **Reasoning helpers** (`reasoning.dfy`):
  - model selection;
  - system and reasoning prompt construction;
  - reasoning-chain extraction;
  - the confidence thresholds.
- **Subconscious helpers** (`subconscious.dfy`):
  - complexity and importance scores;
  - theme, time-bucket and emotional-word extraction;
  - emotional charge;
  - the pattern counters and memory consolidation.

Two files hold shared definitions:

- `common.dfy`:
  - the string built-ins the core relies on (`lower`, `split`, `strip`, slicing);
  - clamps;
  - bounded logs;
  - sorting;
  - insertion-ordered dictionaries.
- `pyvalue.dfy`: the dynamically typed values stored in metadata and context
  dictionaries, with their `str`/`repr`.

## Modelling conventions

**Form of the model.**
- A Python object whose fields are updated in place is a Dafny `class` with
  those fields. The classes are the thought tree, the goal module, the inner
  state, the world model, the self-model parts, the memory, the cache, the
  pattern recognizer and the consolidator.
- Records that are replaced as a whole are datatypes: thoughts, goals,
  entities, facts, contexts and snapshots.
- Each class method is proved against pure functions of the old state. The
  properties are then proved about those functions.

**Ids.**
- uuid ids are modelled as positions in the owning sequence, so a new id never
  collides with a stored one.
- The thought tree's ids are likewise `0..n-1`. A child's id is therefore always
  greater than its parent's.
- The episodic memory keeps caller-supplied string ids, as the source does.

**Clock.** `datetime.now()` is a `now: Time` parameter.
- The cache's clock is an integer count of microseconds.
- `datetime.fromisoformat` in `_analyze_time_pattern` is an optional hour
  parameter.

**Numbers and strings.**
- Scores and weights are reals. IEEE rounding is not modelled.
- Strings are `seq<char>`.
- `str.lower()` is modelled for Latin A-Z and Cyrillic А-Я and Ё. These are the
  alphabets the core's keyword tables use.
- `str.split()` splits on Python's whitespace set.

**Dictionaries.** Python dictionaries whose iteration order is observable are
sequences of key/value pairs without duplicate keys (`Dicts`). The order
matters in three places:
- stable sorts;
- first-wins `max`/`min`;
- the cache's eviction of the first oldest entry.

**Behaviour of the code that the model keeps.**
- `add_thought` with an unknown `parent_id` stores the thought with that
  `parent_id` and links it under no node (core/thought_tree_module.py:166-170).
  See `Thoughts.AddedLinks`.
- A new thought's novelty is always 0.3. The similarity scan runs after the
  node is stored and always finds the node itself
  (core/thought_tree_module.py:166, 178, 382, 430-432). See
  `Thoughts.ScanFindsItself` and `Thoughts.FreshThought`.
- `create_branch` makes one new branch per alternative iff a branch name is
  given or there are at least two alternatives. Unnamed branches are called
  "Альтернатива 1_1", "Альтернатива 1_2", and so on
  (core/thought_tree_module.py:211-219).

## Model

| member | source | states |
|---|---|---|
| Thoughts.Weighted | core/thought_tree_module.py:92-96 | the weighted overall score of four scores in [0,1] is itself in [0,1] |
| Thoughts.Thought.AddChild | core/thought_tree_module.py:55-59 | the child id ends up in the child list; an id already listed leaves the thought unchanged, a new one is appended and stamps `updated_at` |
| Thoughts.Thought.AddEvidence | core/thought_tree_module.py:61-65 | evidence is appended only if absent, so the list never holds duplicates |
| Thoughts.Thought.AddCounterargument | core/thought_tree_module.py:67-71 | counterarguments are appended only if absent, so the list never holds duplicates |
| Thoughts.Thought.UpdateScores | core/thought_tree_module.py:73-96 | every supplied score is clamped to [0,1], omitted scores are kept, and the overall score is always the weighted sum of the four; with valid scores the result is valid |
| Thoughts.NewThought | core/thought_tree_module.py:28-53 | a new thought starts with all four scores 0.5 and overall 0.5 |
| Thoughts.ConfidenceFor | core/thought_tree_module.py:366-377 | the per-type base confidence is between 0.5 and 0.9 |
| Thoughts.AutoEvaluated | core/thought_tree_module.py:355-387 | auto-evaluation yields valid scores, confidence of at least 0.5 and novelty always 0.3 |
| Thoughts.ScanFindsItself | core/thought_tree_module.py:426-434 | the similarity scan, run after the new thought is stored, always finds that thought, which is why novelty is always 0.3 |
| Thoughts.FreshThought | core/thought_tree_module.py:155-188 | a freshly added thought is ACTIVE with no children; feasibility is 0.8 iff its content is longer than 20, relevance is 0.8 iff a non-empty context was given, novelty is 0.3 |
| Thoughts.AutoEvaluatedIsFresh | core/thought_tree_module.py:166-178 | evaluating the just-stored node gives exactly the fresh-thought scores |
| Thoughts.InsertedThenEvaluated | core/thought_tree_module.py:155-188 | storing the node and then auto-evaluating it is the same as adding the fresh thought |
| Thoughts.TypeCritiques | core/thought_tree_module.py:389-405 | HYPOTHESIS, PLAN and DECISION thoughts get two type critiques (the first quoting the content); other types get none |
| Thoughts.AutoCritiques | core/thought_tree_module.py:389-413 | the critiques are the type critiques, then one for missing evidence, then one for confidence below 0.5, each only when it applies |
| Thoughts.AutoEvaluatedCritiqueCount | core/thought_tree_module.py:376-413 | with the auto-evaluated confidence the low-confidence critique never fires, so only type critiques and the evidence critique remain |
| Thoughts.Hypotheses | core/thought_tree_module.py:415-424 | three hypotheses, each ending with the observation; the second and third are always longer than 20 characters |
| Thoughts.WellFormedChildren | core/thought_tree_module.py:55-59 | in a well-formed arena every child id is stored and greater than its parent's id |
| Thoughts.AddedLinks | core/thought_tree_module.py:155-175 | with a stored parent the new id is appended exactly once to that parent's children; with an unknown parent or none, no thought lists it; no other thought changes and none is removed |
| Thoughts.AddedKeepsWellFormed | core/thought_tree_module.py:155-175 | adding a thought keeps the arena well formed, parent and child links agreeing |
| Thoughts.AddedAllWellFormed | core/thought_tree_module.py:204-210 | adding a run of children keeps the arena well formed |
| Thoughts.AddedAllNew | core/thought_tree_module.py:204-210 | each added child is the fresh thought for its text with the given parent |
| Thoughts.AddedAllOthers | core/thought_tree_module.py:204-210 | adding children changes no stored thought except the parent |
| Thoughts.AddedAllParentChildren | core/thought_tree_module.py:204-210 | the parent's children gain exactly the new ids, in order |
| Thoughts.AddedAllParent | core/thought_tree_module.py:204-210 | apart from its children the parent changes only its timestamp, and only when something was added |
| Thoughts.PathsAreLeafChains | core/thought_tree_module.py:436-447 | every enumerated path is the prefix followed by a parent-to-child chain from the start node to a leaf |
| Thoughts.ChildPathsAreLeafChains | core/thought_tree_module.py:442-447 | paths enumerated through a child list are leaf chains that start at one of those children |
| Thoughts.PathsComplete | core/thought_tree_module.py:436-447 | every parent-to-child chain of stored thoughts from the start node to a leaf is enumerated, after the prefix |
| Thoughts.ChildPathsComplete | core/thought_tree_module.py:442-447 | every leaf chain that starts at one of the children is enumerated through the child list |
| Thoughts.PathsNonEmpty | core/thought_tree_module.py:436-447 | a stored start node always has at least one path |
| Thoughts.CountPresent | core/thought_tree_module.py:279-285 | the number of stored members never exceeds the member count |
| Thoughts.SumPresentBounds | core/thought_tree_module.py:279-285 | the sum of stored members' overall scores lies between 0 and their count |
| Thoughts.AllPresentCount | core/thought_tree_module.py:279-285 | when every member is stored, all of them are counted |
| Thoughts.MeansInUnit | core/thought_tree_module.py:279-289 | a branch mean is in [0,1], and is the plain mean when every member is stored |
| Thoughts.Means | core/thought_tree_module.py:300-306 | each path gets its mean overall score |
| Thoughts.BestPathIsFirstBest | core/thought_tree_module.py:291-322 | for a stored start the chosen path is a chain from it to a leaf; no enumerated path has a larger mean, and every earlier path has a strictly smaller one |
| Thoughts.BestPathBeatsEveryChain | core/thought_tree_module.py:291-322 | no chain of stored thoughts from the start node to a leaf has a larger mean than the chosen path |
| Thoughts.BestPathStored | core/thought_tree_module.py:310-314 | every node on the chosen path is stored |
| Thoughts.Attention.Focused | core/thought_tree_module.py:250-262 | focusing sets the focus and pushes the previous focus, if any |
| Thoughts.Attention.Pop | core/thought_tree_module.py:264-269 | popping an empty stack returns None and changes nothing; otherwise the top becomes the focus and is returned |
| Thoughts.PriorFoci | core/thought_tree_module.py:250-262 | one previous focus is recorded per focusing |
| Thoughts.PopsUndoFocuses | core/thought_tree_module.py:250-269 | popping as many times as there were focusings restores the original focus and stack and returns the earlier foci in reverse (LIFO) order |
| ThoughtTree.Branch.AddThought | core/thought_tree_module.py:132-136 | a branch adds a thought id only if absent, and its depth tracks the number of ids |
| ThoughtTree.NewBranch | core/thought_tree_module.py:120-130 | a new branch is EXPLORING with the root as its only member |
| ThoughtTree.NewBranches | core/thought_tree_module.py:211-219 | branching registers one new branch id per alternative, consecutively |
| ThoughtTree.FirstAlternativeName | core/thought_tree_module.py:211-212 | an unnamed branching names its branches after "Альтернатива 1", because the name is overwritten on the first iteration |
| ThoughtTree.PartlyScored | core/thought_tree_module.py:271-289 | scoring branches never adds or removes a branch |
| ThoughtTree.ScoresSoFar | core/thought_tree_module.py:271-289 | scores exist for exactly the EXPLORING branches already visited |
| ThoughtTree.ScoringStep | core/thought_tree_module.py:276-287 | scoring one more branch updates only that branch and adds its mean only if it is EXPLORING |
| ThoughtTree.PartlyScoredOk | core/thought_tree_module.py:271-289 | scoring keeps every branch well formed |
| ThoughtTree.MarkSelected | core/thought_tree_module.py:316-318 | exactly the path's nodes (plus those already SELECTED) are SELECTED; nothing else changes |
| ThoughtTree.MarkSelectedKeepsWellFormed | core/thought_tree_module.py:316-318 | marking the path keeps the arena well formed |
| ThoughtTree.Overalls | core/thought_tree_module.py:340-353 | the overall scores of the given thoughts, in order |
| ThoughtTree.WithHypotheses | core/thought_tree_module.py:324-353 | generating hypotheses stores the observation and three hypothesis children |
| ThoughtTree.HypothesisChoice | core/thought_tree_module.py:340-353 | the first hypothesis wins (first of equal maxima) unless the observation is shorter than two characters, when the second wins |
| ThoughtTree.Label | core/thought_tree_module.py:455-460 | node labels keep content of up to 50 characters and otherwise cut it to 50 followed by "..." |
| ThoughtTree.EdgesAreChildLinks | core/thought_tree_module.py:462-467 | the visualization edges are exactly the stored parent-to-child links |
| ThoughtTree.EdgesAreParentLinks | core/thought_tree_module.py:462-467 | in a well-formed arena every edge agrees with the child's parent reference and points to a larger id |
| ThoughtTree.ThoughtTreeModule.constructor | core/thought_tree_module.py:144-153 | the tree starts empty, with no focus and critique enabled |
| ThoughtTree.ThoughtTreeModule.LogReasoning | core/thought_tree_module.py:499-511 | the entry is appended and the log keeps only its last 1000 entries |
| ThoughtTree.ThoughtTreeModule.AutoEvaluateThought | core/thought_tree_module.py:355-387 | a stored thought is replaced by its auto-evaluated version; an unknown id changes nothing |
| ThoughtTree.ThoughtTreeModule.AddThought | core/thought_tree_module.py:155-188 | the new thought gets the next id and is added, linked and auto-evaluated; the addition is logged and nothing else changes |
| ThoughtTree.ThoughtTreeModule.AddChildren | core/thought_tree_module.py:204-210 | a run of children is added with consecutive ids and logged one by one |
| ThoughtTree.ThoughtTreeModule.BranchLoop | core/thought_tree_module.py:204-219 | each alternative becomes an ALTERNATIVE child in order, and branches are registered as the source names them |
| ThoughtTree.ThoughtTreeModule.BranchThought | core/thought_tree_module.py:190-221 | an unknown parent gives [] and changes nothing; otherwise exactly one ALTERNATIVE child per alternative, in order, and one new branch per alternative iff a name was given or there are at least two |
| ThoughtTree.ThoughtTreeModule.CritiqueThought | core/thought_tree_module.py:223-248 | an unknown id gives []; otherwise the auto-critiques (none when auto-generation is off) become CRITIQUE children and their number is logged |
| ThoughtTree.ThoughtTreeModule.AddCritiques | core/thought_tree_module.py:235-248 | given critique texts for a stored thought, each becomes a CRITIQUE child under the next id, in order, and the count is logged after their additions |
| ThoughtTree.ThoughtTreeModule.SetFocus | core/thought_tree_module.py:250-262 | focusing a stored thought pushes the previous focus and logs it; an unknown id changes nothing |
| ThoughtTree.ThoughtTreeModule.PopFocus | core/thought_tree_module.py:264-269 | the most recently pushed focus is restored and returned; an empty stack gives None with the focus unchanged |
| ThoughtTree.ThoughtTreeModule.MeanScore | core/thought_tree_module.py:279-285 | a branch score is the mean overall score of its stored members, 0.0 when none is stored |
| ThoughtTree.ThoughtTreeModule.ScoreBranch | core/thought_tree_module.py:276-287 | scoring one branch advances the partial scoring by that branch |
| ThoughtTree.ThoughtTreeModule.EvaluateBranches | core/thought_tree_module.py:271-289 | the scores' keys are exactly the EXPLORING branches, each the mean of its stored members; only those branches' scores change, and no status changes |
| ThoughtTree.ThoughtTreeModule.FindAllPaths | core/thought_tree_module.py:436-447 | the recursion appends exactly the depth-first paths to the shared list |
| ThoughtTree.ThoughtTreeModule.MarkPath | core/thought_tree_module.py:316-318 | the loop marks exactly the path's nodes SELECTED |
| ThoughtTree.ThoughtTreeModule.PathScores | core/thought_tree_module.py:300-306 | the computed path scores are the path means |
| ThoughtTree.ThoughtTreeModule.ChoosePath | core/thought_tree_module.py:291-314 | the chosen path is the first path with the largest mean |
| ThoughtTree.ThoughtTreeModule.SelectBestPath | core/thought_tree_module.py:291-322 | an unknown id gives [] and changes nothing; otherwise the first best path is returned, its nodes become SELECTED and the choice is logged |
| ThoughtTree.ThoughtTreeModule.GenerateHypothesis | core/thought_tree_module.py:324-353 | the observation and three hypothesis children are added, and the returned id is the hypothesis with the first highest overall score |
| ThoughtTree.ThoughtTreeModule.GetVisualization | core/thought_tree_module.py:449-470 | one node per thought with its label and focus flag, and one edge per parent-to-child link |
| Goals.Priority.Rank | core/goal_module.py:9-12 | priorities rank by their string values |
| Goals.RankIsStringOrder | core/goal_module.py:213-226 | rank order coincides with string order on the priority values ("high" < "low" < "medium") |
| Goals.MotivationLevels.Updated | core/goal_module.py:60-76 | success adds 0.05 to learning, 0.03 to communication and 0.02 to task completion, each exactly 1.0 once the sum would pass 1.0; failure subtracts 0.01 from task completion, exactly 0.0 below 0.01; all levels stay in [0,1] and nothing else changes |
| Goals.MotivationLevels.ForGoal | core/goal_module.py:78-94 | the goal motivation is at most 1.0, non-negative for valid levels, and at least the category motivation unless capped |
| Goals.InitialLevels | core/goal_module.py:44-58 | the initial motivation levels are in [0,1] |
| Goals.MotivationSystem.constructor | core/goal_module.py:44-58 | the system starts with the initial levels |
| Goals.MotivationSystem.UpdateMotivation | core/goal_module.py:60-76 | the levels become the updated levels and stay in [0,1] |
| Goals.MotivationSystem.GetMotivationForGoal | core/goal_module.py:78-94 | the goal motivation is at most 1.0 and non-negative for valid levels |
| Goals.Integrated | core/goal_module.py:139-146 | integration changes at most the priority |
| Goals.PromotionRule | core/goal_module.py:139-146 | a MEDIUM goal becomes HIGH iff min(1, category motivation + 0.1) > 0.8; other priorities never change |
| Goals.DuplicateOf | core/goal_module.py:121-127 | finds the first goal whose description equals the new one case-insensitively, and None iff there is none |
| Goals.WithGoalFinds | core/goal_module.py:121-137 | after adding, the returned id names a goal with that description; at most one goal is appended and stored goals are kept |
| Goals.WithGoalIdempotent | core/goal_module.py:121-127 | adding the same description again returns the same id and changes nothing |
| Goals.IdsIn | core/goal_module.py:148-155 | the ids grouped under a category are exactly the goals of that category |
| Goals.CategoryUsed | core/goal_module.py:148-155 | every hierarchy category is used by some goal |
| Goals.ByPriorityDescSorted | core/goal_module.py:157-163 | hierarchy lists are sorted by priority string, descending |
| Goals.ByPriorityDescPermutes | core/goal_module.py:157-163 | sorting a hierarchy list permutes it |
| Goals.HierarchyLists | core/goal_module.py:148-163 | the hierarchy has a key per used category, whose list is a permutation of exactly that category's ids |
| Goals.HierarchyIgnoresProgress | core/goal_module.py:148-163 | the hierarchy depends only on ids, categories and priorities |
| Goals.Replaced | core/goal_module.py:165-194 | replacing a goal by one with the same id, category and priority keeps the invariant and the hierarchy |
| Goals.CompletionEffect | core/goal_module.py:181-194 | completion marks the goal COMPLETED with progress 1.0, keeps the other goals, adds at most one goal (none outside learning and communication) and raises motivation |
| Goals.ApplicationNotPromoted | core/goal_module.py:196-207 | the "application" follow-up stays MEDIUM |
| Goals.LearningFollowUp | core/goal_module.py:196-207 | a completed learning goal leaves an "application" goal stored, appended as MEDIUM when new |
| Goals.CommunicationFollowUp | core/goal_module.py:196-207 | a completed communication goal leaves an "improvement" goal stored, appended as LOW when new |
| Goals.ProgressEffect | core/goal_module.py:165-179 | progress is stored clamped to [0,1]; a raw progress of at least 1.0 on an ACTIVE goal completes it; other goals are kept |
| Goals.WithStatus | core/goal_module.py:209-211 | the goals with a given status, in order |
| Goals.WithStatusAppend | core/goal_module.py:209-211 | filtering by status distributes over concatenation, so the kept goals stay in insertion order |
| Goals.ActiveGoals | core/goal_module.py:209-211 | exactly the ACTIVE goals |
| Goals.GoalsByPriority | core/goal_module.py:213-216 | exactly the ACTIVE goals of the given priority |
| Goals.FirstLeast | core/goal_module.py:218-226 | the first goal that no other goal precedes in (priority string, progress descending) order |
| Goals.NextGoal | core/goal_module.py:218-226 | None iff no goal is ACTIVE; otherwise an ACTIVE goal that no ACTIVE goal precedes |
| Goals.NextGoalIsFirstOfSorted | core/goal_module.py:218-226 | the next goal is the first of the active goals in sorted order, which a stable sort puts first |
| Goals.SumProgressBounds | core/goal_module.py:232-250 | the progress sum of goals with progress in [0,1] lies between 0 and their count |
| Goals.StatusCounts | core/goal_module.py:232-250 | active plus completed goals never exceed the total |
| Goals.Statistics | core/goal_module.py:232-250 | the counts of all, ACTIVE and COMPLETED goals; the average is the ACTIVE goals' summed progress over max(1, active), so 0 with no active goal and in [0,1]; hierarchy and motivation levels passed through |
| Goals.GoalModule.GetGoalStatistics | core/goal_module.py:232-250 | the module's statistics; in a valid module the hierarchy reported is the one its goals determine, the levels and the average are in [0,1] |
| Goals.DefaultGoals | core/goal_module.py:109-119 | four default goals |
| Goals.DefaultsDistinct | core/goal_module.py:109-119 | the default descriptions differ case-insensitively, so all four are stored |
| Goals.GoalModule.constructor | core/goal_module.py:99-107 | the module starts with the four default goals and the initial motivation |
| Goals.GoalModule.InitializeDefaultGoals | core/goal_module.py:109-119 | the four defaults are added in order |
| Goals.GoalModule.AddGoal | core/goal_module.py:121-137 | adding is the deduplicating add with motivation integration |
| Goals.GoalModule.IntegrateWithMotivation | core/goal_module.py:139-146 | one goal's priority is integrated with the motivation levels |
| Goals.GoalModule.UpdateGoalHierarchy | core/goal_module.py:148-163 | the stored hierarchy is the grouped and sorted goal ids |
| Goals.GoalModule.GroupByCategory | core/goal_module.py:148-155 | the grouping loop collects the ids per category |
| Goals.GoalModule.SortGroups | core/goal_module.py:157-163 | every group is sorted by priority, descending |
| Goals.GoalModule.UpdateGoalProgress | core/goal_module.py:165-179 | an unknown id changes nothing; otherwise the effect of the progress update |
| Goals.GoalModule.CompleteGoal | core/goal_module.py:181-194 | an unknown id changes nothing; otherwise the effect of completion |
| Goals.GoalModule.GenerateFollowUpGoals | core/goal_module.py:196-207 | the follow-up goal is added for learning and communication goals only |
| InnerState.MotivationLevel.Value | core/inner_state_module.py:26-30 | motivation levels are 1 to 4 |
| InnerState.Bump | core/inner_state_module.py:89-93 | a counter is incremented by exactly one and the others are untouched |
| InnerState.TransitionKeysDistinct | core/inner_state_module.py:89-109 | emotional and cognitive transition counters never share a key |
| InnerState.FactorsOf | core/inner_state_module.py:176-186 | the evaluation factors are in [0,1] for valid levels, motivation in [0.25,1], and the concern factor is 0 iff there are at least 10 concerns |
| InnerState.Evaluation | core/inner_state_module.py:173-211 | the self-evaluation of valid levels lies in [0.05,1] |
| InnerState.EvaluationMonotone | core/inner_state_module.py:176-195 | more energy and confidence and less stress never lower the evaluation |
| InnerState.Frequencies | core/inner_state_module.py:240-246 | the concern counts have exactly the concerns seen as keys |
| InnerState.FrequenciesCount | core/inner_state_module.py:240-246 | each count is the concern's number of occurrences |
| InnerState.ConcernFrequencyIsSnapshotCount | core/inner_state_module.py:240-246 | since concerns are never duplicated, a concern's count is the number of snapshots holding it |
| InnerState.SumsBounded | core/inner_state_module.py:219-221 | level sums lie between 0 and the number of snapshots |
| InnerState.PatternsOf | core/inner_state_module.py:213-229 | fewer than 2 snapshots give the "insufficient data" message; otherwise the total, the transitions, the three levels' means over the history (in [0,1] when the levels are) and the concern frequencies of the whole history |
| InnerState.LatestSnapshotIsCurrent | core/inner_state_module.py:273-296 | after saving, the last snapshot is the current state |
| InnerState.InnerStateModule.constructor | core/inner_state_module.py:75-80 | the module starts with the initial state and empty histories |
| InnerState.InnerStateModule.SaveStateSnapshot | core/inner_state_module.py:273-296 | the current state is appended and the history keeps its last 1000 entries |
| InnerState.InnerStateModule.UpdateEmotionalState | core/inner_state_module.py:82-96 | the emotion is set, exactly the counter "old -> new" goes up by one, and one snapshot is saved |
| InnerState.InnerStateModule.UpdateCognitiveState | core/inner_state_module.py:98-111 | the cognitive state is set, exactly the "cognitive: old -> new" counter goes up by one, the attention focus changes only when a context is given, and one snapshot is saved |
| InnerState.InnerStateModule.UpdateMotivation | core/inner_state_module.py:113-122 | the motivation level and its factors are set and one snapshot is saved |
| InnerState.InnerStateModule.AdjustEnergyLevel | core/inner_state_module.py:124-132 | energy becomes clamp(energy + delta) in [0,1] and one snapshot is saved |
| InnerState.InnerStateModule.AdjustStressLevel | core/inner_state_module.py:134-144 | stress becomes clamp(stress + delta) in [0,1], the stressor is noted and one snapshot is saved |
| InnerState.InnerStateModule.UpdateConfidence | core/inner_state_module.py:146-153 | confidence becomes the clamped new level and one snapshot is saved |
| InnerState.InnerStateModule.AddThought | core/inner_state_module.py:155-161 | the thought is appended, only the 10 most recent are kept, and no snapshot is saved |
| InnerState.InnerStateModule.AddConcern | core/inner_state_module.py:163-166 | a concern is added only if absent, and no snapshot is saved |
| InnerState.InnerStateModule.ResolveConcern | core/inner_state_module.py:168-171 | the concern is removed if present, otherwise nothing changes |
| InnerState.InnerStateModule.SelfEvaluate | core/inner_state_module.py:173-211 | the returned score is the weighted evaluation, in [0.05,1]; it is stored and a reflection is logged, the log keeping its last 100 entries |
| InnerState.InnerStateModule.AnalyzeConcerns | core/inner_state_module.py:240-246 | the loop counts every concern over all snapshots |
| InnerState.InnerStateModule.AnalyzeStatePatterns | core/inner_state_module.py:213-229 | the analysis of the stored history |
| WorldModel.WithProperties | core/world_model_module.py:19-26 | every updated key ends up stored, and property keys stay unique |
| WorldModel.WorldModelModule.ApplyProperties | core/world_model_module.py:120-122 | applying properties one by one updates the entity's properties and stamps it only when there was one |
| WorldModel.AddRelationship | core/world_model_module.py:28-33 | the target is added under the relation only if absent, so no target is stored twice; other relations are untouched |
| WorldModel.Similarity | core/world_model_module.py:340-352 | Jaccard similarity is in [0,1] and 0 if either statement has no words |
| WorldModel.SimilaritySymmetric | core/world_model_module.py:340-352 | similarity is symmetric |
| WorldModel.SimilarityReflexive | core/world_model_module.py:340-352 | statements equal up to case, with at least one word, have similarity 1 |
| WorldModel.ContradictsSymmetric | core/world_model_module.py:328-338 | the contradiction test is symmetric |
| WorldModel.ContradictsIff | core/world_model_module.py:328-338 | two facts contradict iff similarity > 0.8 and their confidences differ by more than 0.5 |
| WorldModel.ContradictingIdsSpec | core/world_model_module.py:328-338 | the new fact records exactly the existing facts it contradicts |
| WorldModel.Marked | core/world_model_module.py:328-338 | each existing fact the new one contradicts records the new fact's id; the others are unchanged |
| WorldModel.ScanStep | core/world_model_module.py:330-338 | one loop step marks the current fact iff it contradicts the new one |
| WorldModel.ScanDone | core/world_model_module.py:330-338 | the finished loop has marked exactly the contradicted facts |
| WorldModel.WithFactKeepsFactsOk | core/world_model_module.py:155-185 | adding a fact keeps contradiction lists mutual (symmetric) and within the stored ids |
| WorldModel.WithActiveEntity | core/world_model_module.py:126-128 | a new entity joins the current context only when a current context is set and stored |
| WorldModel.WithRelevantFact | core/world_model_module.py:174-176 | a new fact joins the current context only when a current context is set and stored |
| WorldModel.LinkedEffect | core/world_model_module.py:168-172 | a fact is linked to exactly the listed entities that exist, without duplicates; other entities are unchanged |
| WorldModel.PropertyHits | core/world_model_module.py:280-283 | the number of matching properties is at most the number of properties |
| WorldModel.Scored | core/world_model_module.py:269-288 | exactly the entities with a positive score are kept, each with its score |
| WorldModel.RelevantEntitiesRanked | core/world_model_module.py:269-294 | exactly `min(limit, scored)` entities for a non-negative `limit` (a negative one drops that many from the end, as slicing does), each stored with a positive score, in non-increasing score order; an entity with a positive score that the limit cuts off scores no more than any entity returned |
| WorldModel.RelevantEntitiesComplete | core/world_model_module.py:269-294 | when the limit does not cut, every entity with a positive score is returned |
| WorldModel.RelevantEntitiesCount | core/world_model_module.py:292-294 | the result has as many entities as the slice `relevant[:limit]` keeps, for either sign of `limit` |
| WorldModel.EmptyQueryMatchesAll | core/world_model_module.py:276-278 | the empty query is contained in every name, so every entity scores at least 10 |
| WorldModel.ApiEntities | core/world_model_module.py:216-225 | only dictionary values with an "id" become entities |
| WorldModel.ApiFacts | core/world_model_module.py:227-232 | string values longer than 10 that do not become entities become facts |
| WorldModel.ApiItemsDisjoint | core/world_model_module.py:216-234 | no item yields both an entity and a fact |
| WorldModel.ApiEntityNameKept | core/world_model_module.py:221 | a string "name" is the entity's name as given; without a "name" the name starts with the key and an underscore |
| WorldModel.EntitiesFold | core/world_model_module.py:216-225 | one entity is appended per entity item |
| WorldModel.FactsFold | core/world_model_module.py:227-232 | one fact is appended per fact item |
| WorldModel.ContextsFold | core/world_model_module.py:126-176 | the context list keeps its length while new ids join the current context |
| WorldModel.ApiFoldSnoc | core/world_model_module.py:216-232 | processing a payload is processing all its items but the last, then the last one |
| WorldModel.ApiFoldOne | core/world_model_module.py:216-232 | processing a one-item payload is that item's `ApiStep`: `add_entity` (stored, joined to the current context, logged as entity_added), `add_fact` with confidence 1.0 (likewise, fact_added) or nothing |
| WorldModel.ApiFoldExtend | core/world_model_module.py:216-232 | the first i+1 items are processed as the first i, then item i by its step |
| WorldModel.ApiFoldEntities | core/world_model_module.py:216-225 | old entities are unchanged, and the i-th entity item becomes the entity with the next id, typed by its key, named by `ApiEntityName`, with the item's entries as properties and the API as source |
| WorldModel.ApiFoldFacts | core/world_model_module.py:227-232 | old facts change only by gaining contradictions, and the i-th fact item becomes a fact "key: value" with the next id, confidence 1.0 and the API as source |
| WorldModel.ApiFoldContexts | core/world_model_module.py:126-176 | only the current context changes, and only by gaining exactly the new entity and fact ids |
| WorldModel.FactStepRemarks | core/world_model_module.py:155-166 | `add_fact` appends the new fact and changes the earlier facts only by adding contradictions |
| WorldModel.Mentions | core/world_model_module.py:251-256 | the extracted mentions are exactly the entities whose lowercased name occurs in the lowercased input |
| WorldModel.EntityAddedOk | core/world_model_module.py:110-137 | adding an entity keeps the world model consistent |
| WorldModel.EntityReplacedOk | core/world_model_module.py:139-153 | updating an entity keeps the world model consistent |
| WorldModel.FactAddedOk | core/world_model_module.py:155-185 | adding a fact keeps the world model consistent |
| WorldModel.ContextAddedOk | core/world_model_module.py:187-198 | creating a context keeps the world model consistent |
| WorldModel.WorldModelModule.constructor | core/world_model_module.py:101-108 | the world model starts empty with no current context |
| WorldModel.WorldModelModule.LogPerception | core/world_model_module.py:354-366 | the perception is appended and the log keeps its last 1000 entries |
| WorldModel.WorldModelModule.AddEntity | core/world_model_module.py:110-137 | the entity is stored under the next id with its properties, joins the current context if any, and is logged |
| WorldModel.WorldModelModule.UpdateEntity | core/world_model_module.py:139-153 | an unknown id changes nothing; otherwise the properties are updated and logged |
| WorldModel.WorldModelModule.CheckFactConsistency | core/world_model_module.py:328-338 | the new fact records exactly the existing facts it contradicts, and each of them records the new fact |
| WorldModel.WorldModelModule.CompareFact | core/world_model_module.py:330-338 | comparing the new fact with stored fact i extends the scan by one: fact i and the new fact's list gain each other exactly when the two contradict |
| WorldModel.WorldModelModule.StoreFact | core/world_model_module.py:161-166 | the checked fact is stored under the next id |
| WorldModel.WorldModelModule.AddFact | core/world_model_module.py:155-185 | the fact is checked and stored, linked to the existing listed entities, joins the current context if any, and is logged |
| WorldModel.WorldModelModule.LinkEntities | core/world_model_module.py:168-172 | the linking loop links the fact to the listed existing entities |
| WorldModel.WorldModelModule.CreateContext | core/world_model_module.py:187-198 | a new empty context is stored under the next id and logged |
| WorldModel.WorldModelModule.SwitchContext | core/world_model_module.py:200-208 | a stored context becomes current and is logged; an unknown id changes nothing |
| WorldModel.WorldModelModule.ProcessApiData | core/world_model_module.py:210-240 | the items are processed in payload order (`ApiFold`: entities, facts, contexts and their log entries), then "api_processed" is logged; the returned ids are exactly the new entities' |
| WorldModel.WorldModelModule.ProcessApiItems | core/world_model_module.py:216-232 | after the loop the state is the fold of every item over the old state, and the ids are those of the new entities |
| WorldModel.WorldModelModule.ProcessApiStep | core/world_model_module.py:216-232 | one loop step extends the processed prefix by one item and keeps the collected ids equal to the new entities' |
| WorldModel.WorldModelModule.ProcessApiItem | core/world_model_module.py:217-232 | one item changes the state as `ApiStep` says: a dictionary with "id" is stored as the next entity, joined to the current context and logged; a long string is stored as a fact with confidence 1.0, joined and logged; anything else changes nothing. It yields the new entity id iff it made one |
| WorldModel.WorldModelModule.ProcessUserInput | core/world_model_module.py:242-267 | the returned mentions are the entities named in the input; entities are unchanged; the input is stored as a fact with confidence 1.0 and joins the current context; "fact_added" then "user_input_processed" are logged |
| WorldModel.WorldModelModule.GetRelevantEntities | core/world_model_module.py:269-294 | exactly as many stored entities as `relevant[:limit]` keeps, all with positive scores, in non-increasing score order; no entity left out outscores one returned |
| SelfModel.SelfReflection.constructor | core/self_model_module.py:30-38 | a reflection starts with no insights or action items, emotional impact 0 and learning value 0.5 |
| SelfModel.SelfReflection.AddInsight | core/self_model_module.py:40-43 | an insight is added only if absent |
| SelfModel.SelfReflection.AddActionItem | core/self_model_module.py:45-48 | an action item is added only if absent |
| SelfModel.AllTraitsListed | core/self_model_module.py:65-73 | every trait is initialised |
| SelfModel.AllValuesListed | core/self_model_module.py:65-73 | every value is initialised |
| SelfModel.CappedChange | core/self_model_module.py:75-85 | the change is capped to [-max_change, max_change]; with a positive cap it keeps the sign of delta |
| SelfModel.Stepped | core/self_model_module.py:75-85 | an updated trait or value stays in [0,1] |
| SelfModel.SteppedBounds | core/self_model_module.py:75-85 | an update moves a value by at most max_change, in the direction of delta, and by exactly delta when that stays in range |
| SelfModel.NegativeCapAlwaysRaises | core/self_model_module.py:75-85 | with a negative max_change the update always adds its magnitude, whatever the delta |
| SelfModel.TopByKey | core/self_model_module.py:87-95 | min(top_n, size) items of the input, without reuse, in non-increasing order of value, and no item left out has a larger value than one kept; among items of equal value, those returned are the earliest of the input, in input order |
| SelfModel.PersonalityProfile.constructor | core/self_model_module.py:65-73 | every trait and value starts at 0.5 |
| SelfModel.PersonalityProfile.UpdateTrait | core/self_model_module.py:75-79 | exactly one trait is stepped, staying in [0,1] |
| SelfModel.PersonalityProfile.UpdateValue | core/self_model_module.py:81-85 | exactly one value is stepped, staying in [0,1] |
| SelfModel.PersonalityProfile.GetDominantTraits | core/self_model_module.py:87-90 | min(top_n, 8) distinct trait pairs in non-increasing order of level, and no trait left out is stronger than one returned; equal levels keep dictionary order |
| SelfModel.PersonalityProfile.GetCoreValues | core/self_model_module.py:92-95 | min(top_n, 8) distinct value pairs in non-increasing order of strength, and no value left out is stronger than one returned; equal strengths keep dictionary order |
| Ordering.SortDescStable | core/self_model_module.py:87-95 | the descending sort is stable: the elements with any one key come out in their input order |
| SelfModel.MotivationSum | core/self_model_module.py:120-141 | the keyword sum is non-negative, and 0 when no cue matches |
| SelfModel.ActionMotivation | core/self_model_module.py:120-144 | the motivation lies in [0, drive] and is 0 when no cue matches |
| SelfModel.SaturatedMotivation | core/self_model_module.py:141-144 | once the keyword sum reaches 1 the motivation is the full drive |
| SelfModel.RelevantMotivations | core/self_model_module.py:153-162 | exactly the motivations whose keyword occurs in the action type, without duplicates |
| SelfModel.Adjustment | core/self_model_module.py:163-164 | +0.05 on success and -0.025 on failure |
| SelfModel.AdjustedSpec | core/self_model_module.py:163-167 | only the keyword-matched motivations change, by at most the adjustment, and stay in [0,1] |
| SelfModel.MotivationSystem.constructor | core/self_model_module.py:100-118 | the initial intrinsic and extrinsic motivations and drive |
| SelfModel.MotivationSystem.CalculateMotivationForAction | core/self_model_module.py:120-144 | the result lies in [0, current drive level] |
| SelfModel.MotivationSystem.UpdateMotivationBasedOnOutcome | core/self_model_module.py:146-176 | only the matched intrinsic motivations are adjusted, they stay in [0,1], and exactly one history record is appended |
| SelfModel.MotivationSystem.AdjustNext | core/self_model_module.py:163-166 | one pass of the loop extends the adjustment to the next listed motivation; an absent one is skipped |
| SelfModel.FeedbackImpact | core/self_model_module.py:509-516 | the feedback contribution is in [-0.3, 0.4] |
| SelfModel.AssessEmotionalImpact | core/self_model_module.py:498-520 | the impact is in [-1,1] (in fact [-0.5,0.9]), non-negative on success; non-string feedback makes it fail |
| SelfModel.Clamp01Signed | core/self_model_module.py:520 | the result is clamped to [-1,1] and is the input when already there |
| SelfModel.AssessLearningValue | core/self_model_module.py:521-533 | the learning value is in [0.5,1], and above 0.5 iff the situation is novel, the action failed, or complexity exceeds 0.6 |
| SelfModel.Performance | core/self_model_module.py:572-587 | with no matching reflection the capability value is used; otherwise the performance is in [0,1] |
| SelfModel.DefaultReflectionsScoreHalf | core/self_model_module.py:572-587 | reflections with the default learning value and impact score exactly 0.5 |
| SelfModel.TowardPerformance | core/self_model_module.py:589-595 | the new confidence is in [0,1] |
| SelfModel.TowardPerformanceConverges | core/self_model_module.py:589-595 | confidence moves 5% of the way towards the performance, never overshooting |
| SelfModel.Matching | core/self_model_module.py:576-581 | at most one pair per reflection |
| SelfModel.SelfModelModule.constructor | core/self_model_module.py:183-212 | the initial role, capabilities, confidence and awareness, with fresh profile and motivation system |
| SelfModel.SelfModelModule.GenerateMotivationForGoal | core/self_model_module.py:326-353 | the goal motivation is at least the base action motivation and at most 1.0 |
| SelfModel.SelfModelModule.AssessRecentPerformanceInArea | core/self_model_module.py:572-587 | the assessment is in [0,1], and falls back to the capability value (0.5 if unknown) when no recent reflection matches |
| SelfModel.SelfModelModule.UpdateSelfConfidence | core/self_model_module.py:589-595 | self-confidence moves towards the performance score |
| SelfModel.SelfModelModule.LogDevelopmentEvent | core/self_model_module.py:597-609 | the event is appended and the log keeps its last 500 entries |
| SelfModel.SelfModelModule.UpdateRoleUnderstanding | core/self_model_module.py:355-372 | insights of at most 20 characters change nothing; otherwise the role text grows, awareness rises by 0.05 capped at 1.0, and the event is logged |
| SelfModel.AwarenessRises | core/self_model_module.py:368-369 | awareness never falls, stays at most 1.0 and rises by exactly 0.05 below 0.95 |
| Memory.StoreKeepsOrder | core/memory_module.py:18-31 | storing keeps the dictionary's key order duplicate-free and in step with its keys |
| Memory.StoreKeepsListed | core/memory_module.py:18-31 | storing keeps at most 1000 ids and every stored episode listed |
| Memory.StoreKeepsMemoryOk | core/memory_module.py:18-31 | storing keeps the memory invariant |
| Memory.StoreThenRecall | core/memory_module.py:18-44 | right after a store, recalling n >= 1 episodes gives the stored episode first |
| Memory.RestoringOldestLosesIt | core/memory_module.py:24-29 | re-storing the oldest id of a full list deletes the episode just stored |
| Memory.RecentIds | core/memory_module.py:33-44 | for count > 0 the last `count` ids, for count <= 0 all of them |
| Memory.RecallNewestFirst | core/memory_module.py:33-44 | the listed episodes that are stored, newest first |
| Memory.Relevance | core/memory_module.py:52-60 | relevance is in [0,1], 0 for an empty query, and positive iff the query and content share a word |
| Memory.Candidates | core/memory_module.py:46-62 | only episodes with positive relevance are kept, each with its relevance |
| Memory.EmptyQueryFindsNothing | core/memory_module.py:46-66 | an empty query finds nothing |
| Memory.CandidatesComplete | core/memory_module.py:46-62 | every stored episode with positive relevance is a candidate |
| Memory.SearchFindsEveryMatch | core/memory_module.py:46-66 | when the limit does not cut, every matching episode is returned |
| Memory.SearchKeepsMostRelevant | core/memory_module.py:64-66 | when the limit cuts, a matching episode left out is no more relevant than any result kept |
| Memory.SearchLeavesOutLessRelevant | core/memory_module.py:64-66 | the same for every matching episode at once |
| Memory.SimpleMemory.constructor | core/memory_module.py:14-16 | the memory starts empty |
| Memory.SimpleMemory.Store | core/memory_module.py:18-31 | the episode is stored and its id appended; on overflow the oldest id leaves both the list and the dictionary |
| Memory.SimpleMemory.DropOldest | core/memory_module.py:27-30 | the eviction step: the oldest id leaves the list and its episode, if still stored, leaves the dictionary and its insertion order |
| Memory.SimpleMemory.RetrieveRecent | core/memory_module.py:33-44 | at most `count` stored episodes, newest first |
| Memory.SimpleMemory.SearchSimple | core/memory_module.py:46-66 | the sorted matches cut at `limit`: at most `limit` results, each with relevance in (0,1], in non-increasing relevance order; [] for an empty query; a matching episode left out is no more relevant than any result |
| Memory.SimpleMemory.Matches | core/memory_module.py:50-62 | the scan yields exactly the candidates: stored episodes sharing a word with the query, in dictionary order, each with its relevance |
| Memory.CleanWrite | core/memory_module.py:146-154 | scalar values are kept verbatim; other values go under key + "_str" as text of at most 100 characters |
| Memory.CleanWrites | core/memory_module.py:146-154 | each metadata entry is cleaned in order |
| Memory.CleanMetadataIsScalar | core/memory_module.py:140-154 | cleaned metadata holds only scalar values |
| Memory.CleanMetadataHasBaseKeys | core/memory_module.py:140-154 | cleaned metadata always has timestamp, type and episode_id, with unique keys |
| Memory.CleanMetadataLastWriteWins | core/memory_module.py:140-154 | a user key written last overrides the base value |
| Memory.NoMetadataIsBase | core/memory_module.py:140-144 | without metadata only the three base keys are stored |
| Memory.MemoryModule.constructor | core/memory_module.py:74-89 | the fallback memory starts empty |
| Memory.MemoryModule.StoreEpisode | core/memory_module.py:128-182 | the episode is always written to the local memory with its cleaned metadata, under its id |
| OllamaCache.RequestOf | core/ollama_cache.py:35-43 | a missing context keys the same as an empty one |
| OllamaCache.SecondsComponent | core/ollama_cache.py:81-83 | `timedelta.seconds` is in [0, 86400) |
| OllamaCache.ExpiredWithinADay | core/ollama_cache.py:81-83 | within a day of storing, an entry is expired iff its age in whole seconds exceeds its ttl |
| OllamaCache.ExpiryIgnoresWholeDays | core/ollama_cache.py:81-83 | whole days of age do not count towards expiry |
| OllamaCache.DayOldEntryLooksFresh | core/ollama_cache.py:81-83 | an hour-ttl entry a day and a second old is not expired |
| OllamaCache.LongTtlNeverExpires | core/ollama_cache.py:81-83 | a ttl of at least 86399 seconds never expires |
| OllamaCache.Delete | core/ollama_cache.py:53-54 | deleting keeps exactly the entries whose keys are not deleted |
| OllamaCache.DeleteTwice | core/ollama_cache.py:94-102 | deleting two key sets in turn deletes their union |
| OllamaCache.DeleteOne | core/ollama_cache.py:88-92 | deleting a stored key removes exactly one entry |
| OllamaCache.DeleteNone | core/ollama_cache.py:88-92 | deleting an absent key changes nothing |
| OllamaCache.DeleteKeepsNoDup | core/ollama_cache.py:94-102 | deletion keeps keys unique |
| OllamaCache.EvictOldest | core/ollama_cache.py:85-92 | an empty cache is unchanged; otherwise the first entry with a minimal timestamp is removed |
| OllamaCache.EvictOldestRemovesOne | core/ollama_cache.py:85-92 | eviction removes exactly one entry |
| OllamaCache.ExpiredKeys | core/ollama_cache.py:96-99 | the expired keys are stored keys |
| OllamaCache.FreshOnly | core/ollama_cache.py:94-102 | exactly the unexpired entries |
| OllamaCache.DeleteExpiredIsFreshOnly | core/ollama_cache.py:94-102 | deleting the expired keys leaves exactly the unexpired entries |
| OllamaCache.ResolvedTtl | core/ollama_cache.py:76 | an omitted or zero ttl falls back to the default |
| OllamaCache.Lookup | core/ollama_cache.py:45-57 | an entry is returned only when stored and unexpired, and always then |
| OllamaCache.SetKeepsCacheOk | core/ollama_cache.py:59-79 | set keeps keys unique and the size within max_size (one entry when max_size < 1) |
| OllamaCache.GetKeepsCacheOk | core/ollama_cache.py:45-57 | get keeps the cache invariant |
| OllamaCache.SetThenGet | core/ollama_cache.py:45-79 | an entry just set is returned by get at the same instant, overwriting any earlier content |
| OllamaCache.SetKeepsOthers | core/ollama_cache.py:59-79 | set below capacity leaves other keys' entries unchanged |
| OllamaCache.Cache.constructor | core/ollama_cache.py:27-33 | the cache starts empty with the given size and ttl |
| OllamaCache.Cache.GetEntry | core/ollama_cache.py:45-57 | returns the stored unexpired entry, deleting an expired one |
| OllamaCache.Cache.SetEntry | core/ollama_cache.py:59-79 | evicts the oldest entry when full, then stores the entry under its key |
| OllamaCache.Cache.CleanupExpired | core/ollama_cache.py:94-102 | removes exactly the expired entries and leaves the rest unchanged |
| OllamaCache.Cache.DeleteKeys | core/ollama_cache.py:100-101 | the deletion loop removes the listed keys |
| Reasoning.ModelConfigsIsDictionary | core/ollama_module.py:73-124 | the model table has unique names |
| Reasoning.TypedCandidates | core/ollama_module.py:394-398 | exactly the available models of the requested type |
| Reasoning.Candidates | core/ollama_module.py:394-401 | candidates are available configured models, and there are none iff no model is available |
| Reasoning.FirstLoadable | core/ollama_module.py:403-406 | the first candidate passing the VRAM check, or none |
| Reasoning.SelectModel | core/ollama_module.py:390-410 | with no model available the default model; otherwise the first candidate that fits in VRAM, or the first candidate when none fits |
| Reasoning.SelectedHasRequestedType | core/ollama_module.py:390-410 | when a model of the requested type is available, one of that type is chosen |
| Reasoning.NoTypedCandidates | core/ollama_module.py:394-398 | a type no model has yields no typed candidate |
| Reasoning.UntypedRequestsTakeAnyModel | core/ollama_module.py:397-401 | requests for a type without a configured model consider every available model |
| Reasoning.ContextLine | core/ollama_module.py:437-443 | a context line appears only when its key is present |
| Reasoning.WithContextLines | core/ollama_module.py:437-445 | the prompt starts with the base text, followed by the emotional-state line and then the goal line, each only when its key is present |
| Reasoning.SystemPrompt | core/ollama_module.py:412-445 | the system prompt starts with the type's base text and gains lines only from context |
| Reasoning.TestingUsesReasoningText | core/ollama_module.py:435 | TESTING falls back to the REASONING text |
| Reasoning.Framed | core/ollama_module.py:447-490 | the framed prompt is head, then the user prompt, then tail |
| Reasoning.ReasoningPrompt | core/ollama_module.py:447-490 | REASONING, REFLECTION and CREATIVE frame the user prompt; other types return it unchanged |
| Reasoning.ReasoningPromptInjective | core/ollama_module.py:447-490 | different user prompts give different reasoning prompts |
| Reasoning.Steps | core/ollama_module.py:495-502 | the kept lines are stripped lines that start with a step marker |
| Reasoning.StepsComplete | core/ollama_module.py:495-502 | every qualifying stripped line is kept |
| Reasoning.StepsAppend | core/ollama_module.py:495-502 | the lines are kept in order |
| Reasoning.ReasoningChain | core/ollama_module.py:492-504 | the chain is never empty: exactly the qualifying stripped lines (`Steps`, in order by `StepsAppend`) when there are any, else the first 200 characters followed by "..." |
| Reasoning.ExtractReasoningChain | core/ollama_module.py:492-504 | the extraction loop computes the chain |
| Reasoning.Confidence | core/ollama_module.py:506-514 | 0.3 iff length < 50, 0.9 iff length > 500, 0.6 otherwise |
| Reasoning.ConfidenceMonotone | core/ollama_module.py:506-514 | longer content never has lower confidence |
| Subconscious.AssessComplexity | core/subconscious_module.py:295-304 | raises ZeroDivisionError iff the text has no words; otherwise the score is in (0,1], and 1 from 100 words on or from 50 distinct words |
| Subconscious.ComplexityScore | core/subconscious_module.py:300-304 | the score is in (0,1] |
| Subconscious.AssessImportance | core/subconscious_module.py:341-354 | importance is in [0.5,1], above 0.5 iff a keyword occurs or the type is reflection, analysis or insight, and 1 iff both |
| Subconscious.ThemeTableIsDictionary | core/subconscious_module.py:371-378 | the theme names are unique |
| Subconscious.Themes | core/subconscious_module.py:369-386 | every listed theme has a keyword in the text |
| Subconscious.ThemesSpec | core/subconscious_module.py:369-386 | a theme is listed iff one of its keywords occurs, and each at most once |
| Subconscious.ThemesFromTable | core/subconscious_module.py:369-386 | only table themes are listed |
| Subconscious.ExtractThemes | core/subconscious_module.py:369-386 | the loop lists the themes of the lowercased text |
| Subconscious.TimeBucket | core/subconscious_module.py:388-403 | every hour falls into exactly one bucket (6-11 morning, 12-17 day, 18-23 evening, otherwise night), and None for an unparsable timestamp |
| Subconscious.KeepWords | core/subconscious_module.py:405-417 | exactly the words in the list are kept, in order |
| Subconscious.KeepWordsAppend | core/subconscious_module.py:405-417 | word extraction keeps order and repeats |
| Subconscious.KeepWordsCounts | core/subconscious_module.py:416-417 | the filter keeps every occurrence of a kept word and none of any other word |
| Subconscious.ExtractEmotionalWords | core/subconscious_module.py:405-417 | only emotional words of the lower-cased, split text, each emotional word as many times as it occurs there |
| Subconscious.CountOccurring | core/subconscious_module.py:457-468 | the count is 0 iff no listed word occurs |
| Subconscious.EmotionalCharge | core/subconscious_module.py:457-470 | the charge is in [-1,1], 0 when no listed word occurs, and its sign is that of positive minus negative hits |
| Subconscious.Charge | core/subconscious_module.py:465-470 | (pos - neg)/(pos + neg) is in [-1,1], 0 iff pos = neg, positive iff pos > neg |
| Subconscious.ScanFrame | core/subconscious_module.py:498-517 | only the key phrases' counters change, each by at most one |
| Subconscious.ScanHit | core/subconscious_module.py:498-517 | a reported phrase occurs in the text and reached at least 3, and the later phrases were not counted |
| Subconscious.ScanMiss | core/subconscious_module.py:498-517 | with no hit each occurring phrase gained exactly one and is still below 3 |
| Subconscious.PatternRecognizer.constructor | core/subconscious_module.py:494-496 | the counters start empty |
| Subconscious.PatternRecognizer.AnalyzePattern | core/subconscious_module.py:498-517 | the counters and the result follow the phrase scan over the lowercased content |
| Subconscious.Above | core/subconscious_module.py:552-570 | exactly the thoughts whose intensity or clarity exceeds the threshold, in order |
| Subconscious.AboveTwice | core/subconscious_module.py:563-570 | pre-filtering at 0.7 does not change what clears 0.8 |
| Subconscious.MemoryConsolidator.constructor | core/subconscious_module.py:548-550 | no memories and threshold 5 |
| Subconscious.MemoryConsolidator.ConsolidateThought | core/subconscious_module.py:552-561 | a thought is appended iff its intensity or clarity exceeds 0.8 |
| Subconscious.MemoryConsolidator.ConsolidateBatch | core/subconscious_module.py:563-570 | exactly the batch's thoughts above 0.8 are appended, in order |

## Left out

- Persistence: `save_to_file`, `save_state` and `load_state` in every module are JSON file I/O. The thought tree's save keeps only the last 100 log entries (core/thought_tree_module.py:528).
- The networkx `thought_graph` copy of the tree (core/thought_tree_module.py:153, 173-175) is a foreign library and duplicates `children_ids`. It is not modelled, so its phantom node for an unknown parent is not modelled either.
- Text formatters are not modelled: get_reasoning_summary, get_world_summary, get_self_narrative, get_current_state_summary.
- `get_current_goal` is not modelled. It only reads the current goal field.
- `_get_most_common_state` is not modelled: its ties depend on set iteration order. `InnerState.PatternsOf` therefore omits the two most-common-state entries.
- `SelfModelModule.reflect_on_experience`, `evaluate_self_performance` and their string-building analysis helpers are not modelled. They iterate a string character by character as action items, and raise AttributeError once two reflections exist (core/self_model_module.py:241-243, 763). As a consequence, reflections' `learning_value` and `emotional_impact` are never set after construction. The model keeps their defaults of 0.5 and 0.0.
- `MemoryModule`'s ChromaDB and SentenceTransformer paths, the encoder-loading thread, `retrieve_similar`, `get_recent_episodes` and `get_statistics` are foreign services and are not modelled. `StoreEpisode` models only the metadata cleaning and the local write.
- `_generate_key` (md5 over JSON) is a function parameter `keyOf` of the cache. Hash collisions are not modelled.
- The cache's `get_stats` and hit rate, its cleanup thread and its RLock are left out (concurrency).
- `OllamaClient`, `ResourceMonitor` and `ExplainabilityLogger` are network and file I/O. The VRAM check is a free-memory parameter of `Reasoning.SelectModel`.
- In the subconscious module these are left out: the asyncio queue and tasks, `process_conscious_thought`, `_analyze_emotional_tone`, cognitive load, novelty, thought connections, similar thoughts, associations, `analyze_global_patterns` and `process_emotion`. Several of them increment attributes that do not exist (core/subconscious_module.py:168, 192, 210).
- Unused fields are not modelled: `PatternRecognizer.patterns` and the `words` local of `analyze_pattern`, and `EmotionalProcessor.emotional_patterns` and `emotional_history`.
- Aliasing of Python objects is not captured. Thoughts, goals, entities, facts and contexts are values stored in their owner's sequence.
- Floating-point rounding is not modelled; scores are reals.
- PyStr.Lower: models `str.lower()` only for Latin A-Z and Cyrillic А-Я and Ё; other characters are left unchanged.
- Subconscious.TimeBucket: takes the hour that `datetime.fromisoformat` would read, or None when parsing fails; ISO parsing itself is not modelled.
- Memory.SimpleMemory.RetrieveRecent: states the bound, membership and content of each result; the newest-first order is stated through `Memory.RecallNewestFirst` and `Memory.StoreThenRecall`.
- WorldModel.ApiEntityName: a "name" that is not a string is stored as its text (`str`). The source stores the raw value, and a later `entity.name.lower()` in `process_user_input` or `get_relevant_entities` raises AttributeError (core/world_model_module.py:221, 252, 278).
- PyValue.Value: has no float case. Floats in payloads, metadata and contexts are not modelled, because Python's shortest round-trip float `repr` is not modelled.
- PyValue.Escape: escapes only the backslash, the quote character, newline, carriage return and tab. Python's `repr` also escapes other non-printable characters (such as U+0000, U+007F, U+00A0 and U+2028). Texts built with `str`/`repr` differ for such characters: metadata cleaning, the "data_size" of "api_processed" and the system prompt's context lines.
- SelfModel.AssessEmotionalImpact: returns None for non-string user feedback, where the source raises an AttributeError (core/self_model_module.py:511).
