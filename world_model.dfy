/**
 * `WorldModelModule`: the agent's model of the outside world — entities with
 * properties and relationships, facts with their contradictions, contexts
 * grouping entities and facts, and a bounded log of perception events.
 *
 * Entity, fact and context ids are their positions in the module's lists
 * (the source draws uuids; positions are as unique and keep insertion order).
 */
module WorldModel {
  import opened Wrappers
  import opened PyStr
  import opened PyValue
  import opened Levels
  import opened Bounded
  import opened Ordering
  import opened Seqs
  import opened Dicts
  import opened Words

  type EntityId = nat
  type FactId = nat
  type ContextId = nat

  /** The perception log keeps its last 1000 entries. */
  const PerceptionCap: nat := 1000
  /** Fact similarity above this, with confidences further apart than `ConfidenceGap`, is a contradiction. */
  const SimilarityThreshold: real := 0.8
  const ConfidenceGap: real := 0.5
  /** The relationship type that links an entity to a fact about it. */
  const RelatedFact: string := "related_fact"

  // ---------------------------------------------------------------------------
  // Entities
  // ---------------------------------------------------------------------------

  /** The record `update_property` stores under a property key. */
  datatype Property = Property(value: Value, confidence: real, lastUpdated: Time)

  datatype Entity = Entity(
    id: EntityId, entityType: string, name: string,
    properties: seq<(string, Property)>, relationships: map<string, seq<FactId>>,
    lastUpdated: Time, confidence: real, source: string)

  function NewEntity(id: EntityId, entityType: string, name: string, source: string, now: Time): Entity {
    Entity(id, entityType, name, [], map[], now, 1.0, source)
  }

  /** `update_property` for each key of `updates` in turn, with one confidence and time. */
  function WithProperties(props: seq<(string, Property)>, updates: seq<(string, Value)>, confidence: real, now: Time): (r: seq<(string, Property)>)
    ensures forall i :: 0 <= i < |updates| ==> updates[i].0 in Keys(r)
    ensures NoDup(Keys(props)) ==> NoDup(Keys(r))
  {
    if updates == [] then props
    else
      var u := updates[|updates| - 1];
      var init := updates[..|updates| - 1];
      var before := WithProperties(props, init, confidence, now);
      var r := Assign(before, u.0, Property(u.1, confidence, now));
      assert forall i :: 0 <= i < |updates| - 1 ==> updates[i].0 == init[i].0 && init[i].0 in Keys(before);
      assert forall k :: k in Keys(before) ==> k in Keys(r);
      if NoDup(Keys(props)) then AssignUnique(before, u.0, Property(u.1, confidence, now)); r else r
  }

  /** One more update extends the fold by one `update_property`. */
  lemma WithPropertiesSnoc(props: seq<(string, Property)>, updates: seq<(string, Value)>, i: nat, confidence: real, now: Time)
    requires i < |updates|
    ensures WithProperties(props, updates[..i + 1], confidence, now)
      == Assign(WithProperties(props, updates[..i], confidence, now), updates[i].0, Property(updates[i].1, confidence, now))
  {
    assert updates[..i + 1][..i] == updates[..i];
  }

  /**
   * `add_relationship`: the target is listed under the relation type exactly
   * once, and no other relation type changes.
   */
  function AddRelationship(rels: map<string, seq<FactId>>, relationType: string, target: FactId): (r: map<string, seq<FactId>>)
    ensures r.Keys == rels.Keys + {relationType}
    ensures target in r[relationType]
    ensures forall t :: t in r[relationType] ==> t == target || (relationType in rels && t in rels[relationType])
    ensures relationType in rels ==> forall t :: t in rels[relationType] ==> t in r[relationType]
    ensures forall k :: k in rels && k != relationType ==> r[k] == rels[k]
    ensures relationType in rels && NoDup(rels[relationType]) ==> NoDup(r[relationType])
    ensures relationType in rels && target in rels[relationType] ==> r == rels
  {
    var current := if relationType in rels then rels[relationType] else [];
    rels[relationType := AppendUnique(current, target)]
  }

  // ---------------------------------------------------------------------------
  // Facts and their similarity
  // ---------------------------------------------------------------------------

  datatype Fact = Fact(
    id: FactId, statement: string, confidence: real, source: string, timestamp: Time,
    verified: bool, contradictions: seq<FactId>, supports: seq<FactId>)

  function NewFact(id: FactId, statement: string, confidence: real, source: string, now: Time): Fact {
    Fact(id, statement, confidence, source, now, false, [], [])
  }

  /**
   * `_calculate_fact_similarity`: the Jaccard index |A ∩ B| / |A ∪ B| of the
   * two word sets; 0 when either statement has no words, and always in [0, 1].
   */
  function Similarity(s1: string, s2: string): (r: real)
    ensures 0.0 <= r <= 1.0
    ensures WordSet(s1) == {} || WordSet(s2) == {} ==> r == 0.0
  {
    var a := WordSet(s1);
    var b := WordSet(s2);
    if |a| == 0 || |b| == 0 then 0.0
    else
      SubsetCardinality(a * b, a + b);
      SubsetCardinality(a, a + b);
      Ratio(|a * b|, |a + b|)
  }

  lemma SimilaritySymmetric(s1: string, s2: string)
    ensures Similarity(s1, s2) == Similarity(s2, s1)
  {
    assert WordSet(s1) * WordSet(s2) == WordSet(s2) * WordSet(s1);
    assert WordSet(s1) + WordSet(s2) == WordSet(s2) + WordSet(s1);
  }

  /** A statement with at least one word is fully similar to itself, and to any re-casing of itself. */
  lemma SimilarityReflexive(s: string, t: string)
    requires WordSet(s) != {} && Lower(t) == Lower(s)
    ensures Similarity(s, t) == 1.0
  {
    var a := WordSet(s);
    assert WordSet(t) == a;
    assert a * a == a && a + a == a;
  }

  /** The test `_check_fact_consistency` applies to a new and an existing fact. */
  predicate Contradicts(statement1: string, confidence1: real, statement2: string, confidence2: real) {
    Similarity(statement1, statement2) > SimilarityThreshold
    && confidence1 != confidence2
    && (if confidence1 - confidence2 < 0.0 then confidence2 - confidence1 else confidence1 - confidence2) > ConfidenceGap
  }

  /** The test is symmetric, which is why both facts record each other. */
  lemma ContradictsSymmetric(s1: string, c1: real, s2: string, c2: real)
    ensures Contradicts(s1, c1, s2, c2) <==> Contradicts(s2, c2, s1, c1)
  {
    SimilaritySymmetric(s1, s2);
  }

  /** The inequality test of the source is implied by the distance test. */
  lemma ContradictsIff(s1: string, c1: real, s2: string, c2: real)
    ensures Contradicts(s1, c1, s2, c2) <==> Similarity(s1, s2) > 0.8 && (c1 - c2 > 0.5 || c2 - c1 > 0.5)
  {
  }

  /** Ids among the first `n` existing facts that the new fact contradicts, in insertion order. */
  function ContradictingIds(facts: seq<Fact>, statement: string, confidence: real, n: nat): seq<FactId>
    requires n <= |facts|
  {
    if n == 0 then []
    else
      var f := facts[n - 1];
      ContradictingIds(facts, statement, confidence, n - 1)
        + (if Contradicts(statement, confidence, f.statement, f.confidence) then [n - 1] else [])
  }

  /** The new fact lists exactly the earlier facts it contradicts. */
  lemma {:induction false} ContradictingIdsSpec(facts: seq<Fact>, statement: string, confidence: real, n: nat)
    requires n <= |facts|
    ensures forall k: nat :: k in ContradictingIds(facts, statement, confidence, n) <==>
      k < n && Contradicts(statement, confidence, facts[k].statement, facts[k].confidence)
  {
    if n > 0 {
      ContradictingIdsSpec(facts, statement, confidence, n - 1);
      var prev := ContradictingIds(facts, statement, confidence, n - 1);
      var here := Contradicts(statement, confidence, facts[n - 1].statement, facts[n - 1].confidence);
      assert ContradictingIds(facts, statement, confidence, n) == prev + (if here then [n - 1] else []);
      forall k: nat
        ensures k in ContradictingIds(facts, statement, confidence, n) <==>
          k < n && Contradicts(statement, confidence, facts[k].statement, facts[k].confidence)
      {
        assert k in ContradictingIds(facts, statement, confidence, n) <==> k in prev || (here && k == n - 1);
      }
    }
  }

  /** An existing fact, once the new fact `id` has been recorded as contradicting it. */
  function Contradicted(f: Fact, id: FactId): Fact {
    f.(contradictions := f.contradictions + [id])
  }

  /** The existing facts after the check against `newFact`: each one it contradicts records it. */
  function Marked(facts: seq<Fact>, newFact: Fact): (r: seq<Fact>)
    ensures |r| == |facts|
    ensures forall k :: 0 <= k < |facts| ==>
      r[k] == if k in ContradictingIds(facts, newFact.statement, newFact.confidence, |facts|) then Contradicted(facts[k], newFact.id) else facts[k]
  {
    var ids := ContradictingIds(facts, newFact.statement, newFact.confidence, |facts|);
    seq(|facts|, k requires 0 <= k < |facts| => if k in ids then Contradicted(facts[k], newFact.id) else facts[k])
  }

  lemma {:induction false} ContradictingIdsBelow(facts: seq<Fact>, statement: string, confidence: real, n: nat, k: nat)
    requires n <= |facts| && n <= k
    ensures k !in ContradictingIds(facts, statement, confidence, n)
  {
    if n > 0 {
      ContradictingIdsBelow(facts, statement, confidence, n - 1, k);
    }
  }

  /** Whether an id below `i` is found does not depend on how far the scan went past `i`. */
  lemma {:induction false} ContradictingIdsPrefix(facts: seq<Fact>, statement: string, confidence: real, i: nat, n: nat)
    requires i <= n <= |facts|
    ensures forall k: nat :: k < i ==> (k in ContradictingIds(facts, statement, confidence, i) <==> k in ContradictingIds(facts, statement, confidence, n))
    decreases n
  {
    if i < n {
      ContradictingIdsPrefix(facts, statement, confidence, i, n - 1);
    }
  }

  /** The facts after `_check_fact_consistency` has compared the new fact with the first `i`. */
  ghost predicate Scanned(before: seq<Fact>, after: seq<Fact>, newFact: Fact, i: nat, found: seq<FactId>) {
    && i <= |before| == |after|
    && found == ContradictingIds(before, newFact.statement, newFact.confidence, i)
    && (forall k :: 0 <= k < i ==> after[k] == if k in found then Contradicted(before[k], newFact.id) else before[k])
    && (forall k :: i <= k < |after| ==> after[k] == before[k])
  }

  /** One comparison of the scan. */
  lemma ScanStep(before: seq<Fact>, after: seq<Fact>, newFact: Fact, i: nat, found: seq<FactId>)
    requires Scanned(before, after, newFact, i, found) && i < |before|
    ensures var f := before[i];
      if Contradicts(newFact.statement, newFact.confidence, f.statement, f.confidence)
      then Scanned(before, after[i := Contradicted(after[i], newFact.id)], newFact, i + 1, found + [i])
      else Scanned(before, after, newFact, i + 1, found)
  {
    if Contradicts(newFact.statement, newFact.confidence, before[i].statement, before[i].confidence) {
      FactScanHit(before, after, newFact, i, found);
    } else {
      FactScanMiss(before, after, newFact, i, found);
    }
  }

  /** A comparison that finds a contradiction marks fact `i` and records it. */
  lemma FactScanHit(before: seq<Fact>, after: seq<Fact>, newFact: Fact, i: nat, found: seq<FactId>)
    requires Scanned(before, after, newFact, i, found) && i < |before|
    requires Contradicts(newFact.statement, newFact.confidence, before[i].statement, before[i].confidence)
    ensures Scanned(before, after[i := Contradicted(after[i], newFact.id)], newFact, i + 1, found + [i])
  {
    ContradictingIdsPrefix(before, newFact.statement, newFact.confidence, i, i + 1);
    ContradictingIdsBelow(before, newFact.statement, newFact.confidence, i, i);
    var found' := found + [i];
    var after' := after[i := Contradicted(after[i], newFact.id)];
    assert found' == ContradictingIds(before, newFact.statement, newFact.confidence, i + 1);
    forall k | 0 <= k < i + 1
      ensures after'[k] == if k in found' then Contradicted(before[k], newFact.id) else before[k]
    {
      if k < i {
        assert k in found' <==> k in found;
      } else {
        assert k in found';
      }
    }
  }

  /** A comparison that finds no contradiction changes nothing. */
  lemma FactScanMiss(before: seq<Fact>, after: seq<Fact>, newFact: Fact, i: nat, found: seq<FactId>)
    requires Scanned(before, after, newFact, i, found) && i < |before|
    requires !Contradicts(newFact.statement, newFact.confidence, before[i].statement, before[i].confidence)
    ensures Scanned(before, after, newFact, i + 1, found)
  {
    ContradictingIdsPrefix(before, newFact.statement, newFact.confidence, i, i + 1);
    ContradictingIdsBelow(before, newFact.statement, newFact.confidence, i, i);
    assert found == ContradictingIds(before, newFact.statement, newFact.confidence, i + 1);
    forall k | 0 <= k < i + 1
      ensures after[k] == if k in found then Contradicted(before[k], newFact.id) else before[k]
    {
    }
  }

  /** A finished scan is the marking. */
  lemma ScanDone(before: seq<Fact>, after: seq<Fact>, newFact: Fact, found: seq<FactId>)
    requires Scanned(before, after, newFact, |before|, found)
    ensures after == Marked(before, newFact)
  {
  }

  /** Every fact lists exactly the facts that list it. */
  predicate Symmetric(facts: seq<Fact>) {
    forall i, j :: 0 <= i < |facts| && 0 <= j < |facts| ==>
      (j in facts[i].contradictions <==> i in facts[j].contradictions)
  }

  predicate FactOk(f: Fact, k: nat, n: nat) {
    f.id == k && forall j :: j in f.contradictions ==> j < n
  }

  predicate FactsOk(facts: seq<Fact>) {
    (forall k :: 0 <= k < |facts| ==> FactOk(facts[k], k, |facts|)) && Symmetric(facts)
  }

  /** The facts after `add_fact` has checked and stored a new fact. */
  function WithFact(facts: seq<Fact>, statement: string, confidence: real, source: string, now: Time): seq<Fact> {
    var f := NewFact(|facts|, statement, confidence, source, now);
    Marked(facts, f) + [f.(contradictions := ContradictingIds(facts, statement, confidence, |facts|))]
  }

  /**
   * Adding a fact marks it and each existing fact it contradicts as mutual
   * contradictions, so the relation stays symmetric.
   */
  lemma WithFactKeepsFactsOk(facts: seq<Fact>, statement: string, confidence: real, source: string, now: Time)
    requires FactsOk(facts)
    ensures FactsOk(WithFact(facts, statement, confidence, source, now))
  {
    var n := |facts|;
    var r := WithFact(facts, statement, confidence, source, now);
    var f := NewFact(n, statement, confidence, source, now);
    ContradictingIdsSpec(facts, statement, confidence, n);
    forall k | 0 <= k < |r|
      ensures FactOk(r[k], k, |r|)
    {
      if k < n {
        assert FactOk(facts[k], k, n);
      }
    }
    forall i, j | 0 <= i < |r| && 0 <= j < |r|
      ensures j in r[i].contradictions <==> i in r[j].contradictions
    {
      if i < n && j < n {
        assert FactOk(facts[i], i, n) && FactOk(facts[j], j, n);
        assert j in r[i].contradictions <==> j in facts[i].contradictions;
        assert i in r[j].contradictions <==> i in facts[j].contradictions;
      } else if i < n {
        assert FactOk(facts[i], i, n);
        ContradictsSymmetric(statement, confidence, facts[i].statement, facts[i].confidence);
      } else if j < n {
        assert FactOk(facts[j], j, n);
        ContradictsSymmetric(statement, confidence, facts[j].statement, facts[j].confidence);
      }
    }
  }

  // ---------------------------------------------------------------------------
  // Contexts
  // ---------------------------------------------------------------------------

  datatype Context = Context(
    id: ContextId, name: string, description: string,
    activeEntities: set<EntityId>, relevantFacts: set<FactId>, timestamp: Time)

  /** `if current_context_id and current_context_id in contexts`. */
  predicate HasCurrent(contexts: seq<Context>, current: Option<ContextId>) {
    current.Some? && current.value < |contexts|
  }

  function WithActiveEntity(contexts: seq<Context>, current: Option<ContextId>, e: EntityId): (r: seq<Context>)
    ensures |r| == |contexts|
    ensures forall k :: 0 <= k < |r| ==> r[k] == if HasCurrent(contexts, current) && k == current.value
      then contexts[k].(activeEntities := contexts[k].activeEntities + {e}) else contexts[k]
  {
    if HasCurrent(contexts, current) then
      var c := contexts[current.value];
      contexts[current.value := c.(activeEntities := c.activeEntities + {e})]
    else contexts
  }

  function WithRelevantFact(contexts: seq<Context>, current: Option<ContextId>, f: FactId): (r: seq<Context>)
    ensures |r| == |contexts|
    ensures forall k :: 0 <= k < |r| ==> r[k] == if HasCurrent(contexts, current) && k == current.value
      then contexts[k].(relevantFacts := contexts[k].relevantFacts + {f}) else contexts[k]
  {
    if HasCurrent(contexts, current) then
      var c := contexts[current.value];
      contexts[current.value := c.(relevantFacts := c.relevantFacts + {f})]
    else contexts
  }

  lemma RelevantFactOk(contexts: seq<Context>, current: Option<ContextId>, f: FactId, ne: nat, nf: nat)
    requires ContextsOk(contexts, ne, nf) && f < nf
    ensures ContextsOk(WithRelevantFact(contexts, current, f), ne, nf)
  {
    var r := WithRelevantFact(contexts, current, f);
    forall k | 0 <= k < |r| ensures ContextOk(r[k], k, ne, nf) {
      assert ContextOk(contexts[k], k, ne, nf);
    }
  }

  lemma ActiveEntityOk(contexts: seq<Context>, current: Option<ContextId>, e: EntityId, ne: nat, nf: nat)
    requires ContextsOk(contexts, ne, nf) && e < ne
    ensures ContextsOk(WithActiveEntity(contexts, current, e), ne, nf)
  {
    var r := WithActiveEntity(contexts, current, e);
    forall k | 0 <= k < |r| ensures ContextOk(r[k], k, ne, nf) {
      assert ContextOk(contexts[k], k, ne, nf);
    }
  }

  predicate EntityOk(e: Entity, k: nat, nFacts: nat) {
    && e.id == k
    && NoDup(Keys(e.properties))
    && (forall r :: r in e.relationships ==> NoDup(e.relationships[r]))
    && (forall r, t :: r in e.relationships && t in e.relationships[r] ==> t < nFacts)
  }

  predicate ContextOk(c: Context, k: nat, nEntities: nat, nFacts: nat) {
    && c.id == k
    && (forall e :: e in c.activeEntities ==> e < nEntities)
    && (forall f :: f in c.relevantFacts ==> f < nFacts)
  }

  predicate EntitiesOk(entities: seq<Entity>, nFacts: nat) {
    forall k :: 0 <= k < |entities| ==> EntityOk(entities[k], k, nFacts)
  }

  predicate ContextsOk(contexts: seq<Context>, nEntities: nat, nFacts: nat) {
    forall k :: 0 <= k < |contexts| ==> ContextOk(contexts[k], k, nEntities, nFacts)
  }

  lemma EntitiesGrow(entities: seq<Entity>, n: nat, m: nat)
    requires EntitiesOk(entities, n) && n <= m
    ensures EntitiesOk(entities, m)
  {
    forall k | 0 <= k < |entities| ensures EntityOk(entities[k], k, m) {
      assert EntityOk(entities[k], k, n);
    }
  }

  lemma ContextsGrow(contexts: seq<Context>, ne: nat, nf: nat, me: nat, mf: nat)
    requires ContextsOk(contexts, ne, nf) && ne <= me && nf <= mf
    ensures ContextsOk(contexts, me, mf)
  {
    forall k | 0 <= k < |contexts| ensures ContextOk(contexts[k], k, me, mf) {
      assert ContextOk(contexts[k], k, ne, nf);
    }
  }

  // ---------------------------------------------------------------------------
  // Linking facts to entities
  // ---------------------------------------------------------------------------

  /** The `related_fact` links `add_fact` makes, one listed id at a time; unknown ids are skipped. */
  function Linked(entities: seq<Entity>, ids: seq<EntityId>, fact: FactId): (r: seq<Entity>)
    ensures |r| == |entities|
  {
    if ids == [] then entities
    else
      var before := Linked(entities, ids[..|ids| - 1], fact);
      var k := ids[|ids| - 1];
      if k < |before| then
        before[k := before[k].(relationships := AddRelationship(before[k].relationships, RelatedFact, fact))]
      else before
  }

  /**
   * Linking touches only the listed entities that exist, and each of them then
   * lists the fact under `related_fact`, once.
   */
  lemma {:induction false} LinkedEffect(entities: seq<Entity>, ids: seq<EntityId>, fact: FactId, nFacts: nat)
    requires EntitiesOk(entities, nFacts) && fact < nFacts
    ensures var r := Linked(entities, ids, fact);
      && EntitiesOk(r, nFacts)
      && (forall k :: 0 <= k < |r| && k !in ids ==> r[k] == entities[k])
      && (forall k :: 0 <= k < |r| && k in ids ==> RelatedFact in r[k].relationships && fact in r[k].relationships[RelatedFact])
      && (forall k :: 0 <= k < |r| ==>
            (r[k].id == entities[k].id && r[k].name == entities[k].name && r[k].properties == entities[k].properties))
  {
    if ids != [] {
      var init := ids[..|ids| - 1];
      LinkedEffect(entities, init, fact, nFacts);
      var before := Linked(entities, init, fact);
      var k := ids[|ids| - 1];
      var r := Linked(entities, ids, fact);
      if k < |before| {
        assert EntityOk(before[k], k, nFacts);
        assert EntityOk(r[k], k, nFacts);
        forall j | 0 <= j < |r| && j in ids
          ensures RelatedFact in r[j].relationships && fact in r[j].relationships[RelatedFact]
        {
          if j != k {
            assert j in init;
          }
        }
      } else {
        forall j | 0 <= j < |r| && j in ids
          ensures RelatedFact in r[j].relationships && fact in r[j].relationships[RelatedFact]
        {
          assert j in init;
        }
      }
    }
  }

  // ---------------------------------------------------------------------------
  // Relevance ranking
  // ---------------------------------------------------------------------------

  /** Number of properties whose key or value text contains the lower-cased query. */
  function PropertyHits(props: seq<(string, Property)>, q: string): (n: nat)
    ensures n <= |props|
  {
    if props == [] then 0
    else
      var p := props[|props| - 1];
      PropertyHits(props[..|props| - 1], q)
        + (if Contains(Lower(Str(p.1.value)), q) || Contains(Lower(p.0), q) then 1 else 0)
  }

  /** 10 when the name contains the query, plus 5 for every matching property. */
  function Score(e: Entity, query: string): nat {
    (if Contains(Lower(e.name), Lower(query)) then 10 else 0) + 5 * PropertyHits(e.properties, Lower(query))
  }

  /** The entities with a positive score, paired with it, in insertion order. */
  function Scored(entities: seq<Entity>, query: string): (r: seq<(Entity, real)>)
    ensures |r| <= |entities|
    ensures forall i :: 0 <= i < |r| ==> r[i].0 in entities && Score(r[i].0, query) > 0 && r[i].1 == Score(r[i].0, query) as real
    ensures forall e :: e in entities && Score(e, query) > 0 ==> (e, Score(e, query) as real) in r
  {
    if entities == [] then []
    else
      var e := entities[|entities| - 1];
      var before := Scored(entities[..|entities| - 1], query);
      assert forall x :: x in entities ==> x in entities[..|entities| - 1] || x == e;
      before + (if Score(e, query) > 0 then [(e, Score(e, query) as real)] else [])
  }

  /** `get_relevant_entities`: the scored entities, highest score first, cut at `limit`. */
  function RelevantEntities(entities: seq<Entity>, query: string, limit: int): seq<Entity> {
    Firsts(SliceTo(SortDesc(Scored(entities, query)), limit))
  }

  /**
   * The first `limit` scored entities (Python slicing, so a negative `limit`
   * drops that many from the end), each scoring above zero, in non-increasing
   * order of score; an entity with a positive score that the cut leaves out
   * scores no more than any entity kept.
   */
  lemma RelevantEntitiesRanked(entities: seq<Entity>, query: string, limit: int)
    ensures var r, n := RelevantEntities(entities, query, limit), |Scored(entities, query)|;
      && (0 <= limit ==> |r| <= limit)
      && (0 <= limit ==> |r| == if limit < n then limit else n)
      && (limit < 0 ==> |r| == if -limit < n then n + limit else 0)
      && (forall i :: 0 <= i < |r| ==> r[i] in entities && Score(r[i], query) > 0)
      && (forall i, j :: 0 <= i < j < |r| ==> Score(r[i], query) >= Score(r[j], query))
      && (forall e :: e in entities && Score(e, query) > 0 && e !in r ==>
            forall i :: 0 <= i < |r| ==> Score(e, query) <= Score(r[i], query))
  {
    RelevantEntitiesCount(entities, query, limit);
    var scored := Scored(entities, query);
    var cut := SliceTo(SortDesc(scored), limit);
    var r := RelevantEntities(entities, query, limit);
    SortedPrefix(scored, |cut|);
    SortedPrefixTop(scored, |cut|);
    forall e, i | e in entities && Score(e, query) > 0 && e !in r && 0 <= i < |r|
      ensures Score(e, query) <= Score(r[i], query)
    {
      LeftOutFirstNotLarger(scored, |cut|, (e, Score(e, query) as real));
      assert cut[i] in scored;
    }
  }

  /** The cut keeps `limit` of the scored entities, counted as Python slicing counts. */
  lemma RelevantEntitiesCount(entities: seq<Entity>, query: string, limit: int)
    ensures var r, n := RelevantEntities(entities, query, limit), |Scored(entities, query)|;
      && (0 <= limit ==> |r| == if limit < n then limit else n)
      && (limit < 0 ==> |r| == if -limit < n then n + limit else 0)
  {
  }

  /** When `limit` is at least the number of entities, every entity with a positive score is returned. */
  lemma RelevantEntitiesComplete(entities: seq<Entity>, query: string, limit: int)
    requires |entities| <= limit
    ensures forall e :: e in entities && Score(e, query) > 0 ==> e in RelevantEntities(entities, query, limit)
  {
    var scored := Scored(entities, query);
    var cut := SliceTo(SortDesc(scored), limit);
    SortedPrefix(scored, |cut|);
    forall e | e in entities && Score(e, query) > 0
      ensures e in RelevantEntities(entities, query, limit)
    {
      var i :| 0 <= i < |cut| && cut[i] == (e, Score(e, query) as real);
      assert RelevantEntities(entities, query, limit)[i] == e;
    }
  }

  /** An empty query is contained in every name, so it matches every entity. */
  lemma EmptyQueryMatchesAll(e: Entity)
    ensures Score(e, "") >= 10
  {
    assert Lower("") == "";
    assert StartsWith(Lower(e.name), "");
  }

  // ---------------------------------------------------------------------------
  // API payloads and user input
  // ---------------------------------------------------------------------------

  /** A dict value with an "id" key becomes an entity. */
  predicate IsEntityValue(v: Value) {
    v.VDict? && "id" in Keys(v.entries)
  }

  /** A string value longer than 10 characters becomes a fact. */
  predicate IsFactValue(v: Value) {
    v.VStr? && |v.s| > 10
  }

  /** `value.get("name", f"{key}_{value['id']}")`, rendered as text. */
  function ApiEntityName(key: string, v: Value): string
    requires IsEntityValue(v)
  {
    match Get(v.entries, "name")
    case Some(n) => Str(n)
    case None => key + "_" + Str(Get(v.entries, "id").value)
  }

  /** A string "name" is kept as given; without one, the name starts with the key and an underscore. */
  lemma ApiEntityNameKept(key: string, v: Value)
    requires IsEntityValue(v)
    ensures var r := ApiEntityName(key, v);
      && (Get(v.entries, "name").Some? && Get(v.entries, "name").value.VStr? ==> r == Get(v.entries, "name").value.s)
      && (Get(v.entries, "name").None? ==> |r| > |key| && r[..|key| + 1] == key + "_")
  {
    if Get(v.entries, "name").None? {
      var r := ApiEntityName(key, v);
      assert r == (key + "_") + Str(Get(v.entries, "id").value);
    }
  }

  /** The items of an API payload that become entities, in payload order. */
  function ApiEntities(data: seq<(string, Value)>): (r: seq<(string, Value)>)
    ensures |r| <= |data|
    ensures forall i :: 0 <= i < |r| ==> IsEntityValue(r[i].1) && r[i] in data
  {
    if data == [] then []
    else
      ApiEntities(data[..|data| - 1])
        + (if IsEntityValue(data[|data| - 1].1) then [data[|data| - 1]] else [])
  }

  /** The fact statements an API payload produces, in payload order. */
  function ApiFacts(data: seq<(string, Value)>): (r: seq<string>)
    ensures |r| <= |data|
  {
    if data == [] then []
    else
      var item := data[|data| - 1];
      ApiFacts(data[..|data| - 1])
        + (if !IsEntityValue(item.1) && IsFactValue(item.1) then [ApiStatement(item)] else [])
  }

  /** No payload item is both an entity and a fact: the two lists account for distinct items. */
  lemma {:induction false} ApiItemsDisjoint(data: seq<(string, Value)>)
    ensures |ApiEntities(data)| + |ApiFacts(data)| <= |data|
  {
    if data != [] {
      ApiItemsDisjoint(data[..|data| - 1]);
    }
  }

  /** What `process_api_data` and `process_user_input` change: the entities, facts, contexts and perception log. */
  datatype World = World(entities: seq<Entity>, facts: seq<Fact>, contexts: seq<Context>, log: seq<Perception>)

  function ApiSource(apiName: string): string {
    "api:" + apiName
  }

  /** The entity `add_entity` stores for an entity item under `id`: typed by the key, named, with the item's entries as properties. */
  function ApiEntity(id: EntityId, item: (string, Value), apiName: string, now: Time): Entity
    requires IsEntityValue(item.1)
  {
    NewEntity(id, item.0, ApiEntityName(item.0, item.1), ApiSource(apiName), now)
      .(properties := WithProperties([], item.1.entries, 1.0, now))
  }

  /** The fact statement a fact item gives. */
  function ApiStatement(item: (string, Value)): string
    requires IsFactValue(item.1)
  {
    item.0 + ": " + item.1.s
  }

  /** The entities after the items: `add_entity` for each entity item, under the next id. */
  function EntitiesFold(es: seq<Entity>, data: seq<(string, Value)>, apiName: string, now: Time): (r: seq<Entity>)
    ensures |r| == |es| + |ApiEntities(data)|
  {
    if data == [] then es
    else
      var before := EntitiesFold(es, data[..|data| - 1], apiName, now);
      var item := data[|data| - 1];
      if IsEntityValue(item.1) then before + [ApiEntity(|before|, item, apiName, now)] else before
  }

  /** The facts after the items: `add_fact` with confidence 1.0 for each fact item. */
  function FactsFold(fs: seq<Fact>, data: seq<(string, Value)>, apiName: string, now: Time): (r: seq<Fact>)
    ensures |r| == |fs| + |ApiFacts(data)|
  {
    if data == [] then fs
    else
      var before := FactsFold(fs, data[..|data| - 1], apiName, now);
      var item := data[|data| - 1];
      if !IsEntityValue(item.1) && IsFactValue(item.1) then WithFact(before, ApiStatement(item), 1.0, ApiSource(apiName), now)
      else before
  }

  /**
   * The contexts after the items, when `ne` entities and `nf` facts were
   * stored before them: each new id joins the current context.
   */
  function ContextsFold(cs: seq<Context>, current: Option<ContextId>, ne: nat, nf: nat, data: seq<(string, Value)>): (r: seq<Context>)
    ensures |r| == |cs|
  {
    if data == [] then cs
    else
      var init := data[..|data| - 1];
      var before := ContextsFold(cs, current, ne, nf, init);
      var item := data[|data| - 1];
      if IsEntityValue(item.1) then WithActiveEntity(before, current, ne + |ApiEntities(init)|)
      else if IsFactValue(item.1) then WithRelevantFact(before, current, nf + |ApiFacts(init)|)
      else before
  }

  /** The record one item adds to the log, as entity `ne` or fact `nf`, if it makes one. */
  function LogStep(log: seq<Perception>, ne: nat, nf: nat, item: (string, Value), apiName: string, now: Time): seq<Perception> {
    if IsEntityValue(item.1) then
      Logged(log, now, EntityAdded(ne, item.0, ApiEntityName(item.0, item.1), ApiSource(apiName)))
    else if IsFactValue(item.1) then
      Logged(log, now, FactAdded(nf, ApiStatement(item), 1.0, ApiSource(apiName)))
    else log
  }

  /** The perception log after the items: an `entity_added` or `fact_added` record per item that made one. */
  function LogFold(log: seq<Perception>, ne: nat, nf: nat, data: seq<(string, Value)>, apiName: string, now: Time): seq<Perception> {
    if data == [] then log
    else
      var init := data[..|data| - 1];
      LogStep(LogFold(log, ne, nf, init, apiName, now), ne + |ApiEntities(init)|, nf + |ApiFacts(init)|, data[|data| - 1], apiName, now)
  }

  /** The payload's items processed in order, each by `add_entity`, `add_fact` or not at all. */
  function ApiFold(w: World, current: Option<ContextId>, data: seq<(string, Value)>, apiName: string, now: Time): World {
    World(EntitiesFold(w.entities, data, apiName, now),
          FactsFold(w.facts, data, apiName, now),
          ContextsFold(w.contexts, current, |w.entities|, |w.facts|, data),
          LogFold(w.log, |w.entities|, |w.facts|, data, apiName, now))
  }

  /** Processing a payload is processing all but its last item, then the last one. */
  lemma ApiFoldSnoc(w: World, current: Option<ContextId>, data: seq<(string, Value)>, apiName: string, now: Time)
    requires data != []
    ensures ApiFold(w, current, data, apiName, now)
      == ApiFold(ApiFold(w, current, data[..|data| - 1], apiName, now), current, [data[|data| - 1]], apiName, now)
  {
    var init := data[..|data| - 1];
    var last := [data[|data| - 1]];
    var mid := ApiFold(w, current, init, apiName, now);
    assert |mid.entities| == |w.entities| + |ApiEntities(init)| && |mid.facts| == |w.facts| + |ApiFacts(init)|;
    EntitiesFoldSnoc(w.entities, data, apiName, now);
    FactsFoldSnoc(w.facts, data, apiName, now);
    ContextsFoldSnoc(w.contexts, current, |w.entities|, |w.facts|, data, |mid.entities|, |mid.facts|);
    LogFoldSnoc(w.log, |w.entities|, |w.facts|, data, apiName, now, |mid.entities|, |mid.facts|);
  }

  lemma EntitiesFoldSnoc(es: seq<Entity>, data: seq<(string, Value)>, apiName: string, now: Time)
    requires data != []
    ensures EntitiesFold(es, data, apiName, now)
      == EntitiesFold(EntitiesFold(es, data[..|data| - 1], apiName, now), [data[|data| - 1]], apiName, now)
  {
    EntitiesFoldOne(EntitiesFold(es, data[..|data| - 1], apiName, now), data[|data| - 1], apiName, now);
  }

  lemma FactsFoldSnoc(fs: seq<Fact>, data: seq<(string, Value)>, apiName: string, now: Time)
    requires data != []
    ensures FactsFold(fs, data, apiName, now)
      == FactsFold(FactsFold(fs, data[..|data| - 1], apiName, now), [data[|data| - 1]], apiName, now)
  {
    FactsFoldOne(FactsFold(fs, data[..|data| - 1], apiName, now), data[|data| - 1], apiName, now);
  }

  /** A one-item payload: its first zero items produce nothing. */
  lemma SingleItem(item: (string, Value))
    ensures [item][..0] == [] && ApiEntities([]) == [] && ApiFacts([]) == []
  {
  }

  lemma ContextsFoldSnoc(cs: seq<Context>, current: Option<ContextId>, ne: nat, nf: nat, data: seq<(string, Value)>, ne': nat, nf': nat)
    requires data != []
    requires ne' == ne + |ApiEntities(data[..|data| - 1])| && nf' == nf + |ApiFacts(data[..|data| - 1])|
    ensures ContextsFold(cs, current, ne, nf, data)
      == ContextsFold(ContextsFold(cs, current, ne, nf, data[..|data| - 1]), current, ne', nf', [data[|data| - 1]])
  {
    ContextsFoldOne(ContextsFold(cs, current, ne, nf, data[..|data| - 1]), current, ne', nf', data[|data| - 1]);
  }

  lemma LogFoldSnoc(log: seq<Perception>, ne: nat, nf: nat, data: seq<(string, Value)>, apiName: string, now: Time, ne': nat, nf': nat)
    requires data != []
    requires ne' == ne + |ApiEntities(data[..|data| - 1])| && nf' == nf + |ApiFacts(data[..|data| - 1])|
    ensures LogFold(log, ne, nf, data, apiName, now)
      == LogFold(LogFold(log, ne, nf, data[..|data| - 1], apiName, now), ne', nf', [data[|data| - 1]], apiName, now)
  {
    var before := LogFold(log, ne, nf, data[..|data| - 1], apiName, now);
    assert LogFold(log, ne, nf, data, apiName, now) == LogStep(before, ne', nf', data[|data| - 1], apiName, now);
    LogFoldOne(before, ne', nf', data[|data| - 1], apiName, now);
  }

  /** Processing the first `i + 1` items is processing the first `i`, then item `i`. */
  lemma ApiFoldPrefixStep(w: World, current: Option<ContextId>, data: seq<(string, Value)>, i: nat, apiName: string, now: Time)
    requires i < |data|
    ensures ApiFold(w, current, data[..i + 1], apiName, now)
      == ApiFold(ApiFold(w, current, data[..i], apiName, now), current, [data[i]], apiName, now)
  {
    assert data[..i + 1][..i] == data[..i] && data[..i + 1][i] == data[i];
    ApiFoldSnoc(w, current, data[..i + 1], apiName, now);
  }

  /** Processing a one-item payload: `add_entity`, `add_fact` or nothing, by the item's value. */
  /** One payload item: `add_entity` for a dictionary with "id", `add_fact` with confidence 1.0 for a long string, else nothing. */
  function ApiStep(w: World, current: Option<ContextId>, item: (string, Value), apiName: string, now: Time): World {
    if IsEntityValue(item.1) then
      World(w.entities + [ApiEntity(|w.entities|, item, apiName, now)],
            w.facts,
            WithActiveEntity(w.contexts, current, |w.entities|),
            Logged(w.log, now, EntityAdded(|w.entities|, item.0, ApiEntityName(item.0, item.1), ApiSource(apiName))))
    else if IsFactValue(item.1) then
      World(w.entities,
            WithFact(w.facts, ApiStatement(item), 1.0, ApiSource(apiName), now),
            WithRelevantFact(w.contexts, current, |w.facts|),
            Logged(w.log, now, FactAdded(|w.facts|, ApiStatement(item), 1.0, ApiSource(apiName))))
    else w
  }

  /** Processing a one-item payload is that item's step. */
  lemma ApiFoldOne(w: World, current: Option<ContextId>, item: (string, Value), apiName: string, now: Time)
    ensures ApiFold(w, current, [item], apiName, now) == ApiStep(w, current, item, apiName, now)
  {
    EntitiesFoldOne(w.entities, item, apiName, now);
    FactsFoldOne(w.facts, item, apiName, now);
    ContextsFoldOne(w.contexts, current, |w.entities|, |w.facts|, item);
    LogFoldOne(w.log, |w.entities|, |w.facts|, item, apiName, now);
  }

  /** Processing the first `i + 1` items is processing the first `i`, then the step of item `i`. */
  lemma ApiFoldExtend(w: World, current: Option<ContextId>, data: seq<(string, Value)>, i: nat, apiName: string, now: Time)
    requires i < |data|
    ensures ApiFold(w, current, data[..i + 1], apiName, now)
      == ApiStep(ApiFold(w, current, data[..i], apiName, now), current, data[i], apiName, now)
  {
    ApiFoldPrefixStep(w, current, data, i, apiName, now);
    ApiFoldOne(ApiFold(w, current, data[..i], apiName, now), current, data[i], apiName, now);
  }

  lemma EntitiesFoldOne(es: seq<Entity>, item: (string, Value), apiName: string, now: Time)
    ensures EntitiesFold(es, [item], apiName, now)
      == if IsEntityValue(item.1) then es + [ApiEntity(|es|, item, apiName, now)] else es
  {
    SingleItem(item);
    assert EntitiesFold(es, [item][..0], apiName, now) == es;
  }

  lemma FactsFoldOne(fs: seq<Fact>, item: (string, Value), apiName: string, now: Time)
    ensures FactsFold(fs, [item], apiName, now)
      == if !IsEntityValue(item.1) && IsFactValue(item.1) then WithFact(fs, ApiStatement(item), 1.0, ApiSource(apiName), now) else fs
  {
    SingleItem(item);
    assert FactsFold(fs, [item][..0], apiName, now) == fs;
  }

  lemma ContextsFoldOne(cs: seq<Context>, current: Option<ContextId>, ne: nat, nf: nat, item: (string, Value))
    ensures ContextsFold(cs, current, ne, nf, [item])
      == if IsEntityValue(item.1) then WithActiveEntity(cs, current, ne)
         else if IsFactValue(item.1) then WithRelevantFact(cs, current, nf)
         else cs
  {
    SingleItem(item);
    assert ContextsFold(cs, current, ne, nf, [item][..0]) == cs;
    assert [item][|[item]| - 1] == item && ne + |ApiEntities([item][..0])| == ne && nf + |ApiFacts([item][..0])| == nf;
  }

  lemma LogFoldOne(log: seq<Perception>, ne: nat, nf: nat, item: (string, Value), apiName: string, now: Time)
    ensures LogFold(log, ne, nf, [item], apiName, now) == LogStep(log, ne, nf, item, apiName, now)
  {
    SingleItem(item);
    assert LogFold(log, ne, nf, [item][..0], apiName, now) == log;
    assert [item][|[item]| - 1] == item && ne + |ApiEntities([item][..0])| == ne && nf + |ApiFacts([item][..0])| == nf;
  }

  /** An earlier fact after later `add_fact` calls: only contradictions were added to it. */
  predicate Remarked(before: Fact, after: Fact) {
    after.(contradictions := before.contradictions) == before && before.contradictions <= after.contradictions
  }

  /**
   * `process_api_data` keeps the existing entities, and adds one entity per
   * entity item, in payload order, under the next ids.
   */
  lemma {:induction false} ApiFoldEntities(w: World, current: Option<ContextId>, data: seq<(string, Value)>, apiName: string, now: Time)
    ensures var r := ApiFold(w, current, data, apiName, now);
      && |r.entities| == |w.entities| + |ApiEntities(data)|
      && r.entities[..|w.entities|] == w.entities
      && forall j :: 0 <= j < |ApiEntities(data)| ==>
           r.entities[|w.entities| + j] == ApiEntity(|w.entities| + j, ApiEntities(data)[j], apiName, now)
  {
    EntitiesFoldKeeps(w.entities, data, apiName, now);
    forall j | 0 <= j < |ApiEntities(data)|
      ensures ApiFold(w, current, data, apiName, now).entities[|w.entities| + j]
        == ApiEntity(|w.entities| + j, ApiEntities(data)[j], apiName, now)
    {
      ApiFoldEntityAt(w, current, data, apiName, now, j);
    }
  }

  lemma ApiFoldEntityAt(w: World, current: Option<ContextId>, data: seq<(string, Value)>, apiName: string, now: Time, j: nat)
    requires j < |ApiEntities(data)|
    ensures ApiFold(w, current, data, apiName, now).entities[|w.entities| + j]
      == ApiEntity(|w.entities| + j, ApiEntities(data)[j], apiName, now)
  {
    EntitiesFoldAt(w.entities, data, apiName, now, j);
  }

  /** Entity items only append: the entities already stored stay as they were. */
  lemma {:induction false} EntitiesFoldKeeps(es: seq<Entity>, data: seq<(string, Value)>, apiName: string, now: Time)
    ensures EntitiesFold(es, data, apiName, now)[..|es|] == es
  {
    if data != [] {
      var init := data[..|data| - 1];
      EntitiesFoldKeeps(es, init, apiName, now);
      var before := EntitiesFold(es, init, apiName, now);
      var r := EntitiesFold(es, data, apiName, now);
      assert r[..|before|] == before;
      assert r[..|es|] == before[..|es|];
    }
  }

  /** The `j`-th entity item becomes the entity stored after the first `j` new ones. */
  lemma {:induction false} EntitiesFoldAt(es: seq<Entity>, data: seq<(string, Value)>, apiName: string, now: Time, j: nat)
    requires j < |ApiEntities(data)|
    ensures EntitiesFold(es, data, apiName, now)[|es| + j] == ApiEntity(|es| + j, ApiEntities(data)[j], apiName, now)
  {
    var init := data[..|data| - 1];
    var item := data[|data| - 1];
    var before := EntitiesFold(es, init, apiName, now);
    var r := EntitiesFold(es, data, apiName, now);
    if IsEntityValue(item.1) {
      if j < |ApiEntities(init)| {
        EntitiesFoldAt(es, init, apiName, now, j);
        assert ApiEntities(data)[j] == ApiEntities(init)[j];
        assert r[|es| + j] == before[|es| + j];
      } else {
        assert ApiEntities(data)[j] == item;
        assert r[|es| + j] == ApiEntity(|before|, item, apiName, now);
      }
    } else {
      assert ApiEntities(data)[j] == ApiEntities(init)[j];
      EntitiesFoldAt(es, init, apiName, now, j);
    }
  }

  /**
   * `process_api_data` changes the existing facts only by adding
   * contradictions, and adds one fact per fact item, in payload order, with
   * confidence 1.0 and the API as its source.
   */
  lemma {:induction false} ApiFoldFacts(w: World, current: Option<ContextId>, data: seq<(string, Value)>, apiName: string, now: Time)
    ensures var r := ApiFold(w, current, data, apiName, now);
      && |r.facts| == |w.facts| + |ApiFacts(data)|
      && (forall k :: 0 <= k < |w.facts| ==> Remarked(w.facts[k], r.facts[k]))
      && forall j :: 0 <= j < |ApiFacts(data)| ==>
           r.facts[|w.facts| + j].(contradictions := []) == NewFact(|w.facts| + j, ApiFacts(data)[j], 1.0, ApiSource(apiName), now)
  {
    FactsFoldSpec(w.facts, data, apiName, now);
  }

  lemma {:induction false} FactsFoldSpec(fs: seq<Fact>, data: seq<(string, Value)>, apiName: string, now: Time)
    ensures var r := FactsFold(fs, data, apiName, now);
      && (forall k :: 0 <= k < |fs| ==> Remarked(fs[k], r[k]))
      && forall j :: 0 <= j < |ApiFacts(data)| ==>
           r[|fs| + j].(contradictions := []) == NewFact(|fs| + j, ApiFacts(data)[j], 1.0, ApiSource(apiName), now)
  {
    if data != [] {
      var init := data[..|data| - 1];
      var item := data[|data| - 1];
      FactsFoldSpec(fs, init, apiName, now);
      var before := FactsFold(fs, init, apiName, now);
      var r := FactsFold(fs, data, apiName, now);
      if !IsEntityValue(item.1) && IsFactValue(item.1) {
        assert ApiFacts(data) == ApiFacts(init) + [ApiStatement(item)];
        FactStepRemarks(before, ApiStatement(item), ApiSource(apiName), now);
        forall k | 0 <= k < |fs| ensures Remarked(fs[k], r[k]) {
          RemarkedTransitive(fs[k], before[k], r[k]);
        }
        forall j | 0 <= j < |ApiFacts(data)|
          ensures r[|fs| + j].(contradictions := []) == NewFact(|fs| + j, ApiFacts(data)[j], 1.0, ApiSource(apiName), now)
        {
          if j < |ApiFacts(init)| {
            RemarkedTransitive(before[|fs| + j], before[|fs| + j], r[|fs| + j]);
          }
        }
      } else {
        assert ApiFacts(data) == ApiFacts(init);
      }
    }
  }

  /** One `add_fact` only adds contradictions to the stored facts, and stores the new fact last. */
  lemma FactStepRemarks(facts: seq<Fact>, statement: string, source: string, now: Time)
    ensures var r := WithFact(facts, statement, 1.0, source, now);
      && |r| == |facts| + 1
      && (forall k :: 0 <= k < |facts| ==> Remarked(facts[k], r[k]))
      && r[|facts|].(contradictions := []) == NewFact(|facts|, statement, 1.0, source, now)
  {
    var r := WithFact(facts, statement, 1.0, source, now);
    var f := NewFact(|facts|, statement, 1.0, source, now);
    forall k | 0 <= k < |facts| ensures Remarked(facts[k], r[k]) {
      assert r[k] == Marked(facts, f)[k];
    }
  }

  lemma RemarkedTransitive(a: Fact, b: Fact, c: Fact)
    requires Remarked(a, b) && Remarked(b, c)
    ensures Remarked(a, c)
  {
  }

  /**
   * `process_api_data` leaves every context but the current one alone, and
   * the current one (when it is stored) gains exactly the new entity and fact ids.
   */
  lemma {:induction false} ApiFoldContexts(w: World, current: Option<ContextId>, data: seq<(string, Value)>, apiName: string, now: Time)
    ensures var r := ApiFold(w, current, data, apiName, now);
      && |r.contexts| == |w.contexts|
      && (forall k :: 0 <= k < |w.contexts| && !(HasCurrent(w.contexts, current) && k == current.value) ==> r.contexts[k] == w.contexts[k])
      && (HasCurrent(w.contexts, current) ==>
            var c := w.contexts[current.value];
            var c' := r.contexts[current.value];
            && c'.(activeEntities := c.activeEntities, relevantFacts := c.relevantFacts) == c
            && (forall e :: e in c'.activeEntities <==> e in c.activeEntities || |w.entities| <= e < |r.entities|)
            && (forall f :: f in c'.relevantFacts <==> f in c.relevantFacts || |w.facts| <= f < |r.facts|))
  {
    ContextsFoldSpec(w.contexts, current, |w.entities|, |w.facts|, data);
  }

  lemma {:induction false} ContextsFoldSpec(cs: seq<Context>, current: Option<ContextId>, ne: nat, nf: nat, data: seq<(string, Value)>)
    ensures var r := ContextsFold(cs, current, ne, nf, data);
      && (forall k :: 0 <= k < |cs| && !(HasCurrent(cs, current) && k == current.value) ==> r[k] == cs[k])
      && (HasCurrent(cs, current) ==>
            var c := cs[current.value];
            var c' := r[current.value];
            && c'.(activeEntities := c.activeEntities, relevantFacts := c.relevantFacts) == c
            && (forall e :: e in c'.activeEntities <==> e in c.activeEntities || ne <= e < ne + |ApiEntities(data)|)
            && (forall f :: f in c'.relevantFacts <==> f in c.relevantFacts || nf <= f < nf + |ApiFacts(data)|))
  {
    if data != [] {
      var init := data[..|data| - 1];
      var item := data[|data| - 1];
      ContextsFoldSpec(cs, current, ne, nf, init);
      if IsEntityValue(item.1) {
        assert ApiEntities(data) == ApiEntities(init) + [item];
        assert ApiFacts(data) == ApiFacts(init);
      } else if IsFactValue(item.1) {
        assert ApiEntities(data) == ApiEntities(init);
        assert ApiFacts(data) == ApiFacts(init) + [ApiStatement(item)];
      } else {
        assert ApiEntities(data) == ApiEntities(init);
        assert ApiFacts(data) == ApiFacts(init);
      }
    }
  }

  function Mention(name: string): string {
    "Упомянута сущность: " + name
  }

  function UserSaid(input: string): string {
    "Пользователь сказал: " + input
  }

  /** `m` is the mention of an entity among `entities` whose name occurs in the input, ignoring case. */
  predicate MentionOf(entities: seq<Entity>, input: string, m: string) {
    exists k :: 0 <= k < |entities| && Contains(Lower(input), Lower(entities[k].name)) && m == Mention(entities[k].name)
  }

  /** A mention among the first entities is a mention among all of them. */
  lemma MentionOfPrefix(entities: seq<Entity>, n: nat, input: string)
    requires n <= |entities|
    ensures forall m :: MentionOf(entities[..n], input, m) ==> MentionOf(entities, input, m)
  {
    forall m | MentionOf(entities[..n], input, m)
      ensures MentionOf(entities, input, m)
    {
      var k :| 0 <= k < n && Contains(Lower(input), Lower(entities[..n][k].name)) && m == Mention(entities[..n][k].name);
      assert entities[..n][k] == entities[k];
    }
  }

  /** The mentions `process_user_input` extracts: entities whose name occurs in the input, ignoring case. */
  function Mentions(entities: seq<Entity>, input: string): (r: seq<string>)
    ensures |r| <= |entities|
    ensures forall e :: e in entities && Contains(Lower(input), Lower(e.name)) ==> Mention(e.name) in r
    ensures forall i :: 0 <= i < |r| ==> MentionOf(entities, input, r[i])
  {
    if entities == [] then []
    else
      var e := entities[|entities| - 1];
      var init := entities[..|entities| - 1];
      var before := Mentions(init, input);
      assert forall x :: x in entities ==> x in init || x == e;
      MentionOfPrefix(entities, |entities| - 1, input);
      var hit := Contains(Lower(input), Lower(e.name));
      assert hit ==> MentionOf(entities, input, Mention(e.name));
      before + (if hit then [Mention(e.name)] else [])
  }

  // ---------------------------------------------------------------------------
  // Perception log
  // ---------------------------------------------------------------------------

  datatype PerceptionData =
    | EntityAdded(entityId: EntityId, entityType: string, name: string, source: string)
    | EntityUpdated(entityId: EntityId, properties: seq<(string, Value)>, confidence: real)
    | FactAdded(factId: FactId, statement: string, confidence: real, source: string)
    | ContextCreated(contextId: ContextId, name: string, description: string)
    | ContextSwitched(contextId: ContextId, contextName: string)
    | ApiProcessed(apiName: string, entitiesCreated: nat, dataSize: nat)
    | UserInputProcessed(input: string, extractedInfo: seq<string>, factId: FactId)
  {
    function Action(): string {
      match this
      case EntityAdded(_, _, _, _) => "entity_added"
      case EntityUpdated(_, _, _) => "entity_updated"
      case FactAdded(_, _, _, _) => "fact_added"
      case ContextCreated(_, _, _) => "context_created"
      case ContextSwitched(_, _) => "context_switched"
      case ApiProcessed(_, _, _) => "api_processed"
      case UserInputProcessed(_, _, _) => "user_input_processed"
    }
  }

  datatype Perception = Perception(timestamp: Time, action: string, data: PerceptionData)

  function Logged(log: seq<Perception>, now: Time, data: PerceptionData): seq<Perception> {
    KeepLast(log + [Perception(now, data.Action(), data)], PerceptionCap)
  }

  // ---------------------------------------------------------------------------
  // What the module keeps, and how each operation keeps it
  // ---------------------------------------------------------------------------

  /**
   * Ids are positions; links, contexts and contradictions refer only to
   * stored entities and facts; contradictions are mutual; the current context
   * exists; the log is bounded.
   */
  ghost predicate Consistent(entities: seq<Entity>, facts: seq<Fact>, contexts: seq<Context>,
                             current: Option<ContextId>, log: seq<Perception>) {
    && EntitiesOk(entities, |facts|)
    && FactsOk(facts)
    && ContextsOk(contexts, |entities|, |facts|)
    && (current.Some? ==> current.value < |contexts|)
    && |log| <= PerceptionCap
  }

  /** A new entity with the given properties is well formed. */
  lemma NewEntityOk(id: EntityId, entityType: string, name: string, properties: seq<(string, Value)>, source: string, now: Time, nFacts: nat)
    ensures EntityOk(NewEntity(id, entityType, name, source, now).(properties := WithProperties([], properties, 1.0, now)), id, nFacts)
  {
    var none: seq<(string, Property)> := [];
    assert NoDup(Keys(none));
  }

  lemma EntityAddedOk(entities: seq<Entity>, facts: seq<Fact>, contexts: seq<Context>, current: Option<ContextId>,
                      log: seq<Perception>, e: Entity, now: Time, data: PerceptionData)
    requires Consistent(entities, facts, contexts, current, log) && EntityOk(e, |entities|, |facts|)
    ensures Consistent(entities + [e], facts, WithActiveEntity(contexts, current, |entities|), current, Logged(log, now, data))
  {
    var es := entities + [e];
    forall k | 0 <= k < |es| ensures EntityOk(es[k], k, |facts|) {
      if k < |entities| {
        assert EntityOk(entities[k], k, |facts|);
      }
    }
    ContextsGrow(contexts, |entities|, |facts|, |es|, |facts|);
    ActiveEntityOk(contexts, current, |entities|, |es|, |facts|);
  }

  lemma EntityReplacedOk(entities: seq<Entity>, facts: seq<Fact>, contexts: seq<Context>, current: Option<ContextId>,
                         log: seq<Perception>, id: EntityId, e: Entity, now: Time, data: PerceptionData)
    requires Consistent(entities, facts, contexts, current, log) && id < |entities| && EntityOk(e, id, |facts|)
    ensures Consistent(entities[id := e], facts, contexts, current, Logged(log, now, data))
  {
    var es := entities[id := e];
    forall k | 0 <= k < |es| ensures EntityOk(es[k], k, |facts|) {
      if k != id {
        assert EntityOk(entities[k], k, |facts|);
      }
    }
  }

  lemma FactAddedOk(entities: seq<Entity>, facts: seq<Fact>, contexts: seq<Context>, current: Option<ContextId>,
                    log: seq<Perception>, statement: string, confidence: real, source: string, now: Time,
                    entityIds: seq<EntityId>, data: PerceptionData)
    requires Consistent(entities, facts, contexts, current, log)
    ensures Consistent(Linked(entities, entityIds, |facts|), WithFact(facts, statement, confidence, source, now),
                       WithRelevantFact(contexts, current, |facts|), current, Logged(log, now, data))
  {
    var n := |facts| + 1;
    WithFactKeepsFactsOk(facts, statement, confidence, source, now);
    EntitiesGrow(entities, |facts|, n);
    LinkedEffect(entities, entityIds, |facts|, n);
    ContextsGrow(contexts, |entities|, |facts|, |entities|, n);
    RelevantFactOk(contexts, current, |facts|, |entities|, n);
  }

  lemma ContextAddedOk(entities: seq<Entity>, facts: seq<Fact>, contexts: seq<Context>, current: Option<ContextId>,
                       log: seq<Perception>, c: Context, now: Time, data: PerceptionData)
    requires Consistent(entities, facts, contexts, current, log) && ContextOk(c, |contexts|, |entities|, |facts|)
    ensures Consistent(entities, facts, contexts + [c], current, Logged(log, now, data))
  {
    var cs := contexts + [c];
    forall k | 0 <= k < |cs| ensures ContextOk(cs[k], k, |entities|, |facts|) {
      if k < |contexts| {
        assert ContextOk(contexts[k], k, |entities|, |facts|);
      }
    }
  }

  // ---------------------------------------------------------------------------
  // The module
  // ---------------------------------------------------------------------------

  class WorldModelModule {
    var entities: seq<Entity>
    var facts: seq<Fact>
    var contexts: seq<Context>
    var currentContextId: Option<ContextId>
    var perceptionLog: seq<Perception>

    /**
     * Ids are positions; links, contexts and contradictions refer only to
     * stored entities and facts; contradictions are mutual; the log is bounded.
     */
    ghost predicate Valid()
      reads this
    {
      Consistent(entities, facts, contexts, currentContextId, perceptionLog)
    }

    constructor ()
      ensures Valid()
      ensures entities == [] && facts == [] && contexts == [] && currentContextId == None && perceptionLog == []
    {
      entities := [];
      facts := [];
      contexts := [];
      currentContextId := None;
      perceptionLog := [];
    }

    /** `_log_perception`: append the event and keep the last 1000. */
    method LogPerception(now: Time, data: PerceptionData)
      requires |perceptionLog| <= PerceptionCap
      modifies this`perceptionLog
      ensures perceptionLog == Logged(old(perceptionLog), now, data)
      ensures 0 < |perceptionLog| <= PerceptionCap && perceptionLog[|perceptionLog| - 1].data == data
    {
      perceptionLog := perceptionLog + [Perception(now, data.Action(), data)];
      if |perceptionLog| > PerceptionCap {
        perceptionLog := perceptionLog[|perceptionLog| - PerceptionCap..];
      }
    }

    /** The `update_property` loop of `add_entity` and `update_entity`. */
    static method ApplyProperties(entity: Entity, properties: seq<(string, Value)>, confidence: real, now: Time) returns (e: Entity)
      ensures e == entity.(properties := WithProperties(entity.properties, properties, confidence, now),
                           lastUpdated := if properties == [] then entity.lastUpdated else now)
    {
      e := entity;
      var i := 0;
      while i < |properties|
        invariant i <= |properties|
        invariant e == entity.(properties := WithProperties(entity.properties, properties[..i], confidence, now),
                               lastUpdated := if i == 0 then entity.lastUpdated else now)
      {
        WithPropertiesSnoc(entity.properties, properties, i, confidence, now);
        e := e.(properties := Assign(e.properties, properties[i].0, Property(properties[i].1, confidence, now)), lastUpdated := now);
        i := i + 1;
      }
      assert properties[..i] == properties;
    }

    /** `add_entity`: store a new entity with the given properties and join it to the current context. */
    method AddEntity(entityType: string, name: string, properties: seq<(string, Value)>, source: string, now: Time)
      returns (id: EntityId)
      requires Valid()
      modifies this`entities, this`contexts, this`perceptionLog
      ensures Valid()
      ensures id == |old(entities)|
      ensures entities == old(entities) + [NewEntity(id, entityType, name, source, now).(properties := WithProperties([], properties, 1.0, now))]
      ensures contexts == WithActiveEntity(old(contexts), currentContextId, id)
      ensures perceptionLog == Logged(old(perceptionLog), now, EntityAdded(id, entityType, name, source))
    {
      ghost var entities0, contexts0, log0 := entities, contexts, perceptionLog;
      id := |entities|;
      var entity := ApplyProperties(NewEntity(id, entityType, name, source, now), properties, 1.0, now);
      assert entity == NewEntity(id, entityType, name, source, now).(properties := WithProperties([], properties, 1.0, now));
      NewEntityOk(id, entityType, name, properties, source, now, |facts|);
      entities := entities + [entity];
      contexts := WithActiveEntity(contexts, currentContextId, id);
      LogPerception(now, EntityAdded(id, entityType, name, source));
      EntityAddedOk(entities0, facts, contexts0, currentContextId, log0, entity, now, EntityAdded(id, entityType, name, source));
    }

    /** `update_entity`: update the properties of a known entity; an unknown id changes nothing. */
    method UpdateEntity(id: EntityId, properties: seq<(string, Value)>, confidence: real, now: Time)
      requires Valid()
      modifies this`entities, this`perceptionLog
      ensures Valid()
      ensures id >= |old(entities)| ==> entities == old(entities) && perceptionLog == old(perceptionLog)
      ensures id < |old(entities)| ==>
        && entities == old(entities)[id := old(entities)[id].(properties := WithProperties(old(entities)[id].properties, properties, confidence, now),
                                                             lastUpdated := if properties == [] then old(entities)[id].lastUpdated else now)]
        && perceptionLog == Logged(old(perceptionLog), now, EntityUpdated(id, properties, confidence))
    {
      if id < |entities| {
        var entity := ApplyProperties(entities[id], properties, confidence, now);
        assert EntityOk(old(entities)[id], id, |facts|);
        assert EntityOk(entity, id, |facts|);
        EntityReplacedOk(entities, facts, contexts, currentContextId, perceptionLog, id, entity, now, EntityUpdated(id, properties, confidence));
        entities := entities[id := entity];
        LogPerception(now, EntityUpdated(id, properties, confidence));
      }
    }

    /** `_check_fact_consistency`: mark the new fact and every existing fact it contradicts. */
    method CheckFactConsistency(newFact: Fact) returns (checked: Fact)
      requires forall k :: 0 <= k < |facts| ==> facts[k].id == k
      modifies this`facts
      ensures facts == Marked(old(facts), newFact)
      ensures checked == newFact.(contradictions := newFact.contradictions + ContradictingIds(old(facts), newFact.statement, newFact.confidence, |old(facts)|))
    {
      checked := newFact;
      ghost var found: seq<FactId> := [];
      var i := 0;
      while i < |facts|
        invariant Scanned(old(facts), facts, newFact, i, found)
        invariant checked == newFact.(contradictions := newFact.contradictions + found)
      {
        found, checked := CompareFact(old(facts), newFact, i, found, checked);
        i := i + 1;
      }
      ScanDone(old(facts), facts, newFact, found);
    }

    /** One comparison of `_check_fact_consistency`: the new fact against the stored fact `i`. */
    method CompareFact(ghost before: seq<Fact>, newFact: Fact, i: nat, ghost found: seq<FactId>, checked: Fact)
      returns (ghost found': seq<FactId>, checked': Fact)
      requires i < |facts| && Scanned(before, facts, newFact, i, found) && before[i].id == i
      requires checked == newFact.(contradictions := newFact.contradictions + found)
      modifies this`facts
      ensures Scanned(before, facts, newFact, i + 1, found')
      ensures checked' == newFact.(contradictions := newFact.contradictions + found')
    {
      var existing := facts[i];
      ScanStep(before, facts, newFact, i, found);
      assert existing == before[i];
      ghost var hit := Contradicts(newFact.statement, newFact.confidence, existing.statement, existing.confidence);
      found', checked' := found, checked;
      var similarity := Similarity(newFact.statement, existing.statement);
      if similarity > SimilarityThreshold && newFact.confidence != existing.confidence {
        var gap := if newFact.confidence - existing.confidence < 0.0 then existing.confidence - newFact.confidence
                   else newFact.confidence - existing.confidence;
        if gap > ConfidenceGap {
          assert hit;
          assert newFact.contradictions + found + [i] == newFact.contradictions + (found + [i]);
          found' := found + [i];
          checked' := checked.(contradictions := checked.contradictions + [existing.id]);
          facts := facts[i := Contradicted(existing, newFact.id)];
        } else {
          assert !hit;
        }
      } else {
        assert !hit;
      }
    }

    /** The checking and storing part of `add_fact`. */
    method StoreFact(statement: string, confidence: real, source: string, now: Time) returns (id: FactId)
      requires FactsOk(facts)
      modifies this`facts
      ensures id == |old(facts)|
      ensures facts == WithFact(old(facts), statement, confidence, source, now)
    {
      id := |facts|;
      var fact := NewFact(id, statement, confidence, source, now);
      assert forall k :: 0 <= k < |facts| ==> FactOk(facts[k], k, |facts|);
      fact := CheckFactConsistency(fact);
      assert [] + ContradictingIds(old(facts), statement, confidence, id) == ContradictingIds(old(facts), statement, confidence, id);
      facts := facts + [fact];
    }

    /** `add_fact`: check, store, link to the listed known entities and join the current context. */
    method AddFact(statement: string, confidence: real, source: string, entityIds: seq<EntityId>, now: Time)
      returns (id: FactId)
      requires Valid()
      modifies this`facts, this`entities, this`contexts, this`perceptionLog
      ensures Valid()
      ensures id == |old(facts)|
      ensures facts == WithFact(old(facts), statement, confidence, source, now)
      ensures entities == Linked(old(entities), entityIds, id)
      ensures contexts == WithRelevantFact(old(contexts), currentContextId, id)
      ensures perceptionLog == Logged(old(perceptionLog), now, FactAdded(id, statement, confidence, source))
    {
      FactAddedOk(entities, facts, contexts, currentContextId, perceptionLog, statement, confidence, source, now,
                  entityIds, FactAdded(|facts|, statement, confidence, source));
      id := StoreFact(statement, confidence, source, now);
      if entityIds != [] {
        LinkEntities(entityIds, id);
      }
      contexts := WithRelevantFact(contexts, currentContextId, id);
      LogPerception(now, FactAdded(id, statement, confidence, source));
    }

    /** The linking loop of `add_fact`. */
    method LinkEntities(entityIds: seq<EntityId>, fact: FactId)
      modifies this`entities
      ensures entities == Linked(old(entities), entityIds, fact)
    {
      var i := 0;
      while i < |entityIds|
        invariant i <= |entityIds|
        invariant entities == Linked(old(entities), entityIds[..i], fact)
      {
        assert entityIds[..i + 1][..i] == entityIds[..i];
        var k := entityIds[i];
        if k < |entities| {
          entities := entities[k := entities[k].(relationships := AddRelationship(entities[k].relationships, RelatedFact, fact))];
        }
        i := i + 1;
      }
      assert entityIds[..i] == entityIds;
    }

    /** `create_context`: a new, empty context; the current context is not changed. */
    method CreateContext(name: string, description: string, now: Time) returns (id: ContextId)
      requires Valid()
      modifies this`contexts, this`perceptionLog
      ensures Valid()
      ensures id == |old(contexts)| && contexts == old(contexts) + [Context(id, name, description, {}, {}, now)]
      ensures perceptionLog == Logged(old(perceptionLog), now, ContextCreated(id, name, description))
    {
      id := |contexts|;
      ContextAddedOk(entities, facts, contexts, currentContextId, perceptionLog, Context(id, name, description, {}, {}, now),
                     now, ContextCreated(id, name, description));
      contexts := contexts + [Context(id, name, description, {}, {}, now)];
      LogPerception(now, ContextCreated(id, name, description));
    }

    /** `switch_context`: only a known context becomes current; an unknown id changes nothing. */
    method SwitchContext(id: ContextId, now: Time)
      requires Valid()
      modifies this`currentContextId, this`perceptionLog
      ensures Valid()
      ensures id < |contexts| ==>
        (currentContextId == Some(id) && perceptionLog == Logged(old(perceptionLog), now, ContextSwitched(id, contexts[id].name)))
      ensures id >= |contexts| ==> currentContextId == old(currentContextId) && perceptionLog == old(perceptionLog)
    {
      if id < |contexts| {
        currentContextId := Some(id);
        LogPerception(now, ContextSwitched(id, contexts[id].name));
      }
    }

    /** The part of the module's state that `process_api_data` and `process_user_input` change. */
    function Snapshot(): World
      reads this
    {
      World(entities, facts, contexts, perceptionLog)
    }

    /**
     * `process_api_data`: dict values with an "id" become entities (whose ids
     * are returned), string values longer than 10 characters become facts;
     * then the call itself is logged.
     */
    method ProcessApiData(apiName: string, data: seq<(string, Value)>, now: Time) returns (ids: seq<EntityId>)
      requires Valid()
      modifies this`entities, this`facts, this`contexts, this`perceptionLog
      ensures Valid()
      ensures |entities| == |old(entities)| + |ApiEntities(data)|
      ensures ids == Range(|old(entities)|, |entities|)
      ensures var w := ApiFold(old(Snapshot()), currentContextId, data, apiName, now);
        Snapshot() == w.(log := Logged(w.log, now, ApiProcessed(apiName, |ids|, |Str(VDict(data))|)))
    {
      ids := ProcessApiItems(apiName, data, now);
      LogPerception(now, ApiProcessed(apiName, |ids|, |Str(VDict(data))|));
    }

    /** The loop of `process_api_data` over the payload's items. */
    method ProcessApiItems(apiName: string, data: seq<(string, Value)>, now: Time) returns (ids: seq<EntityId>)
      requires Valid()
      modifies this`entities, this`facts, this`contexts, this`perceptionLog
      ensures Valid()
      ensures Snapshot() == ApiFold(old(Snapshot()), currentContextId, data, apiName, now)
      ensures |entities| == |old(entities)| + |ApiEntities(data)|
      ensures ids == Range(|old(entities)|, |entities|)
    {
      ids := [];
      ghost var w0 := Snapshot();
      var e0 := |entities|;
      var i := 0;
      while i < |data|
        invariant i <= |data| && Valid() && ApiProgress(w0, data, i, apiName, now, e0, ids)
      {
        ids := ProcessApiStep(w0, data, i, apiName, now, e0, ids);
        i := i + 1;
      }
      assert data[..i] == data;
    }

    /** How far `process_api_data` has got: the first `i` items are processed, and `ids` are the entities they made. */
    ghost predicate ApiProgress(w0: World, data: seq<(string, Value)>, i: nat, apiName: string, now: Time, e0: nat, ids: seq<EntityId>)
      reads this
    {
      && i <= |data|
      && Snapshot() == ApiFold(w0, currentContextId, data[..i], apiName, now)
      && e0 <= |entities|
      && ids == Range(e0, |entities|)
    }

    /** Process item `i` of the payload. */
    method ProcessApiStep(ghost w0: World, data: seq<(string, Value)>, i: nat, apiName: string, now: Time, e0: nat, ids: seq<EntityId>)
      returns (ids': seq<EntityId>)
      requires i < |data| && Valid() && ApiProgress(w0, data, i, apiName, now, e0, ids)
      modifies this`entities, this`facts, this`contexts, this`perceptionLog
      ensures Valid() && ApiProgress(w0, data, i + 1, apiName, now, e0, ids')
    {
      ApiFoldExtend(w0, currentContextId, data, i, apiName, now);
      var created := ProcessApiItem(apiName, data[i], now);
      ids' := ids;
      if created.Some? {
        RangeSnoc(e0, created.value);
        ids' := ids + [created.value];
      }
    }

    /** One payload item of `process_api_data`: the id of the entity it made, if any. */
    method ProcessApiItem(apiName: string, item: (string, Value), now: Time) returns (created: Option<EntityId>)
      requires Valid()
      modifies this`entities, this`facts, this`contexts, this`perceptionLog
      ensures Valid()
      ensures Snapshot() == ApiStep(old(Snapshot()), currentContextId, item, apiName, now)
      ensures created == if IsEntityValue(item.1) then Some(|old(entities)|) else None
      ensures |entities| == if created.Some? then |old(entities)| + 1 else |old(entities)|
    {
      ghost var w := Snapshot();
      var key := item.0;
      var value := item.1;
      if IsEntityValue(value) {
        var id := AddEntity(key, ApiEntityName(key, value), value.entries, ApiSource(apiName), now);
        created := Some(id);
      } else if IsFactValue(value) {
        var _ := AddFact(ApiStatement(item), 1.0, ApiSource(apiName), [], now);
        assert entities == w.entities;
        created := None;
      } else {
        created := None;
      }
    }

    /**
     * `process_user_input`: report mentioned entities and record what the
     * user said as a fact, joined to the current context and logged, then log
     * the call itself.
     */
    method ProcessUserInput(userInput: string, now: Time) returns (extracted: seq<string>)
      requires Valid()
      modifies this`entities, this`facts, this`contexts, this`perceptionLog
      ensures Valid()
      ensures extracted == Mentions(old(entities), userInput)
      ensures entities == old(entities)
      ensures facts == WithFact(old(facts), UserSaid(userInput), 1.0, "user_input", now)
      ensures contexts == WithRelevantFact(old(contexts), currentContextId, |old(facts)|)
      ensures perceptionLog == Logged(Logged(old(perceptionLog), now, FactAdded(|old(facts)|, UserSaid(userInput), 1.0, "user_input")),
                                      now, UserInputProcessed(userInput, extracted, |old(facts)|))
    {
      extracted := [];
      var i := 0;
      while i < |entities|
        invariant i <= |entities|
        invariant extracted == Mentions(entities[..i], userInput)
      {
        assert entities[..i + 1][..i] == entities[..i];
        if Contains(Lower(userInput), Lower(entities[i].name)) {
          extracted := extracted + [Mention(entities[i].name)];
        }
        i := i + 1;
      }
      assert entities[..i] == entities;
      var factId := AddFact(UserSaid(userInput), 1.0, "user_input", [], now);
      LogPerception(now, UserInputProcessed(userInput, extracted, factId));
    }

    /** `get_relevant_entities`. */
    function GetRelevantEntities(query: string, limit: int): (r: seq<Entity>)
      reads this
      ensures 0 <= limit ==> |r| <= limit
      ensures 0 <= limit ==> |r| == if limit < |Scored(entities, query)| then limit else |Scored(entities, query)|
      ensures limit < 0 ==> |r| == if -limit < |Scored(entities, query)| then |Scored(entities, query)| + limit else 0
      ensures forall i :: 0 <= i < |r| ==> r[i] in entities && Score(r[i], query) > 0
      ensures forall i, j :: 0 <= i < j < |r| ==> Score(r[i], query) >= Score(r[j], query)
      ensures forall e :: e in entities && Score(e, query) > 0 && e !in r ==>
        forall i :: 0 <= i < |r| ==> Score(e, query) <= Score(r[i], query)
    {
      RelevantEntitiesRanked(entities, query, limit);
      RelevantEntities(entities, query, limit)
    }
  }
}
