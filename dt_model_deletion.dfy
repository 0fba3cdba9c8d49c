/**
 * Bulk deletion of every Digital Twins model, referencers first.
 *
 * The listed models are turned into a dict from each model id to the ids of
 * the models that reference it (through a Component schema or `extends`).
 * Then, while the dict is not empty, some remaining id is picked and deleted
 * depth first: every model that references it is deleted before it, and each
 * id leaves the dict just before its delete call. A failing delete call is
 * logged as a warning and does not stop the loop.
 */
module DigitalTwinsModelDeletion {
  import opened Wrappers
  import opened Json
  import opened DigitalTwinsModelDependencies

  /** A listed model: its id and its definition (`model.id`, `model.model`). */
  datatype ModelRecord = ModelRecord(id: string, definition: Object)

  /** The dict the deletion works on: model id to the ids of the models referencing it. */
  type Graph = map<string, set<string>>

  /** Why building the dict raises: a definition the walk rejects, or a dependency that is not a listed model. */
  datatype BuildError = MalformedModel(id: string) | UnlistedDependency(dependency: string)

  /** What a completed bulk delete did: the ids passed to `delete`, in order, and those whose delete failed and were logged. */
  datatype DeleteReport = DeleteReport(attempted: seq<string>, warned: seq<string>)

  /** The ids of models[..n]. */
  ghost function IdsIn(models: seq<ModelRecord>, n: nat): set<string>
    requires n <= |models|
  {
    set j | 0 <= j < n :: models[j].id
  }

  ghost function Ids(models: seq<ModelRecord>): set<string> {
    IdsIn(models, |models|)
  }

  /** The model references the DTMI `d`. */
  ghost predicate References(m: ModelRecord, d: string) {
    ModelDependencies(m.definition).Some? && d in ModelDependencies(m.definition).value
  }

  /** The ids of the models among models[..n] that reference `d`. */
  ghost function ReferencersIn(models: seq<ModelRecord>, n: nat, d: string): set<string>
    requires n <= |models|
  {
    set j | 0 <= j < n && References(models[j], d) :: models[j].id
  }

  /** Every definition walks without error and names only listed models: building the dict does not raise. */
  ghost predicate Closed(models: seq<ModelRecord>) {
    forall i | 0 <= i < |models| :: ClosedAt(models, i)
  }

  ghost predicate ClosedAt(models: seq<ModelRecord>, i: nat)
    requires i < |models|
  {
    ModelDependencies(models[i].definition).Some? && ModelDependencies(models[i].definition).value <= Ids(models)
  }

  /** The dict as the source builds it: every listed id, mapped to the ids of its referencers. */
  ghost function ExpectedGraph(models: seq<ModelRecord>): Graph {
    map d | d in Ids(models) :: ReferencersIn(models, |models|, d)
  }

  /**
   * The reference graph is acyclic, witnessed by a rank that strictly drops
   * from a referenced model to each of its referencers. A model that
   * references itself, or a cycle of references, admits no such rank.
   */
  ghost predicate RankedBy(models: seq<ModelRecord>, rank: map<string, nat>) {
    && Ids(models) <= rank.Keys
    && forall i, d | 0 <= i < |models| && References(models[i], d) && d in Ids(models) ::
         rank[models[i].id] < rank[d]
  }

  /** The same acyclicity on the dict itself. */
  ghost predicate GraphRanked(g: Graph, rank: map<string, nat>) {
    && g.Keys <= rank.Keys
    && forall k, p | k in g && p in g[k] :: p in g && rank[p] < rank[k]
  }

  lemma ProperSubsetSmaller<T>(a: set<T>, b: set<T>)
    requires a < b
    ensures |a| < |b|
  {
    assert b - a != {};
    assert b == a + (b - a);
  }

  /** `xs` has no repeated element. */
  ghost predicate NoDuplicates(xs: seq<string>) {
    forall i, j | 0 <= i < j < |xs| :: xs[i] != xs[j]
  }

  /** Every id in `order` comes after all of its referencers in `g`. */
  ghost predicate ReferencersFirst(g: Graph, order: seq<string>) {
    forall i, p | 0 <= i < |order| && order[i] in g && p in g[order[i]] :: p in order[..i]
  }

  lemma ExpectedGraphRanked(models: seq<ModelRecord>, rank: map<string, nat>)
    requires Closed(models) && RankedBy(models, rank)
    ensures GraphRanked(ExpectedGraph(models), rank)
  {
    var g := ExpectedGraph(models);
    forall k, p | k in g && p in g[k] ensures p in g && rank[p] < rank[k] {
      var j :| 0 <= j < |models| && References(models[j], k) && models[j].id == p;
    }
  }

  /** A model that references itself cannot be ranked: `delete_all` would recurse on it without end. */
  lemma SelfReferenceIsUnranked(models: seq<ModelRecord>, i: nat, rank: map<string, nat>)
    requires i < |models| && References(models[i], models[i].id)
    ensures !RankedBy(models, rank)
  {
    assert models[i].id in Ids(models);
  }

  /** Adds `referencer` to the entry of each of `deps`; raises when one of them is not a key. */
  method AddReferencer(graph: Graph, referencer: string, deps: set<string>) returns (r: Result<Graph, BuildError>)
    ensures r.Success? <==> deps <= graph.Keys
    ensures r.Success? ==> r.value.Keys == graph.Keys
    ensures r.Success? ==> forall d | d in graph :: r.value[d] == graph[d] + (if d in deps then {referencer} else {})
  {
    var updated := graph;
    var pending := deps;
    while pending != {}
      invariant pending <= deps
      invariant updated.Keys == graph.Keys
      invariant deps - pending <= graph.Keys
      invariant forall d | d in updated :: updated[d] == graph[d] + (if d in deps - pending then {referencer} else {})
      decreases pending
    {
      var d :| d in pending;
      if d !in updated {
        return Failure(UnlistedDependency(d));
      }
      updated := updated[d := updated[d] + {referencer}];
      pending := pending - {d};
    }
    return Success(updated);
  }

  lemma ReferencersStep(models: seq<ModelRecord>, i: nat, d: string)
    requires i < |models|
    ensures ReferencersIn(models, i + 1, d) ==
      ReferencersIn(models, i, d) + (if References(models[i], d) then {models[i].id} else {})
  {
  }

  /** One iteration of the building loop: the i-th model is added as a referencer of each of its dependencies. */
  method AddModel(models: seq<ModelRecord>, i: nat, graph: Graph) returns (r: Result<Graph, BuildError>)
    requires i < |models|
    requires graph.Keys == Ids(models)
    requires forall d | d in graph :: graph[d] == ReferencersIn(models, i, d)
    ensures r.Success? <==> ClosedAt(models, i)
    ensures r.Success? ==> r.value.Keys == Ids(models)
    ensures r.Success? ==> forall d | d in r.value :: r.value[d] == ReferencersIn(models, i + 1, d)
  {
    var deps := ModelDependencies(models[i].definition);
    if deps.None? {
      return Failure(MalformedModel(models[i].id));
    }
    r := AddReferencer(graph, models[i].id, deps.value);
    if r.Success? {
      forall d | d in r.value ensures r.value[d] == ReferencersIn(models, i + 1, d) {
        ReferencersStep(models, i, d);
      }
    }
  }

  /**
   * Builds the dict: first every listed id with no referencers, then, model
   * by model, the model's id is added to the entry of each of its
   * dependencies. A malformed definition or a dependency that is not listed
   * raises before anything is deleted.
   */
  method BuildGraph(models: seq<ModelRecord>) returns (r: Result<Graph, BuildError>)
    ensures r.Success? <==> Closed(models)
    ensures r.Success? ==> r.value == ExpectedGraph(models)
  {
    var graph: Graph := map i | 0 <= i < |models| :: models[i].id := {};
    assert forall d | d in graph :: graph[d] == ReferencersIn(models, 0, d);
    for i := 0 to |models|
      invariant graph.Keys == Ids(models)
      invariant forall d | d in graph :: graph[d] == ReferencersIn(models, i, d)
      invariant forall j | 0 <= j < i :: ClosedAt(models, j)
    {
      var next := AddModel(models, i, graph);
      if next.Failure? {
        return next;
      }
      graph := next.value;
    }
    GraphComplete(models, graph);
    return Success(graph);
  }

  /** Once every model has been added, the dict is the one the references determine. */
  lemma GraphComplete(models: seq<ModelRecord>, graph: Graph)
    requires graph.Keys == Ids(models)
    requires forall d | d in graph :: graph[d] == ReferencersIn(models, |models|, d)
    ensures graph == ExpectedGraph(models)
  {
    assert graph.Keys == ExpectedGraph(models).Keys;
  }

  /**
   * The state of one bulk delete: the dict being drained, and the log of
   * what was passed to the service's delete. `failing` are the ids whose
   * delete call raises.
   */
  class BulkDelete {
    var parsedModels: Graph
    var attempted: seq<string>
    var warned: seq<string>
    const failing: set<string>
    ghost const original: Graph
    ghost const rank: map<string, nat>

    ghost predicate Valid()
      reads this
    {
      && GraphRanked(original, rank)
      && parsedModels.Keys <= original.Keys
      && (forall k | k in parsedModels :: parsedModels[k] == original[k])
      && NoDuplicates(attempted)
      && (forall x | x in attempted :: x in original && x !in parsedModels)
      && (forall k | k in original && k !in parsedModels :: k in attempted)
      && ReferencersFirst(original, attempted)
      && (forall x :: x in warned <==> x in attempted && x in failing)
    }

    constructor (graph: Graph, failing: set<string>, ghost rank: map<string, nat>)
      requires GraphRanked(graph, rank)
      ensures Valid()
      ensures parsedModels == original == graph && this.rank == rank && this.failing == failing
      ensures attempted == [] && warned == []
    {
      parsedModels, attempted, warned := graph, [], [];
      this.failing, original, this.rank := failing, graph, rank;
    }

    /** `id` and every model that references it, directly or through other referencers, in the original dict. */
    ghost function Up(id: string): set<string>
      requires GraphRanked(original, rank) && id in original
      decreases rank[id]
    {
      {id} + (set p, q | p in original[id] && q in Up(p) :: q)
    }

    /** The union of `Up` over `ids`. */
    ghost function UpOf(ids: set<string>): set<string>
      requires GraphRanked(original, rank) && ids <= original.Keys
    {
      set p, q | p in ids && q in Up(p) :: q
    }

    lemma UpOfAdd(ids: set<string>, p: string)
      requires GraphRanked(original, rank) && ids <= original.Keys && p in original
      ensures UpOf(ids + {p}) == UpOf(ids) + Up(p)
    {
      forall q | q in Up(p) ensures q in UpOf(ids + {p}) {
        assert p in ids + {p};
      }
    }

    lemma UpUnfold(id: string)
      requires GraphRanked(original, rank) && id in original
      ensures Up(id) == UpOf(original[id]) + {id}
    {
    }

    static lemma DoneGrows(all: set<string>, parents: set<string>, p: string)
      requires p in parents && p in all
      ensures all - (parents - {p}) == (all - parents) + {p}
    {
    }

    /** Set bookkeeping of one step of `delete_parents`: removing `up` after `done` removes `total`. */
    static lemma RemoveStep(start: set<string>, before: set<string>, after: set<string>,
                            done: set<string>, up: set<string>, total: set<string>)
      requires before == start - done && total == done + up
      requires after == before - up || (after == before && forall q | q in up :: q !in before)
      ensures after == start - total
    {
    }

    /**
     * What has left the dict is closed under referencers: once a model has
     * been deleted, so have all the models above it.
     */
    lemma {:induction false} UpAbsent(k: string)
      requires Valid() && k in original && k !in parsedModels
      ensures forall q | q in Up(k) :: q !in parsedModels
      decreases rank[k]
    {
      assert k in attempted;
      var i :| 0 <= i < |attempted| && attempted[i] == k;
      forall p | p in original[k] ensures forall q | q in Up(p) :: q !in parsedModels {
        assert p in attempted[..i];
        UpAbsent(p);
      }
    }

    /**
     * `delete_parents`: nothing when `id` has already left the dict;
     * otherwise every referencer still in the dict first, then `id` itself.
     */
    method DeleteParents(id: string)
      requires Valid() && id in original
      modifies this
      decreases rank[id], 1
      ensures Valid()
      ensures id !in parsedModels
      ensures parsedModels.Keys <= old(parsedModels).Keys
      ensures old(attempted) <= attempted
      ensures forall k | k in old(parsedModels) && k !in parsedModels :: rank[k] <= rank[id]
      ensures id !in old(parsedModels) ==> parsedModels == old(parsedModels) && attempted == old(attempted)
      ensures parsedModels.Keys == old(parsedModels).Keys - Up(id)
    {
      if id !in parsedModels {
        UpAbsent(id);
        return;
      }
      DeleteReferencers(id);
      ghost var before := parsedModels.Keys;
      UpUnfold(id);
      Retire(id);
      RemoveStep(old(parsedModels).Keys, before, parsedModels.Keys, UpOf(original[id]), {id}, Up(id));
    }

    /** The loop of `delete_parents`: each referencer of `id` still in the dict, with its own referencers before it. */
    method DeleteReferencers(id: string)
      requires Valid() && id in parsedModels
      modifies this
      decreases rank[id], 0
      ensures Valid()
      ensures id in parsedModels
      ensures forall p | p in original[id] :: p !in parsedModels
      ensures old(attempted) <= attempted
      ensures forall k | k in old(parsedModels) && k !in parsedModels :: rank[k] < rank[id]
      ensures parsedModels.Keys == old(parsedModels).Keys - UpOf(original[id])
    {
      assert GraphRanked(original, rank) && original[id] <= original.Keys;
      var parents := parsedModels[id];
      while parents != {}
        invariant Valid()
        invariant id in parsedModels
        invariant parents <= original[id]
        invariant forall p | p in original[id] && p !in parents :: p !in parsedModels
        invariant old(attempted) <= attempted
        invariant forall k | k in old(parsedModels) && k !in parsedModels :: rank[k] < rank[id]
        invariant parsedModels.Keys == old(parsedModels).Keys - UpOf(original[id] - parents)
        decreases parents
      {
        var p :| p in parents;
        ghost var before := parsedModels.Keys;
        ghost var done := original[id] - parents;
        UpOfAdd(done, p);
        if p in parsedModels {
          DeleteParents(p);
        } else {
          UpAbsent(p);
        }
        RemoveStep(old(parsedModels).Keys, before, parsedModels.Keys, UpOf(done), Up(p), UpOf(done + {p}));
        DoneGrows(original[id], parents, p);
        parents := parents - {p};
      }
      assert original[id] - parents == original[id];
    }

    /** Removes `id` from the dict and calls `delete` on it, logging a warning when the call fails. */
    method Retire(id: string)
      requires Valid() && id in parsedModels
      requires forall p | p in original[id] :: p !in parsedModels
      modifies this
      ensures Valid()
      ensures parsedModels == old(parsedModels) - {id}
      ensures attempted == old(attempted) + [id]
    {
      ghost var before := attempted;
      parsedModels := parsedModels - {id};
      attempted := attempted + [id];
      forall i, p | 0 <= i < |attempted| && attempted[i] in original && p in original[attempted[i]]
        ensures p in attempted[..i]
      {
        if i < |before| {
          assert attempted[..i] == before[..i];
        } else {
          assert attempted[..i] == before;
        }
      }
      if id in failing {
        warned := warned + [id];
      }
    }

    /** The outer loop: delete some remaining id until the dict is empty. */
    method Drain()
      requires Valid()
      modifies this
      ensures Valid() && parsedModels == map[]
    {
      while |parsedModels| > 0
        invariant Valid()
        decreases |parsedModels|
      {
        var id :| id in parsedModels;
        ghost var before := parsedModels.Keys;
        DeleteParents(id);
        ProperSubsetSmaller(parsedModels.Keys, before);
      }
    }
  }

  /**
   * `delete_all` on the listed models. It raises before any delete when the
   * dict cannot be built; otherwise every listed id is passed to `delete`
   * exactly once, after all the models that reference it, and exactly the
   * failing deletes are logged.
   */
  method DeleteAll(models: seq<ModelRecord>, failing: set<string>, ghost rank: map<string, nat>)
    returns (r: Result<DeleteReport, BuildError>)
    requires Closed(models) ==> RankedBy(models, rank)
    ensures r.Success? <==> Closed(models)
    ensures r.Success? ==> NoDuplicates(r.value.attempted)
    ensures r.Success? ==> forall x :: x in r.value.attempted <==> x in Ids(models)
    ensures r.Success? ==> forall i, j | 0 <= i < |r.value.attempted| && 0 <= j < |models| && References(models[j], r.value.attempted[i]) ::
      models[j].id in r.value.attempted[..i]
    ensures r.Success? ==> forall x :: x in r.value.warned <==> x in r.value.attempted && x in failing
  {
    var built := BuildGraph(models);
    if built.Failure? {
      return Failure(built.error);
    }
    ExpectedGraphRanked(models, rank);
    var deletion := new BulkDelete(built.value, failing, rank);
    deletion.Drain();
    var report := DeleteReport(deletion.attempted, deletion.warned);
    forall i, j | 0 <= i < |report.attempted| && 0 <= j < |models| && References(models[j], report.attempted[i])
      ensures models[j].id in report.attempted[..i]
    {
      var d := report.attempted[i];
      assert d in report.attempted;
      assert d in Ids(models);
      assert models[j].id in ReferencersIn(models, |models|, d);
      assert models[j].id in ExpectedGraph(models)[d];
    }
    return Success(report);
  }
}
