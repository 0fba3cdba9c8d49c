/**
 * Dependency resolution for Digital Twins models (DTDL v2 interfaces).
 *
 * A model is a JSON object. It depends on the DTMIs named by the `schema` of
 * every `contents` entry whose `@type` is "Component", and on the DTMIs named
 * by its `extends` property. Both positions hold either a DTMI string, an
 * embedded model object (whose own dependencies count, but not its `@id`),
 * or a list of those; list elements that are neither are ignored.
 */
module DigitalTwinsModelDependencies {
  import opened Wrappers
  import opened Json

  /**
   * The walk over a model. `None` stands for the exception Python raises on
   * a malformed model: a `contents` that cannot be iterated as a list of
   * dicts, an entry without `@type`, or a Component entry without `schema`.
   * The result is a set: the walk collects DTMIs into a set, so the list it
   * returns has no duplicates and no meaningful order.
   */
  function ModelDependencies(model: Object): (r: Option<set<string>>)
    ensures "contents" !in model && "extends" !in model ==> r.Some? && r.value == {}
    ensures r.Some? && "extends" in model && model["extends"].JStr? ==> model["extends"].s in r.value
    decreases JObj(model), 3
  {
    var fromContents :- ContentsDependencies(model);
    var fromExtends :- if "extends" in model then ItemDependencies(model["extends"]) else Some({});
    Some(fromContents + fromExtends)
  }

  /** The dependencies contributed by `contents`; iterating a non-list raises unless it is empty. */
  function ContentsDependencies(model: Object): Option<set<string>>
    decreases JObj(model), 2
  {
    if "contents" !in model then Some({})
    else
      match model["contents"]
      case JArr(entries) => EntriesDependencies(entries, 0)
      case JStr(s) => if s == "" then Some({}) else None
      case JObj(fields) => if fields == map[] then Some({}) else None
      case _ => None
  }

  /** The dependencies contributed by entries[k..] of a `contents` list. */
  function EntriesDependencies(entries: seq<Json>, k: nat): Option<set<string>>
    requires k <= |entries|
    decreases JArr(entries), 1, |entries| - k
  {
    if k == |entries| then Some({})
    else
      match entries[k]
      case JObj(entry) =>
        if "@type" !in entry then None
        else if entry["@type"] != JStr("Component") then EntriesDependencies(entries, k + 1)
        else if "schema" !in entry then None
        else
          var here :- ItemDependencies(entry["schema"]);
          var rest :- EntriesDependencies(entries, k + 1);
          Some(here + rest)
      case _ => None
  }

  /** One dependency expression: a DTMI, an embedded model, a list of those, or anything else (ignored). */
  function ItemDependencies(item: Json): Option<set<string>>
    decreases item, 4
  {
    match item
    case JStr(s) => Some({s})
    case JObj(m) => ModelDependencies(m)
    case JArr(list) => ListDependencies(list, 0)
    case _ => Some({})
  }

  /** The dependencies contributed by list[k..] of a list-valued dependency expression. */
  function ListDependencies(list: seq<Json>, k: nat): Option<set<string>>
    requires k <= |list|
    decreases JArr(list), 3, |list| - k
  {
    if k == |list| then Some({})
    else
      var here :- match list[k]
        case JStr(s) => Some({s})
        case JObj(m) => ModelDependencies(m)
        case _ => Some({});
      var rest :- ListDependencies(list, k + 1);
      Some(here + rest)
  }

  // ---------------------------------------------------------------------------
  // What each position contributes, stated without the walk's bookkeeping.

  /** A `contents` entry is well formed when it is a dict with `@type`, and a Component entry also has a `schema` that walks without error. */
  predicate EntryWalks(entry: Json) {
    && entry.JObj?
    && "@type" in entry.fields
    && (entry.fields["@type"] == JStr("Component") ==>
          "schema" in entry.fields && ItemDependencies(entry.fields["schema"]).Some?)
  }

  /** The DTMI `s` comes from the `schema` of a Component entry. */
  predicate ComponentNames(entry: Json, s: string) {
    && entry.JObj?
    && "@type" in entry.fields
    && entry.fields["@type"] == JStr("Component")
    && "schema" in entry.fields
    && ItemDependencies(entry.fields["schema"]).Some?
    && s in ItemDependencies(entry.fields["schema"]).value
  }

  /** What one element of a list-valued expression contributes: strings and embedded models only. */
  function ElementDependencies(x: Json): Option<set<string>> {
    match x
    case JStr(s) => Some({s})
    case JObj(m) => ModelDependencies(m)
    case _ => Some({})
  }

  lemma {:induction false} EntriesDependenciesMeaning(entries: seq<Json>, k: nat, s: string)
    requires k <= |entries|
    ensures EntriesDependencies(entries, k).Some? <==> forall j :: k <= j < |entries| ==> EntryWalks(entries[j])
    ensures EntriesDependencies(entries, k).Some? ==>
      (s in EntriesDependencies(entries, k).value <==> exists j :: k <= j < |entries| && ComponentNames(entries[j], s))
    decreases |entries| - k
  {
    if k < |entries| {
      EntriesDependenciesMeaning(entries, k + 1, s);
      if EntriesDependencies(entries, k).Some? && s in EntriesDependencies(entries, k).value && !ComponentNames(entries[k], s) {
        var j :| k + 1 <= j < |entries| && ComponentNames(entries[j], s);
      }
    }
  }

  lemma {:induction false} ListDependenciesMeaning(list: seq<Json>, k: nat, s: string)
    requires k <= |list|
    ensures ListDependencies(list, k).Some? <==> forall j :: k <= j < |list| ==> ElementDependencies(list[j]).Some?
    ensures ListDependencies(list, k).Some? ==>
      (s in ListDependencies(list, k).value <==> exists j :: k <= j < |list| && s in ElementDependencies(list[j]).value)
    decreases |list| - k
  {
    if k < |list| {
      ListDependenciesMeaning(list, k + 1, s);
      assert ElementDependencies(list[k]) == match list[k] case JStr(t) => Some({t}) case JObj(m) => ModelDependencies(m) case _ => Some({});
    }
  }

  /**
   * The walk in terms of positions: a DTMI is a dependency exactly when it
   * comes from the schema of a Component entry or from `extends`.
   */
  lemma ModelDependenciesMeaning(model: Object, s: string)
    requires ModelDependencies(model).Some?
    ensures s in ModelDependencies(model).value <==>
      || ("contents" in model && model["contents"].JArr? &&
          exists j :: 0 <= j < |model["contents"].items| && ComponentNames(model["contents"].items[j], s))
      || ("extends" in model && s in ItemDependencies(model["extends"]).value)
  {
    if "contents" in model && model["contents"].JArr? {
      EntriesDependenciesMeaning(model["contents"].items, 0, s);
    }
  }

  /** A DTMI string given as `extends`, or as an element of an `extends` list, is a dependency. */
  lemma ExtendsStringsIncluded(model: Object, s: string)
    requires ModelDependencies(model).Some?
    requires "extends" in model
    requires model["extends"] == JStr(s) || (model["extends"].JArr? && JStr(s) in model["extends"].items)
    ensures s in ModelDependencies(model).value
  {
    if model["extends"].JArr? {
      var list := model["extends"].items;
      var j :| 0 <= j < |list| && list[j] == JStr(s);
      ListDependenciesMeaning(list, 0, s);
    }
  }

  /** A Component entry contributes the DTMIs of its schema; a DTMI schema is itself a dependency. */
  lemma ComponentSchemaIncluded(model: Object, j: nat, s: string)
    requires ModelDependencies(model).Some?
    requires "contents" in model && model["contents"].JArr? && j < |model["contents"].items|
    requires ComponentNames(model["contents"].items[j], s)
    ensures s in ModelDependencies(model).value
  {
    ModelDependenciesMeaning(model, s);
  }

  /**
   * Entries whose `@type` is not "Component" contribute nothing: appending
   * one to `contents` leaves the dependencies unchanged.
   */
  lemma NonComponentEntryIgnored(model: Object, entries: seq<Json>, other: Object)
    requires "contents" in model && model["contents"] == JArr(entries)
    requires "@type" in other && other["@type"] != JStr("Component")
    ensures ModelDependencies(model["contents" := JArr(entries + [JObj(other)])]) == ModelDependencies(model)
  {
    EntriesAppendNonComponent(entries, 0, JObj(other));
  }

  lemma {:induction false} EntriesAppendNonComponent(entries: seq<Json>, k: nat, other: Json)
    requires k <= |entries|
    requires other.JObj? && "@type" in other.fields && other.fields["@type"] != JStr("Component")
    ensures EntriesDependencies(entries + [other], k) == EntriesDependencies(entries, k)
    decreases |entries| - k
  {
    var extended := entries + [other];
    assert extended[k] == if k < |entries| then entries[k] else other;
    if k < |entries| {
      EntriesAppendNonComponent(entries, k + 1, other);
    } else {
      assert EntriesDependencies(extended, k + 1) == Some({});
    }
  }

  /**
   * An embedded model given as `extends` contributes its own dependencies and
   * nothing else (in particular not its `@id`): the walk succeeds exactly when
   * `contents` and the embedded model both walk, and the result is the union.
   */
  lemma EmbeddedModelContributesItsDependencies(model: Object, embedded: Object)
    requires "extends" in model && model["extends"] == JObj(embedded)
    ensures ModelDependencies(model).Some? <==> ContentsDependencies(model).Some? && ModelDependencies(embedded).Some?
    ensures ModelDependencies(model).Some? ==>
      ModelDependencies(model).value == ContentsDependencies(model).value + ModelDependencies(embedded).value
  {
  }

  /**
   * An embedded model at any position of a list-valued expression (an
   * `extends` list or a Component schema list): the list walks only if the
   * embedded model does, and then every DTMI of the embedded model is one of
   * the list's.
   */
  lemma EmbeddedListElementContributes(list: seq<Json>, j: nat, embedded: Object)
    requires j < |list| && list[j] == JObj(embedded)
    requires ListDependencies(list, 0).Some?
    ensures ModelDependencies(embedded).Some?
    ensures ModelDependencies(embedded).value <= ListDependencies(list, 0).value
  {
    ListDependenciesMeaning(list, 0, "");
    assert ElementDependencies(list[j]).Some?;
    forall s | s in ModelDependencies(embedded).value ensures s in ListDependencies(list, 0).value {
      ListDependenciesMeaning(list, 0, s);
      assert s in ElementDependencies(list[j]).value;
    }
  }

  /** Elements of an `extends` list that are neither strings nor dicts (numbers, nested lists, …) are ignored. */
  lemma {:induction false} OtherListElementsIgnored(list: seq<Json>, k: nat, other: Json)
    requires k <= |list|
    requires !other.JStr? && !other.JObj?
    ensures ListDependencies(list + [other], k) == ListDependencies(list, k)
    decreases |list| - k
  {
    var extended := list + [other];
    assert extended[k] == if k < |list| then list[k] else other;
    if k < |list| {
      OtherListElementsIgnored(list, k + 1, other);
    } else {
      assert ListDependencies(extended, k + 1) == Some({});
      assert ListDependencies(extended, k).Some? && ListDependencies(extended, k).value == {};
    }
  }

  /** A concrete case: the embedded model's `@id` is not reported, its `extends` DTMI is. */
  lemma EmbeddedIdNotReported()
    ensures var r := ModelDependencies(map[
      "@id" := JStr("dtmi:a;1"),
      "extends" := JArr([JStr("dtmi:b;1"), JObj(map["@id" := JStr("dtmi:c;1"), "extends" := JStr("dtmi:d;1")]), JNum(7)])
    ]);
    r.Some? && r.value == {"dtmi:b;1", "dtmi:d;1"}
  {
    var inner := map["@id" := JStr("dtmi:c;1"), "extends" := JStr("dtmi:d;1")];
    assert ModelDependencies(inner).Some? && ModelDependencies(inner).value == {"dtmi:d;1"};
    var list := [JStr("dtmi:b;1"), JObj(inner), JNum(7)];
    assert ListDependencies(list, 3) == Some({});
    assert ListDependencies(list, 2).Some? && ListDependencies(list, 2).value == {};
    assert ListDependencies(list, 1).Some? && ListDependencies(list, 1).value == {"dtmi:d;1"};
    assert ListDependencies(list, 0).Some? && ListDependencies(list, 0).value == {"dtmi:b;1", "dtmi:d;1"};
  }
}
