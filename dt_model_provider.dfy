/**
 * Argument handling of the Digital Twins model provider: the payload of
 * `add`, the file filter of `_process_directory`, the 403 translation of a
 * failed `add`, and the JSON patch `update` sends.
 *
 * Command-line arguments are strings; Python treats `None` and "" alike as
 * "not given", so both are the empty string here. Reading and parsing files
 * is outside the model: `process_json_arg` is represented by its result.
 */
module DigitalTwinsModelProvider {
  import opened Wrappers
  import opened Json

  /** How `add` fails: neither argument given, a 403 from the service, or any other service error. */
  datatype AddError = MissingArgument | Forbidden | ServiceError(status: int)

  /** One entry of the directory scan: its file name and the JSON its file parses to. */
  datatype DirEntry = DirEntry(name: string, content: Json)

  predicate EndsWith(s: string, suffix: string) {
    |suffix| <= |s| && s[|s| - |suffix|..] == suffix
  }

  /** A model file is named `*.json` or `*.dtdl` (case-sensitive). */
  predicate IsModelFile(name: string) {
    EndsWith(name, ".json") || EndsWith(name, ".dtdl")
  }

  /** The model files of a scan, in scan order: the specification of `_process_directory`. */
  function ModelFiles(scan: seq<DirEntry>): seq<Json> {
    if scan == [] then []
    else
      var rest := ModelFiles(scan[..|scan| - 1]);
      if IsModelFile(scan[|scan| - 1].name) then rest + [scan[|scan| - 1].content] else rest
  }

  /** `_process_directory`: the parsed content of every `.json` / `.dtdl` entry, in scan order. */
  method ProcessDirectory(scan: seq<DirEntry>) returns (payload: seq<Json>)
    ensures payload == ModelFiles(scan)
  {
    payload := [];
    for i := 0 to |scan|
      invariant payload == ModelFiles(scan[..i])
    {
      assert scan[..i + 1][..i] == scan[..i];
      if !IsModelFile(scan[i].name) {
        continue;
      }
      payload := payload + [scan[i].content];
    }
    assert scan[..|scan|] == scan;
  }

  lemma {:induction false} ModelFilesConcat(a: seq<DirEntry>, b: seq<DirEntry>)
    ensures ModelFiles(a + b) == ModelFiles(a) + ModelFiles(b)
    decreases |b|
  {
    if b == [] {
      assert a + b == a;
    } else {
      var b' := b[..|b| - 1];
      assert (a + b)[..|a + b| - 1] == a + b';
      ModelFilesConcat(a, b');
    }
  }

  /** The filter keeps exactly the entries whose names end in `.json` or `.dtdl`: a skipped file contributes nothing, a kept one its content. */
  lemma ModelFilesOfOne(e: DirEntry)
    ensures IsModelFile(e.name) ==> ModelFiles([e]) == [e.content]
    ensures !IsModelFile(e.name) ==> ModelFiles([e]) == []
  {
    assert [e][..0] == [];
  }

  /** Every payload element is the content of a model file of the scan, and every model file's content is in the payload. */
  lemma {:induction false} ModelFilesMembership(scan: seq<DirEntry>, x: Json)
    ensures x in ModelFiles(scan) <==> exists i :: 0 <= i < |scan| && IsModelFile(scan[i].name) && scan[i].content == x
    decreases |scan|
  {
    if scan != [] {
      var init := scan[..|scan| - 1];
      ModelFilesMembership(init, x);
      if exists i :: 0 <= i < |scan| && IsModelFile(scan[i].name) && scan[i].content == x {
        var i :| 0 <= i < |scan| && IsModelFile(scan[i].name) && scan[i].content == x;
        if i < |scan| - 1 {
          assert init[i] == scan[i];
        }
      }
      if exists i :: 0 <= i < |init| && IsModelFile(init[i].name) && init[i].content == x {
        var i :| 0 <= i < |init| && IsModelFile(init[i].name) && init[i].content == x;
        assert scan[i] == init[i];
      }
    }
  }

  /** The payload is never longer than the scan. */
  lemma {:induction false} ModelFilesBounded(scan: seq<DirEntry>)
    ensures |ModelFiles(scan)| <= |scan|
    decreases |scan|
  {
    if scan != [] {
      ModelFilesBounded(scan[..|scan| - 1]);
    }
  }

  /**
   * The payload of `add`. `models` and `fromDirectory` are the raw
   * arguments ("" when not given); `modelsContent` is what the `models`
   * argument parses to and `scan` what the directory holds. With `models`
   * given, a list is sent as it is, a dict as a one-element list, and any
   * other JSON value yields an empty payload.
   */
  function AddPayload(models: string, fromDirectory: string, modelsContent: Json, scan: seq<DirEntry>): (r: Result<seq<Json>, AddError>)
    ensures r.Failure? <==> models == "" && fromDirectory == ""
    ensures r.Failure? ==> r.error == MissingArgument
    ensures models != "" && modelsContent.JObj? ==> r == Success([modelsContent])
    ensures models != "" && modelsContent.JArr? ==> r == Success(modelsContent.items)
    ensures models != "" && !modelsContent.JObj? && !modelsContent.JArr? ==> r == Success([])
    ensures models == "" && fromDirectory != "" ==> r == Success(ModelFiles(scan))
  {
    if models == "" && fromDirectory == "" then Failure(MissingArgument)
    else if models != "" then
      match modelsContent
      case JArr(items) => Success(items)
      case JObj(_) => Success([modelsContent])
      case _ => Success([])
    else Success(ModelFiles(scan))
  }

  /** When both arguments are given, `models` wins: the directory plays no part. */
  lemma ModelsWin(models: string, dir1: string, dir2: string, content: Json, scan1: seq<DirEntry>, scan2: seq<DirEntry>)
    requires models != ""
    ensures AddPayload(models, dir1, content, scan1) == AddPayload(models, dir2, content, scan2)
  {
  }

  /** A failed `add` call: 403 becomes the dedicated forbidden error, any other status the generic service error. */
  function AddCallError(status: int): (e: AddError)
    ensures e == Forbidden <==> status == 403
    ensures e != MissingArgument
    ensures e.ServiceError? ==> e.status == status
  {
    if status == 403 then Forbidden else ServiceError(status)
  }

  /**
   * `add` as a whole: the payload, then the service call whose outcome is
   * `callStatus` (None when it succeeds). The result is what was sent.
   */
  function Add(models: string, fromDirectory: string, modelsContent: Json, scan: seq<DirEntry>, callStatus: Option<int>): (r: Result<seq<Json>, AddError>)
    ensures models == "" && fromDirectory == "" ==> r == Failure(MissingArgument)
    ensures r.Success? <==> AddPayload(models, fromDirectory, modelsContent, scan).Success? && callStatus.None?
    ensures r.Success? ==> r.value == AddPayload(models, fromDirectory, modelsContent, scan).value
    ensures AddPayload(models, fromDirectory, modelsContent, scan).Success? && callStatus == Some(403) ==> r == Failure(Forbidden)
  {
    var payload :- AddPayload(models, fromDirectory, modelsContent, scan);
    if callStatus.Some? then Failure(AddCallError(callStatus.value)) else Success(payload)
  }

  /** The JSON patch `update` sends: a single `replace` of `/decommissioned`. */
  function UpdatePatch(decommission: bool): (patch: seq<Json>)
    ensures |patch| == 1 && patch[0].JObj?
  {
    [JObj(map["op" := JStr("replace"), "path" := JStr("/decommissioned"), "value" := JBool(decommission)])]
  }

  /**
   * The member an RFC 6901 path names when it has a single
   * reference token with no escapes: "/name" names `name`.
   */
  function TopLevelMember(path: string): (r: Option<string>)
    ensures r.Some? ==> path == "/" + r.value
  {
    if |path| > 0 && path[0] == '/' && '/' !in path[1..] && '~' !in path[1..] then Some(path[1..]) else None
  }

  /**
   * The effect of a patch of `replace` operations on top-level members of a
   * JSON object, as section 4.3 of RFC 6902 defines it: the target member
   * must exist and its value is replaced. Other operations or deeper paths
   * fail here.
   */
  function ApplyReplaces(doc: Object, patch: seq<Json>): Option<Object>
    decreases |patch|
  {
    if patch == [] then Some(doc)
    else
      match patch[0]
      case JObj(op) =>
        if "op" !in op || op["op"] != JStr("replace") || "path" !in op || !op["path"].JStr? || "value" !in op then None
        else
          var member := TopLevelMember(op["path"].s);
          if member.Some? && member.value in doc then ApplyReplaces(doc[member.value := op["value"]], patch[1..]) else None
      case _ => None
  }

  /** Applied to a model that has a `decommissioned` flag, the patch sets the flag and changes nothing else. */
  lemma UpdatePatchSetsFlag(model: Object, decommission: bool)
    requires "decommissioned" in model
    ensures var r := ApplyReplaces(model, UpdatePatch(decommission));
      && r.Some?
      && r.value.Keys == model.Keys
      && r.value["decommissioned"] == JBool(decommission)
      && forall k | k in model && k != "decommissioned" :: r.value[k] == model[k]
  {
    var path := "/decommissioned";
    assert path[1..] == "decommissioned";
    assert TopLevelMember(path) == Some("decommissioned");
    var patch := UpdatePatch(decommission);
    assert patch[1..] == [];
    var updated := model["decommissioned" := JBool(decommission)];
    assert ApplyReplaces(model, patch) == ApplyReplaces(updated, []);
  }

  /** A service call `update` makes. */
  datatype ModelCall = UpdateModel(id: string, patch: seq<Json>) | GetModel(id: string, includeDefinition: bool)

  /**
   * `update`: the patch call, then, when it succeeds, a `get` of the same
   * model without its definition. `updateFails` is the outcome of the patch
   * call; a failure is translated and nothing else is called.
   */
  function Update(id: string, decommission: bool, updateFails: bool): (calls: seq<ModelCall>)
    ensures |calls| >= 1 && calls[0] == UpdateModel(id, UpdatePatch(decommission))
    ensures updateFails <==> |calls| == 1
    ensures !updateFails ==> calls == [UpdateModel(id, UpdatePatch(decommission)), GetModel(id, false)]
  {
    var patch := UpdatePatch(decommission);
    if updateFails then [UpdateModel(id, patch)] else [UpdateModel(id, patch), GetModel(id, false)]
  }
}
