/**
 * The edit-batch builder of src/model/apply-edits/index.js: a batch gathers
 * the records to add, the records to update and the identifiers to delete
 * for one feature layer, remembers which identifier regime (global IDs or
 * object IDs) the request will use, previews itself with `handle()` and
 * builds the query that `exec()` posts to the layer's `applyEdits` endpoint.
 */
module EditBatch {
  import opened Wrappers
  import opened StringJoin

  /** The caller's argument to `add` or `update`, before parsing. */
  type RawFeatures
  /** The caller's argument to `delete`, before parsing. */
  type RawIds
  /** A record as the parsers hand it to the service. */
  type Feature
  /** An identifier of a record to delete (a global ID or an object ID). */
  type Identifier
  /** The field description of the layer, supplied at construction. */
  type Schema
  /** The service's identifier of a feature layer. */
  type LayerId

  /** The target layer: the fields of `featureLayer` that `handle()` reads. */
  datatype FeatureLayer = FeatureLayer(id: LayerId, serviceUrl: string, name: string)

  /** What a parser throws when it rejects its input. */
  datatype ValidationError = ValidationError(message: string)

  /**
   * The functions the batch calls but does not define: the three parsers
   * imported from parse-create, parse-update and parse-delete,
   * `JSON.stringify` on a list of records, and the template-string
   * conversion `${id}` of one identifier.
   */
  datatype Collaborators = Collaborators(
    parseCreate: (RawFeatures, Schema) -> Result<seq<Feature>, ValidationError>,
    parseUpdate: (RawFeatures, Schema) -> Result<seq<Feature>, ValidationError>,
    parseDelete: RawIds -> Result<seq<Identifier>, ValidationError>,
    stringify: seq<Feature> -> string,
    show: Identifier -> string)

  /** The `payload` part of what `handle()` returns. */
  datatype Payload = Payload(
    id: LayerId,
    adds: Option<seq<Feature>>,
    updates: Option<seq<Feature>>,
    deletes: Option<seq<Identifier>>)

  /** What `handle()` returns: where the edits go and what they are. */
  datatype HandleResult = HandleResult(serviceUrl: string, name: string, payload: Payload)

  /** The `query` record that `exec()` posts, field for field. */
  datatype Query = Query(
    f: string,
    useGlobalIds: bool,
    rollbackOnFailure: bool,
    adds: Option<string>,
    updates: Option<string>,
    deletes: Option<string>)

  /** `xs.length ? xs : null`: a list is passed on only when it has elements. */
  function NonEmpty<T>(xs: seq<T>): (r: Option<seq<T>>)
    ensures r.None? <==> |xs| == 0
    ensures r.Some? ==> r.value == xs
  {
    if |xs| > 0 then Some(xs) else None
  }

  /** The template string `"${s}"`: `s` between double quotes. */
  function Quote(s: string): (q: string)
    ensures |q| == |s| + 2 && q[0] == '"' && q[|q| - 1] == '"'
    ensures q[1..|q| - 1] == s
  {
    "\"" + s + "\""
  }

  /** How one identifier is written in the delete list under each regime. */
  function RenderId(id: Identifier, useGlobalIds: bool, show: Identifier -> string): (r: string)
    ensures !useGlobalIds ==> r == show(id)
    ensures useGlobalIds ==> |r| == |show(id)| + 2 && r[0] == '"' && r[|r| - 1] == '"'
    ensures useGlobalIds ==> r[1..|r| - 1] == show(id)
  {
    if useGlobalIds then Quote(show(id)) else show(id)
  }

  /** `ids.map(...)`: one rendering per identifier, in order. */
  function RenderIds(ids: seq<Identifier>, useGlobalIds: bool, show: Identifier -> string): (r: seq<string>)
    ensures |r| == |ids|
    ensures forall i :: 0 <= i < |ids| ==> r[i] == RenderId(ids[i], useGlobalIds, show)
  {
    if |ids| == 0 then []
    else [RenderId(ids[0], useGlobalIds, show)] + RenderIds(ids[1..], useGlobalIds, show)
  }

  /**
   * `deleteIds` in `exec()`: absent when nothing is to be deleted, otherwise
   * the comma-joined renderings of the identifiers, quoted under the
   * global-ID regime and bare under the object-ID regime.
   */
  function RenderDeletes(ids: seq<Identifier>, useGlobalIds: bool, show: Identifier -> string): (r: Option<string>)
    ensures r.None? <==> |ids| == 0
    ensures r.Some? ==> r.value == Join(RenderIds(ids, useGlobalIds, show), ',')
  {
    if |ids| == 0 then None else Some(Join(RenderIds(ids, useGlobalIds, show), ','))
  }

  /** `s` without its surrounding double quotes, when it has them. */
  function Unquote(s: string): string
  {
    if |s| >= 2 && s[0] == '"' && s[|s| - 1] == '"' then s[1..|s| - 1] else s
  }

  /** How a reader of a delete list recovers the text of each identifier. */
  function ReadDeleteIds(list: string, useGlobalIds: bool): (texts: seq<string>)
    ensures |texts| == |Split(list, ',')|
  {
    var pieces := Split(list, ',');
    seq(|pieces|, i requires 0 <= i < |pieces| => if useGlobalIds then Unquote(pieces[i]) else pieces[i])
  }

  /** The object literal of `handle()` for a layer and three pending lists. */
  function PreviewFor(layer: FeatureLayer, adds: seq<Feature>, updates: seq<Feature>,
                      deletes: seq<Identifier>): (h: HandleResult)
    ensures h.serviceUrl == layer.serviceUrl && h.name == layer.name && h.payload.id == layer.id
    ensures h.payload.adds.None? <==> |adds| == 0
    ensures h.payload.adds.Some? ==> h.payload.adds.value == adds
    ensures h.payload.updates.None? <==> |updates| == 0
    ensures h.payload.updates.Some? ==> h.payload.updates.value == updates
    ensures h.payload.deletes.None? <==> |deletes| == 0
    ensures h.payload.deletes.Some? ==> h.payload.deletes.value == deletes
  {
    HandleResult(layer.serviceUrl, layer.name,
      Payload(layer.id, NonEmpty(adds), NonEmpty(updates), NonEmpty(deletes)))
  }

  /** The `query` record of `exec()` for three pending lists and a regime. */
  function QueryFor(adds: seq<Feature>, updates: seq<Feature>, deletes: seq<Identifier>,
                    useGlobalIds: bool, env: Collaborators): (q: Query)
    ensures q.f == "json"
    ensures q.useGlobalIds == useGlobalIds
    ensures !q.rollbackOnFailure
    ensures q.adds.None? <==> |adds| == 0
    ensures q.adds.Some? ==> q.adds.value == env.stringify(adds)
    ensures q.updates.None? <==> |updates| == 0
    ensures q.updates.Some? ==> q.updates.value == env.stringify(updates)
    ensures q.deletes == RenderDeletes(deletes, useGlobalIds, env.show)
  {
    Query(
      "json",
      useGlobalIds,
      false,
      if |adds| > 0 then Some(env.stringify(adds)) else None,
      if |updates| > 0 then Some(env.stringify(updates)) else None,
      RenderDeletes(deletes, useGlobalIds, env.show))
  }

  /**
   * One edit batch for one layer. The three lists only grow, each by the
   * output of its own parser; the flag says which identifier regime the
   * request uses.
   */
  class ApplyEdits {
    const featureLayer: FeatureLayer
    const schema: Schema
    /** The imported functions the methods call. */
    const env: Collaborators
    var adds: seq<Feature>
    var deletes: seq<Identifier>
    var updates: seq<Feature>
    var shouldUseGlobalIds: bool

    /** A new batch is empty and uses global IDs. */
    constructor (featureLayer: FeatureLayer, schema: Schema, env: Collaborators)
      ensures this.featureLayer == featureLayer && this.schema == schema && this.env == env
      ensures adds == [] && deletes == [] && updates == []
      ensures shouldUseGlobalIds
    {
      this.featureLayer := featureLayer;
      this.schema := schema;
      this.env := env;
      adds := [];
      deletes := [];
      updates := [];
      shouldUseGlobalIds := true;
    }

    /**
     * `add(features)`: appends the parsed records to `adds` and returns the
     * batch; when the parser throws, the batch is left as it was.
     */
    method Add(features: RawFeatures) returns (r: Result<ApplyEdits, ValidationError>)
      modifies this
      ensures var parsed := env.parseCreate(features, schema);
        match parsed
        case Success(records) => adds == old(adds) + records && r == Success(this)
        case Failure(e) => adds == old(adds) && r == Failure(e)
      ensures updates == old(updates) && deletes == old(deletes)
      ensures shouldUseGlobalIds == old(shouldUseGlobalIds)
    {
      var parsed := env.parseCreate(features, schema);
      match parsed
      case Success(records) =>
        adds := adds + records;
        r := Success(this);
      case Failure(e) =>
        r := Failure(e);
    }

    /**
     * `update(features)`: appends the parsed records to `updates` and
     * returns the batch; when the parser throws, the batch is left as it was.
     */
    method Update(features: RawFeatures) returns (r: Result<ApplyEdits, ValidationError>)
      modifies this
      ensures var parsed := env.parseUpdate(features, schema);
        match parsed
        case Success(records) => updates == old(updates) + records && r == Success(this)
        case Failure(e) => updates == old(updates) && r == Failure(e)
      ensures adds == old(adds) && deletes == old(deletes)
      ensures shouldUseGlobalIds == old(shouldUseGlobalIds)
    {
      var parsed := env.parseUpdate(features, schema);
      match parsed
      case Success(records) =>
        updates := updates + records;
        r := Success(this);
      case Failure(e) =>
        r := Failure(e);
    }

    /**
     * `delete(idArray)`: appends the parsed identifiers to `deletes` and
     * returns the batch; when the parser throws, the batch is left as it was.
     */
    method Delete(idArray: RawIds) returns (r: Result<ApplyEdits, ValidationError>)
      modifies this
      ensures var parsed := env.parseDelete(idArray);
        match parsed
        case Success(ids) => deletes == old(deletes) + ids && r == Success(this)
        case Failure(e) => deletes == old(deletes) && r == Failure(e)
      ensures adds == old(adds) && updates == old(updates)
      ensures shouldUseGlobalIds == old(shouldUseGlobalIds)
    {
      var parsed := env.parseDelete(idArray);
      match parsed
      case Success(ids) =>
        deletes := deletes + ids;
        r := Success(this);
      case Failure(e) =>
        r := Failure(e);
    }

    /** `useGlobalIds()`: selects the global-ID regime and returns the batch. */
    method UseGlobalIds() returns (self: ApplyEdits)
      modifies this
      ensures self == this && shouldUseGlobalIds
      ensures adds == old(adds) && updates == old(updates) && deletes == old(deletes)
    {
      shouldUseGlobalIds := true;
      self := this;
    }

    /** `useObjectIds()`: selects the object-ID regime and returns the batch. */
    method UseObjectIds() returns (self: ApplyEdits)
      modifies this
      ensures self == this && !shouldUseGlobalIds
      ensures adds == old(adds) && updates == old(updates) && deletes == old(deletes)
    {
      shouldUseGlobalIds := false;
      self := this;
    }

    /** `handle()`: the preview of the batch; each list is absent exactly when it is empty. */
    function Handle(): (h: HandleResult)
      reads this
      ensures h.serviceUrl == featureLayer.serviceUrl && h.name == featureLayer.name
      ensures h.payload.id == featureLayer.id
      ensures h.payload.adds == NonEmpty(adds)
      ensures h.payload.updates == NonEmpty(updates)
      ensures h.payload.deletes == NonEmpty(deletes)
    {
      PreviewFor(featureLayer, adds, updates, deletes)
    }

    /** The `deleteIds` that `exec()` computes from the current batch. */
    function DeleteIds(): (d: Option<string>)
      reads this
      ensures d.None? <==> |deletes| == 0
      ensures d.Some? ==> d.value == Join(RenderIds(deletes, shouldUseGlobalIds, env.show), ',')
    {
      RenderDeletes(deletes, shouldUseGlobalIds, env.show)
    }

    /** The `query` that `exec()` posts for the current batch. */
    function ExecQuery(): (q: Query)
      reads this
      ensures q.f == "json" && !q.rollbackOnFailure
      ensures q.useGlobalIds == shouldUseGlobalIds
      ensures q.adds.None? <==> |adds| == 0
      ensures q.adds.Some? ==> q.adds.value == env.stringify(adds)
      ensures q.updates.None? <==> |updates| == 0
      ensures q.updates.Some? ==> q.updates.value == env.stringify(updates)
      ensures q.deletes == DeleteIds()
    {
      QueryFor(adds, updates, deletes, shouldUseGlobalIds, env)
    }
  }
}
