/**
 * Properties of the edit batch that relate several of its operations: the
 * delete list reads back as the identifiers it was built from, successive
 * calls keep their order, the preview and the query agree, a sample batch
 * gives the expected request, and a sample identifier list renders as
 * expected.
 */
module EditBatchProperties {
  import opened Wrappers
  import opened StringJoin
  import opened EditBatch

  /** No identifier's text contains the comma that separates the list. */
  ghost predicate CommaFree(ids: seq<Identifier>, show: Identifier -> string)
  {
    forall i :: 0 <= i < |ids| ==> ',' !in show(ids[i])
  }

  /** Removing the quotes that `Quote` added gives the text back. */
  lemma UnquoteQuote(s: string)
    ensures Unquote(Quote(s)) == s
  {
  }

  /**
   * The delete list splits at its commas into exactly one rendering per
   * identifier, in order: all of them quoted under the global-ID regime,
   * all of them bare under the object-ID regime.
   */
  lemma DeleteListSplitsIntoRenderings(ids: seq<Identifier>, useGlobalIds: bool, show: Identifier -> string)
    requires |ids| > 0 && CommaFree(ids, show)
    ensures RenderDeletes(ids, useGlobalIds, show).Some?
    ensures var pieces := Split(RenderDeletes(ids, useGlobalIds, show).value, ',');
      && |pieces| == |ids|
      && forall i :: 0 <= i < |ids| ==>
           pieces[i] == if useGlobalIds then Quote(show(ids[i])) else show(ids[i])
  {
    var parts := RenderIds(ids, useGlobalIds, show);
    forall i | 0 <= i < |parts| ensures ',' !in parts[i] {
      assert parts[i] == RenderId(ids[i], useGlobalIds, show);
    }
    SplitJoin(parts, ',');
  }

  /** Reading the delete list back under the same regime recovers every identifier's text. */
  lemma DeleteListRoundTrip(ids: seq<Identifier>, useGlobalIds: bool, show: Identifier -> string)
    requires |ids| > 0 && CommaFree(ids, show)
    ensures RenderDeletes(ids, useGlobalIds, show).Some?
    ensures var texts := ReadDeleteIds(RenderDeletes(ids, useGlobalIds, show).value, useGlobalIds);
      |texts| == |ids| && forall i :: 0 <= i < |ids| ==> texts[i] == show(ids[i])
  {
    DeleteListSplitsIntoRenderings(ids, useGlobalIds, show);
    var texts := ReadDeleteIds(RenderDeletes(ids, useGlobalIds, show).value, useGlobalIds);
    forall i | 0 <= i < |ids| ensures texts[i] == show(ids[i]) {
      UnquoteQuote(show(ids[i]));
    }
  }

  /** Rendering commutes with concatenation of identifier lists. */
  lemma RenderIdsAppend(xs: seq<Identifier>, ys: seq<Identifier>, useGlobalIds: bool, show: Identifier -> string)
    ensures RenderIds(xs + ys, useGlobalIds, show) == RenderIds(xs, useGlobalIds, show) + RenderIds(ys, useGlobalIds, show)
  {
  }

  /**
   * Identifiers gathered by two successive `delete` calls are rendered in
   * call order: the list for both is the list for the first, a comma, and
   * the list for the second.
   */
  lemma SuccessiveDeletesRenderInOrder(first: seq<Identifier>, second: seq<Identifier>, useGlobalIds: bool,
                                       show: Identifier -> string)
    requires |first| > 0 && |second| > 0
    ensures RenderDeletes(first + second, useGlobalIds, show)
         == Some(RenderDeletes(first, useGlobalIds, show).value + "," + RenderDeletes(second, useGlobalIds, show).value)
  {
    RenderIdsAppend(first, second, useGlobalIds, show);
    JoinAppend(RenderIds(first, useGlobalIds, show), RenderIds(second, useGlobalIds, show), ',');
  }

  /** Under global IDs, identifiers that print as 1, 2 and 3 give `"1","2","3"`. */
  lemma QuotedRenderingSample(show: Identifier -> string, one: Identifier, two: Identifier, three: Identifier)
    requires show(one) == "1" && show(two) == "2" && show(three) == "3"
    ensures RenderDeletes([one, two, three], true, show) == Some("\"1\",\"2\",\"3\"")
  {
    var quoted := RenderIds([one, two, three], true, show);
    assert quoted[0] == Quote("1") && quoted[1] == Quote("2") && quoted[2] == Quote("3");
    assert Quote("1") == "\"1\"" && Quote("2") == "\"2\"" && Quote("3") == "\"3\"";
    assert quoted == ["\"1\"", "\"2\"", "\"3\""];
    assert Join(quoted, ',') == "\"1\",\"2\",\"3\"" by {
      assert quoted[1..] == ["\"2\"", "\"3\""] && quoted[1..][1..] == ["\"3\""];
      assert Join(quoted[1..][1..], ',') == "\"3\"";
      assert Join(quoted[1..], ',') == "\"2\",\"3\"";
    }
  }

  /** Under object IDs, identifiers that print as 1, 2 and 3 give `1,2,3`. */
  lemma BareRenderingSample(show: Identifier -> string, one: Identifier, two: Identifier, three: Identifier)
    requires show(one) == "1" && show(two) == "2" && show(three) == "3"
    ensures RenderDeletes([one, two, three], false, show) == Some("1,2,3")
  {
    var bare := RenderIds([one, two, three], false, show);
    assert bare[0] == "1" && bare[1] == "2" && bare[2] == "3";
    assert bare == ["1", "2", "3"];
    assert Join(bare, ',') == "1,2,3" by {
      assert bare[1..] == ["2", "3"] && bare[1..][1..] == ["3"];
      assert Join(bare[1..][1..], ',') == "3";
      assert Join(bare[1..], ',') == "2,3";
    }
  }

  /** With identifiers that print as 1, 2 and 3 the two regimes give `"1","2","3"` and `1,2,3`. */
  lemma DeleteRenderingSample(show: Identifier -> string, one: Identifier, two: Identifier, three: Identifier)
    requires show(one) == "1" && show(two) == "2" && show(three) == "3"
    ensures RenderDeletes([one, two, three], true, show) == Some("\"1\",\"2\",\"3\"")
    ensures RenderDeletes([one, two, three], false, show) == Some("1,2,3")
  {
    QuotedRenderingSample(show, one, two, three);
    BareRenderingSample(show, one, two, three);
  }

  /** A batch with nothing gathered sends none of the three payloads, under either regime. */
  lemma EmptyBatchSendsNoPayload(layer: FeatureLayer, useGlobalIds: bool, env: Collaborators)
    ensures var q := QueryFor([], [], [], useGlobalIds, env);
      q.adds.None? && q.updates.None? && q.deletes.None?
    ensures var p := PreviewFor(layer, [], [], []).payload;
      p.adds.None? && p.updates.None? && p.deletes.None?
  {
  }

  /**
   * The query and the preview agree: a payload is present in the query
   * exactly when it is present in the preview, and the query carries the
   * serialisation or the rendering of what the preview shows.
   */
  lemma QueryAgreesWithPreview(layer: FeatureLayer, adds: seq<Feature>, updates: seq<Feature>,
                               deletes: seq<Identifier>, useGlobalIds: bool, env: Collaborators)
    ensures var q, p := QueryFor(adds, updates, deletes, useGlobalIds, env), PreviewFor(layer, adds, updates, deletes).payload;
      && (q.adds.Some? <==> p.adds.Some?)
      && (p.adds.Some? ==> q.adds.value == env.stringify(p.adds.value))
      && (q.updates.Some? <==> p.updates.Some?)
      && (p.updates.Some? ==> q.updates.value == env.stringify(p.updates.value))
      && (q.deletes.Some? <==> p.deletes.Some?)
      && (p.deletes.Some? ==> q.deletes == RenderDeletes(p.deletes.value, useGlobalIds, env.show))
  {
  }

  /** Two successful `add` calls leave their records in `adds` in call order, and nothing else changes. */
  method AddTwiceInCallOrder(batch: ApplyEdits, first: RawFeatures, second: RawFeatures)
    requires batch.env.parseCreate(first, batch.schema).Success?
    requires batch.env.parseCreate(second, batch.schema).Success?
    modifies batch
    ensures batch.adds == old(batch.adds) + batch.env.parseCreate(first, batch.schema).value
                                          + batch.env.parseCreate(second, batch.schema).value
    ensures batch.updates == old(batch.updates) && batch.deletes == old(batch.deletes)
    ensures batch.shouldUseGlobalIds == old(batch.shouldUseGlobalIds)
  {
    var r := batch.Add(first);
    r := batch.Add(second);
  }

  /** A rejected `update` leaves the batch exactly as it was; earlier records stay. */
  method RejectedUpdateKeepsBatch(batch: ApplyEdits, features: RawFeatures) returns (e: ValidationError)
    requires batch.env.parseUpdate(features, batch.schema).Failure?
    modifies batch
    ensures e == batch.env.parseUpdate(features, batch.schema).error
    ensures batch.adds == old(batch.adds) && batch.updates == old(batch.updates)
    ensures batch.deletes == old(batch.deletes) && batch.shouldUseGlobalIds == old(batch.shouldUseGlobalIds)
  {
    var r := batch.Update(features);
    e := r.error;
  }

  /** Selecting a regime twice has the effect of selecting it once, and only the flag moves. */
  method RegimeTogglesAreIdempotent(batch: ApplyEdits, global: bool)
    modifies batch
    ensures batch.shouldUseGlobalIds == global
    ensures batch.adds == old(batch.adds) && batch.updates == old(batch.updates)
    ensures batch.deletes == old(batch.deletes)
  {
    var self: ApplyEdits;
    if global {
      self := batch.UseGlobalIds();
      self := self.UseGlobalIds();
    } else {
      self := batch.UseObjectIds();
      self := self.UseObjectIds();
    }
  }

  /**
   * A sample batch: one record added, one updated, the identifiers 7 and 8
   * deleted, global IDs in force. The query carries one serialised list per
   * edit kind, `"7","8"` as the delete list, and does not roll back on
   * failure.
   */
  method SampleBatchQuery(layer: FeatureLayer, schema: Schema, env: Collaborators,
                          added: RawFeatures, changed: RawFeatures, removed: RawIds,
                          a: Feature, u: Feature, seven: Identifier, eight: Identifier)
    returns (q: Query)
    requires env.parseCreate(added, schema) == Success([a])
    requires env.parseUpdate(changed, schema) == Success([u])
    requires env.parseDelete(removed) == Success([seven, eight])
    requires env.show(seven) == "7" && env.show(eight) == "8"
    ensures q.f == "json" && q.useGlobalIds && !q.rollbackOnFailure
    ensures q.adds == Some(env.stringify([a]))
    ensures q.updates == Some(env.stringify([u]))
    ensures q.deletes == Some("\"7\",\"8\"")
  {
    var batch := new ApplyEdits(layer, schema, env);
    var r := batch.Add(added);
    r := batch.Update(changed);
    r := batch.Delete(removed);
    var self := batch.UseGlobalIds();
    assert batch.adds == [a] && batch.updates == [u] && batch.deletes == [seven, eight];
    var quoted := RenderIds([seven, eight], true, env.show);
    assert quoted[0] == Quote("7") && quoted[1] == Quote("8");
    assert Quote("7") == "\"7\"" && Quote("8") == "\"8\"";
    assert quoted == ["\"7\"", "\"8\""];
    assert Join(quoted, ',') == "\"7\",\"8\"" by {
      assert quoted[1..] == ["\"8\""];
    }
    q := batch.ExecQuery();
  }
}
