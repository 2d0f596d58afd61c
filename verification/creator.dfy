/**
 * `MochaCreator`: creating, collecting, updating and removing publish
 * instances as transformations of the stored `publish_instances` list.
 * The create context and the `CreatedInstance` objects are left out; an
 * instance is the dict it stores.
 */
module Creator {
  import opened Wrappers
  import opened Errors
  import opened Json
  import opened Metadata
  import opened Host

  /** One entry of `update_list`: the instance's id and `changes.new_values`. */
  datatype Update = Update(instanceId: string, newValues: map<string, Json>)

  /** `create`: the instance's `data_to_store()` is appended to the stored list. */
  function Create(c: Codec, notes: string, dataToStore: Json): (r: Step<()>)
  {
    AddPublishInstance(c, notes, dataToStore)
  }

  /** On stored notes, creating appends exactly the stored data of the new instance. */
  lemma CreateAppends(c: Codec, notes: string, b: map<string, Json>, items: seq<Json>, dataToStore: Json)
    requires Lawful(c) && Stored(c, notes, b) && InstancesIn(b) == JArr(items)
    requires Safe(c, JObj(b[InstancesKey := JArr(items + [dataToStore])]))
    ensures var r := Create(c, notes, dataToStore);
            && r.result == Ok(())
            && Stored(c, r.notes, b[InstancesKey := JArr(items + [dataToStore])])
  {
    AddPublishInstanceAppends(c, notes, b, items, dataToStore);
  }

  /**
   * `collect_instances`: the stored entries whose `creator_identifier` is this
   * creator's identifier, in stored order.
   */
  function CollectInstances(c: Codec, notes: string, identifier: string): (r: Step<seq<Json>>)
    ensures r.notes == Read(c, notes).notes
  {
    var g := GetPublishInstances(c, notes);
    match g.result
    case Err(e) => Step(g.notes, Err(e))
    case Ok(v) =>
      match Items(c, v)
      case Err(e) => Step(g.notes, Err(e))
      case Ok(items) => Step(g.notes, FilterBy(items, "creator_identifier", identifier, true))
  }

  /** On stored notes, collecting picks exactly this creator's entries and changes nothing. */
  lemma CollectInstancesPicksOwn(c: Codec, notes: string, b: map<string, Json>, items: seq<Json>, identifier: string)
    requires Stored(c, notes, b) && InstancesIn(b) == JArr(items)
    requires Keyed(items, "creator_identifier")
    ensures var r := CollectInstances(c, notes, identifier);
            && r.notes == notes
            && r.result == FilterBy(items, "creator_identifier", identifier, true)
            && r.result.Ok?
            && (forall x :: x in r.result.value <==> x in items && HasValue(x, "creator_identifier", identifier))
  {
  }

  /**
   * What one stored id contributes to `instances_by_id`: a falsy id is
   * skipped, a list or dict is unhashable, and a number or boolean is
   * hashable but never equals a string id, so it is left out.
   */
  function IdKey(v: Json): (r: Result<Option<string>, Error>)
    ensures r.Ok? && r.value.Some? ==> v == JStr(r.value.value) && |r.value.value| > 0
    ensures r.Ok? && r.value.None? ==> !(v.JStr? && |v.s| > 0)
    ensures r.Err? <==> Truthy(v) && (v.JArr? || v.JObj?)
  {
    if !Truthy(v) then Ok(None)
    else
      match v
      case JStr(s) => Ok(Some(s))
      case JArr(_) => Err(TypeError)
      case JObj(_) => Err(TypeError)
      case _ => Ok(None)
  }

  /**
   * The ids the `instances_by_id` comprehension files, entry by entry, in
   * list order; the first entry that is not a dict with an `instance_id`, or
   * whose id is unhashable, raises.
   */
  function IdKeys(items: seq<Json>): (r: Result<seq<Option<string>>, Error>)
    ensures r.Ok? ==> Keyed(items, "instance_id") && |r.value| == |items|
    ensures r.Ok? ==> forall i | 0 <= i < |items| ::
                        (r.value[i].Some? ==> |r.value[i].value| > 0 && HasValue(items[i], "instance_id", r.value[i].value))
                        && (r.value[i].None? ==> forall s | |s| > 0 :: !HasValue(items[i], "instance_id", s))
    decreases |items|
  {
    if |items| == 0 then Ok([])
    else
      var n := |items| - 1;
      match IdKeys(items[..n])
      case Err(e) => Err(e)
      case Ok(ks) =>
        match Index(items[n], "instance_id")
        case Err(e) => Err(e)
        case Ok(v) =>
          match IdKey(v)
          case Err(e) => Err(e)
          case Ok(k) => Ok(ks + [k])
  }

  /** Only a missing or ill-typed id makes the comprehension raise. */
  lemma {:induction false} IdKeysOk(items: seq<Json>)
    requires Keyed(items, "instance_id")
    requires forall i | 0 <= i < |items| ::
               var v := items[i].fields["instance_id"]; Truthy(v) ==> !v.JArr? && !v.JObj?
    ensures IdKeys(items).Ok?
    decreases |items|
  {
    if |items| > 0 {
      var n := |items| - 1;
      assert forall i | 0 <= i < n :: items[..n][i] == items[i];
      IdKeysOk(items[..n]);
    }
  }

  /**
   * `instances_by_id.get(s)`, as a position: the last entry filed under `s`,
   * since a later entry with the same id overwrites an earlier one.
   */
  function LastPos(keys: seq<Option<string>>, s: string): (r: Option<nat>)
    ensures r.Some? ==> r.value < |keys| && keys[r.value] == Some(s)
    ensures r.Some? ==> forall j | r.value < j < |keys| :: keys[j] != Some(s)
    ensures r.None? ==> forall j | 0 <= j < |keys| :: keys[j] != Some(s)
    decreases |keys|
  {
    if |keys| == 0 then None
    else if keys[|keys| - 1] == Some(s) then Some(|keys| - 1)
    else LastPos(keys[..|keys| - 1], s)
  }

  /** The updates whose id is unknown, as the dicts they append, in order. */
  function Appended(keys: seq<Option<string>>, ups: seq<Update>): seq<Json>
    decreases |ups|
  {
    if |ups| == 0 then []
    else
      var u := ups[|ups| - 1];
      Appended(keys, ups[..|ups| - 1]) + (if LastPos(keys, u.instanceId).Some? then [] else [JObj(u.newValues)])
  }

  /** The new values of the last update aimed at position `p`, if any. */
  function LastFor(keys: seq<Option<string>>, ups: seq<Update>, p: nat): Option<map<string, Json>>
    decreases |ups|
  {
    if |ups| == 0 then None
    else
      var u := ups[|ups| - 1];
      if LastPos(keys, u.instanceId) == Some(p) then Some(u.newValues)
      else LastFor(keys, ups[..|ups| - 1], p)
  }

  /**
   * The `update_list` loop: a known id makes its stored dict exactly the new
   * values (stale keys popped, new ones set) in place; an unknown id appends
   * the new values.
   */
  function Apply(items: seq<Json>, keys: seq<Option<string>>, ups: seq<Update>): (r: seq<Json>)
    requires |keys| == |items|
    ensures |r| == |items| + |Appended(keys, ups)|
    decreases |ups|
  {
    if |ups| == 0 then items
    else
      var prev := Apply(items, keys, ups[..|ups| - 1]);
      var u := ups[|ups| - 1];
      match LastPos(keys, u.instanceId)
      case Some(p) => prev[p := JObj(u.newValues)]
      case None => prev + [JObj(u.newValues)]
  }

  /**
   * The rebuilt list, position by position: a stored entry is the last update
   * aimed at it or else unchanged, and after the stored entries come the
   * appended ones.
   */
  lemma {:induction false} ApplySpec(items: seq<Json>, keys: seq<Option<string>>, ups: seq<Update>)
    requires |keys| == |items|
    ensures var r := Apply(items, keys, ups);
            && (forall p | 0 <= p < |items| ::
                  r[p] == (match LastFor(keys, ups, p) case Some(nv) => JObj(nv) case None => items[p]))
            && r[|items|..] == Appended(keys, ups)
    decreases |ups|
  {
    if |ups| > 0 {
      ApplySpec(items, keys, ups[..|ups| - 1]);
    }
  }

  /** `update_instances`: rebuild the list and write it back once. */
  function UpdateInstances(c: Codec, notes: string, ups: seq<Update>): (r: Step<()>)
  {
    var g := GetPublishInstances(c, notes);
    match g.result
    case Err(e) => Step(g.notes, Err(e))
    case Ok(v) =>
      match Items(c, v)
      case Err(e) => Step(g.notes, Err(e))
      case Ok(items) =>
        match IdKeys(items)
        case Err(e) => Step(g.notes, Err(e))
        case Ok(keys) =>
          if v.JArr? then WriteCreateInstances(c, g.notes, JArr(Apply(items, keys, ups)))
          // an empty dict or string indexes nothing, and has no `append` for the first update
          else if |ups| == 0 then WriteCreateInstances(c, g.notes, v)
          else Step(g.notes, Err(AttributeError))
  }

  /**
   * On stored notes, updating writes the rebuilt list once and touches no
   * other key of the block.
   */
  lemma UpdateInstancesWrites(c: Codec, notes: string, b: map<string, Json>, items: seq<Json>, ups: seq<Update>)
    requires Lawful(c) && Stored(c, notes, b) && InstancesIn(b) == JArr(items)
    requires IdKeys(items).Ok?
    requires Safe(c, JObj(b[InstancesKey := JArr(Apply(items, IdKeys(items).value, ups))]))
    ensures var r := UpdateInstances(c, notes, ups);
            && r.result == Ok(())
            && Stored(c, r.notes, b[InstancesKey := JArr(Apply(items, IdKeys(items).value, ups))])
  {
    WriteCreateInstancesReplaces(c, notes, b, JArr(Apply(items, IdKeys(items).value, ups)));
  }

  /**
   * A stored empty dict of instances is iterated like an empty list:
   * collecting finds nothing, and the first update raises `AttributeError`
   * at `append`, leaving the notes.
   */
  lemma EmptyDictCollectAndUpdate(c: Codec, notes: string, b: map<string, Json>, identifier: string, ups: seq<Update>)
    requires Lawful(c) && Stored(c, notes, b) && InstancesIn(b) == EmptyObject
    requires |ups| > 0
    ensures CollectInstances(c, notes, identifier) == Step(notes, Ok([]))
    ensures UpdateInstances(c, notes, ups) == Step(notes, Err(AttributeError))
  {
    ItemsOfObject(c, EmptyObject);
  }

  /**
   * An update whose id is stored (as a non-empty string) lands in place on
   * the last stored entry with that id, unless a later update of the same id
   * overrides it.
   */
  lemma UpdateKnownInPlace(items: seq<Json>, ups: seq<Update>, k: nat, i: nat)
    requires IdKeys(items).Ok?
    requires k < |ups|
    requires forall j | k < j < |ups| :: ups[j].instanceId != ups[k].instanceId
    requires i < |items| && HasValue(items[i], "instance_id", ups[k].instanceId)
    requires |ups[k].instanceId| > 0
    ensures var keys := IdKeys(items).value;
            var p := LastPos(keys, ups[k].instanceId);
            && p.Some? && i <= p.value
            && HasValue(items[p.value], "instance_id", ups[k].instanceId)
            && (forall j | p.value < j < |items| :: !HasValue(items[j], "instance_id", ups[k].instanceId))
            && Apply(items, keys, ups)[p.value] == JObj(ups[k].newValues)
  {
    var keys := IdKeys(items).value;
    var s := ups[k].instanceId;
    assert keys[i] == Some(s);
    LastForIsLast(keys, ups, k);
    ApplySpec(items, keys, ups);
  }

  /** The last update aimed at a position is the one `LastFor` reports. */
  lemma {:induction false} LastForIsLast(keys: seq<Option<string>>, ups: seq<Update>, k: nat)
    requires k < |ups| && LastPos(keys, ups[k].instanceId).Some?
    requires forall j | k < j < |ups| :: ups[j].instanceId != ups[k].instanceId
    ensures LastFor(keys, ups, LastPos(keys, ups[k].instanceId).value) == Some(ups[k].newValues)
    decreases |ups|
  {
    var n := |ups| - 1;
    if k < n {
      var init := ups[..n];
      assert init[k] == ups[k];
      assert forall j | k < j < |init| :: init[j] == ups[j];
      LastForIsLast(keys, init, k);
    }
  }

  /** The dicts the updates carry, in `update_list` order. */
  function NewValues(ups: seq<Update>): (r: seq<Json>)
    ensures |r| == |ups|
  {
    seq(|ups|, k requires 0 <= k < |ups| => JObj(ups[k].newValues))
  }

  /** Updates that the index does not know are appended, in order. */
  lemma {:induction false} ApplyUnknown(items: seq<Json>, keys: seq<Option<string>>, ups: seq<Update>)
    requires |keys| == |items|
    requires forall k | 0 <= k < |ups| :: LastPos(keys, ups[k].instanceId).None?
    ensures Apply(items, keys, ups) == items + NewValues(ups)
    decreases |ups|
  {
    if |ups| > 0 {
      var n := |ups| - 1;
      var init := ups[..n];
      assert forall k | 0 <= k < n :: init[k] == ups[k];
      ApplyUnknown(items, keys, init);
      assert NewValues(ups) == NewValues(init) + [JObj(ups[n].newValues)];
    }
  }

  /**
   * Updates whose ids are not stored are all appended, in `update_list`
   * order; this includes ids stored only on entries whose id was falsy.
   */
  lemma UpdateUnknownAppends(items: seq<Json>, ups: seq<Update>)
    requires IdKeys(items).Ok?
    requires forall k, i | 0 <= k < |ups| && 0 <= i < |items| ::
               !HasValue(items[i], "instance_id", ups[k].instanceId) || |ups[k].instanceId| == 0
    ensures Apply(items, IdKeys(items).value, ups) == items + NewValues(ups)
  {
    var keys := IdKeys(items).value;
    forall k | 0 <= k < |ups|
      ensures LastPos(keys, ups[k].instanceId).None?
    {
      var id := ups[k].instanceId;
      assert forall j | 0 <= j < |keys| :: keys[j] != Some(id);
    }
    ApplyUnknown(items, keys, ups);
  }

  /** `remove_instances`: remove each instance's id in turn; the first error stops the loop. */
  function RemoveInstances(c: Codec, notes: string, ids: seq<string>): (r: Step<()>)
    decreases |ids|
  {
    if |ids| == 0 then Step(notes, Ok(()))
    else
      var s := RemoveCreateInstance(c, notes, ids[0]);
      if s.result.Err? then s else RemoveInstances(c, s.notes, ids[1..])
  }

  /** Every entry whose id is in `ids` is gone, in stored order. */
  function WithoutIds(items: seq<Json>, ids: seq<string>): (r: seq<Json>)
    requires Keyed(items, "instance_id")
    ensures Keyed(r, "instance_id")
    ensures forall x :: x in r <==> x in items && forall s | s in ids :: !HasValue(x, "instance_id", s)
    decreases |ids|
  {
    if |ids| == 0 then items
    else WithoutIds(FilterBy(items, "instance_id", ids[0], false).value, ids[1..])
  }

  /** Every list the removals pass through can be stored in the block `b`. */
  ghost predicate SafeAlong(c: Codec, b: map<string, Json>, items: seq<Json>, ids: seq<string>)
    requires Keyed(items, "instance_id")
    decreases |ids|
  {
    |ids| == 0 ||
    var kept := FilterBy(items, "instance_id", ids[0], false).value;
    Safe(c, JObj(b[InstancesKey := JArr(kept)])) && SafeAlong(c, b, kept, ids[1..])
  }

  /**
   * On stored notes, removing several instances drops every entry carrying
   * any of their ids and keeps everything else.
   */
  lemma {:induction false} RemoveInstancesDrops(c: Codec, notes: string, b: map<string, Json>, items: seq<Json>, ids: seq<string>)
    requires Lawful(c) && Stored(c, notes, b[InstancesKey := JArr(items)])
    requires Keyed(items, "instance_id")
    requires SafeAlong(c, b, items, ids)
    ensures RemoveInstances(c, notes, ids).result == Ok(())
    ensures Stored(c, RemoveInstances(c, notes, ids).notes, b[InstancesKey := JArr(WithoutIds(items, ids))])
    decreases |ids|
  {
    if |ids| > 0 {
      var b0 := b[InstancesKey := JArr(items)];
      var kept := FilterBy(items, "instance_id", ids[0], false).value;
      assert b0[InstancesKey := JArr(kept)] == b[InstancesKey := JArr(kept)];
      var s0 := RemoveCreateInstance(c, notes, ids[0]);
      RemoveCreateInstanceDrops(c, notes, b0, items, ids[0]);
      assert RemoveInstances(c, notes, ids) == RemoveInstances(c, s0.notes, ids[1..]);
      assert WithoutIds(items, ids) == WithoutIds(kept, ids[1..]);
      RemoveInstancesDrops(c, s0.notes, b, kept, ids[1..]);
    }
  }
}
