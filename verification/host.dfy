/**
 * The host's accessors over the AYON data block: containers keyed by name
 * and namespace, the publish-instance list keyed by `instance_id`, and the
 * create-context data. Every accessor reads the block afresh, so each read
 * is threaded through the notes it may extend.
 */
module Host {
  import opened Wrappers
  import opened Errors
  import opened Json
  import opened Metadata

  /** The loader's record of what it placed in the project. */
  datatype Container = Container(
    name: Option<string>,
    id: string,
    namespace: string,
    loader: Option<string>,
    representation: Option<string>,
    objectName: Option<string>,
    timestamp: int,
    version: Option<string>)

  /** An optional string as JSON: `None` is `null`. */
  function OptStr(o: Option<string>): Json {
    match o
    case None => JNull
    case Some(s) => JStr(s)
  }

  /** `dataclasses.asdict(container)`: one key per field. */
  function AsDict(ct: Container): (r: Json)
    ensures r.JObj?
    ensures r.fields.Keys == {"name", "id", "namespace", "loader", "representation", "objectName", "timestamp", "version"}
  {
    JObj(map[
      "name" := OptStr(ct.name),
      "id" := JStr(ct.id),
      "namespace" := JStr(ct.namespace),
      "loader" := OptStr(ct.loader),
      "representation" := OptStr(ct.representation),
      "objectName" := OptStr(ct.objectName),
      "timestamp" := JNum(ct.timestamp),
      "version" := OptStr(ct.version)])
  }

  /** `data[key] = v` followed by `update_ayon_data(data)`. */
  function Store(c: Codec, notes: string, data: Json, key: string, v: Json): (r: Step<()>)
    ensures !data.JObj? ==> r == Step(notes, Err(TypeError))
  {
    match SetKey(data, key, v)
    case Err(e) => Step(notes, Err(e))
    case Ok(d) => Write(c, notes, d)
  }

  /** Storing one key into stored notes stores the block with that key set. */
  lemma StoreStored(c: Codec, notes: string, b: map<string, Json>, key: string, v: Json)
    requires Lawful(c) && Stored(c, notes, b) && Safe(c, JObj(b[key := v]))
    ensures Store(c, notes, JObj(b), key, v).result == Ok(())
    ensures Stored(c, Store(c, notes, JObj(b), key, v).notes, b[key := v])
  {
    assert b + b[key := v] == b[key := v];
    WriteStored(c, notes, b, b[key := v]);
  }

  // ---------------------------------------------------------------- containers

  /**
   * `get_containers`: the stored `containers` list, or nothing when the block
   * is falsy.
   */
  function GetContainers(c: Codec, notes: string): (r: Step<seq<Json>>)
    ensures r.notes == Read(c, notes).notes
    ensures !Truthy(Read(c, notes).data) ==> r.result == Ok([])
    ensures forall b | Stored(c, notes, b) ::
              r == Step(notes, if |b| == 0 then Ok([]) else Items(c, ContainersIn(b)))
  {
    var l := Read(c, notes);
    if !Truthy(l.data) then Step(l.notes, Ok([]))
    else
      match Get(l.data, ContainersKey, JArr([]))
      case Err(e) => Step(l.notes, Err(e))
      case Ok(v) => Step(l.notes, Items(c, v))
  }

  /** A stored entry that records the same `name` and `namespace` as `ct`. */
  predicate SameSlot(entry: Json, ct: Container) {
    && entry.JObj?
    && (if "name" in entry.fields then entry.fields["name"] else JNull) == OptStr(ct.name)
    && (if "namespace" in entry.fields then entry.fields["namespace"] else JNull) == JStr(ct.namespace)
  }

  /** The stored containers that do not share `ct`'s slot, in stored order. */
  function Others(items: seq<Json>, ct: Container): (r: seq<Json>)
    ensures |r| <= |items|
    decreases |items|
  {
    if |items| == 0 then []
    else
      var n := |items| - 1;
      Others(items[..n], ct) + (if SameSlot(items[n], ct) then [] else [items[n]])
  }

  /** Exactly the entries in other slots survive. */
  lemma {:induction false} OthersMembers(items: seq<Json>, ct: Container)
    ensures forall x :: x in Others(items, ct) <==> x in items && !SameSlot(x, ct)
    decreases |items|
  {
    if |items| > 0 {
      var n := |items| - 1;
      OthersMembers(items[..n], ct);
      assert items == items[..n] + [items[n]];
    }
  }

  /** Filtering keeps relative order: it distributes over concatenation. */
  lemma {:induction false} OthersAppend(a: seq<Json>, b: seq<Json>, ct: Container)
    ensures Others(a + b, ct) == Others(a, ct) + Others(b, ct)
    decreases |b|
  {
    if |b| > 0 {
      var n := |b| - 1;
      OthersAppend(a, b[..n], ct);
      assert (a + b)[..|a + b| - 1] == a + b[..n];
    } else {
      assert a + b == a;
    }
  }

  /** Every visited container is a dict, so `.get` can be called on each. */
  predicate AllDicts(items: seq<Json>) {
    forall i | 0 <= i < |items| :: items[i].JObj?
  }

  /**
   * `add_container` with the stored dicts compared by `.get("name")` and
   * `.get("namespace")`: every container in the same slot is dropped and the
   * new one is appended last. A visited entry that is not a dict has no
   * `get`, and raises.
   */
  function AddContainer(c: Codec, notes: string, ct: Container): (r: Step<()>)
  {
    var l := Read(c, notes);
    var g := GetContainers(c, l.notes);
    match g.result
    case Err(e) => Step(g.notes, Err(e))
    case Ok(items) =>
      if !AllDicts(items) then Step(g.notes, Err(AttributeError))
      else Store(c, g.notes, l.data, ContainersKey, JArr(Others(items, ct) + [AsDict(ct)]))
  }

  /**
   * `add_container` as written: the slot test reads `.name` off each stored
   * entry, and a decoded dict has no such attribute.
   */
  function AddContainerAsWritten(c: Codec, notes: string, ct: Container): (r: Step<()>)
  {
    var l := Read(c, notes);
    var g := GetContainers(c, l.notes);
    match g.result
    case Err(e) => Step(g.notes, Err(e))
    case Ok(items) =>
      if |items| > 0 then Step(g.notes, Err(AttributeError))
      else Store(c, g.notes, l.data, ContainersKey, JArr([AsDict(ct)]))
  }

  /** The stored `containers` list of a block, `[]` when absent. */
  function ContainersIn(b: map<string, Json>): Json {
    if ContainersKey in b then b[ContainersKey] else JArr([])
  }

  /**
   * On stored notes, adding a container replaces rather than duplicates: the
   * list becomes the other slots' containers, in order, then the new one.
   */
  lemma AddContainerReplaces(c: Codec, notes: string, b: map<string, Json>, items: seq<Json>, ct: Container)
    requires Lawful(c) && Stored(c, notes, b)
    requires ContainersIn(b) == JArr(items) && AllDicts(items)
    requires Safe(c, JObj(b[ContainersKey := JArr(Others(items, ct) + [AsDict(ct)])]))
    ensures var r := AddContainer(c, notes, ct);
            && r.result == Ok(())
            && Stored(c, r.notes, b[ContainersKey := JArr(Others(items, ct) + [AsDict(ct)])])
    ensures forall x | x in Others(items, ct) + [AsDict(ct)] && SameSlot(x, ct) :: x == AsDict(ct)
  {
    if |items| > 0 {
      assert ContainersKey in b;
    }
    OthersMembers(items, ct);
    StoreStored(c, notes, b, ContainersKey, JArr(Others(items, ct) + [AsDict(ct)]));
  }

  /**
   * On stored notes that already hold a container, the code as written raises
   * `AttributeError` and changes nothing, where the keyed version succeeds.
   */
  lemma AddContainerAsWrittenFails(c: Codec, notes: string, b: map<string, Json>, items: seq<Json>, ct: Container)
    requires Lawful(c) && Stored(c, notes, b)
    requires ContainersIn(b) == JArr(items) && |items| > 0 && AllDicts(items)
    requires Safe(c, JObj(b[ContainersKey := JArr(Others(items, ct) + [AsDict(ct)])]))
    ensures AddContainerAsWritten(c, notes, ct) == Step(notes, Err(AttributeError))
    ensures AddContainer(c, notes, ct).result == Ok(())
  {
    assert ContainersKey in b;
    AddContainerReplaces(c, notes, b, items, ct);
  }

  /**
   * On stored notes whose container list holds an entry that is not a dict,
   * adding a container raises `AttributeError` and changes nothing; so does
   * a stored non-empty dict or string, whose keys or characters are visited.
   */
  lemma AddContainerNonDictRaises(c: Codec, notes: string, b: map<string, Json>, i: nat, ct: Container)
    requires Lawful(c) && Stored(c, notes, b)
    requires Items(c, ContainersIn(b)).Ok? && i < |Items(c, ContainersIn(b)).value|
    requires !Items(c, ContainersIn(b)).value[i].JObj?
    ensures AddContainer(c, notes, ct) == Step(notes, Err(AttributeError))
  {
    assert ContainersKey in b;
    assert Truthy(JObj(b));
  }

  // ------------------------------------------------------------------- context

  /** `get_context_data`: the `context` entry of the block, `{}` when absent. */
  function GetContextData(c: Codec, notes: string): (r: Step<Json>)
    ensures r.notes == Read(c, notes).notes
    ensures r.result.Ok? <==> Read(c, notes).data.JObj?
    ensures forall b | Stored(c, notes, b) ::
              r == Step(notes, Ok(if ContextKey in b then b[ContextKey] else EmptyObject))
  {
    var l := Read(c, notes);
    Step(l.notes, Get(l.data, ContextKey, EmptyObject))
  }

  /** `update_context_data`: empty data is ignored; otherwise `context` is replaced. */
  function UpdateContextData(c: Codec, notes: string, data: map<string, Json>): (r: Step<()>)
    ensures |data| == 0 ==> r == Step(notes, Ok(()))
  {
    if |data| == 0 then Step(notes, Ok(()))
    else
      var l := Read(c, notes);
      Store(c, l.notes, l.data, ContextKey, JObj(data))
  }

  /**
   * On stored notes, updating the context with non-empty data sets only the
   * `context` key; reading the context back returns the data.
   */
  lemma UpdateContextStores(c: Codec, notes: string, b: map<string, Json>, data: map<string, Json>)
    requires Lawful(c) && Stored(c, notes, b) && |data| > 0
    requires Safe(c, JObj(b[ContextKey := JObj(data)]))
    ensures var r := UpdateContextData(c, notes, data);
            && r.result == Ok(())
            && Stored(c, r.notes, b[ContextKey := JObj(data)])
            && GetContextData(c, r.notes) == Step(r.notes, Ok(JObj(data)))
  {
    StoreStored(c, notes, b, ContextKey, JObj(data));
  }

  // --------------------------------------------------------- publish instances

  /** `get_publish_instances`: the stored list, `[]` when absent. */
  function GetPublishInstances(c: Codec, notes: string): (r: Step<Json>)
    ensures r.notes == Read(c, notes).notes
    ensures r.result.Ok? <==> Read(c, notes).data.JObj?
    ensures forall b | Stored(c, notes, b) :: r == Step(notes, Ok(InstancesIn(b)))
  {
    var l := Read(c, notes);
    Step(l.notes, Get(l.data, InstancesKey, JArr([])))
  }

  /** The stored `publish_instances` list of a block, `[]` when absent. */
  function InstancesIn(b: map<string, Json>): Json {
    if InstancesKey in b then b[InstancesKey] else JArr([])
  }

  /** `add_publish_instance`: append to the stored list. */
  function AddPublishInstance(c: Codec, notes: string, inst: Json): (r: Step<()>)
  {
    var l := Read(c, notes);
    var g := GetPublishInstances(c, l.notes);
    match g.result
    case Err(e) => Step(g.notes, Err(e))
    case Ok(v) =>
      match v
      case JArr(items) => Store(c, g.notes, l.data, InstancesKey, JArr(items + [inst]))
      case _ => Step(g.notes, Err(AttributeError))
  }

  /** On stored notes, adding an instance appends it and keeps the rest of the block. */
  lemma AddPublishInstanceAppends(c: Codec, notes: string, b: map<string, Json>, items: seq<Json>, inst: Json)
    requires Lawful(c) && Stored(c, notes, b) && InstancesIn(b) == JArr(items)
    requires Safe(c, JObj(b[InstancesKey := JArr(items + [inst])]))
    ensures var r := AddPublishInstance(c, notes, inst);
            && r.result == Ok(())
            && Stored(c, r.notes, b[InstancesKey := JArr(items + [inst])])
            && GetPublishInstances(c, r.notes) == Step(r.notes, Ok(JArr(items + [inst])))
  {
    StoreStored(c, notes, b, InstancesKey, JArr(items + [inst]));
  }

  /** Every entry is a dict that has `key`: nothing on the way raises. */
  predicate Keyed(items: seq<Json>, key: string) {
    forall i | 0 <= i < |items| :: items[i].JObj? && key in items[i].fields
  }

  /** The entry is a dict whose `key` is the string `v`. */
  predicate HasValue(entry: Json, key: string, v: string) {
    entry.JObj? && key in entry.fields && entry.fields[key] == JStr(v)
  }

  /** The first entry whose `instance_id` is `id`, when there is one. */
  function FirstWithId(items: seq<Json>, id: string): (r: Option<nat>)
    ensures r.Some? ==> r.value < |items| && HasValue(items[r.value], "instance_id", id)
    ensures r.Some? ==> forall j | 0 <= j < r.value :: !HasValue(items[j], "instance_id", id)
    ensures r.None? ==> forall j | 0 <= j < |items| :: !HasValue(items[j], "instance_id", id)
    decreases |items|
  {
    if |items| == 0 then None
    else if HasValue(items[0], "instance_id", id) then Some(0)
    else
      match FirstWithId(items[1..], id)
      case None => None
      case Some(j) => Some(j + 1)
  }

  /**
   * The loop of `update_publish_instance`: replace the first entry with a
   * matching `instance_id`, then stop. Each entry looked at must be a dict
   * with that key.
   */
  function ReplaceFirst(items: seq<Json>, id: string, data: Json): (r: Result<seq<Json>, Error>)
    ensures Keyed(items, "instance_id") ==> r.Ok?
    ensures r.Ok? ==> r.value == (match FirstWithId(items, id)
                                   case Some(i) => items[i := data]
                                   case None => items)
    decreases |items|
  {
    if |items| == 0 then Ok([])
    else
      match Index(items[0], "instance_id")
      case Err(e) => Err(e)
      case Ok(v) =>
        if v == JStr(id) then Ok([data] + items[1..])
        else
          match ReplaceFirst(items[1..], id, data)
          case Err(e) => Err(e)
          case Ok(rest) => Ok([items[0]] + rest)
  }

  /**
   * `update_publish_instance`: the loop visits the stored value's items, so
   * a non-empty dict or string raises `TypeError` at its first key or
   * character.
   */
  function UpdatePublishInstance(c: Codec, notes: string, id: string, data: Json): (r: Step<()>)
  {
    var l := Read(c, notes);
    var g := GetPublishInstances(c, l.notes);
    match g.result
    case Err(e) => Step(g.notes, Err(e))
    case Ok(v) =>
      match Items(c, v)
      case Err(e) => Step(g.notes, Err(e))
      case Ok(items) =>
        match ReplaceFirst(items, id, data)
        case Err(e) => Step(g.notes, Err(e))
        case Ok(updated) =>
          // only a list is assigned into; an empty dict or string is stored back as it was
          Store(c, g.notes, l.data, InstancesKey, if v.JArr? then JArr(updated) else v)
  }

  /**
   * On stored notes, updating replaces only the first entry with the id; an
   * unknown id stores the list unchanged.
   */
  lemma UpdatePublishInstanceReplacesFirst(c: Codec, notes: string, b: map<string, Json>, items: seq<Json>, id: string, data: Json)
    requires Lawful(c) && Stored(c, notes, b) && InstancesIn(b) == JArr(items)
    requires Keyed(items, "instance_id")
    requires var updated := match FirstWithId(items, id)
                            case Some(i) => items[i := data]
                            case None => items;
             Safe(c, JObj(b[InstancesKey := JArr(updated)]))
    ensures var r := UpdatePublishInstance(c, notes, id, data);
            var updated := match FirstWithId(items, id)
                           case Some(i) => items[i := data]
                           case None => items;
            && r.result == Ok(())
            && Stored(c, r.notes, b[InstancesKey := JArr(updated)])
    ensures FirstWithId(items, id).None? ==>
              Stored(c, UpdatePublishInstance(c, notes, id, data).notes, b[InstancesKey := JArr(items)])
  {
    var updated := ReplaceFirst(items, id, data).value;
    StoreStored(c, notes, b, InstancesKey, JArr(updated));
  }

  /**
   * The entries whose `key` is (`equal`) or is not (`!equal`) the string `v`,
   * in order. Every entry is looked at; the first that is not a dict with the
   * key raises.
   */
  function FilterBy(items: seq<Json>, key: string, v: string, equal: bool): (r: Result<seq<Json>, Error>)
    ensures r.Ok? <==> Keyed(items, key)
    ensures r.Ok? ==> |r.value| <= |items| && Keyed(r.value, key)
    ensures r.Ok? ==> forall x :: x in r.value <==> x in items && HasValue(x, key, v) == equal
    decreases |items|
  {
    if |items| == 0 then Ok([])
    else
      var n := |items| - 1;
      match FilterBy(items[..n], key, v, equal)
      case Err(e) => Err(e)
      case Ok(kept) =>
        match Index(items[n], key)
        case Err(e) => Err(e)
        case Ok(x) =>
          assert items == items[..n] + [items[n]];
          Ok(kept + (if (x == JStr(v)) == equal then [items[n]] else []))
  }

  /** Filtering keeps relative order: it distributes over concatenation. */
  lemma {:induction false} FilterByAppend(a: seq<Json>, b: seq<Json>, key: string, v: string, equal: bool)
    requires Keyed(a, key) && Keyed(b, key)
    ensures Keyed(a + b, key)
    ensures FilterBy(a + b, key, v, equal).value
            == FilterBy(a, key, v, equal).value + FilterBy(b, key, v, equal).value
    decreases |b|
  {
    if |b| > 0 {
      var n := |b| - 1;
      FilterByAppend(a, b[..n], key, v, equal);
      assert (a + b)[..|a + b| - 1] == a + b[..n];
      assert (a + b)[|a + b| - 1] == b[n];
    } else {
      assert a + b == a;
    }
  }

  /** `remove_create_instance`: keep the entries whose `instance_id` differs. */
  function RemoveCreateInstance(c: Codec, notes: string, id: string): (r: Step<()>)
  {
    var l := Read(c, notes);
    var g := GetPublishInstances(c, l.notes);
    match g.result
    case Err(e) => Step(g.notes, Err(e))
    case Ok(v) =>
      match Items(c, v)
      case Err(e) => Step(g.notes, Err(e))
      case Ok(items) =>
        match FilterBy(items, "instance_id", id, false)
        case Err(e) => Step(g.notes, Err(e))
        case Ok(kept) => Store(c, g.notes, l.data, InstancesKey, JArr(kept))
  }

  /**
   * On stored notes, removing drops every entry with the id and nothing else;
   * an entry without an `instance_id` raises `KeyError` and changes nothing.
   */
  lemma RemoveCreateInstanceDrops(c: Codec, notes: string, b: map<string, Json>, items: seq<Json>, id: string)
    requires Lawful(c) && Stored(c, notes, b) && InstancesIn(b) == JArr(items)
    requires Keyed(items, "instance_id")
    requires Safe(c, JObj(b[InstancesKey := JArr(FilterBy(items, "instance_id", id, false).value)]))
    ensures var r := RemoveCreateInstance(c, notes, id);
            var kept := FilterBy(items, "instance_id", id, false).value;
            && r.result == Ok(())
            && Stored(c, r.notes, b[InstancesKey := JArr(kept)])
            && (forall x :: x in kept <==> x in items && !HasValue(x, "instance_id", id))
  {
    StoreStored(c, notes, b, InstancesKey, JArr(FilterBy(items, "instance_id", id, false).value));
  }

  /** An entry that is a dict without `instance_id` makes removal raise `KeyError`, leaving the notes. */
  lemma RemoveUnkeyedRaises(c: Codec, notes: string, b: map<string, Json>, items: seq<Json>, id: string, i: nat)
    requires Stored(c, notes, b) && InstancesIn(b) == JArr(items)
    requires i < |items| && items[i].JObj? && "instance_id" !in items[i].fields
    ensures RemoveCreateInstance(c, notes, id).notes == notes
    ensures RemoveCreateInstance(c, notes, id).result.Err?
  {
    assert !Keyed(items, "instance_id");
  }

  /** `write_create_instances`: the stored value becomes `instances`. */
  function WriteCreateInstances(c: Codec, notes: string, instances: Json): (r: Step<()>)
  {
    var l := Read(c, notes);
    Store(c, l.notes, l.data, InstancesKey, instances)
  }

  /** On stored notes, writing the instances replaces them and keeps every other key. */
  lemma WriteCreateInstancesReplaces(c: Codec, notes: string, b: map<string, Json>, instances: Json)
    requires Lawful(c) && Stored(c, notes, b)
    requires Safe(c, JObj(b[InstancesKey := instances]))
    ensures var r := WriteCreateInstances(c, notes, instances);
            && r.result == Ok(())
            && Stored(c, r.notes, b[InstancesKey := instances])
  {
    StoreStored(c, notes, b, InstancesKey, instances);
  }

  /**
   * A stored empty dict of instances is iterated like an empty list:
   * updating stores the dict back unchanged, and removing stores `[]`.
   */
  lemma EmptyDictInstances(c: Codec, notes: string, b: map<string, Json>, id: string, data: Json)
    requires Lawful(c) && Stored(c, notes, b) && InstancesIn(b) == EmptyObject
    requires Safe(c, JObj(b)) && Safe(c, JObj(b[InstancesKey := JArr([])]))
    ensures var r := UpdatePublishInstance(c, notes, id, data);
            r.result == Ok(()) && Stored(c, r.notes, b)
    ensures var r := RemoveCreateInstance(c, notes, id);
            r.result == Ok(()) && Stored(c, r.notes, b[InstancesKey := JArr([])])
  {
    ItemsOfObject(c, EmptyObject);
    assert InstancesKey in b;
    assert b[InstancesKey := EmptyObject] == b;
    StoreStored(c, notes, b, InstancesKey, EmptyObject);
    StoreStored(c, notes, b, InstancesKey, JArr([]));
  }
}
