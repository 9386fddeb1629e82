/**
 * The object-lifecycle trigger (ABProcessTriggerLifecycleCore): a start task
 * that fires on an object's lifecycle event and exposes the captured record
 * to later tasks through the keys `"<diagram id>.uuid"` and
 * `"<diagram id>.<field id>[.<accessor>]"`.
 */
module TriggerLifecycle {
  import opened JsValues
  import opened Wrappers
  import opened Sequences
  import opened ProcessElement

  const LifecycleDefaults := TaskDefaults(
    "TriggerLifecycle", "key", Some("start"), Some(["objectID", "lifecycleKey"]))

  /** `defaults()` */
  function Defaults(): (d: TaskDefaults)
    ensures d.key == "TriggerLifecycle" && d.category == Some("start")
    ensures d.fields == Some(["objectID", "lifecycleKey"])
  {
    LifecycleDefaults
  }

  /** `DiagramReplace()` */
  function LifecycleDiagramReplace(): (r: DiagramReplace)
    ensures r.targetType == "bpmn:StartEvent" && r.eventDefinitionType == "ab:SignalLifecycle"
  {
    DiagramReplace("Object Lifecycle Trigger", "replace-with-signal-lifecycle-start",
                   "bpmn-icon-start-event-signal", "bpmn:StartEvent", "ab:SignalLifecycle")
  }

  /** The constructor's `attributes.type || "trigger"`. */
  function TriggerType(attributes: map<string, Value>): (t: Value)
    ensures Truthy(Get(attributes, "type")) ==> t == Get(attributes, "type")
    ensures !Truthy(Get(attributes, "type")) ==> t == Str("trigger")
  {
    Or(Get(attributes, "type"), Str("trigger"))
  }

  /** What `fromValues` stores as `objectID`: the attribute, or `"objID.??"` when it is falsy. */
  function ObjectIDFrom(attributes: map<string, Value>): (v: Value)
    ensures Truthy(v)
    ensures Truthy(Get(attributes, "objectID")) ==> v == Get(attributes, "objectID")
    ensures !Truthy(Get(attributes, "objectID")) ==> v == Str("objID.??")
  {
    Or(Get(attributes, "objectID"), Str("objID.??"))
  }

  /** What `fromValues` stores as `lifecycleKey`: the attribute, or `"lifecycle.key??"` when it is falsy. */
  function LifecycleKeyFrom(attributes: map<string, Value>): (v: Value)
    ensures Truthy(v)
    ensures Truthy(Get(attributes, "lifecycleKey")) ==> v == Get(attributes, "lifecycleKey")
    ensures !Truthy(Get(attributes, "lifecycleKey")) ==> v == Str("lifecycle.key??")
  {
    Or(Get(attributes, "lifecycleKey"), Str("lifecycle.key??"))
  }

  /** The entry advertised for one field of the trigger's object. */
  function FieldEntry(myID: string, caption: string, obj: DataObject, f: ObjectField): DataFieldEntry {
    DataFieldEntry(DataKey(myID, f.id), caption + "->" + obj.caption + "->" + f.caption, Some(f), Some(obj))
  }

  /** The closing entry that stands for the triggering record itself. */
  function UuidEntry(myID: string, caption: string, obj: DataObject): DataFieldEntry {
    DataFieldEntry(DataKey(myID, "uuid"), caption + "->" + obj.caption, None, Some(obj))
  }

  /** The accessor methods a field offers, by name; None when `field[name]` is not a function. */
  type Accessor = (ObjectField, string, Value) -> Option<Value>

  class LifecycleTrigger {
    const id: string         // the task's id (used for its state slot and in error reports)
    const diagramID: string  // the id of its diagram node (used in its data keys)
    const caption: string    // the task's label
    const taskType: Value
    var objectID: Value
    var lifecycleKey: Value

    /** The base constructor hydrates the task with `fromValues(attributes)`. */
    constructor (id: string, diagramID: string, caption: string, attributes: map<string, Value>)
      ensures this.id == id && this.diagramID == diagramID && this.caption == caption
      ensures taskType == TriggerType(attributes)
      ensures objectID == ObjectIDFrom(attributes) && lifecycleKey == LifecycleKeyFrom(attributes)
    {
      this.id := id;
      this.diagramID := diagramID;
      this.caption := caption;
      taskType := TriggerType(attributes);
      objectID := Undefined;
      lifecycleKey := Undefined;
      new;
      FromValues(attributes);
    }

    /** `fromValues(attributes)` on top of the base class's. */
    method FromValues(attributes: map<string, Value>)
      modifies this
      ensures objectID == ObjectIDFrom(attributes)
      ensures lifecycleKey == LifecycleKeyFrom(attributes)
    {
      objectID := Or(Get(attributes, "objectID"), Str("objID.??"));
      lifecycleKey := Or(Get(attributes, "lifecycleKey"), Str("lifecycle.key??"));
    }

    /** `toObj()`: the base class's object with the two trigger attributes added. */
    function ToObj(base: map<string, Value>): (data: map<string, Value>)
      reads this
      ensures data.Keys == base.Keys + {"objectID", "lifecycleKey"}
      ensures data["objectID"] == objectID && data["lifecycleKey"] == lifecycleKey
      ensures forall k :: k in base && k != "objectID" && k != "lifecycleKey" ==> data[k] == base[k]
    {
      base["objectID" := objectID]["lifecycleKey" := lifecycleKey]
    }

    /**
     * `processDataFields()`: None (null) when no object is configured; when the
     * object is missing, one error report and an empty list; otherwise one
     * entry per object field, in field order, then the uuid entry.
     */
    method ProcessDataFields(registry: Registry) returns (fields: Option<seq<DataFieldEntry>>, reported: seq<ErrorReport>)
      ensures fields.None? <==> !Truthy(objectID)
      ensures !Truthy(objectID) ==> reported == []
      ensures Truthy(objectID) && objectID !in registry ==>
                fields == Some([]) && reported == [ObjectNotResolved(id, objectID)]
      ensures Truthy(objectID) && objectID in registry ==>
                var obj := registry[objectID];
                && reported == []
                && |fields.value| == |obj.fields| + 1
                && (forall i :: 0 <= i < |obj.fields| ==> fields.value[i] == FieldEntry(diagramID, caption, obj, obj.fields[i]))
                && fields.value[|obj.fields|] == UuidEntry(diagramID, caption, obj)
    {
      fields := None;
      reported := [];
      if Truthy(objectID) {
        var out: seq<DataFieldEntry> := [];
        var found := ObjectByID(registry, objectID);
        if found.Some? {
          var obj := found.value;
          var myID := diagramID;
          var i := 0;
          while i < |obj.fields|
            invariant 0 <= i <= |obj.fields|
            invariant |out| == i
            invariant forall j :: 0 <= j < i ==> out[j] == FieldEntry(myID, caption, obj, obj.fields[j])
          {
            out := out + [FieldEntry(myID, caption, obj, obj.fields[i])];
            i := i + 1;
          }
          out := out + [UuidEntry(myID, caption, obj)];
        } else {
          reported := reported + [ObjectNotResolved(id, objectID)];
        }
        fields := Some(out);
      }
    }

    /**
     * `processData(instance, key)`: the key is split on dots into
     * `[trigger id, field ref, accessor?]`.
     */
    function ProcessData(inst: Instance, key: string, registry: Registry, accessor: Accessor): (r: Resolved)
      reads this
      ensures var parts := Split(key, '.');
              var data := Get(MyState(inst, id), "data");
              && (parts[0] != diagramID || !Truthy(data) ==> r == Answer(Null))
              && (parts[0] == diagramID && Truthy(data) && |parts| > 1 && parts[1] == "uuid" ==> r == Answer(Prop(data, "uuid")))
              && (parts[0] == diagramID && Truthy(data) && !(|parts| > 1 && parts[1] == "uuid") && objectID !in registry ==>
                    r == Throws(ObjectNotFound))
              && (r.Throws? ==> parts[0] == diagramID && Truthy(data) && (r.fault == ObjectNotFound <==> objectID !in registry))
              && (r.Throws? && r.fault == AccessorNotCallable ==> |parts| > 2 && parts[2] != "")
    {
      var parts := Split(key, '.');
      if parts[0] != diagramID then Answer(Null)
      else
        var data := Get(MyState(inst, id), "data");
        if !Truthy(data) then Answer(Null)
        else if |parts| > 1 && parts[1] == "uuid" then Answer(Prop(data, "uuid"))
        else if objectID !in registry then Throws(ObjectNotFound)
        else
          // `parts[1]` is undefined for a key without a dot, and no field id equals undefined
          var matching := Filter(registry[objectID].fields, (f: ObjectField) => |parts| > 1 && f.id == parts[1]);
          if matching == [] then Answer(Null)
          else
            var field := matching[0];
            if |parts| > 2 && parts[2] != "" then
              match accessor(field, parts[2], data)
              case Some(v) => Answer(v)
              case None => Throws(AccessorNotCallable)
            else Answer(Prop(data, field.columnName))
    }

    /** `processDataObjects()`: null when no object is configured, else the one looked-up object. */
    function ProcessDataObjects(registry: Registry): (r: Option<seq<Option<DataObject>>>)
      reads this
      ensures r.None? <==> !Truthy(objectID)
      ensures r.Some? ==> r.value == [ObjectByID(registry, objectID)]
    {
      if Truthy(objectID) then Some([ObjectByID(registry, objectID)]) else None
    }
  }

  // ---------------------------------------------------------------------
  // Properties of the trigger
  // ---------------------------------------------------------------------

  /** `fromValues(toObj())` keeps both trigger attributes once they are set. */
  lemma RoundTrip(t: LifecycleTrigger, base: map<string, Value>)
    requires Truthy(t.objectID) && Truthy(t.lifecycleKey)
    ensures ObjectIDFrom(t.ToObj(base)) == t.objectID
    ensures LifecycleKeyFrom(t.ToObj(base)) == t.lifecycleKey
  {
  }

  /** A key whose first segment is not the diagram id resolves to null. */
  lemma ProcessDataOtherTask(t: LifecycleTrigger, inst: Instance, key: string, registry: Registry, accessor: Accessor)
    requires Split(key, '.')[0] != t.diagramID
    ensures t.ProcessData(inst, key, registry, accessor) == Answer(Null)
  {
  }

  /** Before an event has been captured (no `data` in the state), every key resolves to null. */
  lemma ProcessDataNoData(t: LifecycleTrigger, inst: Instance, key: string, registry: Registry, accessor: Accessor)
    requires !Truthy(Get(MyState(inst, t.id), "data"))
    ensures t.ProcessData(inst, key, registry, accessor) == Answer(Null)
  {
  }

  /** `"<diagram id>.uuid"` resolves to the captured record's uuid. */
  lemma ProcessDataUuid(t: LifecycleTrigger, inst: Instance, registry: Registry, accessor: Accessor)
    requires '.' !in t.diagramID
    requires Truthy(Get(MyState(inst, t.id), "data"))
    ensures t.ProcessData(inst, DataKey(t.diagramID, "uuid"), registry, accessor)
            == Answer(Prop(Get(MyState(inst, t.id), "data"), "uuid"))
  {
    DataKeySplits(t.diagramID, "uuid");
  }

  /** `"<diagram id>.<fid>"` with no field of id fid resolves to null. */
  lemma ProcessDataUnknownField(t: LifecycleTrigger, inst: Instance, fid: string, registry: Registry, accessor: Accessor)
    requires '.' !in t.diagramID && '.' !in fid && fid != "uuid"
    requires t.objectID in registry
    requires forall f :: f in registry[t.objectID].fields ==> f.id != fid
    ensures t.ProcessData(inst, DataKey(t.diagramID, fid), registry, accessor) == Answer(Null)
  {
    DataKeySplits(t.diagramID, fid);
  }

  /** A dotted diagram id can never be matched, so such a trigger answers null to every key. */
  lemma ProcessDataDottedId(t: LifecycleTrigger, inst: Instance, key: string, registry: Registry, accessor: Accessor)
    requires '.' in t.diagramID
    ensures t.ProcessData(inst, key, registry, accessor) == Answer(Null)
  {
    DottedIdMatchesNoKey(t.diagramID, key);
  }

  /**
   * Every key that processDataFields advertises for an object field resolves,
   * once data is captured, to the record's value at the column of the first
   * field with that id; the uuid entry resolves to the record's uuid.
   */
  lemma AdvertisedFieldKeyResolves(t: LifecycleTrigger, inst: Instance, registry: Registry, accessor: Accessor, i: nat)
    requires t.objectID in registry
    requires i < |registry[t.objectID].fields|
    requires '.' !in t.diagramID && '.' !in registry[t.objectID].fields[i].id
    requires registry[t.objectID].fields[i].id != "uuid"
    requires forall j :: 0 <= j < i ==> registry[t.objectID].fields[j].id != registry[t.objectID].fields[i].id
    requires Truthy(Get(MyState(inst, t.id), "data"))
    ensures var obj := registry[t.objectID];
            t.ProcessData(inst, FieldEntry(t.diagramID, t.caption, obj, obj.fields[i]).key, registry, accessor)
            == Answer(Prop(Get(MyState(inst, t.id), "data"), obj.fields[i].columnName))
  {
    var obj := registry[t.objectID];
    var fid := obj.fields[i].id;
    DataKeySplits(t.diagramID, fid);
    var parts := Split(DataKey(t.diagramID, fid), '.');
    assert parts == [t.diagramID, fid];
    FilterFirst(obj.fields, (f: ObjectField) => |parts| > 1 && f.id == parts[1], i);
  }

  /** A third key segment names an accessor, which is called on the field with the captured record. */
  lemma ProcessDataAccessor(t: LifecycleTrigger, inst: Instance, registry: Registry, accessor: Accessor, i: nat, name: string)
    requires t.objectID in registry
    requires i < |registry[t.objectID].fields|
    requires '.' !in t.diagramID && '.' !in registry[t.objectID].fields[i].id && '.' !in name && name != ""
    requires registry[t.objectID].fields[i].id != "uuid"
    requires forall j :: 0 <= j < i ==> registry[t.objectID].fields[j].id != registry[t.objectID].fields[i].id
    requires Truthy(Get(MyState(inst, t.id), "data"))
    ensures var field := registry[t.objectID].fields[i];
            var data := Get(MyState(inst, t.id), "data");
            t.ProcessData(inst, DataKey(DataKey(t.diagramID, field.id), name), registry, accessor)
            == match accessor(field, name, data)
               case Some(v) => Answer(v)
               case None => Throws(AccessorNotCallable)
  {
    var obj := registry[t.objectID];
    var fid := obj.fields[i].id;
    var key := DataKey(DataKey(t.diagramID, fid), name);
    assert key == t.diagramID + "." + (fid + "." + name);
    SplitAtSeparator(t.diagramID, fid + "." + name, '.');
    SplitPair(fid, name, '.');
    var parts := Split(key, '.');
    assert parts == [t.diagramID, fid, name];
    FilterFirst(obj.fields, (f: ObjectField) => |parts| > 1 && f.id == parts[1], i);
  }

  /**
   * A worked example: an object with the field
   * `{id: "f1", columnName: "name"}` and captured data
   * `{uuid: "r1", name: "Alice"}`.
   */
  lemma WorkedExample(t: LifecycleTrigger, inst: Instance, registry: Registry, accessor: Accessor)
    requires t.diagramID == "T" && t.objectID == Str("o1")
    requires registry == map[Str("o1") := DataObject(Str("o1"), "Obj", [ObjectField("f1", "First", "name")])]
    requires inst == map[t.id := map["data" := Obj(map["uuid" := Str("r1"), "name" := Str("Alice")])]]
    ensures t.ProcessData(inst, "T.uuid", registry, accessor) == Answer(Str("r1"))
    ensures t.ProcessData(inst, "T.f1", registry, accessor) == Answer(Str("Alice"))
  {
    DataKeySplits("T", "uuid");
    assert DataKey("T", "uuid") == "T.uuid";
    ProcessDataUuid(t, inst, registry, accessor);
    AdvertisedFieldKeyResolves(t, inst, registry, accessor, 0);
    assert FieldEntry("T", t.caption, registry[Str("o1")], ObjectField("f1", "First", "name")).key == "T.f1";
  }
}
