/**
 * What the three process-task variants share: the static task-type
 * descriptor, the per-instance state store, the data-resolution key scheme
 * `"<task id>.<field>[.<accessor>]"`, and the object registry the lifecycle
 * trigger consults.
 *
 * The base classes ABProcessElement, ABProcessTask and ABProcessTrigger are
 * not part of this model. Two of their behaviours are needed and are stated
 * here as explicit assumptions rather than verified facts: `myState(instance)`
 * (see MyState) and the base `initState(context, defaults, val)` (see InitSlot).
 *
 * `label` is a reserved word in Dafny, so the source's `label` attributes are
 * called `caption` throughout the model.
 */
module ProcessElement {
  import opened JsValues
  import opened Wrappers
  import opened Sequences

  /** The static descriptor a task type registers with (`defaults()`). */
  datatype TaskDefaults = TaskDefaults(
    key: string,
    icon: string,
    category: Option<string>,   // one of "start", "gateway", "task", "end", or absent/null
    fields: Option<seq<string>> // the definition-level attributes the task persists, if declared
  )

  /** The descriptor `DiagramReplace()` returns for the diagram's replace menu (`caption` is its `label`). */
  datatype DiagramReplace = DiagramReplace(
    caption: string,
    actionName: string,
    className: string,
    targetType: string,
    eventDefinitionType: string
  )

  /** The state a task keeps on a running process instance. */
  type TaskStateSlot = map<string, Value>

  /** A running process instance: one state slot per task id. */
  type Instance = map<string, TaskStateSlot>

  /**
   * ASSUMPTION about the base class (not in the source): `myState(instance)`
   * is the slot of the task's id; an absent slot reads as an empty object.
   */
  function MyState(inst: Instance, taskId: string): TaskStateSlot {
    if taskId in inst then inst[taskId] else map[]
  }

  /**
   * ASSUMPTION about the base class (not in the source): `initState(context,
   * myDefaults, val)` writes `myDefaults` merged with the overrides `val`
   * (overrides win) into the task's slot, and only when the slot is still empty.
   */
  function InitSlot(inst: Instance, taskId: string, defaults: TaskStateSlot, val: TaskStateSlot): (r: Instance)
    ensures r.Keys == inst.Keys + {taskId}
    ensures taskId in inst ==> r == inst
    ensures taskId !in inst ==> r[taskId].Keys == defaults.Keys + val.Keys
    ensures taskId !in inst ==> forall k :: k in val ==> r[taskId][k] == val[k]
    ensures taskId !in inst ==> forall k :: k in defaults && k !in val ==> r[taskId][k] == defaults[k]
    ensures forall other :: other in inst && other != taskId ==> r[other] == inst[other]
  {
    if taskId in inst then inst else inst[taskId := defaults + val]
  }

  /** Initialising twice is the same as initialising once: a re-entered task keeps its state. */
  lemma InitSlotIdempotent(inst: Instance, taskId: string, defaults: TaskStateSlot, val: TaskStateSlot, val': TaskStateSlot)
    ensures InitSlot(InitSlot(inst, taskId, defaults, val), taskId, defaults, val') == InitSlot(inst, taskId, defaults, val)
  {
  }

  /** With no extra override keys, a fresh slot holds exactly the task's default keys. */
  lemma InitSlotExactKeys(inst: Instance, taskId: string, defaults: TaskStateSlot, val: TaskStateSlot)
    requires taskId !in inst
    requires val.Keys <= defaults.Keys
    ensures MyState(InitSlot(inst, taskId, defaults, val), taskId).Keys == defaults.Keys
  {
  }

  // ---------------------------------------------------------------------
  // The data-resolution protocol
  // ---------------------------------------------------------------------

  /** A field of a data object, as the object registry describes it. */
  datatype ObjectField = ObjectField(id: string, caption: string, columnName: string)

  /** A data object known to the registry (`AB.objectByID`). */
  datatype DataObject = DataObject(id: Value, caption: string, fields: seq<ObjectField>)

  /** The object registry, abstractly: object id to object. */
  type Registry = map<Value, DataObject>

  /** `AB.objectByID(id)`: undefined when the registry does not know the id. */
  function ObjectByID(registry: Registry, id: Value): Option<DataObject> {
    if id in registry then Some(registry[id]) else None
  }

  /** One entry of `processDataFields()`. */
  datatype DataFieldEntry = DataFieldEntry(
    key: string,
    caption: string,
    field: Option<ObjectField>,
    object: Option<DataObject>
  )

  /** What `processData` does: return a value, or throw a TypeError. */
  datatype Resolved = Answer(value: Value) | Throws(fault: Fault)

  datatype Fault =
    | ObjectNotFound      // `object.fields(...)` on an undefined object
    | AccessorNotCallable // `field[name].call(...)` where `field[name]` is not a function

  /** An error handed to the process-wide error reporter (`AB.error`). */
  datatype ErrorReport = ObjectNotResolved(taskId: string, objectID: Value)

  /** The key under which a task advertises one of its outputs: `"<id>.<name>"`. */
  function DataKey(taskId: string, name: string): string {
    taskId + "." + name
  }

  /** Keys built by DataKey split back into the task id and the name. */
  lemma DataKeySplits(taskId: string, name: string)
    requires '.' !in taskId && '.' !in name
    ensures Split(DataKey(taskId, name), '.') == [taskId, name]
  {
    SplitPair(taskId, name, '.');
  }

  /** The first segment of a split key never holds a dot, so a dotted id matches no key. */
  lemma DottedIdMatchesNoKey(taskId: string, key: string)
    requires '.' in taskId
    ensures Split(key, '.')[0] != taskId
  {
  }
}
