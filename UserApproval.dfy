/**
 * The user-approval task (ABProcessTaskUserApprovalCore): a task that is
 * completed by a user's response to a form, and that offers that response
 * to later tasks under the key `"<task id>.userFormResponse"`.
 */
module UserApproval {
  import opened JsValues
  import opened Wrappers
  import opened Sequences
  import opened ProcessElement

  /** The definition-level attributes the task persists, in declaration order. */
  const ApprovalFields: seq<string> := ["who", "toUsers", "userFormID", "userFormResponse"]

  /** `defaults()` */
  function Defaults(): (d: TaskDefaults)
    ensures d.key == "Approval" && d.icon == "check-circle" && d.category == None
    ensures d.fields == Some(ApprovalFields)
  {
    TaskDefaults("Approval", "check-circle", None, Some(ApprovalFields))
  }

  /** `DiagramReplace()`: the task offers no replace-menu entry. */
  function ApprovalDiagramReplace(): (r: Option<DiagramReplace>)
    ensures r.None?
  {
    None
  }

  /** The constructor's `attributes.type || "process.task.user.approval"`. */
  function ApprovalType(attributes: map<string, Value>): (t: Value)
    ensures Truthy(Get(attributes, "type")) ==> t == Get(attributes, "type")
    ensures !Truthy(Get(attributes, "type")) ==> t == Str("process.task.user.approval")
  {
    Or(Get(attributes, "type"), Str("process.task.user.approval"))
  }

  /** The declared attributes as `fromValues` copies them: each one, undefined when absent. */
  function DeclaredFrom(attributes: map<string, Value>): (d: map<string, Value>)
    ensures d.Keys == {"who", "toUsers", "userFormID", "userFormResponse"}
    ensures forall f :: f in d ==> d[f] == Get(attributes, f)
  {
    map["who" := Get(attributes, "who"), "toUsers" := Get(attributes, "toUsers"),
        "userFormID" := Get(attributes, "userFormID"), "userFormResponse" := Get(attributes, "userFormResponse")]
  }

  /** `names.forEach(f => into[f] = src[f])`, one name at a time. */
  function CopyNamed(into: map<string, Value>, names: seq<string>, src: map<string, Value>): map<string, Value> {
    if names == [] then into
    else CopyNamed(into, names[..|names| - 1], src)[names[|names| - 1] := Get(src, names[|names| - 1])]
  }

  /** Copying the declared names one by one overwrites exactly those names with the source's values. */
  lemma CopyDeclared(into: map<string, Value>, src: map<string, Value>)
    ensures CopyNamed(into, ApprovalFields, src) == into + DeclaredFrom(src)
  {
    var fs := ApprovalFields;
    assert fs[..1][..0] == [] && fs[..2][..1] == fs[..1] && fs[..3][..2] == fs[..2] && fs[..|fs| - 1] == fs[..3];
    assert CopyNamed(into, fs[..1], src) == into["who" := Get(src, "who")];
    assert CopyNamed(into, fs[..2], src) == into["who" := Get(src, "who")]["toUsers" := Get(src, "toUsers")];
    assert CopyNamed(into, fs[..3], src)
        == into["who" := Get(src, "who")]["toUsers" := Get(src, "toUsers")]["userFormID" := Get(src, "userFormID")];
  }

  /** The one data field the task advertises. */
  function ResponseEntry(taskId: string, caption: string): DataFieldEntry {
    DataFieldEntry(DataKey(taskId, "userFormResponse"), caption + "->Response", None, None)
  }

  /** The state a freshly initialised approval task starts from. */
  const ApprovalStateDefaults: TaskStateSlot := map["userFormID" := Null, "userFormResponse" := Null]

  class UserApprovalTask {
    const id: string
    const caption: string
    const taskType: Value
    /** The task's own properties `this[f]` for the declared attribute names f. */
    var declared: map<string, Value>

    /** The base constructor hydrates the task with `fromValues(attributes)`. */
    constructor (id: string, caption: string, attributes: map<string, Value>)
      ensures this.id == id && this.caption == caption
      ensures taskType == ApprovalType(attributes)
      ensures declared == DeclaredFrom(attributes)
    {
      this.id := id;
      this.caption := caption;
      taskType := ApprovalType(attributes);
      declared := map[];
      new;
      FromValues(attributes);
    }

    /** `fromValues(attributes)`: copies every declared attribute onto the task. */
    method FromValues(attributes: map<string, Value>)
      modifies this
      ensures declared == old(declared) + DeclaredFrom(attributes)
    {
      var i := 0;
      while i < |ApprovalFields|
        invariant 0 <= i <= |ApprovalFields|
        invariant declared == CopyNamed(old(declared), ApprovalFields[..i], attributes)
      {
        var f := ApprovalFields[i];
        assert ApprovalFields[..i + 1][..i] == ApprovalFields[..i];
        declared := declared[f := Get(attributes, f)];
        i := i + 1;
      }
      assert ApprovalFields[..i] == ApprovalFields;
      CopyDeclared(old(declared), attributes);
    }

    /** `toObj()`: the base class's object with every declared attribute written back. */
    method ToObj(base: map<string, Value>) returns (data: map<string, Value>)
      ensures data == base + DeclaredFrom(declared)
    {
      data := base;
      var i := 0;
      while i < |ApprovalFields|
        invariant 0 <= i <= |ApprovalFields|
        invariant data == CopyNamed(base, ApprovalFields[..i], declared)
      {
        var f := ApprovalFields[i];
        assert ApprovalFields[..i + 1][..i] == ApprovalFields[..i];
        data := data[f := Get(declared, f)];
        i := i + 1;
      }
      assert ApprovalFields[..i] == ApprovalFields;
      CopyDeclared(base, declared);
    }

    /** `initState(context, val)`: userFormID and userFormResponse start as null. */
    function InitState(inst: Instance, val: TaskStateSlot): (r: Instance)
      reads this
      ensures id !in inst && "userFormResponse" !in val ==> Get(MyState(r, id), "userFormResponse") == Null
      ensures id !in inst && "userFormID" !in val ==> Get(MyState(r, id), "userFormID") == Null
      ensures id !in inst ==> forall k :: k in val ==> Get(MyState(r, id), k) == val[k]
      ensures id in inst ==> r == inst
    {
      InitSlot(inst, id, ApprovalStateDefaults, val)
    }

    /** `processDataFields()`: exactly the response to the user form. */
    function ProcessDataFields(): (fields: seq<DataFieldEntry>)
      reads this
      ensures |fields| == 1
      ensures fields[0].key == id + ".userFormResponse" && fields[0].caption == caption + "->Response"
    {
      [ResponseEntry(id, caption)]
    }

    /**
     * `processData(instance, key)`: for a key of this task, whatever the
     * task's state holds under the key's second segment (the property
     * `"undefined"` when there is none); null for any other key.
     */
    function ProcessData(inst: Instance, key: string): (r: Value)
      reads this
      ensures Split(key, '.')[0] != id ==> r == Null
      ensures Split(key, '.')[0] == id && |Split(key, '.')| > 1 ==> r == Get(MyState(inst, id), Split(key, '.')[1])
      ensures Split(key, '.') == [id] ==> r == Get(MyState(inst, id), "undefined")
    {
      var parts := Split(key, '.');
      if parts[0] == id then
        Get(MyState(inst, id), if |parts| > 1 then parts[1] else "undefined")
      else Null
    }
  }

  // ---------------------------------------------------------------------
  // Properties of the approval task
  // ---------------------------------------------------------------------

  /** Reading the declared attributes back from what `toObj` writes gives exactly the task's own. */
  lemma RoundTrip(base: map<string, Value>, declared: map<string, Value>)
    requires declared.Keys == {"who", "toUsers", "userFormID", "userFormResponse"}
    ensures DeclaredFrom(base + DeclaredFrom(declared)) == declared
  {
  }

  /** `fromValues` is idempotent: hydrating from the same attributes twice changes nothing more. */
  lemma DeclaredFromIdempotent(attributes: map<string, Value>)
    ensures DeclaredFrom(DeclaredFrom(attributes)) == DeclaredFrom(attributes)
  {
  }

  /** The advertised key resolves to the state's userFormResponse. */
  lemma AdvertisedKeyResolves(t: UserApprovalTask, inst: Instance)
    requires '.' !in t.id
    ensures t.ProcessData(inst, t.ProcessDataFields()[0].key) == Get(MyState(inst, t.id), "userFormResponse")
  {
    DataKeySplits(t.id, "userFormResponse");
  }

  /** Right after initialisation without overrides, the response reads as null. */
  lemma FreshResponseIsNull(t: UserApprovalTask, inst: Instance)
    requires '.' !in t.id && t.id !in inst
    ensures t.ProcessData(t.InitState(inst, map[]), t.ProcessDataFields()[0].key) == Null
  {
    AdvertisedKeyResolves(t, t.InitState(inst, map[]));
  }

  /** Keys of other tasks resolve to null. */
  lemma OtherKeysAreNull(t: UserApprovalTask, inst: Instance, key: string)
    requires Split(key, '.')[0] != t.id
    ensures t.ProcessData(inst, key) == Null
  {
  }

  /** A key naming any other state variable of this task returns it as well. */
  lemma AnyStateVariableResolves(t: UserApprovalTask, inst: Instance, name: string)
    requires '.' !in t.id && '.' !in name
    ensures t.ProcessData(inst, DataKey(t.id, name)) == Get(MyState(inst, t.id), name)
  {
    DataKeySplits(t.id, name);
  }
}
