/**
 * A role of the application builder (ABRoleCore): four attributes read
 * from and written back to a plain object, and the list of scopes the
 * role grants, which starts empty.
 */
module Role {
  import opened JsValues
  import opened Wrappers
  import opened Sequences

  /** The four attributes a role carries, as its own properties. */
  datatype RoleRecord = RoleRecord(id: Value, name: Value, description: Value, translations: Value)

  /** The names `toObj` writes, which are the names `fromValues` reads. */
  const RoleKeys: set<string> := {"id", "name", "description", "translations"}

  /** The attribute of a role under one of its property names; undefined under any other name. */
  function Attribute(r: RoleRecord, k: string): Value {
    match k
    case "id" => r.id
    case "name" => r.name
    case "description" => r.description
    case "translations" => r.translations
    case _ => Undefined
  }

  /** `fromValues(values = {})`: each attribute is read from values, undefined when absent; no argument reads as `{}`. */
  function RecordFrom(values: Option<map<string, Value>>): (r: RoleRecord)
    ensures values.Some? ==> forall k :: k in RoleKeys ==> Attribute(r, k) == Get(values.value, k)
    ensures values.Some? ==> forall k :: k in RoleKeys && k !in values.value ==> Attribute(r, k) == Undefined
    ensures values.None? ==> forall k :: k in RoleKeys ==> Attribute(r, k) == Undefined
  {
    var v := if values.Some? then values.value else map[];
    RoleRecord(Get(v, "id"), Get(v, "name"), Get(v, "description"), Get(v, "translations"))
  }

  class ABRole {
    var id: Value
    var name: Value
    var description: Value
    var translations: Value
    /** `_scopes` */
    var scopeList: seq<Value>

    /** The role's four attributes as a value. */
    function Record(): RoleRecord
      reads this
    {
      RoleRecord(id, name, description, translations)
    }

    /** `new ABRoleCore(values)`: no scopes yet, then `fromValues(values)`. */
    constructor (values: Option<map<string, Value>>)
      ensures Record() == RecordFrom(values)
      ensures scopeList == []
    {
      scopeList := [];
      id, name, description, translations := Undefined, Undefined, Undefined, Undefined;
      new;
      FromValues(values);
    }

    /** `fromValues(values)`: replaces the four attributes and leaves the scopes alone. */
    method FromValues(values: Option<map<string, Value>>)
      modifies this
      ensures Record() == RecordFrom(values)
      ensures scopeList == old(scopeList)
    {
      var v := if values.Some? then values.value else map[];
      id := Get(v, "id");
      name := Get(v, "name");
      description := Get(v, "description");
      translations := Get(v, "translations");
    }

    /** `toObj()`: an object with exactly the four attribute names, which `fromValues` reads back as this role's attributes. */
    function ToObj(): (obj: map<string, Value>)
      reads this
      ensures obj.Keys == RoleKeys
      ensures RecordFrom(Some(obj)) == Record()
    {
      map["id" := id, "name" := name, "description" := description, "translations" := translations]
    }

    /**
     * `scopes(filter)`: the role's scopes that pass the filter, in their
     * order; all of them when no filter is given.
     */
    function Scopes(filter: Option<Value -> bool>): (r: seq<Value>)
      reads this
      ensures |r| <= |scopeList|
      ensures forall i :: 0 <= i < |r| ==> r[i] in scopeList && OrAll(filter)(r[i])
      ensures forall i :: 0 <= i < |scopeList| && OrAll(filter)(scopeList[i]) ==> scopeList[i] in r
      ensures filter.None? ==> r == scopeList
    {
      if filter.None? then
        FilterAll(scopeList, OrAll(filter));
        Filter(scopeList, OrAll(filter))
      else Filter(scopeList, OrAll(filter))
    }
  }

  /** Writing a role out and reading it back into a role reproduces all four attributes. */
  lemma RoundTrip(values: map<string, Value>, r: ABRole, r': ABRole)
    requires r.Record() == RecordFrom(Some(values))
    requires r'.Record() == RecordFrom(Some(r.ToObj()))
    ensures r'.Record() == RecordFrom(Some(values))
    ensures forall k :: k in RoleKeys ==> r'.ToObj()[k] == Get(values, k)
  {
  }

  /** `fromValues()` without an argument leaves every attribute undefined. */
  lemma NoArgumentIsUndefined()
    ensures RecordFrom(None) == RoleRecord(Undefined, Undefined, Undefined, Undefined)
  {
  }

  /** A role just built grants no scope, whatever the filter. */
  lemma FreshRoleHasNoScopes(r: ABRole, filter: Option<Value -> bool>)
    requires r.scopeList == []
    ensures r.Scopes(filter) == []
  {
  }
}
