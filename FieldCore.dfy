/**
 * What every data field shares (ABFieldCore): the static type descriptor
 * and its capability lookups, the normalisation `fromValues` applies to a
 * field's stored definition, what `toObj` emits, and the base `required`
 * check. The class that holds a field's state is in module Fields; the
 * functions here are the specification its methods are proved against.
 */
module FieldCore {
  import opened JsValues

  /** `ABFieldCore.reservedNames`: column names a field may not take. */
  function ReservedNames(): (r: seq<string>)
    ensures |r| == 6
    ensures forall n :: n in r <==> n in {"id", "created_at", "updated_at", "properties", "createdAt", "updatedAt"}
  {
    ["id", "created_at", "updated_at", "properties", "createdAt", "updatedAt"]
  }

  /** A capability setting of a field type: a plain value (possibly null), or a function of the field. */
  datatype Capability = Plain(v: Value) | Computed(f: FieldState -> Value)

  /** The static descriptor a field type passes to the base constructor (`fieldDefaults`). */
  datatype FieldDefaults = FieldDefaults(
    key: Value,
    icon: Value,
    menuName: Value,
    description: Value,
    isFilterable: Capability,
    isSortable: Capability,
    useAsLabel: Capability,
    supportRequire: Value,
    compatibleOrmTypes: Value,
    compatibleMysqlTypes: Value)

  /** The attributes `fromValues` gives a field. */
  datatype FieldState = FieldState(
    id: Value,
    key: Value,
    icon: Value,
    caption: Value,   // the field's label
    columnName: Value,
    translations: Value,
    isImported: Value,
    settings: map<string, Value>)

  // ---------------------------------------------------------------------
  // Capability lookups
  // ---------------------------------------------------------------------

  /**
   * `fieldOrmTypes()` / `fieldMysqlTypes()`: an array as it is, any other
   * truthy value as a one-element list, and nothing when the entry is falsy.
   */
  function AsTypeList(v: Value): (r: seq<Value>)
    ensures !Truthy(v) ==> r == []
    ensures v.Arr? ==> r == v.items
    ensures Truthy(v) && !v.Arr? ==> r == [v]
  {
    if !Truthy(v) then [] else if v.Arr? then v.items else [v]
  }

  /** Reading the list back as an array entry gives the same list. */
  lemma AsTypeListStable(v: Value)
    ensures AsTypeList(Arr(AsTypeList(v))) == AsTypeList(v)
  {
  }

  /**
   * `fieldIsFilterable()`, `fieldIsSortable()`, `fieldUseAsLabel()`: 1 when
   * the entry is null or undefined, the entry's result on the field when it
   * is a function, and the entry itself otherwise.
   */
  function LookupCapability(c: Capability, field: FieldState): (r: Value)
    ensures c.Computed? ==> r == c.f(field)
    ensures c.Plain? && LooseNull(c.v) ==> r == Num(1)
    ensures c.Plain? && !LooseNull(c.v) ==> r == c.v
  {
    match c
    case Computed(f) => f(field)
    case Plain(v) => if LooseNull(v) then Num(1) else v
  }

  /** `fieldSupportRequire()`: the entry when it is truthy, else true — so the answer is always truthy. */
  function SupportRequire(v: Value): (r: Value)
    ensures Truthy(r)
    ensures Truthy(v) ==> r == v
    ensures !Truthy(v) ==> r == Bool(true)
  {
    if Truthy(v) then v else Bool(true)
  }

  /** A configured `false` disables filtering, but not the required setting. */
  lemma FalseCapabilities(field: FieldState)
    ensures LookupCapability(Plain(Bool(false)), field) == Bool(false)
    ensures SupportRequire(Bool(false)) == Bool(true)
  {
  }

  // ---------------------------------------------------------------------
  // fromValues
  // ---------------------------------------------------------------------

  /** `values.settings` */
  function SettingsIn(values: map<string, Value>): Value {
    Get(values, "settings")
  }

  /** `values.settings.<k>`: reading a property of a primitive gives undefined. */
  function SettingIn(values: map<string, Value>, k: string): Value {
    Prop(SettingsIn(values), k)
  }

  /**
   * `fromValues` runs to completion exactly when `values.settings` is an
   * object or a falsy non-null value: null or undefined settings make
   * `values.settings.label` / `.showIcon` throw, and a truthy primitive is
   * kept as `this.settings` and then cannot take properties (class code is
   * strict mode code).
   */
  predicate SettingsUsable(values: map<string, Value>) {
    var s := SettingsIn(values);
    s.Obj? || s.Arr? || (!Truthy(s) && !LooseNull(s))
  }

  /**
   * `this.settings = values.settings || {}`, as a map of named properties.
   * Settings given as an array are read as an empty object: the array's
   * items are not kept.
   */
  function SettingsBase(values: map<string, Value>): map<string, Value> {
    var s := SettingsIn(values);
    if s.Obj? then s.props else map[]
  }

  /**
   * `parseInt(x + "" || fallback)` for an integer fallback: the setting's
   * string form is parsed, and only an empty string form takes the fallback
   * (see NumericSettingMatchesSource).
   */
  function NumericSetting(x: Value, fallback: int): (r: Value)
    ensures r.Num? || r.NaN?
  {
    if PrintsEmpty(x) then Num(fallback) else ParseIntValue(x)
  }

  /** NumericSetting is the source's `parseInt(x + "" || fallback)` with the fallback written as a decimal string or a number. */
  lemma NumericSettingMatchesSource(x: Value, fallback: int)
    ensures NumericSetting(x, fallback) == ParseIntValue(Or(Str(ToString(x)), Str(IntToString(fallback))))
    ensures NumericSetting(x, fallback) == ParseIntValue(Or(Str(ToString(x)), Num(fallback)))
  {
    PrintsEmptyIff(x);
    if PrintsEmpty(x) {
      ParseIntOfIntToString(fallback);
      assert Or(Str(ToString(x)), Str(IntToString(fallback))) == Str(IntToString(fallback));
      assert Or(Str(ToString(x)), Num(fallback)) == Num(fallback);
    } else {
      ParseIntValueReadsString(x);
      assert Or(Str(ToString(x)), Num(fallback)) == Str(ToString(x));
    }
  }

  /** `settings.showIcon = …; settings.required = …; settings.width = …` */
  function WithDisplaySettings(base: map<string, Value>, showIcon: Value, required: Value, width: Value): (m: map<string, Value>)
    ensures m.Keys == base.Keys + {"showIcon", "required", "width"}
    ensures m["showIcon"] == showIcon && m["required"] == required && m["width"] == width
    ensures forall k :: k in base && k != "showIcon" && k != "required" && k != "width" ==> m[k] == base[k]
  {
    base["showIcon" := showIcon]["required" := required]["width" := width]
  }

  /** The settings after `fromValues`: the given settings with the three display settings normalised. */
  function NormalizedSettings(values: map<string, Value>): (m: map<string, Value>)
    ensures m.Keys == SettingsBase(values).Keys + {"showIcon", "required", "width"}
    ensures forall k :: k in SettingsBase(values) && k != "showIcon" && k != "required" && k != "width" ==>
              m[k] == SettingsBase(values)[k]
    ensures m["showIcon"] == NumericSetting(SettingIn(values, "showIcon"), 1)
    ensures m["required"] == NumericSetting(SettingIn(values, "required"), 1)
    ensures m["width"] == NumericSetting(SettingIn(values, "width"), 0)
  {
    WithDisplaySettings(SettingsBase(values),
                        NumericSetting(SettingIn(values, "showIcon"), 1),
                        NumericSetting(SettingIn(values, "required"), 1),
                        NumericSetting(SettingIn(values, "width"), 0))
  }

  /**
   * The base `fromValues(values)` on a field whose id was `prevId`: the id
   * is taken only when none is set, key and icon fall back to the type's
   * defaults, the label to `settings.label` and then `'?label?'`, the column
   * name to `''`, the translations to `[]`, and isImported is parsed to an
   * integer (or NaN).
   */
  function BaseFromValues(prevId: Value, defaults: FieldDefaults, values: map<string, Value>): (r: FieldState)
    requires SettingsUsable(values)
    ensures Truthy(prevId) ==> r.id == prevId
    ensures !Truthy(prevId) ==> r.id == Get(values, "id")
    ensures Truthy(Get(values, "key")) ==> r.key == Get(values, "key")
    ensures !Truthy(Get(values, "key")) ==> r.key == defaults.key
    ensures Truthy(Get(values, "icon")) ==> r.icon == Get(values, "icon")
    ensures !Truthy(Get(values, "icon")) ==> r.icon == defaults.icon
    ensures Truthy(Get(values, "label")) ==> r.caption == Get(values, "label")
    ensures !Truthy(Get(values, "label")) && Truthy(SettingIn(values, "label")) ==> r.caption == SettingIn(values, "label")
    ensures !Truthy(Get(values, "label")) && !Truthy(SettingIn(values, "label")) ==> r.caption == Str("?label?")
    ensures Truthy(r.caption)
    ensures Truthy(Get(values, "columnName")) ==> r.columnName == Get(values, "columnName")
    ensures !Truthy(Get(values, "columnName")) ==> r.columnName == Str("")
    ensures Truthy(Get(values, "translations")) ==> r.translations == Get(values, "translations")
    ensures !Truthy(Get(values, "translations")) ==> r.translations == Arr([])
    ensures r.isImported.Num? || r.isImported.NaN?
    ensures r.settings == NormalizedSettings(values)
  {
    FieldState(
      id := if Truthy(prevId) then prevId else Get(values, "id"),
      key := Or(Get(values, "key"), defaults.key),
      icon := Or(Get(values, "icon"), defaults.icon),
      caption := Or(Or(Get(values, "label"), SettingIn(values, "label")), Str("?label?")),
      columnName := Or(Get(values, "columnName"), Str("")),
      translations := Or(Get(values, "translations"), Arr([])),
      isImported := ParseIntValue(Or(Get(values, "isImported"), Num(0))),
      settings := NormalizedSettings(values))
  }

  /** `toObj()`: exactly the seven persisted attributes; the label is not among them. */
  function BaseToObj(s: FieldState): (obj: map<string, Value>)
    ensures obj.Keys == {"id", "key", "icon", "isImported", "columnName", "settings", "translations"}
    ensures "label" !in obj
  {
    map["id" := s.id, "key" := s.key, "icon" := s.icon, "isImported" := s.isImported,
        "columnName" := s.columnName, "settings" := Obj(s.settings), "translations" := s.translations]
  }

  // ---------------------------------------------------------------------
  // What the numeric settings become
  // ---------------------------------------------------------------------

  /** Only a setting whose string form is empty (`""`, `[]`) takes the fallback. */
  lemma NumericSettingFallback(x: Value, fallback: int)
    ensures NumericSetting(x, fallback) == Num(fallback) <== ToString(x) == ""
    ensures ToString(x) != "" ==> NumericSetting(x, fallback) == ParseIntValue(x)
  {
    PrintsEmptyIff(x);
  }

  /** An absent setting is read as the string "undefined", which parses to NaN, not to the fallback. */
  lemma AbsentSettingIsNaN(fallback: int)
    ensures NumericSetting(Undefined, fallback) == NaN
  {
    ParseIntValueReadsString(Undefined);
  }

  /** An integer setting, given as a number or as its decimal string, is stored as that integer. */
  lemma IntegerSettingKept(n: int, fallback: int)
    ensures NumericSetting(Num(n), fallback) == Num(n)
    ensures NumericSetting(Str(IntToString(n)), fallback) == Num(n)
  {
    ParseIntOfIntToString(n);
    assert |NatToString(if n < 0 then -n else n)| >= 1;
  }

  /** The stored form of a setting is a fixed point: normalising it again changes nothing. */
  lemma NumericSettingIdempotent(x: Value, fallback: int, fallback': int)
    ensures NumericSetting(NumericSetting(x, fallback), fallback') == NumericSetting(x, fallback)
  {
  }

  /** `parseInt(x || 0)` on a value that is already a stored isImported: NaN becomes 0, numbers stay. */
  lemma ImportedFlagReparsed(v: Value)
    requires v.Num? || v.NaN?
    ensures ParseIntValue(Or(v, Num(0))) == (if v.NaN? then Num(0) else v)
  {
  }

  /** Writing the same three display settings twice is writing them once. */
  lemma WithDisplaySettingsTwice(base: map<string, Value>, showIcon: Value, required: Value, width: Value)
    ensures var m := WithDisplaySettings(base, showIcon, required, width);
            WithDisplaySettings(m, showIcon, required, width) == m
  {
  }

  /** Normalising settings that are already normalised gives them back. */
  lemma RenormalizeSettings(values: map<string, Value>, o: map<string, Value>)
    requires SettingsIn(o) == Obj(NormalizedSettings(values))
    ensures NormalizedSettings(o) == NormalizedSettings(values)
  {
    var m := NormalizedSettings(values);
    var showIcon := NumericSetting(SettingIn(values, "showIcon"), 1);
    var required := NumericSetting(SettingIn(values, "required"), 1);
    var width := NumericSetting(SettingIn(values, "width"), 0);
    assert m == WithDisplaySettings(SettingsBase(values), showIcon, required, width);
    assert SettingsBase(o) == m;
    NumericSettingIdempotent(SettingIn(values, "showIcon"), 1, 1);
    NumericSettingIdempotent(SettingIn(values, "required"), 1, 1);
    NumericSettingIdempotent(SettingIn(values, "width"), 0, 0);
    assert SettingIn(o, "showIcon") == showIcon;
    assert SettingIn(o, "required") == required;
    assert SettingIn(o, "width") == width;
    assert NormalizedSettings(o) == WithDisplaySettings(m, showIcon, required, width);
    WithDisplaySettingsTwice(SettingsBase(values), showIcon, required, width);
  }

  /** What a property read on `toObj()`'s result gives. */
  lemma ToObjReads(s: FieldState)
    ensures var o := BaseToObj(s);
            && Get(o, "id") == s.id && Get(o, "key") == s.key && Get(o, "icon") == s.icon
            && Get(o, "columnName") == s.columnName && Get(o, "translations") == s.translations
            && Get(o, "isImported") == s.isImported && Get(o, "label") == Undefined
            && SettingsIn(o) == Obj(s.settings) && SettingsUsable(o)
  {
  }

  /** The settings survive a `toObj` / `fromValues` round trip. */
  lemma RoundTripSettings(prevId: Value, defaults: FieldDefaults, values: map<string, Value>)
    requires SettingsUsable(values)
    ensures var s := BaseFromValues(prevId, defaults, values);
            SettingsUsable(BaseToObj(s)) && BaseFromValues(s.id, defaults, BaseToObj(s)).settings == s.settings
  {
    var s := BaseFromValues(prevId, defaults, values);
    ToObjReads(s);
    RenormalizeSettings(values, BaseToObj(s));
  }

  /** isImported survives a round trip, except that NaN comes back as 0. */
  lemma RoundTripImported(prevId: Value, defaults: FieldDefaults, values: map<string, Value>)
    requires SettingsUsable(values)
    ensures var s := BaseFromValues(prevId, defaults, values);
            SettingsUsable(BaseToObj(s)) &&
            BaseFromValues(s.id, defaults, BaseToObj(s)).isImported == (if s.isImported.NaN? then Num(0) else s.isImported)
  {
    var s := BaseFromValues(prevId, defaults, values);
    ToObjReads(s);
    ImportedFlagReparsed(s.isImported);
  }

  /** `a || b || b` is `a || b`. */
  lemma OrAbsorbs(a: Value, b: Value)
    ensures Or(Or(a, b), b) == Or(a, b)
  {
  }

  /** The plain attributes survive a round trip; the label falls back to `settings.label`. */
  lemma RoundTripAttributes(prevId: Value, defaults: FieldDefaults, values: map<string, Value>)
    requires SettingsUsable(values)
    ensures var s := BaseFromValues(prevId, defaults, values);
            var s' := BaseFromValues(s.id, defaults, BaseToObj(s));
            && s'.id == s.id && s'.key == s.key && s'.icon == s.icon
            && s'.columnName == s.columnName && s'.translations == s.translations
            && s'.caption == Or(Get(s.settings, "label"), Str("?label?"))
  {
    var s := BaseFromValues(prevId, defaults, values);
    ToObjReads(s);
    OrAbsorbs(Get(values, "key"), defaults.key);
    OrAbsorbs(Get(values, "icon"), defaults.icon);
    OrAbsorbs(Get(values, "columnName"), Str(""));
    OrAbsorbs(Get(values, "translations"), Arr([]));
  }

  /**
   * Re-reading what `toObj` emits reproduces the field, except that the
   * label falls back to `settings.label` (toObj does not emit it) and a NaN
   * isImported comes back as 0.
   */
  lemma BaseRoundTrip(prevId: Value, defaults: FieldDefaults, values: map<string, Value>)
    requires SettingsUsable(values)
    ensures var s := BaseFromValues(prevId, defaults, values);
            SettingsUsable(BaseToObj(s)) &&
            BaseFromValues(s.id, defaults, BaseToObj(s))
            == s.(caption := Or(Get(s.settings, "label"), Str("?label?")),
                  isImported := if s.isImported.NaN? then Num(0) else s.isImported)
  {
    RoundTripSettings(prevId, defaults, values);
    RoundTripImported(prevId, defaults, values);
    RoundTripAttributes(prevId, defaults, values);
  }

  // ---------------------------------------------------------------------
  // Validation
  // ---------------------------------------------------------------------

  /** The messages the field validators produce. */
  datatype Message =
    | RequiredField        // 'This is a required field.'
    | TooLong(limit: nat)  // 'should NOT be longer than {0} characters', with the limit as {0}
    | InvalidEmail         // 'Invalid email'

  /** One entry of a validator: the column (a key of the data) and the message. */
  datatype FieldError = FieldError(column: string, message: Message)

  /** `data[columnName] == null || data[columnName] == ''` */
  predicate LooselyEmpty(v: Value) {
    LooseNull(v) || LooseEmptyString(v)
  }

  /** The base `isValidData`: one error exactly when the field is required and the value is loosely empty. */
  function RequiredErrors(settings: map<string, Value>, column: string, data: map<string, Value>): (r: seq<FieldError>)
    ensures |r| <= 1
    ensures r != [] <==> Truthy(Get(settings, "required")) && LooselyEmpty(Get(data, column))
    ensures forall i :: 0 <= i < |r| ==> r[i] == FieldError(column, RequiredField)
  {
    if Truthy(Get(settings, "required")) && LooselyEmpty(Get(data, column)) then [FieldError(column, RequiredField)]
    else []
  }

  /** A required field's check: missing, null, `''`, `0`, `false` and `[]` all fail; a non-empty string passes. */
  lemma RequiredCheckCases(settings: map<string, Value>, column: string, data: map<string, Value>, s: string)
    requires Truthy(Get(settings, "required"))
    ensures column !in data ==> |RequiredErrors(settings, column, data)| == 1
    ensures |RequiredErrors(settings, column, data[column := Num(0)])| == 1
    ensures |RequiredErrors(settings, column, data[column := Arr([])])| == 1
    ensures s != "" ==> RequiredErrors(settings, column, data[column := Str(s)]) == []
  {
  }

  /** A field whose `required` setting was absent from its definition is stored as NaN and never required. */
  lemma AbsentRequiredNotEnforced(prevId: Value, defaults: FieldDefaults, values: map<string, Value>, column: string, data: map<string, Value>)
    requires SettingsUsable(values)
    requires SettingIn(values, "required") == Undefined
    ensures RequiredErrors(BaseFromValues(prevId, defaults, values).settings, column, data) == []
  {
    AbsentSettingIsNaN(1);
  }
}
