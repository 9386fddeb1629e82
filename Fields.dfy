/**
 * A data field as the application holds it: one class for the base field
 * and its two subtypes (the subtype is a tag, and each method follows the
 * override of its subtype), the record a default is filled into, and the
 * validator errors are reported to.
 *
 * Each method is proved against the specification functions of modules
 * FieldCore, FieldString and FieldEmail.
 */
module Fields {
  import opened JsValues
  import opened FieldCore
  import opened FieldString
  import opened FieldEmail
  import opened Sequences
  import opened EmailPattern

  /** Which class a field is: the base with a given descriptor, the string field, or the email field. */
  datatype FieldKind = Generic(defaults: FieldDefaults) | StringKind | EmailKind

  function DefaultsOf(kind: FieldKind): FieldDefaults {
    match kind
    case Generic(d) => d
    case StringKind => StringDefaults
    case EmailKind => EmailDefaults
  }

  /** What `fromValues` makes of a field whose id was prevId, by kind (the email field does not override it). */
  function FromValuesSpec(kind: FieldKind, prevId: Value, values: map<string, Value>, translate: Translation): FieldState
    requires SettingsUsable(values)
  {
    match kind
    case StringKind => StringFromValues(prevId, values, translate)
    case _ => BaseFromValues(prevId, DefaultsOf(kind), values)
  }

  /**
   * `application.translate(field, field, ['label'])`: the label the
   * application leaves on a field, from its state (its translations and the
   * current language are the application's, not part of this model).
   */
  type LabelTranslation = FieldState -> Value

  /**
   * The state right after construction: `fromValues`, then the label
   * translated by the application; the email constructor then adds its
   * `default`.
   */
  function InitialState(kind: FieldKind, values: map<string, Value>, translate: Translation, translateLabel: LabelTranslation): FieldState
    requires SettingsUsable(values)
  {
    var s := FromValuesSpec(kind, Undefined, values, translate);
    var s := s.(caption := translateLabel(s));
    if kind.EmailKind? then s.(settings := EmailSettings(s.settings, values)) else s
  }

  /** What `defaultValue` does to a record, by kind: the base field always writes "". */
  function FillSpec(kind: FieldKind, settings: map<string, Value>, column: string, values: map<string, Value>, uuid: Value): Filled {
    match kind
    case Generic(_) => Filled(values[column := Str("")])
    case StringKind => StringDefaultFill(values, column, Get(settings, "default"), uuid)
    case EmailKind => Filled(EmailDefaultFill(values, column, Get(settings, "default")))
  }

  /** The errors `isValidData` reports, by kind. */
  function ErrorsSpec(kind: FieldKind, settings: map<string, Value>, column: string, data: map<string, Value>): seq<FieldError> {
    match kind
    case Generic(_) => RequiredErrors(settings, column, data)
    case StringKind => StringErrors(settings, column, data)
    case EmailKind => EmailErrors(column, data)
  }

  /** A record being created: `defaultValue` writes into it. */
  class Row {
    var values: map<string, Value>

    constructor (values: map<string, Value>)
      ensures this.values == values
    {
      this.values := values;
    }
  }

  /** The validator passed to `isValidData`: the errors added so far, in order. */
  class Validator {
    var errors: seq<FieldError>

    constructor ()
      ensures errors == []
    {
      errors := [];
    }

    /** `addError(column, message)` */
    method AddError(column: string, message: Message)
      modifies this
      ensures errors == old(errors) + [FieldError(column, message)]
    {
      errors := errors + [FieldError(column, message)];
    }
  }

  class ABField {
    const kind: FieldKind
    var id: Value
    var key: Value
    var icon: Value
    var caption: Value
    var columnName: Value
    var translations: Value
    var isImported: Value
    var settings: map<string, Value>

    function State(): FieldState
      reads this
    {
      FieldState(id, key, icon, caption, columnName, translations, isImported, settings)
    }

    /** The type descriptor (`this.defaults`). */
    function Defaults(): FieldDefaults {
      DefaultsOf(kind)
    }

    /** The key under which the field's value is stored in a record. */
    function Column(): string
      reads this
    {
      Key(columnName)
    }

    /**
     * `new ABField…(values, object)`: the constructor runs `fromValues` on a
     * field without an id (so the id comes from values) and lets the
     * application translate the label; the email field then sets its
     * `default`. Construction throws when `fromValues` does, so the model
     * requires usable settings.
     */
    constructor (kind: FieldKind, values: map<string, Value>, translate: Translation, translateLabel: LabelTranslation)
      requires SettingsUsable(values)
      ensures this.kind == kind
      ensures State() == InitialState(kind, values, translate, translateLabel)
    {
      this.kind := kind;
      id, key, icon, caption, columnName, translations, isImported := Undefined, Undefined, Undefined, Undefined, Undefined, Undefined, Undefined;
      settings := map[];
      new;
      var thrown := FromValues(values, translate);
      caption := translateLabel(State());
      if kind.EmailKind? {
        TakeEmailDefault(values);
      }
    }

    /**
     * The email constructor's own settings: the loop over its default
     * values (only `default`, with fallback "") and then the same
     * assignment written out once more.
     */
    method TakeEmailDefault(values: map<string, Value>)
      modifies this`settings
      ensures settings == EmailSettings(old(settings), values)
    {
      var names := ["default"];
      var fallbacks := map["default" := Str("")];
      for i := 0 to |names|
        invariant settings == if i == 0 then old(settings) else EmailSettings(old(settings), values)
      {
        settings := settings[names[i] := Or(SettingIn(values, names[i]), fallbacks[names[i]])];
      }
      settings := settings["default" := Or(SettingIn(values, "default"), Str(""))];
    }

    /** The base `fromValues` steps, in the source's order, up to the point where an unusable settings value throws. */
    method BaseFromValuesSteps(values: map<string, Value>) returns (thrown: bool)
      modifies this
      ensures thrown <==> !SettingsUsable(values)
      ensures id == (if Truthy(old(id)) then old(id) else Get(values, "id"))
      ensures key == Or(Get(values, "key"), Defaults().key) && icon == Or(Get(values, "icon"), Defaults().icon)
      ensures !thrown ==> State() == BaseFromValues(old(id), Defaults(), values)
    {
      TakeIdentity(values);
      var given := SettingsIn(values);
      if !Truthy(Get(values, "label")) && LooseNull(given) {
        return true;   // reading `values.settings.label`
      }
      TakeLabels(values);
      thrown := TakeSettings(values);
    }

    /**
     * The settings part of `fromValues`: null or undefined settings and a
     * truthy primitive throw; otherwise the settings are normalised and
     * isImported is then parsed like them.
     */
    method TakeSettings(values: map<string, Value>) returns (thrown: bool)
      modifies this`settings, this`isImported
      ensures thrown <==> !SettingsUsable(values)
      ensures !thrown ==> settings == NormalizedSettings(values) && isImported == ParseIntValue(old(isImported))
    {
      var given := SettingsIn(values);
      if LooseNull(given) {
        settings := map[];
        return true;   // reading `values.settings.showIcon`
      }
      if Truthy(given) && !given.Obj? && !given.Arr? {
        return true;   // a primitive cannot take the property `showIcon`
      }
      // the settings are written and then converted from "0" to 0, like isImported
      NormalizeSettings(values);
      isImported := ParseIntValue(isImported);
      return false;
    }

    /** The id is taken from values only when the field has none; key and icon fall back to the type's. */
    method TakeIdentity(values: map<string, Value>)
      modifies this`id, this`key, this`icon
      ensures id == (if Truthy(old(id)) then old(id) else Get(values, "id"))
      ensures key == Or(Get(values, "key"), Defaults().key) && icon == Or(Get(values, "icon"), Defaults().icon)
    {
      if !Truthy(id) {
        id := Get(values, "id");
      }
      key := Or(Get(values, "key"), Defaults().key);
      icon := Or(Get(values, "icon"), Defaults().icon);
    }

    /** The label, column name, translations and the unparsed isImported, with their fallbacks. */
    method TakeLabels(values: map<string, Value>)
      requires Truthy(Get(values, "label")) || !LooseNull(SettingsIn(values))
      modifies this`caption, this`columnName, this`translations, this`isImported
      ensures caption == Or(Or(Get(values, "label"), SettingIn(values, "label")), Str("?label?"))
      ensures columnName == Or(Get(values, "columnName"), Str(""))
      ensures translations == Or(Get(values, "translations"), Arr([]))
      ensures isImported == Or(Get(values, "isImported"), Num(0))
    {
      caption := Or(Or(Get(values, "label"), Prop(SettingsIn(values), "label")), Str("?label?"));
      columnName := Or(Get(values, "columnName"), Str(""));
      translations := Or(Get(values, "translations"), Arr([]));
      isImported := Or(Get(values, "isImported"), Num(0));
    }

    /**
     * `this.settings = values.settings || {}`, the three display settings
     * written as strings with their fallbacks, then parsed to integers.
     */
    method NormalizeSettings(values: map<string, Value>)
      requires SettingsUsable(values)
      modifies this`settings
      ensures settings == NormalizedSettings(values)
    {
      var given := SettingsIn(values);
      var base := SettingsBase(values);
      var showIcon, required, width :=
        Or(Str(ToString(Prop(given, "showIcon"))), Str("1")),
        Or(Str(ToString(Prop(given, "required"))), Str("1")),
        Or(Str(ToString(Prop(given, "width"))), Str("0"));
      settings := base;
      settings := settings["showIcon" := showIcon];
      settings := settings["required" := required];
      settings := settings["width" := width];
      settings := settings["showIcon" := ParseIntValue(settings["showIcon"])];
      settings := settings["required" := ParseIntValue(settings["required"])];
      settings := settings["width" := ParseIntValue(settings["width"])];
      Overwrite(base, showIcon, required, width, ParseIntValue(showIcon), ParseIntValue(required), ParseIntValue(width));
      SettingsSteps(values);
    }

    /** Writing the three display settings and then overwriting them leaves only the second writes. */
    static lemma Overwrite(base: map<string, Value>, a: Value, b: Value, c: Value, a': Value, b': Value, c': Value)
      ensures base["showIcon" := a]["required" := b]["width" := c]["showIcon" := a']["required" := b']["width" := c']
              == WithDisplaySettings(base, a', b', c')
    {
    }

    /** The parsed display settings are the normalised ones. */
    static lemma SettingsSteps(values: map<string, Value>)
      requires SettingsUsable(values)
      ensures WithDisplaySettings(SettingsBase(values),
                ParseIntValue(Or(Str(ToString(SettingIn(values, "showIcon"))), Str("1"))),
                ParseIntValue(Or(Str(ToString(SettingIn(values, "required"))), Str("1"))),
                ParseIntValue(Or(Str(ToString(SettingIn(values, "width"))), Str("0"))))
              == NormalizedSettings(values)
    {
      assert IntToString(1) == "1" && IntToString(0) == "0";
      NumericSettingMatchesSource(SettingIn(values, "showIcon"), 1);
      NumericSettingMatchesSource(SettingIn(values, "required"), 1);
      NumericSettingMatchesSource(SettingIn(values, "width"), 0);
    }

    /**
     * `fromValues(values)`: the base steps and, for the string field, its two
     * settings. It throws exactly when the settings are unusable; the id,
     * key and icon are assigned before that point.
     */
    method FromValues(values: map<string, Value>, translate: Translation) returns (thrown: bool)
      modifies this
      ensures thrown <==> !SettingsUsable(values)
      ensures id == (if Truthy(old(id)) then old(id) else Get(values, "id"))
      ensures key == Or(Get(values, "key"), Defaults().key) && icon == Or(Get(values, "icon"), Defaults().icon)
      ensures !thrown ==> State() == FromValuesSpec(kind, old(id), values, translate)
    {
      thrown := BaseFromValuesSteps(values);
      if thrown || !kind.StringKind? {
        return;
      }
      TakeStringSettings(values, translate);
    }

    /** The string field's part of `fromValues`, after the base normalisation. */
    method TakeStringSettings(values: map<string, Value>, translate: Translation)
      requires SettingsUsable(values) && settings == NormalizedSettings(values)
      modifies this`settings
      ensures settings == Translated(UntranslatedSettings(values), translate)
    {
      var default := Or(SettingIn(values, "default"), Str(""));
      var flag := Or(Str(ToString(SettingIn(values, "supportMultilingual"))), Num(0));
      ghost var base := settings;
      settings := settings["default" := default];
      settings := settings["supportMultilingual" := flag];
      // text to int
      settings := settings["supportMultilingual" := ParseIntValue(settings["supportMultilingual"])];
      NumericSettingMatchesSource(SettingIn(values, "supportMultilingual"), 0);
      StringOverwrite(base, default, flag, ParseIntValue(flag));
      if Truthy(settings["supportMultilingual"]) {
        settings := settings["default" := translate(settings)];
      } else {
        settings := settings["default" := default];
      }
    }

    /** Writing the flag twice leaves the second write, and writing the same default again changes nothing. */
    static lemma StringOverwrite(base: map<string, Value>, default: Value, flag: Value, flag': Value)
      ensures base["default" := default]["supportMultilingual" := flag]["supportMultilingual" := flag']
              == base["default" := default]["supportMultilingual" := flag']
      ensures base["default" := default]["supportMultilingual" := flag']["default" := default]
              == base["default" := default]["supportMultilingual" := flag']
    {
    }

    /**
     * `toObj()`: the seven persisted attributes; the settings in the output
     * are the field's own, which a multilingual string field first passes
     * through the un-translation.
     */
    method ToObj(unTranslate: map<string, Value> -> map<string, Value>) returns (obj: map<string, Value>)
      modifies this
      ensures kind.StringKind? ==> settings == ToObjSettings(old(settings), unTranslate)
      ensures !kind.StringKind? ==> settings == old(settings)
      ensures State() == old(State()).(settings := settings)
      ensures obj == BaseToObj(State())
    {
      if kind.StringKind? && Truthy(Get(settings, "supportMultilingual")) {
        settings := unTranslate(settings);
      }
      obj := BaseToObj(State());
    }

    /** `defaultValue(values)`; thrown is the TypeError of a string field whose default has no `indexOf`. */
    method DefaultValue(row: Row, uuid: Value) returns (thrown: bool)
      modifies row
      ensures var r := FillSpec(kind, settings, Column(), old(row.values), uuid);
              (thrown <==> r.TypeError?) && (r.Filled? ==> row.values == r.values) && (thrown ==> row.values == old(row.values))
    {
      var column := Column();
      thrown := false;
      match kind {
        case Generic(_) =>
          row.values := row.values[column := Str("")];
        case StringKind =>
          if !Truthy(Get(row.values, column)) {
            var default := Get(settings, "default");
            if Truthy(default) {
              if default.Str? {
                if ContainsSubstring(default.s, "{uuid}") {
                  row.values := row.values[column := uuid];
                } else {
                  row.values := row.values[column := default];
                }
              } else if default.Arr? {
                if Str("{uuid}") in default.items {
                  row.values := row.values[column := uuid];
                } else {
                  row.values := row.values[column := default];
                }
              } else {
                thrown := true;
              }
            }
          }
        case EmailKind =>
          if !Truthy(Get(row.values, column)) {
            var default := Get(settings, "default");
            if Truthy(default) {
              row.values := row.values[column := default];
            }
          }
      }
    }

    /** `isValidData(data, validator)`: the errors of this field's value are appended to the validator's. */
    method IsValidData(data: map<string, Value>, validator: Validator)
      modifies validator
      ensures validator.errors == old(validator.errors) + ErrorsSpec(kind, settings, Column(), data)
    {
      var column := Column();
      var v := Get(data, column);
      if !kind.EmailKind? && Truthy(Get(settings, "required")) && LooselyEmpty(v) {
        validator.AddError(column, RequiredField);
      }
      if kind.StringKind? && Truthy(v) && LongerThan(v, MaxCharLength) {
        validator.AddError(column, TooLong(MaxCharLength));
      }
      if kind.EmailKind? && Truthy(v) && !IsEmail(Lower(ToString(v))) {
        validator.AddError(column, InvalidEmail);
      }
    }

    /** `isMultilingual`: only a string field can be, when its flag is loosely 1. */
    function IsMultilingual(): (r: bool)
      reads this
      ensures !kind.StringKind? ==> !r
      ensures kind.StringKind? ==> (r <==> StringIsMultilingual(settings))
    {
      kind.StringKind? && StringIsMultilingual(settings)
    }

    /** `fieldKey()`, `fieldIcon()`, `fieldMenuName()`, `fieldDescription()` */
    function FieldKey(): Value { Defaults().key }
    function FieldIcon(): Value { Defaults().icon }
    function FieldMenuName(): Value { Defaults().menuName }
    function FieldDescription(): Value { Defaults().description }

    /** `fieldIsFilterable()`, `fieldIsSortable()`, `fieldUseAsLabel()`, `fieldSupportRequire()` */
    function FieldIsFilterable(): Value reads this { LookupCapability(Defaults().isFilterable, State()) }
    function FieldIsSortable(): Value reads this { LookupCapability(Defaults().isSortable, State()) }
    function FieldUseAsLabel(): Value reads this { LookupCapability(Defaults().useAsLabel, State()) }
    function FieldSupportRequire(): Value { SupportRequire(Defaults().supportRequire) }

    /** `fieldOrmTypes()`, `fieldMysqlTypes()` */
    function FieldOrmTypes(): seq<Value> { AsTypeList(Defaults().compatibleOrmTypes) }
    function FieldMysqlTypes(): seq<Value> { AsTypeList(Defaults().compatibleMysqlTypes) }
  }
}
