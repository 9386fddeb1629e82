/**
 * The single-line text field (ABFieldStringCore): its type descriptor, the
 * `default` and `supportMultilingual` settings its `fromValues` adds, what
 * its `toObj` does to them, how it fills a default into a new record, and
 * the 255-character limit its validator enforces.
 *
 * Translation of the default between languages belongs to the multilingual
 * base class, which is not part of this model; it enters as a function
 * parameter.
 */
module FieldString {
  import opened JsValues
  import opened Sequences
  import opened FieldCore
  import opened Wrappers

  /** `MAX_CHAR_LENGTH` */
  const MaxCharLength: nat := 255

  /** `ABFieldStringDefaults` */
  const StringDefaults := FieldDefaults(
    Str("string"), Str("font"), Str("Single line text"), Str("short string value"),
    Plain(Bool(true)), Plain(Bool(true)), Plain(Bool(true)),
    Bool(true),
    Arr([Str("string")]), Arr([Str("char"), Str("varchar"), Str("tinytext")]))

  /** What a translation makes of the settings when the field is multilingual: the new `default`. */
  type Translation = map<string, Value> -> Value

  // ---------------------------------------------------------------------
  // fromValues / toObj
  // ---------------------------------------------------------------------

  /** The settings after the base normalisation and the two string settings, before any translation. */
  function UntranslatedSettings(values: map<string, Value>): map<string, Value>
    requires SettingsUsable(values)
  {
    NormalizedSettings(values)["default" := Or(SettingIn(values, "default"), Str(""))]
                              ["supportMultilingual" := NumericSetting(SettingIn(values, "supportMultilingual"), 0)]
  }

  /**
   * `fromValues`: the base fields, a `default` that is the given one or "",
   * and `supportMultilingual` parsed like the base numeric settings with 0
   * as its fallback. A multilingual field then takes its default from the
   * translation; otherwise the default is written again with the same value.
   */
  function StringFromValues(prevId: Value, values: map<string, Value>, translate: Translation): (s: FieldState)
    requires SettingsUsable(values)
    ensures var b := BaseFromValues(prevId, StringDefaults, values);
            var flag := NumericSetting(SettingIn(values, "supportMultilingual"), 0);
            && s.(settings := b.settings) == b
            && s.settings.Keys == b.settings.Keys + {"default", "supportMultilingual"}
            && s.settings["supportMultilingual"] == flag
            && (!Truthy(flag) ==> s.settings["default"] == Or(SettingIn(values, "default"), Str("")))
            && (Truthy(flag) ==> s.settings["default"] == translate(UntranslatedSettings(values)))
            && (forall k :: k in s.settings && k != "default" && k != "supportMultilingual" ==> s.settings[k] == b.settings[k])
  {
    BaseFromValues(prevId, StringDefaults, values).(settings := Translated(UntranslatedSettings(values), translate))
  }

  /** `this.translate(this.settings, this.settings, ["default"])` when the flag is set. */
  function Translated(st: map<string, Value>, translate: Translation): map<string, Value> {
    if Truthy(Get(st, "supportMultilingual")) then st["default" := translate(st)] else st
  }

  /** `isMultilingual`: the stored flag is loosely equal to 1. */
  predicate StringIsMultilingual(settings: map<string, Value>) {
    LooseEqualsInt(Get(settings, "supportMultilingual"), 1)
  }

  /** The settings `toObj` leaves behind: a multilingual field's are passed through the un-translation (they are the same object as the output's). */
  function ToObjSettings(settings: map<string, Value>, unTranslate: map<string, Value> -> map<string, Value>): (r: map<string, Value>)
    ensures !Truthy(Get(settings, "supportMultilingual")) ==> r == settings
  {
    if Truthy(Get(settings, "supportMultilingual")) then unTranslate(settings) else settings
  }

  // ---------------------------------------------------------------------
  // Properties of fromValues / toObj
  // ---------------------------------------------------------------------

  /** Once parsed, the flag makes the field multilingual exactly when it is the number 1. */
  lemma MultilingualExactlyOne(prevId: Value, values: map<string, Value>, translate: Translation)
    requires SettingsUsable(values)
    ensures StringIsMultilingual(StringFromValues(prevId, values, translate).settings)
            <==> NumericSetting(SettingIn(values, "supportMultilingual"), 0) == Num(1)
  {
  }

  lemma OneFlag(fallback: int)
    ensures NumericSetting(Num(1), fallback) == Num(1)
    ensures NumericSetting(Str("1"), fallback) == Num(1)
  {
    assert IntToString(1) == "1";
    IntegerSettingKept(1, fallback);
  }

  /**
   * How the flag is read: a missing flag or `true` parse to NaN (not
   * translated), an empty string takes the fallback 0, and 1 or "1" make the
   * field multilingual.
   */
  lemma MultilingualFlagCases()
    ensures NumericSetting(Undefined, 0) == NaN
    ensures NumericSetting(Bool(true), 0) == NaN
    ensures NumericSetting(Str(""), 0) == Num(0)
    ensures NumericSetting(Num(1), 0) == Num(1)
    ensures NumericSetting(Str("1"), 0) == Num(1)
  {
    OneFlag(0);
  }

  /** A field that is not multilingual hands its settings to the output unchanged. */
  lemma ToObjKeepsPlainSettings(s: FieldState, unTranslate: map<string, Value> -> map<string, Value>)
    requires !Truthy(Get(s.settings, "supportMultilingual"))
    ensures var obj := BaseToObj(s.(settings := ToObjSettings(s.settings, unTranslate)));
            obj["settings"] == Obj(s.settings) && Get(s.settings, "default") == Prop(obj["settings"], "default")
  {
  }

  /**
   * Saving a field that is not multilingual and loading the result again
   * gives back its `default` and `supportMultilingual` settings.
   */
  lemma StringRoundTrip(prevId: Value, prevId': Value, values: map<string, Value>, translate: Translation, translate': Translation,
                        unTranslate: map<string, Value> -> map<string, Value>)
    requires SettingsUsable(values)
    requires !Truthy(NumericSetting(SettingIn(values, "supportMultilingual"), 0))
    ensures var s := StringFromValues(prevId, values, translate);
            var o := BaseToObj(s.(settings := ToObjSettings(s.settings, unTranslate)));
            SettingsUsable(o) &&
            var s' := StringFromValues(prevId', o, translate');
            s'.settings["default"] == s.settings["default"] &&
            s'.settings["supportMultilingual"] == s.settings["supportMultilingual"]
  {
    var s := StringFromValues(prevId, values, translate);
    var o := BaseToObj(s);
    ToObjReads(s);
    var flag := NumericSetting(SettingIn(values, "supportMultilingual"), 0);
    assert SettingIn(o, "supportMultilingual") == flag;
    NumericSettingIdempotent(SettingIn(values, "supportMultilingual"), 0, 0);
    OrAbsorbs(SettingIn(values, "default"), Str(""));
  }

  // ---------------------------------------------------------------------
  // defaultValue
  // ---------------------------------------------------------------------

  /** The record after `defaultValue`, or the TypeError of `default.indexOf` on a value that has no such method. */
  datatype Filled = Filled(values: map<string, Value>) | TypeError

  /**
   * `default.indexOf("{uuid}") >= 0`: a substring search on a string, an
   * element search on an array, and no method at all on anything else.
   */
  function AsksForUuid(default: Value): (r: Option<bool>)
    ensures r.Some? <==> default.Str? || default.Arr?
    ensures default.Str? ==> r == Some(ContainsSubstring(default.s, "{uuid}"))
    ensures default.Arr? ==> r == Some(Str("{uuid}") in default.items)
  {
    match default
    case Str(s) => Some(ContainsSubstring(s, "{uuid}"))
    case Arr(xs) => Some(Str("{uuid}") in xs)
    case _ => None
  }

  /**
   * `defaultValue(values)`: a record whose column is empty gets a fresh uuid
   * when the default asks for one, and the default itself otherwise; a
   * record that already has a value, or a field without a default, is left
   * alone.
   */
  function StringDefaultFill(values: map<string, Value>, column: string, default: Value, uuid: Value): (r: Filled)
    ensures r.TypeError? <==> !Truthy(Get(values, column)) && Truthy(default) && !default.Str? && !default.Arr?
    ensures Truthy(Get(values, column)) || !Truthy(default) ==> r == Filled(values)
    ensures r.Filled? ==> r.values.Keys == values.Keys + (if Truthy(Get(values, column)) || !Truthy(default) then {} else {column})
    ensures r.Filled? ==> forall k :: k in values && k != column ==> r.values[k] == values[k]
    ensures r.Filled? && !Truthy(Get(values, column)) && Truthy(default) ==>
              Get(r.values, column) == (if AsksForUuid(default) == Some(true) then uuid else default)
  {
    if Truthy(Get(values, column)) || !Truthy(default) then Filled(values)
    else match AsksForUuid(default)
      case None => TypeError
      case Some(true) => Filled(values[column := uuid])
      case Some(false) => Filled(values[column := default])
  }

  /** A string default mentioning `{uuid}` anywhere asks for a uuid. */
  lemma UuidTemplate(values: map<string, Value>, column: string, prefix: string, suffix: string, uuid: Value)
    requires !Truthy(Get(values, column))
    ensures StringDefaultFill(values, column, Str(prefix + "{uuid}" + suffix), uuid) == Filled(values[column := uuid])
  {
    var d := prefix + "{uuid}" + suffix;
    assert OccursAt(d, "{uuid}", |prefix|) by {
      assert d[|prefix|..|prefix| + 6] == "{uuid}";
    }
  }

  /** Filling twice is filling once, as long as the uuid source gives a non-empty value. */
  lemma StringDefaultFillIdempotent(values: map<string, Value>, column: string, default: Value, uuid: Value, uuid': Value)
    requires Truthy(uuid) && Truthy(uuid')
    requires StringDefaultFill(values, column, default, uuid).Filled?
    ensures var once := StringDefaultFill(values, column, default, uuid).values;
            StringDefaultFill(once, column, default, uuid') == Filled(once)
  {
  }

  // ---------------------------------------------------------------------
  // isValidData
  // ---------------------------------------------------------------------

  /**
   * `x > n` for an integer n, with x converted to a number: booleans as 0
   * and 1, null as 0, strings and arrays through their numeric reading.
   */
  predicate GreaterThan(x: Value, n: int) {
    var v := match x
      case Num(_) => x
      case Bool(b) => Num(if b then 1 else 0)
      case Null => Num(0)
      case Str(s) => StringToNumber(s)
      case Arr(_) => StringToNumber(ToString(x))
      case _ => NaN;
    v.Num? && v.n > n
  }

  /** `x.length > n`: a string's UTF-16 code units, an array's elements, an object's `length` property; other values have none. */
  predicate LongerThan(x: Value, n: nat) {
    match x
    case Str(s) => Utf16Length(s) > n
    case Arr(xs) => |xs| > n
    case Obj(m) => GreaterThan(Get(m, "length"), n)
    case _ => false
  }

  /** The string field's own check: one error exactly when the value is truthy and longer than 255. */
  function LengthErrors(column: string, data: map<string, Value>): (r: seq<FieldError>)
    ensures |r| <= 1
    ensures r != [] <==> Truthy(Get(data, column)) && LongerThan(Get(data, column), MaxCharLength)
    ensures forall i :: 0 <= i < |r| ==> r[i] == FieldError(column, TooLong(MaxCharLength))
  {
    var v := Get(data, column);
    if Truthy(v) && LongerThan(v, MaxCharLength) then [FieldError(column, TooLong(MaxCharLength))] else []
  }

  /**
   * `isValidData`: the base required check first, then the length check;
   * at most one of them fires, so a value gets at most one error.
   */
  function StringErrors(settings: map<string, Value>, column: string, data: map<string, Value>): (r: seq<FieldError>)
    ensures |r| <= 1
    ensures r == [] <==> !(Truthy(Get(settings, "required")) && LooselyEmpty(Get(data, column)))
                         && !(Truthy(Get(data, column)) && LongerThan(Get(data, column), MaxCharLength))
    ensures forall i :: 0 <= i < |r| ==> r[i] == FieldError(column, RequiredField) || r[i] == FieldError(column, TooLong(MaxCharLength))
  {
    AtMostOneStringError(settings, column, data);
    RequiredErrors(settings, column, data) + LengthErrors(column, data)
  }

  /**
   * The limit is on UTF-16 code units: 255 of them pass and 256 do not; a
   * text of characters up to U+FFFF has one unit per character, and a text
   * of characters above it has two.
   */
  lemma LengthBoundary(column: string, data: map<string, Value>, s: string)
    ensures Utf16Length(s) <= 255 ==> LengthErrors(column, data[column := Str(s)]) == []
    ensures Utf16Length(s) == 256 ==> LengthErrors(column, data[column := Str(s)]) == [FieldError(column, TooLong(255))]
    ensures (forall i :: 0 <= i < |s| ==> s[i] as int <= 0xFFFF) ==> Utf16Length(s) == |s|
    ensures (forall i :: 0 <= i < |s| ==> s[i] as int > 0xFFFF) ==> Utf16Length(s) == 2 * |s|
  {
    var d := data[column := Str(s)];
    assert Get(d, column) == Str(s);
    assert LongerThan(Str(s), MaxCharLength) <==> Utf16Length(s) > 255;
    if Utf16Length(s) == 256 {
      assert s != [] && Truthy(Str(s));
    }
    Utf16LengthOfBmp(s);
    Utf16LengthOfAstral(s);
  }

  /** 128 characters above U+FFFF already exceed the limit: they take 256 UTF-16 units. */
  lemma AstralTextTooLong(column: string, data: map<string, Value>, s: string)
    requires |s| == 128 && forall i :: 0 <= i < |s| ==> s[i] as int > 0xFFFF
    ensures LengthErrors(column, data[column := Str(s)]) == [FieldError(column, TooLong(255))]
  {
    Utf16LengthOfAstral(s);
  }

  lemma JoinItemsNonEmpty(xs: seq<Value>)
    requires |xs| >= 2
    ensures JoinItems(xs) != ""
  {
  }

  /** No value is both loosely empty and too long, so the two checks never both fire. */
  lemma AtMostOneStringError(settings: map<string, Value>, column: string, data: map<string, Value>)
    ensures RequiredErrors(settings, column, data) == [] || LengthErrors(column, data) == []
  {
    var v := Get(data, column);
    if v.Arr? && |v.items| > 255 {
      JoinItemsNonEmpty(v.items);
    }
  }
}
