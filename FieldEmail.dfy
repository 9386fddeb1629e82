/**
 * The email field (ABFieldEmailCore): its type descriptor, the `default`
 * setting its constructor adds, how it fills that default into a new
 * record, and its validator, which lowers the value's string form and tests
 * it against the address pattern of module EmailPattern.
 */
module FieldEmail {
  import opened JsValues
  import opened EmailPattern
  import opened Sequences
  import opened FieldCore

  /** `ABFieldEmailDefaults`: no capability entries and no import types, so the lookups fall back. */
  const EmailDefaults := FieldDefaults(
    Str("email"), Str("envelope"), Str("*Email"), Str("*Email fields are used to store email addresses."),
    Plain(Undefined), Plain(Undefined), Plain(Undefined),
    Bool(true),
    Undefined, Undefined)

  /** The capability lookups of an email field: filterable, sortable and usable as label (1), requirable, no import types. */
  lemma EmailCapabilities(field: FieldState)
    ensures LookupCapability(EmailDefaults.isFilterable, field) == Num(1)
    ensures LookupCapability(EmailDefaults.isSortable, field) == Num(1)
    ensures LookupCapability(EmailDefaults.useAsLabel, field) == Num(1)
    ensures SupportRequire(EmailDefaults.supportRequire) == Bool(true)
    ensures AsTypeList(EmailDefaults.compatibleOrmTypes) == [] && AsTypeList(EmailDefaults.compatibleMysqlTypes) == []
  {
  }

  /**
   * The constructor's settings: after the base `fromValues`, `default` is
   * the given one or "" (the loop over the default values and the line
   * after it write the same value).
   */
  function EmailSettings(settings: map<string, Value>, values: map<string, Value>): (r: map<string, Value>)
    ensures r.Keys == settings.Keys + {"default"}
    ensures Truthy(SettingIn(values, "default")) ==> r["default"] == SettingIn(values, "default")
    ensures !Truthy(SettingIn(values, "default")) ==> r["default"] == Str("")
    ensures forall k :: k in settings && k != "default" ==> r[k] == settings[k]
  {
    settings["default" := Or(SettingIn(values, "default"), Str(""))]
  }

  /**
   * `defaultValue(values)`: an empty column gets the default when there is
   * one; a record that already has a value is left alone.
   */
  function EmailDefaultFill(values: map<string, Value>, column: string, default: Value): (r: map<string, Value>)
    ensures Truthy(Get(values, column)) || !Truthy(default) ==> r == values
    ensures !Truthy(Get(values, column)) && Truthy(default) ==> r == values[column := default]
  {
    if !Truthy(Get(values, column)) && Truthy(default) then values[column := default] else values
  }

  /** After filling, the column holds a value exactly when it had one or the field has a default; filling again changes nothing. */
  lemma EmailDefaultFillSettles(values: map<string, Value>, column: string, default: Value)
    ensures Truthy(Get(EmailDefaultFill(values, column, default), column)) <==> Truthy(Get(values, column)) || Truthy(default)
    ensures EmailDefaultFill(EmailDefaultFill(values, column, default), column, default) == EmailDefaultFill(values, column, default)
  {
  }

  /** `isValidData`: a truthy value whose lowered string form is not an address gives one "Invalid email" error. */
  function EmailErrors(column: string, data: map<string, Value>): (r: seq<FieldError>)
    ensures |r| <= 1
    ensures r != [] <==> Truthy(Get(data, column)) && !IsEmail(Lower(ToString(Get(data, column))))
    ensures forall i :: 0 <= i < |r| ==> r[i] == FieldError(column, InvalidEmail)
  {
    var v := Get(data, column);
    if Truthy(v) && !IsEmail(Lower(ToString(v))) then [FieldError(column, InvalidEmail)] else []
  }

  /**
   * A non-empty string passes exactly when the address grammar derives it,
   * whatever its letter case, once each Kelvin sign is read as the k it
   * lowers to; a string without one passes exactly when the grammar
   * derives the string itself.
   */
  lemma EmailErrorsMatchGrammar(column: string, data: map<string, Value>, s: string)
    requires s != ""
    ensures EmailErrors(column, data[column := Str(s)]) == [] <==> EmailG(KelvinAsK(s))
    ensures NoKelvinSign(s) ==> (EmailErrors(column, data[column := Str(s)]) == [] <==> EmailG(s))
  {
    var d := data[column := Str(s)];
    assert Get(d, column) == Str(s) && ToString(Str(s)) == s;
    assert EmailErrors(column, d) == [] <==> IsEmail(Lower(s));
    IsEmailIgnoresCase(s);
    RecognizerMatchesGrammar(KelvinAsK(s));
    RecognizerMatchesGrammar(s);
  }

  /** A Kelvin sign in a host name is accepted: it lowers to the letter k before the test. */
  lemma KelvinSignInHost(column: string, data: map<string, Value>)
    ensures EmailErrors(column, data[column := Str(Address("a", [KelvinSign] + "b.com"))]) == []
    ensures !IsEmail(Address("a", [KelvinSign] + "b.com"))
  {
    var s := Address("a", [KelvinSign] + "b.com");
    var d := data[column := Str(s)];
    assert Get(d, column) == Str(s) && ToString(Str(s)) == s;
    KelvinHostLowers();
    PlainHostAccepted();
    KelvinHostRejected();
  }

  lemma KelvinHostLowers()
    ensures Lower(Address("a", [KelvinSign] + "b.com")) == Address("a", "kb.com")
  {
  }

  lemma PlainHostAccepted()
    ensures IsEmail(Address("a", "kb.com"))
  {
    PlainHostIsDomain();
    PlainLocalPart();
    assert '@' !in "kb.com";
    AddressSplits("a", "kb.com");
  }

  lemma PlainHostIsDomain()
    ensures IsDomain("kb.com")
  {
    var domain := "kb" + ['.'] + "com";
    assert domain == "kb.com";
    SplitPair("kb", "com", '.');
    assert IsHostLabel("kb");
    assert IsTld("com");
    assert IsHostName(domain);
  }

  lemma PlainLocalPart()
    ensures IsLocalPart("a")
  {
    SplitNoSeparator("a", '.');
    assert IsAtom("a");
  }

  lemma KelvinHostRejected()
    ensures !IsEmail(Address("a", [KelvinSign] + "b.com"))
  {
    var host := [KelvinSign] + "b";
    var domain := host + ['.'] + "com";
    assert '@' !in domain;
    AddressSplits("a", domain);
    SplitPair(host, "com", '.');
    assert !IsHostLabel(host) by {
      assert !IsHostChar(host[0]);
    }
    assert Split(domain, '.')[0] == host;
    assert !IsBracketQuad(domain) by {
      assert domain[0] != '[';
    }
    var s := Address("a", domain);
    assert s[2..] == domain;
    assert LastIndexOf(s, '@') == 1;
    assert !IsEmail(s);
    assert Address("a", [KelvinSign] + "b.com") == s;
  }

  /** Lowering the stored value first changes nothing about the verdict. */
  lemma EmailErrorsIgnoreCase(column: string, data: map<string, Value>, s: string)
    ensures EmailErrors(column, data[column := Str(Lower(s))]) == EmailErrors(column, data[column := Str(s)])
  {
    LowerIdempotent(s);
  }

  /** The email validator does not run the base required check: an empty value is never an error. */
  lemma EmptyEmailAccepted(column: string, data: map<string, Value>)
    requires LooselyEmpty(Get(data, column)) && !Get(data, column).Arr?
    ensures EmailErrors(column, data) == []
  {
    assert !Truthy(Get(data, column));
  }

  /** A number, a boolean or an object never reads as an address. */
  lemma NonStringRejected(column: string, data: map<string, Value>)
    requires Truthy(Get(data, column))
    requires Get(data, column).Num? || Get(data, column).Bool? || Get(data, column).Obj?
    ensures EmailErrors(column, data) == [FieldError(column, InvalidEmail)]
  {
    var v := Get(data, column);
    var t := Lower(ToString(v));
    if v.Num? {
      NumberHasNoAt(v.n);
    } else {
      assert '@' !in ToString(v);
    }
    assert '@' !in t;
  }

  lemma NumberHasNoAt(n: int)
    ensures '@' !in ToString(Num(n))
  {
    var s := NatToString(if n < 0 then -n else n);
    assert forall i :: 0 <= i < |s| ==> IsDecimalDigit(s[i]);
  }
}
