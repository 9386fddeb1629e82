# appbuilder core — a Dafny model

This project models the shared core layer of the AppBuilder low-code
application builder:

- **Process tasks.** These are the object-lifecycle trigger, the user-approval task and the
  terminate end event. The model covers their definition-level attributes (`fromValues` /
  `toObj`) and their per-instance state (`initState`). It also covers the data-resolution
  protocol. A task advertises outputs under dotted keys `"<id>.<field>[.<accessor>]"`
  (`processDataFields`) and answers a key from its own state slot, or returns `null`
  (`processData`).
- **Data fields.** The model covers the base field (`ABFieldCore`) and the string and
  email fields:
  - the type descriptor and its capability lookups;
  - the normalisation `fromValues` applies;
  - what `toObj` emits;
  - filling a record's default in place (`defaultValue`);
  - validation into a list of `(column, message)` errors (`isValidData`). This includes
    the required check, the limit of 255 UTF-16 code units, and the email address pattern. The
    pattern is given both as a grammar and as a recognizer, proved to accept the same
    strings.
- **Page views.** The model covers `ABViewPageCore`:
  - the `pages(filter, deep)` search, where the first level that matches wins and otherwise
    the last non-empty subtree wins;
  - label and settings defaulting;
  - building sub-pages and data collections;
  - urls built along the parent chain.

  It also covers the view registry `ABViewManager` (`allViews`, `newView`).
- **Roles.** This is `ABRoleCore`: a `fromValues` / `toObj` round trip and a filtered scope list.

JavaScript values are modelled by `JsValues.Value`. The model spells out every coercion
the code relies on: truthiness, `a || b`, conversion to string, `parseInt`, and the loose
comparisons `== null`, `== ''`, `== 1` and `== '?label?'`. Code that updates `this` in place becomes a
class, whose methods are proved against specification functions. Decision code becomes
functions and lemmas.

Where the documented behaviour and the code disagree, the model follows the code:

- A lifecycle trigger whose `objectID` is set but unknown returns an empty list from
  `processDataFields`, not `null`. `fields = []` is assigned before the lookup.
- The trigger's `processData` throws for a key of its own, with captured data, whose
  object is not registered: `object.fields(...)` is called on an undefined object.
  It does not resolve such a key as null.
- The trigger's keys and its key match use its `diagramID`, not its task id. Its state
  slot is still found through its task id.
- The approval task's `processData` returns `state[<second segment>]` for any second
  segment, not only `userFormResponse`. A key without a second segment reads the
  property `"undefined"`.
- The approval task's `toObj` adds its four declared attributes to whatever the base
  class emits. The exact serialized shape is the base class's, which is not part of
  this model.

Two behaviours of the base classes are needed but not visible. They are stated as
assumptions in module `ProcessElement`, not proved:

- `myState(instance)` is the task's slot, and an absent slot reads as `{}`.
- `initState(context, defaults, val)` writes `defaults` merged with `val` into an
  empty slot, with the overrides winning, and leaves an existing slot alone.

Observations about the code:

- The `|| "1"` fallbacks in `ABFieldCore.fromValues` only apply when the setting's
  string form is empty (`""` or `[]`).
- An absent `showIcon`, `required` or `width` setting is read as `"undefined"` and
  stored as NaN. So a field whose definition has no `required` setting is never
  required (`FieldCore.AbsentRequiredNotEnforced`).

## Model

| member | source | states |
|---|---|---|
| `ProcessElement.InitSlot` | process/tasks/ABProcessTaskEndCore.js:58-64 | (assumption about the base `initState`) a fresh slot holds the defaults with the overrides on top; an existing slot and every other slot are untouched |
| `ProcessElement.InitSlotIdempotent` | process/tasks/ABProcessTaskUserApprovalCore.js:89-96 | initialising a slot a second time, with any overrides, changes nothing |
| `ProcessElement.InitSlotExactKeys` | process/tasks/ABProcessTaskUserApprovalCore.js:89-96 | without extra override keys a fresh slot holds exactly the task's default keys |
| `ProcessElement.DataKeySplits` | process/tasks/ABProcessTaskUserApprovalCore.js:110-123 | an advertised key `"<id>.<name>"` splits back into `[id, name]` when neither holds a dot |
| `ProcessElement.DottedIdMatchesNoKey` | process/tasks/ABProcessTaskUserApprovalCore.js:123-124 | a task id containing a dot never equals a key's first segment |
| `Sequences.Split` | process/tasks/ABProcessTriggerLifecycleCore.js:132 | `key.split(".")` yields at least one segment and no segment holds the separator |
| `Sequences.JoinSplit` | process/tasks/ABProcessTriggerLifecycleCore.js:132 | joining the segments of a split with the separator gives the key back |
| `Sequences.SplitJoin` | process/tasks/ABProcessTriggerLifecycleCore.js:132 | splitting segments that were joined gives the segments back |
| `TriggerLifecycle.Defaults` | process/tasks/ABProcessTriggerLifecycleCore.js:5-28 | the trigger type is key `TriggerLifecycle`, category `start`, fields `objectID`, `lifecycleKey` |
| `TriggerLifecycle.LifecycleDiagramReplace` | process/tasks/ABProcessTriggerLifecycleCore.js:43-56 | the replace-menu entry targets `bpmn:StartEvent` with `ab:SignalLifecycle` |
| `TriggerLifecycle.TriggerType` | process/tasks/ABProcessTriggerLifecycleCore.js:32 | the type is the given one when truthy, else `"trigger"` |
| `TriggerLifecycle.ObjectIDFrom` | process/tasks/ABProcessTriggerLifecycleCore.js:61 | objectID is the attribute when truthy, else `"objID.??"`; never falsy |
| `TriggerLifecycle.LifecycleKeyFrom` | process/tasks/ABProcessTriggerLifecycleCore.js:62 | lifecycleKey is the attribute when truthy, else `"lifecycle.key??"`; never falsy |
| `TriggerLifecycle.LifecycleTrigger.constructor` | process/tasks/ABProcessTriggerLifecycleCore.js:31-36 | the type defaults to `"trigger"` and the attributes are hydrated by `fromValues` |
| `TriggerLifecycle.LifecycleTrigger.FromValues` | process/tasks/ABProcessTriggerLifecycleCore.js:58-63 | both trigger attributes are set with their fallbacks |
| `TriggerLifecycle.LifecycleTrigger.ToObj` | process/tasks/ABProcessTriggerLifecycleCore.js:76-82 | the base object plus exactly `objectID` and `lifecycleKey`, holding the stored values; other keys unchanged |
| `TriggerLifecycle.LifecycleTrigger.ProcessDataFields` | process/tasks/ABProcessTriggerLifecycleCore.js:92-123 | null iff objectID is falsy; an unknown object gives `[]` and exactly one error report; a known one gives one entry per field in order, keyed `"<diagramID>.<field id>"`, then the uuid entry (field count + 1 entries) |
| `TriggerLifecycle.LifecycleTrigger.ProcessDataObjects` | process/tasks/ABProcessTriggerLifecycleCore.js:164-170 | null iff objectID is falsy, else the one-element list of the looked-up object |
| `TriggerLifecycle.RoundTrip` | process/tasks/ABProcessTriggerLifecycleCore.js:58-82 | `fromValues(toObj())` keeps both set trigger attributes |
| `TriggerLifecycle.LifecycleTrigger.ProcessData` | process/tasks/ABProcessTriggerLifecycleCore.js:131-156 | null for another task's key or without captured data; `uuid` reads the record's uuid; any other key of its own with data throws when the object is unknown; it throws only for such a key, the object lookup failing iff the object is unknown and the accessor failing only with a third segment |
| `TriggerLifecycle.ProcessDataOtherTask` | process/tasks/ABProcessTriggerLifecycleCore.js:132-133 | a key whose first segment is not the diagram id resolves to null |
| `TriggerLifecycle.ProcessDataNoData` | process/tasks/ABProcessTriggerLifecycleCore.js:134-135 | with no captured `data` in the state every key resolves to null |
| `TriggerLifecycle.ProcessDataUuid` | process/tasks/ABProcessTriggerLifecycleCore.js:136-137 | `"<diagramID>.uuid"` resolves to `state.data.uuid` |
| `TriggerLifecycle.ProcessDataUnknownField` | process/tasks/ABProcessTriggerLifecycleCore.js:140-155 | a field id the object does not have resolves to null |
| `TriggerLifecycle.ProcessDataDottedId` | process/tasks/ABProcessTriggerLifecycleCore.js:132-133 | a trigger whose diagram id holds a dot answers null to every key |
| `TriggerLifecycle.AdvertisedFieldKeyResolves` | process/tasks/ABProcessTriggerLifecycleCore.js:140-150 | an advertised field key resolves to the captured record's value at the column of the first field with that id |
| `TriggerLifecycle.ProcessDataAccessor` | process/tasks/ABProcessTriggerLifecycleCore.js:145-146 | a third segment calls that accessor on the field with the captured record, and a missing accessor throws |
| `TriggerLifecycle.WorkedExample` | process/tasks/ABProcessTriggerLifecycleCore.js:131-156 | with field `{id: f1, columnName: name}` and data `{uuid: r1, name: Alice}`, `T.uuid` gives `r1` and `T.f1` gives `Alice` |
| `UserApproval.Defaults` | process/tasks/ABProcessTaskUserApprovalCore.js:3-23 | key `Approval`, icon `check-circle`, no category, fields `who`, `toUsers`, `userFormID`, `userFormResponse` |
| `UserApproval.ApprovalDiagramReplace` | process/tasks/ABProcessTaskUserApprovalCore.js:38-40 | no replace-menu entry (null) |
| `UserApproval.ApprovalType` | process/tasks/ABProcessTaskUserApprovalCore.js:27 | the type is the given one when truthy, else `"process.task.user.approval"` |
| `UserApproval.DeclaredFrom` | process/tasks/ABProcessTaskUserApprovalCore.js:53-55 | exactly the four declared names, each read from the attributes (undefined when absent) |
| `UserApproval.UserApprovalTask.constructor` | process/tasks/ABProcessTaskUserApprovalCore.js:26-31 | type defaulting, then the declared attributes hydrated |
| `UserApproval.UserApprovalTask.FromValues` | process/tasks/ABProcessTaskUserApprovalCore.js:42-56 | the loop copies exactly the four declared attributes onto the task |
| `UserApproval.UserApprovalTask.ToObj` | process/tasks/ABProcessTaskUserApprovalCore.js:69-77 | the base object with the four declared attributes written over it |
| `UserApproval.UserApprovalTask.InitState` | process/tasks/ABProcessTaskUserApprovalCore.js:89-96 | a fresh slot starts with `userFormID` and `userFormResponse` null unless overridden, and the overrides are kept |
| `UserApproval.UserApprovalTask.ProcessDataFields` | process/tasks/ABProcessTaskUserApprovalCore.js:106-114 | exactly one entry, keyed `"<id>.userFormResponse"`, labelled `"<label>->Response"` |
| `UserApproval.UserApprovalTask.ProcessData` | process/tasks/ABProcessTaskUserApprovalCore.js:122-128 | null for another task's key; a matching key reads the state variable named by its second segment, or `"undefined"` when there is none |
| `UserApproval.RoundTrip` | process/tasks/ABProcessTaskUserApprovalCore.js:53-76 | `fromValues(toObj())` reproduces all four declared values |
| `UserApproval.DeclaredFromIdempotent` | process/tasks/ABProcessTaskUserApprovalCore.js:53-55 | hydrating twice from the same attributes is hydrating once |
| `UserApproval.AdvertisedKeyResolves` | process/tasks/ABProcessTaskUserApprovalCore.js:122-127 | the advertised key resolves to the state's `userFormResponse` |
| `UserApproval.FreshResponseIsNull` | process/tasks/ABProcessTaskUserApprovalCore.js:89-127 | right after initialisation the response reads as null |
| `UserApproval.OtherKeysAreNull` | process/tasks/ABProcessTaskUserApprovalCore.js:123-128 | a key of another task resolves to null |
| `UserApproval.AnyStateVariableResolves` | process/tasks/ABProcessTaskUserApprovalCore.js:124-126 | a matching key returns the state variable named by its second segment, whatever it is |
| `EndTask.EndDefaults` | process/tasks/ABProcessTaskEndCore.js:3-18 | key `End`, icon `stop`, nothing else |
| `EndTask.EndDiagramReplace` | process/tasks/ABProcessTaskEndCore.js:20-30 | the fixed descriptor targeting `bpmn:EndEvent` with `bpmn:TerminateEventDefinition` |
| `EndTask.EndInitState` | process/tasks/ABProcessTaskEndCore.js:58-64 | a fresh slot has `triggered`, false unless overridden; an existing slot and other slots are untouched |
| `EndTask.NextTasks` | process/tasks/ABProcessTaskEndCore.js:73-76 | no successors, for every instance |
| `EndTask.FreshEndState` | process/tasks/ABProcessTaskEndCore.js:58-64 | a fresh end state is exactly `{triggered: false}` |
| `FieldCore.ReservedNames` | dataFields/ABFieldCore.js:55-57 | exactly six names: `id`, `created_at`, `updated_at`, `properties`, `createdAt`, `updatedAt` |
| `FieldCore.AsTypeList` | dataFields/ABFieldCore.js:70-96 | an array as it is, another truthy value as a singleton, a falsy one as `[]` |
| `FieldCore.AsTypeListStable` | dataFields/ABFieldCore.js:70-80 | reading a type list back as an array entry gives the same list |
| `FieldCore.LookupCapability` | dataFields/ABFieldCore.js:114-153 | 1 when the entry is null or undefined, the function's result on the field, or the entry itself |
| `FieldCore.SupportRequire` | dataFields/ABFieldCore.js:155-163 | the entry when truthy, else true; always truthy |
| `FieldCore.FalseCapabilities` | dataFields/ABFieldCore.js:114-163 | a configured false disables filtering but `fieldSupportRequire` still answers true |
| `FieldCore.NumericSetting` | dataFields/ABFieldCore.js:220-228 | a normalised setting is always a number or NaN |
| `FieldCore.NumericSettingMatchesSource` | dataFields/ABFieldCore.js:220-228 | it equals `parseInt(x + "" \|\| fallback)` |
| `FieldCore.WithDisplaySettings` | dataFields/ABFieldCore.js:220-222 | the three display settings are written and every other setting kept |
| `FieldCore.NormalizedSettings` | dataFields/ABFieldCore.js:219-228 | the given settings, with `showIcon`, `required` (fallback 1) and `width` (fallback 0) parsed, other keys kept |
| `FieldCore.BaseFromValues` | dataFields/ABFieldCore.js:203-229 | id only when none is set; key and icon from the type; label from `settings.label`, then `'?label?'`, so always truthy; column `''`; translations `[]`; isImported a number or NaN; settings normalised |
| `FieldCore.BaseToObj` | dataFields/ABFieldCore.js:183-194 | exactly `id`, `key`, `icon`, `isImported`, `columnName`, `settings`, `translations`; no label |
| `FieldCore.NumericSettingFallback` | dataFields/ABFieldCore.js:220-222 | the fallback applies only when the setting's string form is empty |
| `FieldCore.AbsentSettingIsNaN` | dataFields/ABFieldCore.js:220-226 | an absent setting is stored as NaN |
| `FieldCore.IntegerSettingKept` | dataFields/ABFieldCore.js:224-228 | an integer, or its decimal string, is stored as that integer |
| `FieldCore.NumericSettingIdempotent` | dataFields/ABFieldCore.js:220-228 | normalising a stored setting again changes nothing |
| `FieldCore.ImportedFlagReparsed` | dataFields/ABFieldCore.js:217-225 | re-reading a stored isImported keeps numbers and turns NaN into 0 |
| `FieldCore.RenormalizeSettings` | dataFields/ABFieldCore.js:219-228 | normalising normalised settings gives them back |
| `FieldCore.ToObjReads` | dataFields/ABFieldCore.js:183-194 | what each property of `toObj()` reads, and that its settings are usable by `fromValues` |
| `FieldCore.RoundTripSettings` | dataFields/ABFieldCore.js:183-229 | settings survive `fromValues(toObj())` |
| `FieldCore.RoundTripImported` | dataFields/ABFieldCore.js:183-229 | isImported survives, except that NaN comes back as 0 |
| `FieldCore.RoundTripAttributes` | dataFields/ABFieldCore.js:183-229 | id, key, icon, column and translations survive; the label falls back to `settings.label` |
| `FieldCore.BaseRoundTrip` | dataFields/ABFieldCore.js:183-229 | `fromValues(toObj())` reproduces the field up to the label and a NaN isImported |
| `FieldCore.RequiredErrors` | dataFields/ABFieldCore.js:263-270 | at most one error, the required message, exactly when required is truthy and the value is `== null` or `== ''` |
| `FieldCore.RequiredCheckCases` | dataFields/ABFieldCore.js:266 | missing, `0` and `[]` fail a required field; a non-empty string passes |
| `FieldCore.AbsentRequiredNotEnforced` | dataFields/ABFieldCore.js:221-270 | a definition without a `required` setting is never required |
| `FieldString.ToObjSettings` | dataFields/ABFieldStringCore.js:137-145 | settings of a non-multilingual field go to the output unchanged |
| `FieldString.StringFromValues` | dataFields/ABFieldStringCore.js:107-124 | the base attributes, `default` (given or `""`, translated when multilingual) and the parsed `supportMultilingual` |
| `FieldString.MultilingualExactlyOne` | dataFields/ABFieldStringCore.js:112-121 | after `fromValues` the field is multilingual iff the parsed flag is 1 |
| `FieldString.MultilingualFlagCases` | dataFields/ABFieldStringCore.js:112-119 | missing or `true` parse to NaN, `""` to 0, `1` and `"1"` to 1 |
| `FieldString.ToObjKeepsPlainSettings` | dataFields/ABFieldStringCore.js:140-142 | `toObj` copies `settings.default` when not multilingual |
| `FieldString.StringRoundTrip` | dataFields/ABFieldStringCore.js:107-145 | `fromValues(toObj())` keeps `default` and `supportMultilingual` of a non-multilingual field |
| `FieldString.AsksForUuid` | dataFields/ABFieldStringCore.js:162 | `indexOf("{uuid}") >= 0` on a string or an array; any other default has no `indexOf` |
| `FieldString.StringDefaultFill` | dataFields/ABFieldStringCore.js:157-169 | a truthy value or an empty default leaves the record alone; otherwise only the column changes, to a fresh uuid or to the default |
| `FieldString.UuidTemplate` | dataFields/ABFieldStringCore.js:161-163 | a default containing `{uuid}` anywhere inserts the uuid |
| `FieldString.StringDefaultFillIdempotent` | dataFields/ABFieldStringCore.js:157-169 | filling twice is filling once |
| `JsValues.Utf16Length` | dataFields/ABFieldStringCore.js:187 | a string's `length`: at least its number of characters and at most twice that |
| `FieldString.LengthErrors` | dataFields/ABFieldStringCore.js:184-193 | one length error iff the value is truthy and its `length` exceeds 255; a string's `length` counts UTF-16 code units |
| `FieldString.LengthBoundary` | dataFields/ABFieldStringCore.js:10 | 255 UTF-16 units pass and 256 fail; text up to U+FFFF has one unit per character, text above it two |
| `FieldString.AstralTextTooLong` | dataFields/ABFieldStringCore.js:184-192 | 128 characters above U+FFFF already fail the limit |
| `FieldString.StringErrors` | dataFields/ABFieldStringCore.js:179-193 | at most one error; none iff the value neither fails the required check nor is truthy and too long; the error is the required or the too-long message |
| `FieldString.AtMostOneStringError` | dataFields/ABFieldStringCore.js:179-193 | the required check and the length check never both fire |
| `FieldEmail.EmailCapabilities` | dataFields/ABFieldEmailCore.js:17-30 | an email field is filterable, sortable and label-capable (1), requirable, with no import types |
| `FieldEmail.EmailSettings` | dataFields/ABFieldEmailCore.js:44-48 | `settings.default` is the given default when truthy, else `''`; other settings kept |
| `FieldEmail.EmailDefaultFill` | dataFields/ABFieldEmailCore.js:85-95 | a truthy value is untouched; an empty one gets the default only when it is non-empty |
| `FieldEmail.EmailDefaultFillSettles` | dataFields/ABFieldEmailCore.js:85-95 | afterwards the column is truthy iff it was or the default is; filling again changes nothing |
| `FieldEmail.EmailErrors` | dataFields/ABFieldEmailCore.js:106-121 | at most one "Invalid email" error, iff the value is truthy and its lowered string form fails the pattern |
| `FieldEmail.EmailErrorsMatchGrammar` | dataFields/ABFieldEmailCore.js:110-114 | a non-empty string passes iff the address grammar derives it once each Kelvin sign (U+212A) is read as `k`; a string without one passes iff the grammar derives it |
| `FieldEmail.KelvinSignInHost` | dataFields/ABFieldEmailCore.js:110-114 | `a@\u212Ab.com` passes the check although the pattern itself rejects it: lowering turns the Kelvin sign into `k` |
| `FieldEmail.EmailErrorsIgnoreCase` | dataFields/ABFieldEmailCore.js:112-114 | lowering the value first does not change the verdict |
| `FieldEmail.EmptyEmailAccepted` | dataFields/ABFieldEmailCore.js:106-108 | no required check: an empty value is never an error |
| `FieldEmail.NonStringRejected` | dataFields/ABFieldEmailCore.js:112-116 | a truthy number, boolean or object is always rejected |
| `EmailPattern.DotAtomAgrees` | dataFields/ABFieldEmailCore.js:110 | the dot-atom recognizer accepts exactly the joins of atoms |
| `EmailPattern.QuotedAgrees` | dataFields/ABFieldEmailCore.js:110 | the quoted-local recognizer accepts exactly `"` body `"` with a non-empty body free of line terminators |
| `EmailPattern.BracketQuadAgrees` | dataFields/ABFieldEmailCore.js:110 | the bracket recognizer accepts exactly four 1-3 digit groups |
| `EmailPattern.HostNameAgrees` | dataFields/ABFieldEmailCore.js:110 | the host recognizer accepts exactly one or more labels then a TLD of 2+ letters |
| `EmailPattern.LocalAgrees` | dataFields/ABFieldEmailCore.js:110 | local part: recognizer and grammar agree |
| `EmailPattern.DomainAgrees` | dataFields/ABFieldEmailCore.js:110 | domain: recognizer and grammar agree |
| `EmailPattern.RecognizerMatchesGrammar` | dataFields/ABFieldEmailCore.js:110 | the pattern test accepts exactly what the grammar derives |
| `EmailPattern.RecognizerSound` | dataFields/ABFieldEmailCore.js:110 | everything the recognizer accepts is derivable |
| `EmailPattern.RecognizerComplete` | dataFields/ABFieldEmailCore.js:110 | every local part and domain of the grammar, joined by `@`, is accepted |
| `EmailPattern.Lower` | dataFields/ABFieldEmailCore.js:113 | keeps the length; lowers A-Z, turns the Kelvin sign into `k`, keeps every other character |
| `EmailPattern.IsEmailIgnoresCase` | dataFields/ABFieldEmailCore.js:113-114 | the test on the lowered string is the test on the string with each Kelvin sign read as `k`; without a Kelvin sign, the same as on the string itself |
| `Fields.Validator.AddError` | dataFields/ABFieldCore.js:267 | the error is appended after the existing ones |
| `Fields.ABField.constructor` | dataFields/ABFieldCore.js:13-45 | the state is `fromValues` on a field without id, then the label as the application translates it, plus the email field's default setting |
| `Fields.ABField.TakeEmailDefault` | dataFields/ABFieldEmailCore.js:43-48 | the loop and the line after it leave `settings.default` as the given default or `''` |
| `Fields.ABField.BaseFromValuesSteps` | dataFields/ABFieldCore.js:203-229 | throws iff the settings are unusable; otherwise the state is the base `fromValues` specification |
| `Fields.ABField.TakeSettings` | dataFields/ABFieldCore.js:219-228 | null, undefined or truthy primitive settings throw; otherwise the settings are normalised and isImported parsed |
| `Fields.ABField.TakeIdentity` | dataFields/ABFieldCore.js:205-208 | id only when unset; key and icon with the type's fallbacks |
| `Fields.ABField.TakeLabels` | dataFields/ABFieldCore.js:212-217 | label, column name, translations and isImported with their fallbacks |
| `Fields.ABField.NormalizeSettings` | dataFields/ABFieldCore.js:219-228 | the written-then-parsed display settings are the normalised ones |
| `Fields.ABField.FromValues` | dataFields/ABFieldStringCore.js:107-124 | base steps, then the string field's settings; throws iff settings are unusable |
| `Fields.ABField.TakeStringSettings` | dataFields/ABFieldStringCore.js:110-123 | `default` and the parsed `supportMultilingual`, with the default translated when the flag is set |
| `Fields.ABField.ToObj` | dataFields/ABFieldStringCore.js:137-145 | the seven persisted attributes; a multilingual string field's settings pass through the un-translation |
| `Fields.ABField.DefaultValue` | dataFields/ABFieldCore.js:251-253 | the record becomes what the kind's fill specifies (base: column `''`, no other key; string and email: see their fills) |
| `Fields.ABField.IsValidData` | dataFields/ABFieldCore.js:263-270 | the kind's errors are appended to the validator's, in order |
| `Fields.ABField.IsMultilingual` | dataFields/ABFieldStringCore.js:201-203 | only a string field whose flag is loosely 1; the base and email fields never |
| `ViewPage.Common` | views/ABViewPageCore.js:24-27 | key `page`, icon `file` |
| `ViewPage.SearchPages` | views/ABViewPageCore.js:157-190 | the loop computes the search specification |
| `ViewPage.PagesSpec` | views/ABViewPageCore.js:157-190 | everything returned passes the filter; without deep search exactly the direct sub-pages that pass; with it, pages below the page, and exactly the matching direct sub-pages when there are any |
| `ViewPage.ShallowPagesAll` | views/ABViewPageCore.js:180-186 | without a filter, or without deep, every direct sub-page in order |
| `ViewPage.DirectMatchesWin` | views/ABViewPageCore.js:166-168 | when some direct sub-page matches, deep search returns exactly the matching direct sub-pages |
| `ViewPage.LastFoundEmpty` | views/ABViewPageCore.js:168-175 | when no sub-search is non-empty the pass keeps `[]` |
| `ViewPage.LastFoundIsLast` | views/ABViewPageCore.js:168-175 | the pass keeps the last non-empty sub-search |
| `ViewPage.NoDirectMatch` | views/ABViewPageCore.js:159-176 | with no direct match the deep search is the last non-empty sub-search, or `[]` |
| `ViewPage.DeepSearchSound` | views/ABViewPageCore.js:162-176 | every page found passes the filter and lies below the page searched |
| `ViewPage.LastFoundSound` | views/ABViewPageCore.js:169-174 | what the pass keeps passes the filter and lies below the page |
| `ViewPage.DeepSearchOneLevel` | views/ABViewPageCore.js:162-176 | a non-empty result is the full filter of one page's sub-pages |
| `ViewPage.LastFoundOneLevel` | views/ABViewPageCore.js:169-174 | the same for the pass over the sub-pages |
| `ViewPage.LastFoundSome` | views/ABViewPageCore.js:168-175 | the pass finds something when some sub-page's deep search does |
| `ViewPage.DeepSearchComplete` | views/ABViewPageCore.js:162-176 | the deep search finds something whenever a page below passes the filter |
| `ViewPage.DeepPagesFound` | views/ABViewPageCore.js:157-190 | `pages(f, true)` is non-empty iff some page below passes f |
| `ViewPage.PageLabel` | views/ABViewPageCore.js:111-112 | the label, or the name when the label is falsy or loosely equal to `'?label?'` |
| `ViewPage.UnsetLabelCases` | views/ABViewPageCore.js:111 | a label is unset iff it is falsy, or a string or an array that prints as `?label?`; no number, boolean or object is loosely equal to it |
| `ViewPage.ArrayPlaceholderReplaced` | views/ABViewPageCore.js:111-112 | the label `['?label?']` prints as `?label?`, so the name replaces it |
| `ViewPage.PageLabelSettles` | views/ABViewPageCore.js:75-76 | defaulting the label again changes nothing |
| `ViewPage.PageSettings` | views/ABViewPageCore.js:132-133 | `columns` defaults to 1 and `gravity` to `[1]`; other settings kept |
| `ViewPage.PageSettingsSettle` | views/ABViewPageCore.js:132-133 | defaulting the settings again changes nothing |
| `ViewPage.ItemsOf` | views/ABViewPageCore.js:117 | `(v \|\| [])` iterates an array's items, a falsy value as empty; anything else throws |
| `ViewPage.PageValues` | views/ABViewPageCore.js:208 | an object's `key` becomes `page`, its other properties unchanged; a primitive throws |
| `ViewPage.NewChild` | views/ABViewPageCore.js:205-216 | the view built from the page values, with this page as parent |
| `ViewPage.NewChildrenFails` | views/ABViewPageCore.js:116-120 | one failing sub-page fails the whole list |
| `ViewPage.NewChildrenShape` | views/ABViewPageCore.js:116-120 | building succeeds iff every value can take the key; then one page per value, in order |
| `ViewPage.NewCollections` | views/ABViewPageCore.js:124-128 | one collection per value, built from `values \|\| {}` |
| `ViewPage.ObjectsOf` | views/ABViewPageCore.js:80-92 | one `toObj()` per element, in order |
| `ViewPage.PageFromValues` | views/ABViewPageCore.js:106-137 | succeeds iff both lists are arrays or falsy and every sub-page value is an object or array; then id, key, name and parent kept, label defaulted, settings defaulted, one page per value with this page as parent, one collection per value built from `values \|\| {}` |
| `ViewPage.PageToObj` | views/ABViewPageCore.js:68-96 | fails iff the collections were never assigned; else name, the label replaced by the name iff it is falsy or loosely equal to `'?label?'`, one object per sub-page and per collection in order; other base keys kept |
| `ViewPage.ToObjAfterFromValues` | views/ABViewPageCore.js:68-128 | after `fromValues`, `toObj` lists, item by item, the object of the page built from each sub-page value and of the collection built from each collection value (`\|\| {}`), keeps the name, and leaves the label alone when the name is truthy and not `'?label?'` |
| `ViewPage.DataCollections` | views/ABViewPageCore.js:236-243 | `[]` when never assigned, else exactly the collections that pass the filter |
| `ViewPage.DataCollectionsAll` | views/ABViewPageCore.js:240-242 | without a filter, every collection in order |
| `ViewPage.UrlPointer` | views/ABViewPageCore.js:285-291 | a page's url is the application's url for pages, then each ancestor's id followed by `/_pages/`, then its own id |
| `ViewPage.UrlPage` | views/ABViewPageCore.js:273-275 | `urlPage()` is the application's url for pages followed by every id of the chain, each followed by `/_pages/` |
| `ViewPage.ABViewPage.constructor` | views/ABViewPageCore.js:31-52 | the state `fromValues` specifies, with the parent cleared |
| `ViewPage.ABViewPage.FromValues` | views/ABViewPageCore.js:106-137 | throws iff a list is not an array or a sub-page cannot take the key; otherwise the page specification |
| `ViewPage.ABViewPage.TakeBase` | views/ABViewPageCore.js:108-112 | the base attributes, with the label replaced by the name iff it is falsy or loosely equal to `'?label?'` |
| `ViewPage.ABViewPage.TakeCollections` | views/ABViewPageCore.js:123-133 | the collections built, then the layout settings defaulted |
| `ViewPage.ABViewPage.BuildPages` | views/ABViewPageCore.js:116-120 | the loop builds the sub-pages the specification lists |
| `ViewPage.ABViewPage.PageNew` | views/ABViewPageCore.js:205-216 | key forced to `page`, and the parent set to this page |
| `ViewPage.ABViewPage.BuildCollections` | views/ABViewPageCore.js:124-128 | the loop builds every data collection in order |
| `ViewPage.ABViewPage.ToObj` | views/ABViewPageCore.js:68-96 | name, the label replaced by the name iff it is falsy or loosely equal to `'?label?'`, and one object per sub-page and per collection |
| `ViewPage.ABViewPage.Pages` | views/ABViewPageCore.js:157-190 | `pages(filter, deep)` on this page is the search specification |
| `ViewPage.ABViewPage.DataCollectionsOf` | views/ABViewPageCore.js:236-243 | `dataCollections(filter)` on this page |
| `ViewManager.Lookup` | ABViewManager.js:120 | no own entry iff no entry has the key, else the class stored under it |
| `ViewManager.Put` | ABViewManager.js:49-59 | a new key goes at the end; an existing key keeps its place and only that entry changes, to the new class |
| `ViewManager.PutThenLookup` | ABViewManager.js:49-59 | after `Views[key] = cls` the key reads cls |
| `ViewManager.PutKeepsOthers` | ABViewManager.js:49-59 | registering leaves every other key as it was |
| `ViewManager.PutKeepsUnique` | ABViewManager.js:49-59 | keys stay unique |
| `ViewManager.StandardEntriesOrder` | ABViewManager.js:48-59 | the load-time table is view, container, page, in that order |
| `ViewManager.StandardLookup` | ABViewManager.js:48-59 | each of the three keys has its class as own entry and no other key has an own entry |
| `ViewManager.NewView` | ABViewManager.js:114-132 | a registered truthy key builds its class; an unregistered `constructor` gives the values back and another inherited `Object.prototype` name fails as no constructor, both silently; any other unregistered truthy key logs once and builds the `'view'` class; a falsy key logs once and gives null; the parent is null when none is given |
| `ViewManager.StandardNewView` | ABViewManager.js:119-125 | in the load-time table a truthy key builds a view iff it is registered or not an inherited name: its own class or the base view; `constructor` gives the values back, other inherited names no view |
| `ViewManager.Registry.constructor` | ABViewManager.js:48-59 | the load-time table, with unique keys |
| `ViewManager.Registry.Register` | ABViewManager.js:49 | `Views[key] = cls` as Put |
| `ViewManager.Registry.AllViews` | ABViewManager.js:95-106 | the registered classes that pass fn, in table order |
| `ViewManager.Registry.NewViewOf` | ABViewManager.js:114-132 | `newView` on this table, inherited names included |
| `ViewManager.AllViewsUnfiltered` | ABViewManager.js:95-105 | with no fn, every registered class |
| `Role.ABRole.constructor` | ABRoleCore.js:3-10 | no scopes, then the four attributes from `fromValues` |
| `Role.RecordFrom` | ABRoleCore.js:14-19 | each of the four attributes is the value of the same name, undefined when absent or when no values are given |
| `Role.ABRole.FromValues` | ABRoleCore.js:12-23 | the four attributes are read from values (undefined when absent); scopes unchanged |
| `Role.ABRole.ToObj` | ABRoleCore.js:25-36 | exactly the four attribute names, which `fromValues` reads back as this role |
| `Role.ABRole.Scopes` | ABRoleCore.js:51-59 | the scopes that pass the filter, in order; all of them without a filter |
| `Role.RoundTrip` | ABRoleCore.js:12-36 | `toObj()` after `fromValues(v)` reproduces v's four attributes |
| `Role.NoArgumentIsUndefined` | ABRoleCore.js:12-17 | `fromValues()` without argument leaves all four undefined |
| `Role.FreshRoleHasNoScopes` | ABRoleCore.js:6 | a role with the initial empty scope list has no scopes under any filter |

## Left out

- `ABModelCore.js`: REST plumbing over an unseen `request()`, with promises, JSON and date
  conversion. It has no standalone logic.
- Base classes that are not part of this model: `ABProcessElement`, `ABProcessTask`,
  `ABProcessTrigger`, `ABField`, `ABView`, `ABViewContainer` and `ABDataCollection`.
  Their `fromValues` / `toObj` results enter as parameters. `myState` and the base
  `initState` are stated assumptions (`ProcessElement.MyState`, `ProcessElement.InitSlot`).
- The tasks' `do()` is not modelled. The end event's `do()` is commented out, and the
  approval task defines none.
- External services are parameters:
  - translation and un-translation (`Translation`, `unTranslate`);
  - `AB.uuid()` (the `uuid` argument);
  - `application.viewNew` (`ViewNew`) and the data-collection constructor
    (`CollectionNew`);
  - the field accessors called by name (`Accessor`).

  The error reporter `AB.error`, `console.error` and `OP.Error.log` become returned
  report lists.
- The base field's `urlPointer()` (`dataFields/ABFieldCore.js:239-241`) and the email
  field's `isValid()` (`dataFields/ABFieldEmailCore.js:62-69`) only delegate to
  collaborators that are not part of this model.
- `fieldKey`, `fieldIcon`, `fieldMenuName`, `fieldDescription` and the `fieldIs*`
  lookups on `Fields.ABField` are one-line reads of the descriptor. Their contracts
  are stated on `FieldCore.LookupCapability`, `FieldCore.SupportRequire` and
  `FieldCore.AsTypeList`.
- Numbers are unbounded integers plus NaN. Fractions, infinities and exponent notation
  are not modelled.
- EmailPattern.Lower: lowers A-Z and the Kelvin sign U+212A, which `toLowerCase` turns
  into an ASCII `k`. It keeps every other character, whereas `toLowerCase` also lowers
  other scripts. Those letters fall in the same character classes of the pattern in
  either case. U+0130 lowers to `i` plus a combining dot, which the model does not
  produce; like U+0130 itself, the combining dot is outside the host and TLD classes
  and inside the local-part class.
- The ABView and ABViewContainer registry keys come from classes that are not part of
  this model, so they are parameters of `ViewManager.StandardEntries`.
- Sub-pages are values carrying their parent's id rather than an object reference. The
  model does not capture aliasing between a page and the `parent` of its sub-pages, or
  later in-place updates of a sub-page.
- Fields.ABField.constructor: `this.settings = values.settings` in the base
  `fromValues` makes the field's settings the caller's object, so the normalisation
  that follows also rewrites `values.settings`. The model copies the settings and does
  not capture that aliasing.
- Fields.ABField.constructor: requires usable settings. The source throws a TypeError
  for null, undefined or truthy primitive settings. `Fields.ABField.FromValues`
  models that throw explicitly.
- ViewPage.ABViewPage.constructor: requires that `fromValues` does not throw.
  `ViewPage.ABViewPage.FromValues` models the throw explicitly.
- ViewManager.Registry.Register: `Views["__proto__"] = cls` would replace the object's
  prototype instead of adding an entry. The model treats every key as an own entry; the
  keys the module registers never include `__proto__`.
- ViewManager.Registry.AllViews: `for…in` visits integer-like keys (`"0"`, `"42"`) first,
  in numeric order, before the other keys in assignment order. The model lists entries
  in assignment order, which is the `for…in` order for the keys the module registers.
- UserApproval.UserApprovalTask.ProcessData: `myState[parts[1]]` also reads inherited
  `Object.prototype` names, so `"<id>.constructor"` gives the `Object` function. The
  model reads the state's own properties only, and such a name reads as undefined.
- FieldCore.NormalizedSettings: settings given as an array are read as an empty
  object. The source keeps the array itself, with its items, writes `showIcon`,
  `required` and `width` onto it as named properties, and `toObj` returns it.
  `JsValues.Value` has no arrays with named properties, so the model drops the items.
- FieldCore.BaseFromValues: the same array-settings case, through
  `FieldCore.NormalizedSettings`; `Fields.ABField.TakeSettings` follows it.
- TriggerLifecycle.LifecycleTrigger.constructor: `attributes.type = attributes.type || "trigger"`
  also writes the defaulted type into the caller's `attributes` object. The model takes
  the attributes as a value: the defaulted type is the task's `taskType`, and the
  caller's object is not updated.
- UserApproval.UserApprovalTask.constructor: the same write of the defaulted type
  `"process.task.user.approval"` into the caller's `attributes` object is not captured;
  only `taskType` carries it.
- ViewPage.PageValues: `values.key = 'page'` updates the caller's sub-page values in
  place, and on an array it adds `key` as a named property that the application's
  `viewNew` then reads. The model returns an updated copy of an object, and passes an
  array on unchanged, because `JsValues.Value` has no arrays with named properties.
