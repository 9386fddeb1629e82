/**
 * The view registry (ABViewManager): a table from view key to view class,
 * filled in order when the module loads, listed by `allViews(fn)` and used
 * by `newView(values, application, parent)` to build a view from its key.
 */
module ViewManager {
  import opened JsValues
  import opened Sequences
  import opened Wrappers

  /** The view classes the registry holds. */
  datatype ViewClass = ABView | ABViewContainer | ABViewPage

  /**
   * The own properties of the `Views` object, as keys and classes in the
   * order the keys were first assigned. `for…in` visits non-integer keys in
   * that order; the keys the module registers are all of that kind.
   */
  type Entries = seq<(string, ViewClass)>

  /** No key appears twice. */
  predicate UniqueKeys(entries: Entries) {
    forall i, j :: 0 <= i < j < |entries| ==> entries[i].0 != entries[j].0
  }

  /** The position of the key in the table, or the table's length when it is not there. */
  function IndexOf(entries: Entries, key: string): (i: nat)
    ensures i <= |entries|
    ensures forall j :: 0 <= j < i ==> entries[j].0 != key
    ensures i < |entries| ==> entries[i].0 == key
  {
    if entries == [] then 0
    else if entries[0].0 == key then 0
    else 1 + IndexOf(entries[1..], key)
  }

  /** The class stored under the key as an own property of `Views`, if any. */
  function Lookup(entries: Entries, key: string): (r: Option<ViewClass>)
    ensures r.None? <==> forall i :: 0 <= i < |entries| ==> entries[i].0 != key
    ensures r.Some? ==> exists i :: 0 <= i < |entries| && entries[i] == (key, r.value)
  {
    var i := IndexOf(entries, key);
    if i < |entries| then Some(entries[i].1) else None
  }

  /**
   * `Views[key] = cls`: a new key goes at the end; an existing key keeps
   * its place and takes the new class.
   */
  function Put(entries: Entries, key: string, cls: ViewClass): (r: Entries)
    ensures |r| == if Lookup(entries, key).Some? then |entries| else |entries| + 1
    ensures Lookup(entries, key).None? ==> r == entries + [(key, cls)]
    ensures Lookup(entries, key).Some? ==> r == entries[IndexOf(entries, key) := (key, cls)]
  {
    var i := IndexOf(entries, key);
    if i < |entries| then entries[i := (key, cls)] else entries + [(key, cls)]
  }

  /** The first position the key holds is the only one that satisfies IndexOf's description. */
  lemma IndexOfIs(entries: Entries, key: string, i: nat)
    requires i <= |entries|
    requires forall j :: 0 <= j < i ==> entries[j].0 != key
    requires i < |entries| ==> entries[i].0 == key
    ensures IndexOf(entries, key) == i
  {
  }

  /** After `Views[key] = cls` the key reads cls. */
  lemma PutThenLookup(entries: Entries, key: string, cls: ViewClass)
    ensures Lookup(Put(entries, key, cls), key) == Some(cls)
  {
    IndexOfIs(Put(entries, key, cls), key, IndexOf(entries, key));
  }

  /** `Views[key] = cls` leaves every other key reading as before. */
  lemma PutKeepsOthers(entries: Entries, key: string, cls: ViewClass, other: string)
    requires other != key
    ensures Lookup(Put(entries, key, cls), other) == Lookup(entries, other)
  {
    var r := Put(entries, key, cls);
    var i := IndexOf(entries, key);
    var j := IndexOf(entries, other);
    if j < |entries| {
      IndexOfIs(r, other, j);
    } else {
      IndexOfIs(r, other, |r|);
    }
  }

  /** Registering keeps the keys unique. */
  lemma PutKeepsUnique(entries: Entries, key: string, cls: ViewClass)
    requires UniqueKeys(entries)
    ensures UniqueKeys(Put(entries, key, cls))
  {
  }

  /** The classes of the table, in its order. */
  function Classes(entries: Entries): (r: seq<ViewClass>)
    ensures |r| == |entries|
    ensures forall i :: 0 <= i < |entries| ==> r[i] == entries[i].1
  {
    seq(|entries|, i requires 0 <= i < |entries| => entries[i].1)
  }

  /** The table the module builds when it loads: the base view, the container and the page, each under its `common().key`. */
  function StandardEntries(viewKey: string, containerKey: string): Entries {
    Put(Put(Put([], viewKey, ABView), containerKey, ABViewContainer), "page", ABViewPage)
  }

  /**
   * With three different keys, the table holds the three classes in load
   * order, each under its key, and nothing else.
   */
  lemma StandardEntriesOrder(viewKey: string, containerKey: string)
    requires viewKey != containerKey && viewKey != "page" && containerKey != "page"
    ensures StandardEntries(viewKey, containerKey) == [(viewKey, ABView), (containerKey, ABViewContainer), ("page", ABViewPage)]
    ensures Classes(StandardEntries(viewKey, containerKey)) == [ABView, ABViewContainer, ABViewPage]
  {
    var e1 := Put([], viewKey, ABView);
    assert e1 == [(viewKey, ABView)];
    assert Lookup(e1, containerKey).None?;
    var e2 := Put(e1, containerKey, ABViewContainer);
    assert e2 == [(viewKey, ABView), (containerKey, ABViewContainer)];
    assert Lookup(e2, "page").None?;
  }

  /** The keys of the table the module builds and what they read. */
  lemma StandardLookup(viewKey: string, containerKey: string, key: string)
    requires viewKey != containerKey && viewKey != "page" && containerKey != "page"
    ensures var e := StandardEntries(viewKey, containerKey);
            && Lookup(e, viewKey) == Some(ABView)
            && Lookup(e, containerKey) == Some(ABViewContainer)
            && Lookup(e, "page") == Some(ABViewPage)
            && (key != viewKey && key != containerKey && key != "page" ==> Lookup(e, key).None?)
  {
    var e1 := Put([], viewKey, ABView);
    var e2 := Put(e1, containerKey, ABViewContainer);
    PutThenLookup([], viewKey, ABView);
    PutKeepsOthers(e1, containerKey, ABViewContainer, viewKey);
    PutKeepsOthers(e2, "page", ABViewPage, viewKey);
    PutThenLookup(e1, containerKey, ABViewContainer);
    PutKeepsOthers(e2, "page", ABViewPage, containerKey);
    PutThenLookup(e2, "page", ABViewPage);
    if key != viewKey && key != containerKey && key != "page" {
      PutKeepsOthers([], viewKey, ABView, key);
      PutKeepsOthers(e1, containerKey, ABViewContainer, key);
      PutKeepsOthers(e2, "page", ABViewPage, key);
    }
  }

  /**
   * The names `Views`, a plain object, inherits from `Object.prototype`:
   * `Views[name]` reads them when no own entry has that name.
   */
  const InheritedNames: set<string> := {
    "constructor", "__proto__", "__defineGetter__", "__defineSetter__", "__lookupGetter__",
    "__lookupSetter__", "hasOwnProperty", "isPrototypeOf", "propertyIsEnumerable",
    "toLocaleString", "toString", "valueOf"
  }

  /** A view built by `newView`: its class, and the values, application and parent its constructor received. */
  datatype View = View(cls: ViewClass, values: map<string, Value>, application: Value, parent: Value)

  /**
   * What `newView` returns: a view; null; the `values` object itself, which
   * is what `new Object(values, …)` gives back when the key is
   * `'constructor'`; or the TypeError of `new` applied to something that is
   * not a constructor (undefined, or an inherited method or object).
   */
  datatype NewViewResult = Created(view: View) | NullView | SameValues(values: map<string, Value>) | NotConstructor

  /** The two reports `newView` can make: a console message, and an entry in the operations error log. */
  datatype LogEntry = ConsoleError(message: string) | ErrorLog(message: string, values: map<string, Value>)

  datatype NewViewOutcome = NewViewOutcome(result: NewViewResult, logged: seq<LogEntry>)

  /**
   * `newView(values, application, parent)` over a table: a truthy key that
   * is registered builds its class; a truthy key that names an inherited
   * property reads that property, which is truthy, so `'constructor'` gives
   * the values back and every other inherited name fails as no constructor,
   * with no message; any other truthy key builds the class under `'view'`
   * after one console message; a missing or falsy key makes one error-log
   * entry and gives null. The parent defaults to null.
   */
  function NewView(entries: Entries, values: map<string, Value>, application: Value, parent: Value): (r: NewViewOutcome)
    ensures var key := Get(values, "key");
            && (Truthy(key) && Lookup(entries, ToString(key)).Some? ==>
                  r.result == Created(View(Lookup(entries, ToString(key)).value, values, application, Or(parent, Null))) && r.logged == [])
            && (Truthy(key) && Lookup(entries, ToString(key)).None? && ToString(key) == "constructor" ==>
                  r.result == SameValues(values) && r.logged == [])
            && (Truthy(key) && Lookup(entries, ToString(key)).None? && ToString(key) in InheritedNames - {"constructor"} ==>
                  r.result == NotConstructor && r.logged == [])
            && (Truthy(key) && Lookup(entries, ToString(key)).None? && ToString(key) !in InheritedNames ==>
                  && r.logged == [ConsoleError("!! View[" + ToString(key) + "] not yet defined.  Have an ABView instead:")]
                  && (Lookup(entries, "view").Some? ==> r.result == Created(View(Lookup(entries, "view").value, values, application, Or(parent, Null))))
                  && (Lookup(entries, "view").None? ==> r.result == NotConstructor))
            && (!Truthy(key) ==> r.result == NullView && r.logged == [ErrorLog("Unknown view key [" + ToString(key) + "]:", values)])
    ensures r.result.Created? ==> r.result.view.parent == (if Truthy(parent) then parent else Null)
  {
    var parent := Or(parent, Null);
    var key := Get(values, "key");
    if Truthy(key) then
      var registered := Lookup(entries, ToString(key));
      if registered.Some? then NewViewOutcome(Created(View(registered.value, values, application, parent)), [])
      else if ToString(key) == "constructor" then NewViewOutcome(SameValues(values), [])
      else if ToString(key) in InheritedNames then NewViewOutcome(NotConstructor, [])
      else
        var fallback := Lookup(entries, "view");
        var logged := [ConsoleError("!! View[" + ToString(key) + "] not yet defined.  Have an ABView instead:")];
        if fallback.Some? then NewViewOutcome(Created(View(fallback.value, values, application, parent)), logged)
        else NewViewOutcome(NotConstructor, logged)
    else NewViewOutcome(NullView, [ErrorLog("Unknown view key [" + ToString(key) + "]:", values)])
  }

  /**
   * In the table the module builds, with the base view under `'view'`,
   * a truthy key builds a view unless it names an inherited property: a
   * registered key its own class, `'constructor'` the values themselves,
   * another inherited name no view at all, and any other key the base view.
   */
  lemma StandardNewView(containerKey: string, values: map<string, Value>, application: Value, parent: Value)
    requires containerKey != "view" && containerKey != "page"
    requires Truthy(Get(values, "key"))
    ensures var r := NewView(StandardEntries("view", containerKey), values, application, parent).result;
            var k := ToString(Get(values, "key"));
            && (r.Created? <==> k == "page" || k == containerKey || k !in InheritedNames)
            && (k == "page" ==> r.view.cls == ABViewPage)
            && (k == containerKey ==> r.view.cls == ABViewContainer)
            && (k != "page" && k != containerKey && k !in InheritedNames ==> r.view.cls == ABView)
            && (k != containerKey && k == "constructor" ==> r == SameValues(values))
            && (k != containerKey && k in InheritedNames - {"constructor"} ==> r == NotConstructor)
  {
    StandardLookup("view", containerKey, ToString(Get(values, "key")));
  }

  /** The `Views` table. */
  class Registry {
    var entries: Entries

    /** The module's load-time assignments, with the keys the base view and the container class report. */
    constructor (viewKey: string, containerKey: string)
      ensures entries == StandardEntries(viewKey, containerKey)
      ensures UniqueKeys(entries)
    {
      entries := [];
      new;
      Register(viewKey, ABView);
      Register(containerKey, ABViewContainer);
      Register("page", ABViewPage);
      PutKeepsUnique([], viewKey, ABView);
      PutKeepsUnique(Put([], viewKey, ABView), containerKey, ABViewContainer);
      PutKeepsUnique(Put(Put([], viewKey, ABView), containerKey, ABViewContainer), "page", ABViewPage);
    }

    /** `Views[key] = cls` */
    method Register(key: string, cls: ViewClass)
      modifies this
      ensures entries == Put(old(entries), key, cls)
    {
      var i := 0;
      while i < |entries| && entries[i].0 != key
        invariant 0 <= i <= |entries|
        invariant forall j :: 0 <= j < i ==> entries[j].0 != key
      {
        i := i + 1;
      }
      if i < |entries| {
        entries := entries[i := (key, cls)];
      } else {
        entries := entries + [(key, cls)];
      }
    }

    /**
     * `allViews(fn)`: the classes of the table that pass fn, in the table's
     * order; every class when fn is not given.
     */
    method AllViews(fn: Option<ViewClass -> bool>) returns (views: seq<ViewClass>)
      ensures views == Filter(Classes(entries), OrAll(fn))
    {
      var test := OrAll(fn);
      views := [];
      for i := 0 to |entries|
        invariant views == Filter(Classes(entries[..i]), test)
      {
        var v := entries[i].1;
        assert Classes(entries[..i + 1]) == Classes(entries[..i]) + [v];
        FilterSnoc(Classes(entries[..i]), v, test);
        if test(v) {
          views := views + [v];
        }
      }
      assert entries[..|entries|] == entries;
    }

    /** `newView(values, application, parent)` on this table. */
    function NewViewOf(values: map<string, Value>, application: Value, parent: Value): (r: NewViewOutcome)
      reads this
      ensures r == NewView(entries, values, application, parent)
    {
      NewView(entries, values, application, parent)
    }
  }

  /** `allViews()` lists every registered class. */
  lemma AllViewsUnfiltered(entries: Entries)
    ensures Filter(Classes(entries), OrAll<ViewClass>(None)) == Classes(entries)
  {
    FilterAll(Classes(entries), OrAll<ViewClass>(None));
  }
}
