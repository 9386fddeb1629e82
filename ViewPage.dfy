/**
 * A page view (ABViewPageCore): a view that holds sub-pages and data
 * collections, finds pages in its sub-tree, and builds the url that points
 * to it from its chain of parent pages.
 *
 * The page being hydrated is a class; its sub-pages are values, each with
 * the id of the page its `parent` points to and its own sub-pages. What the
 * container base class, the application and the data collections do is not
 * part of this model and comes in as parameters.
 */
module ViewPage {
  import opened JsValues
  import opened Sequences
  import opened Wrappers

  /** `ABViewDefaults`, returned by `common()`. */
  datatype ViewDefaults = ViewDefaults(key: string, icon: string)

  function Common(): (d: ViewDefaults)
    ensures d.key == "page" && d.icon == "file"
  {
    ViewDefaults("page", "file")
  }

  /** A sub-page: its id, name and label, the id of its parent page (None for a null parent), and its sub-pages. */
  datatype Page = Page(id: Value, name: Value, caption: Value, parent: Option<Value>, pages: seq<Page>)

  /** A filter passed to `pages()`: the page is kept when the filter returns a truthy value. */
  type PageFilter = Page -> bool

  // ---------------------------------------------------------------------
  // pages(filter, deep)
  // ---------------------------------------------------------------------

  /**
   * The deep search below a page: the sub-pages that match, when any
   * does; otherwise the search of the last sub-page whose own deep search
   * finds something ([] when none does, or when there are no sub-pages).
   */
  function DeepSearch(page: Page, f: PageFilter): seq<Page>
    decreases page, 1
  {
    var direct := Filter(page.pages, f);
    if direct != [] then direct else LastFound(page, f, |page.pages|)
  }

  /** The deep search of the last of the first n sub-pages whose deep search is non-empty, or []. */
  function LastFound(page: Page, f: PageFilter, n: nat): seq<Page>
    requires n <= |page.pages|
    decreases page, 0, n
  {
    if n == 0 then []
    else
      var found := DeepSearch(page.pages[n - 1], f);
      if found != [] then found else LastFound(page, f, n - 1)
  }

  /** What `pages(filter, deep)` returns: a deep search when both are given, otherwise the direct sub-pages that pass the filter. */
  function PagesSpec(page: Page, filter: Option<PageFilter>, deep: bool): (r: seq<Page>)
    ensures forall q :: q in r ==> OrAll(filter)(q)
    ensures !(filter.Some? && deep) ==> forall q :: q in r <==> q in page.pages && OrAll(filter)(q)
    ensures filter.Some? && deep ==> forall q :: q in r ==> Below(q, page)
    ensures filter.Some? && deep && Filter(page.pages, filter.value) != [] ==> r == Filter(page.pages, filter.value)
  {
    if filter.Some? && deep then
      DeepSearchSound(page, filter.value);
      DeepSearch(page, filter.value)
    else Filter(page.pages, OrAll(filter))
  }

  /**
   * `pages(filter, deep)` on a page with the given sub-pages: the filter of
   * the direct sub-pages, then, when it is empty, a pass over the
   * sub-pages that keeps each non-empty deep search, so the last one wins.
   */
  method SearchPages(page: Page, filter: Option<PageFilter>, deep: bool) returns (result: seq<Page>)
    ensures result == PagesSpec(page, filter, deep)
    decreases page
  {
    result := [];
    if filter.Some? && deep {
      if |page.pages| > 0 {
        result := Filter(page.pages, filter.value);
        if |result| < 1 {
          assert result == [];
          for i := 0 to |page.pages|
            invariant result == LastFound(page, filter.value, i)
          {
            var subPages := SearchPages(page.pages[i], filter, deep);
            if |subPages| > 0 {
              result := subPages;
            }
          }
          assert result == DeepSearch(page, filter.value);
        }
      } else {
        assert result == DeepSearch(page, filter.value);
      }
    } else {
      result := Filter(page.pages, OrAll(filter));
    }
  }

  /** q is a sub-page of page, at any depth. */
  predicate Below(q: Page, page: Page)
    decreases page
  {
    exists i :: 0 <= i < |page.pages| && (page.pages[i] == q || Below(q, page.pages[i]))
  }

  /** Without a filter, or without `deep`, `pages` returns every direct sub-page, in order. */
  lemma ShallowPagesAll(page: Page, deep: bool)
    ensures PagesSpec(page, None, deep) == page.pages
  {
    FilterAll(page.pages, OrAll<Page>(None));
  }

  /** When a direct sub-page matches, the deep search returns exactly the matching direct sub-pages, and descends no further. */
  lemma DirectMatchesWin(page: Page, f: PageFilter, k: nat)
    requires k < |page.pages| && f(page.pages[k])
    ensures DeepSearch(page, f) == Filter(page.pages, f) != []
  {
  }

  /** When none of the first n sub-pages has a non-empty deep search, the pass over them keeps []. */
  lemma {:induction false} LastFoundEmpty(page: Page, f: PageFilter, n: nat)
    requires n <= |page.pages|
    requires forall j :: 0 <= j < n ==> DeepSearch(page.pages[j], f) == []
    ensures LastFound(page, f, n) == []
  {
    if n > 0 {
      LastFoundEmpty(page, f, n - 1);
    }
  }

  /**
   * The pass over the first n sub-pages keeps the deep search of sub-page
   * k when it is non-empty and every later one is empty: the last one wins.
   */
  lemma {:induction false} LastFoundIsLast(page: Page, f: PageFilter, n: nat, k: nat)
    requires k < n <= |page.pages|
    requires DeepSearch(page.pages[k], f) != []
    requires forall j :: k < j < n ==> DeepSearch(page.pages[j], f) == []
    ensures LastFound(page, f, n) == DeepSearch(page.pages[k], f)
  {
    if k < n - 1 {
      LastFoundIsLast(page, f, n - 1, k);
    }
  }

  /** One step of the pass: sub-page n-1's deep search when non-empty, otherwise the pass over the sub-pages before it. */
  lemma LastFoundStep(page: Page, f: PageFilter, n: nat)
    requires 0 < n <= |page.pages|
    ensures DeepSearch(page.pages[n - 1], f) != [] ==> LastFound(page, f, n) == DeepSearch(page.pages[n - 1], f)
    ensures DeepSearch(page.pages[n - 1], f) == [] ==> LastFound(page, f, n) == LastFound(page, f, n - 1)
  {
  }

  /** The pass over the first n sub-pages finds something when one of them has a non-empty deep search. */
  lemma {:induction false} LastFoundSome(page: Page, f: PageFilter, n: nat, j: nat)
    requires j < n <= |page.pages|
    requires DeepSearch(page.pages[j], f) != []
    ensures LastFound(page, f, n) != []
  {
    LastFoundStep(page, f, n);
    if DeepSearch(page.pages[n - 1], f) == [] {
      LastFoundSome(page, f, n - 1, j);
    }
  }

  /** The deep search is complete: it finds something whenever some page below passes the filter. */
  lemma {:induction false} DeepSearchComplete(page: Page, f: PageFilter, q: Page)
    requires Below(q, page) && f(q)
    ensures DeepSearch(page, f) != []
    decreases page
  {
    var i :| 0 <= i < |page.pages| && (page.pages[i] == q || Below(q, page.pages[i]));
    if Filter(page.pages, f) == [] {
      assert page.pages[i] != q;
      DeepSearchComplete(page.pages[i], f, q);
      LastFoundSome(page, f, |page.pages|, i);
    }
  }

  /** `pages(filter, true)` finds something exactly when some page below passes the filter. */
  lemma DeepPagesFound(page: Page, f: PageFilter)
    ensures PagesSpec(page, Some(f), true) != [] <==> exists q :: Below(q, page) && f(q)
  {
    if PagesSpec(page, Some(f), true) != [] {
      DeepSearchSound(page, f);
      var q := PagesSpec(page, Some(f), true)[0];
      assert q in DeepSearch(page, f);
    }
    if q :| Below(q, page) && f(q) {
      DeepSearchComplete(page, f, q);
    }
  }

  /** The no-direct-match case of the deep search, stated on the whole list of sub-pages. */
  lemma NoDirectMatch(page: Page, f: PageFilter)
    requires forall j :: 0 <= j < |page.pages| ==> !f(page.pages[j])
    ensures (forall j :: 0 <= j < |page.pages| ==> DeepSearch(page.pages[j], f) == []) ==> DeepSearch(page, f) == []
    ensures forall k :: 0 <= k < |page.pages| && DeepSearch(page.pages[k], f) != [] &&
                        (forall j :: k < j < |page.pages| ==> DeepSearch(page.pages[j], f) == []) ==>
                        DeepSearch(page, f) == DeepSearch(page.pages[k], f)
  {
    FilterNone(page.pages, f);
    if forall j :: 0 <= j < |page.pages| ==> DeepSearch(page.pages[j], f) == [] {
      LastFoundEmpty(page, f, |page.pages|);
    }
    forall k | 0 <= k < |page.pages| && DeepSearch(page.pages[k], f) != [] &&
               (forall j :: k < j < |page.pages| ==> DeepSearch(page.pages[j], f) == [])
      ensures DeepSearch(page, f) == DeepSearch(page.pages[k], f)
    {
      LastFoundIsLast(page, f, |page.pages|, k);
    }
  }

  /** Every page the deep search returns passes the filter and lies below the page searched. */
  lemma {:induction false} DeepSearchSound(page: Page, f: PageFilter)
    ensures forall q :: q in DeepSearch(page, f) ==> f(q) && Below(q, page)
    decreases page, 1
  {
    var direct := Filter(page.pages, f);
    if direct == [] {
      LastFoundSound(page, f, |page.pages|);
    } else {
      forall q | q in direct
        ensures f(q) && Below(q, page)
      {
        var i :| 0 <= i < |direct| && direct[i] == q;
        var j :| 0 <= j < |page.pages| && page.pages[j] == q;
      }
    }
  }

  lemma {:induction false} LastFoundSound(page: Page, f: PageFilter, n: nat)
    requires n <= |page.pages|
    ensures forall q :: q in LastFound(page, f, n) ==> f(q) && Below(q, page)
    decreases page, 0, n
  {
    if n > 0 {
      var child := page.pages[n - 1];
      var found := DeepSearch(child, f);
      if found != [] {
        DeepSearchSound(child, f);
        forall q | q in found
          ensures Below(q, page)
        {
          assert Below(q, child);
          assert 0 <= n - 1 < |page.pages| && (page.pages[n - 1] == q || Below(q, page.pages[n - 1]));
        }
      } else {
        LastFoundSound(page, f, n - 1);
      }
    }
  }

  /** The deep search returns all of one level: when it finds something, it is the full filter of some page's sub-pages. */
  lemma {:induction false} DeepSearchOneLevel(page: Page, f: PageFilter)
    ensures DeepSearch(page, f) != [] ==>
              exists d :: (d == page || Below(d, page)) && DeepSearch(page, f) == Filter(d.pages, f)
    decreases page, 1
  {
    if Filter(page.pages, f) == [] {
      LastFoundOneLevel(page, f, |page.pages|);
    }
  }

  lemma {:induction false} LastFoundOneLevel(page: Page, f: PageFilter, n: nat)
    requires n <= |page.pages|
    ensures LastFound(page, f, n) != [] ==>
              exists d :: Below(d, page) && LastFound(page, f, n) == Filter(d.pages, f)
    decreases page, 0, n
  {
    if n > 0 {
      var child := page.pages[n - 1];
      var found := DeepSearch(child, f);
      if found != [] {
        DeepSearchOneLevel(child, f);
        var d :| (d == child || Below(d, child)) && found == Filter(d.pages, f);
        assert 0 <= n - 1 < |page.pages| && (page.pages[n - 1] == d || Below(d, page.pages[n - 1]));
        assert Below(d, page);
      } else {
        LastFoundOneLevel(page, f, n - 1);
      }
    }
  }

  // ---------------------------------------------------------------------
  // labels, settings and sub-page values
  // ---------------------------------------------------------------------

  /**
   * `!label || label == '?label?'`: the label counts as unset. The comparison
   * is JavaScript's loose `==`, so an array printing as `?label?` is unset too.
   */
  predicate UnsetLabel(caption: Value) {
    !Truthy(caption) || LooseEqualsString(caption, "?label?")
  }

  /** Besides a falsy label, exactly the strings and arrays that print as `?label?` are unset: `?label?` is no number and not `[object Object]`. */
  lemma UnsetLabelCases(caption: Value)
    ensures UnsetLabel(caption) <==> !Truthy(caption) || ((caption.Str? || caption.Arr?) && ToString(caption) == "?label?")
  {
    var t := "?label?";
    assert TrimStart(t) == t by { assert !IsJsWhitespace(t[0]); }
    assert TrimEnd(t) == t by { assert !IsJsWhitespace(t[|t| - 1]); }
    assert DigitPrefix(t, 10) == [] by { assert DigitValue(t[0], 10) < 0; }
    assert StringToNumber(t) == NaN;
  }

  /** `if (!label || label == '?label?') label = name`, in both fromValues and toObj. */
  function PageLabel(caption: Value, name: Value): (r: Value)
    ensures r == caption || r == name
    ensures !UnsetLabel(caption) ==> r == caption
    ensures UnsetLabel(caption) ==> r == name
  {
    if UnsetLabel(caption) then name else caption
  }

  /** The label `['?label?']` prints as `?label?`, so the name replaces it. */
  lemma ArrayPlaceholderReplaced()
    ensures ToString(Arr([Str("?label?")])) == "?label?"
    ensures PageLabel(Arr([Str("?label?")]), Str("n")) == Str("n")
  {
    assert ToString(Arr([Str("?label?")])) == ItemString(Str("?label?"));
  }

  /** A label already defaulted stays as it is when it is defaulted again. */
  lemma PageLabelSettles(caption: Value, name: Value)
    ensures PageLabel(PageLabel(caption, name), name) == PageLabel(caption, name)
  {
  }

  /** `settings.columns || 1` and `settings.gravity || [1]`. */
  function PageSettings(settings: map<string, Value>): (r: map<string, Value>)
    ensures r.Keys == settings.Keys + {"columns", "gravity"}
    ensures Truthy(r["columns"]) && Truthy(r["gravity"])
    ensures forall k :: k in settings && k != "columns" && k != "gravity" ==> r[k] == settings[k]
    ensures Truthy(Get(settings, "columns")) ==> r["columns"] == settings["columns"]
    ensures !Truthy(Get(settings, "columns")) ==> r["columns"] == Num(1)
    ensures Truthy(Get(settings, "gravity")) ==> r["gravity"] == settings["gravity"]
    ensures !Truthy(Get(settings, "gravity")) ==> r["gravity"] == Arr([Num(1)])
  {
    settings["columns" := Or(Get(settings, "columns"), Num(1))]["gravity" := Or(Get(settings, "gravity"), Arr([Num(1)]))]
  }

  /** Defaulting settings that were already defaulted changes nothing. */
  lemma PageSettingsSettle(settings: map<string, Value>)
    ensures PageSettings(PageSettings(settings)) == PageSettings(settings)
  {
    var r := PageSettings(settings);
    assert PageSettings(r) == r;
  }

  /** `(v || []).forEach(...)`: a falsy value is an empty list; anything but an array has no forEach and throws. */
  function ItemsOf(v: Value): (r: Option<seq<Value>>)
    ensures !Truthy(v) ==> r == Some([])
    ensures v.Arr? ==> r == Some(v.items)
    ensures r.Some? <==> !Truthy(v) || v.Arr?
  {
    var w := Or(v, Arr([]));
    if w.Arr? then Some(w.items) else None
  }

  /**
   * `values.key = 'page'` on a sub-page's values: an object gets the page
   * key; an array takes the property without showing it here; any other
   * value cannot take a property and throws.
   */
  function PageValues(child: Value): (r: Option<Value>)
    ensures r.Some? <==> child.Obj? || child.Arr?
    ensures child.Obj? ==> r.value.Obj? && Get(r.value.props, "key") == Str(Common().key)
    ensures child.Obj? ==> forall k :: k != "key" ==> Get(r.value.props, k) == Get(child.props, k)
  {
    match child
    case Obj(props) => Some(Obj(props["key" := Str(Common().key)]))
    case Arr(_) => Some(child)
    case _ => None
  }

  /** `application.viewNew(values, application, null)`: the application builds the view (not part of this model). */
  type ViewNew = Value -> Page

  /** `pageNew(child)` on the page with id parentId: the view built from the page values, with parentId as its parent. */
  function NewChild(child: Value, parentId: Value, viewNew: ViewNew): (r: Option<Page>)
    ensures r.Some? <==> child.Obj? || child.Arr?
    ensures r.Some? ==> r.value.parent == Some(parentId)
    ensures r.Some? ==> r.value == viewNew(PageValues(child).value).(parent := Some(parentId))
  {
    var v := PageValues(child);
    if v.Some? then Some(viewNew(v.value).(parent := Some(parentId))) else None
  }

  /** The sub-pages built, in order, from a list of values: None when one of them throws. */
  function NewChildren(children: seq<Value>, parentId: Value, viewNew: ViewNew): Option<seq<Page>> {
    if children == [] then Some([])
    else
      var init := NewChildren(children[..|children| - 1], parentId, viewNew);
      var last := NewChild(children[|children| - 1], parentId, viewNew);
      if init.Some? && last.Some? then Some(init.value + [last.value]) else None
  }

  /** One failing sub-page makes the whole list fail, whatever follows it. */
  lemma {:induction false} NewChildrenFails(children: seq<Value>, i: nat, parentId: Value, viewNew: ViewNew)
    requires i <= |children| && NewChildren(children[..i], parentId, viewNew).None?
    ensures NewChildren(children, parentId, viewNew).None?
    decreases |children| - i
  {
    if i < |children| {
      assert children[..i + 1][..i] == children[..i];
      NewChildrenFails(children, i + 1, parentId, viewNew);
    } else {
      assert children[..i] == children;
    }
  }

  /** Building succeeds exactly when every value can take the page key, and then there is one page per value, each a child of parentId. */
  lemma {:induction false} NewChildrenShape(children: seq<Value>, parentId: Value, viewNew: ViewNew)
    ensures NewChildren(children, parentId, viewNew).Some? <==>
              forall i :: 0 <= i < |children| ==> children[i].Obj? || children[i].Arr?
    ensures NewChildren(children, parentId, viewNew).Some? ==>
              var ps := NewChildren(children, parentId, viewNew).value;
              |ps| == |children| && forall i :: 0 <= i < |ps| ==> ps[i] == NewChild(children[i], parentId, viewNew).value
  {
    if children != [] {
      var init := children[..|children| - 1];
      NewChildrenShape(init, parentId, viewNew);
      assert forall i :: 0 <= i < |init| ==> init[i] == children[i];
    }
  }

  /** `dataCollectionNew(values)`: the collection built from `values || {}` (the data collection itself is not part of this model). */
  type CollectionNew = Value -> Value

  function NewCollections(items: seq<Value>, collectionNew: CollectionNew): (r: seq<Value>)
    ensures |r| == |items|
    ensures forall i :: 0 <= i < |items| ==> r[i] == collectionNew(Or(items[i], Obj(map[])))
  {
    seq(|items|, i requires 0 <= i < |items| => collectionNew(Or(items[i], Obj(map[]))))
  }

  /** What the container base class's `fromValues` assigned: id, key, name, label and settings. */
  datatype ViewBase = ViewBase(id: Value, key: Value, name: Value, caption: Value, settings: map<string, Value>)

  /** The state of a page: the base attributes, `_pages` and `_dataCollections` (None when never assigned), and its parent's id. */
  datatype PageState = PageState(
    id: Value, key: Value, name: Value, caption: Value, settings: map<string, Value>,
    pages: seq<Page>, dataCollections: Option<seq<Value>>, parent: Option<Value>)

  /**
   * What `fromValues` makes of a page after the base class's part: the
   * label defaulted to the name, the sub-pages and data collections built
   * from their values, and the two layout settings defaulted. None when a
   * list is not an array or a sub-page's values cannot take the page key.
   */
  function PageFromValues(prev: PageState, values: map<string, Value>, base: ViewBase,
                          viewNew: ViewNew, collectionNew: CollectionNew): (r: Option<PageState>)
    ensures var children := ItemsOf(Get(values, "pages"));
            var data := ItemsOf(Get(values, "dataCollections"));
            && (r.Some? <==>
                  && children.Some? && data.Some?
                  && forall i :: 0 <= i < |children.value| ==> children.value[i].Obj? || children.value[i].Arr?)
            && (r.Some? ==>
                  && r.value.id == base.id && r.value.key == base.key && r.value.name == base.name
                  && r.value.parent == prev.parent
                  && r.value.caption == PageLabel(base.caption, base.name)
                  && r.value.settings == PageSettings(base.settings)
                  && |r.value.pages| == |children.value|
                  && (forall i :: 0 <= i < |children.value| ==>
                        r.value.pages[i] == NewChild(children.value[i], base.id, viewNew).value &&
                        r.value.pages[i].parent == Some(base.id))
                  && r.value.dataCollections.Some?
                  && |r.value.dataCollections.value| == |data.value|
                  && (forall i :: 0 <= i < |data.value| ==>
                        r.value.dataCollections.value[i] == collectionNew(Or(data.value[i], Obj(map[])))))
  {
    var children := ItemsOf(Get(values, "pages"));
    var data := ItemsOf(Get(values, "dataCollections"));
    if children.None? then None
    else
      NewChildrenShape(children.value, base.id, viewNew);
      var pages := NewChildren(children.value, base.id, viewNew);
      if pages.None? || data.None? then None
      else Some(PageState(base.id, base.key, base.name, PageLabel(base.caption, base.name), PageSettings(base.settings),
                          pages.value, Some(NewCollections(data.value, collectionNew)), prev.parent))
  }

  /** What `toObj` sets on top of the base class's object: name, the label default, and the two lists. */
  function PageToObj(s: PageState, baseObj: map<string, Value>, pageToObj: Page -> Value, collectionToObj: Value -> Value): (r: Option<map<string, Value>>)
    ensures r.Some? <==> s.dataCollections.Some?
    ensures r.Some? ==>
              && "name" in r.value
              && "pages" in r.value && "dataCollections" in r.value
              && r.value["name"] == s.name
              && (UnsetLabel(s.caption) ==> Get(r.value, "label") == s.name)
              && (!UnsetLabel(s.caption) ==> Get(r.value, "label") == Get(baseObj, "label"))
              && r.value["pages"].Arr? && |r.value["pages"].items| == |s.pages|
              && (forall i :: 0 <= i < |s.pages| ==> r.value["pages"].items[i] == pageToObj(s.pages[i]))
              && r.value["dataCollections"].Arr? && |r.value["dataCollections"].items| == |s.dataCollections.value|
              && (forall i :: 0 <= i < |s.dataCollections.value| ==>
                    r.value["dataCollections"].items[i] == collectionToObj(s.dataCollections.value[i]))
              && (forall k :: k in baseObj && k != "name" && k != "label" && k != "pages" && k != "dataCollections" ==>
                    k in r.value && r.value[k] == baseObj[k])
  {
    if s.dataCollections.None? then None
    else
      var obj := baseObj["name" := s.name];
      var obj := if UnsetLabel(s.caption) then obj["label" := obj["name"]] else obj;
      Some(obj["pages" := Arr(ObjectsOf(s.pages, pageToObj))]["dataCollections" := Arr(ObjectsOf(s.dataCollections.value, collectionToObj))])
  }

  /** `xs.forEach((x) => list.push(x.toObj()))`: one object per element, in order. */
  function ObjectsOf<T>(xs: seq<T>, toObj: T -> Value): (r: seq<Value>)
    ensures |r| == |xs|
    ensures forall i :: 0 <= i < |xs| ==> r[i] == toObj(xs[i])
  {
    seq(|xs|, i requires 0 <= i < |xs| => toObj(xs[i]))
  }

  /**
   * After `fromValues`, `toObj` lists, in order, the object of the page
   * built from each sub-page's values and the object of the collection
   * built from each data collection's values, and only overrides the label
   * when the name itself is unset (empty, or loosely equal to `'?label?'`).
   */
  lemma ToObjAfterFromValues(prev: PageState, values: map<string, Value>, base: ViewBase, viewNew: ViewNew,
                             collectionNew: CollectionNew, baseObj: map<string, Value>,
                             pageToObj: Page -> Value, collectionToObj: Value -> Value)
    requires PageFromValues(prev, values, base, viewNew, collectionNew).Some?
    ensures var s := PageFromValues(prev, values, base, viewNew, collectionNew).value;
            var obj := PageToObj(s, baseObj, pageToObj, collectionToObj);
            var children := ItemsOf(Get(values, "pages")).value;
            var data := ItemsOf(Get(values, "dataCollections")).value;
            && obj.Some?
            && obj.value["name"] == base.name
            && obj.value["pages"].Arr? && |obj.value["pages"].items| == |children|
            && (forall i :: 0 <= i < |children| ==>
                  obj.value["pages"].items[i] == pageToObj(NewChild(children[i], base.id, viewNew).value))
            && obj.value["dataCollections"].Arr? && |obj.value["dataCollections"].items| == |data|
            && (forall i :: 0 <= i < |data| ==>
                  obj.value["dataCollections"].items[i] == collectionToObj(collectionNew(Or(data[i], Obj(map[])))))
            && (!UnsetLabel(base.name) ==> Get(obj.value, "label") == Get(baseObj, "label"))
  {
    var children := ItemsOf(Get(values, "pages")).value;
    NewChildrenShape(children, base.id, viewNew);
  }

  /** `dataCollections(filter)`: [] when the list was never assigned, otherwise the collections that pass the filter, in order. */
  function DataCollections(collections: Option<seq<Value>>, filter: Option<Value -> bool>): (r: seq<Value>)
    ensures collections.None? ==> r == []
    ensures collections.Some? ==> forall i :: 0 <= i < |r| ==> r[i] in collections.value && OrAll(filter)(r[i])
    ensures collections.Some? ==> forall i :: 0 <= i < |collections.value| && OrAll(filter)(collections.value[i]) ==> collections.value[i] in r
  {
    if collections.None? then [] else Filter(collections.value, OrAll(filter))
  }

  /** Without a filter, every data collection is returned, in order. */
  lemma DataCollectionsAll(collections: seq<Value>)
    ensures DataCollections(Some(collections), None) == collections
  {
    FilterAll(collections, OrAll<Value>(None));
  }

  // ---------------------------------------------------------------------
  // urls
  // ---------------------------------------------------------------------

  /** A chain of pages from a page without a parent down to a page, each the parent of the next. */
  predicate Linked(chain: seq<Page>) {
    && |chain| >= 1
    && chain[0].parent.None?
    && forall i :: 0 < i < |chain| ==> chain[i].parent == Some(chain[i - 1].id)
  }

  /** The ids along a chain, each followed by `/_pages/`. */
  function PagesPath(chain: seq<Page>): string {
    if chain == [] then "" else PagesPath(chain[..|chain| - 1]) + ToString(chain[|chain| - 1].id) + "/_pages/"
  }

  /** A chain of more than one page without its last page is still a chain. */
  lemma LinkedInit(chain: seq<Page>)
    requires Linked(chain) && |chain| > 1
    ensures Linked(chain[..|chain| - 1])
  {
    var init := chain[..|chain| - 1];
    forall i | 0 < i < |init|
      ensures init[i].parent == Some(init[i - 1].id)
    {
      assert chain[i].parent == Some(chain[i - 1].id);
    }
  }

  /**
   * `urlPointer()` of the last page of a chain: its parent's `urlPage()`
   * followed by its id, or the application's url for pages followed by its
   * id when it has no parent. The url spells out the chain: the
   * application's url for pages, then every ancestor's id followed by
   * `/_pages/`, then the page's own id.
   */
  function UrlPointer(appUrlPage: string, chain: seq<Page>): (r: string)
    requires Linked(chain)
    ensures r == appUrlPage + PagesPath(chain[..|chain| - 1]) + ToString(chain[|chain| - 1].id)
    decreases |chain|, 0
  {
    var n := |chain|;
    var page := chain[n - 1];
    assert n > 1 ==> page.parent == Some(chain[n - 2].id);
    if page.parent.Some? then
      LinkedInit(chain);
      UrlPage(appUrlPage, chain[..n - 1]) + ToString(page.id)
    else
      assert chain[..n - 1] == [];
      appUrlPage + ToString(page.id)
  }

  /** `urlPage()`: the page's pointer followed by `/_pages/`, so the application's url followed by the whole chain's path. */
  function UrlPage(appUrlPage: string, chain: seq<Page>): (r: string)
    requires Linked(chain)
    ensures r == appUrlPage + PagesPath(chain)
    decreases |chain|, 1
  {
    assert chain[..|chain|] == chain;
    UrlPointer(appUrlPage, chain) + "/_pages/"
  }

  // ---------------------------------------------------------------------
  // the page object
  // ---------------------------------------------------------------------

  /** A page before any attribute is set. */
  const Unset := PageState(Undefined, Undefined, Undefined, Undefined, map[], [], None, None)

  /**
   * A page being hydrated. The container base class's constructor runs
   * `fromValues`; the page's own constructor then clears `parent`, which
   * the `pageNew` of the parent page sets afterwards.
   */
  class ABViewPage {
    var id: Value
    var key: Value
    var name: Value
    var caption: Value                          // `label`
    var settings: map<string, Value>
    var pages: seq<Page>                        // `_pages`
    var dataCollections: Option<seq<Value>>     // `_dataCollections`
    var parent: Option<Value>                   // the id of the page `parent` points to

    function State(): PageState
      reads this
    {
      PageState(id, key, name, caption, settings, pages, dataCollections, parent)
    }

    /** This page as a sub-page value, for the search. */
    function AsPage(): Page
      reads this
    {
      Page(id, name, caption, parent, pages)
    }

    /** `new ABViewPage(values, application, parent)`; it throws when `fromValues` does, so the model requires that it does not. */
    constructor (values: map<string, Value>, base: ViewBase, viewNew: ViewNew, collectionNew: CollectionNew)
      requires PageFromValues(Unset, values, base, viewNew, collectionNew).Some?
      ensures State() == PageFromValues(Unset, values, base, viewNew, collectionNew).value
      ensures parent == None
    {
      id, key, name, caption, settings := Undefined, Undefined, Undefined, Undefined, map[];
      pages, dataCollections, parent := [], None, None;
      new;
      var thrown := FromValues(values, base, viewNew, collectionNew);
      parent := None;
    }

    /**
     * `fromValues(values)`: the base class's part (given as base), the
     * label default, the sub-pages and the data collections built from
     * their values, and the two layout settings. It throws when a list is
     * not an array or a sub-page's values cannot take the page key.
     */
    method FromValues(values: map<string, Value>, base: ViewBase, viewNew: ViewNew, collectionNew: CollectionNew) returns (thrown: bool)
      modifies this
      ensures thrown <==> PageFromValues(old(State()), values, base, viewNew, collectionNew).None?
      ensures !thrown ==> State() == PageFromValues(old(State()), values, base, viewNew, collectionNew).value
    {
      TakeBase(base);
      var children := ItemsOf(Get(values, "pages"));
      if children.None? {
        return true;
      }
      var built := BuildPages(children.value, viewNew);
      if built.None? {
        return true;
      }
      pages := built.value;
      thrown := TakeCollections(values, collectionNew);
    }

    /** `super.fromValues(values)` (its result given as base), then the label default. */
    method TakeBase(base: ViewBase)
      modifies this`id, this`key, this`name, this`caption, this`settings
      ensures id == base.id && key == base.key && name == base.name && settings == base.settings
      ensures caption == PageLabel(base.caption, base.name)
    {
      id, key, name, caption, settings := base.id, base.key, base.name, base.caption, base.settings;
      if UnsetLabel(caption) {
        caption := name;
      }
    }

    /** The data collections built from their values, then the two layout settings; it throws when the list is not an array. */
    method TakeCollections(values: map<string, Value>, collectionNew: CollectionNew) returns (thrown: bool)
      modifies this`dataCollections, this`settings
      ensures thrown <==> ItemsOf(Get(values, "dataCollections")).None?
      ensures !thrown ==> dataCollections == Some(NewCollections(ItemsOf(Get(values, "dataCollections")).value, collectionNew))
      ensures !thrown ==> settings == PageSettings(old(settings))
    {
      var data := ItemsOf(Get(values, "dataCollections"));
      if data.None? {
        return true;
      }
      var collections := BuildCollections(data.value, collectionNew);
      dataCollections := Some(collections);
      settings := settings["columns" := Or(Get(settings, "columns"), Num(1))];
      settings := settings["gravity" := Or(Get(settings, "gravity"), Arr([Num(1)]))];
      return false;
    }

    /** The `forEach` over the sub-pages' values, pushing `pageNew(child)`; None when one of them throws. */
    method BuildPages(children: seq<Value>, viewNew: ViewNew) returns (built: Option<seq<Page>>)
      ensures built == NewChildren(children, id, viewNew)
    {
      var ps: seq<Page> := [];
      for i := 0 to |children|
        invariant NewChildren(children[..i], id, viewNew) == Some(ps)
      {
        assert children[..i + 1][..i] == children[..i];
        var page := PageNew(children[i], viewNew);
        if page.None? {
          NewChildrenFails(children, i + 1, id, viewNew);
          return None;
        }
        ps := ps + [page.value];
      }
      assert children[..|children|] == children;
      return Some(ps);
    }

    /** `pageNew(values)`: the values get the page key, the application builds the view, and its parent becomes this page. */
    method PageNew(child: Value, viewNew: ViewNew) returns (page: Option<Page>)
      ensures page == NewChild(child, id, viewNew)
    {
      var values := PageValues(child);
      if values.None? {
        return None;   // a primitive cannot take the property `key`
      }
      var view := viewNew(values.value);
      return Some(view.(parent := Some(id)));
    }

    /** The `forEach` over the data collections' values, pushing `dataCollectionNew(data)`. */
    method BuildCollections(items: seq<Value>, collectionNew: CollectionNew) returns (built: seq<Value>)
      ensures built == NewCollections(items, collectionNew)
    {
      built := [];
      for i := 0 to |items|
        invariant |built| == i
        invariant forall j :: 0 <= j < i ==> built[j] == collectionNew(Or(items[j], Obj(map[])))
      {
        built := built + [collectionNew(Or(items[i], Obj(map[])))];
      }
    }

    /**
     * `toObj()`: the base class's object (given as baseObj) with the name,
     * the label default, one object per sub-page and one per data
     * collection. A page whose data collections were never assigned throws.
     */
    method ToObj(baseObj: map<string, Value>, pageToObj: Page -> Value, collectionToObj: Value -> Value) returns (obj: Option<map<string, Value>>)
      ensures obj == PageToObj(State(), baseObj, pageToObj, collectionToObj)
    {
      var o := baseObj["name" := name];
      if UnsetLabel(caption) {
        o := o["label" := o["name"]];
      }
      var children := pages;
      var ps: seq<Value> := [];
      for i := 0 to |children|
        invariant |ps| == i
        invariant forall j :: 0 <= j < i ==> ps[j] == pageToObj(children[j])
      {
        ps := ps + [pageToObj(children[i])];
      }
      assert ps == ObjectsOf(children, pageToObj);
      o := o["pages" := Arr(ps)];
      if dataCollections.None? {
        return None;   // `undefined.forEach`
      }
      var items := dataCollections.value;
      var ds: seq<Value> := [];
      for i := 0 to |items|
        invariant |ds| == i
        invariant forall j :: 0 <= j < i ==> ds[j] == collectionToObj(items[j])
      {
        ds := ds + [collectionToObj(items[i])];
      }
      assert ds == ObjectsOf(items, collectionToObj);
      return Some(o["dataCollections" := Arr(ds)]);
    }

    /** `pages(filter, deep)` */
    method Pages(filter: Option<PageFilter>, deep: bool) returns (result: seq<Page>)
      ensures result == PagesSpec(AsPage(), filter, deep)
    {
      result := SearchPages(AsPage(), filter, deep);
    }

    /** `dataCollections(filter)` */
    function DataCollectionsOf(filter: Option<Value -> bool>): (r: seq<Value>)
      reads this
      ensures r == DataCollections(dataCollections, filter)
    {
      if dataCollections.None? then [] else Filter(dataCollections.value, OrAll(filter))
    }
  }
}
