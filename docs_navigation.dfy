/** The documentation site's navigation lookup (docs/lib/docs-navigation.ts): which
    category, item and sub-item of the navigation tree a page path belongs to. */
module DocsNavigation {
  import opened Strings
  import opened Opt

  /** A link of the tree; `items` are its sub-links, when it has any. */
  datatype DocLink = DocLink(title: string, href: string, items: Option<seq<DocLink>>)

  datatype DocCategory = DocCategory(title: string, items: seq<DocLink>)

  /** The lookup's answer; `None` is `null`. */
  datatype ActiveItem = ActiveItem(activeCategory: Option<string>, activeItem: Option<string>,
                                   activeSubItem: Option<string>)

  const NoneActive: ActiveItem := ActiveItem(None, None, None)

  /** The two passes of the lookup. */
  datatype Pass = Exact | Prefix

  /** Whether `href` matches `pathname` in a pass: equality, or a prefix other than
      "/docs". */
  predicate Matches(pass: Pass, pathname: string, href: string)
  {
    match pass
    case Exact => href == pathname
    case Prefix => StartsWith(pathname, href) && href != "/docs"
  }

  // ---------------------------------------------------------------------------
  // The nested scan, as the loops run it

  function ScanSubs(pass: Pass, pathname: string, category: string, item: string, subs: seq<DocLink>): Option<ActiveItem>
  {
    if |subs| == 0 then None
    else if Matches(pass, pathname, subs[0].href) then Some(ActiveItem(Some(category), Some(item), Some(subs[0].title)))
    else ScanSubs(pass, pathname, category, item, subs[1..])
  }

  /** An item is checked before its sub-items; the first hit returns. */
  function ScanItems(pass: Pass, pathname: string, category: string, items: seq<DocLink>): Option<ActiveItem>
  {
    if |items| == 0 then None
    else if Matches(pass, pathname, items[0].href) then Some(ActiveItem(Some(category), Some(items[0].title), None))
    else
      var inSubs := if items[0].items.Some? then ScanSubs(pass, pathname, category, items[0].title, items[0].items.value) else None;
      if inSubs.Some? then inSubs else ScanItems(pass, pathname, category, items[1..])
  }

  function ScanCategories(pass: Pass, pathname: string, nav: seq<DocCategory>): Option<ActiveItem>
  {
    if |nav| == 0 then None
    else
      var hit := ScanItems(pass, pathname, nav[0].title, nav[0].items);
      if hit.Some? then hit else ScanCategories(pass, pathname, nav[1..])
  }

  /** `findActiveItem(pathname)` over the navigation tree: the exact pass over the whole
      tree, then the prefix pass, then all nulls. */
  function FindActiveItem(nav: seq<DocCategory>, pathname: string): (r: ActiveItem)
    ensures r == NoneActive ||
            exists k :: 0 <= k < |Links(nav)| && Links(nav)[k].answer == r &&
                        (Matches(Exact, pathname, Links(nav)[k].href) || Matches(Prefix, pathname, Links(nav)[k].href))
  {
    ScanIsFirstLink(Exact, pathname, nav);
    ScanIsFirstLink(Prefix, pathname, nav);
    FirstAnswerAt(Exact, pathname, Links(nav));
    FirstAnswerAt(Prefix, pathname, Links(nav));
    var exact := ScanCategories(Exact, pathname, nav);
    if exact.Some? then exact.value
    else
      var prefix := ScanCategories(Prefix, pathname, nav);
      if prefix.Some? then prefix.value else NoneActive
  }

  // ---------------------------------------------------------------------------
  // Reference: the links in declared order

  /** One link of the tree with the answer it produces. */
  datatype Entry = Entry(href: string, answer: ActiveItem)

  function SubEntries(category: string, item: string, subs: seq<DocLink>): seq<Entry>
  {
    if |subs| == 0 then []
    else [Entry(subs[0].href, ActiveItem(Some(category), Some(item), Some(subs[0].title)))]
         + SubEntries(category, item, subs[1..])
  }

  function ItemEntries(category: string, items: seq<DocLink>): seq<Entry>
  {
    if |items| == 0 then []
    else
      var it := items[0];
      [Entry(it.href, ActiveItem(Some(category), Some(it.title), None))]
      + (if it.items.Some? then SubEntries(category, it.title, it.items.value) else [])
      + ItemEntries(category, items[1..])
  }

  /** Every link of the tree: categories in order, each item followed by its sub-items. */
  function Links(nav: seq<DocCategory>): seq<Entry>
  {
    if |nav| == 0 then [] else ItemEntries(nav[0].title, nav[0].items) + Links(nav[1..])
  }

  /** The first entry that matches, with the index it sits at. */
  function FirstMatch(pass: Pass, pathname: string, entries: seq<Entry>): (r: Option<nat>)
    ensures r.None? <==> forall k :: 0 <= k < |entries| ==> !Matches(pass, pathname, entries[k].href)
    ensures r.Some? ==> r.value < |entries| && Matches(pass, pathname, entries[r.value].href) &&
                        forall k :: 0 <= k < r.value ==> !Matches(pass, pathname, entries[k].href)
  {
    if |entries| == 0 then None
    else if Matches(pass, pathname, entries[0].href) then Some(0)
    else
      var r := FirstMatch(pass, pathname, entries[1..]);
      if r.None? then None else Some(r.value + 1)
  }

  /** The answer of the first matching entry. */
  function FirstAnswer(pass: Pass, pathname: string, entries: seq<Entry>): Option<ActiveItem>
  {
    if |entries| == 0 then None
    else if Matches(pass, pathname, entries[0].href) then Some(entries[0].answer)
    else FirstAnswer(pass, pathname, entries[1..])
  }

  lemma {:induction false} FirstAnswerAt(pass: Pass, pathname: string, entries: seq<Entry>)
    ensures var r := FirstMatch(pass, pathname, entries);
            FirstAnswer(pass, pathname, entries) == if r.None? then None else Some(entries[r.value].answer)
  {
    if |entries| > 0 && !Matches(pass, pathname, entries[0].href) {
      FirstAnswerAt(pass, pathname, entries[1..]);
    }
  }

  lemma {:induction false} FirstAnswerAppend(pass: Pass, pathname: string, a: seq<Entry>, b: seq<Entry>)
    ensures FirstAnswer(pass, pathname, a + b) ==
            (if FirstAnswer(pass, pathname, a).Some? then FirstAnswer(pass, pathname, a) else FirstAnswer(pass, pathname, b))
  {
    if |a| > 0 {
      FirstAnswerAppend(pass, pathname, a[1..], b);
      assert (a + b)[1..] == a[1..] + b;
    } else {
      assert a + b == b;
    }
  }

  lemma {:induction false} ScanSubsIsFirst(pass: Pass, pathname: string, category: string, item: string, subs: seq<DocLink>)
    ensures ScanSubs(pass, pathname, category, item, subs) == FirstAnswer(pass, pathname, SubEntries(category, item, subs))
  {
    if |subs| > 0 {
      var head := [Entry(subs[0].href, ActiveItem(Some(category), Some(item), Some(subs[0].title)))];
      ScanSubsIsFirst(pass, pathname, category, item, subs[1..]);
      FirstAnswerAppend(pass, pathname, head, SubEntries(category, item, subs[1..]));
    }
  }

  lemma {:induction false} ScanItemsIsFirst(pass: Pass, pathname: string, category: string, items: seq<DocLink>)
    ensures ScanItems(pass, pathname, category, items) == FirstAnswer(pass, pathname, ItemEntries(category, items))
  {
    if |items| > 0 {
      var it := items[0];
      var head := [Entry(it.href, ActiveItem(Some(category), Some(it.title), None))];
      var subs := if it.items.Some? then SubEntries(category, it.title, it.items.value) else [];
      if it.items.Some? {
        ScanSubsIsFirst(pass, pathname, category, it.title, it.items.value);
      }
      ScanItemsIsFirst(pass, pathname, category, items[1..]);
      FirstAnswerAppend(pass, pathname, head + subs, ItemEntries(category, items[1..]));
      FirstAnswerAppend(pass, pathname, head, subs);
    }
  }

  /** Each pass returns the answer of the first matching link in declared order. */
  lemma {:induction false} ScanIsFirstLink(pass: Pass, pathname: string, nav: seq<DocCategory>)
    ensures ScanCategories(pass, pathname, nav) == FirstAnswer(pass, pathname, Links(nav))
  {
    if |nav| > 0 {
      ScanItemsIsFirst(pass, pathname, nav[0].title, nav[0].items);
      ScanIsFirstLink(pass, pathname, nav[1..]);
      FirstAnswerAppend(pass, pathname, ItemEntries(nav[0].title, nav[0].items), Links(nav[1..]));
    }
  }

  // ---------------------------------------------------------------------------
  // Properties of the lookup

  /** An exact link anywhere in the tree wins over every prefix match: the answer is the
      first link whose href equals the path. */
  lemma ExactWins(nav: seq<DocCategory>, pathname: string, k: nat)
    requires k < |Links(nav)| && Links(nav)[k].href == pathname
    ensures var first := FirstMatch(Exact, pathname, Links(nav));
            first.Some? && first.value <= k && Links(nav)[first.value].href == pathname &&
            FindActiveItem(nav, pathname) == Links(nav)[first.value].answer
  {
    ScanIsFirstLink(Exact, pathname, nav);
    FirstAnswerAt(Exact, pathname, Links(nav));
  }

  /** Without an exact link, the answer is that of the first link whose href is a prefix
      of the path and is not "/docs"; with neither, all three are null. */
  lemma PrefixFallback(nav: seq<DocCategory>, pathname: string)
    requires forall k :: 0 <= k < |Links(nav)| ==> Links(nav)[k].href != pathname
    ensures var first := FirstMatch(Prefix, pathname, Links(nav));
            (first.Some? ==> FindActiveItem(nav, pathname) == Links(nav)[first.value].answer &&
                             StartsWith(pathname, Links(nav)[first.value].href) &&
                             Links(nav)[first.value].href != "/docs") &&
            (first.None? ==> FindActiveItem(nav, pathname) == NoneActive)
  {
    ScanIsFirstLink(Exact, pathname, nav);
    ScanIsFirstLink(Prefix, pathname, nav);
    FirstAnswerAt(Exact, pathname, Links(nav));
    FirstAnswerAt(Prefix, pathname, Links(nav));
  }

  /** An item's own link answers with a null sub-item; a sub-item's link names its
      category, its parent item and itself. */
  lemma {:induction false} ItemAnswers(category: string, items: seq<DocLink>, i: nat)
    requires i < |items|
    ensures Entry(items[i].href, ActiveItem(Some(category), Some(items[i].title), None)) in ItemEntries(category, items)
    ensures items[i].items.Some? ==>
              forall s :: 0 <= s < |items[i].items.value| ==>
                Entry(items[i].items.value[s].href, ActiveItem(Some(category), Some(items[i].title), Some(items[i].items.value[s].title)))
                  in ItemEntries(category, items)
  {
    if i > 0 {
      ItemAnswers(category, items[1..], i - 1);
    } else if items[0].items.Some? {
      SubAnswers(category, items[0].title, items[0].items.value);
    }
  }

  lemma {:induction false} SubAnswers(category: string, item: string, subs: seq<DocLink>)
    ensures forall s :: 0 <= s < |subs| ==>
              Entry(subs[s].href, ActiveItem(Some(category), Some(item), Some(subs[s].title))) in SubEntries(category, item, subs)
  {
    if |subs| > 0 {
      SubAnswers(category, item, subs[1..]);
      assert forall s :: 1 <= s < |subs| ==> subs[s] == subs[1..][s - 1];
    }
  }

  /** The "/docs" link never answers a path through the prefix pass. */
  lemma DocsRootNeverPrefix(nav: seq<DocCategory>, pathname: string)
    requires pathname != "/docs"
    ensures forall k :: 0 <= k < |Links(nav)| && Links(nav)[k].href == "/docs" ==>
              FirstMatch(Prefix, pathname, Links(nav)) != Some(k) && FirstMatch(Exact, pathname, Links(nav)) != Some(k)
  {
  }
}
