/** The documentation site's plugin catalogue queries (docs/lib/plugins.ts): lookup by
    slug, the official plugins and the case-insensitive search. */
module PluginsCatalog {
  import opened Strings
  import opened Opt

  /** A catalogue entry, with the fields the queries read. */
  datatype Plugin = Plugin(id: nat, name: string, slug: string, description: string, isOfficial: bool)

  /** `catalogue.find(p => p.slug === slug)`: the index of the first entry with that slug. */
  function FindSlug(catalogue: seq<Plugin>, slug: string): (r: Option<nat>)
    ensures r.None? <==> forall k :: 0 <= k < |catalogue| ==> catalogue[k].slug != slug
    ensures r.Some? ==> r.value < |catalogue| && catalogue[r.value].slug == slug &&
                        forall k :: 0 <= k < r.value ==> catalogue[k].slug != slug
  {
    if |catalogue| == 0 then None
    else if catalogue[0].slug == slug then Some(0)
    else
      var r := FindSlug(catalogue[1..], slug);
      if r.None? then None else Some(r.value + 1)
  }

  /** `getPluginBySlug(slug)`: the first plugin with exactly that slug, or null. */
  function GetPluginBySlug(catalogue: seq<Plugin>, slug: string): (r: Option<Plugin>)
    ensures r.None? <==> forall p :: p in catalogue ==> p.slug != slug
    ensures r.Some? ==> r.value in catalogue && r.value.slug == slug
  {
    var k := FindSlug(catalogue, slug);
    if k.None? then None else Some(catalogue[k.value])
  }

  /** The two filters of the catalogue. */
  datatype Query = Official | Search(term: string)

  /** `name` or `description` contains the term, both lower-cased. */
  predicate Hit(q: Query, p: Plugin)
  {
    match q
    case Official => p.isOfficial
    case Search(term) =>
      Includes(ToLower(p.name), ToLower(term)) || Includes(ToLower(p.description), ToLower(term))
  }

  /** `catalogue.filter(...)`. */
  function Filter(q: Query, catalogue: seq<Plugin>): (r: seq<Plugin>)
    ensures forall p :: p in r <==> p in catalogue && Hit(q, p)
  {
    if |catalogue| == 0 then []
    else
      var rest := Filter(q, catalogue[1..]);
      assert forall p :: p in catalogue <==> p == catalogue[0] || p in catalogue[1..];
      if Hit(q, catalogue[0]) then [catalogue[0]] + rest else rest
  }

  /** `r` is `s` with some entries left out, the rest in their order. */
  predicate Subsequence(r: seq<Plugin>, s: seq<Plugin>)
    decreases |s|
  {
    |r| == 0 || (|s| > 0 && if r[0] == s[0] then Subsequence(r[1..], s[1..]) else Subsequence(r, s[1..]))
  }

  lemma {:induction false} FilterIsSubsequence(q: Query, catalogue: seq<Plugin>)
    ensures Subsequence(Filter(q, catalogue), catalogue)
  {
    if |catalogue| > 0 {
      FilterIsSubsequence(q, catalogue[1..]);
    }
  }

  /** `getOfficialPlugins()`: exactly the official entries, in catalogue order. */
  function GetOfficialPlugins(catalogue: seq<Plugin>): (r: seq<Plugin>)
    ensures forall p :: p in r <==> p in catalogue && p.isOfficial
  {
    Filter(Official, catalogue)
  }

  /** `searchPlugins(term)`: the entries whose name or description contains the term,
      ignoring case, in catalogue order. */
  function SearchPlugins(catalogue: seq<Plugin>, term: string): (r: seq<Plugin>)
    ensures forall p :: p in r <==>
              (p in catalogue && (Contains(ToLower(p.name), ToLower(term)) || Contains(ToLower(p.description), ToLower(term))))
  {
    Filter(Search(term), catalogue)
  }

  /** Both queries keep catalogue order. */
  lemma QueriesKeepOrder(catalogue: seq<Plugin>, term: string)
    ensures Subsequence(GetOfficialPlugins(catalogue), catalogue)
    ensures Subsequence(SearchPlugins(catalogue, term), catalogue)
  {
    FilterIsSubsequence(Official, catalogue);
    FilterIsSubsequence(Search(term), catalogue);
  }

  /** Searching for the empty term lists the whole catalogue. */
  lemma {:induction false} EmptySearchListsAll(catalogue: seq<Plugin>)
    ensures SearchPlugins(catalogue, "") == catalogue
  {
    if |catalogue| > 0 {
      EmptySearchListsAll(catalogue[1..]);
      assert OccursAt(ToLower(catalogue[0].name), "", 0);
    }
  }

  /** The search ignores the case of the term. */
  lemma SearchIgnoresTermCase(catalogue: seq<Plugin>, term: string, term': string)
    requires ToLower(term) == ToLower(term')
    ensures SearchPlugins(catalogue, term) == SearchPlugins(catalogue, term')
  {
    assert forall p :: Hit(Search(term), p) == Hit(Search(term'), p);
    FilterSameHits(Search(term), Search(term'), catalogue);
  }

  lemma {:induction false} FilterSameHits(q: Query, q': Query, catalogue: seq<Plugin>)
    requires forall p :: Hit(q, p) == Hit(q', p)
    ensures Filter(q, catalogue) == Filter(q', catalogue)
  {
    if |catalogue| > 0 {
      FilterSameHits(q, q', catalogue[1..]);
    }
  }
}
