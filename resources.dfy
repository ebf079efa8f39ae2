/** The resources page: a list of guides loaded once, filtered by an active
    category, each with a category badge, and expandable (one at a time) to
    show its quick facts, tips, key contacts and timeline. */
module Resources {
  import opened Options
  import opened Text

  datatype TimelineItem = TimelineItem(age: string, action: string)

  /** A resource as the resources endpoint returns it; the detail fields are
      optional. */
  datatype Resource = Resource(
    id: string,
    title: string,
    category: string,
    summary: string,
    quickFacts: Option<seq<string>>,
    keyContacts: Option<map<string, string>>,
    tips: Option<seq<string>>,
    timeline: Option<seq<TimelineItem>>)

  datatype Category = Category(id: string, name: string)

  /** The resources whose category is `c`. */
  function WithCategory(rs: seq<Resource>, c: string): (r: seq<Resource>)
    ensures |r| <= |rs|
    ensures forall i :: 0 <= i < |r| ==> r[i].category == c
    ensures forall x :: x in rs && x.category == c ==> x in r
    ensures forall x :: x in r ==> x in rs
    decreases |rs|
  {
    if rs == [] then []
    else (if rs[0].category == c then [rs[0]] else []) + WithCategory(rs[1..], c)
  }

  /** Filtering distributes over concatenation: the kept resources appear in
      their original order. */
  lemma {:induction false} WithCategoryConcat(a: seq<Resource>, b: seq<Resource>, c: string)
    ensures WithCategory(a + b, c) == WithCategory(a, c) + WithCategory(b, c)
    decreases |a|
  {
    if a == [] {
      assert a + b == b;
    } else {
      assert (a + b)[0] == a[0];
      assert (a + b)[1..] == a[1..] + b;
      WithCategoryConcat(a[1..], b, c);
    }
  }

  /** `filteredResources`: with no active category (null or the empty string,
      both falsy) every resource, otherwise exactly those of that category. */
  function Visible(rs: seq<Resource>, active: Option<string>): (r: seq<Resource>)
    ensures active.None? || active.value == "" ==> r == rs
    ensures active.Some? && active.value != "" ==>
      (forall x :: x in r <==> x in rs && x.category == active.value)
    ensures active.Some? && active.value != "" ==> r == WithCategory(rs, active.value)
  {
    if active.None? || active.value == "" then rs else WithCategory(rs, active.value)
  }

  /** The badge style of each known category. */
  const Styles: map<string, string> := map[
    "regional_center" := "badge-rc",
    "iep" := "badge-school",
    "aba" := "badge-therapy",
    "speech" := "badge-therapy",
    "ot" := "badge-therapy",
    "insurance" := "badge-insurance",
    "advocacy" := "badge-life",
    "support" := "badge-life"]

  /** `getCategoryStyle`: the style of a known category, "badge-rc" for any
      other; stated per style, as the set of categories that receive it. */
  function CategoryStyle(category: string): (r: string)
    ensures r == "badge-school" <==> category == "iep"
    ensures r == "badge-therapy" <==> category in {"aba", "speech", "ot"}
    ensures r == "badge-insurance" <==> category == "insurance"
    ensures r == "badge-life" <==> category in {"advocacy", "support"}
    ensures r == "badge-rc" <==> category !in {"iep", "aba", "speech", "ot", "insurance", "advocacy", "support"}
  {
    if category in Styles then Styles[category] else "badge-rc"
  }

  /** The badge text: every underscore of the category becomes a space. */
  function CategoryLabel(category: string): (r: string)
    ensures r == ReplaceChar(category, '_', ' ')
    ensures |r| == |category|
    ensures forall i :: 0 <= i < |r| ==> r[i] != '_'
    ensures forall i :: 0 <= i < |r| && category[i] == '_' ==> r[i] == ' '
    ensures forall i :: 0 <= i < |r| && category[i] != '_' ==> r[i] == category[i]
  {
    ReplaceChar(category, '_', ' ')
  }

  /** The link of a key contact: a URL as it is, a phone number (first
      character a digit) as `tel:` with its digits only, anything else made
      an https URL. */
  function ContactHref(contact: string): (r: string)
    ensures StartsWith(r, "http") || StartsWith(r, "tel:")
    ensures StartsWith(r, "tel:") ==> forall i :: 4 <= i < |r| ==> IsDigit(r[i])
    ensures r == if contact != [] && IsDigit(contact[0]) then "tel:" + DigitsOnly(contact) else NormalizeUrl(contact)
  {
    if StartsWith(contact, "http") then contact
    else if contact != [] && IsDigit(contact[0]) then "tel:" + DigitsOnly(contact)
    else "https://" + contact
  }

  /** A click on resource `id` expands it, or collapses it when it is the
      expanded one. */
  function Toggle(expanded: Option<string>, id: string): (r: Option<string>)
    ensures r == Some(id) <==> expanded != Some(id)
    ensures r == None || r == Some(id)
  {
    if expanded == Some(id) then None else Some(id)
  }

  datatype Section = QuickFacts | Tips | KeyContacts | Timeline

  /** A section's position on the page, top to bottom. */
  function Rank(s: Section): nat {
    match s
    case QuickFacts => 0
    case Tips => 1
    case KeyContacts => 2
    case Timeline => 3
  }

  /** Sections listed top to bottom, each at most once. */
  predicate InPageOrder(secs: seq<Section>) {
    forall i, j :: 0 <= i < j < |secs| ==> Rank(secs[i]) < Rank(secs[j])
  }

  /** Section `s`, if shown, above sections that all come later on the page. */
  function ShowAbove(show: bool, s: Section, below: seq<Section>): (r: seq<Section>)
    requires InPageOrder(below) && forall x :: x in below ==> Rank(s) < Rank(x)
    ensures InPageOrder(r)
    ensures forall x :: x in r ==> Rank(s) <= Rank(x)
    ensures forall x :: x in r <==> (show && x == s) || x in below
  {
    if show then [s] + below else below
  }

  /** The sections of an expanded resource, in page order: each one only
      when its field is present and non-empty. */
  function DetailSections(r: Resource): (secs: seq<Section>)
    ensures QuickFacts in secs <==> r.quickFacts.Some? && |r.quickFacts.value| > 0
    ensures Tips in secs <==> r.tips.Some? && |r.tips.value| > 0
    ensures KeyContacts in secs <==> r.keyContacts.Some? && |r.keyContacts.value| > 0
    ensures Timeline in secs <==> r.timeline.Some? && |r.timeline.value| > 0
    ensures InPageOrder(secs)
  {
    ShowAbove(r.quickFacts.Some? && |r.quickFacts.value| > 0, QuickFacts,
      ShowAbove(r.tips.Some? && |r.tips.value| > 0, Tips,
        ShowAbove(r.keyContacts.Some? && |r.keyContacts.value| > 0, KeyContacts,
          ShowAbove(r.timeline.Some? && |r.timeline.value| > 0, Timeline, []))))
  }

  /** How the two parallel loads end: both lists, or a failure of either. */
  datatype LoadOutcome = Loaded(resources: seq<Resource>, categories: seq<Category>) | LoadFailed

  class ResourcesPage {
    var resources: seq<Resource>
    var categories: seq<Category>
    var activeCategory: Option<string>
    var loading: bool
    var expanded: Option<string>

    /** The lists stay empty until the first load has finished. */
    ghost predicate Valid()
      reads this
    {
      loading ==> resources == [] && categories == []
    }

    constructor ()
      ensures Valid()
      ensures resources == [] && categories == [] && activeCategory == None
      ensures loading && expanded == None
    {
      resources := [];
      categories := [];
      activeCategory := None;
      loading := true;
      expanded := None;
    }

    /** The resources on screen. */
    function Shown(): seq<Resource>
      reads this
    {
      Visible(resources, activeCategory)
    }

    /** `loadData` completes: both lists are stored only if both loads
        succeeded; loading stops either way. */
    method LoadFinished(outcome: LoadOutcome)
      requires Valid() && loading
      modifies this
      ensures Valid() && !loading
      ensures outcome.Loaded? ==> resources == outcome.resources && categories == outcome.categories
      ensures outcome.LoadFailed? ==> resources == [] && categories == []
      ensures activeCategory == old(activeCategory) && expanded == old(expanded)
    {
      if outcome.Loaded? {
        resources := outcome.resources;
        categories := outcome.categories;
      }
      loading := false;
    }

    /** A category chip (or "All", as `None`) becomes the filter. */
    method SelectCategory(c: Option<string>)
      requires Valid()
      modifies this
      ensures Valid()
      ensures activeCategory == c
      ensures resources == old(resources) && categories == old(categories)
      ensures loading == old(loading) && expanded == old(expanded)
    {
      activeCategory := c;
    }

    /** A click on a resource card toggles it; at most one is expanded. */
    method ClickResource(id: string)
      requires Valid()
      modifies this
      ensures Valid()
      ensures expanded == Toggle(old(expanded), id)
      ensures expanded == Some(id) <==> old(expanded) != Some(id)
      ensures resources == old(resources) && categories == old(categories)
      ensures loading == old(loading) && activeCategory == old(activeCategory)
    {
      expanded := Toggle(expanded, id);
    }
  }

  /** A failed first load leaves both lists empty and the page out of its
      loading state. */
  method FailedLoadShowsEmptyPage()
  {
    var page := new ResourcesPage();
    page.LoadFinished(LoadFailed);
    assert page.resources == [] && page.categories == [] && !page.loading;
    assert page.Shown() == [];
  }
}
