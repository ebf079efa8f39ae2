/** The provider-search page: three criteria taken from the URL or typed in,
    a search that runs only when all three are filled, and the choice of
    which result panel is on screen. */
module ProviderSearch {
  import opened Options
  import opened Text
  import ProviderCard

  datatype Criteria = Criteria(city: string, state: string, providerType: string)

  /** How `searchProviders` ends: an answer whose `providers` field may be
      missing, or a failure. */
  datatype SearchResult = Found(providers: Option<seq<ProviderCard.Provider>>) | SearchFailed

  /** `searchParams.get(key) || ''`. */
  function Param(params: map<string, string>, key: string): (r: string)
    ensures key !in params ==> r == ""
    ensures key in params ==> r == params[key]
  {
    if key in params then params[key] else ""
  }

  /** The criteria the page opens with. */
  function InitialCriteria(params: map<string, string>): Criteria {
    Criteria(Param(params, "city"), Param(params, "state"), Param(params, "provider_type"))
  }

  /** A search runs only with all three criteria non-empty. */
  predicate Searchable(c: Criteria) {
    c.city != "" && c.state != "" && c.providerType != ""
  }

  /** The mount effect searches iff all three URL parameters are present and
      non-empty. */
  predicate AutoSearch(params: map<string, string>) {
    && "city" in params && params["city"] != ""
    && "state" in params && params["state"] != ""
    && "provider_type" in params && params["provider_type"] != ""
  }

  /** The URL decides the mount-time search exactly as the criteria it fills
      in would decide a submitted one. */
  lemma AutoSearchIffSearchable(params: map<string, string>)
    ensures AutoSearch(params) <==> Searchable(InitialCriteria(params))
  {
  }

  /** The results heading: the count, then "provider" with an "s" unless
      there is exactly one. */
  function Heading(n: nat): (r: string)
    ensures |r| == |NatToString(n)| + if n == 1 then 15 else 16
    ensures r[..|NatToString(n)|] == NatToString(n)
    ensures r[|NatToString(n)|..] == if n == 1 then " provider found" else " providers found"
  {
    NatToString(n) + " provider" + (if n != 1 then "s" else "") + " found"
  }

  datatype Panel = Spinner | NoProviders | Results | Intro

  /** The panels on screen for a given state. */
  function Panels(loading: bool, searched: bool, count: nat): set<Panel> {
    (if loading then {Spinner} else {})
    + (if !loading && searched && count == 0 then {NoProviders} else {})
    + (if !loading && count > 0 then {Results} else {})
    + (if !searched then {Intro} else {})
  }

  /** In every state the page can reach (loading and results only after a
      search started) exactly one panel is on screen. */
  lemma ExactlyOnePanel(loading: bool, searched: bool, count: nat)
    requires loading ==> searched
    requires count > 0 ==> searched
    ensures |Panels(loading, searched, count)| == 1
    ensures Spinner in Panels(loading, searched, count) <==> loading
    ensures Intro in Panels(loading, searched, count) <==> !searched
  {
    var ps := Panels(loading, searched, count);
    if loading {
      assert ps == {Spinner};
    } else if !searched {
      assert ps == {Intro};
    } else if count == 0 {
      assert ps == {NoProviders};
    } else {
      assert ps == {Results};
    }
  }

  class SearchPage {
    var city: string
    var state: string
    var providerType: string
    var providers: seq<ProviderCard.Provider>
    var loading: bool
    var searched: bool
    /** Every `searchProviders` call, oldest first. */
    var calls: seq<Criteria>

    ghost predicate Valid()
      reads this
    {
      && (loading ==> searched)
      && (providers != [] ==> searched)
      && (searched <==> calls != [])
    }

    function Current(): Criteria
      reads this
    {
      Criteria(city, state, providerType)
    }

    /** The panels on screen. */
    function VisiblePanels(): set<Panel>
      reads this
    {
      Panels(loading, searched, |providers|)
    }

    /** Mounting: the criteria come from the URL, and the search starts at
        once iff all three parameters are present. */
    constructor (params: map<string, string>)
      ensures Valid()
      ensures Current() == InitialCriteria(params)
      ensures providers == []
      ensures loading == searched == AutoSearch(params)
      ensures calls == if AutoSearch(params) then [InitialCriteria(params)] else []
    {
      city := Param(params, "city");
      state := Param(params, "state");
      providerType := Param(params, "provider_type");
      providers := [];
      loading := false;
      searched := false;
      calls := [];
      new;
      var _ := Search();
    }

    method EditCity(v: string)
      requires Valid()
      modifies this
      ensures Valid()
      ensures Current() == old(Current()).(city := v)
      ensures providers == old(providers) && loading == old(loading) && searched == old(searched) && calls == old(calls)
    {
      city := v;
    }

    method EditState(v: string)
      requires Valid()
      modifies this
      ensures Valid()
      ensures Current() == old(Current()).(state := v)
      ensures providers == old(providers) && loading == old(loading) && searched == old(searched) && calls == old(calls)
    {
      state := v;
    }

    method EditProviderType(v: string)
      requires Valid()
      modifies this
      ensures Valid()
      ensures Current() == old(Current()).(providerType := v)
      ensures providers == old(providers) && loading == old(loading) && searched == old(searched) && calls == old(calls)
    {
      providerType := v;
    }

    /** `handleSearch` up to the call, while the submit button is enabled: a
        no-op unless all criteria are filled; otherwise loading and searched
        are set and the current criteria are sent. */
    method Search() returns (started: bool)
      requires Valid() && !loading
      modifies this
      ensures Valid()
      ensures started <==> Searchable(old(Current()))
      ensures started ==> loading && searched && calls == old(calls) + [old(Current())]
      ensures !started ==> loading == old(loading) && searched == old(searched) && calls == old(calls)
      ensures Current() == old(Current()) && providers == old(providers)
    {
      if city == "" || state == "" || providerType == "" {
        return false;
      }
      loading := true;
      searched := true;
      calls := calls + [Criteria(city, state, providerType)];
      started := true;
    }

    /** The end of `handleSearch`: an answer replaces the list (a missing
        list reads as empty), a failure keeps it; loading stops either way. */
    method SearchFinished(result: SearchResult)
      requires Valid() && loading
      modifies this
      ensures Valid()
      ensures !loading && searched
      ensures result.Found? ==> providers == result.providers.GetOr([])
      ensures result.SearchFailed? ==> providers == old(providers)
      ensures Current() == old(Current()) && calls == old(calls)
    {
      if result.Found? {
        providers := result.providers.GetOr([]);
      }
      loading := false;
    }
  }

  /** A mount-time search that fails leaves "No providers found" on screen;
      without one the page shows its introduction. */
  method OnePanelAfterFailedSearch(params: map<string, string>)
  {
    var page := new SearchPage(params);
    if page.loading {
      page.SearchFinished(SearchFailed);
      assert page.VisiblePanels() == {NoProviders};
    } else {
      assert page.VisiblePanels() == {Intro};
    }
  }
}
