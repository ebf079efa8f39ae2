/** The city autocomplete `LocationInput`: a controlled text field that
    debounces keystrokes, fetches suggestions from the location endpoint,
    cancels superseded fetches with an abort signal, and drives a keyboard-
    and pointer-navigable list whose selection is reported to the host.

    Every event handler of the component is one method of `LocationInput`;
    time is abstract (the 150 ms timer is a pending slot that `TimerFires`
    empties) and every fetch is an entry of `requests` that `Complete`
    settles with an opaque outcome. */
module Autocomplete {
  import opened Options
  import opened Text

  /** A row of the location endpoint's answer. */
  datatype Suggestion = Suggestion(city: string, state: string, stateName: string, population: nat, zip: Option<string>)

  /** The committed choice handed to the host. */
  datatype SelectedLocation = SelectedLocation(city: string, state: string, stateName: string, display: string)

  /** How a fetch ends: a list from a 2xx answer, a non-ok status, or a
      transport failure. */
  datatype Outcome = Ok(data: seq<Suggestion>) | HttpError(status: int) | NetworkError

  datatype Key = ArrowDown | ArrowUp | Enter | Escape | OtherKey

  /** One issued fetch: the query and limit it sent, whether its abort
      controller has been aborted, and whether it has completed. */
  datatype Request = Request(query: string, limit: nat, aborted: bool, settled: bool)

  /** Shortest query that is searched at all, in UTF-16 code units. */
  const MinQueryLength: nat := 2
  /** The `limit` parameter of every autocomplete fetch. */
  const ResultLimit: nat := 8

  /** `${city}, ${state}`: the text shown for a committed location. */
  function DisplayLabel(city: string, state: string): (r: string)
    ensures |r| == |city| + 2 + |state|
    ensures r[..|city|] == city && r[|city|..|city| + 2] == ", " && r[|city| + 2..] == state
  {
    city + ", " + state
  }

  /** The `SelectedLocation` built from a suggestion by `handleSelect`. */
  function Selection(s: Suggestion): (r: SelectedLocation)
    ensures r.city == s.city && r.state == s.state && r.stateName == s.stateName
    ensures r.display == DisplayLabel(s.city, s.state)
  {
    SelectedLocation(s.city, s.state, s.stateName, DisplayLabel(s.city, s.state))
  }

  /** `value?.display`: absent when there is no value. */
  function DisplayOf(v: Option<SelectedLocation>): Option<string> {
    if v.Some? then Some(v.value.display) else None
  }

  function Min(a: int, b: int): int { if a <= b then a else b }
  function Max(a: int, b: int): int { if a <= b then b else a }

  /** ArrowDown on a list of `len` entries: one step down, holding at the last
      entry instead of wrapping. */
  function ArrowDownIndex(prev: int, len: nat): (r: int)
    ensures r >= prev
    ensures -1 <= prev < len ==> r == Min(prev + 1, len - 1)
  {
    if prev < len - 1 then prev + 1 else prev
  }

  /** ArrowUp: one step up while above the first entry; the first entry and
      "no highlight" (-1) are left as they are. */
  function ArrowUpIndex(prev: int): (r: int)
    ensures r <= prev
    ensures prev >= 0 ==> r == Max(prev - 1, 0)
    ensures r == prev <==> prev <= 0
  {
    if prev > 0 then prev - 1 else prev
  }

  /** The highlight after one key on an open, non-empty list of `len` entries;
      keys other than the arrows do not move it. */
  function NextHighlight(key: Key, prev: int, len: nat): int {
    match key
    case ArrowDown => ArrowDownIndex(prev, len)
    case ArrowUp => ArrowUpIndex(prev)
    case _ => prev
  }

  /** The highlight after a whole sequence of keys on a list that stays open. */
  function Navigate(keys: seq<Key>, start: int, len: nat): int
    decreases |keys|
  {
    if keys == [] then start else Navigate(keys[1..], NextHighlight(keys[0], start, len), len)
  }

  /** Whatever keys are pressed, a highlight that starts in [-1, len-1] stays
      there. */
  lemma {:induction false} NavigateStaysInRange(keys: seq<Key>, start: int, len: nat)
    requires -1 <= start < len
    ensures -1 <= Navigate(keys, start, len) < len
    decreases |keys|
  {
    if keys != [] {
      NavigateStaysInRange(keys[1..], NextHighlight(keys[0], start, len), len);
    }
  }

  function Repeat(key: Key, n: nat): (r: seq<Key>)
    ensures |r| == n && forall i :: 0 <= i < n ==> r[i] == key
  {
    if n == 0 then [] else [key] + Repeat(key, n - 1)
  }

  /** `n` presses of ArrowDown move the highlight `n` places down, but never
      past the last entry. */
  lemma {:induction false} ArrowDownHoldsAtEnd(n: nat, start: int, len: nat)
    requires -1 <= start < len
    ensures Navigate(Repeat(ArrowDown, n), start, len) == Min(start + n, len - 1)
    decreases n
  {
    if n > 0 {
      var keys := Repeat(ArrowDown, n);
      assert keys[1..] == Repeat(ArrowDown, n - 1);
      ArrowDownHoldsAtEnd(n - 1, ArrowDownIndex(start, len), len);
    }
  }

  /** `n` presses of ArrowUp move a highlight at `start >= 0` up to the first
      entry and no further, and never create a highlight where there was none. */
  lemma {:induction false} ArrowUpHoldsAtTop(n: nat, start: int, len: nat)
    requires -1 <= start < len
    ensures Navigate(Repeat(ArrowUp, n), start, len) == if start == -1 then -1 else Max(start - n, 0)
    decreases n
  {
    if n > 0 {
      var keys := Repeat(ArrowUp, n);
      assert keys[1..] == Repeat(ArrowUp, n - 1);
      ArrowUpHoldsAtTop(n - 1, ArrowUpIndex(start), len);
    }
  }

  /** Aborting the current controller (`abortControllerRef.current.abort()`):
      the newest request, if there is one, is marked aborted. */
  function AbortLatest(rs: seq<Request>): (r: seq<Request>)
    ensures |r| == |rs|
    ensures forall i :: 0 <= i < |rs| ==> r[i] == rs[i].(aborted := rs[i].aborted || i == |rs| - 1)
    ensures forall i :: 0 <= i < |rs| ==> r[i].query == rs[i].query && r[i].limit == rs[i].limit
  {
    if rs == [] then rs else rs[..|rs| - 1] + [rs[|rs| - 1].(aborted := true)]
  }

  /** The fetch log as the component can leave it: every fetch was for a
      query of at least two UTF-16 code units with limit 8, and every fetch
      but the newest has been aborted. */
  ghost predicate WellFormedLog(rs: seq<Request>) {
    forall i :: 0 <= i < |rs| ==>
      && JsLength(rs[i].query) >= MinQueryLength
      && rs[i].limit == ResultLimit
      && (i < |rs| - 1 ==> rs[i].aborted)
  }

  /** No fetch of the log can still apply its answer. */
  ghost predicate AllAborted(rs: seq<Request>) {
    forall i :: 0 <= i < |rs| ==> rs[i].aborted
  }

  /** Aborting the current controller keeps the log well formed and leaves
      no fetch that can still apply. */
  lemma AbortLatestQuiets(rs: seq<Request>)
    requires WellFormedLog(rs)
    ensures WellFormedLog(AbortLatest(rs)) && AllAborted(AbortLatest(rs))
  {
  }

  /** Request `id` marked as completed; every query, limit and abort flag
      is kept. */
  function Settle(rs: seq<Request>, id: nat): (r: seq<Request>)
    requires id < |rs|
    ensures r == rs[id := rs[id].(settled := true)]
    ensures |r| == |rs|
    ensures forall i :: 0 <= i < |rs| ==>
      r[i].query == rs[i].query && r[i].limit == rs[i].limit && r[i].aborted == rs[i].aborted
    ensures WellFormedLog(rs) ==> WellFormedLog(r)
    ensures AllAborted(rs) ==> AllAborted(r)
  {
    rs[id := rs[id].(settled := true)]
  }

  /** The component's whole state, as one value, so that each handler can say
      exactly what it changes. */
  datatype Fields = Fields(
    query: string,
    suggestions: seq<Suggestion>,
    isOpen: bool,
    isLoading: bool,
    highlightedIndex: int,
    pending: Option<string>,
    requests: seq<Request>,
    value: Option<SelectedLocation>,
    notifications: seq<Option<SelectedLocation>>,
    mounted: bool)

  /** The effect of `searchLocations(q)` on a state: the timer is dropped and
      the current fetch aborted; a query under two UTF-16 code units empties
      and closes the list and stops loading, a longer one shows loading and
      becomes the pending timer's query. */
  function AfterSearch(f: Fields, q: string): Fields {
    if JsLength(q) < MinQueryLength then
      f.(pending := None, requests := AbortLatest(f.requests),
         suggestions := [], isOpen := false, isLoading := false)
    else
      f.(pending := Some(q), requests := AbortLatest(f.requests), isLoading := true)
  }

  class LocationInput {
    /** The text in the input. */
    var query: string
    var suggestions: seq<Suggestion>
    var isOpen: bool
    var isLoading: bool
    var highlightedIndex: int
    /** The debounce timer, if one is pending, with the query it will fetch. */
    var pending: Option<string>
    /** Every fetch issued, oldest first; the last is the current abort controller's. */
    var requests: seq<Request>
    /** The host-owned `value` prop. */
    var value: Option<SelectedLocation>
    /** Every `onChange` call, oldest first. */
    var notifications: seq<Option<SelectedLocation>>
    var mounted: bool

    ghost function State(): Fields
      reads this
    {
      Fields(query, suggestions, isOpen, isLoading, highlightedIndex, pending, requests, value, notifications, mounted)
    }

    /** What holds between any two events. */
    ghost predicate Valid()
      reads this
    {
      // the highlight is "none" or, while there is a list, an entry of it
      && highlightedIndex >= -1
      && (suggestions != [] ==> highlightedIndex < |suggestions|)
      // the list is only open with something in it
      && (isOpen ==> suggestions != [])
      // short queries never reach the timer or the network
      && (pending.Some? ==> JsLength(pending.value) >= MinQueryLength)
      && WellFormedLog(requests)
      // a pending timer was scheduled after the current fetch was aborted
      && (pending.Some? ==> AllAborted(requests))
      // after unmount nothing is pending and nothing can still apply
      && (!mounted ==> pending == None && AllAborted(requests))
    }

    /** The suggestion list is on screen. */
    predicate ListVisible()
      reads this
    {
      isOpen && |suggestions| > 0
    }

    /** Mounting with the host's current value: the text starts as its display
        label, or empty. */
    constructor (initial: Option<SelectedLocation>)
      ensures Valid()
      ensures query == (if initial.Some? && initial.value.display != "" then initial.value.display else "")
      ensures suggestions == [] && !isOpen && !isLoading && highlightedIndex == -1
      ensures pending == None && requests == [] && value == initial && notifications == [] && mounted
    {
      query := if initial.Some? && initial.value.display != "" then initial.value.display else "";
      suggestions := [];
      isOpen := false;
      isLoading := false;
      highlightedIndex := -1;
      pending := None;
      requests := [];
      value := initial;
      notifications := [];
      mounted := true;
    }

    /** `searchLocations(q)`: drop the pending timer and abort the current
        fetch; a query under two UTF-16 code units clears and closes the list and
        stops loading, a longer one shows loading and schedules a timer. */
    method Search(q: string)
      requires Valid() && mounted
      modifies this
      ensures Valid()
      ensures State() == AfterSearch(old(State()), q)
    {
      AbortLatestQuiets(requests);
      requests := AbortLatest(requests);
      if JsLength(q) < MinQueryLength {
        pending := None;
        suggestions := [];
        isOpen := false;
        isLoading := false;
      } else {
        pending := Some(q);
        isLoading := true;
      }
    }

    /** `handleInputChange`: the text becomes `text`; if it no longer matches
        the committed value, the host is told the value is gone (before the
        search starts); then the text is searched. */
    method Type(text: string)
      requires Valid() && mounted
      modifies this
      ensures Valid()
      ensures notifications == old(notifications) +
        (if old(value).Some? && text != old(value).value.display then [None] else [])
      ensures State() == AfterSearch(old(State()).(query := text, notifications := notifications), text)
    {
      query := text;
      notifications := notifications + (if value.Some? && text != value.value.display then [None] else []);
      Search(text);
    }

    /** The debounce timer fires: a fetch for its query is issued with a
        fresh, un-aborted controller. */
    method TimerFires()
      requires Valid() && pending.Some?
      modifies this
      ensures Valid()
      ensures JsLength(old(pending).value) >= MinQueryLength
      ensures State() == old(State()).(pending := None,
        requests := old(requests) + [Request(old(pending).value, ResultLimit, false, false)])
    {
      requests := requests + [Request(pending.value, ResultLimit, false, false)];
      pending := None;
    }

    /** Fetch `id` completes. An aborted one takes the `AbortError` branch and
        touches nothing but the loading flag; otherwise a list replaces the
        suggestions, opens iff non-empty and clears the highlight, and any
        failure empties and closes the list. Loading stops on every path. */
    method Complete(id: nat, outcome: Outcome)
      requires Valid() && id < |requests| && !requests[id].settled
      modifies this
      ensures Valid()
      ensures !old(requests)[id].aborted ==> id == |old(requests)| - 1
      ensures requests == old(requests)[id := old(requests)[id].(settled := true)]
      ensures !isLoading
      ensures old(requests)[id].aborted ==>
        State() == old(State()).(requests := requests, isLoading := false)
      ensures !old(requests)[id].aborted && outcome.Ok? ==>
        State() == old(State()).(requests := requests, isLoading := false,
          suggestions := outcome.data, isOpen := |outcome.data| > 0, highlightedIndex := -1)
      ensures !old(requests)[id].aborted && !outcome.Ok? ==>
        State() == old(State()).(requests := requests, isLoading := false,
          suggestions := [], isOpen := false)
    {
      var aborted := requests[id].aborted;
      requests := Settle(requests, id);
      if !aborted {
        match outcome
        case Ok(data) =>
          suggestions := data;
          isOpen := |data| > 0;
          highlightedIndex := -1;
        case _ =>
          suggestions := [];
          isOpen := false;
      }
      isLoading := false;
    }

    /** `handleSelect`: the text becomes "city, state", the host receives the
        selection, and the list closes and empties; the highlight is left. */
    method Commit(i: nat)
      requires Valid() && i < |suggestions|
      modifies this
      ensures Valid()
      ensures State() == old(State()).(
        query := Selection(old(suggestions)[i]).display,
        notifications := old(notifications) + [Some(Selection(old(suggestions)[i]))],
        isOpen := false,
        suggestions := [])
    {
      var selected := Selection(suggestions[i]);
      query := selected.display;
      notifications := notifications + [Some(selected)];
      isOpen := false;
      suggestions := [];
    }

    /** `handleKeyDown`: nothing unless the list is open and non-empty; the
        arrows move the highlight, Enter commits the highlighted entry if
        there is one, Escape only closes. */
    method KeyDown(key: Key)
      requires Valid() && mounted
      modifies this
      ensures Valid()
      ensures !old(ListVisible()) ==> State() == old(State())
      ensures old(ListVisible()) && (key.ArrowDown? || key.ArrowUp?) ==>
        State() == old(State()).(highlightedIndex := NextHighlight(key, old(highlightedIndex), |old(suggestions)|))
      ensures old(ListVisible()) && key.Enter? && 0 <= old(highlightedIndex) < |old(suggestions)| ==>
        State() == old(State()).(
          query := Selection(old(suggestions)[old(highlightedIndex)]).display,
          notifications := old(notifications) + [Some(Selection(old(suggestions)[old(highlightedIndex)]))],
          isOpen := false,
          suggestions := [])
      ensures old(ListVisible()) && key.Enter? && old(highlightedIndex) == -1 ==> State() == old(State())
      ensures old(ListVisible()) && key.Escape? ==> State() == old(State()).(isOpen := false)
      ensures key.OtherKey? ==> State() == old(State())
    {
      if !isOpen || |suggestions| == 0 {
        return;
      }
      match key
      case ArrowDown =>
        highlightedIndex := ArrowDownIndex(highlightedIndex, |suggestions|);
      case ArrowUp =>
        highlightedIndex := ArrowUpIndex(highlightedIndex);
      case Enter =>
        if highlightedIndex >= 0 && highlightedIndex < |suggestions| {
          Commit(highlightedIndex);
        }
      case Escape =>
        isOpen := false;
      case OtherKey =>
    }

    /** A mousedown outside the component closes the list and changes nothing else. */
    method ClickOutside()
      requires Valid() && mounted
      modifies this
      ensures Valid()
      ensures State() == old(State()).(isOpen := false)
    {
      isOpen := false;
    }

    /** Focusing the input reopens the list iff there are suggestions. */
    method Focus()
      requires Valid() && mounted
      modifies this
      ensures Valid()
      ensures isOpen <==> suggestions != []
      ensures State() == old(State()).(isOpen := isOpen)
    {
      if |suggestions| > 0 {
        isOpen := true;
      }
    }

    /** The pointer enters the `i`-th entry of the visible list: it becomes
        the highlight. */
    method Hover(i: nat)
      requires Valid() && mounted && ListVisible() && i < |suggestions|
      modifies this
      ensures Valid()
      ensures State() == old(State()).(highlightedIndex := i)
    {
      highlightedIndex := i;
    }

    /** A click on the `i`-th entry of the visible list commits it, whatever
        the highlight. */
    method PointerSelect(i: nat)
      requires Valid() && mounted && ListVisible() && i < |suggestions|
      modifies this
      ensures Valid()
      ensures State() == old(State()).(
        query := Selection(old(suggestions)[i]).display,
        notifications := old(notifications) + [Some(Selection(old(suggestions)[i]))],
        isOpen := false,
        suggestions := [])
    {
      Commit(i);
    }

    /** The host passes a new `value`. The sync effect runs only when
        `value?.display` changed; a non-empty display that differs from the
        text replaces it, and a null value leaves the text alone. */
    method ValuePropChanged(v: Option<SelectedLocation>)
      requires Valid() && mounted
      modifies this
      ensures Valid()
      ensures DisplayOf(old(value)) != DisplayOf(v) && v.Some? && v.value.display != "" ==>
        query == v.value.display
      ensures !(DisplayOf(old(value)) != DisplayOf(v) && v.Some? && v.value.display != "") ==>
        query == old(query)
      ensures v.None? ==> query == old(query)
      ensures State() == old(State()).(value := v, query := query)
    {
      var changed := DisplayOf(value) != DisplayOf(v);
      value := v;
      if changed && v.Some? && v.value.display != "" && v.value.display != query {
        query := v.value.display;
      }
    }

    /** The cleanup effect on unmount: clear the timer, abort the current
        fetch. */
    method Unmount()
      requires Valid() && mounted
      modifies this
      ensures Valid()
      ensures pending == None && AllAborted(requests)
      ensures State() == old(State()).(pending := None, requests := AbortLatest(old(requests)), mounted := false)
    {
      AbortLatestQuiets(requests);
      pending := None;
      requests := AbortLatest(requests);
      mounted := false;
    }
  }

  /** Two keystrokes inside one debounce window: the first timer is
      discarded and only the second query is fetched. */
  method BurstFetchesLastQuery()
  {
    var c := new LocationInput(None);
    c.Type("Sa");
    c.Type("Sac");
    c.TimerFires();
    assert c.requests == [Request("Sac", ResultLimit, false, false)];
    assert c.pending == None;
  }

  /** A slow fetch for "Port" is superseded by "Portland"; the late "Port"
      answer arrives after the "Portland" list is shown and changes nothing
      but the loading flag. */
  method LateAnswerIsInert(port: Suggestion, portland: Suggestion)
  {
    var c := new LocationInput(None);
    c.Type("Port");
    c.TimerFires();
    c.Type("Portland");
    c.TimerFires();
    c.Complete(1, Ok([portland]));
    assert c.suggestions == [portland] && c.isOpen;
    c.Complete(0, Ok([port]));
    assert c.suggestions == [portland] && c.isOpen && c.highlightedIndex == -1;
  }

  /** Enter with no highlight is a no-op: the list stays on screen and the
      host hears nothing. */
  method EnterWithoutHighlightIsIgnored(sacramento: Suggestion)
  {
    var c := new LocationInput(None);
    c.Type("Sacr");
    c.TimerFires();
    c.Complete(0, Ok([sacramento]));
    assert c.ListVisible() && c.highlightedIndex == -1;
    c.KeyDown(Enter);
    assert c.ListVisible() && c.notifications == [];
  }

  /** On a shown one-entry list with no highlight, ArrowDown then Enter
      commits that entry as "Sacramento, CA". */
  method ArrowDownThenEnterCommits(c: LocationInput)
    requires c.Valid() && c.mounted && c.ListVisible() && c.highlightedIndex == -1
    requires c.suggestions == [Suggestion("Sacramento", "CA", "California", 528000, None)]
    requires c.notifications == []
    modifies c
  {
    c.KeyDown(ArrowDown);
    assert c.highlightedIndex == 0;
    c.KeyDown(Enter);
    assert c.query == "Sacramento, CA";
    assert c.notifications == [Some(SelectedLocation("Sacramento", "CA", "California", "Sacramento, CA"))];
    assert !c.isOpen && c.suggestions == [];
  }

  /** The length threshold counts UTF-16 code units: one character outside
      the Basic Multilingual Plane is already two units and is searched,
      while one ASCII letter is not. */
  method AstralCharacterIsSearched()
  {
    var c := new LocationInput(None);
    c.Type("a");
    assert c.pending == None && !c.isLoading;
    c.Type("\U{1F30A}");
    assert c.pending == Some("\U{1F30A}") && c.isLoading;
  }
}
