/** The session controller: the package-level search fields and pagination
    cursor, the form handlers that write the fields, the "next"/"prev"
    options that move the cursor and fetch a page, selecting a result, and
    the run started by the search-bar trigger. The host's UI calls become
    returned values, and the registry lookup is a parameter: a function from
    the query, the page size and the offset to the decoded results. */
module Session {
  import opened Text
  import opened Registry
  import opened Query
  import opened Presenter

  datatype Option<T> = None | Some(value: T)

  /** GetLookupResults(searchParams, limit, skip) with the HTTP request and
      the JSON decoding left abstract. */
  type Lookup = (SearchParams, int, int) -> LookupResults

  /** One call of the lookup: the query, the page size and the offset. */
  datatype Request = Request(params: SearchParams, limit: int, skip: int)

  /** What the plugin asks the host to show. */
  datatype View =
    | ChoiceList(heading: string, options: map<string, Choice>)
    | DetailList(heading: string, rows: map<string, Pair>)

  // ---------------------------------------------------------------------------
  // The pagination cursor

  /** The offset after the "next" option: one page further. */
  function NextSkip(skip: int): (r: int)
    ensures r > skip && r % Limit == skip % Limit
  {
    skip + Limit
  }

  /** The offset after the "prev" option: one page back, unless already 0. */
  function PrevSkip(skip: int): (r: int)
    ensures r <= skip && r % Limit == skip % Limit
    ensures r == skip <==> skip == 0
    ensures skip >= 0 && skip % Limit == 0 ==> r >= 0
  {
    if skip != 0 then skip - Limit else skip
  }

  /** The offsets the cursor can hold: whole pages from the start. */
  predicate CursorValid(skip: int)
  {
    skip >= 0 && skip % Limit == 0
  }

  lemma NextKeepsCursorValid(skip: int)
    requires CursorValid(skip)
    ensures CursorValid(NextSkip(skip))
    ensures NextSkip(skip) > skip
  {
  }

  /** "prev" never takes a valid cursor below zero, and stays at 0 on the
      first page. */
  lemma PrevKeepsCursorValid(skip: int)
    requires CursorValid(skip)
    ensures CursorValid(PrevSkip(skip))
    ensures skip == 0 ==> PrevSkip(skip) == 0
    ensures skip != 0 ==> PrevSkip(skip) == skip - Limit
  {
    if skip != 0 {
      assert skip >= Limit;
      assert (skip - Limit) % Limit == skip % Limit;
    }
  }

  /** "next" then "prev" returns to the page one started from. */
  lemma PrevUndoesNext(skip: int)
    requires CursorValid(skip)
    ensures PrevSkip(NextSkip(skip)) == skip
  {
  }

  /** "prev" then "next" returns to the same page except on the first page,
      where "prev" does nothing and "next" moves one page on. */
  lemma NextAfterPrev(skip: int)
    requires CursorValid(skip)
    ensures skip != 0 ==> NextSkip(PrevSkip(skip)) == skip
    ensures skip == 0 ==> NextSkip(PrevSkip(skip)) == Limit
  {
  }

  /** The state the plugin keeps between callbacks: the package variables
      `searchParams` and `skip` of loop/loop.go (the page size `limit` never
      changes and is the constant Limit). */
  class Loop {
    var searchParams: SearchParams
    var skip: int

    /** The zero values of the package variables. */
    constructor ()
      ensures searchParams == Empty() && skip == 0
      ensures CursorValid(skip)
    {
      searchParams := Empty();
      skip := 0;
    }

    /** ClearSearchParams: all six fields become empty; the cursor is left
        as it is. */
    method ClearSearchParams()
      modifies this
      ensures searchParams == Empty()
      ensures skip == old(skip)
    {
      searchParams := searchParams.(city := "");
      searchParams := searchParams.(firstName := "");
      searchParams := searchParams.(lastName := "");
      searchParams := searchParams.(number := "");
      searchParams := searchParams.(organization := "");
      searchParams := searchParams.(state := "");
    }

    /** The OnChange handler of the "number" input. `notifyFails` says
        whether the host's advisory call returns an error, in which case the
        handler returns before storing the number. */
    method OnNumberChange(number: string, notifyFails: bool) returns (warned: bool)
      modifies this
      ensures EditResult(searchParams, warned) == Edit(old(searchParams), FormEdit(Number, number, notifyFails))
      ensures skip == old(skip)
    {
      warned := false;
      if |number| != NumberLength && |number| > 0 {
        warned := true;
        if notifyFails {
          return;
        }
      }
      searchParams := searchParams.(number := number);
    }

    method OnFirstNameChange(firstName: string) returns (warned: bool)
      modifies this
      ensures EditResult(searchParams, warned) == Edit(old(searchParams), FormEdit(FirstName, firstName, false))
      ensures skip == old(skip)
    {
      searchParams := searchParams.(firstName := firstName + [Wildcard]);
      warned := false;
    }

    method OnLastNameChange(lastName: string) returns (warned: bool)
      modifies this
      ensures EditResult(searchParams, warned) == Edit(old(searchParams), FormEdit(LastName, lastName, false))
      ensures skip == old(skip)
    {
      searchParams := searchParams.(lastName := lastName + [Wildcard]);
      warned := false;
    }

    method OnOrganizationChange(organization: string) returns (warned: bool)
      modifies this
      ensures EditResult(searchParams, warned) == Edit(old(searchParams), FormEdit(Organization, organization, false))
      ensures skip == old(skip)
    {
      searchParams := searchParams.(organization := organization + [Wildcard]);
      warned := false;
    }

    /** The City handler stores first and then warns when State is empty;
        a failing advisory call changes nothing. */
    method OnCityChange(city: string) returns (warned: bool)
      modifies this
      ensures EditResult(searchParams, warned) == Edit(old(searchParams), FormEdit(City, city, false))
      ensures skip == old(skip)
    {
      searchParams := searchParams.(city := city + [Wildcard]);
      warned := searchParams.state == "";
    }

    method OnStateChange(state: string) returns (warned: bool)
      modifies this
      ensures EditResult(searchParams, warned) == Edit(old(searchParams), FormEdit(State, state, false))
      ensures skip == old(skip)
    {
      searchParams := searchParams.(state := state + [Wildcard]);
      warned := searchParams.city == "";
    }

    /** The form delivers a change to the handler of the input it came
        from. */
    method OnChange(e: FormEdit) returns (warned: bool)
      modifies this
      ensures EditResult(searchParams, warned) == Edit(old(searchParams), e)
      ensures skip == old(skip)
    {
      match e.field
      case Number => warned := OnNumberChange(e.value, e.notifyFails);
      case FirstName => warned := OnFirstNameChange(e.value);
      case LastName => warned := OnLastNameChange(e.value);
      case Organization => warned := OnOrganizationChange(e.value);
      case City => warned := OnCityChange(e.value);
      case State => warned := OnStateChange(e.value);
    }

    /** The page of results for the current fields and offset, as a
        disambiguation list headed by the fields as they are now. */
    method ShowPage(lookup: Lookup) returns (request: Request, view: View)
      ensures request == Request(searchParams, Limit, skip)
      ensures view == ChoiceList(ResultsLabel(searchParams), Choices(lookup(searchParams, Limit, skip).results))
    {
      request := Request(searchParams, Limit, skip);
      var lookupResults := lookup(searchParams, Limit, skip);
      var elements := CreateDisambiguationElements(lookupResults.results);
      view := ChoiceList(ResultsLabel(searchParams), elements);
    }

    /** The "next" option: one page on, then the lookup with the fields as
        they are now, without the space normalisation of the first lookup. */
    method Next(lookup: Lookup) returns (request: Request, view: View)
      modifies this
      ensures skip == NextSkip(old(skip)) && searchParams == old(searchParams)
      ensures old(CursorValid(skip)) ==> CursorValid(skip)
      ensures request == Request(searchParams, Limit, skip)
      ensures view == ChoiceList(ResultsLabel(searchParams), Choices(lookup(searchParams, Limit, skip).results))
    {
      if CursorValid(skip) {
        NextKeepsCursorValid(skip);
      }
      skip := skip + Limit;
      request, view := ShowPage(lookup);
    }

    /** The "prev" option: one page back unless on the first page, then the
        lookup; the lookup is made even when the offset did not change. */
    method Prev(lookup: Lookup) returns (request: Request, view: View)
      modifies this
      ensures skip == PrevSkip(old(skip)) && searchParams == old(searchParams)
      ensures old(CursorValid(skip)) ==> CursorValid(skip)
      ensures request == Request(searchParams, Limit, skip)
      ensures view == ChoiceList(ResultsLabel(searchParams), Choices(lookup(searchParams, Limit, skip).results))
    {
      if CursorValid(skip) {
        PrevKeepsCursorValid(skip);
      }
      if skip != 0 {
        skip := skip - Limit;
      }
      request, view := ShowPage(lookup);
    }

    /** Selecting an option of a disambiguation list: a result shows its
        detail list without a lookup; "next" and "prev" page. */
    method Select(action: Action, lookup: Lookup) returns (request: Option<Request>, view: View)
      modifies this
      ensures searchParams == old(searchParams)
      ensures old(CursorValid(skip)) ==> CursorValid(skip)
      ensures action.ShowDetail? ==>
                skip == old(skip) && request == None &&
                view == DetailList(DetailLabel(action.item), DetailRows(action.item, |action.item.otherNames|))
      ensures action.NextPage? ==> skip == NextSkip(old(skip)) && request == Some(Request(searchParams, Limit, skip))
      ensures action.PrevPage? ==> skip == PrevSkip(old(skip)) && request == Some(Request(searchParams, Limit, skip))
      ensures !action.ShowDetail? ==>
                view == ChoiceList(ResultsLabel(searchParams), Choices(lookup(searchParams, Limit, skip).results))
    {
      match action
      case ShowDetail(item) =>
        var rows := CreateListElements(item);
        request := None;
        view := DetailList(DetailLabel(item), rows);
      case NextPage =>
        var r;
        r, view := Next(lookup);
        request := Some(r);
      case PrevPage =>
        var r;
        r, view := Prev(lookup);
        request := Some(r);
    }

    /** run(), started by the trigger: clear the fields, let the form apply
        the user's edits, look up the first page with the spaces of the
        fields replaced (also when the form was cancelled), show the list
        only when the form was submitted, and clear the fields again. The
        lookup is made with offset 0, but the cursor itself is not reset. */
    method Run(edits: seq<FormEdit>, isSubmitted: bool, lookup: Lookup)
      returns (warnings: seq<bool>, request: Request, shown: Option<View>)
      modifies this
      ensures warnings == Warnings(Empty(), edits)
      ensures request == Request(RemoveSpaces(Edited(Empty(), edits)), Limit, 0)
      ensures shown.Some? <==> isSubmitted
      ensures isSubmitted ==>
                shown.value == ChoiceList(ResultsLabel(Edited(Empty(), edits)),
                                          Choices(lookup(request.params, Limit, 0).results))
      ensures searchParams == Empty()
      ensures skip == old(skip)
    {
      ClearSearchParams();
      warnings := [];
      var i := 0;
      while i < |edits|
        invariant 0 <= i <= |edits|
        invariant searchParams == Edited(Empty(), edits[..i])
        invariant warnings == Warnings(Empty(), edits[..i])
        invariant skip == old(skip)
      {
        assert edits[..i + 1][..i] == edits[..i];
        var warned := OnChange(edits[i]);
        warnings := warnings + [warned];
        i := i + 1;
      }
      assert edits[..i] == edits;
      request := Request(RemoveSpaces(searchParams), Limit, 0);
      var lookupResults := lookup(request.params, Limit, 0);
      var elements := CreateDisambiguationElements(lookupResults.results);
      if isSubmitted {
        shown := Some(ChoiceList(ResultsLabel(searchParams), elements));
      } else {
        shown := None;
      }
      ClearSearchParams();
    }

    /** run() with the cursor reset along with the fields, so that "next"
        after a new search shows that search's second page. */
    method RunFromFirstPage(edits: seq<FormEdit>, isSubmitted: bool, lookup: Lookup)
      returns (warnings: seq<bool>, request: Request, shown: Option<View>)
      modifies this
      ensures warnings == Warnings(Empty(), edits)
      ensures request == Request(RemoveSpaces(Edited(Empty(), edits)), Limit, 0)
      ensures shown.Some? <==> isSubmitted
      ensures isSubmitted ==>
                shown.value == ChoiceList(ResultsLabel(Edited(Empty(), edits)),
                                          Choices(lookup(request.params, Limit, 0).results))
      ensures searchParams == Empty()
      ensures skip == request.skip
      ensures CursorValid(skip)
    {
      warnings, request, shown := Run(edits, isSubmitted, lookup);
      skip := 0;
    }
  }

  // ---------------------------------------------------------------------------
  // The cursor across two searches

  /** As written: search, go one page on, search again and go one page on.
      The second search shows its first page, but its "next" asks for offset
      40 instead of 20: "next" passes over the results 20 to 39, and only
      "prev" from there reaches them. */
  method StaleCursorScenario(edits: seq<FormEdit>, lookup: Lookup) returns (request: Request)
    ensures request.skip == 2 * Limit
  {
    var loop := new Loop();
    var warnings, first, shown := loop.Run(edits, true, lookup);
    var page, view := loop.Next(lookup);
    warnings, first, shown := loop.Run(edits, true, lookup);
    assert first.skip == 0;
    request, view := loop.Next(lookup);
  }

  /** Corrected: with the cursor reset by the search, "next" after the
      second search asks for that search's second page. */
  method FreshCursorScenario(edits: seq<FormEdit>, lookup: Lookup) returns (request: Request)
    ensures request.skip == Limit
  {
    var loop := new Loop();
    var warnings, first, shown := loop.RunFromFirstPage(edits, true, lookup);
    var page, view := loop.Next(lookup);
    warnings, first, shown := loop.RunFromFirstPage(edits, true, lookup);
    assert first.skip == 0;
    request, view := loop.Next(lookup);
  }

  /** The fields a "next" or "prev" option queries with when it is chosen
      after run() has returned: run() has already cleared them, so the
      lookup is made with six empty fields, whatever the search was. */
  method NavigationAfterSearchScenario(edits: seq<FormEdit>, lookup: Lookup) returns (request: Request)
    ensures request.params == Empty()
  {
    var loop := new Loop();
    var warnings, first, shown := loop.Run(edits, true, lookup);
    var view;
    request, view := loop.Next(lookup);
  }
}
