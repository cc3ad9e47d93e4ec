/**
  The dashboard header: a search form that hands a non-blank query to the
  optional `onSearch` callback and then clears it, and a fullscreen button
  whose icon follows a flag kept in step with the document's fullscreen
  state.

  Whether the parent passed `onSearch` is fixed for the component's life and
  is a constant of the class; the callback's argument is returned. The
  document's fullscreen element is a boolean parameter of the events that
  read it.
 */
module DashboardHeader {
  import opened Js

  /** What the fullscreen button asks of the document. */
  datatype FullscreenRequest = Enter | Exit

  /** The button's icon. */
  datatype Icon = Maximize | Minimize

  /** toggleFullscreen: enter when no element is fullscreen, otherwise exit. */
  function ToggleRequest(documentFullscreen: bool): (req: FullscreenRequest)
    ensures req == Enter <==> !documentFullscreen
    ensures req == Exit <==> documentFullscreen
  {
    if !documentFullscreen then Enter else Exit
  }

  /** Whether the document is fullscreen once a request has succeeded. */
  function After(req: FullscreenRequest): (fullscreen: bool)
    ensures fullscreen <==> req == Enter
  {
    req == Enter
  }

  /** A successful toggle always flips the document's fullscreen state. */
  lemma ToggleFlips(documentFullscreen: bool)
    ensures After(ToggleRequest(documentFullscreen)) == !documentFullscreen
  {
  }

  /** Minimize while fullscreen, Maximize otherwise. */
  function IconFor(isFullscreen: bool): (icon: Icon)
    ensures icon == Minimize <==> isFullscreen
  {
    if isFullscreen then Minimize else Maximize
  }

  class Header {
    const hasOnSearch: bool
    var searchQuery: string
    var isFullscreen: bool

    constructor (hasOnSearch: bool)
      ensures this.hasOnSearch == hasOnSearch
      ensures searchQuery == "" && !isFullscreen
    {
      this.hasOnSearch := hasOnSearch;
      searchQuery := "";
      isFullscreen := false;
    }

    /** The input's onChange. */
    method SetQuery(text: string)
      modifies this
      ensures searchQuery == text && isFullscreen == old(isFullscreen)
    {
      searchQuery := text;
    }

    /** The fullscreenchange listener: the flag becomes whether the document
        now has a fullscreen element. */
    method FullscreenChanged(documentFullscreen: bool)
      modifies this
      ensures isFullscreen == documentFullscreen && searchQuery == old(searchQuery)
    {
      isFullscreen := documentFullscreen;
    }

    /** handleSearch: with a non-blank query and a callback, the untrimmed
        query goes to onSearch and the field is cleared; otherwise nothing
        happens and the query is kept. */
    method HandleSearch() returns (searched: Option<string>)
      modifies this
      ensures searched.Some? <==> !IsBlank(old(searchQuery)) && hasOnSearch
      ensures searched.Some? ==> searched.value == old(searchQuery) && searchQuery == ""
      ensures searched.None? ==> searchQuery == old(searchQuery)
      ensures isFullscreen == old(isFullscreen)
    {
      if !IsBlank(searchQuery) && hasOnSearch {
        searched := Some(searchQuery);
        searchQuery := "";
      } else {
        searched := None;
      }
    }
  }

  /** Submitting twice without typing reaches onSearch at most once: the first
      search clears the field, and the empty field is blank. */
  method SearchOnce(h: Header) returns (first: Option<string>, second: Option<string>)
    modifies h
    ensures second.None?
    ensures first.Some? ==> first.value == old(h.searchQuery)
  {
    first := h.HandleSearch();
    assert IsBlank("");
    second := h.HandleSearch();
  }

  /** The header's view of the document after a toggle and the change event
      that reports its success: the flag, and so the icon, flips. */
  method ToggleAndNotify(h: Header, documentFullscreen: bool) returns (req: FullscreenRequest)
    modifies h
    ensures req == ToggleRequest(documentFullscreen)
    ensures h.isFullscreen == !documentFullscreen
    ensures IconFor(h.isFullscreen) == (if documentFullscreen then Maximize else Minimize)
  {
    req := ToggleRequest(documentFullscreen);
    ToggleFlips(documentFullscreen);
    h.FullscreenChanged(After(req));
  }
}
