/** The pick-up screen's search: a list of tickets narrowed, case-insensitively, to those whose
    ticket number, name or phone contains the typed term. The list is the one the screen means
    to load from the ticket store. */
module PickupOrders {
  import opened Seqs
  import opened Text
  import opened Records

  /** The field the search looks in. */
  datatype SearchType = ByTicketNumber | ByName | ByPhone

  /** The searched field of a ticket; only the ticket number can be missing. */
  function SearchField(t: Ticket, searchType: SearchType): Option<string>
  {
    match searchType
    case ByTicketNumber => t.ticketNumber
    case ByName => Some(t.name)
    case ByPhone => Some(t.phone)
  }

  /** The filter callback: an empty term keeps everything; otherwise the lowercased field must
      be there and contain the lowercased term. */
  function Matches(searchTerm: string, searchType: SearchType): Ticket -> bool
  {
    (t: Ticket) =>
      searchTerm == [] ||
      (SearchField(t, searchType).Some? && Contains(Lower(SearchField(t, searchType).value), Lower(searchTerm)))
  }

  /** `filteredTickets`. */
  function FilteredTickets(tickets: seq<Ticket>, searchTerm: string, searchType: SearchType): seq<Ticket>
  {
    Filter(tickets, Matches(searchTerm, searchType))
  }

  /** The result keeps the tickets' order and drops some of them; a ticket is in it exactly
      when it is one of the tickets and the term is empty or found in its field. */
  lemma {:induction false} FilteredTicketsSpec(tickets: seq<Ticket>, searchTerm: string, searchType: SearchType, t: Ticket)
    ensures IsSubsequence(FilteredTickets(tickets, searchTerm, searchType), tickets)
    ensures t in FilteredTickets(tickets, searchTerm, searchType) <==>
      t in tickets &&
      (searchTerm == [] ||
       (SearchField(t, searchType).Some? && Contains(Lower(SearchField(t, searchType).value), Lower(searchTerm))))
  {
    FilterIsSubsequence(tickets, Matches(searchTerm, searchType));
    FilterMembership(tickets, Matches(searchTerm, searchType), t);
  }

  /** An empty term keeps every ticket, in order. */
  lemma {:induction false} EmptyTermKeepsAll(tickets: seq<Ticket>, searchType: SearchType)
    ensures FilteredTickets(tickets, [], searchType) == tickets
  {
    FilterAllKept(tickets, Matches([], searchType));
  }

  /** With a term, a ticket without the searched field is dropped. */
  lemma {:induction false} MissingFieldDropped(tickets: seq<Ticket>, searchTerm: string, searchType: SearchType, t: Ticket)
    requires searchTerm != [] && SearchField(t, searchType).None?
    ensures t !in FilteredTickets(tickets, searchTerm, searchType)
  {
    FilterMembership(tickets, Matches(searchTerm, searchType), t);
  }

  /** The search is case-insensitive: terms that lowercase alike select the same tickets. */
  lemma {:induction false} CaseInsensitive(tickets: seq<Ticket>, a: string, b: string, searchType: SearchType)
    requires a != [] && b != [] && Lower(a) == Lower(b)
    ensures FilteredTickets(tickets, a, searchType) == FilteredTickets(tickets, b, searchType)
    decreases |tickets|
  {
    if tickets != [] {
      var init := tickets[..|tickets| - 1];
      CaseInsensitive(init, a, b, searchType);
    }
  }

  /** The screen's search state. */
  class SearchState {
    var tickets: seq<Ticket>
    var searchTerm: string
    var searchType: SearchType

    /** Nothing loaded, no term, searching by ticket number. */
    constructor()
      ensures tickets == [] && searchTerm == "" && searchType == ByTicketNumber
    {
      tickets := [];
      searchTerm := "";
      searchType := ByTicketNumber;
    }

    /** The tickets on screen. */
    function Filtered(): seq<Ticket>
      reads this
    {
      FilteredTickets(tickets, searchTerm, searchType)
    }

    /** The search input stores what was typed. */
    method SetSearchTerm(value: string)
      modifies this
      ensures searchTerm == value && searchType == old(searchType) && tickets == old(tickets)
    {
      searchTerm := value;
    }

    /** `handleSearchTypeChange`: the new field is selected and the term cleared, so every
        ticket is on screen again. */
    method HandleSearchTypeChange(searchType': SearchType)
      modifies this
      ensures searchType == searchType' && searchTerm == "" && tickets == old(tickets)
      ensures Filtered() == tickets
    {
      searchType := searchType';
      searchTerm := "";
      EmptyTermKeepsAll(tickets, searchType);
    }
  }
}
