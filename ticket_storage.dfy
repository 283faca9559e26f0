/** The ticket store: the rows a ticket's wash-care options and dry-cleaning lines become in the
    database and how they are read back, the local list kept when the database cannot be
    reached, and the visit statistics computed from that list. */
module TicketStorage {
  import opened Seqs
  import opened Records

  // ---- wash-care option rows ----

  /** The six options, in the order `Object.entries` lists the fields of a ticket's options. */
  datatype OptionType = SeparateByColor | DelicateDry | StainRemoval | Bleach | NoFragrance | NoDry

  const AllOptionTypes: seq<OptionType> := [SeparateByColor, DelicateDry, StainRemoval, Bleach, NoFragrance, NoDry]

  /** The `option_type` a row stores: the option's field name. */
  function OptionKey(o: OptionType): string
  {
    match o
    case SeparateByColor => "separateByColor"
    case DelicateDry => "delicateDry"
    case StainRemoval => "stainRemoval"
    case Bleach => "bleach"
    case NoFragrance => "noFragrance"
    case NoDry => "noDry"
  }

  /** Distinct options are stored under distinct names. */
  lemma {:induction false} OptionKeyInjective(a: OptionType, b: OptionType)
    ensures OptionKey(a) == OptionKey(b) <==> a == b
  {
    if a != b {
      assert |OptionKey(a)| != |OptionKey(b)| || OptionKey(a)[0] != OptionKey(b)[0];
    }
  }

  function IsSet(opts: LaundryOptions, o: OptionType): bool
  {
    match o
    case SeparateByColor => opts.separateByColor
    case DelicateDry => opts.delicateDry
    case StainRemoval => opts.stainRemoval
    case Bleach => opts.bleach
    case NoFragrance => opts.noFragrance
    case NoDry => opts.noDry
  }

  /** Options with no choice made: what decoding starts from. */
  const NoOptions := LaundryOptions(false, false, false, false, false, false)

  /** The option a stored name stands for, if any. */
  function OptionNamed(key: string): Option<OptionType>
  {
    if key == OptionKey(SeparateByColor) then Some(SeparateByColor)
    else if key == OptionKey(DelicateDry) then Some(DelicateDry)
    else if key == OptionKey(StainRemoval) then Some(StainRemoval)
    else if key == OptionKey(Bleach) then Some(Bleach)
    else if key == OptionKey(NoFragrance) then Some(NoFragrance)
    else if key == OptionKey(NoDry) then Some(NoDry)
    else None
  }

  /** The options with `o` turned on. */
  function WithOption(opts: LaundryOptions, o: OptionType): LaundryOptions
  {
    match o
    case SeparateByColor => opts.(separateByColor := true)
    case DelicateDry => opts.(delicateDry := true)
    case StainRemoval => opts.(stainRemoval := true)
    case Bleach => opts.(bleach := true)
    case NoFragrance => opts.(noFragrance := true)
    case NoDry => opts.(noDry := true)
  }

  /** `laundryOptions[key] = true` for a key naming one of the six options. In the application
      an unknown key adds a seventh property to the object; the model keeps only the six
      options, so it drops such a key. */
  function SetOption(opts: LaundryOptions, key: string): LaundryOptions
  {
    match OptionNamed(key)
    case None => opts
    case Some(o) => WithOption(opts, o)
  }

  /** A `ticket_laundry_options` row. */
  datatype OptionRow = OptionRow(ticketId: string, optionType: string)

  /** The rows stored for the options `os` of a ticket: one per option that is set, in order. */
  function RowsOf(ticketId: string, opts: LaundryOptions, os: seq<OptionType>): seq<OptionRow>
  {
    if os == [] then []
    else
      RowsOf(ticketId, opts, os[..|os| - 1]) +
      (if IsSet(opts, os[|os| - 1]) then [OptionRow(ticketId, OptionKey(os[|os| - 1]))] else [])
  }

  function OptionRows(ticketId: string, opts: LaundryOptions): seq<OptionRow>
  {
    RowsOf(ticketId, opts, AllOptionTypes)
  }

  /** The loop of `storeTicket` that collects the option rows to insert. */
  method EncodeLaundryOptions(ticketId: string, opts: LaundryOptions) returns (rows: seq<OptionRow>)
    ensures rows == OptionRows(ticketId, opts)
  {
    rows := [];
    for i := 0 to |AllOptionTypes|
      invariant rows == RowsOf(ticketId, opts, AllOptionTypes[..i])
    {
      var o := AllOptionTypes[i];
      if IsSet(opts, o) {
        rows := rows + [OptionRow(ticketId, OptionKey(o))];
      }
      assert AllOptionTypes[..i + 1][..i] == AllOptionTypes[..i];
    }
    assert AllOptionTypes[..|AllOptionTypes|] == AllOptionTypes;
  }

  /** Every stored row belongs to the ticket, and a row names an option iff that option is set
      and among those stored. */
  lemma {:induction false} RowsOfMembership(ticketId: string, opts: LaundryOptions, os: seq<OptionType>, o: OptionType)
    ensures forall r :: r in RowsOf(ticketId, opts, os) ==> r.ticketId == ticketId
    ensures OptionRow(ticketId, OptionKey(o)) in RowsOf(ticketId, opts, os) <==> o in os && IsSet(opts, o)
    decreases |os|
  {
    if os != [] {
      var init, last := os[..|os| - 1], os[|os| - 1];
      assert os == init + [last];
      RowsOfMembership(ticketId, opts, init, o);
      OptionKeyInjective(o, last);
    }
  }

  /** One row per option that is set; in particular no rows at all, and so no insert, when no
      option is set. */
  lemma {:induction false} OptionRowsCount(ticketId: string, opts: LaundryOptions)
    ensures |OptionRows(ticketId, opts)| == Count(AllOptionTypes, IsSetIn(opts))
    ensures OptionRows(ticketId, opts) == [] <==> opts == NoOptions
  {
    RowsOfCount(ticketId, opts, AllOptionTypes);
    if opts == NoOptions {
      FilterNoneKept(AllOptionTypes, IsSetIn(opts));
    } else {
      assert exists o :: o in AllOptionTypes && IsSet(opts, o) by {
        if !opts.separateByColor && !opts.delicateDry && !opts.stainRemoval && !opts.bleach && !opts.noFragrance {
          assert IsSet(opts, NoDry) && AllOptionTypes[5] == NoDry;
        } else if !opts.separateByColor && !opts.delicateDry && !opts.stainRemoval && !opts.bleach {
          assert IsSet(opts, NoFragrance) && AllOptionTypes[4] == NoFragrance;
        } else if !opts.separateByColor && !opts.delicateDry && !opts.stainRemoval {
          assert IsSet(opts, Bleach) && AllOptionTypes[3] == Bleach;
        } else if !opts.separateByColor && !opts.delicateDry {
          assert IsSet(opts, StainRemoval) && AllOptionTypes[2] == StainRemoval;
        } else if !opts.separateByColor {
          assert IsSet(opts, DelicateDry) && AllOptionTypes[1] == DelicateDry;
        } else {
          assert IsSet(opts, SeparateByColor) && AllOptionTypes[0] == SeparateByColor;
        }
      }
      var o :| o in AllOptionTypes && IsSet(opts, o);
      RowsOfMembership(ticketId, opts, AllOptionTypes, o);
      assert OptionRow(ticketId, OptionKey(o)) in OptionRows(ticketId, opts);
    }
  }

  function IsSetIn(opts: LaundryOptions): OptionType -> bool
  {
    (o: OptionType) => IsSet(opts, o)
  }

  lemma {:induction false} RowsOfCount(ticketId: string, opts: LaundryOptions, os: seq<OptionType>)
    ensures |RowsOf(ticketId, opts, os)| == Count(os, IsSetIn(opts))
    decreases |os|
  {
    if os != [] {
      RowsOfCount(ticketId, opts, os[..|os| - 1]);
    }
  }

  /** The options read back from rows: all six false, then each named option set. */
  function DecodeRows(rows: seq<OptionRow>): LaundryOptions
  {
    if rows == [] then NoOptions else SetOption(DecodeRows(rows[..|rows| - 1]), rows[|rows| - 1].optionType)
  }

  /** The option decoding of `getTickets`; a ticket without option rows has none set. */
  method DecodeLaundryOptions(rows: Option<seq<OptionRow>>) returns (opts: LaundryOptions)
    ensures opts == DecodeRows(if rows.Some? then rows.value else [])
  {
    opts := NoOptions;
    if rows.Some? {
      var rs := rows.value;
      for i := 0 to |rs|
        invariant opts == DecodeRows(rs[..i])
      {
        opts := SetOption(opts, rs[i].optionType);
        assert rs[..i + 1][..i] == rs[..i];
      }
      assert rs[..|rs|] == rs;
    }
  }

  /** An option is set after decoding iff some row names it. */
  lemma {:induction false} DecodeRowsSets(rows: seq<OptionRow>, o: OptionType)
    ensures IsSet(DecodeRows(rows), o) <==> NamesOption(rows, o)
    decreases |rows|
  {
    if rows != [] {
      var init, last := rows[..|rows| - 1], rows[|rows| - 1];
      DecodeRowsSets(init, o);
      SetOptionSets(DecodeRows(init), last.optionType, o);
      NamesOptionStep(rows, o);
    }
  }

  /** Some row names option `o`. */
  predicate NamesOption(rows: seq<OptionRow>, o: OptionType)
  {
    exists i :: 0 <= i < |rows| && rows[i].optionType == OptionKey(o)
  }

  lemma {:induction false} NamesOptionStep(rows: seq<OptionRow>, o: OptionType)
    requires rows != []
    ensures NamesOption(rows, o) <==> NamesOption(rows[..|rows| - 1], o) || rows[|rows| - 1].optionType == OptionKey(o)
  {
    var init := rows[..|rows| - 1];
    if NamesOption(init, o) {
      var i :| 0 <= i < |init| && init[i].optionType == OptionKey(o);
      assert rows[i] == init[i];
    }
    if NamesOption(rows, o) {
      var i :| 0 <= i < |rows| && rows[i].optionType == OptionKey(o);
      if i < |init| {
        assert init[i] == rows[i];
      }
    }
  }

  /** Setting by name turns on exactly the option of that name. */
  lemma {:induction false} SetOptionSets(opts: LaundryOptions, key: string, o: OptionType)
    ensures IsSet(SetOption(opts, key), o) <==> IsSet(opts, o) || key == OptionKey(o)
  {
    var named := OptionNamed(key);
    assert named == Some(o) <==> key == OptionKey(o) by { OptionNamedIff(key, o); }
    if named.Some? {
      assert key == OptionKey(named.value) by { OptionNamedIff(key, named.value); }
      WithOptionSets(opts, named.value, o);
    }
  }

  lemma {:induction false} WithOptionSets(opts: LaundryOptions, n: OptionType, o: OptionType)
    ensures IsSet(WithOption(opts, n), o) <==> IsSet(opts, o) || n == o
  {
  }

  /** A name stands for the option it is the name of, and for no other. */
  lemma {:induction false} OptionNamedIff(key: string, o: OptionType)
    ensures OptionNamed(key) == Some(o) <==> key == OptionKey(o)
  {
    forall a, b ensures OptionKey(a) == OptionKey(b) <==> a == b {
      OptionKeyInjective(a, b);
    }
  }

  /** Two option records that agree on every option are equal. */
  lemma {:induction false} OptionsEqual(a: LaundryOptions, b: LaundryOptions)
    requires forall o :: IsSet(a, o) == IsSet(b, o)
    ensures a == b
  {
    assert IsSet(a, SeparateByColor) == IsSet(b, SeparateByColor);
    assert IsSet(a, DelicateDry) == IsSet(b, DelicateDry);
    assert IsSet(a, StainRemoval) == IsSet(b, StainRemoval);
    assert IsSet(a, Bleach) == IsSet(b, Bleach);
    assert IsSet(a, NoFragrance) == IsSet(b, NoFragrance);
    assert IsSet(a, NoDry) == IsSet(b, NoDry);
  }

  /** Storing a ticket's options and reading them back gives the same options. */
  lemma {:induction false} OptionRowsRoundTrip(ticketId: string, opts: LaundryOptions)
    ensures DecodeRows(OptionRows(ticketId, opts)) == opts
  {
    var rows := OptionRows(ticketId, opts);
    forall o
      ensures IsSet(DecodeRows(rows), o) == IsSet(opts, o)
    {
      DecodeRowsSets(rows, o);
      RowsOfMembership(ticketId, opts, AllOptionTypes, o);
      assert o in AllOptionTypes;
      if IsSet(opts, o) {
        var i :| 0 <= i < |rows| && rows[i] == OptionRow(ticketId, OptionKey(o));
        assert rows[i].optionType == OptionKey(o);
      }
      if NamesOption(rows, o) {
        var i :| 0 <= i < |rows| && rows[i].optionType == OptionKey(o);
        assert rows[i] in rows;
        assert rows[i] == OptionRow(ticketId, OptionKey(o));
      }
    }
    OptionsEqual(DecodeRows(rows), opts);
  }

  // ---- dry-cleaning rows ----

  /** A `dry_cleaning_items` row. */
  datatype DryRow = DryRow(ticketId: string, name: string, price: int, quantity: int)

  /** Step 4 of `storeTicket`: one row per dry-cleaning line, in order; none when the ticket
      has no lines. */
  function DryRows(ticketId: string, items: Option<seq<DryCleaningItem>>): seq<DryRow>
  {
    if items.None? then []
    else
      var lines := items.value;
      seq(|lines|, i requires 0 <= i < |lines| => DryRow(ticketId, lines[i].name, lines[i].price, lines[i].quantity))
  }

  /** The dry-cleaning decoding of `getTickets`: no rows, or an empty list of them, is no list. */
  function DecodeDryRows(rows: Option<seq<DryRow>>): Option<seq<DryCleaningItem>>
  {
    if rows.None? || |rows.value| == 0 then None
    else
      var rs := rows.value;
      Some(seq(|rs|, i requires 0 <= i < |rs| => DryCleaningItem(rs[i].name, rs[i].price, rs[i].quantity)))
  }

  /** Storing the lines and reading them back keeps every line's name, price and quantity in
      order; only an empty list comes back as no list. Every row belongs to the ticket. */
  lemma {:induction false} DryRowsRoundTrip(ticketId: string, items: Option<seq<DryCleaningItem>>)
    ensures forall r :: r in DryRows(ticketId, items) ==> r.ticketId == ticketId
    ensures DecodeDryRows(Some(DryRows(ticketId, items))) ==
      if items.Some? && items.value != [] then items else None
  {
    if items.Some? && items.value != [] {
      var back := DecodeDryRows(Some(DryRows(ticketId, items))).value;
      assert |back| == |items.value|;
      forall i | 0 <= i < |back| ensures back[i] == items.value[i] { }
      assert back == items.value;
    }
  }

  // ---- the local fallback list ----

  /** What the `laundryTickets` key of local storage holds. */
  datatype StoredList = Missing | Unparsable | Stored(tickets: seq<Ticket>)

  /** The database calls of `storeTicket`, in the order they are made. */
  datatype Stage = CustomerStep | TicketStep | OptionsStep | DryCleaningStep

  /** The dry-cleaning rows `storeTicket` inserts: none for a ticket without lines. */
  function TicketDryRows(t: Ticket, ticketId: string): seq<DryRow>
  {
    if t.dryCleaningItems.Some? && t.dryCleaningItems.value != [] then DryRows(ticketId, t.dryCleaningItems) else []
  }

  /** Whether the call named by `failAt` is made, and so whether the remote part fails: the
      option and dry-cleaning inserts are skipped when there is nothing to insert. */
  predicate RemoteFails(t: Ticket, ticketId: string, failAt: Option<Stage>)
  {
    match failAt
    case None => false
    case Some(CustomerStep) => true
    case Some(TicketStep) => true
    case Some(OptionsStep) => OptionRows(ticketId, t.laundryOptions) != []
    case Some(DryCleaningStep) => TicketDryRows(t, ticketId) != []
  }

  /** Local storage as the ticket store uses it. */
  class LocalTicketStore {
    var laundryTickets: StoredList

    constructor()
      ensures laundryTickets == Missing
    {
      laundryTickets := Missing;
    }

    /** The tickets the list yields: none when the key is missing or does not parse. */
    function Contents(): seq<Ticket>
      reads this
    {
      if laundryTickets.Stored? then laundryTickets.tickets else []
    }

    /** `getStoredTicketsFromLocalStorage`. */
    method GetStoredTickets() returns (tickets: seq<Ticket>)
      ensures laundryTickets.Stored? ==> tickets == laundryTickets.tickets
      ensures !laundryTickets.Stored? ==> tickets == []
    {
      tickets := Contents();
    }

    /** The fallback of `storeTicket`: the ticket is appended to the list read back, which
        replaces a list that did not parse. */
    method AppendTicket(t: Ticket)
      modifies this
      ensures laundryTickets == Stored(old(Contents()) + [t])
      ensures |Contents()| == |old(Contents())| + 1 && Contents()[..|Contents()| - 1] == old(Contents())
    {
      var tickets := GetStoredTickets();
      tickets := tickets + [t];
      laundryTickets := Stored(tickets);
    }

    /** `storeTicket`: the database calls run in order (the customer lookup or insert, the
        ticket row, the option rows, the dry-cleaning rows) and the first one that reports an
        error, `failAt`, ends the remote part; `None` means every call succeeds. A step with
        nothing to insert makes no call and so cannot fail. On any failure the ticket is appended
        to the local list, even when its row and option rows already reached the database. The
        results are what the database holds afterwards: whether the ticket row was inserted and
        the option and dry-cleaning rows inserted with it. */
    method StoreTicket(t: Ticket, ticketId: string, failAt: Option<Stage>)
      returns (ticketInserted: bool, optionRows: seq<OptionRow>, dryRows: seq<DryRow>)
      modifies this
      ensures ticketInserted <==> failAt != Some(CustomerStep) && failAt != Some(TicketStep)
      ensures optionRows == if ticketInserted && failAt != Some(OptionsStep) then OptionRows(ticketId, t.laundryOptions) else []
      ensures dryRows == if RemoteFails(t, ticketId, failAt) then [] else TicketDryRows(t, ticketId)
      ensures RemoteFails(t, ticketId, failAt) ==> laundryTickets == Stored(old(Contents()) + [t])
      ensures !RemoteFails(t, ticketId, failAt) ==> laundryTickets == old(laundryTickets)
      ensures failAt.None? ==> ticketInserted && !RemoteFails(t, ticketId, failAt)
      ensures failAt == Some(DryCleaningStep) && TicketDryRows(t, ticketId) != [] ==>
        ticketInserted && optionRows == OptionRows(ticketId, t.laundryOptions) && laundryTickets == Stored(old(Contents()) + [t])
    {
      var rows := EncodeLaundryOptions(ticketId, t.laundryOptions);
      ticketInserted := failAt != Some(CustomerStep) && failAt != Some(TicketStep);
      optionRows := if ticketInserted && failAt != Some(OptionsStep) then rows else [];
      dryRows := if RemoteFails(t, ticketId, failAt) then [] else TicketDryRows(t, ticketId);
      if RemoteFails(t, ticketId, failAt) {
        AppendTicket(t);
      }
    }

    /** The fallback of `getClientVisitData`: the number of the phone's tickets and the latest
        of their dates, or no date and 0 visits for a phone without tickets. */
    method GetClientVisitData(phone: string) returns (lastVisit: Option<int>, visitCount: nat)
      ensures visitCount == Count(Contents(), HasPhone(phone))
      ensures lastVisit.None? <==> visitCount == 0
      ensures lastVisit.Some? ==> exists t :: t in Contents() && t.phone == phone && t.date == lastVisit.value
      ensures lastVisit.Some? ==> forall t :: t in Contents() && t.phone == phone ==> t.date <= lastVisit.value
    {
      var tickets := GetStoredTickets();
      var clientTickets := Filter(tickets, HasPhone(phone));
      if |clientTickets| == 0 {
        return None, 0;
      }
      lastVisit, visitCount := Some(Latest(clientTickets)), |clientTickets|;
      LatestIsLatest(clientTickets);
      forall t | t in tickets && t.phone == phone
        ensures t.date <= lastVisit.value
      {
        FilterMembership(tickets, HasPhone(phone), t);
      }
      var w :| w in clientTickets && w.date == lastVisit.value;
      FilterMembership(tickets, HasPhone(phone), w);
    }
  }

  /** The date at the head of the list after sorting it newest first. */
  function Latest(tickets: seq<Ticket>): int
    requires tickets != []
  {
    if |tickets| == 1 then tickets[0].date
    else
      var rest := Latest(tickets[..|tickets| - 1]);
      if tickets[|tickets| - 1].date > rest then tickets[|tickets| - 1].date else rest
  }

  /** The latest date is one of the dates and no date is later. */
  lemma {:induction false} LatestIsLatest(tickets: seq<Ticket>)
    requires tickets != []
    ensures exists t :: t in tickets && t.date == Latest(tickets)
    ensures forall t :: t in tickets ==> t.date <= Latest(tickets)
    decreases |tickets|
  {
    if |tickets| > 1 {
      var init, last := tickets[..|tickets| - 1], tickets[|tickets| - 1];
      LatestIsLatest(init);
      assert tickets == init + [last];
      if last.date <= Latest(init) {
        var w :| w in init && w.date == Latest(init);
        assert w in tickets;
      }
    } else {
      assert tickets[0] in tickets;
    }
  }
}
