/** The ticket and settings store of lib/storage.ts. Each AsyncStorage key is a field of
    `TicketStore`; every ticket mutation reads the whole collection, changes it in memory and
    writes the whole collection back. */
module Storage {
  import opened Text
  import opened Tickets

  /** The content of one AsyncStorage key: never written (or removed), present but unreadable
      (`getItem` or `JSON.parse` throws), or a stored value (serialisation is the identity). */
  datatype Slot<T> = Absent | Unreadable | Stored(value: T)

  /** The result of an operation whose storage write may throw; the error is re-thrown. */
  datatype Outcome<T> = Ok(value: T) | Thrown

  /** `getAllTickets`: read errors are swallowed and look like an empty collection. */
  function ReadTickets(slot: Slot<seq<Ticket>>): (ts: seq<Ticket>)
    ensures slot.Stored? ==> ts == slot.value
    ensures !slot.Stored? ==> ts == []
  {
    if slot.Stored? then slot.value else []
  }

  /** The design invariant that no two stored tickets share an id. */
  ghost predicate UniqueIds(ts: seq<Ticket>) {
    forall i, j :: 0 <= i < j < |ts| ==> ts[i].id != ts[j].id
  }

  /** `tickets.findIndex(t => t.id === id)`: the first position holding `id`, or -1. */
  function FindIndex(ts: seq<Ticket>, id: string): (r: int)
    ensures -1 <= r < |ts|
    ensures r == -1 <==> forall t :: t in ts ==> t.id != id
    ensures r >= 0 ==> ts[r].id == id && forall j :: 0 <= j < r ==> ts[j].id != id
    decreases |ts|
  {
    if ts == [] then -1
    else if ts[0].id == id then 0
    else
      var k := FindIndex(ts[1..], id);
      assert forall t :: t in ts ==> t == ts[0] || t in ts[1..];
      if k == -1 then -1 else k + 1
  }

  /** `tickets.find(t => t.id === id) || null` */
  function FindTicket(ts: seq<Ticket>, id: string): (r: Option<Ticket>)
    ensures r.None? <==> forall t :: t in ts ==> t.id != id
    ensures r.Some? ==> r.value in ts && r.value.id == id
    ensures r.Some? ==> r.value == ts[FindIndex(ts, id)]
  {
    var i := FindIndex(ts, id);
    if i == -1 then None else Some(ts[i])
  }

  /** `Partial<Omit<ServiceTicket, 'id' | 'createdAt'>>`: `None` leaves a field alone. */
  datatype TicketPatch = TicketPatch(
    clientName: Option<string>,
    clientPhone: Option<string>,
    clientEmail: Option<string>,
    productType: Option<ProductType>,
    productModel: Option<string>,
    productSerialNumber: Option<string>,
    problemDescription: Option<string>,
    diagnostic: Option<string>,
    solutionApplied: Option<string>,
    cost: Option<real>,
    status: Option<TicketStatus>,
    technicianName: Option<string>,
    dateReceived: Option<Timestamp>,
    dateDelivered: Option<Option<Timestamp>>,
    updatedAt: Option<Timestamp>,
    telegramSent: Option<bool>,
    telegramMessageId: Option<Option<string>>)

  const EmptyPatch: TicketPatch :=
    TicketPatch(None, None, None, None, None, None, None, None, None, None, None, None, None, None, None, None, None)

  function Pick<T>(given: Option<T>, current: T): T {
    if given.Some? then given.value else current
  }

  /** `{ ...t, ...patch, updatedAt: now }` */
  function ApplyPatch(t: Ticket, p: TicketPatch, now: Timestamp): (r: Ticket)
    ensures r.id == t.id && r.createdAt == t.createdAt && r.updatedAt == now
    ensures p == EmptyPatch ==> r == t.(updatedAt := now)
    ensures p.status.Some? ==> r.status == p.status.value
    ensures p.status.None? ==> r.status == t.status
    ensures p.cost.Some? ==> r.cost == p.cost.value
    ensures p.cost.None? ==> r.cost == t.cost
    ensures r.clientName == (if p.clientName.Some? then p.clientName.value else t.clientName)
    ensures r.clientPhone == (if p.clientPhone.Some? then p.clientPhone.value else t.clientPhone)
    ensures r.clientEmail == (if p.clientEmail.Some? then p.clientEmail.value else t.clientEmail)
    ensures r.productType == (if p.productType.Some? then p.productType.value else t.productType)
    ensures r.productModel == (if p.productModel.Some? then p.productModel.value else t.productModel)
    ensures r.productSerialNumber == (if p.productSerialNumber.Some? then p.productSerialNumber.value else t.productSerialNumber)
    ensures r.problemDescription == (if p.problemDescription.Some? then p.problemDescription.value else t.problemDescription)
    ensures r.diagnostic == (if p.diagnostic.Some? then p.diagnostic.value else t.diagnostic)
    ensures r.solutionApplied == (if p.solutionApplied.Some? then p.solutionApplied.value else t.solutionApplied)
    ensures r.technicianName == (if p.technicianName.Some? then p.technicianName.value else t.technicianName)
    ensures r.dateReceived == (if p.dateReceived.Some? then p.dateReceived.value else t.dateReceived)
    ensures r.dateDelivered == (if p.dateDelivered.Some? then p.dateDelivered.value else t.dateDelivered)
    ensures r.telegramSent == (if p.telegramSent.Some? then p.telegramSent.value else t.telegramSent)
    ensures r.telegramMessageId == (if p.telegramMessageId.Some? then p.telegramMessageId.value else t.telegramMessageId)
  {
    Ticket(
      t.id,
      Pick(p.clientName, t.clientName),
      Pick(p.clientPhone, t.clientPhone),
      Pick(p.clientEmail, t.clientEmail),
      Pick(p.productType, t.productType),
      Pick(p.productModel, t.productModel),
      Pick(p.productSerialNumber, t.productSerialNumber),
      Pick(p.problemDescription, t.problemDescription),
      Pick(p.diagnostic, t.diagnostic),
      Pick(p.solutionApplied, t.solutionApplied),
      Pick(p.cost, t.cost),
      Pick(p.status, t.status),
      Pick(p.technicianName, t.technicianName),
      Pick(p.dateReceived, t.dateReceived),
      Pick(p.dateDelivered, t.dateDelivered),
      t.createdAt,
      now,
      Pick(p.telegramSent, t.telegramSent),
      Pick(p.telegramMessageId, t.telegramMessageId))
  }

  /** Applying the same patch twice at the same time is the same as applying it once. */
  lemma ApplyPatchIdempotent(t: Ticket, p: TicketPatch, now: Timestamp)
    ensures ApplyPatch(ApplyPatch(t, p, now), p, now) == ApplyPatch(t, p, now)
  {
  }

  /** The patch `markTelegramSent` sends. */
  function TelegramSentPatch(messageId: string): (p: TicketPatch)
    ensures forall t, now :: (ApplyPatch(t, p, now) ==
      t.(telegramSent := true, telegramMessageId := Some(messageId), updatedAt := now))
  {
    EmptyPatch.(telegramSent := Some(true), telegramMessageId := Some(Some(messageId)))
  }

  /** The criteria `filterTickets` applies, one per given option, in the order it applies them;
      a name query counts as given only when it is non-empty, the date range only with both bounds. */
  function Criteria(o: FilterOptions): seq<Criterion> {
    ClientCriteria(o) + ProductCriteria(o) + StatusCriteria(o) + TechnicianCriteria(o) + DateCriteria(o)
  }

  function ClientCriteria(o: FilterOptions): seq<Criterion> {
    if o.clientName.Some? && o.clientName.value != "" then [ClientNameContains(o.clientName.value)] else []
  }

  function ProductCriteria(o: FilterOptions): seq<Criterion> {
    if o.productType.Some? then [ProductIs(o.productType.value)] else []
  }

  function StatusCriteria(o: FilterOptions): seq<Criterion> {
    if o.status.Some? then [StatusIs(o.status.value)] else []
  }

  function TechnicianCriteria(o: FilterOptions): seq<Criterion> {
    if o.technicianName.Some? && o.technicianName.value != "" then [TechnicianNameContains(o.technicianName.value)] else []
  }

  function DateCriteria(o: FilterOptions): seq<Criterion> {
    if o.dateRangeStart.Some? && o.dateRangeEnd.Some?
    then [ReceivedBetween(o.dateRangeStart.value, o.dateRangeEnd.value)] else []
  }

  predicate ClientMatches(o: FilterOptions, t: Ticket) {
    o.clientName.None? || Contains(ToLower(t.clientName), ToLower(o.clientName.value))
  }

  predicate TechnicianMatches(o: FilterOptions, t: Ticket) {
    o.technicianName.None? || Contains(ToLower(t.technicianName), ToLower(o.technicianName.value))
  }

  predicate DateMatches(o: FilterOptions, t: Ticket) {
    o.dateRangeStart.None? || o.dateRangeEnd.None?
    || (o.dateRangeStart.value <= t.dateReceived && t.dateReceived <= o.dateRangeEnd.value)
  }

  /** What a ticket must satisfy to pass the filter, option by option: an absent option accepts
      every ticket, and so does an empty name query. */
  predicate MatchesOptions(o: FilterOptions, t: Ticket) {
    && ClientMatches(o, t)
    && (o.productType.None? || t.productType == o.productType.value)
    && (o.status.None? || t.status == o.status.value)
    && TechnicianMatches(o, t)
    && DateMatches(o, t)
  }

  lemma HoldsAllOfConcat(a: seq<Criterion>, b: seq<Criterion>, t: Ticket)
    ensures Holds(AllOf(a + b), t) == (Holds(AllOf(a), t) && Holds(AllOf(b), t))
  {
    if Holds(AllOf(a), t) && Holds(AllOf(b), t) {
      forall i | 0 <= i < |a + b| ensures Holds((a + b)[i], t) {
        if i >= |a| {
          assert (a + b)[i] == b[i - |a|];
        } else {
          assert (a + b)[i] == a[i];
        }
      }
    }
    if Holds(AllOf(a + b), t) {
      forall i | 0 <= i < |a| ensures Holds(a[i], t) {
        assert (a + b)[i] == a[i];
      }
      forall i | 0 <= i < |b| ensures Holds(b[i], t) {
        assert (a + b)[|a| + i] == b[i];
      }
    }
  }

  lemma HoldsAllOfSingle(c: Criterion, t: Ticket)
    ensures Holds(AllOf([c]), t) == Holds(c, t)
    ensures Holds(AllOf([]), t)
  {
    assert [c][0] == c;
  }

  lemma ClientCriteriaMeaning(o: FilterOptions, t: Ticket)
    ensures Holds(AllOf(ClientCriteria(o)), t) == ClientMatches(o, t)
  {
    EmptyOccursEverywhere(ToLower(t.clientName));
    if o.clientName.Some? && o.clientName.value != "" {
      HoldsAllOfSingle(ClientNameContains(o.clientName.value), t);
    } else {
      HoldsAllOfSingle(ClientNameContains(""), t);
    }
  }

  lemma TechnicianCriteriaMeaning(o: FilterOptions, t: Ticket)
    ensures Holds(AllOf(TechnicianCriteria(o)), t) == TechnicianMatches(o, t)
  {
    EmptyOccursEverywhere(ToLower(t.technicianName));
    if o.technicianName.Some? && o.technicianName.value != "" {
      HoldsAllOfSingle(TechnicianNameContains(o.technicianName.value), t);
    } else {
      HoldsAllOfSingle(TechnicianNameContains(""), t);
    }
  }

  lemma ProductCriteriaMeaning(o: FilterOptions, t: Ticket)
    ensures Holds(AllOf(ProductCriteria(o)), t) == (o.productType.None? || t.productType == o.productType.value)
  {
    if o.productType.Some? { HoldsAllOfSingle(ProductIs(o.productType.value), t); } else { HoldsAllOfSingle(ProductIs(Laptop), t); }
  }

  lemma StatusCriteriaMeaning(o: FilterOptions, t: Ticket)
    ensures Holds(AllOf(StatusCriteria(o)), t) == (o.status.None? || t.status == o.status.value)
  {
    if o.status.Some? { HoldsAllOfSingle(StatusIs(o.status.value), t); } else { HoldsAllOfSingle(StatusIs(Pending), t); }
  }

  lemma DateCriteriaMeaning(o: FilterOptions, t: Ticket)
    ensures Holds(AllOf(DateCriteria(o)), t) == DateMatches(o, t)
  {
    if o.dateRangeStart.Some? && o.dateRangeEnd.Some? {
      HoldsAllOfSingle(ReceivedBetween(o.dateRangeStart.value, o.dateRangeEnd.value), t);
    } else {
      HoldsAllOfSingle(IdIsNot(""), t);
    }
  }

  /** The five groups of criteria hold together exactly when each group holds. */
  lemma CriteriaConjunction(o: FilterOptions, t: Ticket)
    ensures Holds(AllOf(Criteria(o)), t)
            == (Holds(AllOf(ClientCriteria(o)), t) && Holds(AllOf(ProductCriteria(o)), t)
                && Holds(AllOf(StatusCriteria(o)), t) && Holds(AllOf(TechnicianCriteria(o)), t)
                && Holds(AllOf(DateCriteria(o)), t))
  {
    var c1, c2, c3, c4, c5 := ClientCriteria(o), ProductCriteria(o), StatusCriteria(o), TechnicianCriteria(o), DateCriteria(o);
    HoldsAllOfConcat(c1 + c2 + c3 + c4, c5, t);
    HoldsAllOfConcat(c1 + c2 + c3, c4, t);
    HoldsAllOfConcat(c1 + c2, c3, t);
    HoldsAllOfConcat(c1, c2, t);
  }

  /** The criteria list is a conjunction of exactly the given options. */
  lemma CriteriaMeaning(o: FilterOptions, t: Ticket)
    ensures Holds(AllOf(Criteria(o)), t) <==> MatchesOptions(o, t)
  {
    CriteriaConjunction(o, t);
    ClientCriteriaMeaning(o, t);
    ProductCriteriaMeaning(o, t);
    StatusCriteriaMeaning(o, t);
    TechnicianCriteriaMeaning(o, t);
    DateCriteriaMeaning(o, t);
  }

  /** One step of `filterTickets`: narrowing by an optional criterion extends the conjunction. */
  lemma NarrowStep(ts: seq<Ticket>, applied: seq<Criterion>, step: seq<Criterion>)
    requires |step| <= 1
    ensures step == [] ==> Where(ts, AllOf(applied + step)) == Where(ts, AllOf(applied))
    ensures |step| == 1 ==> Where(Where(ts, AllOf(applied)), step[0]) == Where(ts, AllOf(applied + step))
  {
    if step == [] {
      assert applied + step == applied;
    } else {
      assert step == [step[0]];
      WhereAllOfSnoc(ts, applied, step[0]);
    }
  }

  /** `filterTickets` keeps exactly the tickets that match every given option. */
  lemma FilterMembership(ts: seq<Ticket>, o: FilterOptions)
    ensures forall t :: t in Where(ts, AllOf(Criteria(o))) <==> t in ts && MatchesOptions(o, t)
  {
    forall t ensures Holds(AllOf(Criteria(o)), t) <==> MatchesOptions(o, t) {
      CriteriaMeaning(o, t);
    }
  }

  /** Filtering with no option set returns the whole collection, in order. */
  lemma NoFilterKeepsAll(ts: seq<Ticket>)
    ensures Where(ts, AllOf(Criteria(NoFilter))) == ts
  {
    WhereKeepsAll(ts, AllOf([]));
  }

  /** Removing every ticket with `id` leaves a collection in which `id` is not found. */
  lemma DeleteRemovesId(ts: seq<Ticket>, id: string)
    ensures FindIndex(Where(ts, IdIsNot(id)), id) == -1
    ensures forall t :: t in ts && t.id != id ==> t in Where(ts, IdIsNot(id))
  {
  }

  /** A second delete of the same id finds nothing to remove. */
  lemma DeleteTwice(ts: seq<Ticket>, id: string)
    ensures |Where(Where(ts, IdIsNot(id)), IdIsNot(id))| == |Where(ts, IdIsNot(id))|
  {
    WhereSameLength(Where(ts, IdIsNot(id)), IdIsNot(id));
  }

  /** Every subsequence kept by a filter keeps ids unique. */
  lemma {:induction false} WhereKeepsUniqueIds(ts: seq<Ticket>, c: Criterion)
    requires UniqueIds(ts)
    ensures UniqueIds(Where(ts, c))
    decreases |ts|
  {
    if ts != [] {
      var ts' := ts[..|ts| - 1];
      var x := ts[|ts| - 1];
      assert ts == ts' + [x];
      WhereSnoc(ts', x, c);
      WhereKeepsUniqueIds(ts', c);
      var w := Where(ts', c);
      WhereMembers(ts', c);
      forall t | t in w ensures t.id != x.id {
        var k :| 0 <= k < |ts'| && ts'[k] == t;
        assert ts[k] == t;
      }
    }
  }

  /** A created ticket is found again by its fresh id (create-then-get). */
  lemma FindCreated(ts: seq<Ticket>, t: Ticket)
    requires forall u :: u in ts ==> u.id != t.id
    ensures FindTicket(ts + [t], t.id) == Some(t)
  {
  }

  /** An updated ticket is what a later lookup of its id returns. */
  lemma FindUpdated(ts: seq<Ticket>, id: string, p: TicketPatch, now: Timestamp)
    requires FindIndex(ts, id) >= 0
    ensures var i := FindIndex(ts, id);
      FindTicket(ts[i := ApplyPatch(ts[i], p, now)], id) == Some(ApplyPatch(ts[i], p, now))
  {
    var i := FindIndex(ts, id);
    var ts' := ts[i := ApplyPatch(ts[i], p, now)];
    assert ts'[i].id == id;
  }

  const DefaultSettings: AppSettings := AppSettings("Technician", TelegramConfig("", ""), Auto)

  /** `getSettings`: the stored record, or the defaults when nothing is stored or the read fails. */
  function ReadSettings(slot: Slot<AppSettings>): (s: AppSettings)
    ensures slot.Stored? ==> s == slot.value
    ensures !slot.Stored? ==> s.technicianName == "Technician" && s.telegramConfig == TelegramConfig("", "")
                              && s.theme == Auto
  {
    if slot.Stored? then slot.value else DefaultSettings
  }

  /** `Partial<AppSettings>` */
  datatype SettingsPatch = SettingsPatch(
    technicianName: Option<string>,
    telegramConfig: Option<TelegramConfig>,
    theme: Option<Theme>)

  /** `{ ...current, ...patch }` */
  function MergeSettings(current: AppSettings, p: SettingsPatch): (r: AppSettings)
    ensures p.technicianName.Some? ==> r.technicianName == p.technicianName.value
    ensures p.technicianName.None? ==> r.technicianName == current.technicianName
    ensures p.telegramConfig.Some? ==> r.telegramConfig == p.telegramConfig.value
    ensures p.telegramConfig.None? ==> r.telegramConfig == current.telegramConfig
    ensures p.theme.Some? ==> r.theme == p.theme.value
    ensures p.theme.None? ==> r.theme == current.theme
  {
    AppSettings(
      Pick(p.technicianName, current.technicianName),
      Pick(p.telegramConfig, current.telegramConfig),
      Pick(p.theme, current.theme))
  }

  /** Merging is idempotent, and merging twice keeps the later value of each field. */
  lemma MergeSettingsTwice(s: AppSettings, p: SettingsPatch, q: SettingsPatch)
    ensures MergeSettings(MergeSettings(s, p), p) == MergeSettings(s, p)
    ensures MergeSettings(MergeSettings(s, p), q).technicianName == Pick(q.technicianName, Pick(p.technicianName, s.technicianName))
    ensures MergeSettings(MergeSettings(s, p), q).telegramConfig == Pick(q.telegramConfig, Pick(p.telegramConfig, s.telegramConfig))
    ensures MergeSettings(MergeSettings(s, p), q).theme == Pick(q.theme, Pick(p.theme, s.theme))
  {
  }

  /** `exportAllData`'s result. */
  datatype ExportData = ExportData(tickets: seq<Ticket>, settings: AppSettings, exportDate: Timestamp)

  class TicketStore {
    var tickets: Slot<seq<Ticket>>
    var settings: Slot<AppSettings>

    /** A device on which nothing was ever stored. */
    constructor ()
      ensures tickets == Absent && settings == Absent
    {
      tickets := Absent;
      settings := Absent;
    }

    /** `ticketStorage.getAllTickets` */
    function AllTickets(): (ts: seq<Ticket>)
      reads this
      ensures tickets.Stored? ==> ts == tickets.value
      ensures !tickets.Stored? ==> ts == []
    {
      ReadTickets(tickets)
    }

    /** `ticketStorage.getTicketById` */
    function GetTicketById(id: string): (r: Option<Ticket>)
      reads this
      ensures r.None? <==> forall t :: t in AllTickets() ==> t.id != id
      ensures r.Some? ==> r.value.id == id && r.value == AllTickets()[FindIndex(AllTickets(), id)]
    {
      FindTicket(AllTickets(), id)
    }

    /** `ticketStorage.createTicket`; `newId` is the uuid, `now` the clock, `writeOk` whether
        `setItem` succeeds. */
    method CreateTicket(data: Ticket, newId: string, now: Timestamp, writeOk: bool) returns (r: Outcome<Ticket>)
      modifies this`tickets
      ensures writeOk ==> r == Ok(data.(id := newId, createdAt := now, updatedAt := now))
      ensures writeOk ==> tickets == Stored(old(AllTickets()) + [r.value])
      ensures !writeOk ==> r == Thrown && tickets == old(tickets)
      ensures UniqueIds(old(AllTickets())) && (forall t :: t in old(AllTickets()) ==> t.id != newId)
              ==> UniqueIds(AllTickets())
    {
      var ticket := data.(id := newId, createdAt := now, updatedAt := now);
      var all := AllTickets();
      all := all + [ticket];
      if !writeOk {
        return Thrown;
      }
      tickets := Stored(all);
      r := Ok(ticket);
      if forall t :: t in old(AllTickets()) ==> t.id != newId {
        assert ticket.id !in set t | t in old(AllTickets()) :: t.id;
      }
    }

    /** `ticketStorage.updateTicket`: the first ticket with `id` is patched in place. */
    method UpdateTicket(id: string, patch: TicketPatch, now: Timestamp, writeOk: bool)
      returns (r: Outcome<Option<Ticket>>)
      modifies this`tickets
      ensures var all := old(AllTickets()); var i := FindIndex(all, id);
        && (i == -1 ==> r == Ok(None) && tickets == old(tickets))
        && (i >= 0 && writeOk ==>
              r == Ok(Some(ApplyPatch(all[i], patch, now)))
              && tickets == Stored(all[i := ApplyPatch(all[i], patch, now)]))
        && (i >= 0 && !writeOk ==> r == Thrown && tickets == old(tickets))
      ensures UniqueIds(old(AllTickets())) ==> UniqueIds(AllTickets())
    {
      var all := AllTickets();
      var index := FindIndex(all, id);
      if index == -1 {
        return Ok(None);
      }
      all := all[index := ApplyPatch(all[index], patch, now)];
      if !writeOk {
        return Thrown;
      }
      tickets := Stored(all);
      r := Ok(Some(all[index]));
    }

    /** `ticketStorage.deleteTicket`: every ticket with `id` is removed; nothing is written
        when none has it. */
    method DeleteTicket(id: string, writeOk: bool) returns (r: Outcome<bool>)
      modifies this`tickets
      ensures var all := old(AllTickets());
        && ((forall t :: t in all ==> t.id != id) ==> r == Ok(false) && tickets == old(tickets))
        && (FindIndex(all, id) >= 0 && writeOk ==> r == Ok(true) && tickets == Stored(Where(all, IdIsNot(id))))
        && (FindIndex(all, id) >= 0 && !writeOk ==> r == Thrown && tickets == old(tickets))
      ensures UniqueIds(old(AllTickets())) ==> UniqueIds(AllTickets())
    {
      var all := AllTickets();
      var filtered := Where(all, IdIsNot(id));
      WhereSameLength(all, IdIsNot(id));
      if |filtered| == |all| {
        return Ok(false);
      }
      if !writeOk {
        return Thrown;
      }
      tickets := Stored(filtered);
      r := Ok(true);
      if UniqueIds(all) {
        WhereKeepsUniqueIds(all, IdIsNot(id));
      }
    }

    /** `ticketStorage.filterTickets`: each given option narrows the current list in turn. */
    method FilterTickets(options: FilterOptions) returns (r: seq<Ticket>)
      ensures r == Where(AllTickets(), AllOf(Criteria(options)))
      ensures forall t :: t in r <==> t in AllTickets() && MatchesOptions(options, t)
    {
      var all := AllTickets();
      r := all;
      assert r == Where(all, AllOf([])) by {
        forall t | t in all ensures Holds(AllOf([]), t) {}
        WhereKeepsAll(all, AllOf([]));
      }
      if options.clientName.Some? && options.clientName.value != "" {
        r := Where(r, ClientNameContains(options.clientName.value));
      }
      NarrowStep(all, [], ClientCriteria(options));
      assert [] + ClientCriteria(options) == ClientCriteria(options);
      ghost var applied := ClientCriteria(options);
      assert r == Where(all, AllOf(applied));
      if options.productType.Some? {
        r := Where(r, ProductIs(options.productType.value));
      }
      NarrowStep(all, applied, ProductCriteria(options));
      applied := applied + ProductCriteria(options);
      assert r == Where(all, AllOf(applied));
      if options.status.Some? {
        r := Where(r, StatusIs(options.status.value));
      }
      NarrowStep(all, applied, StatusCriteria(options));
      applied := applied + StatusCriteria(options);
      assert r == Where(all, AllOf(applied));
      if options.technicianName.Some? && options.technicianName.value != "" {
        r := Where(r, TechnicianNameContains(options.technicianName.value));
      }
      NarrowStep(all, applied, TechnicianCriteria(options));
      applied := applied + TechnicianCriteria(options);
      assert r == Where(all, AllOf(applied));
      if options.dateRangeStart.Some? && options.dateRangeEnd.Some? {
        r := Where(r, ReceivedBetween(options.dateRangeStart.value, options.dateRangeEnd.value));
      }
      NarrowStep(all, applied, DateCriteria(options));
      applied := applied + DateCriteria(options);
      assert r == Where(all, AllOf(applied));
      assert applied == Criteria(options);
      FilterMembership(all, options);
    }

    /** `ticketStorage.markTelegramSent`: true exactly when the ticket exists and the write
        succeeds; a failed write is caught and reported as false. */
    method MarkTelegramSent(id: string, messageId: string, now: Timestamp, writeOk: bool) returns (ok: bool)
      modifies this`tickets
      ensures var all := old(AllTickets()); var i := FindIndex(all, id);
        && (ok <==> i >= 0 && writeOk)
        && (ok ==> tickets == Stored(all[i := all[i].(telegramSent := true, telegramMessageId := Some(messageId),
                                                         updatedAt := now)]))
        && (!ok ==> tickets == old(tickets))
    {
      var updated := UpdateTicket(id, TelegramSentPatch(messageId), now, writeOk);
      ok := updated.Ok? && updated.value.Some?;
    }

    /** `ticketStorage.clearAllTickets`: removes the key; a failed removal is re-thrown. */
    method ClearAllTickets(removeOk: bool) returns (r: Outcome<()>)
      modifies this`tickets
      ensures removeOk ==> r == Ok(()) && tickets == Absent && AllTickets() == []
      ensures !removeOk ==> r == Thrown && tickets == old(tickets)
    {
      if !removeOk {
        return Thrown;
      }
      tickets := Absent;
      r := Ok(());
    }

    /** `settingsStorage.getSettings` */
    function GetSettings(): (s: AppSettings)
      reads this
      ensures settings.Stored? ==> s == settings.value
      ensures !settings.Stored? ==> s == DefaultSettings
    {
      ReadSettings(settings)
    }

    /** `settingsStorage.updateSettings`: the given fields merged over the current settings. */
    method UpdateSettings(patch: SettingsPatch, writeOk: bool) returns (r: Outcome<AppSettings>)
      modifies this`settings
      ensures writeOk ==> r == Ok(MergeSettings(old(GetSettings()), patch)) && settings == Stored(r.value)
      ensures writeOk ==> GetSettings() == r.value
      ensures !writeOk ==> r == Thrown && settings == old(settings)
    {
      var updated := MergeSettings(GetSettings(), patch);
      if !writeOk {
        return Thrown;
      }
      settings := Stored(updated);
      r := Ok(updated);
    }

    /** `settingsStorage.getTelegramConfig` */
    function GetTelegramConfig(): (c: TelegramConfig)
      reads this
      ensures settings.Stored? ==> c == settings.value.telegramConfig
      ensures !settings.Stored? ==> c == TelegramConfig("", "")
    {
      GetSettings().telegramConfig
    }

    /** `settingsStorage.updateTelegramConfig`: only the channel credentials change. */
    method UpdateTelegramConfig(config: TelegramConfig, writeOk: bool) returns (r: Outcome<TelegramConfig>)
      modifies this`settings
      ensures writeOk ==> r == Ok(config) && settings == Stored(old(GetSettings()).(telegramConfig := config))
      ensures writeOk ==> GetTechnicianName() == old(GetTechnicianName()) && GetSettings().theme == old(GetSettings()).theme
      ensures !writeOk ==> r == Thrown && settings == old(settings)
    {
      var current := GetSettings();
      var updated := current.(telegramConfig := config);
      if !writeOk {
        return Thrown;
      }
      settings := Stored(updated);
      r := Ok(config);
    }

    /** `settingsStorage.getTechnicianName` */
    function GetTechnicianName(): (name: string)
      reads this
      ensures settings.Stored? ==> name == settings.value.technicianName
      ensures !settings.Stored? ==> name == "Technician"
    {
      GetSettings().technicianName
    }

    /** `settingsStorage.updateTechnicianName`, through `updateSettings`. */
    method UpdateTechnicianName(name: string, writeOk: bool) returns (r: Outcome<string>)
      modifies this`settings
      ensures writeOk ==> r == Ok(name) && settings == Stored(old(GetSettings()).(technicianName := name))
      ensures !writeOk ==> r == Thrown && settings == old(settings)
    {
      var updated := UpdateSettings(SettingsPatch(Some(name), None, None), writeOk);
      if updated.Thrown? {
        return Thrown;
      }
      r := Ok(name);
    }

    /** `dataStorage.exportAllData` */
    function ExportAllData(now: Timestamp): (e: ExportData)
      reads this
      ensures e.tickets == AllTickets() && e.settings == GetSettings() && e.exportDate == now
    {
      ExportData(AllTickets(), GetSettings(), now)
    }

    /** `dataStorage.clearAllData`: the tickets key is removed first, then the settings key;
        a failure stops at the step that failed. */
    method ClearAllData(ticketsRemoveOk: bool, settingsRemoveOk: bool) returns (r: Outcome<()>)
      modifies this
      ensures !ticketsRemoveOk ==> r == Thrown && tickets == old(tickets) && settings == old(settings)
      ensures ticketsRemoveOk && !settingsRemoveOk ==> r == Thrown && tickets == Absent && settings == old(settings)
      ensures ticketsRemoveOk && settingsRemoveOk ==> r == Ok(()) && tickets == Absent && settings == Absent
      ensures ticketsRemoveOk && settingsRemoveOk ==> AllTickets() == [] && GetSettings() == DefaultSettings
    {
      if !ticketsRemoveOk {
        return Thrown;
      }
      tickets := Absent;
      if !settingsRemoveOk {
        return Thrown;
      }
      settings := Absent;
      r := Ok(());
    }
  }
}
