/** The records of the repair shop (a service ticket, the settings record, the filter options) and
    the first-order filters that both the ticket store and the reports apply to ticket sequences. */
module Tickets {
  import opened Text

  datatype Option<+T> = None | Some(value: T)

  /** A point in time, in local-time milliseconds; ISO date strings are parsed to this. */
  type Timestamp = int

  const MillisPerDay: int := 86400000

  /** The calendar day of a timestamp (local midnight to midnight). */
  function DayOf(t: Timestamp): int {
    t / MillisPerDay
  }

  datatype ProductType = Laptop | Pc | Phone | Printer | Gps | Tv | Box | Tablet

  /** Every product type, in the key order of the source's per-product records. */
  const AllProductTypes: seq<ProductType> := [Laptop, Pc, Phone, Printer, Gps, Tv, Box, Tablet]

  datatype TicketStatus = Pending | InProgress | Completed | OnHold

  datatype Ticket = Ticket(
    id: string,
    clientName: string,
    clientPhone: string,
    clientEmail: string,
    productType: ProductType,
    productModel: string,
    productSerialNumber: string,
    problemDescription: string,
    diagnostic: string,
    solutionApplied: string,
    cost: real,
    status: TicketStatus,
    technicianName: string,
    dateReceived: Timestamp,
    dateDelivered: Option<Timestamp>,
    createdAt: Timestamp,
    updatedAt: Timestamp,
    telegramSent: bool,
    telegramMessageId: Option<string>)

  datatype TelegramConfig = TelegramConfig(botToken: string, groupId: string)

  datatype Theme = Light | Dark | Auto

  datatype AppSettings = AppSettings(technicianName: string, telegramConfig: TelegramConfig, theme: Theme)

  /** Absent criteria are `None`; an empty date bound stands for `None` too. */
  datatype FilterOptions = FilterOptions(
    clientName: Option<string>,
    productType: Option<ProductType>,
    status: Option<TicketStatus>,
    technicianName: Option<string>,
    dateRangeStart: Option<Timestamp>,
    dateRangeEnd: Option<Timestamp>)

  const NoFilter: FilterOptions := FilterOptions(None, None, None, None, None, None)

  /** One ticket predicate of the filters and reports. */
  datatype Criterion =
    | ClientNameContains(query: string)      // case-insensitive substring
    | TechnicianNameContains(query: string)  // case-insensitive substring
    | ProductIs(productType: ProductType)
    | StatusIs(status: TicketStatus)
    | ReceivedBetween(start: Timestamp, end: Timestamp)  // inclusive
    | ReceivedOnDay(day: int)
    | TechnicianIs(name: string)             // exact, the grouping key
    | ClientNameIs(name: string)             // case-insensitive equality
    | IdIsNot(id: string)
    | NotCompleted                           // pending, in_progress or on_hold
    | AllOf(criteria: seq<Criterion>)

  predicate Holds(c: Criterion, t: Ticket)
    decreases c
  {
    match c
    case ClientNameContains(q) => Contains(ToLower(t.clientName), ToLower(q))
    case TechnicianNameContains(q) => Contains(ToLower(t.technicianName), ToLower(q))
    case ProductIs(p) => t.productType == p
    case StatusIs(s) => t.status == s
    case ReceivedBetween(start, end) => start <= t.dateReceived && t.dateReceived <= end
    case ReceivedOnDay(day) => DayOf(t.dateReceived) == day
    case TechnicianIs(name) => t.technicianName == name
    case ClientNameIs(name) => ToLower(t.clientName) == ToLower(name)
    case IdIsNot(id) => t.id != id
    case NotCompleted => t.status == Pending || t.status == InProgress || t.status == OnHold
    case AllOf(cs) => forall i :: 0 <= i < |cs| ==> Holds(cs[i], t)
  }

  /** `ts.filter(t => Holds(c, t))`: the tickets satisfying `c`, in their original order. */
  function Where(ts: seq<Ticket>, c: Criterion): (r: seq<Ticket>)
    ensures |r| <= |ts|
    decreases |ts|
  {
    if ts == [] then []
    else
      var w := Where(ts[..|ts| - 1], c);
      if Holds(c, ts[|ts| - 1]) then w + [ts[|ts| - 1]] else w
  }

  lemma {:induction false} WhereMembers(ts: seq<Ticket>, c: Criterion)
    ensures forall t :: t in Where(ts, c) <==> t in ts && Holds(c, t)
    decreases |ts|
  {
    if ts != [] {
      WhereMembers(ts[..|ts| - 1], c);
      assert forall t :: t in ts <==> t in ts[..|ts| - 1] || t == ts[|ts| - 1];
    }
  }

  lemma WhereSnoc(ts: seq<Ticket>, x: Ticket, c: Criterion)
    ensures Where(ts + [x], c) == if Holds(c, x) then Where(ts, c) + [x] else Where(ts, c)
  {
    assert (ts + [x])[..|ts|] == ts;
  }

  /** Filtering distributes over concatenation, so it keeps the relative order of the tickets. */
  lemma {:induction false} WhereConcat(a: seq<Ticket>, b: seq<Ticket>, c: Criterion)
    ensures Where(a + b, c) == Where(a, c) + Where(b, c)
    decreases |b|
  {
    if b == [] {
      assert a + b == a;
    } else {
      var b', x := b[..|b| - 1], b[|b| - 1];
      assert b == b' + [x];
      assert a + b == (a + b') + [x];
      WhereConcat(a, b', c);
      WhereSnoc(a + b', x, c);
      WhereSnoc(b', x, c);
      if Holds(c, x) {
        var wa, wb := Where(a, c), Where(b', c);
        assert (wa + wb) + [x] == wa + (wb + [x]);
      }
    }
  }

  /** Filtering removes nothing exactly when every ticket satisfies the criterion. */
  lemma {:induction false} WhereKeepsAll(ts: seq<Ticket>, c: Criterion)
    ensures Where(ts, c) == ts <==> forall t :: t in ts ==> Holds(c, t)
    decreases |ts|
  {
    if ts != [] {
      var ts' := ts[..|ts| - 1];
      assert ts == ts' + [ts[|ts| - 1]];
      WhereSnoc(ts', ts[|ts| - 1], c);
      WhereKeepsAll(ts', c);
      if Where(ts, c) == ts {
        assert ts[|ts| - 1] in Where(ts, c);
      }
    }
  }

  /** Filtering keeps nothing when no ticket satisfies the criterion. */
  lemma {:induction false} WhereNone(ts: seq<Ticket>, c: Criterion)
    requires forall t :: t in ts ==> !Holds(c, t)
    ensures Where(ts, c) == []
    decreases |ts|
  {
    if ts != [] {
      WhereNone(ts[..|ts| - 1], c);
    }
  }

  lemma HoldsAllOfSnoc(cs: seq<Criterion>, c: Criterion, t: Ticket)
    ensures Holds(AllOf(cs + [c]), t) == (Holds(AllOf(cs), t) && Holds(c, t))
  {
    assert forall i :: 0 <= i < |cs| ==> (cs + [c])[i] == cs[i];
    assert (cs + [c])[|cs|] == c;
  }

  /** Filtering keeps the length exactly when it removes nothing. */
  lemma {:induction false} WhereSameLength(ts: seq<Ticket>, c: Criterion)
    ensures |Where(ts, c)| == |ts| <==> forall t :: t in ts ==> Holds(c, t)
    decreases |ts|
  {
    if ts != [] {
      var ts' := ts[..|ts| - 1];
      assert ts == ts' + [ts[|ts| - 1]];
      WhereSnoc(ts', ts[|ts| - 1], c);
      WhereSameLength(ts', c);
    }
  }

  /** Filtering again by a further criterion is filtering once by the conjunction. */
  lemma {:induction false} WhereAllOfSnoc(ts: seq<Ticket>, cs: seq<Criterion>, c: Criterion)
    ensures Where(Where(ts, AllOf(cs)), c) == Where(ts, AllOf(cs + [c]))
    decreases |ts|
  {
    if ts != [] {
      var ts' := ts[..|ts| - 1];
      var x := ts[|ts| - 1];
      assert ts == ts' + [x];
      var inner := Where(ts', AllOf(cs));
      WhereAllOfSnoc(ts', cs, c);
      WhereSnoc(ts', x, AllOf(cs));
      WhereSnoc(ts', x, AllOf(cs + [c]));
      WhereSnoc(inner, x, c);
      HoldsAllOfSnoc(cs, c, x);
      if Holds(AllOf(cs), x) {
        calc {
          Where(Where(ts, AllOf(cs)), c);
          Where(inner + [x], c);
          if Holds(c, x) then Where(inner, c) + [x] else Where(inner, c);
          Where(ts, AllOf(cs + [c]));
        }
      } else {
        calc {
          Where(Where(ts, AllOf(cs)), c);
          Where(inner, c);
          Where(ts, AllOf(cs + [c]));
        }
      }
    }
  }

  /** The sum of the costs (`ts.reduce((sum, t) => sum + t.cost, 0)`). */
  function SumCost(ts: seq<Ticket>): (r: real)
    ensures (forall t :: t in ts ==> t.cost >= 0.0) ==> r >= 0.0
    decreases |ts|
  {
    if ts == [] then 0.0 else SumCost(ts[..|ts| - 1]) + ts[|ts| - 1].cost
  }

  lemma SumCostSnoc(ts: seq<Ticket>, x: Ticket)
    ensures SumCost(ts + [x]) == SumCost(ts) + x.cost
  {
    assert (ts + [x])[..|ts|] == ts;
  }

  /** Every ticket is either completed or one of the three open statuses, never both. */
  lemma {:induction false} CompletedOrOpen(ts: seq<Ticket>)
    ensures |Where(ts, StatusIs(Completed))| + |Where(ts, NotCompleted)| == |ts|
    decreases |ts|
  {
    if ts != [] {
      var ts' := ts[..|ts| - 1];
      assert ts == ts' + [ts[|ts| - 1]];
      CompletedOrOpen(ts');
      WhereSnoc(ts', ts[|ts| - 1], StatusIs(Completed));
      WhereSnoc(ts', ts[|ts| - 1], NotCompleted);
    }
  }
}
