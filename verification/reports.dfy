/** The report generator: aggregations over the tickets of a date range (revenue, per technician,
    per product type) or over the whole collection (client lookup, name lists, dashboard).
    The range reports ask the store to filter by the range; their `dateRange` field is the pair
    of bounds they were asked for. The other reports take the store's whole collection. */
module Reports {
  import opened Text
  import opened Tickets
  import opened Sorting
  import Storage

  /** The share of revenue booked as cost. */
  const CostRate: real := 0.3

  /** The bounds a report was requested for; an absent bound is the empty date string. */
  datatype DateRange = DateRange(start: Option<Timestamp>, end: Option<Timestamp>)

  /** The filter options the range reports pass to the store. */
  function RangeOptions(range: DateRange): (o: FilterOptions)
    ensures o.clientName.None? && o.productType.None? && o.status.None? && o.technicianName.None?
    ensures o.dateRangeStart == range.start && o.dateRangeEnd == range.end
  {
    NoFilter.(dateRangeStart := range.start, dateRangeEnd := range.end)
  }

  /** What the store's filter returns for a range: every ticket, in order, received within the
      bounds when both are given. */
  function InRange(all: seq<Ticket>, range: DateRange): (r: seq<Ticket>)
    ensures forall t :: t in r <==> t in all && (range.start.Some? && range.end.Some? ==>
                                                 range.start.value <= t.dateReceived <= range.end.value)
  {
    Storage.FilterMembership(all, RangeOptions(range));
    Where(all, AllOf(Storage.Criteria(RangeOptions(range))))
  }

  /** `count > 0 ? total / count : 0` */
  function Average(total: real, count: nat): real {
    if count > 0 then total / count as real else 0.0
  }

  lemma RatioInUnit(part: nat, count: nat)
    requires part <= count
    ensures 0.0 <= Average(part as real, count) <= 1.0
  {
    if count > 0 {
      assert part as real <= count as real;
    }
  }

  lemma EveryProductTypeListed(pt: ProductType)
    ensures pt in AllProductTypes
  {
    match pt
    case Laptop => assert AllProductTypes[0] == pt;
    case Pc => assert AllProductTypes[1] == pt;
    case Phone => assert AllProductTypes[2] == pt;
    case Printer => assert AllProductTypes[3] == pt;
    case Gps => assert AllProductTypes[4] == pt;
    case Tv => assert AllProductTypes[5] == pt;
    case Box => assert AllProductTypes[6] == pt;
    case Tablet => assert AllProductTypes[7] == pt;
  }

  lemma AllProductTypesDistinct()
    ensures forall i, j :: 0 <= i < j < |AllProductTypes| ==> AllProductTypes[i] != AllProductTypes[j]
  {
  }

  // ---------------------------------------------------------------------------------------
  // Partitions: every ticket satisfies exactly one criterion of a list, so the per-criterion
  // counts and revenues add up to the totals.

  /** The number of criteria of `cs` that `t` satisfies. */
  function HoldCount(cs: seq<Criterion>, t: Ticket): nat
    decreases |cs|
  {
    if cs == [] then 0 else (if Holds(cs[0], t) then 1 else 0) + HoldCount(cs[1..], t)
  }

  /** The sum over `cs` of the number of tickets satisfying each criterion. */
  function CountOver(ts: seq<Ticket>, cs: seq<Criterion>): nat
    decreases |cs|
  {
    if cs == [] then 0 else |Where(ts, cs[0])| + CountOver(ts, cs[1..])
  }

  /** The sum over `cs` of the revenue of the tickets satisfying each criterion. */
  function RevenueOver(ts: seq<Ticket>, cs: seq<Criterion>): real
    decreases |cs|
  {
    if cs == [] then 0.0 else SumCost(Where(ts, cs[0])) + RevenueOver(ts, cs[1..])
  }

  /** The cost of `t`, once for every criterion of `cs` it satisfies. */
  function HoldRevenue(cs: seq<Criterion>, t: Ticket): real
    decreases |cs|
  {
    if cs == [] then 0.0 else (if Holds(cs[0], t) then t.cost else 0.0) + HoldRevenue(cs[1..], t)
  }

  lemma {:induction false} HoldRevenueOfOne(cs: seq<Criterion>, t: Ticket)
    requires HoldCount(cs, t) == 1
    ensures HoldRevenue(cs, t) == t.cost
    decreases |cs|
  {
    if Holds(cs[0], t) {
      HoldRevenueOfNone(cs[1..], t);
    } else {
      HoldRevenueOfOne(cs[1..], t);
    }
  }

  lemma {:induction false} HoldRevenueOfNone(cs: seq<Criterion>, t: Ticket)
    requires HoldCount(cs, t) == 0
    ensures HoldRevenue(cs, t) == 0.0
    decreases |cs|
  {
    if cs != [] {
      HoldRevenueOfNone(cs[1..], t);
    }
  }

  lemma {:induction false} OverSnoc(ts: seq<Ticket>, x: Ticket, cs: seq<Criterion>)
    ensures CountOver(ts + [x], cs) == CountOver(ts, cs) + HoldCount(cs, x)
    ensures RevenueOver(ts + [x], cs) == RevenueOver(ts, cs) + HoldRevenue(cs, x)
    decreases |cs|
  {
    if cs != [] {
      OverSnoc(ts, x, cs[1..]);
      WhereSnoc(ts, x, cs[0]);
      SumCostSnoc(Where(ts, cs[0]), x);
    }
  }

  /** When the criteria partition the tickets, the per-criterion counts add up to the number of
      tickets and the per-criterion revenues to their total cost. */
  lemma {:induction false} PartitionTotals(ts: seq<Ticket>, cs: seq<Criterion>)
    requires forall t :: t in ts ==> HoldCount(cs, t) == 1
    ensures CountOver(ts, cs) == |ts|
    ensures RevenueOver(ts, cs) == SumCost(ts)
    decreases |ts|
  {
    if ts == [] {
      EmptyOver([], cs);
    } else {
      var ts' := ts[..|ts| - 1];
      var x := ts[|ts| - 1];
      assert ts == ts' + [x];
      PartitionTotals(ts', cs);
      OverSnoc(ts', x, cs);
      HoldRevenueOfOne(cs, x);
    }
  }

  lemma {:induction false} EmptyOver(ts: seq<Ticket>, cs: seq<Criterion>)
    requires ts == []
    ensures CountOver(ts, cs) == 0 && RevenueOver(ts, cs) == 0.0
    decreases |cs|
  {
    if cs != [] {
      EmptyOver(ts, cs[1..]);
    }
  }

  /** One `ProductIs` criterion per listed product type. */
  function ProductIsEach(types: seq<ProductType>): (cs: seq<Criterion>)
    ensures |cs| == |types|
    ensures forall k :: 0 <= k < |types| ==> cs[k] == ProductIs(types[k])
    decreases |types|
  {
    if types == [] then [] else [ProductIs(types[0])] + ProductIsEach(types[1..])
  }

  /** One `TechnicianIs` criterion per listed name. */
  function TechnicianIsEach(names: seq<string>): (cs: seq<Criterion>)
    ensures |cs| == |names|
    ensures forall k :: 0 <= k < |names| ==> cs[k] == TechnicianIs(names[k])
    decreases |names|
  {
    if names == [] then [] else [TechnicianIs(names[0])] + TechnicianIsEach(names[1..])
  }

  /** A ticket whose product type occurs once in `types` satisfies exactly one of its criteria. */
  lemma {:induction false} ProductTypesPartition(types: seq<ProductType>, t: Ticket)
    requires forall i, j :: 0 <= i < j < |types| ==> types[i] != types[j]
    requires t.productType in types
    ensures HoldCount(ProductIsEach(types), t) == 1
    decreases |types|
  {
    assert ProductIsEach(types)[1..] == ProductIsEach(types[1..]);
    if types[0] == t.productType {
      ProductAbsentCount(types[1..], t);
    } else {
      ProductTypesPartition(types[1..], t);
    }
  }

  lemma {:induction false} ProductAbsentCount(types: seq<ProductType>, t: Ticket)
    requires t.productType !in types
    ensures HoldCount(ProductIsEach(types), t) == 0
    decreases |types|
  {
    if types != [] {
      assert ProductIsEach(types)[1..] == ProductIsEach(types[1..]);
      ProductAbsentCount(types[1..], t);
    }
  }

  /** Every ticket has exactly one of the product types. */
  lemma EveryTicketOneProductType(t: Ticket)
    ensures HoldCount(ProductIsEach(AllProductTypes), t) == 1
  {
    EveryProductTypeListed(t.productType);
    AllProductTypesDistinct();
    ProductTypesPartition(AllProductTypes, t);
  }

  ghost predicate NoDuplicateNames(names: seq<string>) {
    forall i, j :: 0 <= i < j < |names| ==> names[i] != names[j]
  }

  /** A ticket whose technician occurs once in `names` satisfies exactly one of its criteria. */
  lemma {:induction false} TechnicianNamesPartition(names: seq<string>, t: Ticket)
    requires NoDuplicateNames(names) && t.technicianName in names
    ensures HoldCount(TechnicianIsEach(names), t) == 1
    decreases |names|
  {
    var cs := TechnicianIsEach(names);
    assert cs[1..] == TechnicianIsEach(names[1..]);
    if names[0] == t.technicianName {
      NameAbsentCount(names[1..], t);
    } else {
      TechnicianNamesPartition(names[1..], t);
    }
  }

  lemma {:induction false} NameAbsentCount(names: seq<string>, t: Ticket)
    requires t.technicianName !in names
    ensures HoldCount(TechnicianIsEach(names), t) == 0
    decreases |names|
  {
    if names != [] {
      assert TechnicianIsEach(names)[1..] == TechnicianIsEach(names[1..]);
      NameAbsentCount(names[1..], t);
    }
  }

  // ---------------------------------------------------------------------------------------
  // Revenue report

  datatype ProductTotals = ProductTotals(count: nat, revenue: real, cost: real, profit: real)

  datatype RevenueReport = RevenueReport(
    totalRevenue: real,
    totalCost: real,
    totalProfit: real,
    ticketCount: nat,
    averageTicketValue: real,
    dateRange: DateRange,
    byProductType: map<ProductType, ProductTotals>)

  const NoSales: ProductTotals := ProductTotals(0, 0.0, 0.0, 0.0)

  /** One more completed ticket of cost `cost` booked into a product's totals. */
  function AddSale(e: ProductTotals, cost: real): (r: ProductTotals)
    ensures r.count == e.count + 1 && r.revenue == e.revenue + cost
    ensures e.cost == CostRate * e.revenue ==> r.cost == CostRate * r.revenue
    ensures r.profit == r.revenue - r.cost
  {
    var revenue := e.revenue + cost;
    var c := e.cost + cost * CostRate;
    ProductTotals(e.count + 1, revenue, c, revenue - c)
  }

  /** The totals of a group of completed tickets. */
  function TotalsOf(group: seq<Ticket>): ProductTotals {
    ProductTotals(|group|, SumCost(group), CostRate * SumCost(group), SumCost(group) - CostRate * SumCost(group))
  }

  /** The per-product breakdown of completed tickets: an entry for exactly the product types
      that occur, holding the totals of that type's tickets. */
  function Breakdown(completed: seq<Ticket>): (m: map<ProductType, ProductTotals>)
  {
    forall pt ensures pt in AllProductTypes {
      EveryProductTypeListed(pt);
    }
    map pt | pt in AllProductTypes && |Where(completed, ProductIs(pt))| > 0 :: TotalsOf(Where(completed, ProductIs(pt)))
  }

  lemma TotalsSnoc(w: seq<Ticket>, x: Ticket)
    ensures TotalsOf([]) == NoSales
    ensures TotalsOf(w + [x]) == AddSale(TotalsOf(w), x.cost)
  {
    SumCostSnoc(w, x);
  }

  /** The step after booking `x`, on one product type's entry. */
  function BookInto(m: map<ProductType, ProductTotals>, x: Ticket): map<ProductType, ProductTotals> {
    var e := if x.productType in m then m[x.productType] else NoSales;
    m[x.productType := AddSale(e, x.cost)]
  }

  /** The breakdown holds an entry for exactly the product types that occur, and that entry is
      the totals of that type's tickets. */
  lemma BreakdownAt(completed: seq<Ticket>, pt: ProductType)
    ensures pt in Breakdown(completed) <==> |Where(completed, ProductIs(pt))| > 0
    ensures pt in Breakdown(completed) ==> Breakdown(completed)[pt] == TotalsOf(Where(completed, ProductIs(pt)))
  {
    EveryProductTypeListed(pt);
  }

  lemma BreakdownSnocAt(s: seq<Ticket>, x: Ticket, q: ProductType)
    ensures q in Breakdown(s + [x]) <==> q in BookInto(Breakdown(s), x)
    ensures q in Breakdown(s + [x]) ==> Breakdown(s + [x])[q] == BookInto(Breakdown(s), x)[q]
  {
    BreakdownAt(s + [x], q);
    BreakdownAt(s, q);
    if x.productType != q {
      BreakdownAt(s, x.productType);
    }
    WhereSnoc(s, x, ProductIs(q));
    if q == x.productType {
      TotalsSnoc(Where(s, ProductIs(q)), x);
    }
  }

  /** Booking one more completed ticket changes only its product type's entry. */
  lemma BreakdownSnoc(s: seq<Ticket>, x: Ticket)
    ensures Breakdown(s + [x]) == BookInto(Breakdown(s), x)
  {
    forall q {
      BreakdownSnocAt(s, x, q);
    }
  }

  /** The breakdown as the pass builds it: each ticket booked in turn into its type's record. */
  ghost function Booked(completed: seq<Ticket>): map<ProductType, ProductTotals>
    decreases |completed|
  {
    if completed == [] then map[]
    else BookInto(Booked(completed[..|completed| - 1]), completed[|completed| - 1])
  }

  /** Booking the tickets one by one gives the per-product breakdown. */
  lemma {:induction false} BookedIsBreakdown(completed: seq<Ticket>)
    ensures Booked(completed) == Breakdown(completed)
    decreases |completed|
  {
    if completed != [] {
      var s, x := completed[..|completed| - 1], completed[|completed| - 1];
      assert completed == s + [x];
      BookedIsBreakdown(s);
      BreakdownSnoc(s, x);
    }
  }

  /** The records with a positive count. */
  function NonEmpty(m: map<ProductType, ProductTotals>): (r: map<ProductType, ProductTotals>)
    ensures forall pt :: pt in r <==> pt in m && m[pt].count > 0
    ensures forall pt :: pt in r ==> r[pt] == m[pt]
  {
    map pt | pt in m && m[pt].count > 0 :: m[pt]
  }

  /** The breakdown has no empty record, so dropping the empty ones changes nothing. */
  lemma NonEmptyBreakdown(completed: seq<Ticket>)
    ensures NonEmpty(Breakdown(completed)) == Breakdown(completed)
  {
  }

  /** The pass over the completed tickets: running totals and a record per product type. */
  method AccumulateRevenue(completed: seq<Ticket>)
    returns (totalRevenue: real, totalCost: real, breakdown: map<ProductType, ProductTotals>)
    ensures totalRevenue == SumCost(completed)
    ensures totalCost == CostRate * totalRevenue
    ensures breakdown == Breakdown(completed)
  {
    totalRevenue := 0.0;
    totalCost := 0.0;
    breakdown := map[];
    assert completed[..0] == [];
    var i := 0;
    while i < |completed|
      invariant 0 <= i <= |completed|
      invariant totalRevenue == SumCost(completed[..i])
      invariant totalCost == CostRate * totalRevenue
      invariant breakdown == Booked(completed[..i])
    {
      var ticket := completed[i];
      assert completed[..i + 1] == completed[..i] + [ticket];
      SumCostSnoc(completed[..i], ticket);
      totalRevenue := totalRevenue + ticket.cost;
      totalCost := totalCost + ticket.cost * CostRate;
      var productType := ticket.productType;
      var entry := if productType in breakdown then breakdown[productType] else NoSales;
      breakdown := breakdown[productType := AddSale(entry, ticket.cost)];
      i := i + 1;
    }
    assert completed[..i] == completed;
    BookedIsBreakdown(completed);
  }

  /** `generateRevenueReport` on the tickets of the range: one pass over the completed tickets
      accumulates the totals and the per-product records, then the empty records are dropped. */
  method GenerateRevenueReport(store: Storage.TicketStore, range: DateRange) returns (r: RevenueReport)
    ensures r.ticketCount == |Where(InRange(store.AllTickets(), range), StatusIs(Completed))|
    ensures r.totalRevenue == SumCost(Where(InRange(store.AllTickets(), range), StatusIs(Completed)))
    ensures r.totalCost == CostRate * r.totalRevenue
    ensures r.totalProfit == r.totalRevenue - r.totalCost
    ensures r.averageTicketValue == Average(r.totalRevenue, r.ticketCount)
    ensures r.dateRange == range
    ensures r.byProductType == Breakdown(Where(InRange(store.AllTickets(), range), StatusIs(Completed)))
  {
    var inRange := store.FilterTickets(RangeOptions(range));
    assert inRange == InRange(store.AllTickets(), range);
    var completed := Where(inRange, StatusIs(Completed));
    var totalRevenue, totalCost, breakdown := AccumulateRevenue(completed);
    var byProductType := NonEmpty(breakdown);
    NonEmptyBreakdown(completed);
    r := RevenueReport(totalRevenue, totalCost, totalRevenue - totalCost, |completed|,
                       Average(totalRevenue, |completed|), range, byProductType);
  }

  /** The sum of a product-keyed field over the listed types, absent types counting zero. */
  function BreakdownCount(m: map<ProductType, ProductTotals>, types: seq<ProductType>): nat
    decreases |types|
  {
    if types == [] then 0
    else (if types[0] in m then m[types[0]].count else 0) + BreakdownCount(m, types[1..])
  }

  function BreakdownRevenue(m: map<ProductType, ProductTotals>, types: seq<ProductType>): real
    decreases |types|
  {
    if types == [] then 0.0
    else (if types[0] in m then m[types[0]].revenue else 0.0) + BreakdownRevenue(m, types[1..])
  }

  lemma {:induction false} BreakdownSums(completed: seq<Ticket>, types: seq<ProductType>)
    ensures BreakdownCount(Breakdown(completed), types) == CountOver(completed, ProductIsEach(types))
    ensures BreakdownRevenue(Breakdown(completed), types) == RevenueOver(completed, ProductIsEach(types))
    decreases |types|
  {
    if types != [] {
      BreakdownSums(completed, types[1..]);
      assert ProductIsEach(types)[1..] == ProductIsEach(types[1..]);
    }
  }

  /** The per-product counts add up to the number of completed tickets and the per-product
      revenues to the total revenue. */
  lemma BreakdownReconciles(completed: seq<Ticket>)
    ensures BreakdownCount(Breakdown(completed), AllProductTypes) == |completed|
    ensures BreakdownRevenue(Breakdown(completed), AllProductTypes) == SumCost(completed)
  {
    BreakdownSums(completed, AllProductTypes);
    forall t | t in completed ensures HoldCount(ProductIsEach(AllProductTypes), t) == 1 {
      EveryTicketOneProductType(t);
    }
    PartitionTotals(completed, ProductIsEach(AllProductTypes));
  }

  // ---------------------------------------------------------------------------------------
  // Technician report

  datatype TechnicianReport = TechnicianReport(
    technicianName: string,
    ticketCount: nat,
    completedCount: nat,
    pendingCount: nat,
    completionRate: real,
    totalRevenue: real,
    averageTicketValue: real,
    dateRange: DateRange)

  /** The figures of one technician's tickets. */
  function TechnicianEntry(name: string, group: seq<Ticket>, range: DateRange): (r: TechnicianReport)
    ensures r.technicianName == name && r.ticketCount == |group| && r.dateRange == range
    ensures r.completedCount == |Where(group, StatusIs(Completed))|
    ensures r.completedCount + r.pendingCount == r.ticketCount
    ensures 0.0 <= r.completionRate <= 1.0
    ensures r.completionRate == Average(r.completedCount as real, r.ticketCount)
    ensures r.totalRevenue == SumCost(group)
    ensures r.averageTicketValue == Average(r.totalRevenue, r.ticketCount)
  {
    CompletedOrOpen(group);
    var completed := |Where(group, StatusIs(Completed))|;
    RatioInUnit(completed, |group|);
    var revenue := SumCost(group);
    TechnicianReport(name, |group|, completed, |Where(group, NotCompleted)|,
                     Average(completed as real, |group|), revenue, Average(revenue, |group|), range)
  }

  /** The set of technician names occurring in `ts`. */
  ghost function TechnicianNames(ts: seq<Ticket>): set<string> {
    set t | t in ts :: t.technicianName
  }

  /** Appending a ticket to its technician's list (a new, empty list when absent) keeps every
      list equal to that technician's tickets. */
  lemma GroupStep(prefix: seq<Ticket>, x: Ticket, groups: map<string, seq<Ticket>>)
    requires forall n :: n in groups <==> n in TechnicianNames(prefix)
    requires forall n :: n in groups ==> groups[n] == Where(prefix, TechnicianIs(n))
    ensures var g := if x.technicianName in groups then groups[x.technicianName] else [];
            var next := groups[x.technicianName := g + [x]];
            && (forall n :: n in next <==> n in TechnicianNames(prefix + [x]))
            && (forall n :: n in next ==> next[n] == Where(prefix + [x], TechnicianIs(n)))
  {
    var name := x.technicianName;
    var g := if name in groups then groups[name] else [];
    assert g == Where(prefix, TechnicianIs(name)) by {
      if name !in groups {
        forall t | t in prefix ensures !Holds(TechnicianIs(name), t) {
          assert t.technicianName in TechnicianNames(prefix);
        }
        WhereNone(prefix, TechnicianIs(name));
      }
    }
    TechnicianNamesSnoc(prefix, x);
    TechnicianWhereSnoc(prefix, x);
  }

  lemma TechnicianNamesSnoc(prefix: seq<Ticket>, x: Ticket)
    ensures TechnicianNames(prefix + [x]) == TechnicianNames(prefix) + {x.technicianName}
  {
    assert forall t :: t in prefix + [x] <==> t in prefix || t == x;
  }

  lemma TechnicianWhereSnoc(prefix: seq<Ticket>, x: Ticket)
    ensures forall n :: Where(prefix + [x], TechnicianIs(n))
                        == if n == x.technicianName then Where(prefix, TechnicianIs(n)) + [x] else Where(prefix, TechnicianIs(n))
  {
    forall n ensures Where(prefix + [x], TechnicianIs(n))
                     == if n == x.technicianName then Where(prefix, TechnicianIs(n)) + [x] else Where(prefix, TechnicianIs(n)) {
      WhereSnoc(prefix, x, TechnicianIs(n));
    }
  }

  /** The technician map of the source: its keys in insertion order and each key's tickets. */
  method GroupByTechnician(ts: seq<Ticket>) returns (names: seq<string>, groups: map<string, seq<Ticket>>)
    ensures NoDuplicateNames(names)
    ensures forall n :: n in names <==> n in groups
    ensures forall n :: n in groups <==> n in TechnicianNames(ts)
    ensures forall n :: n in groups ==> groups[n] == Where(ts, TechnicianIs(n))
  {
    names := [];
    groups := map[];
    var i := 0;
    while i < |ts|
      invariant 0 <= i <= |ts|
      invariant NoDuplicateNames(names)
      invariant forall n :: n in names <==> n in groups
      invariant forall n :: n in groups <==> n in TechnicianNames(ts[..i])
      invariant forall n :: n in groups ==> groups[n] == Where(ts[..i], TechnicianIs(n))
    {
      var ticket := ts[i];
      assert ts[..i + 1] == ts[..i] + [ticket];
      GroupStep(ts[..i], ticket, groups);
      if ticket.technicianName !in groups {
        groups := groups[ticket.technicianName := []];
        names := names + [ticket.technicianName];
      }
      groups := groups[ticket.technicianName := groups[ticket.technicianName] + [ticket]];
      i := i + 1;
    }
    assert ts[..i] == ts;
  }

  /** The report entries, one per name, in the order of `names`. */
  function TechnicianEntries(names: seq<string>, groups: map<string, seq<Ticket>>, range: DateRange): (rs: seq<TechnicianReport>)
    requires forall n :: n in names ==> n in groups
    ensures |rs| == |names|
    ensures forall k :: 0 <= k < |names| ==> rs[k] == TechnicianEntry(names[k], groups[names[k]], range)
    decreases |names|
  {
    if names == [] then []
    else [TechnicianEntry(names[0], groups[names[0]], range)] + TechnicianEntries(names[1..], groups, range)
  }

  function RevenueKey(r: TechnicianReport): real { r.totalRevenue }
  function TicketCountKey(r: TechnicianReport): real { r.ticketCount as real }
  function TechnicianKey(r: TechnicianReport): string { r.technicianName }

  lemma {:induction false} TicketCountsOfEntries(names: seq<string>, ts: seq<Ticket>,
                                                 groups: map<string, seq<Ticket>>, range: DateRange)
    requires forall n :: n in names ==> n in groups && groups[n] == Where(ts, TechnicianIs(n))
    ensures SumKey(TechnicianEntries(names, groups, range), TicketCountKey) == CountOver(ts, TechnicianIsEach(names)) as real
    decreases |names|
  {
    if names != [] {
      TicketCountsOfEntries(names[1..], ts, groups, range);
      assert TechnicianEntries(names, groups, range)[1..] == TechnicianEntries(names[1..], groups, range);
      assert TechnicianIsEach(names)[1..] == TechnicianIsEach(names[1..]);
    }
  }

  /** Every ticket in range is counted under exactly one technician. */
  lemma EntriesCountEveryTicket(ts: seq<Ticket>, names: seq<string>, groups: map<string, seq<Ticket>>, range: DateRange)
    requires NoDuplicateNames(names)
    requires forall n :: n in names <==> n in TechnicianNames(ts)
    requires forall n :: n in names ==> n in groups && groups[n] == Where(ts, TechnicianIs(n))
    ensures SumKey(TechnicianEntries(names, groups, range), TicketCountKey) == |ts| as real
  {
    TicketCountsOfEntries(names, ts, groups, range);
    forall t | t in ts ensures HoldCount(TechnicianIsEach(names), t) == 1 {
      assert t.technicianName in TechnicianNames(ts);
      TechnicianNamesPartition(names, t);
    }
    PartitionTotals(ts, TechnicianIsEach(names));
  }

  /** Reports named after distinct names, in order, carry exactly those names, once each. */
  lemma NamedInOrder(rs: seq<TechnicianReport>, names: seq<string>)
    requires NoDuplicateNames(names)
    requires |rs| == |names| && forall k :: 0 <= k < |names| ==> TechnicianKey(rs[k]) == names[k]
    ensures DistinctBy(rs, TechnicianKey)
    ensures forall n :: n in KeysOf(rs, TechnicianKey) <==> n in names
  {
    forall n ensures n in KeysOf(rs, TechnicianKey) <==> n in names {
      if n in names {
        var k :| 0 <= k < |names| && names[k] == n;
        assert rs[k] in rs;
      }
      if n in KeysOf(rs, TechnicianKey) {
        var r :| r in rs && TechnicianKey(r) == n;
        var k :| 0 <= k < |rs| && rs[k] == r;
        assert names[k] == n;
      }
    }
  }

  /** The entries list each technician in range once. */
  lemma EntriesNameRange(names: seq<string>, groups: map<string, seq<Ticket>>, range: DateRange)
    requires NoDuplicateNames(names)
    requires forall n :: n in names ==> n in groups
    ensures DistinctBy(TechnicianEntries(names, groups, range), TechnicianKey)
    ensures forall n :: n in KeysOf(TechnicianEntries(names, groups, range), TechnicianKey) <==> n in names
  {
    NamedInOrder(TechnicianEntries(names, groups, range), names);
  }

  /** Each entry holds the figures of exactly its technician's tickets in range. */
  lemma EntriesFigures(ts: seq<Ticket>, names: seq<string>, groups: map<string, seq<Ticket>>, range: DateRange)
    requires forall n :: n in names ==> n in groups && groups[n] == Where(ts, TechnicianIs(n))
    ensures forall r :: r in TechnicianEntries(names, groups, range) ==>
              r == TechnicianEntry(r.technicianName, Where(ts, TechnicianIs(r.technicianName)), range)
  {
  }

  /** `generateTechnicianReport` on the tickets of the range: group by technician, compute each
      group's figures, sort by revenue, highest first. */
  method GenerateTechnicianReport(store: Storage.TicketStore, range: DateRange) returns (rs: seq<TechnicianReport>)
    ensures SortedDesc(rs, RevenueKey)
    ensures DistinctBy(rs, TechnicianKey)
    ensures KeysOf(rs, TechnicianKey) == TechnicianNames(InRange(store.AllTickets(), range))
    ensures forall r :: r in rs ==> r == TechnicianEntry(r.technicianName, Where(InRange(store.AllTickets(), range), TechnicianIs(r.technicianName)), range)
    ensures SumKey(rs, TicketCountKey) == |InRange(store.AllTickets(), range)| as real
  {
    var inRange := store.FilterTickets(RangeOptions(range));
    var names, groups := GroupByTechnician(inRange);
    var entries := TechnicianEntries(names, groups, range);
    rs := SortDesc(entries, RevenueKey);
    assert DistinctBy(rs, TechnicianKey) && KeysOf(rs, TechnicianKey) == TechnicianNames(inRange) by {
      EntriesNameRange(names, groups, range);
      Reordered(entries, rs, TechnicianKey);
    }
    assert forall r :: r in rs ==> r == TechnicianEntry(r.technicianName, Where(inRange, TechnicianIs(r.technicianName)), range) by {
      EntriesFigures(inRange, names, groups, range);
      Reordered(entries, rs, TechnicianKey);
    }
    assert SumKey(rs, TicketCountKey) == |inRange| as real by {
      SumKeySort(entries, RevenueKey, TicketCountKey);
      EntriesCountEveryTicket(inRange, names, groups, range);
    }
  }

  // ---------------------------------------------------------------------------------------
  // Product report

  datatype ProductReport = ProductReport(
    productType: ProductType,
    repairCount: nat,
    failureRate: real,      // completed / repairCount, whatever the name says
    averageCost: real,
    totalRevenue: real,
    dateRange: DateRange)

  /** The figures of one product type's tickets. */
  function ProductEntry(pt: ProductType, group: seq<Ticket>, range: DateRange): (r: ProductReport)
    ensures r.productType == pt && r.repairCount == |group| && r.dateRange == range
    ensures r.failureRate == Average(|Where(group, StatusIs(Completed))| as real, r.repairCount)
    ensures 0.0 <= r.failureRate <= 1.0
    ensures r.totalRevenue == SumCost(group)
    ensures r.averageCost == Average(r.totalRevenue, r.repairCount)
  {
    var completed := |Where(group, StatusIs(Completed))|;
    RatioInUnit(completed, |group|);
    var revenue := SumCost(group);
    ProductReport(pt, |group|, Average(completed as real, |group|), Average(revenue, |group|), revenue, range)
  }

  /** The product map of the source: a list for every product type, filled in ticket order. */
  method GroupByProduct(ts: seq<Ticket>) returns (groups: map<ProductType, seq<Ticket>>)
    ensures forall pt :: pt in groups && groups[pt] == Where(ts, ProductIs(pt))
  {
    forall pt ensures pt in AllProductTypes {
      EveryProductTypeListed(pt);
    }
    groups := map pt | pt in AllProductTypes :: [];
    var i := 0;
    while i < |ts|
      invariant 0 <= i <= |ts|
      invariant forall pt :: pt in groups && groups[pt] == Where(ts[..i], ProductIs(pt))
    {
      var ticket := ts[i];
      assert ts[..i + 1] == ts[..i] + [ticket];
      forall pt ensures Where(ts[..i + 1], ProductIs(pt))
                        == if pt == ticket.productType then Where(ts[..i], ProductIs(pt)) + [ticket]
                           else Where(ts[..i], ProductIs(pt)) {
        WhereSnoc(ts[..i], ticket, ProductIs(pt));
      }
      groups := groups[ticket.productType := groups[ticket.productType] + [ticket]];
      i := i + 1;
    }
    assert ts[..i] == ts;
  }

  /** `Object.entries(productMap).filter(...).map(...)`: the figures of the non-empty groups,
      in the order of `types`. */
  function ProductEntries(types: seq<ProductType>, groups: map<ProductType, seq<Ticket>>, range: DateRange): (rs: seq<ProductReport>)
    requires forall pt :: pt in types ==> pt in groups
    ensures forall r :: r in rs ==> r.productType in types && r == ProductEntry(r.productType, groups[r.productType], range)
    ensures forall r :: r in rs ==> r.repairCount > 0
    decreases |types|
  {
    if types == [] then []
    else
      var rest := ProductEntries(types[1..], groups, range);
      var pt := types[0];
      var head := if |groups[pt]| > 0 then [ProductEntry(pt, groups[pt], range)] else [];
      assert forall r :: r in head + rest <==> r in head || r in rest;
      head + rest
  }

  /** The entries are exactly the non-empty groups. */
  lemma {:induction false} ProductEntriesKeys(types: seq<ProductType>, groups: map<ProductType, seq<Ticket>>, range: DateRange)
    requires forall pt :: pt in types ==> pt in groups
    ensures forall pt :: pt in KeysOf(ProductEntries(types, groups, range), ProductKey) <==> pt in types && |groups[pt]| > 0
    decreases |types|
  {
    if types != [] {
      ProductEntriesKeys(types[1..], groups, range);
      var rs := ProductEntries(types, groups, range);
      var rest := ProductEntries(types[1..], groups, range);
      var pt := types[0];
      forall q ensures q in KeysOf(rs, ProductKey) <==> q in types && |groups[q]| > 0 {
        if q == pt && |groups[pt]| > 0 {
          assert rs[0].productType == q;
        }
        if q in types[1..] && |groups[q]| > 0 {
          var r :| r in rest && r.productType == q;
          assert r in rs;
        }
      }
    }
  }

  function RepairCountKey(r: ProductReport): real { r.repairCount as real }
  function ProductRevenueKey(r: ProductReport): real { r.totalRevenue }
  function ProductKey(r: ProductReport): ProductType { r.productType }

  lemma {:induction false} ProductEntriesDistinct(types: seq<ProductType>, groups: map<ProductType, seq<Ticket>>, range: DateRange)
    requires forall pt :: pt in types ==> pt in groups
    requires forall i, j :: 0 <= i < j < |types| ==> types[i] != types[j]
    ensures DistinctBy(ProductEntries(types, groups, range), ProductKey)
    decreases |types|
  {
    if types != [] {
      var rs := ProductEntries(types, groups, range);
      var rest := ProductEntries(types[1..], groups, range);
      ProductEntriesDistinct(types[1..], groups, range);
      forall r | r in rest ensures r.productType != types[0] {
        assert r.productType in types[1..];
      }
      if |groups[types[0]]| > 0 {
        forall i, j | 0 <= i < j < |rs| ensures ProductKey(rs[i]) != ProductKey(rs[j]) {
          assert rs[j] == rest[j - 1];
          if i > 0 {
            assert rs[i] == rest[i - 1];
          } else {
            assert rest[j - 1] in rest;
          }
        }
      }
    }
  }

  /** The first type's group adds its size and its revenue to the entries' totals (nothing
      when it is empty). */
  lemma ProductEntriesStep(types: seq<ProductType>, groups: map<ProductType, seq<Ticket>>, range: DateRange)
    requires types != [] && forall pt :: pt in types ==> pt in groups
    ensures SumKey(ProductEntries(types, groups, range), RepairCountKey)
            == |groups[types[0]]| as real + SumKey(ProductEntries(types[1..], groups, range), RepairCountKey)
    ensures SumKey(ProductEntries(types, groups, range), ProductRevenueKey)
            == SumCost(groups[types[0]]) + SumKey(ProductEntries(types[1..], groups, range), ProductRevenueKey)
  {
    var pt := types[0];
    var rest := ProductEntries(types[1..], groups, range);
    if |groups[pt]| > 0 {
      var e := ProductEntry(pt, groups[pt], range);
      assert ProductEntries(types, groups, range) == [e] + rest;
      SumKeyCons(e, rest, RepairCountKey);
      SumKeyCons(e, rest, ProductRevenueKey);
    } else {
      assert ProductEntries(types, groups, range) == rest;
      assert groups[pt] == [];
    }
  }

  lemma {:induction false} ProductEntriesTotals(ts: seq<Ticket>, types: seq<ProductType>,
                                                groups: map<ProductType, seq<Ticket>>, range: DateRange)
    requires forall pt :: pt in groups && groups[pt] == Where(ts, ProductIs(pt))
    ensures SumKey(ProductEntries(types, groups, range), RepairCountKey) == CountOver(ts, ProductIsEach(types)) as real
    ensures SumKey(ProductEntries(types, groups, range), ProductRevenueKey) == RevenueOver(ts, ProductIsEach(types))
    decreases |types|
  {
    if types != [] {
      ProductEntriesTotals(ts, types[1..], groups, range);
      ProductEntriesStep(types, groups, range);
      var cs := ProductIsEach(types);
      assert cs[0] == ProductIs(types[0]) && cs[1..] == ProductIsEach(types[1..]);
    }
  }

  /** `generateProductReport` on the tickets of the range: group by product type, compute the
      figures of each non-empty group, sort by repair count, highest first. */
  method GenerateProductReport(store: Storage.TicketStore, range: DateRange) returns (rs: seq<ProductReport>)
    ensures SortedDesc(rs, RepairCountKey)
    ensures DistinctBy(rs, ProductKey)
    ensures forall pt :: pt in KeysOf(rs, ProductKey) <==> |Where(InRange(store.AllTickets(), range), ProductIs(pt))| > 0
    ensures forall r :: r in rs ==> r == ProductEntry(r.productType, Where(InRange(store.AllTickets(), range), ProductIs(r.productType)), range)
    ensures SumKey(rs, RepairCountKey) == |InRange(store.AllTickets(), range)| as real
    ensures SumKey(rs, ProductRevenueKey) == SumCost(InRange(store.AllTickets(), range))
  {
    var inRange := store.FilterTickets(RangeOptions(range));
    var groups := GroupByProduct(inRange);
    var entries := ProductEntries(AllProductTypes, groups, range);
    rs := SortDesc(entries, RepairCountKey);
    assert DistinctBy(rs, ProductKey) && KeysOf(rs, ProductKey) == KeysOf(entries, ProductKey)
           && forall r :: r in rs <==> r in entries by {
      AllProductTypesDistinct();
      ProductEntriesDistinct(AllProductTypes, groups, range);
      Reordered(entries, rs, ProductKey);
    }
    assert forall r :: r in rs ==> r == ProductEntry(r.productType, Where(inRange, ProductIs(r.productType)), range);
    assert forall pt :: pt in KeysOf(rs, ProductKey) <==> |Where(inRange, ProductIs(pt))| > 0 by {
      ProductEntriesKeys(AllProductTypes, groups, range);
      forall pt ensures pt in AllProductTypes {
        EveryProductTypeListed(pt);
      }
    }
    assert SumKey(rs, RepairCountKey) == |inRange| as real && SumKey(rs, ProductRevenueKey) == SumCost(inRange) by {
      SumKeySort(entries, RepairCountKey, RepairCountKey);
      SumKeySort(entries, RepairCountKey, ProductRevenueKey);
      ProductEntriesTotals(inRange, AllProductTypes, groups, range);
      forall t | t in inRange ensures HoldCount(ProductIsEach(AllProductTypes), t) == 1 {
        EveryTicketOneProductType(t);
      }
      PartitionTotals(inRange, ProductIsEach(AllProductTypes));
    }
  }

  // ---------------------------------------------------------------------------------------
  // Client report

  datatype ClientReport = ClientReport(
    clientName: string,
    clientPhone: string,
    clientEmail: string,
    ticketCount: nat,
    totalSpent: real,
    lastServiceDate: Timestamp,
    firstServiceDate: Timestamp,
    averageTicketValue: real,
    tickets: seq<Ticket>)

  /** The first receipt date after sorting by date: the earliest one. */
  function EarliestReceived(ts: seq<Ticket>): (d: Timestamp)
    requires ts != []
    ensures exists t :: t in ts && t.dateReceived == d
    ensures forall t :: t in ts ==> d <= t.dateReceived
    decreases |ts|
  {
    if |ts| == 1 then ts[0].dateReceived
    else
      var rest := EarliestReceived(ts[1..]);
      assert forall t :: t in ts <==> t == ts[0] || t in ts[1..];
      if ts[0].dateReceived <= rest then ts[0].dateReceived else rest
  }

  /** The last receipt date after sorting by date: the latest one. */
  function LatestReceived(ts: seq<Ticket>): (d: Timestamp)
    requires ts != []
    ensures exists t :: t in ts && t.dateReceived == d
    ensures forall t :: t in ts ==> t.dateReceived <= d
    decreases |ts|
  {
    if |ts| == 1 then ts[0].dateReceived
    else
      var rest := LatestReceived(ts[1..]);
      assert forall t :: t in ts <==> t == ts[0] || t in ts[1..];
      if ts[0].dateReceived >= rest then ts[0].dateReceived else rest
  }

  /** `generateClientReport` over the whole collection: `None` (null) when no ticket's client
      name equals the query up to case, otherwise the figures of the matching tickets, with the
      contact details of the first match. */
  function GenerateClientReport(all: seq<Ticket>, clientName: string): (r: Option<ClientReport>)
    ensures r.None? <==> forall t :: t in all ==> ToLower(t.clientName) != ToLower(clientName)
    ensures r.Some? ==> var c := r.value;
              && c.tickets == Where(all, ClientNameIs(clientName))
              && c.ticketCount == |c.tickets| > 0
              && c.totalSpent == SumCost(c.tickets)
              && c.averageTicketValue == Average(c.totalSpent, c.ticketCount)
              && ToLower(c.clientName) == ToLower(clientName)
              && c.clientName == c.tickets[0].clientName
              && c.clientPhone == c.tickets[0].clientPhone
              && c.clientEmail == c.tickets[0].clientEmail
              && c.firstServiceDate == EarliestReceived(c.tickets)
              && c.lastServiceDate == LatestReceived(c.tickets)
              && c.firstServiceDate <= c.lastServiceDate
              && forall t :: t in c.tickets ==> c.firstServiceDate <= t.dateReceived <= c.lastServiceDate
  {
    var matches := Where(all, ClientNameIs(clientName));
    WhereMembers(all, ClientNameIs(clientName));
    if |matches| == 0 then
      assert forall t :: t in all ==> ToLower(t.clientName) != ToLower(clientName) by {
        forall t | t in all ensures ToLower(t.clientName) != ToLower(clientName) {
          assert t !in matches;
        }
      }
      None
    else
      var first := matches[0];
      assert first in matches;
      var totalSpent := SumCost(matches);
      Some(ClientReport(first.clientName, first.clientPhone, first.clientEmail, |matches|, totalSpent,
                        LatestReceived(matches), EarliestReceived(matches),
                        Average(totalSpent, |matches|), matches))
  }

  // ---------------------------------------------------------------------------------------
  // Name lists

  function ClientNameList(ts: seq<Ticket>): (names: seq<string>)
    ensures |names| == |ts|
    ensures forall i :: 0 <= i < |ts| ==> names[i] == ts[i].clientName
  {
    seq(|ts|, i requires 0 <= i < |ts| => ts[i].clientName)
  }

  function TechnicianNameList(ts: seq<Ticket>): (names: seq<string>)
    ensures |names| == |ts|
    ensures forall i :: 0 <= i < |ts| ==> names[i] == ts[i].technicianName
  {
    seq(|ts|, i requires 0 <= i < |ts| => ts[i].technicianName)
  }

  ghost function ClientNames(ts: seq<Ticket>): set<string> {
    set t | t in ts :: t.clientName
  }

  /** `getAllClientNames`: every client name of the collection once, in ascending order. */
  function GetAllClientNames(all: seq<Ticket>): (r: seq<string>)
    ensures StrictlySorted(r)
    ensures forall n :: n in r <==> n in ClientNames(all)
  {
    var names := ClientNameList(all);
    assert forall n :: n in names <==> n in ClientNames(all) by {
      forall n ensures n in names <==> n in ClientNames(all) {
        if n in names {
          var i :| 0 <= i < |names| && names[i] == n;
          assert all[i] in all;
        }
        if n in ClientNames(all) {
          var t :| t in all && t.clientName == n;
          var i :| 0 <= i < |all| && all[i] == t;
          assert names[i] == n;
        }
      }
    }
    SortedDistinct(names)
  }

  /** `getAllTechnicianNames`: every technician name of the collection once, in ascending order. */
  function GetAllTechnicianNames(all: seq<Ticket>): (r: seq<string>)
    ensures StrictlySorted(r)
    ensures forall n :: n in r <==> n in TechnicianNames(all)
  {
    var names := TechnicianNameList(all);
    assert forall n :: n in names <==> n in TechnicianNames(all) by {
      forall n ensures n in names <==> n in TechnicianNames(all) {
        if n in names {
          var i :| 0 <= i < |names| && names[i] == n;
          assert all[i] in all;
        }
        if n in TechnicianNames(all) {
          var t :| t in all && t.technicianName == n;
          var i :| 0 <= i < |all| && all[i] == t;
          assert names[i] == n;
        }
      }
    }
    SortedDistinct(names)
  }

  // ---------------------------------------------------------------------------------------
  // Dashboard

  datatype DashboardStats = DashboardStats(
    totalTickets: nat,
    completedTickets: nat,
    pendingTickets: nat,
    todayTickets: nat,
    totalRevenue: real,
    averageTicketValue: real)

  /** `getDashboardStats` over the whole collection, `now` being the current time: today's
      tickets are those received on the same calendar day. The average divides the completed
      revenue by the number of all tickets, as the source does. */
  function GetDashboardStats(all: seq<Ticket>, now: Timestamp): (s: DashboardStats)
    ensures s.totalTickets == |all|
    ensures s.completedTickets == |Where(all, StatusIs(Completed))|
    ensures s.completedTickets + s.pendingTickets == s.totalTickets
    ensures s.todayTickets == |Where(all, ReceivedOnDay(DayOf(now)))| <= s.totalTickets
    ensures s.totalRevenue == SumCost(Where(all, StatusIs(Completed)))
    ensures s.averageTicketValue == Average(s.totalRevenue, s.totalTickets)
  {
    CompletedOrOpen(all);
    var todayTickets := Where(all, ReceivedOnDay(DayOf(now)));
    var completed := Where(all, StatusIs(Completed));
    var pending := Where(all, NotCompleted);
    var totalRevenue := SumCost(completed);
    DashboardStats(|all|, |completed|, |pending|, |todayTickets|, totalRevenue, Average(totalRevenue, |all|))
  }

  /** A revenue report whose range covers every stored ticket counts exactly the dashboard's
      completed tickets and their revenue. */
  lemma RevenueReportAgreesWithDashboard(all: seq<Ticket>, range: DateRange, now: Timestamp)
    requires range.start.Some? && range.end.Some? ==>
               forall t :: t in all ==> range.start.value <= t.dateReceived <= range.end.value
    ensures var inRange := InRange(all, range);
            var dashboard := GetDashboardStats(all, now);
            && |Where(inRange, StatusIs(Completed))| == dashboard.completedTickets
            && SumCost(Where(inRange, StatusIs(Completed))) == dashboard.totalRevenue
  {
    var o := RangeOptions(range);
    Storage.FilterMembership(all, o);
    forall t | t in all ensures Holds(AllOf(Storage.Criteria(o)), t) {
      Storage.CriteriaMeaning(o, t);
    }
    WhereKeepsAll(all, AllOf(Storage.Criteria(o)));
  }
}
