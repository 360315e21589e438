/** How the shared memory segment is laid out: a header, then desks, tickets, the table of daily
    ratios, and the per-service statistics, one behind the other. */
module Layout {
  import opened Office

  /** Sizes of the header and of one entry of each array, in bytes. */
  datatype Sizes = Sizes(header: nat, desk: nat, ticket: nat, ratio: nat, service: nat)

  datatype Plan = Plan(seats: nat, tickets: nat, days: nat)

  datatype Offsets = Offsets(desks: nat, tickets: nat, ratios: nat, services: nat)

  /** startSHM: each offset is the one before plus the length of the region before. */
  function Place(z: Sizes, p: Plan): Offsets {
    var desks := z.header;
    var tickets := desks + p.seats * z.desk;
    var ratios := tickets + p.tickets * z.ticket;
    var services := ratios + (p.days * p.seats) * z.ratio;
    Offsets(desks, tickets, ratios, services)
  }

  /** initSHM: the size asked of shmget. */
  function Allocated(z: Sizes, p: Plan): nat {
    z.header + p.seats * z.desk + p.tickets * z.ticket + (p.days * p.seats) * z.ratio + z.service * 6
  }

  /** Everything the program addresses in the segment. */
  datatype Entry = TheHeader | DeskAt(k: nat) | TicketAt(k: nat) | RatioAt(day: nat, k: nat) | ServiceAt(k: nat)

  predicate InPlan(p: Plan, e: Entry) {
    match e
    case TheHeader => true
    case DeskAt(k) => k < p.seats
    case TicketAt(k) => k < p.tickets
    case RatioAt(day, k) => day < p.days && k < p.seats
    case ServiceAt(k) => k < SERVICES
  }

  function Start(z: Sizes, p: Plan, e: Entry): nat {
    var o := Place(z, p);
    match e
    case TheHeader => 0
    case DeskAt(k) => o.desks + k * z.desk
    case TicketAt(k) => o.tickets + k * z.ticket
    case RatioAt(day, k) => o.ratios + (day * p.seats + k) * z.ratio
    case ServiceAt(k) => o.services + k * z.service
  }

  function Size(z: Sizes, e: Entry): nat {
    match e
    case TheHeader => z.header
    case DeskAt(_) => z.desk
    case TicketAt(_) => z.ticket
    case RatioAt(_, _) => z.ratio
    case ServiceAt(_) => z.service
  }

  // ----- arithmetic of one array

  /** Entry i of an array with n entries ends inside the array, and before entry j when i < j. */
  lemma EntryFits(i: nat, j: nat, size: nat)
    requires i < j
    ensures i * size + size <= j * size
  {
    assert (i + 1) * size <= j * size;
  }

  lemma RowFits(day: nat, k: nat, days: nat, seats: nat)
    requires day < days && k < seats
    ensures day * seats + k < days * seats
  {
    EntryFits(day, days, seats);
  }

  /** The rows of different days do not share an index. */
  lemma RowsApart(day: nat, k: nat, day': nat, k': nat, seats: nat)
    requires k < seats && k' < seats && (day != day' || k != k')
    ensures day * seats + k != day' * seats + k'
  {
    if day < day' {
      EntryFits(day, day', seats);
    } else if day' < day {
      EntryFits(day', day, seats);
    }
  }

  /** Position of the entry's region among the five. */
  function Rank(e: Entry): nat {
    match e
    case TheHeader => 0
    case DeskAt(_) => 1
    case TicketAt(_) => 2
    case RatioAt(_, _) => 3
    case ServiceAt(_) => 4
  }

  function RegionStart(z: Sizes, p: Plan, rank: nat): nat
    requires rank <= 5
  {
    var o := Place(z, p);
    if rank == 0 then 0
    else if rank == 1 then o.desks
    else if rank == 2 then o.tickets
    else if rank == 3 then o.ratios
    else if rank == 4 then o.services
    else Allocated(z, p)
  }

  /** Every entry lies in its own region; the regions follow each other and the last one ends
      exactly where the segment ends. */
  lemma StaysInRegion(z: Sizes, p: Plan, e: Entry)
    requires InPlan(p, e)
    ensures RegionStart(z, p, Rank(e)) <= Start(z, p, e)
    ensures Start(z, p, e) + Size(z, e) <= RegionStart(z, p, Rank(e) + 1)
  {
    match e
    case TheHeader =>
    case DeskAt(k) => EntryFits(k, p.seats, z.desk);
    case TicketAt(k) => EntryFits(k, p.tickets, z.ticket);
    case RatioAt(day, k) => RatioStays(z, p, day, k);
    case ServiceAt(k) => EntryFits(k, SERVICES, z.service);
  }

  lemma RatioStays(z: Sizes, p: Plan, day: nat, k: nat)
    requires day < p.days && k < p.seats
    ensures var i := day * p.seats + k;
            0 <= i * z.ratio && i * z.ratio + z.ratio <= p.days * p.seats * z.ratio
  {
    RowFits(day, k, p.days, p.seats);
    EntryFits(day * p.seats + k, p.days * p.seats, z.ratio);
  }

  lemma RegionsAscend(z: Sizes, p: Plan, a: nat, b: nat)
    requires a <= b <= 5
    ensures RegionStart(z, p, a) <= RegionStart(z, p, b)
  {
  }

  predicate Apart(z: Sizes, p: Plan, e: Entry, f: Entry) {
    Start(z, p, e) + Size(z, e) <= Start(z, p, f) || Start(z, p, f) + Size(z, f) <= Start(z, p, e)
  }

  /** Two different entries never overlap, and none leaves the allocated segment. */
  lemma EntriesApart(z: Sizes, p: Plan, e: Entry, f: Entry)
    requires InPlan(p, e) && InPlan(p, f) && e != f
    ensures Apart(z, p, e, f)
    ensures Start(z, p, e) + Size(z, e) <= Allocated(z, p)
  {
    StaysInRegion(z, p, e);
    StaysInRegion(z, p, f);
    RegionsAscend(z, p, Rank(e) + 1, 5);
    if Rank(e) < Rank(f) {
      RegionsAscend(z, p, Rank(e) + 1, Rank(f));
    } else if Rank(f) < Rank(e) {
      RegionsAscend(z, p, Rank(f) + 1, Rank(e));
    } else {
      SameRegionApart(z, p, e, f);
    }
  }

  lemma SameRegionApart(z: Sizes, p: Plan, e: Entry, f: Entry)
    requires InPlan(p, e) && InPlan(p, f) && e != f && Rank(e) == Rank(f)
    ensures Apart(z, p, e, f)
  {
    match e
    case TheHeader =>
    case DeskAt(k) => ElementsApart(k, f.k, z.desk);
    case TicketAt(k) => ElementsApart(k, f.k, z.ticket);
    case RatioAt(day, k) =>
      RowsApart(day, k, f.day, f.k, p.seats);
      ElementsApart(day * p.seats + k, f.day * p.seats + f.k, z.ratio);
    case ServiceAt(k) => ElementsApart(k, f.k, z.service);
  }

  lemma ElementsApart(i: nat, j: nat, size: nat)
    requires i != j
    ensures i * size + size <= j * size || j * size + size <= i * size
  {
    EntryFits(if i < j then i else j, if i < j then j else i, size);
  }
}
