/** The payments page: the package list filtered by payment status and by a
    search over order number, package id and customer name, and the due-date
    badge of each unpaid package. */
module Payments {
  import opened Wrappers
  import opened Seqs
  import opened Text

  /** A shipment package as the page receives it; the text fields may be
      missing, and `dueAt` is the due time in milliseconds since the epoch. */
  datatype Package = Package(orderNumber: Option<string>, shipmentPackageId: Option<string>,
                             customerName: Option<string>, paymentStatus: string, dueAt: Option<int>)

  datatype PackageFilter = AllPackages | PaidOnly | UnpaidOnly

  /** The payment status a filter button selects. */
  function StatusName(f: PackageFilter): string
    requires f != AllPackages
  {
    if f == PaidOnly then "paid" else "unpaid"
  }

  predicate MatchesFilter(pkg: Package, f: PackageFilter) {
    f == AllPackages || pkg.paymentStatus == StatusName(f)
  }

  /** `field?.toLowerCase().includes(query.toLowerCase())`: a missing field
      never matches. */
  predicate FieldMatches(field: Option<string>, query: string) {
    field.Some? && Contains(Lower(field.value), Lower(query))
  }

  predicate MatchesSearch(pkg: Package, query: string) {
    FieldMatches(pkg.orderNumber, query) || FieldMatches(pkg.shipmentPackageId, query)
    || FieldMatches(pkg.customerName, query)
  }

  function Shown(f: PackageFilter, query: string): Package -> bool {
    pkg => MatchesFilter(pkg, f) && MatchesSearch(pkg, query)
  }

  /** `filteredPackages` */
  function FilteredPackages(packages: seq<Package>, f: PackageFilter, query: string): (r: seq<Package>)
    ensures IsSubsequence(r, packages)
    ensures forall pkg :: pkg in r <==> pkg in packages && MatchesFilter(pkg, f) && MatchesSearch(pkg, query)
  {
    FilterIsSubsequence(packages, Shown(f, query));
    Filter(packages, Shown(f, query))
  }

  /** A package with none of the three searched fields is never listed, not
      even before anything is typed. */
  lemma NoFieldsHidden(packages: seq<Package>, f: PackageFilter, query: string, pkg: Package)
    requires pkg.orderNumber.None? && pkg.shipmentPackageId.None? && pkg.customerName.None?
    ensures pkg !in FilteredPackages(packages, f, query)
  {
  }

  /** With an empty search the list is every package of the chosen status
      that has at least one of the searched fields. */
  lemma EmptySearch(packages: seq<Package>, f: PackageFilter)
    ensures forall pkg :: pkg in FilteredPackages(packages, f, "") <==>
      pkg in packages && MatchesFilter(pkg, f)
      && (pkg.orderNumber.Some? || pkg.shipmentPackageId.Some? || pkg.customerName.Some?)
  {
    forall pkg: Package
      ensures MatchesSearch(pkg, "") <==> pkg.orderNumber.Some? || pkg.shipmentPackageId.Some? || pkg.customerName.Some?
    {
      if pkg.orderNumber.Some? { ContainsEmpty(Lower(pkg.orderNumber.value)); }
      if pkg.shipmentPackageId.Some? { ContainsEmpty(Lower(pkg.shipmentPackageId.value)); }
      if pkg.customerName.Some? { ContainsEmpty(Lower(pkg.customerName.value)); }
    }
  }

  /** No package is listed under both paid and unpaid: together the two lists
      are never longer than the full list. */
  lemma {:induction false} StatusSplit(packages: seq<Package>, query: string)
    ensures |FilteredPackages(packages, PaidOnly, query)| + |FilteredPackages(packages, UnpaidOnly, query)|
            <= |FilteredPackages(packages, AllPackages, query)|
  {
    if packages != [] {
      StatusSplit(packages[1..], query);
    }
  }

  // ---------------------------------------------------------------------
  // Due-date badge

  const DayMs := 86400000

  /** `Math.ceil((due - now) / 86400000)` */
  function DaysLeft(due: int, now: int): (r: int)
    ensures (r - 1) * DayMs < due - now <= r * DayMs
  {
    -((now - due) / DayMs)
  }

  datatype DueBadge = NoBadge | DueIn(days: int) | Overdue(daysLate: int)

  /** The badge of a package: only an unpaid package with a due date has one;
      it is overdue when the rounded-up day count is negative, and then shows
      that count without its sign. */
  function Badge(pkg: Package, now: int): DueBadge {
    if pkg.dueAt.Some? && pkg.paymentStatus != "paid" then
      var days := DaysLeft(pkg.dueAt.value, now);
      if days < 0 then Overdue(-days) else DueIn(days)
    else NoBadge
  }

  /** A package is shown overdue exactly when it is unpaid, has a due date,
      and at least a whole day has passed since that date. */
  lemma OverdueIffDayPassed(pkg: Package, now: int)
    ensures Badge(pkg, now).Overdue? <==>
      pkg.dueAt.Some? && pkg.paymentStatus != "paid" && now - pkg.dueAt.value >= DayMs
  {
    if pkg.dueAt.Some? {
      var d := DaysLeft(pkg.dueAt.value, now);
      if now - pkg.dueAt.value >= DayMs {
        assert d * DayMs < 0;
      } else {
        assert d * DayMs > -DayMs;
      }
    }
  }

  /** The overdue count is a positive number of days: the days late, rounded
      down. */
  lemma OverdueCount(pkg: Package, now: int)
    requires Badge(pkg, now).Overdue?
    ensures Badge(pkg, now).daysLate >= 1
    ensures Badge(pkg, now).daysLate * DayMs <= now - pkg.dueAt.value < (Badge(pkg, now).daysLate + 1) * DayMs
  {
  }

  /** Less than a day past the due time the badge still reads "0 days left". */
  lemma LessThanDayLate(pkg: Package, now: int)
    requires pkg.dueAt.Some? && pkg.paymentStatus != "paid"
    requires 0 <= now - pkg.dueAt.value < DayMs
    ensures Badge(pkg, now) == DueIn(0)
  {
    var d := DaysLeft(pkg.dueAt.value, now);
    assert (d - 1) * DayMs < 0 && -DayMs < d * DayMs;
  }

  /** A paid package, or one without a due date, has no badge. */
  lemma NoBadgeWhenPaidOrUndated(pkg: Package, now: int)
    requires pkg.paymentStatus == "paid" || pkg.dueAt.None?
    ensures Badge(pkg, now) == NoBadge
  {
  }
}
