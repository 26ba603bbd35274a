/** Cumulative milestone funding (funding-service.ts). */
module Funding {
  import opened Basics
  import opened EscrowRows

  /** The sort comparator: sort order, then identifier. */
  predicate UpTo(a: Milestone, b: Milestone) {
    a.sortOrder < b.sortOrder || (a.sortOrder == b.sortOrder && a.id <= b.id)
  }

  predicate Sorted(ms: seq<Milestone>) {
    forall i, j | 0 <= i < j < |ms| :: UpTo(ms[i], ms[j])
  }

  function InsertMilestone(m: Milestone, ms: seq<Milestone>): seq<Milestone> {
    if ms == [] then [m] else if UpTo(m, ms[0]) then [m] + ms else [ms[0]] + InsertMilestone(m, ms[1..])
  }

  /** The library sort. */
  function SortMilestones(ms: seq<Milestone>): seq<Milestone> {
    if ms == [] then [] else InsertMilestone(ms[0], SortMilestones(ms[1..]))
  }

  predicate Promotable(s: MilestoneStatus) {
    s == PLANNED || s == AWAITING_FUNDS
  }

  function Sum(ms: seq<Milestone>): int {
    if ms == [] then 0 else Sum(ms[..|ms| - 1]) + ms[|ms| - 1].amountWei
  }

  function SumTo(ms: seq<Milestone>, i: nat): int
    requires i < |ms|
  {
    Sum(ms[..i + 1])
  }

  datatype Update = Update(id: nat, status: MilestoneStatus, fundedAt: int)

  /** The rows the allocation promotes, in sort order. */
  function PromotedRows(sorted: seq<Milestone>, fundedWei: int): seq<Milestone> {
    if sorted == [] then []
    else
      var last := sorted[|sorted| - 1];
      PromotedRows(sorted[..|sorted| - 1], fundedWei) +
      (if Sum(sorted) <= fundedWei && Promotable(last.status) then [last] else [])
  }

  function FundedAt(m: Milestone, now: int): int {
    if m.fundedAt.Some? then m.fundedAt.value else now
  }

  function UpdateOf(m: Milestone, now: int): Update {
    Update(m.id, FUNDED, FundedAt(m, now))
  }

  function UpdatesOf(rows: seq<Milestone>, now: int): seq<Update> {
    seq(|rows|, i requires 0 <= i < |rows| => UpdateOf(rows[i], now))
  }

  method MilestoneFundingSyncUpdates(milestones: seq<Milestone>, fundedWei: int, now: int)
    returns (updates: seq<Update>)
    ensures updates == UpdatesOf(PromotedRows(SortMilestones(milestones), fundedWei), now)
  {
    var sorted := SortMilestones(milestones);
    updates := [];
    var cumulative := 0;
    for i := 0 to |sorted|
      invariant cumulative == Sum(sorted[..i])
      invariant updates == UpdatesOf(PromotedRows(sorted[..i], fundedWei), now)
    {
      assert sorted[..i + 1][..i] == sorted[..i];
      cumulative := cumulative + sorted[i].amountWei;
      if fundedWei < cumulative {
        continue;
      }
      if sorted[i].status == PLANNED || sorted[i].status == AWAITING_FUNDS {
        updates := updates + [UpdateOf(sorted[i], now)];
      }
    }
    assert sorted[..|sorted|] == sorted;
  }

  // ---------------------------------------------------------------- The rows after the updates

  function Applied(m: Milestone, u: Update): Milestone {
    if u.id == m.id then m.(status := u.status, fundedAt := Some(u.fundedAt)) else m
  }

  function UpdateRow(m: Milestone, updates: seq<Update>): (r: Milestone)
    ensures r.id == m.id
  {
    if updates == [] then m
    else Applied(UpdateRow(m, updates[..|updates| - 1]), updates[|updates| - 1])
  }

  function UpdateRows(ms: seq<Milestone>, updates: seq<Update>): seq<Milestone> {
    seq(|ms|, i requires 0 <= i < |ms| => UpdateRow(ms[i], updates))
  }

  /** The milestone rows once the project holds `fundedWei`. */
  function Fund(ms: seq<Milestone>, fundedWei: int, now: int): seq<Milestone> {
    UpdateRows(ms, UpdatesOf(PromotedRows(SortMilestones(ms), fundedWei), now))
  }

  /** The documented rule's left-hand side: the amounts of the rows up to and including `m`, whatever
      order the rows come in. */
  function CumulativeUpTo(ms: seq<Milestone>, m: Milestone): int {
    if ms == [] then 0
    else (if UpTo(ms[0], m) then ms[0].amountWei else 0) + CumulativeUpTo(ms[1..], m)
  }

  // ---------------------------------------------------------------- Sorting

  lemma {:induction false} InsertKeeps(m: Milestone, ms: seq<Milestone>)
    ensures multiset(InsertMilestone(m, ms)) == multiset(ms) + multiset{m}
  {
    if ms != [] && !UpTo(m, ms[0]) {
      InsertKeeps(m, ms[1..]);
      assert ms == [ms[0]] + ms[1..];
    }
  }

  lemma {:induction false} InsertSorts(m: Milestone, ms: seq<Milestone>)
    requires Sorted(ms)
    ensures Sorted(InsertMilestone(m, ms))
  {
    if ms != [] && !UpTo(m, ms[0]) {
      var rest := InsertMilestone(m, ms[1..]);
      InsertSorts(m, ms[1..]);
      InsertKeeps(m, ms[1..]);
      forall k | 0 <= k < |rest| ensures UpTo(ms[0], rest[k]) {
        assert rest[k] in multiset(rest);
        assert rest[k] == m || rest[k] in ms[1..];
      }
    }
  }

  lemma {:induction false} SortSorts(ms: seq<Milestone>)
    ensures Sorted(SortMilestones(ms))
    ensures multiset(SortMilestones(ms)) == multiset(ms)
  {
    if ms != [] {
      SortSorts(ms[1..]);
      InsertSorts(ms[0], SortMilestones(ms[1..]));
      InsertKeeps(ms[0], SortMilestones(ms[1..]));
      assert ms == [ms[0]] + ms[1..];
    }
  }

  lemma {:induction false} InsertCumulative(x: Milestone, ms: seq<Milestone>, m: Milestone)
    ensures CumulativeUpTo(InsertMilestone(x, ms), m) ==
            (if UpTo(x, m) then x.amountWei else 0) + CumulativeUpTo(ms, m)
  {
    if ms == [] {
    } else if UpTo(x, ms[0]) {
      assert ([x] + ms)[1..] == ms;
    } else {
      InsertCumulative(x, ms[1..], m);
      assert ([ms[0]] + InsertMilestone(x, ms[1..]))[1..] == InsertMilestone(x, ms[1..]);
    }
  }

  lemma {:induction false} SortCumulative(ms: seq<Milestone>, m: Milestone)
    ensures CumulativeUpTo(SortMilestones(ms), m) == CumulativeUpTo(ms, m)
  {
    if ms != [] {
      SortCumulative(ms[1..], m);
      InsertCumulative(ms[0], SortMilestones(ms[1..]), m);
    }
  }

  lemma {:induction false} CumulativeSplit(a: seq<Milestone>, b: seq<Milestone>, m: Milestone)
    ensures CumulativeUpTo(a + b, m) == CumulativeUpTo(a, m) + CumulativeUpTo(b, m)
  {
    if a == [] {
      assert a + b == b;
    } else {
      CumulativeSplit(a[1..], b, m);
      assert (a + b)[1..] == a[1..] + b;
    }
  }

  /** In a sorted list the cumulative amount of an entry is the sum of the prefix ending at it. */
  lemma {:induction false} SortedCumulative(s: seq<Milestone>, i: nat)
    requires Sorted(s) && DistinctIds(s) && i < |s|
    ensures CumulativeUpTo(s, s[i]) == SumTo(s, i)
  {
    assert s == s[..i + 1] + s[i + 1..];
    CumulativeSplit(s[..i + 1], s[i + 1..], s[i]);
    AllCounted(s[..i + 1], s[i]);
    NoneCounted(s[i + 1..], s[i]);
  }

  lemma {:induction false} AllCounted(s: seq<Milestone>, m: Milestone)
    requires forall k | 0 <= k < |s| :: UpTo(s[k], m)
    ensures CumulativeUpTo(s, m) == Sum(s)
  {
    if s != [] {
      var init, last := s[..|s| - 1], s[|s| - 1];
      assert s == init + [last];
      CumulativeSplit(init, [last], m);
      AllCounted(init, m);
      assert CumulativeUpTo([last], m) == last.amountWei + CumulativeUpTo([last][1..], m);
    }
  }

  lemma {:induction false} NoneCounted(s: seq<Milestone>, m: Milestone)
    requires forall k | 0 <= k < |s| :: !UpTo(s[k], m)
    ensures CumulativeUpTo(s, m) == 0
  {
    if s != [] {
      NoneCounted(s[1..], m);
    }
  }

  lemma {:induction false} InsertKeepsDistinct(m: Milestone, ms: seq<Milestone>)
    requires DistinctIds(ms) && forall x | x in ms :: x.id != m.id
    ensures DistinctIds(InsertMilestone(m, ms))
    ensures forall x :: x in InsertMilestone(m, ms) <==> x == m || x in ms
  {
    assert forall k | 0 <= k < |ms| :: ms[k] in ms;
    if ms != [] && !UpTo(m, ms[0]) {
      InsertKeepsDistinct(m, ms[1..]);
      var rest := InsertMilestone(m, ms[1..]);
      forall k | 0 <= k < |rest| ensures rest[k].id != ms[0].id {
        assert rest[k] in rest;
      }
    }
  }

  lemma {:induction false} SortKeepsDistinct(ms: seq<Milestone>)
    requires DistinctIds(ms)
    ensures DistinctIds(SortMilestones(ms))
    ensures forall x :: x in SortMilestones(ms) <==> x in ms
  {
    if ms != [] {
      SortKeepsDistinct(ms[1..]);
      InsertKeepsDistinct(ms[0], SortMilestones(ms[1..]));
    }
  }

  // ---------------------------------------------------------------- Which rows are promoted

  predicate Fundable(ms: seq<Milestone>, m: Milestone, fundedWei: int) {
    CumulativeUpTo(ms, m) <= fundedWei
  }

  lemma {:induction false} PromotedBySum(s: seq<Milestone>, fundedWei: int, m: Milestone)
    ensures m in PromotedRows(s, fundedWei) <==>
            Promotable(m.status) && exists j :: 0 <= j < |s| && s[j] == m && SumTo(s, j) <= fundedWei
  {
    if s != [] {
      var n := |s| - 1;
      PromotedBySum(s[..n], fundedWei, m);
      assert s[..n + 1] == s;
      assert SumTo(s, n) == Sum(s);
      forall j | 0 <= j < n ensures SumTo(s[..n], j) == SumTo(s, j) {
        assert s[..n][..j + 1] == s[..j + 1];
      }
      if m in PromotedRows(s[..n], fundedWei) {
        var j :| 0 <= j < n && s[..n][j] == m && SumTo(s[..n], j) <= fundedWei;
        assert s[j] == m && SumTo(s, j) <= fundedWei;
      }
      if j :| Promotable(m.status) && 0 <= j < |s| && s[j] == m && SumTo(s, j) <= fundedWei {
        if j < n {
          assert s[..n][j] == m && SumTo(s[..n], j) <= fundedWei;
        }
      }
    }
  }

  lemma PromotedExactly(ms: seq<Milestone>, fundedWei: int, m: Milestone)
    requires DistinctIds(ms)
    ensures m in PromotedRows(SortMilestones(ms), fundedWei) <==>
            m in ms && Promotable(m.status) && Fundable(ms, m, fundedWei)
  {
    var s := SortMilestones(ms);
    SortSorts(ms);
    SortKeepsDistinct(ms);
    PromotedBySum(s, fundedWei, m);
    forall j | 0 <= j < |s| ensures SumTo(s, j) == CumulativeUpTo(ms, s[j]) {
      SortedCumulative(s, j);
      SortCumulative(ms, s[j]);
    }
    if m in ms {
      var j :| 0 <= j < |s| && s[j] == m;
      assert SumTo(s, j) == CumulativeUpTo(ms, m);
    }
  }

  function FundedRow(ms: seq<Milestone>, m: Milestone, fundedWei: int, now: int): Milestone {
    if Promotable(m.status) && Fundable(ms, m, fundedWei)
    then m.(status := FUNDED, fundedAt := Some(FundedAt(m, now)))
    else m
  }

  lemma {:induction false} UpdateRowExactly(m: Milestone, rows: seq<Milestone>, now: int)
    requires forall x | x in rows && x.id == m.id :: x == m
    ensures UpdateRow(m, UpdatesOf(rows, now)) ==
            if m in rows then m.(status := FUNDED, fundedAt := Some(FundedAt(m, now))) else m
  {
    if rows != [] {
      var n := |rows| - 1;
      UpdateRowExactly(m, rows[..n], now);
      assert UpdatesOf(rows, now)[..n] == UpdatesOf(rows[..n], now);
      assert rows == rows[..n] + [rows[n]];
    }
  }

  /** The documented rule, for rows in any order: exactly the PLANNED and AWAITING_FUNDS rows whose
      cumulative amount is covered become FUNDED, a first funding time is kept, and no other row changes. */
  lemma FundExactly(ms: seq<Milestone>, fundedWei: int, now: int)
    requires DistinctIds(ms)
    ensures |Fund(ms, fundedWei, now)| == |ms|
    ensures forall i | 0 <= i < |ms| :: Fund(ms, fundedWei, now)[i] == FundedRow(ms, ms[i], fundedWei, now)
  {
    var rows := PromotedRows(SortMilestones(ms), fundedWei);
    forall i | 0 <= i < |ms| ensures Fund(ms, fundedWei, now)[i] == FundedRow(ms, ms[i], fundedWei, now) {
      forall x | x in rows && x.id == ms[i].id ensures x == ms[i] {
        PromotedExactly(ms, fundedWei, x);
      }
      PromotedExactly(ms, fundedWei, ms[i]);
      UpdateRowExactly(ms[i], rows, now);
    }
  }

  lemma {:induction false} CumulativeBySkeleton(a: seq<Milestone>, b: seq<Milestone>, m: Milestone, n: Milestone)
    requires Skeleton(a) == Skeleton(b)
    requires (m.id, m.sortOrder) == (n.id, n.sortOrder)
    ensures CumulativeUpTo(a, m) == CumulativeUpTo(b, n)
  {
    assert |a| == |Skeleton(a)| == |Skeleton(b)| == |b|;
    if a != [] {
      assert Skeleton(a)[0] == Skeleton(b)[0];
      assert Skeleton(a[1..]) == Skeleton(a)[1..] == Skeleton(b)[1..] == Skeleton(b[1..]);
      CumulativeBySkeleton(a[1..], b[1..], m, n);
    }
  }

  function Statuses(ms: seq<Milestone>): seq<MilestoneStatus> {
    seq(|ms|, i requires 0 <= i < |ms| => ms[i].status)
  }

  lemma FundKeepsSkeleton(ms: seq<Milestone>, fundedWei: int, now: int)
    requires DistinctIds(ms)
    ensures Skeleton(Fund(ms, fundedWei, now)) == Skeleton(ms)
    ensures DistinctIds(Fund(ms, fundedWei, now))
  {
    FundExactly(ms, fundedWei, now);
  }

  /** Two funding levels in a row leave the statuses of the larger one alone. */
  lemma FundTwice(ms: seq<Milestone>, f1: int, f2: int, now1: int, now2: int, now3: int)
    requires DistinctIds(ms)
    ensures Statuses(Fund(Fund(ms, f1, now1), f2, now2)) == Statuses(Fund(ms, Max(f1, f2), now3))
  {
    var once := Fund(ms, f1, now1);
    FundExactly(ms, f1, now1);
    FundKeepsSkeleton(ms, f1, now1);
    FundExactly(once, f2, now2);
    FundExactly(ms, Max(f1, f2), now3);
    forall i | 0 <= i < |ms| ensures CumulativeUpTo(once, once[i]) == CumulativeUpTo(ms, ms[i]) {
      CumulativeBySkeleton(once, ms, once[i], ms[i]);
    }
  }

  /** Applying the same funding level again changes nothing at all, timestamps included. */
  lemma FundAgain(ms: seq<Milestone>, fundedWei: int, now1: int, now2: int)
    requires DistinctIds(ms)
    ensures Fund(Fund(ms, fundedWei, now1), fundedWei, now2) == Fund(ms, fundedWei, now1)
  {
    var once := Fund(ms, fundedWei, now1);
    FundExactly(ms, fundedWei, now1);
    FundKeepsSkeleton(ms, fundedWei, now1);
    FundExactly(once, fundedWei, now2);
    forall i | 0 <= i < |ms| ensures CumulativeUpTo(once, once[i]) == CumulativeUpTo(ms, ms[i]) {
      CumulativeBySkeleton(once, ms, once[i], ms[i]);
    }
  }

  // ---------------------------------------------------------------- Allocation

  predicate NonNegative(ms: seq<Milestone>) {
    forall m | m in ms :: m.amountWei >= 0
  }

  /** The fundable milestones form a prefix of the sort order. */
  lemma {:induction false} FundableIsPrefix(ms: seq<Milestone>, a: Milestone, b: Milestone, fundedWei: int)
    requires NonNegative(ms) && UpTo(a, b) && Fundable(ms, b, fundedWei)
    ensures Fundable(ms, a, fundedWei)
  {
    CumulativeMonotone(ms, a, b);
  }

  lemma {:induction false} CumulativeMonotone(ms: seq<Milestone>, a: Milestone, b: Milestone)
    requires NonNegative(ms) && UpTo(a, b)
    ensures 0 <= CumulativeUpTo(ms, a) <= CumulativeUpTo(ms, b)
  {
    if ms != [] {
      CumulativeMonotone(ms[1..], a, b);
    }
  }

  /** What is promoted never costs more than the project holds. */
  lemma {:induction false} PromotedWithinFunds(s: seq<Milestone>, fundedWei: int)
    requires NonNegative(s) && fundedWei >= 0
    ensures Sum(PromotedRows(s, fundedWei)) <= fundedWei
    ensures Sum(PromotedRows(s, fundedWei)) <= Sum(s)
  {
    if s != [] {
      var n := |s| - 1;
      var init := PromotedRows(s[..n], fundedWei);
      PromotedWithinFunds(s[..n], fundedWei);
      assert (init + [s[n]])[..|init|] == init;
      assert init + [] == init;
    }
  }

  /** The reduce over the amounts at project creation. */
  function TotalValue(amounts: seq<int>): int {
    if amounts == [] then 0 else TotalValue(amounts[..|amounts| - 1]) + amounts[|amounts| - 1]
  }

  /** The rows creation writes: sort orders count up from 0 in the order given. */
  predicate CreatedFrom(ms: seq<Milestone>, amounts: seq<int>) {
    |ms| == |amounts| && DistinctIds(ms) &&
    forall i | 0 <= i < |ms| :: ms[i].sortOrder == i && ms[i].amountWei == amounts[i] && ms[i].status == PLANNED
  }

  /** `reconcileProjectFunding`'s status rule. */
  function ReconciledStatus(totalValueWei: Option<int>, fundedWei: int): ProjectStatus {
    if totalValueWei.Some? && fundedWei >= totalValueWei.value then ACTIVE else AWAITING_ESCROW
  }

  lemma {:induction false} TotalIsSum(ms: seq<Milestone>, amounts: seq<int>)
    requires |ms| == |amounts| && forall i | 0 <= i < |ms| :: ms[i].amountWei == amounts[i]
    ensures Sum(ms) == TotalValue(amounts)
  {
    if ms != [] {
      TotalIsSum(ms[..|ms| - 1], amounts[..|ms| - 1]);
    }
  }

  /** A freshly created project becomes ACTIVE exactly when its last milestone, hence every one, becomes
      FUNDED. */
  lemma ActiveIffAllFunded(ms: seq<Milestone>, amounts: seq<int>, fundedWei: int, now: int)
    requires CreatedFrom(ms, amounts) && NonNegative(ms) && fundedWei >= 0
    ensures |Fund(ms, fundedWei, now)| == |ms|
    ensures ReconciledStatus(Some(TotalValue(amounts)), fundedWei) == ACTIVE <==>
            forall i | 0 <= i < |ms| :: Fund(ms, fundedWei, now)[i].status == FUNDED
  {
    FundExactly(ms, fundedWei, now);
    TotalIsSum(ms, amounts);
    if ms != [] {
      var last := ms[|ms| - 1];
      AllCounted(ms, last);
      forall i | 0 <= i < |ms| ensures CumulativeUpTo(ms, ms[i]) <= Sum(ms) {
        CumulativeMonotone(ms, ms[i], last);
      }
      assert Fund(ms, fundedWei, now)[|ms| - 1] == FundedRow(ms, last, fundedWei, now);
    }
  }

  /** Reconciliation after the caller is known to be the client, on the project's row. */
  method ReconcileProjectFunding(project: Project, fundedWei: int, now: int) returns (reconciled: Project)
    ensures reconciled == project.(status := ReconciledStatus(project.totalValueWei, fundedWei),
                                   milestones := Fund(project.milestones, fundedWei, now))
  {
    var status := if project.totalValueWei.Some? && fundedWei >= project.totalValueWei.value
                  then ACTIVE else AWAITING_ESCROW;
    var updates := MilestoneFundingSyncUpdates(project.milestones, fundedWei, now);
    var rows := project.milestones;
    for i := 0 to |updates|
      invariant rows == UpdateRows(project.milestones, updates[..i])
    {
      assert updates[..i + 1][..i] == updates[..i];
      rows := seq(|rows|, k requires 0 <= k < |rows| => Applied(rows[k], updates[i]));
    }
    assert updates[..|updates|] == updates;
    reconciled := project.(status := status, milestones := rows);
  }
}
