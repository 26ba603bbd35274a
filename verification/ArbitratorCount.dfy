/** When the arbitrator count equals the number of active rows (event-sync-service.ts,
    `syncRoleAndArbitratorGovernanceState`). */
module ArbitratorCount {
  import opened Basics
  import opened Events
  import opened Governance

  predicate TouchesArbitrator(e: Event, a: Address) {
    e.RoleChanged? && e.role == ARBITRATOR_ROLE && e.account == a
  }

  /** The account's last arbitrator-role event, if any. */
  function LastTouch(w: seq<Logged>, a: Address): (r: Option<nat>)
    ensures r.Some? ==> r.value < |w| && TouchesArbitrator(w[r.value].event, a)
    ensures forall j | (if r.Some? then r.value + 1 else 0) <= j < |w| :: !TouchesArbitrator(w[j].event, a)
  {
    if w == [] then None
    else if TouchesArbitrator(w[|w| - 1].event, a) then Some(|w| - 1)
    else LastTouch(w[..|w| - 1], a)
  }

  /** The account was granted the role and not revoked since. */
  predicate Holds(w: seq<Logged>, a: Address) {
    LastTouch(w, a).Some? && w[LastTouch(w, a).value].event.granted
  }

  /** Event `i` revokes the arbitrator role of an account without any earlier arbitrator-role event. */
  predicate RevokesUnseen(w: seq<Logged>, i: nat)
    requires i < |w|
  {
    w[i].event.RoleChanged? && w[i].event.role == ARBITRATOR_ROLE && !w[i].event.granted &&
    LastTouch(w[..i], w[i].event.account).None?
  }

  predicate Exact(w: seq<Logged>) {
    Count(GovRun(NO_GOVERNANCE, w)) == |ActiveArbitrators(GovRun(NO_GOVERNANCE, w))|
  }

  lemma {:induction false} ActiveIffHolds(w: seq<Logged>, a: Address)
    ensures a in ActiveArbitrators(GovRun(NO_GOVERNANCE, w)) <==> Holds(w, a)
  {
    if w != [] {
      var n := |w| - 1;
      ActiveIffHolds(w[..n], a);
      ArbitratorsAfter(GovRun(NO_GOVERNANCE, w[..n]), w[n].origin, w[n].event);
    }
  }

  lemma {:induction false} KnownIffTouched(w: seq<Logged>, a: Address)
    ensures MemberKey(ARBITRATOR_ROLE, a) in GovRun(NO_GOVERNANCE, w).members <==> LastTouch(w, a).Some?
  {
    if w != [] {
      KnownIffTouched(w[..|w| - 1], a);
    }
  }

  lemma UnseenIsUnknown(w: seq<Logged>, n: nat)
    requires |w| == n + 1
    ensures RevokesUnseen(w, n) <==> RevokesUnknown(GovRun(NO_GOVERNANCE, w[..n]), w[n].event)
  {
    if w[n].event.RoleChanged? {
      KnownIffTouched(w[..n], w[n].event.account);
    }
  }

  // ---------------------------------------------------------------- Exact at the end

  ghost predicate NobodyHolds(w: seq<Logged>) {
    forall a: Address :: !Holds(w, a)
  }

  /** After the first `k` events nobody holds the role, and from then on no unseen account is revoked. */
  ghost predicate ResetAt(w: seq<Logged>, k: nat)
    requires k <= |w|
  {
    NobodyHolds(w[..k]) && forall i | k <= i < |w| :: !RevokesUnseen(w, i)
  }

  lemma NoneActive(w: seq<Logged>)
    ensures NobodyHolds(w) <==> ActiveArbitrators(GovRun(NO_GOVERNANCE, w)) == {}
  {
    forall a: Address ensures a in ActiveArbitrators(GovRun(NO_GOVERNANCE, w)) <==> Holds(w, a) {
      ActiveIffHolds(w, a);
    }
  }

  lemma ResetOfPrefix(w: seq<Logged>, n: nat, k: nat)
    requires |w| == n + 1 && k <= n
    ensures ResetAt(w, k) <==> ResetAt(w[..n], k) && !RevokesUnseen(w, n)
  {
    assert w[..n][..k] == w[..k];
    forall i | k <= i < n ensures RevokesUnseen(w[..n], i) <==> RevokesUnseen(w, i) {
      assert w[..n][..i] == w[..i];
    }
  }

  lemma ResetNow(w: seq<Logged>)
    ensures ResetAt(w, |w|) <==> ActiveArbitrators(GovRun(NO_GOVERNANCE, w)) == {}
  {
    assert w[..|w|] == w;
    NoneActive(w);
  }

  /** One more event: the count is exact behind it if nobody holds the role, or if it was exact before and
      no unseen account is revoked; and only then. */
  lemma ExactStep(w: seq<Logged>, n: nat)
    requires |w| == n + 1
    ensures Exact(w) <==> ActiveArbitrators(GovRun(NO_GOVERNANCE, w)) == {} || (Exact(w[..n]) && !RevokesUnseen(w, n))
  {
    var g := GovRun(NO_GOVERNANCE, w[..n]);
    UnseenIsUnknown(w, n);
    LagStep(g, w[n].origin, w[n].event);
    ArbitratorsAfter(g, w[n].origin, w[n].event);
    CountNeverExceeds(w);
    CountNeverExceeds(w[..n]);
    ActiveBefore(w, n);
  }

  lemma ActiveBefore(w: seq<Logged>, n: nat)
    requires |w| == n + 1
    ensures var g := GovRun(NO_GOVERNANCE, w[..n]);
            (RevokesUnknown(g, w[n].event) ==> ActiveArbitrators(GovRun(NO_GOVERNANCE, w)) == ActiveArbitrators(g)) &&
            (RevokesActive(g, w[n].event) ==> |ActiveArbitrators(g)| > 0)
  {
    var g := GovRun(NO_GOVERNANCE, w[..n]);
    ArbitratorsAfter(g, w[n].origin, w[n].event);
    if RevokesActive(g, w[n].event) {
      assert w[n].event.account in ActiveArbitrators(g);
    }
  }

  /** Over every event sequence the count equals the number of active rows exactly when, at some moment
      after the last revocation of an unseen account, nobody held the role. The empty beginning is such a
      moment when there was no such revocation. */
  lemma {:induction false} CountExactIff(w: seq<Logged>)
    ensures Exact(w) <==> exists k: nat :: k <= |w| && ResetAt(w, k)
  {
    if w == [] {
      ResetNow(w);
    } else {
      var n := |w| - 1;
      CountExactIff(w[..n]);
      ExactStep(w, n);
      ResetNow(w);
      forall k: nat | k <= n ensures ResetAt(w, k) <==> ResetAt(w[..n], k) && !RevokesUnseen(w, n) {
        ResetOfPrefix(w, n, k);
      }
    }
  }

  /** Each account's first arbitrator-role event is a grant. */
  predicate GrantsFirst(w: seq<Logged>) {
    forall i | 0 <= i < |w| :: !RevokesUnseen(w, i)
  }

  /** So with grants first the count is exact, duplicate grants and revokes included. */
  lemma CountExact(w: seq<Logged>)
    requires GrantsFirst(w)
    ensures Count(GovRun(NO_GOVERNANCE, w)) == |ActiveArbitrators(GovRun(NO_GOVERNANCE, w))|
  {
    CountExactIff(w);
    assert w[..0] == [];
    assert ResetAt(w, 0);
  }

  // ---------------------------------------------------------------- Exact throughout

  /** Event `i` revokes an unseen account while somebody holds the role. */
  ghost predicate Slips(w: seq<Logged>, i: nat)
    requires i < |w|
  {
    RevokesUnseen(w, i) && !NobodyHolds(w[..i])
  }

  lemma SlipStep(w: seq<Logged>, n: nat)
    requires |w| == n + 1 && Exact(w[..n])
    ensures Exact(w) <==> !Slips(w, n)
  {
    ExactStep(w, n);
    NoneActive(w[..n]);
    UnseenIsUnknown(w, n);
    ActiveBefore(w, n);
  }

  /** The count is exact after every event of a sequence exactly when no event slips. */
  lemma {:induction false} ExactThroughoutIff(w: seq<Logged>)
    ensures (forall n: nat | n <= |w| :: Exact(w[..n])) <==> forall i | 0 <= i < |w| :: !Slips(w, i)
  {
    assert w[..0] == [];
    if w != [] {
      var n := |w| - 1;
      ExactThroughoutIff(w[..n]);
      assert w[..n + 1] == w;
      forall k: nat | k <= n ensures w[..n][..k] == w[..k] {
      }
      forall i | 0 <= i < n ensures Slips(w[..n], i) <==> Slips(w, i) {
        assert w[..n][..i] == w[..i];
      }
      if Exact(w[..n]) {
        SlipStep(w, n);
      }
    } else {
      assert ActiveArbitrators(NO_GOVERNANCE) == {};
    }
  }

  /** Without that the count can be short: one account granted, another revoked unseen. */
  lemma CountCanLag(o: Origin, a: Address, b: Address, by_: Address)
    requires a != b
    ensures var w := [Logged(o, RoleChanged(true, ARBITRATOR_ROLE, a, by_)),
                      Logged(o, RoleChanged(false, ARBITRATOR_ROLE, b, by_))];
            Count(GovRun(NO_GOVERNANCE, w)) == 0 && ActiveArbitrators(GovRun(NO_GOVERNANCE, w)) == {a}
  {
    var e1, e2 := RoleChanged(true, ARBITRATOR_ROLE, a, by_), RoleChanged(false, ARBITRATOR_ROLE, b, by_);
    var w := [Logged(o, e1), Logged(o, e2)];
    assert w[..1] == [Logged(o, e1)] && w[..1][..0] == [];
    var g1 := GovStep(NO_GOVERNANCE, o, e1);
    assert GovRun(NO_GOVERNANCE, w[..1]) == g1;
    ArbitratorsAfter(NO_GOVERNANCE, o, e1);
    ArbitratorsAfter(g1, o, e2);
  }
}
