/** The checkpoint's JSON copy of the projections (event-sync-service.ts, `reduceProjectionState`), and its
    agreement with the tables. */
module CursorState {
  import opened Basics
  import opened JsonMerge
  import opened Events
  import opened Governance

  const PAUSE_STATE := Plain("pauseState")
  const ALLOWED_TOKENS := Plain("allowedTokens")
  const TOKEN_REVIEWS := Plain("tokenReviews")
  const THRESHOLD := Plain("arbitratorThreshold")
  const RECIPIENTS := Plain("alternativeRecipients")
  const EMERGENCIES := Plain("emergencyResolutions")

  function TokenKey(token: Address): Text { Hex(40, token) }

  function PauseJson(paused: bool, account: Address): Js {
    Obj(map[Plain("paused") := Bool(paused), Plain("account") := AddressText(account),
            Plain("eventName") := Str(Plain(if paused then "Paused" else "Unpaused"))])
  }

  function AllowedJson(allowed: bool): Js {
    Obj(map[Plain("allowed") := Bool(allowed)])
  }

  function ReviewJson(admin: Address): Js {
    Obj(map[Plain("attested") := Bool(true), Plain("admin") := AddressText(admin)])
  }

  function ThresholdJson(previous: int, current: int): Js {
    Obj(map[Plain("previous") := Str(Plain(Decimal(previous))), Plain("current") := Str(Plain(Decimal(current)))])
  }

  function MilestoneKey(projectId: int, milestoneIndex: int): string {
    Decimal(projectId) + ":" + Decimal(milestoneIndex)
  }

  function SideKey(projectId: int, milestoneIndex: int, isFreelancer: bool): Text {
    Plain(MilestoneKey(projectId, milestoneIndex) + if isFreelancer then ":freelancer" else ":client")
  }

  function PendingJson(recipient: Address, executableAfter: int): Js {
    var authorized := executableAfter == 0;
    Obj(map[
      Plain("pendingRecipient") := if authorized then Null else AddressText(recipient),
      Plain("executableAfter") := if authorized then Null else Str(Plain(Decimal(executableAfter))),
      Plain("executedRecipient") := Null,
      Plain("partyAuthorizedRecipient") := if authorized then AddressText(recipient) else Null])
  }

  function ExecutedJson(recipient: Address): Js {
    Obj(map[Plain("executedRecipient") := AddressText(recipient)])
  }

  const CLEARED_JSON :=
    Obj(map[Plain("pendingRecipient") := Null, Plain("executableAfter") := Null, Plain("executedRecipient") := Null])

  function EmergencyJson(status: string, readyAt: Js): Js {
    Obj(map[Plain("status") := Str(Plain(status)), Plain("readyAt") := readyAt])
  }

  function ClearedSides(projectId: int, milestoneIndex: int): Js {
    Obj(map[SideKey(projectId, milestoneIndex, true) := CLEARED_JSON,
            SideKey(projectId, milestoneIndex, false) := CLEARED_JSON])
  }

  /** `reduceProjectionState`. */
  function ReducePatch(e: Event): Object {
    match e
    case PauseChanged(paused, account) => map[PAUSE_STATE := PauseJson(paused, account)]
    case TokenAllowed(token, allowed) => map[ALLOWED_TOKENS := Obj(map[TokenKey(token) := AllowedJson(allowed)])]
    case TokenReviewed(token, admin) => map[TOKEN_REVIEWS := Obj(map[TokenKey(token) := ReviewJson(admin)])]
    case ThresholdUpdated(previous, current, _) => map[THRESHOLD := ThresholdJson(previous, current)]
    case RecipientSet(p, m, side, recipient, after) =>
      map[RECIPIENTS := Obj(map[SideKey(p, m, side) := PendingJson(recipient, after)])]
    case RecipientExecuted(p, m, side, recipient) =>
      map[RECIPIENTS := Obj(map[SideKey(p, m, side) := ExecutedJson(recipient)])]
    case Resolved(p, m, _) => map[RECIPIENTS := ClearedSides(p, m)]
    case EmergencyProposed(p, m, _, _, _, _, readyAt) =>
      map[EMERGENCIES := Obj(map[Plain(MilestoneKey(p, m)) :=
                                   EmergencyJson("proposed", Str(Plain(Decimal(readyAt))))])]
    case EmergencyCancelled(p, m, _) =>
      map[EMERGENCIES := Obj(map[Plain(MilestoneKey(p, m)) := EmergencyJson("cancelled", Null)])]
    case EmergencyResolved(p, m, _, _, _) =>
      map[EMERGENCIES := Obj(map[Plain(MilestoneKey(p, m)) := EmergencyJson("resolved", Null)]),
          RECIPIENTS := ClearedSides(p, m)]
    case _ => map[]
  }

  /** The patch of the live path: the events that resolve disputes bring none. */
  function LivePatch(e: Event): Object {
    if e.Resolved? || e.EmergencyResolved? then map[] else ReducePatch(e)
  }

  function PatchOf(live: bool, e: Event): Object {
    if live then LivePatch(e) else ReducePatch(e)
  }

  /** The copy after a run, from the live path's patches or the rebuild's. */
  function CursorRun(live: bool, c: Object, w: seq<Logged>): Object {
    if w == [] then c
    else Merge(CursorRun(live, c, w[..|w| - 1]), PatchOf(live, w[|w| - 1].event))
  }

  // ---------------------------------------------------------------- The two copies

  function Section(c: Object, section: Text): Object {
    if section in c && c[section].Obj? then c[section].fields else map[]
  }

  function EntryIn(o: Object, k: Text): Option<Js> { if k in o then Some(o[k]) else None }

  function Paused(c: Object): Option<Js> { EntryIn(c, PAUSE_STATE) }

  function AllowedCopy(c: Object, token: Address): Option<Js> { EntryIn(Section(c, ALLOWED_TOKENS), TokenKey(token)) }

  function ReviewCopy(c: Object, token: Address): Option<Js> { EntryIn(Section(c, TOKEN_REVIEWS), TokenKey(token)) }

  predicate PauseAgrees(c: Object, pause: Option<PauseRow>) {
    Paused(c) == if pause.None? then None else Some(PauseJson(pause.value.paused, pause.value.updatedBy))
  }

  predicate TokenAgrees(c: Object, g: GovTables, token: Address) {
    if token !in g.tokens then AllowedCopy(c, token) == None && ReviewCopy(c, token) == None
    else
      var row := g.tokens[token];
      (AllowedCopy(c, token).Some? || ReviewCopy(c, token).Some?) &&
      AllowedCopy(c, token) ==
        (if AllowedCopy(c, token).Some? || row.allowed then Some(AllowedJson(row.allowed)) else None) &&
      (row.reviewed <==> row.reviewedBy.Some?) &&
      ReviewCopy(c, token) == if row.reviewed then Some(ReviewJson(row.reviewedBy.value)) else None
  }

  /** The copy says of the pause state and of every token what the tables say. */
  ghost predicate Agrees(c: Object, g: GovTables) {
    PauseAgrees(c, g.pause) && forall token :: TokenAgrees(c, g, token)
  }

  lemma TopLevelKeys()
    ensures PAUSE_STATE != ALLOWED_TOKENS && PAUSE_STATE != TOKEN_REVIEWS && PAUSE_STATE != THRESHOLD
    ensures PAUSE_STATE != RECIPIENTS && PAUSE_STATE != EMERGENCIES && ALLOWED_TOKENS != TOKEN_REVIEWS
    ensures ALLOWED_TOKENS != THRESHOLD && ALLOWED_TOKENS != RECIPIENTS && ALLOWED_TOKENS != EMERGENCIES
    ensures TOKEN_REVIEWS != THRESHOLD && TOKEN_REVIEWS != RECIPIENTS && TOKEN_REVIEWS != EMERGENCIES
  {
  }

  lemma MergeSection(c: Object, p: Object, section: Text)
    requires section in p ==> p[section].Obj?
    ensures Section(Merge(c, p), section) == Merge(Section(c, section), Section(p, section))
  {
  }

  lemma PatchSections(live: bool, e: Event)
    ensures var p := PatchOf(live, e);
            (forall k | k in p :: p[k].Obj?) &&
            EntryIn(p, PAUSE_STATE) == (if e.PauseChanged? then Some(PauseJson(e.paused, e.account)) else None) &&
            Section(p, ALLOWED_TOKENS) ==
              (if e.TokenAllowed? then map[TokenKey(e.token) := AllowedJson(e.allowed)] else map[]) &&
            Section(p, TOKEN_REVIEWS) ==
              (if e.TokenReviewed? then map[TokenKey(e.token) := ReviewJson(e.admin)] else map[])
  {
    TopLevelKeys();
  }

  /** The new entry's object holds all keys of the old one. */
  predicate Replaces(was: Option<Js>, put: Option<Js>) {
    put.Some? && was.Some? && was.value.Obj? && put.value.Obj? ==>
      Merge(was.value.fields, put.value.fields) == put.value.fields
  }

  lemma EntryAfter(o: Object, p: Object, k: Text)
    requires Replaces(EntryIn(o, k), EntryIn(p, k))
    ensures EntryIn(Merge(o, p), k) == if k in p then EntryIn(p, k) else EntryIn(o, k)
  {
    if k in o.Keys + p.Keys {
      assert Merge(o, p)[k] == MergeValue(o, p, k);
    }
  }

  lemma SectionEntryAfter(c: Object, p: Object, section: Text, k: Text)
    requires section in p ==> p[section].Obj?
    requires Replaces(EntryIn(Section(c, section), k), EntryIn(Section(p, section), k))
    ensures EntryIn(Section(Merge(c, p), section), k) ==
            if k in Section(p, section) then EntryIn(Section(p, section), k) else EntryIn(Section(c, section), k)
  {
    MergeSection(c, p, section);
    EntryAfter(Section(c, section), Section(p, section), k);
  }

  lemma JsonsReplace(p: bool, a: Address, q: bool, b: Address)
    ensures Replaces(Some(PauseJson(p, a)), Some(PauseJson(q, b)))
    ensures Replaces(Some(AllowedJson(p)), Some(AllowedJson(q)))
    ensures Replaces(Some(ReviewJson(a)), Some(ReviewJson(b)))
  {
    assert Merge(PauseJson(p, a).fields, PauseJson(q, b).fields) == PauseJson(q, b).fields;
    assert Merge(AllowedJson(p).fields, AllowedJson(q).fields) == AllowedJson(q).fields;
    assert Merge(ReviewJson(a).fields, ReviewJson(b).fields) == ReviewJson(b).fields;
  }

  lemma PauseAfter(c: Object, live: bool, e: Event)
    requires Paused(c).Some? ==> exists p, a :: Paused(c) == Some(PauseJson(p, a))
    ensures Paused(Merge(c, PatchOf(live, e))) ==
            if e.PauseChanged? then Some(PauseJson(e.paused, e.account)) else Paused(c)
  {
    PatchSections(live, e);
    if e.PauseChanged? && Paused(c).Some? {
      var p, a :| Paused(c) == Some(PauseJson(p, a));
      JsonsReplace(p, a, e.paused, e.account);
    }
    EntryAfter(c, PatchOf(live, e), PAUSE_STATE);
  }

  lemma AllowedAfter(c: Object, live: bool, e: Event, token: Address)
    requires AllowedCopy(c, token).Some? ==> exists b :: AllowedCopy(c, token) == Some(AllowedJson(b))
    ensures AllowedCopy(Merge(c, PatchOf(live, e)), token) ==
            if e.TokenAllowed? && e.token == token then Some(AllowedJson(e.allowed)) else AllowedCopy(c, token)
  {
    PatchSections(live, e);
    if e.TokenAllowed? && e.token == token && AllowedCopy(c, token).Some? {
      var b :| AllowedCopy(c, token) == Some(AllowedJson(b));
      JsonsReplace(b, 0, e.allowed, 0);
    }
    SectionEntryAfter(c, PatchOf(live, e), ALLOWED_TOKENS, TokenKey(token));
  }

  lemma ReviewAfter(c: Object, live: bool, e: Event, token: Address)
    requires ReviewCopy(c, token).Some? ==> exists a :: ReviewCopy(c, token) == Some(ReviewJson(a))
    ensures ReviewCopy(Merge(c, PatchOf(live, e)), token) ==
            if e.TokenReviewed? && e.token == token then Some(ReviewJson(e.admin)) else ReviewCopy(c, token)
  {
    PatchSections(live, e);
    if e.TokenReviewed? && e.token == token && ReviewCopy(c, token).Some? {
      var a :| ReviewCopy(c, token) == Some(ReviewJson(a));
      JsonsReplace(true, a, true, e.admin);
    }
    SectionEntryAfter(c, PatchOf(live, e), TOKEN_REVIEWS, TokenKey(token));
  }

  lemma TokenStep(c: Object, g: GovTables, live: bool, l: Logged, token: Address)
    requires TokenAgrees(c, g, token)
    ensures TokenAgrees(Merge(c, PatchOf(live, l.event)), GovStep(g, l.origin, l.event), token)
  {
    AllowedAfter(c, live, l.event, token);
    ReviewAfter(c, live, l.event, token);
    TokensAfter(g, l, token);
  }

  lemma TokensAfter(g: GovTables, l: Logged, token: Address)
    ensures var tokens, e, o := GovStep(g, l.origin, l.event).tokens, l.event, l.origin;
            if e.TokenAllowed? && e.token == token then tokens == AllowToken(g, o, token, e.allowed).tokens
            else if e.TokenReviewed? && e.token == token then tokens == ReviewToken(g, o, token, e.admin).tokens
            else (token in tokens <==> token in g.tokens) && (token in tokens ==> tokens[token] == g.tokens[token])
  {
  }

  lemma PauseStep(c: Object, pause: Option<PauseRow>, live: bool, l: Logged)
    requires PauseAgrees(c, pause)
    ensures var e := l.event;
            PauseAgrees(Merge(c, PatchOf(live, e)),
                        if e.PauseChanged? then Some(PauseRow(e.paused, e.account, l.origin)) else pause)
  {
    PauseAfter(c, live, l.event);
  }

  lemma PauseTableAfter(g: GovTables, l: Logged)
    ensures var e := l.event;
            GovStep(g, l.origin, e).pause ==
            if e.PauseChanged? then Some(PauseRow(e.paused, e.account, l.origin)) else g.pause
  {
  }

  lemma AgreesStep(c: Object, g: GovTables, live: bool, l: Logged)
    requires Agrees(c, g)
    ensures Agrees(Merge(c, PatchOf(live, l.event)), GovStep(g, l.origin, l.event))
  {
    PauseStep(c, g.pause, live, l);
    PauseTableAfter(g, l);
    forall token ensures TokenAgrees(Merge(c, PatchOf(live, l.event)), GovStep(g, l.origin, l.event), token) {
      TokenStep(c, g, live, l, token);
    }
  }

  /** From an agreeing start every run of events keeps the two copies in agreement, through the live path
      as through the rebuild. */
  lemma {:induction false} CopiesAgree(c: Object, g: GovTables, live: bool, w: seq<Logged>)
    requires Agrees(c, g)
    ensures Agrees(CursorRun(live, c, w), GovRun(g, w))
  {
    if w != [] {
      CopiesAgree(c, g, live, w[..|w| - 1]);
      AgreesStep(CursorRun(live, c, w[..|w| - 1]), GovRun(g, w[..|w| - 1]), live, w[|w| - 1]);
    }
  }

  // ---------------------------------------------------------------- Both are the last relevant event

  function LastPause(w: seq<Logged>): (r: Option<nat>)
    ensures r.Some? ==> r.value < |w| && w[r.value].event.PauseChanged?
    ensures forall j | (if r.Some? then r.value + 1 else 0) <= j < |w| :: !w[j].event.PauseChanged?
  {
    if w == [] then None
    else if w[|w| - 1].event.PauseChanged? then Some(|w| - 1) else LastPause(w[..|w| - 1])
  }

  function LastAllowed(w: seq<Logged>, token: Address): (r: Option<nat>)
    ensures r.Some? ==> r.value < |w| && w[r.value].event.TokenAllowed? && w[r.value].event.token == token
    ensures forall j | (if r.Some? then r.value + 1 else 0) <= j < |w| ::
              !(w[j].event.TokenAllowed? && w[j].event.token == token)
  {
    if w == [] then None
    else if w[|w| - 1].event.TokenAllowed? && w[|w| - 1].event.token == token then Some(|w| - 1)
    else LastAllowed(w[..|w| - 1], token)
  }

  function LastReview(w: seq<Logged>, token: Address): (r: Option<nat>)
    ensures r.Some? ==> r.value < |w| && w[r.value].event.TokenReviewed? && w[r.value].event.token == token
    ensures forall j | (if r.Some? then r.value + 1 else 0) <= j < |w| ::
              !(w[j].event.TokenReviewed? && w[j].event.token == token)
  {
    if w == [] then None
    else if w[|w| - 1].event.TokenReviewed? && w[|w| - 1].event.token == token then Some(|w| - 1)
    else LastReview(w[..|w| - 1], token)
  }

  /** The tables hold the last pause event and, per token, the last allowance and the last review. */
  lemma {:induction false} PauseIsLastEvent(w: seq<Logged>)
    ensures var g, p := GovRun(NO_GOVERNANCE, w), LastPause(w);
            g.pause == if p.None? then None
                       else Some(PauseRow(w[p.value].event.paused, w[p.value].event.account, w[p.value].origin))
  {
    if w != [] {
      PauseIsLastEvent(w[..|w| - 1]);
    }
  }

  predicate TokenHolds(g: GovTables, w: seq<Logged>, token: Address) {
    var a, r := LastAllowed(w, token), LastReview(w, token);
    (token in g.tokens <==> a.Some? || r.Some?) &&
    (token in g.tokens ==>
       g.tokens[token].allowed == (a.Some? && w[a.value].event.allowed) &&
       g.tokens[token].reviewed == r.Some? &&
       g.tokens[token].reviewedBy == if r.Some? then Some(w[r.value].event.admin) else None)
  }

  lemma {:induction false} TokenIsLastEvents(w: seq<Logged>, token: Address)
    ensures TokenHolds(GovRun(NO_GOVERNANCE, w), w, token)
  {
    if w != [] {
      TokenIsLastEvents(w[..|w| - 1], token);
      TokensAfter(GovRun(NO_GOVERNANCE, w[..|w| - 1]), w[|w| - 1], token);
    }
  }

  /** So does the JSON copy, through either path. */
  lemma {:induction false} CopyHoldsLastPause(live: bool, w: seq<Logged>)
    ensures var c, p := CursorRun(live, map[], w), LastPause(w);
            Paused(c) == if p.None? then None
                         else Some(PauseJson(w[p.value].event.paused, w[p.value].event.account))
  {
    if w != [] {
      CopyHoldsLastPause(live, w[..|w| - 1]);
      PauseAfter(CursorRun(live, map[], w[..|w| - 1]), live, w[|w| - 1].event);
    }
  }

  lemma {:induction false} CopyHoldsLastAllowed(live: bool, w: seq<Logged>, token: Address)
    ensures var c, a := CursorRun(live, map[], w), LastAllowed(w, token);
            AllowedCopy(c, token) == if a.None? then None else Some(AllowedJson(w[a.value].event.allowed))
  {
    if w != [] {
      CopyHoldsLastAllowed(live, w[..|w| - 1], token);
      AllowedAfter(CursorRun(live, map[], w[..|w| - 1]), live, w[|w| - 1].event, token);
    }
  }

  lemma {:induction false} CopyHoldsLastReview(live: bool, w: seq<Logged>, token: Address)
    ensures var c, r := CursorRun(live, map[], w), LastReview(w, token);
            ReviewCopy(c, token) == if r.None? then None else Some(ReviewJson(w[r.value].event.admin))
  {
    if w != [] {
      CopyHoldsLastReview(live, w[..|w| - 1], token);
      ReviewAfter(CursorRun(live, map[], w[..|w| - 1]), live, w[|w| - 1].event, token);
    }
  }

  // ---------------------------------------------------------------- Patches may be combined first

  predicate Flat(o: Object) {
    forall k | k in o :: !o[k].Obj?
  }

  predicate Keyed(o: Object) {
    forall k | k in o :: o[k].Obj? && Flat(o[k].fields)
  }

  predicate IsSingle(section: Text) { section == PAUSE_STATE || section == THRESHOLD }

  /** The pause state and the threshold are flat objects; every other section is an object of such. */
  predicate Shaped(o: Object) {
    forall k | k in o :: o[k].Obj? && if IsSingle(k) then Flat(o[k].fields) else Keyed(o[k].fields)
  }

  lemma PatchShaped(live: bool, e: Event)
    ensures Shaped(PatchOf(live, e))
  {
    TopLevelKeys();
  }

  lemma FlatMerge(a: Object, p: Object)
    requires Flat(a) && Flat(p)
    ensures Flat(Merge(a, p))
  {
  }

  lemma KeyedMerge(a: Object, p: Object)
    requires Keyed(a) && Keyed(p)
    ensures Keyed(Merge(a, p))
  {
    forall k | k in Merge(a, p) ensures MergeValue(a, p, k).Obj? && Flat(MergeValue(a, p, k).fields) {
      if k in a && k in p {
        FlatMerge(a[k].fields, p[k].fields);
      }
    }
  }

  lemma ShapedMerge(a: Object, p: Object)
    requires Shaped(a) && Shaped(p)
    ensures Shaped(Merge(a, p))
  {
    forall k | k in Merge(a, p)
      ensures MergeValue(a, p, k).Obj? &&
              if IsSingle(k) then Flat(MergeValue(a, p, k).fields) else Keyed(MergeValue(a, p, k).fields)
    {
      if k in a && k in p {
        if IsSingle(k) {
          FlatMerge(a[k].fields, p[k].fields);
        } else {
          KeyedMerge(a[k].fields, p[k].fields);
        }
      }
    }
  }

  lemma FlatRejoins(a: Object, p: Object, q: Object)
    requires Flat(q)
    ensures Rejoinable(a, p, q)
  {
  }

  lemma KeyedRejoins(a: Object, p: Object, q: Object)
    requires Keyed(p) && Keyed(q)
    ensures Rejoinable(a, p, q)
  {
    forall k | k in a && k in p && k in q && a[k].Obj? ensures Rejoinable(a[k].fields, p[k].fields, q[k].fields) {
      FlatRejoins(a[k].fields, p[k].fields, q[k].fields);
    }
    assert forall k | k in a :: RejoinableAt(a, p, q, k);
  }

  lemma ShapedRejoins(a: Object, p: Object, q: Object)
    requires Shaped(a) && Shaped(p) && Shaped(q)
    ensures Rejoinable(a, p, q)
  {
    forall k | k in a ensures RejoinableAt(a, p, q, k) {
      if k in p && k in q {
        if IsSingle(k) {
          FlatRejoins(a[k].fields, p[k].fields, q[k].fields);
        } else {
          KeyedRejoins(a[k].fields, p[k].fields, q[k].fields);
        }
      }
    }
  }

  /** Merging a run's patches one by one into a copy is merging their combination once. */
  lemma {:induction false} PatchesCombine(live: bool, c: Object, w: seq<Logged>)
    requires Shaped(c)
    ensures Shaped(CursorRun(live, map[], w))
    ensures CursorRun(live, c, w) == Merge(c, CursorRun(live, map[], w))
  {
    if w == [] {
      assert Merge(c, map[]) == c;
    } else {
      var n := |w| - 1;
      var patch := PatchOf(live, w[n].event);
      PatchesCombine(live, c, w[..n]);
      PatchShaped(live, w[n].event);
      ShapedMerge(CursorRun(live, map[], w[..n]), patch);
      ShapedRejoins(c, CursorRun(live, map[], w[..n]), patch);
      MergeAssociative(c, CursorRun(live, map[], w[..n]), patch);
    }
  }
}
