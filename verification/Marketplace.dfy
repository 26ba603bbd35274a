/** Marketplace applications (project-application-service.ts, marketplace-project-policy.ts). */
module Marketplace {
  import opened Basics
  import opened EscrowRows

  type UserId = nat
  type ProjectId = nat
  type ApplicationId = nat

  datatype Visibility = PUBLIC | PRIVATE

  datatype ApplicationStatus = PENDING | ACCEPTED | DECLINED | WITHDRAWN | EXPIRED

  datatype Listing = Listing(client: UserId, status: ProjectStatus, visibility: Visibility, freelancer: Option<UserId>)

  datatype Application = Application(project: ProjectId, freelancer: UserId, status: ApplicationStatus)

  datatype Market = Market(projects: map<ProjectId, Listing>, applications: map<ApplicationId, Application>)

  datatype Error =
    | NotAFreelancer | ProjectNotFound | NotOpenForApplications | InvalidApplicant | ApplicationAlreadyExists
    | NotTheClient | ApplicationNotFound | ApplicationNotPending

  /** The applicant's role and the new row's identifier come with the request. */
  datatype Request =
    | Apply(project: ProjectId, applicant: UserId, isFreelancer: bool, id: ApplicationId)
    | Accept(project: ProjectId, id: ApplicationId, caller: UserId)
    | Decline(project: ProjectId, id: ApplicationId, caller: UserId)
    | Withdraw(project: ProjectId, id: ApplicationId, caller: UserId)

  predicate IsPublicMarketplaceListing(l: Listing) {
    l.status == OPEN && l.visibility == PUBLIC && l.freelancer == None
  }

  predicate HasApplied(m: Market, project: ProjectId, user: UserId) {
    exists k | k in m.applications :: m.applications[k].project == project && m.applications[k].freelancer == user
  }

  /** `requirePendingProjectApplication` on the row the query finds. */
  function PendingError(found: bool, status: ApplicationStatus): Option<Error> {
    if !found then Some(ApplicationNotFound) else if status != PENDING then Some(ApplicationNotPending) else None
  }

  function RowError(m: Market, project: ProjectId, id: ApplicationId): Option<Error> {
    if id !in m.applications then Some(ApplicationNotFound)
    else PendingError(m.applications[id].project == project, m.applications[id].status)
  }

  /** The first check that refuses a request. */
  function Refuses(m: Market, r: Request): Option<Error> {
    match r
    case Apply(project, applicant, isFreelancer, _) =>
      if !isFreelancer then Some(NotAFreelancer)
      else if project !in m.projects then Some(ProjectNotFound)
      else if !IsPublicMarketplaceListing(m.projects[project]) then Some(NotOpenForApplications)
      else if m.projects[project].client == applicant then Some(InvalidApplicant)
      else if HasApplied(m, project, applicant) then Some(ApplicationAlreadyExists)
      else None
    case Accept(project, id, caller) =>
      if project !in m.projects then Some(ProjectNotFound)
      else if m.projects[project].client != caller then Some(NotTheClient)
      else if !IsPublicMarketplaceListing(m.projects[project]) then Some(NotOpenForApplications)
      else RowError(m, project, id)
    case Decline(project, id, caller) =>
      if project !in m.projects then Some(ProjectNotFound)
      else if m.projects[project].client != caller then Some(NotTheClient)
      else RowError(m, project, id)
    case Withdraw(project, id, caller) =>
      if id in m.applications && m.applications[id].freelancer == caller then RowError(m, project, id)
      else Some(ApplicationNotFound)
  }

  predicate IsOtherPending(a: Application, k: ApplicationId, project: ProjectId, id: ApplicationId) {
    a.project == project && k != id && a.status == PENDING
  }

  function DeclineOthers(rows: map<ApplicationId, Application>, project: ProjectId, id: ApplicationId)
    : map<ApplicationId, Application>
  {
    map k | k in rows ::
      if IsOtherPending(rows[k], k, project, id) then rows[k].(status := DECLINED) else rows[k]
  }

  /** What a request that is not refused does. */
  function Effect(m: Market, r: Request): Market
    requires Refuses(m, r) == None
  {
    match r
    case Apply(project, applicant, _, id) =>
      m.(applications := m.applications[id := Application(project, applicant, PENDING)])
    case Accept(project, id, _) =>
      var row := m.applications[id];
      Market(m.projects[project := m.projects[project].(freelancer := Some(row.freelancer), status := AWAITING_ESCROW)],
             DeclineOthers(m.applications[id := row.(status := ACCEPTED)], project, id))
    case Decline(_, id, _) => m.(applications := m.applications[id := m.applications[id].(status := DECLINED)])
    case Withdraw(_, id, _) =>
      m.(applications := m.applications[id := m.applications[id].(status := ApplicationStatus.WITHDRAWN)])
  }

  function Perform(m: Market, r: Request): Market {
    if Refuses(m, r) == None then Effect(m, r) else m
  }

  class ApplicationService {
    var projects: map<ProjectId, Listing>
    var applications: map<ApplicationId, Application>

    function Contents(): Market
      reads this
    {
      Market(projects, applications)
    }

    constructor (projects: map<ProjectId, Listing>)
      ensures Contents() == Market(projects, map[])
    {
      this.projects, applications := projects, map[];
    }

    function Outcome(r: Request): Result<(), Error>
      reads this
    {
      var e := Refuses(Contents(), r);
      if e.Some? then Err(e.value) else Ok(())
    }

    method ApplyToProject(project: ProjectId, applicant: UserId, isFreelancer: bool, id: ApplicationId)
        returns (result: Result<(), Error>)
      requires id !in applications
      modifies this`applications
      ensures result == old(Outcome(Apply(project, applicant, isFreelancer, id)))
      ensures Contents() == Perform(old(Contents()), Apply(project, applicant, isFreelancer, id))
    {
      if !isFreelancer {
        return Err(NotAFreelancer);
      }
      if project !in projects {
        return Err(ProjectNotFound);
      }
      var listing := projects[project];
      if !(listing.status == OPEN && listing.visibility == PUBLIC && listing.freelancer == None) {
        return Err(NotOpenForApplications);
      }
      if listing.client == applicant {
        return Err(InvalidApplicant);
      }
      if HasApplied(Contents(), project, applicant) {
        return Err(ApplicationAlreadyExists);
      }
      applications := applications[id := Application(project, applicant, PENDING)];
      return Ok(());
    }

    /** Returns the accepted freelancer and those told that another candidate was accepted: exactly the
        freelancers of the rows it declined. */
    method AcceptProjectApplication(project: ProjectId, id: ApplicationId, caller: UserId)
        returns (result: Result<(UserId, set<UserId>), Error>)
      modifies this
      ensures result.Err? ==> old(Outcome(Accept(project, id, caller))) == Err(result.error)
      ensures result.Ok? ==> old(Outcome(Accept(project, id, caller))).Ok?
      ensures Contents() == Perform(old(Contents()), Accept(project, id, caller))
      ensures result.Ok? ==>
                projects[project].freelancer == Some(result.value.0) &&
                forall f :: f in result.value.1 <==>
                  exists k :: k in old(applications) && k != id && old(applications)[k].freelancer == f &&
                    applications[k] != old(applications)[k]
    {
      if project !in projects {
        return Err(ProjectNotFound);
      }
      var listing := projects[project];
      if listing.client != caller {
        return Err(NotTheClient);
      }
      if !(listing.status == OPEN && listing.visibility == PUBLIC && listing.freelancer == None) {
        return Err(NotOpenForApplications);
      }
      if id !in applications || applications[id].project != project {
        return Err(ApplicationNotFound);
      }
      var row := applications[id];
      if row.status != PENDING {
        return Err(ApplicationNotPending);
      }
      applications := applications[id := row.(status := ACCEPTED)];
      var others := set k | k in applications && IsOtherPending(applications[k], k, project, id);
      var told := set k | k in others :: applications[k].freelancer;
      applications := map k | k in applications ::
        if IsOtherPending(applications[k], k, project, id) then applications[k].(status := DECLINED)
        else applications[k];
      projects := projects[project := listing.(freelancer := Some(row.freelancer), status := AWAITING_ESCROW)];
      return Ok((row.freelancer, told));
    }

    method DeclineProjectApplication(project: ProjectId, id: ApplicationId, caller: UserId)
        returns (result: Result<(), Error>)
      modifies this`applications
      ensures result == old(Outcome(Decline(project, id, caller)))
      ensures Contents() == Perform(old(Contents()), Decline(project, id, caller))
    {
      if project !in projects {
        return Err(ProjectNotFound);
      }
      if projects[project].client != caller {
        return Err(NotTheClient);
      }
      if id !in applications || applications[id].project != project {
        return Err(ApplicationNotFound);
      }
      if applications[id].status != PENDING {
        return Err(ApplicationNotPending);
      }
      applications := applications[id := applications[id].(status := DECLINED)];
      return Ok(());
    }

    method WithdrawProjectApplication(project: ProjectId, id: ApplicationId, caller: UserId)
        returns (result: Result<(), Error>)
      modifies this`applications
      ensures result == old(Outcome(Withdraw(project, id, caller)))
      ensures Contents() == Perform(old(Contents()), Withdraw(project, id, caller))
    {
      if id !in applications || applications[id].project != project || applications[id].freelancer != caller {
        return Err(ApplicationNotFound);
      }
      if applications[id].status != PENDING {
        return Err(ApplicationNotPending);
      }
      applications := applications[id := applications[id].(status := ApplicationStatus.WITHDRAWN)];
      return Ok(());
    }
  }

  // ---------------------------------------------------------------- Whole runs

  /** New rows get new identifiers. */
  predicate Fresh(m: Market, r: Request) {
    r.Apply? ==> r.id !in m.applications
  }

  ghost predicate IsRun(m: Market, rs: seq<Request>) {
    forall i | 0 <= i < |rs| :: Fresh(Run(m, rs[..i]), rs[i])
  }

  function Run(m: Market, rs: seq<Request>): Market {
    if rs == [] then m else Perform(Run(m, rs[..|rs| - 1]), rs[|rs| - 1])
  }

  predicate Applicants(m: Market) {
    && (forall k | k in m.applications ::
          m.applications[k].project in m.projects &&
          m.applications[k].freelancer != m.projects[m.applications[k].project].client)
    && (forall k, l | k in m.applications && l in m.applications && k != l ::
          m.applications[k].project == m.applications[l].project ==>
          m.applications[k].freelancer != m.applications[l].freelancer)
  }

  predicate IsAccepted(m: Market, k: ApplicationId, project: ProjectId) {
    k in m.applications && m.applications[k].project == project && m.applications[k].status == ACCEPTED
  }

  /** While a project is listed, none of its applications is accepted; once it is not, none is pending, and
      it has a freelancer exactly through its one accepted application. */
  ghost predicate Settled(m: Market, project: ProjectId)
    requires project in m.projects
  {
    var l := m.projects[project];
    if IsPublicMarketplaceListing(l) then forall k :: !IsAccepted(m, k, project)
    else
      && (forall k | k in m.applications && m.applications[k].project == project :: m.applications[k].status != PENDING)
      && (forall k, j :: IsAccepted(m, k, project) && IsAccepted(m, j, project) ==> k == j)
      && l.freelancer.Some? && l.status == AWAITING_ESCROW
      && (forall f :: l.freelancer == Some(f) <==>
            exists k :: IsAccepted(m, k, project) && m.applications[k].freelancer == f)
  }

  lemma ApplicantsStep(m: Market, r: Request)
    requires Applicants(m) && Fresh(m, r)
    ensures Applicants(Perform(m, r))
  {
  }

  lemma SettledApply(m: Market, r: Request, project: ProjectId)
    requires !r.Accept? && Fresh(m, r) && Applicants(m) && project in m.projects && Settled(m, project)
    ensures project in Perform(m, r).projects && Settled(Perform(m, r), project)
  {
    var m' := Perform(m, r);
    forall k ensures IsAccepted(m', k, project) <==> IsAccepted(m, k, project) {
    }
    forall k | IsAccepted(m, k, project) ensures m'.applications[k] == m.applications[k] {
    }
  }

  lemma SettledAccept(m: Market, r: Request, project: ProjectId)
    requires r.Accept? && Applicants(m) && project in m.projects && Settled(m, project)
    ensures project in Perform(m, r).projects && Settled(Perform(m, r), project)
  {
    var m' := Perform(m, r);
    if Refuses(m, r) == None && r.project == project {
      forall k ensures IsAccepted(m', k, project) <==> k == r.id {
        assert !IsAccepted(m, k, project);
      }
      assert m'.applications[r.id].freelancer == m.applications[r.id].freelancer;
    } else {
      forall k ensures IsAccepted(m', k, project) <==> IsAccepted(m, k, project) {
      }
      forall k | k in m.applications && m.applications[k].project == project
        ensures m'.applications[k] == m.applications[k] {
      }
    }
  }

  lemma SettledStep(m: Market, r: Request, project: ProjectId)
    requires Fresh(m, r) && Applicants(m) && project in m.projects && Settled(m, project)
    ensures project in Perform(m, r).projects && Settled(Perform(m, r), project)
  {
    if r.Accept? {
      SettledAccept(m, r, project);
    } else {
      SettledApply(m, r, project);
    }
  }

  /** From listings without applications, over every sequence of requests: the client never applies and no
      one applies twice; at most one application is accepted; the project's freelancer is f exactly when
      the accepted application is f's; and after the acceptance none is pending. */
  lemma {:induction false} OneAcceptance(projects: map<ProjectId, Listing>, rs: seq<Request>, project: ProjectId)
    requires project in projects && IsPublicMarketplaceListing(projects[project])
    requires IsRun(Market(projects, map[]), rs)
    ensures var m := Run(Market(projects, map[]), rs);
            Applicants(m) && project in m.projects && Settled(m, project)
  {
    if rs != [] {
      var n := |rs| - 1;
      assert forall i | 0 <= i < n :: rs[..n][i] == rs[i] && rs[..n][..i] == rs[..i];
      OneAcceptance(projects, rs[..n], project);
      ApplicantsStep(Run(Market(projects, map[]), rs[..n]), rs[n]);
      SettledStep(Run(Market(projects, map[]), rs[..n]), rs[n], project);
    }
  }

  lemma FinalStep(m: Market, r: Request, k: ApplicationId)
    requires Fresh(m, r) && k in m.applications && m.applications[k].status != PENDING
    ensures k in Perform(m, r).applications && Perform(m, r).applications[k] == m.applications[k]
  {
  }

  /** A status other than pending is final. */
  lemma {:induction false} StatusesFinal(m: Market, rs: seq<Request>, k: ApplicationId)
    requires IsRun(m, rs) && k in m.applications && m.applications[k].status != PENDING
    ensures k in Run(m, rs).applications && Run(m, rs).applications[k] == m.applications[k]
  {
    if rs != [] {
      var n := |rs| - 1;
      assert forall i | 0 <= i < n :: rs[..n][i] == rs[i] && rs[..n][..i] == rs[..i];
      StatusesFinal(m, rs[..n], k);
      FinalStep(Run(m, rs[..n]), rs[n], k);
    }
  }

  predicate SameFor(a: Market, b: Market, project: ProjectId)
    requires project in a.projects
  {
    && project in b.projects && b.projects[project] == a.projects[project]
    && (forall k | k in b.applications && b.applications[k].project == project ::
          k in a.applications && a.applications[k] == b.applications[k])
    && (forall k | k in a.applications && a.applications[k].project == project ::
          k in b.applications && a.applications[k] == b.applications[k])
  }

  lemma ClosedStep(m: Market, r: Request, project: ProjectId)
    requires Fresh(m, r) && project in m.projects && !IsPublicMarketplaceListing(m.projects[project])
    requires Settled(m, project)
    ensures SameFor(m, Perform(m, r), project)
  {
  }

  lemma {:induction false} ClosedRun(m: Market, rs: seq<Request>, project: ProjectId)
    requires IsRun(m, rs) && Applicants(m) && project in m.projects && Settled(m, project)
    requires !IsPublicMarketplaceListing(m.projects[project])
    ensures SameFor(m, Run(m, rs), project) && Settled(Run(m, rs), project) && Applicants(Run(m, rs))
  {
    if rs != [] {
      var n := |rs| - 1;
      assert forall i | 0 <= i < n :: rs[..n][i] == rs[i] && rs[..n][..i] == rs[..i];
      ClosedRun(m, rs[..n], project);
      ClosedStep(Run(m, rs[..n]), rs[n], project);
      ApplicantsStep(Run(m, rs[..n]), rs[n]);
      SettledStep(Run(m, rs[..n]), rs[n], project);
    }
  }

  /** After an acceptance nothing of the project ever changes again: no application of it can appear,
      become pending or move, and its freelancer stays. */
  lemma AcceptanceCloses(projects: map<ProjectId, Listing>, before: seq<Request>, r: Request, later: seq<Request>)
    requires r.project in projects && IsPublicMarketplaceListing(projects[r.project])
    requires IsRun(Market(projects, map[]), before)
    requires var m := Run(Market(projects, map[]), before);
             r.Accept? && Refuses(m, r) == None && IsRun(Perform(m, r), later)
    ensures var accepted := Perform(Run(Market(projects, map[]), before), r);
            r.project in accepted.projects && IsAccepted(accepted, r.id, r.project) &&
            SameFor(accepted, Run(accepted, later), r.project)
  {
    var m := Run(Market(projects, map[]), before);
    OneAcceptance(projects, before, r.project);
    ApplicantsStep(m, r);
    SettledStep(m, r, r.project);
    ClosedRun(Perform(m, r), later, r.project);
  }
}
