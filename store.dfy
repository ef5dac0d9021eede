/**
 * The in-memory store of server/store.js: a list of users, a list of applications and a
 * session map from token to user id, updated in place by the route handlers.
 */
module Store {
  import opened Wrappers
  import opened Strings
  import opened Seqs

  /** The resume record attached to a user (file path and upload time are opaque strings). */
  datatype Resume = Resume(filename: string, filepath: string, text: string, uploadedAt: string)

  datatype User = User(id: string, email: string, password: string, resume: Option<Resume>)

  datatype TimelineEntry = TimelineEntry(status: string, date: string, note: string)

  datatype Application = Application(
    id: string, userId: string, jobId: string, jobTitle: string, company: string,
    status: string, appliedVia: string, appliedAt: string, timeline: seq<TimelineEntry>,
    updatedAt: Option<string>)

  /** The keys an `Object.assign` update may carry; a None field is left as it is. */
  datatype ApplicationPatch = ApplicationPatch(
    jobTitle: Option<string>, company: Option<string>, status: Option<string>,
    appliedVia: Option<string>, timeline: Option<seq<TimelineEntry>>, updatedAt: Option<string>)

  function Patched(a: Application, p: ApplicationPatch): (r: Application)
    ensures r.id == a.id && r.userId == a.userId && r.jobId == a.jobId && r.appliedAt == a.appliedAt
    ensures r.status == p.status.GetOr(a.status) && r.timeline == p.timeline.GetOr(a.timeline)
  {
    a.(jobTitle := p.jobTitle.GetOr(a.jobTitle), company := p.company.GetOr(a.company),
       status := p.status.GetOr(a.status), appliedVia := p.appliedVia.GetOr(a.appliedVia),
       timeline := p.timeline.GetOr(a.timeline), updatedAt := if p.updatedAt.Some? then p.updatedAt else a.updatedAt)
  }

  const SeedUser := User("1", "test@gmail.com", "test@123", None)

  /** The id addUser gives the user appended after `count` others. */
  function UserId(count: nat): string {
    NatToString(count + 1)
  }

  /** User i carries id i + 1: true of the seed list and kept by addUser. */
  ghost predicate CanonicalIds(users: seq<User>) {
    forall i :: 0 <= i < |users| ==> users[i].id == UserId(i)
  }

  /** Canonical ids are pairwise distinct. */
  lemma CanonicalIdsUnique(users: seq<User>)
    requires CanonicalIds(users)
    ensures forall i, j :: 0 <= i < |users| && 0 <= j < |users| && users[i].id == users[j].id ==> i == j
  {
    forall i, j | 0 <= i < |users| && 0 <= j < |users| && users[i].id == users[j].id
      ensures i == j
    {
      NatToStringInjective(i + 1, j + 1);
    }
  }

  /** At most one application per (user, job) pair. */
  ghost predicate OnePerJob(apps: seq<Application>) {
    forall i, j :: 0 <= i < |apps| && 0 <= j < |apps| && apps[i].userId == apps[j].userId
      && apps[i].jobId == apps[j].jobId
      ==> i == j
  }

  function IndexByEmail(users: seq<User>, email: string): Option<nat> {
    FirstIndex(users, (u: User) => u.email == email)
  }

  function IndexById(users: seq<User>, id: string): Option<nat> {
    FirstIndex(users, (u: User) => u.id == id)
  }

  function IndexByJob(apps: seq<Application>, userId: string, jobId: string): Option<nat> {
    FirstIndex(apps, (a: Application) => a.userId == userId && a.jobId == jobId)
  }

  function IndexByAppId(apps: seq<Application>, id: string): Option<nat> {
    FirstIndex(apps, (a: Application) => a.id == id)
  }

  /** A user with the id exists, so the lookup finds one. */
  lemma FoundById(users: seq<User>, id: string, i: nat)
    requires i < |users| && users[i].id == id
    ensures IndexById(users, id).Some?
  {
  }

  class Store {
    var users: seq<User>
    var applications: seq<Application>
    var sessions: map<string, string>

    /** The seeded store: the one test user, no applications, no sessions. */
    constructor ()
      ensures users == [SeedUser] && applications == [] && sessions == map[]
      ensures Valid()
    {
      users := [SeedUser];
      applications := [];
      sessions := map[];
    }

    /** Ids are canonical and every session names an existing user. */
    ghost predicate Valid()
      reads this
    {
      CanonicalIds(users) && forall t :: t in sessions ==> IndexById(users, sessions[t]).Some?
    }

    /** getUser: the first user with this email. */
    function GetUser(email: string): (r: Option<User>)
      reads this
      ensures r.None? <==> forall i :: 0 <= i < |users| ==> users[i].email != email
      ensures r.Some? ==> exists i :: 0 <= i < |users| && users[i] == r.value && r.value.email == email
                                      && forall j :: 0 <= j < i ==> users[j].email != email
    {
      match IndexByEmail(users, email)
      case None => None
      case Some(i) => Some(users[i])
    }

    /** getUserById: the first user with this id. */
    function GetUserById(id: string): (r: Option<User>)
      reads this
      ensures r.None? <==> forall i :: 0 <= i < |users| ==> users[i].id != id
      ensures r.Some? ==> exists i :: 0 <= i < |users| && users[i] == r.value && r.value.id == id
                                      && forall j :: 0 <= j < i ==> users[j].id != id
    {
      match IndexById(users, id)
      case None => None
      case Some(i) => Some(users[i])
    }

    /** getApplications: that user's applications in insertion order. */
    function GetApplications(userId: string): (r: seq<Application>)
      reads this
      ensures IsSubseq(r, applications)
      ensures forall k :: 0 <= k < |r| ==> r[k] in applications && r[k].userId == userId
      ensures forall k :: 0 <= k < |applications| && applications[k].userId == userId ==> applications[k] in r
      ensures forall a :: multiset(r)[a] == if a.userId == userId then multiset(applications)[a] else 0
    {
      var mine := (a: Application) => a.userId == userId;
      FilterMultiset(applications, mine);
      Filter(applications, mine)
    }

    /** getApplicationByJobId: the first application of this user for this job. */
    function GetApplicationByJobId(userId: string, jobId: string): (r: Option<Application>)
      reads this
      ensures r.None? <==> forall i :: 0 <= i < |applications| ==>
        !(applications[i].userId == userId && applications[i].jobId == jobId)
      ensures r.Some? ==> r.value in applications && r.value.userId == userId && r.value.jobId == jobId
      ensures r.Some? ==> exists i :: 0 <= i < |applications| && applications[i] == r.value
                                      && forall j :: 0 <= j < i ==>
                                           !(applications[j].userId == userId && applications[j].jobId == jobId)
    {
      match IndexByJob(applications, userId, jobId)
      case None => None
      case Some(i) => Some(applications[i])
    }

    /** addUser: appends a user with the next id and no resume. */
    method AddUser(email: string, password: string) returns (u: User)
      modifies this
      ensures u == User(UserId(|old(users)|), email, password, None)
      ensures users == old(users) + [u]
      ensures applications == old(applications) && sessions == old(sessions)
      ensures old(Valid()) ==> Valid()
    {
      u := User(UserId(|users|), email, password, None);
      users := users + [u];
      if old(Valid()) {
        forall t | t in sessions
          ensures IndexById(users, sessions[t]).Some?
        {
          var i := old(IndexById(users, sessions[t])).value;
          FoundById(users, sessions[t], i);
        }
      }
    }

    /** updateUserResume: replaces the resume of the first user with this id; no-op otherwise. */
    method UpdateUserResume(userId: string, resume: Resume) returns (r: Option<User>)
      modifies this
      ensures applications == old(applications) && sessions == old(sessions)
      ensures old(IndexById(users, userId)).None? ==> users == old(users) && r == None
      ensures old(IndexById(users, userId)).Some? ==>
        var i := old(IndexById(users, userId)).value;
        users == old(users)[i := old(users)[i].(resume := Some(resume))] && r == Some(users[i])
      ensures old(Valid()) ==> Valid()
    {
      var idx := IndexById(users, userId);
      if idx.None? {
        return None;
      }
      var i := idx.value;
      users := users[i := users[i].(resume := Some(resume))];
      r := Some(users[i]);
      if old(Valid()) {
        forall t | t in sessions
          ensures IndexById(users, sessions[t]).Some?
        {
          var j := old(IndexById(users, sessions[t])).value;
          FoundById(users, sessions[t], j);
        }
      }
    }

    /** addApplication: appends at the end. */
    method AddApplication(app: Application)
      modifies this
      ensures applications == old(applications) + [app]
      ensures users == old(users) && sessions == old(sessions)
    {
      applications := applications + [app];
    }

    /** updateApplication: overwrites the given keys of the first application with this id; no-op otherwise. */
    method UpdateApplication(id: string, patch: ApplicationPatch) returns (r: Option<Application>)
      modifies this
      ensures users == old(users) && sessions == old(sessions)
      ensures old(IndexByAppId(applications, id)).None? ==> applications == old(applications) && r == None
      ensures old(IndexByAppId(applications, id)).Some? ==>
        var i := old(IndexByAppId(applications, id)).value;
        applications == old(applications)[i := Patched(old(applications)[i], patch)] && r == Some(applications[i])
    {
      var idx := IndexByAppId(applications, id);
      if idx.None? {
        return None;
      }
      var i := idx.value;
      applications := applications[i := Patched(applications[i], patch)];
      r := Some(applications[i]);
    }
  }

  /** Canonical ids survive an append with the next id. */
  lemma {:induction false} CanonicalAppend(users: seq<User>, u: User)
    requires CanonicalIds(users) && u.id == UserId(|users|)
    ensures CanonicalIds(users + [u])
  {
  }

  /** The seeded list is canonical: "1" is the string of 1. */
  lemma SeedCanonical()
    ensures CanonicalIds([SeedUser])
  {
    assert UserId(0) == [DigitChar(1)];
  }
}
