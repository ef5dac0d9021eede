/**
 * The application routes of server/routes/applications.js, for an authenticated user id.
 * The generated application id and the clock readings are parameters.
 */
module ApplicationRoutes {
  import opened Wrappers
  import opened Seqs
  import opened Replies
  import opened Store

  /** The record POST / creates. `appliedVia` is "" when the body does not give one. */
  function NewApplication(id: string, userId: string, jobId: string, jobTitle: string, company: string,
                          appliedVia: string, now: string): (a: Application)
    ensures a.status == "applied" && a.timeline == [TimelineEntry("applied", now, "Application submitted")]
    ensures a.appliedVia == (if appliedVia == "" then "direct" else appliedVia)
    ensures a.userId == userId && a.jobId == jobId && a.updatedAt.None?
  {
    Application(id, userId, jobId, jobTitle, company, "applied",
                if appliedVia == "" then "direct" else appliedVia, now,
                [TimelineEntry("applied", now, "Application submitted")], None)
  }

  /** The note of a status change: the given one, else a generated sentence. */
  function StatusNote(status: string, note: string): string {
    if note == "" then "Status updated to " + status else note
  }

  /** The application after PATCH: one more timeline entry, the new status, the update time. */
  function WithStatus(a: Application, status: string, note: string, now: string): (r: Application)
    ensures r.timeline == a.timeline + [TimelineEntry(status, now, StatusNote(status, note))]
    ensures r.status == status == r.timeline[|r.timeline| - 1].status
    ensures r.id == a.id && r.userId == a.userId && r.jobId == a.jobId && r.updatedAt == Some(now)
  {
    a.(timeline := a.timeline + [TimelineEntry(status, now, StatusNote(status, note))],
       status := status, updatedAt := Some(now))
  }

  /** `store.applications.find(a => a.id === id && a.userId === userId)`. */
  function OwnedIndex(apps: seq<Application>, userId: string, id: string): Option<nat> {
    FirstIndex(apps, (a: Application) => a.id == id && a.userId == userId)
  }

  /** POST /: rejects a second application to the same job, else appends the new record. */
  method Create(s: Store, userId: string, jobId: string, jobTitle: string, company: string,
                appliedVia: string, id: string, now: string) returns (r: Reply<Application>)
    modifies s
    ensures s.users == old(s.users) && s.sessions == old(s.sessions)
    ensures old(s.GetApplicationByJobId(userId, jobId)).Some? ==>
      r == Fail(BadRequest, "Already applied to this job") && s.applications == old(s.applications)
    ensures old(s.GetApplicationByJobId(userId, jobId)).None? ==>
      var a := NewApplication(id, userId, jobId, jobTitle, company, appliedVia, now);
      r == Ok(a) && s.applications == old(s.applications) + [a]
    ensures OnePerJob(old(s.applications)) ==> OnePerJob(s.applications)
  {
    var existing := s.GetApplicationByJobId(userId, jobId);
    if existing.Some? {
      return Fail(BadRequest, "Already applied to this job");
    }
    var application := NewApplication(id, userId, jobId, jobTitle, company, appliedVia, now);
    s.AddApplication(application);
    r := Ok(application);
  }

  /** PATCH /:id: appends one timeline entry and sets the status of the caller's application. */
  method Patch(s: Store, userId: string, id: string, status: string, note: string, now: string)
    returns (r: Reply<Application>)
    modifies s
    ensures s.users == old(s.users) && s.sessions == old(s.sessions)
    ensures old(OwnedIndex(s.applications, userId, id)).None? ==>
      r == Fail(NotFound, "Application not found") && s.applications == old(s.applications)
    ensures old(OwnedIndex(s.applications, userId, id)).Some? ==>
      var i := old(OwnedIndex(s.applications, userId, id)).value;
      && i < |old(s.applications)|
      && s.applications == old(s.applications)[i := WithStatus(old(s.applications)[i], status, note, now)]
      && r == Ok(s.applications[i])
    ensures OnePerJob(old(s.applications)) ==> OnePerJob(s.applications)
  {
    var idx := OwnedIndex(s.applications, userId, id);
    if idx.None? {
      return Fail(NotFound, "Application not found");
    }
    var i := idx.value;
    var application := s.applications[i];
    application := application.(timeline := application.timeline + [TimelineEntry(status, now, StatusNote(status, note))]);
    application := application.(status := status);
    application := application.(updatedAt := Some(now));
    s.applications := s.applications[i := application];
    r := Ok(application);
  }

  /** GET /job/:jobId. */
  function ApplicationForJob(s: Store, userId: string, jobId: string): (r: Reply<Application>)
    reads s
    ensures r.Fail? <==> s.GetApplicationByJobId(userId, jobId).None?
    ensures r.Fail? ==> r == Fail(NotFound, "Application not found")
    ensures r.Ok? ==> r.value in s.applications && r.value.userId == userId && r.value.jobId == jobId
    ensures r.Ok? ==> exists i :: 0 <= i < |s.applications| && s.applications[i] == r.value
                                 && forall j :: 0 <= j < i ==>
                                      !(s.applications[j].userId == userId && s.applications[j].jobId == jobId)
  {
    match s.GetApplicationByJobId(userId, jobId)
    case None => Fail(NotFound, "Application not found")
    case Some(a) => Ok(a)
  }

  /** A PATCH followed by another: the timeline grows by one entry per call and earlier entries stay. */
  lemma PatchKeepsHistory(a: Application, s1: string, n1: string, t1: string, s2: string, n2: string, t2: string)
    ensures var b := WithStatus(WithStatus(a, s1, n1, t1), s2, n2, t2);
      && |b.timeline| == |a.timeline| + 2
      && b.timeline[..|a.timeline|] == a.timeline
      && b.timeline[|a.timeline|].status == s1
      && b.status == s2
  {
    var b := WithStatus(WithStatus(a, s1, n1, t1), s2, n2, t2);
    assert b.timeline == a.timeline + [TimelineEntry(s1, t1, StatusNote(s1, n1))] + [TimelineEntry(s2, t2, StatusNote(s2, n2))];
  }
}
