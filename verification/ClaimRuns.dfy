/** Runs of the claim workflow: any interleaving of user, admin and worker steps, with stale and
    duplicated worker events. */
module ClaimRuns {
  import opened Prelude
  import opened Claims

  datatype Step =
    | AddEntity(entity: Entity)
    | EnsureRecord(id: nat)
    | CreateStep(user: nat, entityId: nat, personalFound: bool)
    | SubmitStep(user: nat, c: nat)
    | UploadStep(user: nat, c: nat, documentOk: bool, audited: bool)
    | ConfirmStep(user: nat, c: nat, doc: nat, inStorage: bool)
    | DisputeStep(user: nat, c: nat)
    | AssignStep(admin: nat, c: nat)
    | ApproveStep(admin: nat, c: nat)
    | RejectStep(admin: nat, c: nat)
    | WorkerStep(c: nat, scores: seq<real>)

  function Next(s: ClaimState, step: Step): ClaimState {
    match step
    case AddEntity(e) => s.(entities := s.entities + [e])
    case EnsureRecord(id) => if id < |s.entities| then s.(verification := Ensured(s.verification, id)) else s
    case CreateStep(user, e, found) => CreateClaim(s, user, e, found)
    case SubmitStep(user, c) => Submit(s, user, c)
    case UploadStep(user, c, ok, audited) => RequestUpload(s, user, c, ok, audited)
    case ConfirmStep(user, c, doc, inStorage) => ConfirmUpload(s, user, c, doc, inStorage)
    case DisputeStep(user, c) => Dispute(s, user, c)
    case AssignStep(admin, c) => Assign(s, admin, c)
    case ApproveStep(admin, c) => Approve(s, admin, c)
    case RejectStep(admin, c) => Reject(s, admin, c)
    case WorkerStep(c, scores) => WorkerReview(s, c, scores)
  }

  function After(steps: seq<Step>): ClaimState {
    if steps == [] then NOTHING else Next(After(steps[..|steps| - 1]), steps[|steps| - 1])
  }

  // ----- The audit log of one claim -----

  function Trail(audit: seq<AuditEntry>, c: nat): seq<AuditEntry> {
    if audit == [] then []
    else
      var last := audit[|audit| - 1];
      Trail(audit[..|audit| - 1], c) + if last.claim == c then [last] else []
  }

  lemma TrailAppend(audit: seq<AuditEntry>, e: AuditEntry, c: nat)
    ensures Trail(audit + [e], c) == if e.claim == c then Trail(audit, c) + [e] else Trail(audit, c)
  {
    assert (audit + [e])[..|audit|] == audit;
  }

  /** The transition graph: who may do what, from which status to which. */
  predicate Legal(e: AuditEntry) {
    match e.action
    case Created => e.actorType == User && e.oldStatus == None && e.newStatus == Draft
    case DidSubmit => e.actorType == User && e.oldStatus == Some(Draft) && e.newStatus == Submitted
    case DidResubmit => e.actorType == User && e.oldStatus == Some(Rejected) && e.newStatus == Submitted
    case DocumentUploaded =>
      e.actorType == User && e.oldStatus == Some(e.newStatus) && e.newStatus in {Draft, Rejected, Disputed}
    case Assigned =>
      e.actorType == Admin && (e.oldStatus == Some(Submitted) || e.oldStatus == Some(Disputed)) && e.newStatus == UnderReview
    case DidApprove => e.actorType == Admin && e.oldStatus == Some(UnderReview) && e.newStatus == Approved
    case DidReject => e.actorType == Admin && e.oldStatus == Some(UnderReview) && e.newStatus == Rejected
    case DidDispute => e.actorType == User && e.oldStatus == Some(Rejected) && e.newStatus == Disputed
  }

  /** From one logged status to the next: the same, or the worker's unlogged step. */
  predicate Follows(logged: ClaimStatus, next: ClaimStatus) {
    logged == next || (logged == Submitted && next == UnderReview)
  }

  /** The log replays as a path of the graph that starts with the creation and ends at `status`,
      with no gap but the worker's. */
  predicate Replays(trail: seq<AuditEntry>, status: ClaimStatus) {
    && |trail| > 0
    && (forall i :: 0 <= i < |trail| ==> Legal(trail[i]) && (trail[i].action == Created <==> i == 0))
    && (forall i :: 0 < i < |trail| ==> trail[i].oldStatus.Some? && Follows(trail[i - 1].newStatus, trail[i].oldStatus.value))
    && Follows(trail[|trail| - 1].newStatus, status)
  }

  lemma ReplayStep(trail: seq<AuditEntry>, status: ClaimStatus, e: AuditEntry)
    requires Replays(trail, status) && Legal(e) && e.action != Created && e.oldStatus == Some(status)
    ensures Replays(trail + [e], e.newStatus)
  {
  }

  function Count(trail: seq<AuditEntry>, a: Action): nat {
    if trail == [] then 0 else Count(trail[..|trail| - 1], a) + if trail[|trail| - 1].action == a then 1 else 0
  }

  function Requests(trail: seq<AuditEntry>): nat {
    Count(trail, DidSubmit) + Count(trail, DidResubmit)
  }

  predicate UnderConsideration(s: ClaimStatus) { s in {Submitted, UnderReview, Disputed} }

  /** In any log that replays: requests plus disputes less rejections less approvals is one while
      the claim is under consideration and zero otherwise, and there is at most one approval. */
  lemma {:induction false} ReplayCounts(trail: seq<AuditEntry>, status: ClaimStatus)
    requires Replays(trail, status)
    ensures Requests(trail) + Count(trail, DidDispute) - Count(trail, DidReject) - Count(trail, DidApprove)
         == if UnderConsideration(status) then 1 else 0
    ensures Count(trail, DidApprove) == if status == Approved then 1 else 0
    decreases |trail|
  {
    var last := trail[|trail| - 1];
    var front := trail[..|trail| - 1];
    assert forall a :: Count(trail, a) == Count(front, a) + if last.action == a then 1 else 0;
    assert Legal(last);
    if |trail| == 1 {
      assert forall a :: Count(front, a) == 0;
    } else {
      assert trail[|trail| - 2] == front[|front| - 1];
      ReplayCounts(front, last.oldStatus.value);
    }
  }

  // ----- The invariant -----

  function VerificationFor(s: ClaimStatus): Verification {
    match s
    case Draft => Unverified
    case Submitted => Pending
    case UnderReview => Pending
    case Disputed => Pending
    case Approved => Verified
    case Rejected => Denied
  }

  /** What holds of one claim and its entity. */
  predicate ClaimOk(s: ClaimState, c: nat)
    requires c < |s.claims|
  {
    var claim := s.claims[c];
    && claim.entity < |s.entities|
    && claim.entity in s.verification
    && s.verification[claim.entity] == VerificationFor(claim.status)
    && (s.entities[claim.entity].isShadow <==> claim.status != Approved)
    && (claim.status == Approved ==> s.entities[claim.entity].owner == Some(claim.claimant) && claim.reviewer.Some?)
    && (claim.status != Draft ==> UploadedCount(claim.documents) > 0)
    && Replays(Trail(s.audit, c), claim.status)
  }

  predicate Unclaimed(s: ClaimState, e: nat) {
    forall c :: 0 <= c < |s.claims| ==> s.claims[c].entity != e
  }

  ghost predicate Consistent(s: ClaimState) {
    && (forall c :: 0 <= c < |s.claims| ==> ClaimOk(s, c))
    && (forall c, d :: 0 <= c < d < |s.claims| ==> s.claims[c].entity != s.claims[d].entity)
    && (forall e :: e in s.verification ==> e < |s.entities|)
    && (forall e :: e in s.verification && Unclaimed(s, e) ==> s.verification[e] == Unverified)
    && (forall c :: c >= |s.claims| ==> Trail(s.audit, c) == [])
  }

  /** A claim whose rows a step does not touch stays as it was. */
  lemma {:induction false} OthersKept(s: ClaimState, t: ClaimState, c: nat, d: nat)
    requires Consistent(s) && d < |s.claims| && d != c && |t.claims| >= |s.claims| && t.claims[d] == s.claims[d]
    requires |t.entities| >= |s.entities|
    requires var e := s.claims[d].entity;
             e < |s.entities| && e in s.verification && e in t.verification && t.verification[e] == s.verification[e] && t.entities[e] == s.entities[e]
    requires Trail(t.audit, d) == Trail(s.audit, d)
    ensures ClaimOk(t, d)
  {
    assert ClaimOk(s, d);
  }

  /** The conditions under which a status change keeps everything. */
  predicate GoodMove(s: ClaimState, c: nat, to: ClaimStatus, e: AuditEntry)
    requires c < |s.claims|
  {
    && e.claim == c && e.newStatus == to && e.oldStatus == Some(s.claims[c].status)
    && Legal(e) && e.action != Created
    && s.claims[c].status != Approved
    && (to != Draft ==> UploadedCount(s.claims[c].documents) > 0)
    && to != Draft
  }

  lemma MoveKeeps(s: ClaimState, t: ClaimState, c: nat, to: ClaimStatus, reviewer: Option<nat>, e: AuditEntry)
    requires Consistent(s) && c < |s.claims| && GoodMove(s, c, to, e)
    requires t.claims == s.claims[c := s.claims[c].(status := to, reviewer := reviewer)]
    requires t.verification == s.verification[s.claims[c].entity := VerificationFor(to)]
    requires t.audit == s.audit + [e]
    requires t.entities == if to == Approved then LinkShadow(s.entities, s.claims[c].entity, s.claims[c].claimant) else s.entities
    requires to == Approved ==> reviewer.Some?
    ensures Consistent(t)
  {
    assert ClaimOk(s, c);
    forall d { TrailAppend(s.audit, e, d); }
    ReplayStep(Trail(s.audit, c), s.claims[c].status, e);
    forall d | 0 <= d < |t.claims| ensures ClaimOk(t, d) {
      if d != c {
        assert s.claims[d].entity != s.claims[c].entity;
        assert ClaimOk(s, d);
        OthersKept(s, t, c, d);
      }
    }
    forall x | x in t.verification && Unclaimed(t, x) ensures t.verification[x] == Unverified {
      assert t.claims[c].entity == s.claims[c].entity;
      assert forall d :: 0 <= d < |s.claims| ==> t.claims[d].entity == s.claims[d].entity;
      assert Unclaimed(s, x);
    }
  }

  lemma CreateKeepsClaims(s: ClaimState, user: nat, e: nat, found: bool)
    requires Consistent(s) && CreateCheck(s, e, found).None?
    ensures forall d :: 0 <= d <= |s.claims| ==> ClaimOk(CreateClaim(s, user, e, found), d)
  {
    var t := CreateClaim(s, user, e, found);
    forall d { TrailAppend(s.audit, AuditEntry(|s.claims|, user, User, Created, None, Draft), d); }
    assert Unclaimed(s, e);
    forall d | 0 <= d <= |s.claims| ensures ClaimOk(t, d) {
      if d < |s.claims| {
        assert ClaimOk(s, d);
        OthersKept(s, t, |s.claims|, d);
      }
    }
  }

  lemma CreateKeeps(s: ClaimState, user: nat, e: nat, found: bool)
    requires Consistent(s)
    ensures Consistent(CreateClaim(s, user, e, found))
  {
    if CreateCheck(s, e, found).None? {
      var t := CreateClaim(s, user, e, found);
      CreateKeepsClaims(s, user, e, found);
      forall d { TrailAppend(s.audit, AuditEntry(|s.claims|, user, User, Created, None, Draft), d); }
      forall x | x in t.verification && Unclaimed(t, x) ensures t.verification[x] == Unverified {
        assert t.claims[|s.claims|].entity == e;
        assert forall d :: 0 <= d < |s.claims| ==> t.claims[d] == s.claims[d];
        assert Unclaimed(s, x);
      }
    }
  }

  /** Steps that leave every status, entity and verification alone: uploads and confirmations. */
  lemma DocumentsKeep(s: ClaimState, t: ClaimState, c: nat, docs: seq<DocStatus>, entries: seq<AuditEntry>)
    requires Consistent(s) && c < |s.claims| && UploadedCount(docs) >= UploadedCount(s.claims[c].documents)
    requires t == s.(claims := s.claims[c := s.claims[c].(documents := docs)], audit := s.audit + entries)
    requires entries == [] || (|entries| == 1 && entries[0].claim == c && Legal(entries[0]) && entries[0].action == DocumentUploaded
                               && entries[0].newStatus == s.claims[c].status)
    ensures Consistent(t)
  {
    assert ClaimOk(s, c);
    if entries == [] {
      assert t.audit == s.audit;
    } else {
      assert entries == [entries[0]];
      forall d { TrailAppend(s.audit, entries[0], d); }
      ReplayStep(Trail(s.audit, c), s.claims[c].status, entries[0]);
    }
    forall d | 0 <= d < |t.claims| ensures ClaimOk(t, d) {
      if d != c {
        assert ClaimOk(s, d);
        OthersKept(s, t, c, d);
      }
    }
    forall x | x in t.verification && Unclaimed(t, x) ensures t.verification[x] == Unverified {
      assert forall d :: 0 <= d < |s.claims| ==> t.claims[d].entity == s.claims[d].entity;
      assert Unclaimed(s, x);
    }
  }

  lemma {:induction false} ConfirmingCounts(docs: seq<DocStatus>, i: nat)
    requires i < |docs| && docs[i] == DocPending
    ensures UploadedCount(docs[i := DocUploaded]) == UploadedCount(docs) + 1
  {
    var after := docs[i := DocUploaded];
    if i == |docs| - 1 {
      assert after[..|docs| - 1] == docs[..|docs| - 1];
    } else {
      ConfirmingCounts(docs[..|docs| - 1], i);
      assert after[..|docs| - 1] == docs[..|docs| - 1][i := DocUploaded];
    }
  }

  lemma UploadKeeps(s: ClaimState, user: nat, c: nat, documentOk: bool, audited: bool)
    requires Consistent(s)
    ensures Consistent(RequestUpload(s, user, c, documentOk, audited))
  {
    if UploadCheck(s, user, c, documentOk).None? {
      var claim := s.claims[c];
      var docs := claim.documents + [DocPending];
      assert docs[..|docs| - 1] == claim.documents;
      DocumentsKeep(s, RequestUpload(s, user, c, documentOk, audited), c, docs,
        if audited then [AuditEntry(c, user, User, DocumentUploaded, Some(claim.status), claim.status)] else []);
    }
  }

  lemma ConfirmKeeps(s: ClaimState, user: nat, c: nat, doc: nat, inStorage: bool)
    requires Consistent(s)
    ensures Consistent(ConfirmUpload(s, user, c, doc, inStorage))
  {
    if ConfirmCheck(s, user, c, doc, inStorage).None? {
      ConfirmingCounts(s.claims[c].documents, doc);
      assert s.audit + [] == s.audit;
      DocumentsKeep(s, ConfirmUpload(s, user, c, doc, inStorage), c, s.claims[c].documents[doc := DocUploaded], []);
    }
  }

  /** The worker's step: nothing but the status changes, and the log allows for it. */
  lemma WorkerKeeps(s: ClaimState, c: nat, scores: seq<real>)
    requires Consistent(s)
    ensures Consistent(WorkerReview(s, c, scores))
  {
    var t := WorkerReview(s, c, scores);
    if t != s {
      assert ClaimOk(s, c);
      forall d | 0 <= d < |t.claims| ensures ClaimOk(t, d) {
        if d != c {
          assert ClaimOk(s, d);
          OthersKept(s, t, c, d);
        }
      }
      forall x | x in t.verification && Unclaimed(t, x) ensures t.verification[x] == Unverified {
        assert forall d :: 0 <= d < |s.claims| ==> t.claims[d].entity == s.claims[d].entity;
        assert Unclaimed(s, x);
      }
    }
  }

  lemma UserMovesKeep(s: ClaimState, user: nat, c: nat)
    requires Consistent(s)
    ensures Consistent(Submit(s, user, c)) && Consistent(Dispute(s, user, c))
  {
    if c < |s.claims| {
      assert ClaimOk(s, c);
      var claim := s.claims[c];
      if SubmitCheck(s, user, c).None? {
        var resubmit := claim.status == Rejected;
        MoveKeeps(s, Submit(s, user, c), c, Submitted, if resubmit then None else claim.reviewer,
          AuditEntry(c, user, User, if resubmit then DidResubmit else DidSubmit, Some(claim.status), Submitted));
      }
      if DisputeCheck(s, user, c).None? {
        MoveKeeps(s, Dispute(s, user, c), c, Disputed, claim.reviewer,
          AuditEntry(c, user, User, DidDispute, Some(Rejected), Disputed));
      }
    }
  }

  lemma AdminMovesKeep(s: ClaimState, admin: nat, c: nat)
    requires Consistent(s)
    ensures Consistent(Assign(s, admin, c)) && Consistent(Approve(s, admin, c)) && Consistent(Reject(s, admin, c))
  {
    if c < |s.claims| {
      assert ClaimOk(s, c);
      var claim := s.claims[c];
      if AssignCheck(s, c).None? {
        assert s.verification == s.verification[claim.entity := Pending];
        MoveKeeps(s, Assign(s, admin, c), c, UnderReview, Some(admin),
          AuditEntry(c, admin, Admin, Assigned, Some(claim.status), UnderReview));
      }
      if ReviewCheck(s, c).None? {
        MoveKeeps(s, Approve(s, admin, c), c, Approved, Some(admin),
          AuditEntry(c, admin, Admin, DidApprove, Some(UnderReview), Approved));
        MoveKeeps(s, Reject(s, admin, c), c, Rejected, Some(admin),
          AuditEntry(c, admin, Admin, DidReject, Some(UnderReview), Rejected));
      }
    }
  }

  lemma EntityStepsKeep(s: ClaimState, step: Step)
    requires Consistent(s) && (step.AddEntity? || step.EnsureRecord?)
    ensures Consistent(Next(s, step))
  {
    var t := Next(s, step);
    forall d | 0 <= d < |t.claims| ensures ClaimOk(t, d) {
      assert ClaimOk(s, d);
    }
    forall x | x in t.verification && Unclaimed(t, x) ensures t.verification[x] == Unverified {
      assert Unclaimed(s, x);
    }
  }

  lemma StepKeeps(s: ClaimState, step: Step)
    requires Consistent(s)
    ensures Consistent(Next(s, step))
  {
    match step
    case AddEntity(_) => EntityStepsKeep(s, step);
    case EnsureRecord(_) => EntityStepsKeep(s, step);
    case CreateStep(user, e, found) => CreateKeeps(s, user, e, found);
    case SubmitStep(user, c) => UserMovesKeep(s, user, c);
    case UploadStep(user, c, ok, audited) => UploadKeeps(s, user, c, ok, audited);
    case ConfirmStep(user, c, doc, inStorage) => ConfirmKeeps(s, user, c, doc, inStorage);
    case DisputeStep(user, c) => UserMovesKeep(s, user, c);
    case AssignStep(admin, c) => AdminMovesKeep(s, admin, c);
    case ApproveStep(admin, c) => AdminMovesKeep(s, admin, c);
    case RejectStep(admin, c) => AdminMovesKeep(s, admin, c);
    case WorkerStep(c, scores) => WorkerKeeps(s, c, scores);
  }

  /** In every run, each entity has at most one claim; its verification is a function of the
      claim's status; it stops being a shadow, and belongs to the claimant, exactly on approval; a
      claim that has left draft has a confirmed document; and each claim's log replays to its
      status. */
  lemma {:induction false} RunKeeps(steps: seq<Step>)
    ensures Consistent(After(steps))
  {
    if steps != [] {
      RunKeeps(steps[..|steps| - 1]);
      StepKeeps(After(steps[..|steps| - 1]), steps[|steps| - 1]);
    }
  }

  /** Approval is terminal: no later steps, whoever takes them, move the claim again. */
  lemma {:induction false} ApprovedIsFinal(steps: seq<Step>, later: seq<Step>, c: nat)
    requires c < |After(steps).claims| && After(steps).claims[c].status == Approved
    ensures c < |After(steps + later).claims| && After(steps + later).claims[c].status == Approved
    decreases |later|
  {
    if later == [] {
      assert steps + later == steps;
    } else {
      var before := later[..|later| - 1];
      ApprovedIsFinal(steps, before, c);
      assert (steps + later)[..|steps + later| - 1] == steps + before;
    }
  }

  /** An approved claim was approved by an administrator, and last of all its logged moves. */
  lemma {:induction false} ApprovedByAdmin(steps: seq<Step>, c: nat)
    requires c < |After(steps).claims| && After(steps).claims[c].status == Approved
    ensures var trail := Trail(After(steps).audit, c);
            |trail| > 0 && trail[|trail| - 1].action == DidApprove && trail[|trail| - 1].actorType == Admin
  {
    RunKeeps(steps);
    assert ClaimOk(After(steps), c);
  }

  // ----- Events -----

  function EventCount(outbox: seq<Event>, kind: EventKind, c: nat): nat {
    if outbox == [] then 0
    else EventCount(outbox[..|outbox| - 1], kind, c) + if outbox[|outbox| - 1] == Event(kind, c) then 1 else 0
  }

  /** How many log entries call for an event of a kind. */
  function Logged(trail: seq<AuditEntry>, kind: EventKind): nat {
    match kind
    case ClaimRequested => Requests(trail)
    case ClaimRejected => Count(trail, DidReject)
    case ClaimApproved => Count(trail, DidApprove)
  }

  predicate Tallies(outbox: seq<Event>, trail: seq<AuditEntry>, c: nat) {
    forall kind :: EventCount(outbox, kind, c) == Logged(trail, kind)
  }

  /** The outbox tells of every logged request, rejection and approval, and of nothing else. */
  predicate EventsMatch(s: ClaimState, c: nat) {
    Tallies(s.outbox, Trail(s.audit, c), c)
  }

  function EventOf(a: Action): Option<EventKind> {
    match a
    case DidSubmit => Some(ClaimRequested)
    case DidResubmit => Some(ClaimRequested)
    case DidReject => Some(ClaimRejected)
    case DidApprove => Some(ClaimApproved)
    case _ => None
  }

  lemma CountAppend(trail: seq<AuditEntry>, e: AuditEntry, a: Action)
    ensures Count(trail + [e], a) == Count(trail, a) + if e.action == a then 1 else 0
  {
    assert (trail + [e])[..|trail|] == trail;
  }

  lemma EventAppend(outbox: seq<Event>, e: Event, kind: EventKind, c: nat)
    ensures EventCount(outbox + [e], kind, c) == EventCount(outbox, kind, c) + if e == Event(kind, c) then 1 else 0
  {
    assert (outbox + [e])[..|outbox|] == outbox;
  }

  lemma OwnEntryTallies(outbox: seq<Event>, trail: seq<AuditEntry>, e: AuditEntry, c: nat)
    requires Tallies(outbox, trail, c)
    ensures match EventOf(e.action)
            case None => Tallies(outbox, trail + [e], c)
            case Some(kind) => Tallies(outbox + [Event(kind, c)], trail + [e], c)
  {
    CountAppend(trail, e, DidSubmit);
    CountAppend(trail, e, DidResubmit);
    CountAppend(trail, e, DidReject);
    CountAppend(trail, e, DidApprove);
    match EventOf(e.action)
    case None =>
    case Some(kind) =>
      EventAppend(outbox, Event(kind, c), ClaimRequested, c);
      EventAppend(outbox, Event(kind, c), ClaimRejected, c);
      EventAppend(outbox, Event(kind, c), ClaimApproved, c);
  }

  lemma OtherEntryTallies(outbox: seq<Event>, trail: seq<AuditEntry>, kind: EventKind, other: nat, c: nat)
    requires Tallies(outbox, trail, c) && other != c
    ensures Tallies(outbox + [Event(kind, other)], trail, c)
  {
    EventAppend(outbox, Event(kind, other), ClaimRequested, c);
    EventAppend(outbox, Event(kind, other), ClaimRejected, c);
    EventAppend(outbox, Event(kind, other), ClaimApproved, c);
  }

  lemma {:induction false} LogAndEmit(audit: seq<AuditEntry>, outbox: seq<Event>, e: AuditEntry, c: nat)
    requires Tallies(outbox, Trail(audit, c), c)
    ensures match EventOf(e.action)
            case None => Tallies(outbox, Trail(audit + [e], c), c)
            case Some(kind) => Tallies(outbox + [Event(kind, e.claim)], Trail(audit + [e], c), c)
  {
    TrailAppend(audit, e, c);
    if e.claim == c {
      OwnEntryTallies(outbox, Trail(audit, c), e, c);
    } else if EventOf(e.action).Some? {
      OtherEntryTallies(outbox, Trail(audit, c), EventOf(e.action).value, e.claim, c);
    }
  }

  /** Every step leaves the log and the outbox alone, or adds one entry and the event it calls for. */
  lemma {:induction false} StepLogs(s: ClaimState, step: Step) returns (e: Option<AuditEntry>)
    ensures var t := Next(s, step);
            match e
            case None => t.audit == s.audit && t.outbox == s.outbox
            case Some(entry) =>
              && t.audit == s.audit + [entry]
              && t.outbox == s.outbox + if EventOf(entry.action).Some? then [Event(EventOf(entry.action).value, entry.claim)] else []
  {
    var t := Next(s, step);
    if t.audit == s.audit {
      e := None;
    } else {
      assert |t.audit| == |s.audit| + 1;
      e := Some(t.audit[|s.audit|]);
    }
  }

  /** In every run, for every claim: claim-requested events equal the submissions and
      resubmissions, rejected events the rejections, approved events the approvals; requests plus
      disputes less decisions is one exactly while the claim is under consideration; and there is
      one approved event when the claim is approved and none before. */
  lemma {:induction false} EventsAndCounts(steps: seq<Step>, c: nat)
    ensures var s := After(steps);
            && EventsMatch(s, c)
            && (c < |s.claims| ==>
                var trail, status := Trail(s.audit, c), s.claims[c].status;
                && Requests(trail) + Count(trail, DidDispute) - Count(trail, DidReject) - Count(trail, DidApprove)
                    == (if UnderConsideration(status) then 1 else 0)
                && EventCount(s.outbox, ClaimApproved, c) == if status == Approved then 1 else 0)
  {
    RunEvents(steps, c);
    RunKeeps(steps);
    var s := After(steps);
    if c < |s.claims| {
      assert ClaimOk(s, c);
      ReplayCounts(Trail(s.audit, c), s.claims[c].status);
    }
  }

  lemma {:induction false} RunEvents(steps: seq<Step>, c: nat)
    ensures EventsMatch(After(steps), c)
  {
    if steps != [] {
      var s, step := After(steps[..|steps| - 1]), steps[|steps| - 1];
      RunEvents(steps[..|steps| - 1], c);
      var e := StepLogs(s, step);
      if e.Some? {
        assert s.outbox + [] == s.outbox;
        LogAndEmit(s.audit, s.outbox, e.value, c);
      }
    }
  }
}
