/** The company-claim workflow (internal/claim/service.go, internal/claim/worker.go): its tables,
    what each committed operation leaves behind, and the stored form that is updated in place. */
module Claims {
  import opened Prelude

  datatype ClaimStatus = Draft | Submitted | UnderReview | Approved | Rejected | Disputed

  datatype Verification = Unverified | Pending | Verified | Denied

  datatype ActorType = User | Admin

  datatype Action = Created | DidSubmit | DidResubmit | DocumentUploaded | Assigned | DidApprove | DidReject | DidDispute

  datatype DocStatus = DocPending | DocUploaded

  datatype Entity = Entity(isShadow: bool, owner: Option<nat>)

  datatype Claim = Claim(entity: nat, claimant: nat, status: ClaimStatus, reviewer: Option<nat>, documents: seq<DocStatus>)

  datatype AuditEntry = AuditEntry(
    claim: nat, actor: nat, actorType: ActorType, action: Action,
    oldStatus: Option<ClaimStatus>, newStatus: ClaimStatus)

  datatype EventKind = ClaimRequested | ClaimApproved | ClaimRejected

  datatype Event = Event(kind: EventKind, claim: nat)

  datatype ClaimState = ClaimState(
    entities: seq<Entity>,
    verification: map<nat, Verification>,
    claims: seq<Claim>,
    audit: seq<AuditEntry>,
    outbox: seq<Event>)

  const NOTHING := ClaimState([], map[], [], [], [])

  datatype ClaimError =
    | EntityNotFound | NotShadow | ClaimExists | NoPersonalEntity
    | ClaimNotFound | NotOwner | InvalidStatus | DocumentsMissing
    | InvalidDocument | DocNotFound | UploadNotConfirmed | InvalidDocStatus

  predicate HasClaimForEntity(claims: seq<Claim>, entity: nat) {
    exists c :: 0 <= c < |claims| && claims[c].entity == entity
  }

  /** CountClaimDocuments counts confirmed uploads only. */
  function UploadedCount(docs: seq<DocStatus>): nat {
    if docs == [] then 0
    else UploadedCount(docs[..|docs| - 1]) + if docs[|docs| - 1] == DocUploaded then 1 else 0
  }

  /** The verification row is created unverified when there is none. */
  function Ensured(v: map<nat, Verification>, entity: nat): map<nat, Verification> {
    if entity in v then v else v[entity := Unverified]
  }

  /** UPDATE … WHERE: changes nothing when the row is missing. */
  function SetVerification(v: map<nat, Verification>, entity: nat, to: Verification): map<nat, Verification> {
    if entity in v then v[entity := to] else v
  }

  /** UPDATE … WHERE is_shadow = TRUE. */
  function LinkShadow(entities: seq<Entity>, entity: nat, user: nat): seq<Entity> {
    if entity < |entities| && entities[entity].isShadow
    then entities[entity := Entity(false, Some(user))] else entities
  }

  // ----- The operations -----

  function CreateCheck(s: ClaimState, entity: nat, personalFound: bool): Option<ClaimError> {
    if entity >= |s.entities| then Some(EntityNotFound)
    else if !s.entities[entity].isShadow then Some(NotShadow)
    else if HasClaimForEntity(s.claims, entity) then Some(ClaimExists)
    else if !personalFound then Some(NoPersonalEntity)
    else None
  }

  function CreateClaim(s: ClaimState, user: nat, entity: nat, personalFound: bool): ClaimState {
    if CreateCheck(s, entity, personalFound).Some? then s
    else s.(claims := s.claims + [Claim(entity, user, Draft, None, [])],
            verification := Ensured(s.verification, entity),
            audit := s.audit + [AuditEntry(|s.claims|, user, User, Created, None, Draft)])
  }

  /** A status change with its reviewer, verification, audit entry and event. */
  function Move(s: ClaimState, c: nat, to: ClaimStatus, reviewer: Option<nat>, actor: nat, actorType: ActorType,
      action: Action, v: map<nat, Verification>, events: seq<Event>): ClaimState
    requires c < |s.claims|
  {
    s.(claims := s.claims[c := s.claims[c].(status := to, reviewer := reviewer)],
       verification := v,
       audit := s.audit + [AuditEntry(c, actor, actorType, action, Some(s.claims[c].status), to)],
       outbox := s.outbox + events)
  }

  function SubmitCheck(s: ClaimState, user: nat, c: nat): Option<ClaimError> {
    if c >= |s.claims| then Some(ClaimNotFound)
    else if s.claims[c].claimant != user then Some(NotOwner)
    else if s.claims[c].status != Draft && s.claims[c].status != Rejected then Some(InvalidStatus)
    else if UploadedCount(s.claims[c].documents) == 0 then Some(DocumentsMissing)
    else None
  }

  function Submit(s: ClaimState, user: nat, c: nat): ClaimState {
    if SubmitCheck(s, user, c).Some? then s
    else
      var claim := s.claims[c];
      Move(s, c, Submitted, if claim.status == Rejected then None else claim.reviewer, user, User,
        if claim.status == Rejected then DidResubmit else DidSubmit,
        SetVerification(Ensured(s.verification, claim.entity), claim.entity, Pending),
        [Event(ClaimRequested, c)])
  }

  function UploadCheck(s: ClaimState, user: nat, c: nat, documentOk: bool): Option<ClaimError> {
    if c >= |s.claims| then Some(ClaimNotFound)
    else if s.claims[c].claimant != user then Some(NotOwner)
    else if s.claims[c].status !in {Draft, Rejected, Disputed} then Some(InvalidStatus)
    else if !documentOk then Some(InvalidDocument)
    else None
  }

  /** The document row and its audit entry are separate writes; the second may be lost. */
  function RequestUpload(s: ClaimState, user: nat, c: nat, documentOk: bool, audited: bool): ClaimState {
    if UploadCheck(s, user, c, documentOk).Some? then s
    else
      var claim := s.claims[c];
      s.(claims := s.claims[c := claim.(documents := claim.documents + [DocPending])],
         audit := s.audit
           + if audited then [AuditEntry(c, user, User, DocumentUploaded, Some(claim.status), claim.status)] else [])
  }

  function ConfirmCheck(s: ClaimState, user: nat, c: nat, doc: nat, inStorage: bool): Option<ClaimError> {
    if c >= |s.claims| then Some(ClaimNotFound)
    else if s.claims[c].claimant != user then Some(NotOwner)
    else if doc >= |s.claims[c].documents| then Some(DocNotFound)
    else if !inStorage then Some(UploadNotConfirmed)
    else if s.claims[c].documents[doc] != DocPending then Some(InvalidDocStatus)
    else None
  }

  function ConfirmUpload(s: ClaimState, user: nat, c: nat, doc: nat, inStorage: bool): ClaimState {
    if ConfirmCheck(s, user, c, doc, inStorage).Some? then s
    else s.(claims := s.claims[c := s.claims[c].(documents := s.claims[c].documents[doc := DocUploaded])])
  }

  function DisputeCheck(s: ClaimState, user: nat, c: nat): Option<ClaimError> {
    if c >= |s.claims| then Some(ClaimNotFound)
    else if s.claims[c].claimant != user then Some(NotOwner)
    else if s.claims[c].status != Rejected then Some(InvalidStatus)
    else None
  }

  function Dispute(s: ClaimState, user: nat, c: nat): ClaimState {
    if DisputeCheck(s, user, c).Some? then s
    else
      var e := s.claims[c].entity;
      Move(s, c, Disputed, s.claims[c].reviewer, user, User, DidDispute,
        SetVerification(Ensured(s.verification, e), e, Pending), [])
  }

  function AssignCheck(s: ClaimState, c: nat): Option<ClaimError> {
    if c >= |s.claims| then Some(ClaimNotFound)
    else if s.claims[c].status != Submitted && s.claims[c].status != Disputed then Some(InvalidStatus)
    else None
  }

  function Assign(s: ClaimState, admin: nat, c: nat): ClaimState {
    if AssignCheck(s, c).Some? then s
    else Move(s, c, UnderReview, Some(admin), admin, Admin, Assigned, s.verification, [])
  }

  function ReviewCheck(s: ClaimState, c: nat): Option<ClaimError> {
    if c >= |s.claims| then Some(ClaimNotFound)
    else if s.claims[c].status != UnderReview then Some(InvalidStatus)
    else None
  }

  function Approve(s: ClaimState, admin: nat, c: nat): ClaimState {
    if ReviewCheck(s, c).Some? then s
    else
      var claim := s.claims[c];
      Move(s, c, Approved, Some(admin), admin, Admin, DidApprove,
        SetVerification(s.verification, claim.entity, Verified), [Event(ClaimApproved, c)])
      .(entities := LinkShadow(s.entities, claim.entity, claim.claimant))
  }

  function Reject(s: ClaimState, admin: nat, c: nat): ClaimState {
    if ReviewCheck(s, c).Some? then s
    else
      Move(s, c, Rejected, Some(admin), admin, Admin, DidReject,
        SetVerification(s.verification, s.claims[c].entity, Denied), [Event(ClaimRejected, c)])
  }

  const MATCH_THRESHOLD: real := 0.8

  /** The worker on a claim-requested event, however stale: a strong enough duplicate sends a
      submitted claim to review, without an audit entry. */
  function WorkerReview(s: ClaimState, c: nat, scores: seq<real>): ClaimState {
    if c < |s.claims| && s.claims[c].status == Submitted && exists i :: 0 <= i < |scores| && scores[i] >= MATCH_THRESHOLD
    then s.(claims := s.claims[c := s.claims[c].(status := UnderReview)]) else s
  }

  // ----- The stored form -----

  class ClaimStore {
    var entities: seq<Entity>
    var verification: map<nat, Verification>
    var claims: seq<Claim>
    var audit: seq<AuditEntry>
    var outbox: seq<Event>

    function State(): ClaimState
      reads this
    {
      ClaimState(entities, verification, claims, audit, outbox)
    }

    constructor ()
      ensures State() == NOTHING
    {
      entities, verification, claims, audit, outbox := [], map[], [], [], [];
    }

    method EnsureVerificationRecord(entity: nat)
      modifies this`verification
      ensures verification == Ensured(old(verification), entity)
    {
      if entity !in verification {
        verification := verification[entity := Unverified];
      }
    }

    method OpenClaim(user: nat, entity: nat, personalFound: bool) returns (r: Result<nat, ClaimError>)
      modifies this
      ensures State() == CreateClaim(old(State()), user, entity, personalFound)
      ensures r == if CreateCheck(old(State()), entity, personalFound).Some?
                   then Err(CreateCheck(old(State()), entity, personalFound).value) else Ok(|old(claims)|)
      ensures r == Err(EntityNotFound) <==> entity >= |entities|
      ensures r == Err(NotShadow) <==> entity < |entities| && !entities[entity].isShadow
    {
      if entity >= |entities| {
        return Err(EntityNotFound);
      }
      if !entities[entity].isShadow {
        return Err(NotShadow);
      }
      if HasClaimForEntity(claims, entity) {
        return Err(ClaimExists);
      }
      if !personalFound {
        return Err(NoPersonalEntity);
      }
      var id := |claims|;
      claims := claims + [Claim(entity, user, Draft, None, [])];
      EnsureVerificationRecord(entity);
      audit := audit + [AuditEntry(id, user, User, Created, None, Draft)];
      r := Ok(id);
    }

    method SubmitClaim(user: nat, c: nat) returns (r: Result<(), ClaimError>)
      modifies this
      ensures State() == Submit(old(State()), user, c)
      ensures r == if SubmitCheck(old(State()), user, c).Some? then Err(SubmitCheck(old(State()), user, c).value) else Ok(())
      ensures r == Err(ClaimNotFound) <==> c >= |claims|
      ensures r == Err(NotOwner) <==> c < |claims| && claims[c].claimant != user
      ensures r == Err(InvalidStatus) <==> c < |claims| && claims[c].claimant == user && old(claims)[c].status !in {Draft, Rejected}
    {
      if c >= |claims| {
        return Err(ClaimNotFound);
      }
      var claim := claims[c];
      if claim.claimant != user {
        return Err(NotOwner);
      }
      var oldStatus := claim.status;
      var action := DidSubmit;
      if oldStatus != Draft && oldStatus != Rejected {
        return Err(InvalidStatus);
      }
      if oldStatus == Rejected {
        action := DidResubmit;
      }
      if UploadedCount(claim.documents) == 0 {
        return Err(DocumentsMissing);
      }
      if oldStatus == Rejected {
        claims := claims[c := claim.(status := Submitted, reviewer := None)];
      } else {
        claims := claims[c := claim.(status := Submitted)];
      }
      EnsureVerificationRecord(claim.entity);
      verification := verification[claim.entity := Pending];
      audit := audit + [AuditEntry(c, user, User, action, Some(oldStatus), Submitted)];
      outbox := outbox + [Event(ClaimRequested, c)];
      r := Ok(());
    }

    method RequestDocumentUpload(user: nat, c: nat, documentOk: bool, audited: bool) returns (r: Result<nat, ClaimError>)
      modifies this
      ensures State() == RequestUpload(old(State()), user, c, documentOk, audited)
      ensures r.Ok? <==> UploadCheck(old(State()), user, c, documentOk).None?
      ensures r.Err? ==> UploadCheck(old(State()), user, c, documentOk) == Some(r.error)
      ensures r == Err(ClaimNotFound) <==> c >= |claims|
      ensures r == Err(NotOwner) <==> c < |claims| && claims[c].claimant != user
      ensures r == Err(InvalidDocument) ==> !documentOk
    {
      if c >= |claims| {
        return Err(ClaimNotFound);
      }
      var claim := claims[c];
      if claim.claimant != user {
        return Err(NotOwner);
      }
      if claim.status != Draft && claim.status != Rejected && claim.status != Disputed {
        return Err(InvalidStatus);
      }
      if !documentOk {
        return Err(InvalidDocument);
      }
      claims := claims[c := claim.(documents := claim.documents + [DocPending])];
      if audited {
        audit := audit + [AuditEntry(c, user, User, DocumentUploaded, Some(claim.status), claim.status)];
      }
      r := Ok(|claim.documents|);
    }

    method ConfirmDocumentUpload(user: nat, c: nat, doc: nat, inStorage: bool) returns (r: Result<(), ClaimError>)
      modifies this
      ensures State() == ConfirmUpload(old(State()), user, c, doc, inStorage)
      ensures r.Ok? <==> ConfirmCheck(old(State()), user, c, doc, inStorage).None?
      ensures r == Err(ClaimNotFound) <==> c >= |claims|
      ensures r == Err(NotOwner) <==> c < |claims| && claims[c].claimant != user
      ensures r == Err(DocNotFound) <==> c < |claims| && claims[c].claimant == user && doc >= |claims[c].documents|
    {
      if c >= |claims| {
        return Err(ClaimNotFound);
      }
      if claims[c].claimant != user {
        return Err(NotOwner);
      }
      if doc >= |claims[c].documents| {
        return Err(DocNotFound);
      }
      if !inStorage {
        return Err(UploadNotConfirmed);
      }
      if claims[c].documents[doc] != DocPending {
        return Err(InvalidDocStatus);
      }
      claims := claims[c := claims[c].(documents := claims[c].documents[doc := DocUploaded])];
      r := Ok(());
    }

    method DisputeClaim(user: nat, c: nat) returns (r: Result<(), ClaimError>)
      modifies this
      ensures State() == Dispute(old(State()), user, c)
      ensures r == if DisputeCheck(old(State()), user, c).Some? then Err(DisputeCheck(old(State()), user, c).value) else Ok(())
      ensures r == Err(ClaimNotFound) <==> c >= |claims|
      ensures r == Err(NotOwner) <==> c < |claims| && claims[c].claimant != user
    {
      if c >= |claims| {
        return Err(ClaimNotFound);
      }
      var claim := claims[c];
      if claim.claimant != user {
        return Err(NotOwner);
      }
      if claim.status != Rejected {
        return Err(InvalidStatus);
      }
      claims := claims[c := claim.(status := Disputed)];
      EnsureVerificationRecord(claim.entity);
      verification := verification[claim.entity := Pending];
      audit := audit + [AuditEntry(c, user, User, DidDispute, Some(claim.status), Disputed)];
      r := Ok(());
    }

    method AssignClaim(admin: nat, c: nat) returns (r: Result<(), ClaimError>)
      modifies this
      ensures State() == Assign(old(State()), admin, c)
      ensures r == if AssignCheck(old(State()), c).Some? then Err(AssignCheck(old(State()), c).value) else Ok(())
      ensures r == Err(ClaimNotFound) <==> c >= |claims|
    {
      if c >= |claims| {
        return Err(ClaimNotFound);
      }
      var claim := claims[c];
      if claim.status != Submitted && claim.status != Disputed {
        return Err(InvalidStatus);
      }
      claims := claims[c := claim.(reviewer := Some(admin), status := UnderReview)];
      audit := audit + [AuditEntry(c, admin, Admin, Assigned, Some(claim.status), UnderReview)];
      r := Ok(());
    }

    method ApproveClaim(admin: nat, c: nat) returns (r: Result<(), ClaimError>)
      modifies this
      ensures State() == Approve(old(State()), admin, c)
      ensures r == if ReviewCheck(old(State()), c).Some? then Err(ReviewCheck(old(State()), c).value) else Ok(())
      ensures r == Err(ClaimNotFound) <==> c >= |claims|
    {
      if c >= |claims| {
        return Err(ClaimNotFound);
      }
      var claim := claims[c];
      if claim.status != UnderReview {
        return Err(InvalidStatus);
      }
      claims := claims[c := claim.(status := Approved, reviewer := Some(admin))];
      entities := LinkShadow(entities, claim.entity, claim.claimant);
      verification := SetVerification(verification, claim.entity, Verified);
      audit := audit + [AuditEntry(c, admin, Admin, DidApprove, Some(UnderReview), Approved)];
      outbox := outbox + [Event(ClaimApproved, c)];
      r := Ok(());
    }

    method RejectClaim(admin: nat, c: nat) returns (r: Result<(), ClaimError>)
      modifies this
      ensures State() == Reject(old(State()), admin, c)
      ensures r == if ReviewCheck(old(State()), c).Some? then Err(ReviewCheck(old(State()), c).value) else Ok(())
      ensures r == Err(ClaimNotFound) <==> c >= |claims|
    {
      if c >= |claims| {
        return Err(ClaimNotFound);
      }
      var claim := claims[c];
      if claim.status != UnderReview {
        return Err(InvalidStatus);
      }
      claims := claims[c := claim.(status := Rejected, reviewer := Some(admin))];
      verification := SetVerification(verification, claim.entity, Denied);
      audit := audit + [AuditEntry(c, admin, Admin, DidReject, Some(UnderReview), Rejected)];
      outbox := outbox + [Event(ClaimRejected, c)];
      r := Ok(());
    }

    /** The worker's loop stops at the first strong duplicate. */
    method HandleClaimRequested(c: nat, scores: seq<real>)
      modifies this`claims
      ensures State() == WorkerReview(old(State()), c, scores)
    {
      var i := 0;
      while i < |scores|
        invariant 0 <= i <= |scores|
        invariant claims == old(claims)
        invariant forall j :: 0 <= j < i ==> scores[j] < MATCH_THRESHOLD || c >= |claims|
      {
        if scores[i] >= MATCH_THRESHOLD && c < |claims| {
          if claims[c].status == Submitted {
            claims := claims[c := claims[c].(status := UnderReview)];
          }
          return;
        }
        i := i + 1;
      }
    }
  }
}
