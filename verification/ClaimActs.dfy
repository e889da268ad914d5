/** Who may do what to a claim, and when: each operation acts exactly under its own conditions, and
    the log names nobody but the claimant and the administrators. */
module ClaimActs {
  import opened Prelude
  import opened Claims
  import opened ClaimRuns

  /** The claim exists and is the user's own. */
  predicate Owns(s: ClaimState, user: nat, c: nat) {
    c < |s.claims| && s.claims[c].claimant == user
  }

  predicate IsIn(s: ClaimState, c: nat, statuses: set<ClaimStatus>) {
    c < |s.claims| && s.claims[c].status in statuses
  }

  /** The only change: the status and the reviewer of the claim, a log entry by the actor, and the
      events. */
  predicate MovedBy(s: ClaimState, t: ClaimState, e: AuditEntry, reviewer: Option<nat>, events: seq<Event>)
    requires e.claim < |s.claims|
  {
    && t.claims == s.claims[e.claim := s.claims[e.claim].(status := e.newStatus, reviewer := reviewer)]
    && t.audit == s.audit + [e] && t.outbox == s.outbox + events
  }

  lemma {:induction false} CountsIffUploaded(docs: seq<DocStatus>)
    ensures UploadedCount(docs) > 0 <==> DocUploaded in docs
  {
    if docs != [] {
      CountsIffUploaded(docs[..|docs| - 1]);
      assert docs == docs[..|docs| - 1] + [docs[|docs| - 1]];
    }
  }

  /** A claim is opened exactly on a shadow entity without a claim, by someone with a personal
      entity. */
  lemma OpensIff(s: ClaimState, user: nat, e: nat, personalFound: bool)
    ensures CreateClaim(s, user, e, personalFound) != s <==>
            e < |s.entities| && s.entities[e].isShadow && personalFound && forall c :: 0 <= c < |s.claims| ==> s.claims[c].entity != e
    ensures CreateClaim(s, user, e, personalFound) != s ==>
            CreateClaim(s, user, e, personalFound).claims == s.claims + [Claim(e, user, Draft, None, [])]
            && CreateClaim(s, user, e, personalFound).audit == s.audit + [AuditEntry(|s.claims|, user, User, Created, None, Draft)]
  {
    assert |s.claims + [Claim(e, user, Draft, None, [])]| == |s.claims| + 1;
  }

  /** A claim is submitted exactly by its claimant, as a draft or once rejected, with a confirmed
      document; a resubmission has no reviewer. */
  lemma SubmitsIff(s: ClaimState, user: nat, c: nat)
    ensures Submit(s, user, c) != s <==> Owns(s, user, c) && IsIn(s, c, {Draft, Rejected}) && DocUploaded in s.claims[c].documents
    ensures Submit(s, user, c) != s ==>
            var was, again := s.claims[c].status, s.claims[c].status == Rejected;
            MovedBy(s, Submit(s, user, c), AuditEntry(c, user, User, if again then DidResubmit else DidSubmit, Some(was), Submitted),
              if again then None else s.claims[c].reviewer, [Event(ClaimRequested, c)])
  {
    if c < |s.claims| {
      CountsIffUploaded(s.claims[c].documents);
    }
    assert SubmitCheck(s, user, c).None? ==> |Submit(s, user, c).audit| == |s.audit| + 1;
  }

  /** A rejected claim is disputed exactly by its claimant. */
  lemma DisputesIff(s: ClaimState, user: nat, c: nat)
    ensures Dispute(s, user, c) != s <==> Owns(s, user, c) && IsIn(s, c, {Rejected})
    ensures Dispute(s, user, c) != s ==>
            MovedBy(s, Dispute(s, user, c), AuditEntry(c, user, User, DidDispute, Some(Rejected), Disputed), s.claims[c].reviewer, [])
  {
    assert DisputeCheck(s, user, c).None? ==> |Dispute(s, user, c).audit| == |s.audit| + 1;
  }

  /** A document is added exactly by the claimant, to a draft, rejected or disputed claim. */
  lemma UploadsIff(s: ClaimState, user: nat, c: nat, documentOk: bool, audited: bool)
    ensures var t := RequestUpload(s, user, c, documentOk, audited);
            && (t != s <==> Owns(s, user, c) && IsIn(s, c, {Draft, Rejected, Disputed}) && documentOk)
            && (t != s ==> t == s.(
                 claims := s.claims[c := s.claims[c].(documents := s.claims[c].documents + [DocPending])],
                 audit := s.audit + if audited then [AuditEntry(c, user, User, DocumentUploaded, Some(s.claims[c].status), s.claims[c].status)] else []))
  {
    var t := RequestUpload(s, user, c, documentOk, audited);
    assert UploadCheck(s, user, c, documentOk).None? ==> |t.claims[c].documents| == |s.claims[c].documents| + 1;
  }

  /** A document is confirmed exactly by the claimant, once, when the storage has it. */
  lemma ConfirmsIff(s: ClaimState, user: nat, c: nat, doc: nat, inStorage: bool)
    ensures var t := ConfirmUpload(s, user, c, doc, inStorage);
            && (t != s <==> Owns(s, user, c) && inStorage && doc < |s.claims[c].documents| && s.claims[c].documents[doc] == DocPending)
            && (t != s ==> t == s.(claims := s.claims[c := s.claims[c].(documents := s.claims[c].documents[doc := DocUploaded])]))
  {
    var t := ConfirmUpload(s, user, c, doc, inStorage);
    assert ConfirmCheck(s, user, c, doc, inStorage).None? ==> t.claims[c].documents[doc] != s.claims[c].documents[doc];
  }

  /** An administrator takes up a claim exactly when it is submitted or disputed. */
  lemma AssignsIff(s: ClaimState, admin: nat, c: nat)
    ensures Assign(s, admin, c) != s <==> IsIn(s, c, {Submitted, Disputed})
    ensures Assign(s, admin, c) != s ==>
            MovedBy(s, Assign(s, admin, c), AuditEntry(c, admin, Admin, Assigned, Some(s.claims[c].status), UnderReview), Some(admin), [])
  {
    assert AssignCheck(s, c).None? ==> |Assign(s, admin, c).audit| == |s.audit| + 1;
  }

  /** A claim is decided exactly while it is under review. */
  lemma ApprovesIff(s: ClaimState, admin: nat, c: nat)
    ensures Approve(s, admin, c) != s <==> IsIn(s, c, {UnderReview})
    ensures Approve(s, admin, c) != s ==>
            MovedBy(s, Approve(s, admin, c), AuditEntry(c, admin, Admin, DidApprove, Some(UnderReview), Approved), Some(admin),
              [Event(ClaimApproved, c)])
  {
    assert ReviewCheck(s, c).None? ==> |Approve(s, admin, c).audit| == |s.audit| + 1;
  }

  lemma RejectsIff(s: ClaimState, admin: nat, c: nat)
    ensures Reject(s, admin, c) != s <==> IsIn(s, c, {UnderReview})
    ensures Reject(s, admin, c) != s ==>
            MovedBy(s, Reject(s, admin, c), AuditEntry(c, admin, Admin, DidReject, Some(UnderReview), Rejected), Some(admin),
              [Event(ClaimRejected, c)])
  {
    assert ReviewCheck(s, c).None? ==> |Reject(s, admin, c).audit| == |s.audit| + 1;
  }

  /** The worker moves a claim exactly when it is still submitted and some duplicate scores 0.8 or
      more; the reviewer, the log and the outbox stay as they were. */
  lemma WorkerMovesIff(s: ClaimState, c: nat, scores: seq<real>)
    ensures var t := WorkerReview(s, c, scores);
            && (t != s <==> IsIn(s, c, {Submitted}) && exists i :: 0 <= i < |scores| && scores[i] >= 0.8)
            && (t != s ==> t == s.(claims := s.claims[c := s.claims[c].(status := UnderReview)]))
  {
    var t := WorkerReview(s, c, scores);
    assert IsIn(s, c, {Submitted}) && (exists i :: 0 <= i < |scores| && scores[i] >= 0.8) ==> t.claims[c].status != s.claims[c].status;
  }

  // ----- Who is in the log -----

  /** A user's entry names the claimant. */
  predicate ByClaimant(s: ClaimState, e: AuditEntry) {
    e.claim < |s.claims| && (e.actorType == User ==> e.actor == s.claims[e.claim].claimant)
  }

  /** When an administrator acted last, the claim names that administrator as its reviewer. */
  predicate ReviewerActed(s: ClaimState, c: nat)
    requires c < |s.claims|
  {
    var trail := Trail(s.audit, c);
    trail != [] && trail[|trail| - 1].actorType == Admin ==> s.claims[c].reviewer == Some(trail[|trail| - 1].actor)
  }

  ghost predicate ActorsOk(s: ClaimState) {
    && (forall i :: 0 <= i < |s.audit| ==> ByClaimant(s, s.audit[i]))
    && (forall c :: 0 <= c < |s.claims| ==> ReviewerActed(s, c))
  }

  /** A step keeps every claimant, and changes the log by one entry at most, which is by the claimant
      or by the administrator whom the claim then names. */
  predicate GoodStep(s: ClaimState, t: ClaimState) {
    && |t.claims| >= |s.claims|
    && (forall c :: 0 <= c < |s.claims| ==> t.claims[c].claimant == s.claims[c].claimant)
    && (t.audit == s.audit ==> |t.claims| == |s.claims| && forall c :: 0 <= c < |s.claims| ==> t.claims[c].reviewer == s.claims[c].reviewer)
    && (t.audit != s.audit ==>
        && |t.audit| == |s.audit| + 1 && t.audit == s.audit + [t.audit[|s.audit|]]
        && var e := t.audit[|s.audit|];
           && ByClaimant(t, e)
           && (e.actorType == Admin ==> t.claims[e.claim].reviewer == Some(e.actor))
           && (forall c :: 0 <= c < |s.claims| && c != e.claim ==> t.claims[c].reviewer == s.claims[c].reviewer)
           && (|t.claims| > |s.claims| ==> |t.claims| == |s.claims| + 1 && e.claim == |s.claims|))
  }

  lemma StepsAreGood(s: ClaimState, step: Step)
    ensures GoodStep(s, Next(s, step))
  {
  }

  lemma GoodStepKeepsActors(s: ClaimState, t: ClaimState)
    requires ActorsOk(s) && GoodStep(s, t)
    ensures ActorsOk(t)
  {
    if t.audit != s.audit {
      var e := t.audit[|s.audit|];
      forall c: nat | c < |t.claims| ensures ReviewerActed(t, c) {
        TrailAppend(s.audit, e, c);
        assert c < |s.claims| ==> ReviewerActed(s, c);
      }
    } else {
      forall c: nat | c < |t.claims| ensures ReviewerActed(t, c) {
        assert ReviewerActed(s, c);
      }
    }
  }

  /** In every run a user's log entry is by the claimant of its claim, and a claim whose last entry is
      an administrator's, such as an approved one, names that administrator as its reviewer. */
  lemma {:induction false} RunKeepsActors(steps: seq<Step>)
    ensures ActorsOk(After(steps))
  {
    if steps != [] {
      var front := steps[..|steps| - 1];
      RunKeepsActors(front);
      StepsAreGood(After(front), steps[|steps| - 1]);
      GoodStepKeepsActors(After(front), After(steps));
    }
  }
}
