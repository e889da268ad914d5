/** One-time passwords (internal/auth/service.go, storeOTP and validateOTP): rows that count their
    failed comparisons and are marked used. */
module Otp {
  import opened Prelude

  datatype Row = Row(identifier: string, purpose: string, code: string, attempts: int, maxAttempts: int,
                     expiresAt: int, used: bool, createdAt: int)

  /** What a comparison of a row with a code left behind: a counted failure, a failure that could
      not be counted and so used up the row, an acceptance, or nothing because the writes failed. */
  datatype Trace = Counted | Invalidated | Accepted | Lost

  datatype Comparison = Comparison(row: nat, trace: Trace)

  /** The rows, and every comparison made so far. */
  datatype OtpState = OtpState(rows: seq<Row>, history: seq<Comparison>)

  datatype OtpError = InvalidOrExpired | TooManyAttempts | WrongCode | NotMarkedUsed

  /** The configured limits. */
  datatype Limits = Limits(maxAttempts: int, expiry: nat)

  predicate Valid(r: Row, identifier: string, purpose: string, now: int) {
    r.identifier == identifier && r.purpose == purpose && !r.used && r.expiresAt > now
  }

  /** GetValidOTP: a newest row that is unused and has not expired. */
  predicate IsNewest(rows: seq<Row>, p: nat, identifier: string, purpose: string, now: int) {
    && p < |rows| && Valid(rows[p], identifier, purpose, now)
    && forall q :: 0 <= q < |rows| && Valid(rows[q], identifier, purpose, now) ==> rows[q].createdAt <= rows[p].createdAt
  }

  function Newest(rows: seq<Row>, identifier: string, purpose: string, now: int): (r: Option<nat>)
    ensures r.None? <==> forall p :: 0 <= p < |rows| ==> !Valid(rows[p], identifier, purpose, now)
    ensures r.Some? ==> IsNewest(rows, r.value, identifier, purpose, now)
  {
    if rows == [] then None
    else
      var last := rows[|rows| - 1];
      var rest := Newest(rows[..|rows| - 1], identifier, purpose, now);
      if Valid(last, identifier, purpose, now) && (rest.None? || rows[rest.value].createdAt <= last.createdAt)
      then Some(|rows| - 1) else rest
  }

  /** Among rows created at the same instant the query may return any: `tie`, if it is one. */
  function Chosen(rows: seq<Row>, identifier: string, purpose: string, now: int, tie: nat): (r: Option<nat>)
    ensures r.None? <==> forall p :: 0 <= p < |rows| ==> !Valid(rows[p], identifier, purpose, now)
    ensures r.Some? ==> IsNewest(rows, r.value, identifier, purpose, now)
  {
    if IsNewest(rows, tie, identifier, purpose, now) then Some(tie) else Newest(rows, identifier, purpose, now)
  }

  function Store(s: OtpState, identifier: string, purpose: string, code: string, limits: Limits, now: int, created: int): OtpState {
    s.(rows := s.rows + [Row(identifier, purpose, code, 0, limits.maxAttempts, now + limits.expiry, false, created)])
  }

  /** A validation request: whether the write that counts a failure and the write that marks the
      row used would succeed are inputs. */
  datatype Request = Request(identifier: string, purpose: string, code: string, tie: nat, counts: bool, marks: bool)

  /** The row that a request is compared with, if it gets as far. */
  function Compared(rows: seq<Row>, req: Request, now: int): (r: Option<nat>)
    ensures r.Some? ==> IsNewest(rows, r.value, req.identifier, req.purpose, now) && rows[r.value].attempts < rows[r.value].maxAttempts
  {
    match Chosen(rows, req.identifier, req.purpose, now, req.tie)
    case Some(p) => if rows[p].attempts >= rows[p].maxAttempts then None else Some(p)
    case None => None
  }

  function TraceOf(row: Row, req: Request): Trace {
    if row.code == req.code then if req.marks then Accepted else Lost
    else if req.counts then Counted
    else if req.marks then Invalidated
    else Lost
  }

  function Leave(row: Row, t: Trace): Row {
    match t
    case Counted => row.(attempts := row.attempts + 1)
    case Invalidated => row.(used := true)
    case Accepted => row.(used := true)
    case Lost => row
  }

  function Validate(s: OtpState, req: Request, now: int): OtpState {
    match Compared(s.rows, req, now)
    case None => s
    case Some(p) =>
      var t := TraceOf(s.rows[p], req);
      OtpState(s.rows[p := Leave(s.rows[p], t)], s.history + [Comparison(p, t)])
  }

  predicate Accepts(rows: seq<Row>, req: Request, now: int) {
    var found := Compared(rows, req, now);
    found.Some? && TraceOf(rows[found.value], req) == Accepted
  }

  /** `p` is the row the query returns. */
  predicate IsRead(rows: seq<Row>, req: Request, now: int, p: nat) {
    Chosen(rows, req.identifier, req.purpose, now, req.tie) == Some(p)
  }

  /** It is unused, its time is not yet over, and no other such row for the identifier and purpose is
      newer; and there is one whenever there is such a row. */
  lemma RowRead(rows: seq<Row>, req: Request, now: int, p: nat)
    requires p < |rows| && rows[p].identifier == req.identifier && rows[p].purpose == req.purpose
    ensures IsRead(rows, req, now, p) ==> !rows[p].used && now < rows[p].expiresAt
    ensures !rows[p].used && now < rows[p].expiresAt ==>
            exists q :: 0 <= q < |rows| && IsRead(rows, req, now, q) && rows[p].createdAt <= rows[q].createdAt
              && rows[q].identifier == req.identifier && rows[q].purpose == req.purpose
  {
    var read := Chosen(rows, req.identifier, req.purpose, now, req.tie);
    assert Valid(rows[p], req.identifier, req.purpose, now) ==> read.Some? && IsRead(rows, req, now, read.value);
  }

  /** A request is accepted if and only if it carries the code of the row read, which is below its
      limit, and the row can be marked used. */
  lemma AcceptedIff(rows: seq<Row>, req: Request, now: int)
    ensures Accepts(rows, req, now) <==>
            exists p :: 0 <= p < |rows| && IsRead(rows, req, now, p) && rows[p].attempts < rows[p].maxAttempts && rows[p].code == req.code && req.marks
  {
  }

  /** A wrong code adds an attempt to the row read and leaves it unused when that can be written, and
      otherwise uses it up if it can; a right one uses it; no other row changes. A row at its limit
      is not compared. */
  lemma ReadRowLeft(s: OtpState, req: Request, now: int, p: nat)
    requires p < |s.rows| && IsRead(s.rows, req, now, p)
    ensures var row, compared := s.rows[p], s.rows[p].attempts < s.rows[p].maxAttempts;
            var failed := compared && req.code != row.code;
            Validate(s, req, now).rows == s.rows[p := row.(
              attempts := if failed && req.counts then row.attempts + 1 else row.attempts,
              used := compared && req.marks && !(failed && req.counts))]
  {
  }

  // ----- The stored form -----

  class OtpStore {
    var rows: seq<Row>
    ghost var history: seq<Comparison>
    const limits: Limits

    ghost function State(): OtpState
      reads this
    {
      OtpState(rows, history)
    }

    constructor (limits: Limits)
      ensures State() == OtpState([], []) && this.limits == limits
    {
      this.limits := limits;
      rows, history := [], [];
    }

    method StoreOtp(identifier: string, purpose: string, code: string, now: int, created: int)
      modifies this
      ensures State() == Store(old(State()), identifier, purpose, code, limits, now, created)
    {
      rows := rows + [Row(identifier, purpose, code, 0, limits.maxAttempts, now + limits.expiry, false, created)];
    }

    method ValidateOtp(req: Request, now: int) returns (r: Result<(), OtpError>)
      modifies this
      ensures State() == Validate(old(State()), req, now)
      ensures r.Ok? <==> Accepts(old(rows), req, now)
    {
      var found := Chosen(rows, req.identifier, req.purpose, now, req.tie);
      if found.None? {
        return Err(InvalidOrExpired);
      }
      var otp := rows[found.value];
      if otp.attempts >= otp.maxAttempts {
        return Err(TooManyAttempts);
      }
      if req.code != otp.code {
        if req.counts {
          rows := rows[found.value := otp.(attempts := otp.attempts + 1)];
          history := history + [Comparison(found.value, Counted)];
        } else if req.marks {
          rows := rows[found.value := otp.(used := true)];
          history := history + [Comparison(found.value, Invalidated)];
        } else {
          history := history + [Comparison(found.value, Lost)];
        }
        return Err(WrongCode);
      }
      if !req.marks {
        history := history + [Comparison(found.value, Lost)];
        return Err(NotMarkedUsed);
      }
      rows := rows[found.value := otp.(used := true)];
      history := history + [Comparison(found.value, Accepted)];
      r := Ok(());
    }
  }

  // ----- Runs -----

  datatype Step =
    | Issue(identifier: string, purpose: string, code: string, now: int, created: int)
    | Check(req: Request, now: int)

  function Next(s: OtpState, step: Step, limits: Limits): OtpState {
    match step
    case Issue(id, purpose, code, now, created) => Store(s, id, purpose, code, limits, now, created)
    case Check(req, now) => Validate(s, req, now)
  }

  function After(steps: seq<Step>, limits: Limits): OtpState {
    if steps == [] then OtpState([], [])
    else Next(After(steps[..|steps| - 1], limits), steps[|steps| - 1], limits)
  }

  function Count(history: seq<Comparison>, p: nat, t: Trace): nat {
    if history == [] then 0
    else Count(history[..|history| - 1], p, t) + if history[|history| - 1] == Comparison(p, t) then 1 else 0
  }

  function Comparisons(history: seq<Comparison>, p: nat): nat {
    if history == [] then 0
    else Comparisons(history[..|history| - 1], p) + if history[|history| - 1].row == p then 1 else 0
  }

  lemma {:induction false} EveryComparisonLeavesOneTrace(history: seq<Comparison>, p: nat)
    ensures Comparisons(history, p)
         == Count(history, p, Counted) + Count(history, p, Invalidated) + Count(history, p, Accepted) + Count(history, p, Lost)
  {
    if history != [] {
      EveryComparisonLeavesOneTrace(history[..|history| - 1], p);
      var last := history[|history| - 1];
      match last.trace
      case Counted =>
      case Invalidated =>
      case Accepted =>
      case Lost =>
    }
  }

  lemma CountAppend(history: seq<Comparison>, c: Comparison, p: nat, t: Trace)
    ensures Count(history + [c], p, t) == Count(history, p, t) + if c == Comparison(p, t) then 1 else 0
  {
    assert (history + [c])[..|history|] == history;
  }

  /** What a row records of its comparisons, and the room it leaves. */
  predicate RowOk(s: OtpState, p: nat)
    requires p < |s.rows|
  {
    var row := s.rows[p];
    && row.attempts == Count(s.history, p, Counted)
    && Count(s.history, p, Invalidated) + Count(s.history, p, Accepted) == (if row.used then 1 else 0)
    && row.attempts + (if row.used then 1 else 0) <= if row.maxAttempts > 0 then row.maxAttempts else 0
  }

  lemma OtherRowKept(s: OtpState, c: Comparison, p: nat, t: OtpState)
    requires p < |s.rows| && RowOk(s, p) && c.row != p
    requires |t.rows| == |s.rows| && t.rows[p] == s.rows[p] && t.history == s.history + [c]
    ensures RowOk(t, p)
  {
    CountAppend(s.history, c, p, Counted);
    CountAppend(s.history, c, p, Invalidated);
    CountAppend(s.history, c, p, Accepted);
  }

  lemma ComparisonKeepsRow(s: OtpState, c: Comparison, p: nat, t: OtpState)
    requires p < |s.rows| && RowOk(s, p) && c.row < |s.rows|
    requires c.row == p ==> !s.rows[p].used && s.rows[p].attempts < s.rows[p].maxAttempts
    requires t == OtpState(s.rows[c.row := Leave(s.rows[c.row], c.trace)], s.history + [c])
    ensures RowOk(t, p)
  {
    if c.row != p {
      OtherRowKept(s, c, p, t);
    } else {
      CountAppend(s.history, c, p, Counted);
      CountAppend(s.history, c, p, Invalidated);
      CountAppend(s.history, c, p, Accepted);
    }
  }

  predicate AllOk(s: OtpState) {
    && (forall p :: 0 <= p < |s.rows| ==> RowOk(s, p))
    && (forall i :: 0 <= i < |s.history| ==> s.history[i].row < |s.rows|)
  }

  lemma {:induction false} NotYetCompared(history: seq<Comparison>, p: nat, t: Trace)
    requires forall i :: 0 <= i < |history| ==> history[i].row < p
    ensures Count(history, p, t) == 0
  {
    if history != [] {
      NotYetCompared(history[..|history| - 1], p, t);
    }
  }

  lemma StepKeepsRows(s: OtpState, step: Step, limits: Limits)
    requires AllOk(s)
    ensures AllOk(Next(s, step, limits))
  {
    var t := Next(s, step, limits);
    match step
    case Issue(_, _, _, _, _) =>
      var added := |s.rows|;
      NotYetCompared(s.history, added, Counted);
      NotYetCompared(s.history, added, Invalidated);
      NotYetCompared(s.history, added, Accepted);
      forall p | 0 <= p < |t.rows| ensures RowOk(t, p) {
        assert p < added ==> RowOk(s, p);
      }
    case Check(req, now) =>
      var found := Compared(s.rows, req, now);
      if found.Some? {
        forall p | 0 <= p < |t.rows| ensures RowOk(t, p) {
          ComparisonKeepsRow(s, Comparison(found.value, TraceOf(s.rows[found.value], req)), p, t);
        }
      }
  }

  lemma {:induction false} RunKeepsRows(steps: seq<Step>, limits: Limits)
    ensures AllOk(After(steps, limits))
  {
    if steps != [] {
      RunKeepsRows(steps[..|steps| - 1], limits);
      StepKeepsRows(After(steps[..|steps| - 1], limits), steps[|steps| - 1], limits);
    }
  }

  function AtLeastZero(n: int): nat { if n > 0 then n else 0 }

  /** In every run, a row is compared at most as often as its limit allows, not counting the
      comparisons whose writes all failed; it is accepted at most once, and then it had fewer
      failures than its limit. */
  lemma {:induction false} ComparedWithinLimit(steps: seq<Step>, limits: Limits, p: nat)
    requires p < |After(steps, limits).rows|
    ensures var s := After(steps, limits);
            var row := s.rows[p];
            && Comparisons(s.history, p) == row.attempts + (if row.used then 1 else 0) + Count(s.history, p, Lost)
            && Comparisons(s.history, p) <= AtLeastZero(row.maxAttempts) + Count(s.history, p, Lost)
            && Count(s.history, p, Accepted) <= 1
            && (Count(s.history, p, Accepted) == 1 ==> Count(s.history, p, Counted) < row.maxAttempts)
  {
    RunKeepsRows(steps, limits);
    var s := After(steps, limits);
    assert RowOk(s, p);
    EveryComparisonLeavesOneTrace(s.history, p);
  }

  /** A row is issued, and then compared `n` times while both writes fail. */
  function Outage(n: nat): seq<Step> {
    if n == 0 then [Issue("a", "login", "1", 0, 0)]
    else Outage(n - 1) + [Check(Request("a", "login", "2", 0, false, false), 0)]
  }

  lemma {:induction false} LostStep(s: OtpState, row: Row, n: nat)
    requires s.rows == [row] && Comparisons(s.history, 0) == n
    requires Valid(row, "a", "login", 0) && row.code == "1" && row.attempts < row.maxAttempts
    ensures var t := Validate(s, Request("a", "login", "2", 0, false, false), 0);
            t.rows == [row] && Comparisons(t.history, 0) == n + 1
  {
    assert IsNewest(s.rows, 0, "a", "login", 0);
    assert "1"[0] != "2"[0];
    var t := s.history + [Comparison(0, Lost)];
    assert t[..|s.history|] == s.history;
  }

  lemma OutageStep(n: nat, limits: Limits)
    requires n > 0
    ensures After(Outage(n), limits) == Validate(After(Outage(n - 1), limits), Request("a", "login", "2", 0, false, false), 0)
  {
    assert Outage(n)[..|Outage(n)| - 1] == Outage(n - 1);
  }

  /** The limit does rest on the writes: without them a row can be compared any number of times. */
  lemma {:induction false} OutageIsUnbounded(n: nat, limits: Limits)
    requires limits.maxAttempts > 0 && limits.expiry > 0
    ensures After(Outage(n), limits).rows == [Row("a", "login", "1", 0, limits.maxAttempts, limits.expiry, false, 0)]
    ensures Comparisons(After(Outage(n), limits).history, 0) == n
  {
    if n == 0 {
      assert Outage(0)[..0] == [];
    } else {
      OutageIsUnbounded(n - 1, limits);
      OutageStep(n, limits);
      var s := After(Outage(n - 1), limits);
      LostStep(s, s.rows[0], n - 1);
    }
  }

  // ----- Which row can be accepted -----

  function Time(step: Step): int { step.now }

  function Finish(step: Step): int {
    match step
    case Issue(_, _, _, _, created) => created
    case Check(_, now) => now
  }

  /** A clock that does not run backwards; issuing reads it twice. */
  predicate Monotone(steps: seq<Step>) {
    && (forall i :: 0 <= i < |steps| ==> Time(steps[i]) <= Finish(steps[i]))
    && (forall i, j :: 0 <= i < j < |steps| ==> Finish(steps[i]) <= Time(steps[j]))
  }

  /** Rows are created in order and expire in order. */
  predicate InOrder(rows: seq<Row>, limits: Limits, now: int) {
    && (forall p :: 0 <= p < |rows| ==> rows[p].expiresAt - limits.expiry <= rows[p].createdAt <= now)
    && (forall p, q :: 0 <= p < q < |rows| ==> rows[p].createdAt <= rows[q].createdAt && rows[p].expiresAt <= rows[q].expiresAt)
  }

  lemma {:induction false} StepKeepsOrder(s: OtpState, limits: Limits, now: int, step: Step)
    requires InOrder(s.rows, limits, now) && now <= Time(step) <= Finish(step)
    ensures InOrder(Next(s, step, limits).rows, limits, Finish(step))
  {
    var rows := Next(s, step, limits).rows;
    assert step.Check? ==> |rows| == |s.rows|;
    assert forall p :: 0 <= p < |s.rows| ==> rows[p].createdAt == s.rows[p].createdAt && rows[p].expiresAt == s.rows[p].expiresAt;
    assert forall p :: 0 <= p < |s.rows| ==> s.rows[p].expiresAt <= now + limits.expiry;
  }

  lemma {:induction false} RunKeepsOrder(steps: seq<Step>, limits: Limits, now: int)
    requires Monotone(steps) && forall i :: 0 <= i < |steps| ==> Finish(steps[i]) <= now
    ensures InOrder(After(steps, limits).rows, limits, now)
  {
    if steps != [] {
      var last := steps[|steps| - 1];
      var s := After(steps[..|steps| - 1], limits);
      RunKeepsOrder(steps[..|steps| - 1], limits, Time(last));
      StepKeepsOrder(s, limits, Time(last), last);
    }
  }

  /** After any run, a code is accepted only for a row that carries it, has not expired, and whose
      newer rows for the same identifier and purpose have all been used: none of those can have
      expired before it. */
  lemma {:induction false} AcceptedOnlyWhenNewerAreUsed(steps: seq<Step>, limits: Limits, req: Request, now: int)
    requires Monotone(steps) && forall i :: 0 <= i < |steps| ==> Finish(steps[i]) <= now
    requires Accepts(After(steps, limits).rows, req, now)
    ensures var rows := After(steps, limits).rows;
            var p := Compared(rows, req, now).value;
            && Valid(rows[p], req.identifier, req.purpose, now) && rows[p].code == req.code
            && forall q :: (0 <= q < |rows| && rows[q].identifier == req.identifier && rows[q].purpose == req.purpose
                            && rows[q].createdAt > rows[p].createdAt) ==> rows[q].used
  {
    RunKeepsOrder(steps, limits, now);
    var rows := After(steps, limits).rows;
    var p := Compared(rows, req, now).value;
    forall q | 0 <= q < |rows| && rows[q].identifier == req.identifier && rows[q].purpose == req.purpose
        && rows[q].createdAt > rows[p].createdAt
      ensures rows[q].used
    {
      assert p < q;
    }
  }
}
