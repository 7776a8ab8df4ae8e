/**
 The credential-adoption journal: one document in a vault, replaced only by compare-and-swap, and
 the operator commands that move it from phase to phase. Operators may interleave in any way and
 may stop anywhere.
 */
module AdoptionJournal {
  import opened Wrappers

  type Nonce = string

  datatype Phase =
    | Prepared | ResetPrepared | PreflightStarted | AdoptionStarted
    | AdoptionFailed | RuntimeAdopted | ConfigPersisted | Cleaned

  datatype Mode = Preflight | Adopt

  /** A closed worker report as the logs show it. */
  datatype Receipt = Receipt(mode: Mode, passed: bool, nonce: Option<Nonce>, runtimeChanged: bool,
                             rollbackVerified: bool)

  datatype Archive = Archive(nonce: Nonce, revision: nat, receipt: Receipt, observation: nat)

  datatype Plan = Plan(revision: nat, nonce: Nonce, previous: Archive)

  datatype State = State(
    phase: Phase, transaction: Nonce, attempt: Option<Nonce>, revision: nat, job: Option<nat>,
    observation: Option<nat>, archive: seq<Archive>, plan: Option<Plan>, receipt: Option<Receipt>)

  const ARCHIVE_BOUND: nat := 8

  /** The nonce of the running attempt. */
  function Active(s: State): Nonce {
    if s.attempt.Some? then s.attempt.value else s.transaction
  }

  predicate Archived(s: State, n: Nonce) {
    exists i :: 0 <= i < |s.archive| && s.archive[i].nonce == n
  }

  predicate FailedAdoption(r: Receipt) { r.mode.Adopt? && !r.passed }

  /** A receipt that counts for the running attempt: before the first reset, every receipt does. */
  predicate OfAttempt(s: State, r: Receipt) {
    s.attempt.Some? ==> r.nonce == s.attempt
  }

  // ---------------------------------------------------------------- the transitions

  predicate Created(s: State) {
    s == NewState(s.transaction, s.revision)
  }

  function NewState(transaction: Nonce, revision: nat): State {
    State(Prepared, transaction, None, revision, None, None, [], None, None)
  }

  predicate JobFound(a: State, b: State) {
    a.phase.Prepared? && a.job.None? && b.job.Some? && b == a.(job := b.job)
  }

  predicate PreflightBegun(a: State, b: State) {
    a.phase.Prepared? && a.job.Some? && b == a.(phase := PreflightStarted)
  }

  /** Only the diagnostic tool writes this field. */
  predicate Observed(a: State, b: State) {
    a.job.Some? && b == a.(observation := b.observation)
  }

  predicate AdoptionBegun(a: State, b: State) {
    a.phase.PreflightStarted? && b == a.(phase := AdoptionStarted)
  }

  predicate FailureSeen(a: State, b: State) {
    && a.phase.AdoptionStarted? && b.receipt.Some? && b == a.(phase := AdoptionFailed, receipt := b.receipt)
    && FailedAdoption(b.receipt.value) && OfAttempt(a, b.receipt.value)
    && (!b.receipt.value.runtimeChanged || b.receipt.value.rollbackVerified)
  }

  predicate ResetPlanned(a: State, b: State) {
    && (a.phase.AdoptionStarted? || a.phase.AdoptionFailed?)
    && a.observation.Some? && |a.archive| < ARCHIVE_BOUND
    && b.plan.Some? && b == a.(phase := ResetPrepared, plan := b.plan)
    && var plan := b.plan.value;
    && plan.revision != a.revision
    && plan.nonce != Active(a) && !Archived(a, plan.nonce)
    && plan.previous.nonce == Active(a) && plan.previous.revision == a.revision
    && plan.previous.observation == a.observation.value
    && FailedAdoption(plan.previous.receipt) && OfAttempt(a, plan.previous.receipt)
  }

  function Replacement(a: State, plan: Plan): State {
    a.(phase := PreflightStarted, revision := plan.revision, attempt := Some(plan.nonce),
       archive := a.archive + [plan.previous], plan := None, observation := None, receipt := None)
  }

  /** What `reset_preflight` checks of a stored plan. */
  predicate PlanHolds(a: State, plan: Plan) {
    && plan.nonce != Active(a) && !Archived(a, plan.nonce)
    && plan.previous.revision == a.revision && a.observation == Some(plan.previous.observation)
    && FailedAdoption(plan.previous.receipt) && |a.archive| < ARCHIVE_BOUND
  }

  predicate Reentered(a: State, b: State) {
    && a.phase.ResetPrepared? && a.plan.Some? && PlanHolds(a, a.plan.value)
    && b == Replacement(a, a.plan.value)
  }

  predicate Adopted(a: State, b: State) {
    && a.phase.AdoptionStarted? && b.receipt.Some? && b == a.(phase := RuntimeAdopted, receipt := b.receipt)
    && b.receipt.value.mode.Adopt? && b.receipt.value.passed && OfAttempt(a, b.receipt.value)
  }

  predicate Persisted(a: State, b: State) {
    (a.phase.RuntimeAdopted? || a.phase.ConfigPersisted?) && b == a.(phase := ConfigPersisted)
  }

  predicate CleanedUp(a: State, b: State) {
    a.job.Some? && !a.phase.AdoptionStarted? && b == a.(phase := Cleaned)
  }

  predicate Step(a: State, b: State) {
    || JobFound(a, b) || PreflightBegun(a, b) || Observed(a, b) || AdoptionBegun(a, b) || FailureSeen(a, b)
    || ResetPlanned(a, b) || Reentered(a, b) || Adopted(a, b) || Persisted(a, b) || CleanedUp(a, b)
  }

  predicate HistoryOk(h: seq<State>) {
    && (h != [] ==> Created(h[0]))
    && forall i :: 0 < i < |h| ==> Step(h[i - 1], h[i])
  }

  // ---------------------------------------------------------------- what every history keeps

  /** Nonces of archived attempts differ from each other, from the running one and from the planned one. */
  predicate NoncesOk(s: State) {
    && (forall i, k :: 0 <= i < k < |s.archive| ==> s.archive[i].nonce != s.archive[k].nonce)
    && !Archived(s, Active(s))
    && (s.phase.ResetPrepared? ==> s.plan.Some?)
    && (s.plan.Some? ==> s.plan.value.previous.nonce == Active(s) && FailedAdoption(s.plan.value.previous.receipt))
    && (forall i :: 0 <= i < |s.archive| ==> FailedAdoption(s.archive[i].receipt))
    && |s.archive| <= ARCHIVE_BOUND
  }

  lemma StepKeepsNonces(a: State, b: State)
    requires NoncesOk(a) && Step(a, b)
    ensures NoncesOk(b)
  {
    if !Reentered(a, b) {
      assert b.archive == a.archive && Active(b) == Active(a);
      assert forall n :: Archived(b, n) <==> Archived(a, n);
    } else {
      ReentryKeepsNonces(a, b);
    }
  }

  lemma ReentryKeepsNonces(a: State, b: State)
    requires NoncesOk(a) && Reentered(a, b)
    ensures NoncesOk(b)
  {
    var plan := a.plan.value;
    assert b.archive == a.archive + [plan.previous];
    assert Archived(b, Active(b)) ==> Archived(a, plan.nonce) || plan.previous.nonce == plan.nonce;
    forall i | 0 <= i < |a.archive|
      ensures a.archive[i].nonce != plan.previous.nonce
    {
      assert a.archive[i].nonce == Active(a) ==> Archived(a, Active(a));
    }
  }

  lemma {:induction false} HistoryNonces(h: seq<State>, i: nat)
    requires HistoryOk(h) && i < |h|
    ensures NoncesOk(h[i])
  {
    if i > 0 {
      HistoryNonces(h, i - 1);
      assert Step(h[i - 1], h[i]);
      StepKeepsNonces(h[i - 1], h[i]);
    }
  }

  /** How far an attempt has come; only a re-entry, with its new nonce, goes back. */
  function Progress(p: Phase): nat {
    match p
    case Prepared => 0
    case PreflightStarted => 1
    case AdoptionStarted => 2
    case AdoptionFailed => 3
    case RuntimeAdopted => 3
    case ResetPrepared => 4
    case ConfigPersisted => 4
    case Cleaned => 5
  }

  lemma StepProgress(a: State, b: State)
    requires NoncesOk(a) && Step(a, b)
    ensures forall n :: Archived(a, n) ==> Archived(b, n)
    ensures Active(b) == Active(a) ==> Progress(a.phase) <= Progress(b.phase)
    ensures Active(b) != Active(a) ==> Archived(b, Active(a)) && Reentered(a, b)
  {
    if Reentered(a, b) {
      assert b.archive[|a.archive|].nonce == Active(a);
      assert forall i :: 0 <= i < |a.archive| ==> b.archive[i] == a.archive[i];
    } else {
      assert b.archive == a.archive;
    }
  }

  /** A nonce that was left is archived for good; within one nonce an attempt only moves forward. */
  lemma {:induction false} Later(h: seq<State>, i: nat, k: nat)
    requires HistoryOk(h) && i <= k < |h|
    ensures forall n :: Archived(h[i], n) ==> Archived(h[k], n)
    ensures Active(h[k]) == Active(h[i]) ==> Progress(h[i].phase) <= Progress(h[k].phase)
    ensures Active(h[k]) != Active(h[i]) ==> Archived(h[k], Active(h[i]))
    decreases k
  {
    hide Step;
    if i < k {
      Later(h, i, k - 1);
      HistoryNonces(h, k - 1);
      HistoryNonces(h, k);
      assert Step(h[k - 1], h[k]);
      StepProgress(h[k - 1], h[k]);
    }
  }

  /** The commits that put an attempt into preflight: its first, or one re-entry. */
  predicate EntersPreflight(h: seq<State>, i: nat)
    requires i < |h|
  {
    i > 0 && !h[i - 1].phase.PreflightStarted? && h[i].phase.PreflightStarted?
  }

  /** The commits that start an adoption. */
  predicate StartsAdoption(h: seq<State>, i: nat)
    requires i < |h|
  {
    i > 0 && !h[i - 1].phase.AdoptionStarted? && h[i].phase.AdoptionStarted?
  }

  /** All attempt nonces are distinct. */
  lemma AttemptNoncesDistinct(h: seq<State>, i: nat, k: nat)
    requires HistoryOk(h) && i < k < |h| && EntersPreflight(h, i) && EntersPreflight(h, k)
    ensures Active(h[i]) != Active(h[k])
  {
    HistoryNonces(h, k - 1);
    HistoryNonces(h, k);
    assert Step(h[k - 1], h[k]);
    Later(h, i, k - 1);
  }

  /** Each nonce has at most one commit to adoption. */
  lemma OneAdoptionPerNonce(h: seq<State>, i: nat, k: nat)
    requires HistoryOk(h) && i < k < |h| && StartsAdoption(h, i) && StartsAdoption(h, k)
    ensures Active(h[i]) != Active(h[k])
  {
    assert Step(h[k - 1], h[k]);
    assert AdoptionBegun(h[k - 1], h[k]);
    Later(h, i, k - 1);
    HistoryNonces(h, k - 1);
  }

  /** A re-entry archives exactly one receipt: the failed adoption of the attempt it leaves. */
  lemma ReentryArchivesOne(h: seq<State>, k: nat)
    requires HistoryOk(h) && 0 < k < |h| && EntersPreflight(h, k) && !h[k - 1].phase.Prepared?
    ensures |h[k].archive| == |h[k - 1].archive| + 1 && h[k - 1].archive == h[k].archive[..|h[k - 1].archive|]
    ensures var last := h[k].archive[|h[k].archive| - 1];
            last.nonce == Active(h[k - 1]) && FailedAdoption(last.receipt)
  {
    assert Step(h[k - 1], h[k]);
    HistoryNonces(h, k - 1);
  }

  /** The number of preflight entries so far. */
  function Entries(h: seq<State>): nat {
    if h == [] then 0
    else Entries(h[..|h| - 1]) + if EntersPreflight(h, |h| - 1) then 1 else 0
  }

  /** One attempt more than there are archived ones, unless none was ever started. */
  predicate Counts(s: State, entries: nat) {
    if s.phase.Prepared? then entries == 0 && s.archive == []
    else entries == |s.archive| + 1 || (s.phase.Cleaned? && entries == 0 && s.archive == [])
  }

  lemma StepCounts(a: State, b: State, entries: nat)
    requires Step(a, b) && Counts(a, entries)
    ensures Counts(b, entries + if !a.phase.PreflightStarted? && b.phase.PreflightStarted? then 1 else 0)
  {
  }

  /** The archive counts the re-entries exactly. */
  lemma {:induction false} ArchiveCountsReentries(h: seq<State>)
    requires HistoryOk(h) && h != []
    ensures Counts(h[|h| - 1], Entries(h))
    decreases |h|
  {
    hide Step, Counts;
    var n := |h| - 1;
    if n == 0 {
      assert h[..0] == [];
      assert Entries(h) == 0;
      NewCounts(h[0]);
    } else {
      var before := h[..n];
      assert HistoryOk(before) && before[n - 1] == h[n - 1];
      ArchiveCountsReentries(before);
      assert Step(h[n - 1], h[n]);
      StepCounts(h[n - 1], h[n], Entries(before));
    }
  }

  lemma NewCounts(s: State)
    requires Created(s)
    ensures Counts(s, 0)
  {
  }

  /** A finished adoption rests on a passed adoption receipt of the running attempt. */
  lemma {:induction false} FinishedRestsOnPass(h: seq<State>, i: nat)
    requires HistoryOk(h) && i < |h| && (h[i].phase.RuntimeAdopted? || h[i].phase.ConfigPersisted?)
    ensures h[i].receipt.Some? && h[i].receipt.value.mode.Adopt? && h[i].receipt.value.passed
            && OfAttempt(h[i], h[i].receipt.value)
  {
    if i > 0 {
      assert Step(h[i - 1], h[i]);
      if h[i - 1].phase.RuntimeAdopted? || h[i - 1].phase.ConfigPersisted? { FinishedRestsOnPass(h, i - 1); }
    }
  }
}
