/** The operator's commands over the adoption journal. External answers are parameters. */
module AdoptionOperator {
  import opened Wrappers
  import opened AdoptionJournal

  /** A journal document and the version it was read at. */
  datatype Snapshot = Snapshot(data: State, version: nat)

  /** The vault holds one document; its version is the number of writes so far. */
  class Vault {
    var history: seq<State>

    ghost predicate Ok()
      reads this
    {
      HistoryOk(history)
    }

    ghost predicate Holds(p: Snapshot)
      reads this
    {
      0 < p.version <= |history| && history[p.version - 1] == p.data
    }

    constructor ()
      ensures Ok() && history == []
    {
      history := [];
    }

    /** Any commits of other operators. */
    method Others()
      requires Ok()
      modifies this
      ensures Ok() && old(history) <= history
    {
      var moves: int := *;
      while moves > 0
        invariant Ok() && old(history) <= history
      {
        var next: State := *;
        if if history == [] then Created(next) else Step(history[|history| - 1], next) {
          history := history + [next];
        }
        moves := moves - 1;
      }
    }

    method Read() returns (p: Option<Snapshot>)
      requires Ok()
      modifies this
      ensures Ok() && old(history) <= history
      ensures p.None? <==> history == []
      ensures p.Some? ==> Holds(p.value) && p.value.version == |history|
    {
      Others();
      p := if history == [] then None else Some(Snapshot(history[|history| - 1], |history|));
    }

    /**
     Compare-and-swap, then a readback that only compares the document. A stale version never
     writes; a failed readback leaves the write in place.
     */
    method Save(data: State, previous: nat) returns (saved: Option<Snapshot>)
      requires Ok() && previous <= |history|
      requires if previous == 0 then Created(data) else Step(history[previous - 1], data)
      modifies this
      ensures Ok() && old(history) <= history
      ensures saved.Some? ==>
                && old(|history|) == previous < |history| && history[previous] == data
                && Holds(saved.value) && saved.value.data == data
      ensures old(|history|) > previous ==> saved.None?
    {
      ghost var before := history;
      Others();
      if |history| != previous {
        return None;
      }
      assert history == before;
      history := history + [data];
      ghost var written := history;
      Others();
      assert history[previous] == written[previous];
      if history[|history| - 1] != data {
        return None;
      }
      return Some(Snapshot(data, |history|));
    }
  }

  // ---------------------------------------------------------------- receipts

  /** `active_receipts`: the receipts of the running attempt, in order. */
  function ActiveReceipts(s: State, found: seq<Receipt>): (active: seq<Receipt>)
    ensures forall r :: r in active <==> r in found && OfAttempt(s, r)
  {
    if found == [] then []
    else
      var rest := ActiveReceipts(s, found[1..]);
      assert found == [found[0]] + found[1..];
      if OfAttempt(s, found[0]) then [found[0]] + rest else rest
  }

  /** A failed adoption whose runtime is known to be unharmed. */
  predicate Harmless(r: Receipt) {
    FailedAdoption(r) && (!r.runtimeChanged || r.rollbackVerified)
  }

  // ---------------------------------------------------------------- creation

  /** `create`: the rollback record precedes any deployment. */
  method Create(v: Vault, revision: nat, transaction: Nonce, job: Option<nat>, checks: bool) returns (done: bool)
    requires v.Ok()
    modifies v
    ensures v.Ok() && old(v.history) <= v.history
    ensures done ==> old(v.history) == [] && job.Some? && checks
    ensures done ==> exists i ::
            0 < i < |v.history| && EntersPreflight(v.history, i) && Active(v.history[i]) == transaction
  {
    var existing := v.Read();
    if existing.Some? || !checks {
      return false;
    }
    var saved := v.Save(NewState(transaction, revision), 0);
    if saved.None? {
      return false;
    }
    done := CreateServiceJob(v, saved.value, job, checks);
  }

  method CreateServiceJob(v: Vault, p: Snapshot, job: Option<nat>, checks: bool) returns (done: bool)
    requires v.Ok() && v.Holds(p) && p.data.phase.Prepared? && p.data.job.None?
    modifies v
    ensures v.Ok() && old(v.history) <= v.history
    ensures done ==> job.Some? && checks
    ensures done ==> exists i ::
            0 < i < |v.history| && EntersPreflight(v.history, i) && Active(v.history[i]) == Active(p.data)
  {
    if job.None? {
      return false;
    }
    var owned := p.data.(job := job);
    assert JobFound(p.data, owned);
    var saved := v.Save(owned, p.version);
    if saved.None? || !checks {
      return false;
    }
    var begun := owned.(phase := PreflightStarted);
    assert PreflightBegun(owned, begun);
    var at := saved.value.version;
    saved := v.Save(begun, at);
    if saved.None? {
      return false;
    }
    assert v.history[at - 1] == owned && v.history[at] == begun;
    assert EntersPreflight(v.history, at);
    return true;
  }

  /** `resume_create`: only for a journal whose job is known not to exist. */
  method ResumeCreate(v: Vault, p: Snapshot, job: Option<nat>, checks: bool) returns (done: bool)
    requires v.Ok() && v.Holds(p)
    modifies v
    ensures v.Ok() && old(v.history) <= v.history
    ensures done ==> p.data.phase.Prepared? && p.data.job.None? && checks
  {
    if !p.data.phase.Prepared? || p.data.job.Some? || !checks {
      return false;
    }
    done := CreateServiceJob(v, p, job, checks);
  }

  /** `recover`: adopt the one matching job without starting anything. */
  method Recover(v: Vault, p: Snapshot, matches: seq<nat>, checks: bool) returns (done: bool)
    requires v.Ok() && v.Holds(p)
    modifies v
    ensures v.Ok() && old(v.history) <= v.history
    ensures done ==>
              && old(|v.history|) == p.version < |v.history| && |matches| == 1 && p.data.phase.Prepared?
              && p.data.job.None?
              && v.history[p.version] == p.data.(job := Some(matches[0]))
  {
    if !p.data.phase.Prepared? || p.data.job.Some? || |matches| != 1 || !checks {
      return false;
    }
    var owned := p.data.(job := Some(matches[0]));
    assert JobFound(p.data, owned);
    var saved := v.Save(owned, p.version);
    return saved.Some?;
  }

  // ---------------------------------------------------------------- observation and adoption

  /** `status`: note a harmless failure. The answer carries the state as the command leaves it. */
  method Status(v: Vault, p: Snapshot, found: seq<Receipt>, checks: bool) returns (r: Option<State>)
    requires v.Ok() && v.Holds(p)
    modifies v
    ensures v.Ok() && old(v.history) <= v.history
    ensures r.Some? && r.value != p.data ==>
              && old(|v.history|) == p.version < |v.history| && v.history[p.version] == r.value
              && FailureSeen(p.data, r.value)
    ensures r.Some? ==>
              var active := ActiveReceipts(p.data, found);
              (r.value != p.data <==> p.data.phase.AdoptionStarted? && active != [] && Harmless(active[|active| - 1]))
  {
    if p.data.job.None? || !checks {
      return None;
    }
    var active := ActiveReceipts(p.data, found);
    if p.data.phase.AdoptionStarted? && active != [] && Harmless(active[|active| - 1]) {
      var last := active[|active| - 1];
      var failed := p.data.(phase := AdoptionFailed, receipt := Some(last));
      assert last in active;
      assert FailureSeen(p.data, failed);
      var saved := v.Save(failed, p.version);
      return if saved.Some? then Some(failed) else None;
    }
    return Some(p.data);
  }

  /** `adopt`: one commit from a passed preflight to the started adoption, before the restart is requested. */
  method StartAdoption(v: Vault, p: Snapshot, found: seq<Receipt>, checks: bool) returns (done: bool)
    requires v.Ok() && v.Holds(p)
    modifies v
    ensures v.Ok() && old(v.history) <= v.history
    ensures done ==>
              && old(|v.history|) == p.version < |v.history|
              && StartsAdoption(v.history, p.version)
              && v.history[p.version] == p.data.(phase := AdoptionStarted)
    ensures done ==> exists r :: r in found && OfAttempt(p.data, r) && r.mode.Preflight? && r.passed
  {
    if !p.data.phase.PreflightStarted? {
      return false;
    }
    var state := Status(v, p, found, checks);
    if state.None? {
      return false;
    }
    var active := ActiveReceipts(p.data, found);
    if !(exists r :: r in active && r.mode.Preflight? && r.passed) || !checks {
      return false;
    }
    var started := p.data.(phase := AdoptionStarted);
    assert AdoptionBegun(p.data, started);
    var saved := v.Save(started, p.version);
    if saved.None? {
      return false;
    }
    assert v.history[p.version - 1] == p.data;
    return true;
  }

  /**
   `finalize`: a passed adoption is recorded, then the configuration is persisted. If `status` has
   just noted a failure, the version is stale and nothing more is written.
   */
  method Finalize(v: Vault, p: Snapshot, found: seq<Receipt>, checks: bool) returns (done: bool)
    requires v.Ok() && v.Holds(p)
    modifies v
    ensures v.Ok() && old(v.history) <= v.history
    ensures done ==>
              && (p.data.phase.AdoptionStarted? || p.data.phase.RuntimeAdopted? || p.data.phase.ConfigPersisted?)
              && (exists r :: r in found && OfAttempt(p.data, r) && r.mode.Adopt? && r.passed)
              && (exists i :: p.version <= i < |v.history| && v.history[i].phase.ConfigPersisted?
                           && Active(v.history[i]) == Active(p.data))
  {
    if !(p.data.phase.AdoptionStarted? || p.data.phase.RuntimeAdopted? || p.data.phase.ConfigPersisted?) {
      return false;
    }
    var state := Status(v, p, found, checks);
    if state.None? {
      return false;
    }
    var passed := PassedAdoptions(ActiveReceipts(p.data, found));
    if passed == [] || state.value != p.data {
      return false;
    }
    var at := p;
    if p.data.phase.AdoptionStarted? {
      var last := passed[|passed| - 1];
      assert last in passed;
      var adopted := p.data.(phase := RuntimeAdopted, receipt := Some(last));
      assert Adopted(p.data, adopted);
      var saved := v.Save(adopted, p.version);
      if saved.None? {
        return false;
      }
      at := saved.value;
    }
    if !checks {
      return false;
    }
    var persisted := at.data.(phase := ConfigPersisted);
    assert Persisted(at.data, persisted);
    var saved := v.Save(persisted, at.version);
    assert passed[0] in passed;
    return saved.Some?;
  }

  function PassedAdoptions(found: seq<Receipt>): (passed: seq<Receipt>)
    ensures forall r :: r in passed <==> r in found && r.mode.Adopt? && r.passed
  {
    if found == [] then []
    else
      var rest := PassedAdoptions(found[1..]);
      assert found == [found[0]] + found[1..];
      if found[0].mode.Adopt? && found[0].passed then [found[0]] + rest else rest
  }

  // ---------------------------------------------------------------- reset and cleanup

  /** `reset_preflight`: plan the replacement, change the job, and re-enter preflight under a fresh nonce. */
  method ResetPreflight(v: Vault, p: Snapshot, revision: nat, nonce: Nonce, found: seq<Receipt>, checks: bool,
                        patched: bool)
    returns (done: bool)
    requires v.Ok() && v.Holds(p)
    modifies v
    ensures v.Ok() && old(v.history) <= v.history
    ensures done ==>
              exists i :: 0 < i < |v.history| && EntersPreflight(v.history, i) && !v.history[i - 1].phase.Prepared?
                       && v.history[i].revision == revision
    ensures done && !p.data.phase.ResetPrepared? ==>
              && nonce != Active(p.data) && !Archived(p.data, nonce)
              && exists r :: r in found && OfAttempt(p.data, r) && FailedAdoption(r)
  {
    if !(p.data.phase.AdoptionStarted? || p.data.phase.AdoptionFailed? || p.data.phase.ResetPrepared?) {
      return false;
    }
    if revision == p.data.revision || p.data.observation.None? || |p.data.archive| >= ARCHIVE_BOUND || !checks {
      return false;
    }
    var at := p;
    if !p.data.phase.ResetPrepared? {
      var active := ActiveReceipts(p.data, found);
      if active == [] || !FailedAdoption(active[|active| - 1]) {
        return false;
      }
      assert active[|active| - 1] in active;
      if nonce == Active(p.data) || Archived(p.data, nonce) {
        return false;
      }
      var archive := Archive(Active(p.data), p.data.revision, active[|active| - 1], p.data.observation.value);
      var planned := p.data.(phase := ResetPrepared, plan := Some(Plan(revision, nonce, archive)));
      assert ResetPlanned(p.data, planned);
      var saved := v.Save(planned, p.version);
      if saved.None? {
        return false;
      }
      at := saved.value;
    }
    if at.data.plan.None? || at.data.plan.value.revision != revision || !PlanHolds(at.data, at.data.plan.value)
      || !patched {
      return false;
    }
    var replacement := Replacement(at.data, at.data.plan.value);
    assert Reentered(at.data, replacement);
    var saved := v.Save(replacement, at.version);
    if saved.None? {
      return false;
    }
    assert v.history[at.version - 1] == at.data && v.history[at.version] == replacement;
    assert EntersPreflight(v.history, at.version);
    return true;
  }

  /** `cleanup`: never while an adoption may still be running. */
  method Cleanup(v: Vault, p: Snapshot, found: seq<Receipt>, checks: bool) returns (done: bool)
    requires v.Ok() && v.Holds(p)
    modifies v
    ensures v.Ok() && old(v.history) <= v.history
    ensures done ==> exists i ::
            0 < i < |v.history| && v.history[i].phase.Cleaned? && !v.history[i - 1].phase.AdoptionStarted?
                              && i >= p.version
  {
    var at := p;
    if p.data.phase.AdoptionStarted? {
      var state := Status(v, p, found, checks);
      if state.None? {
        return false;
      }
      var refreshed := v.Read();
      if refreshed.None? || refreshed.value.data.job != p.data.job {
        return false;
      }
      at := refreshed.value;
    }
    if at.data.phase.AdoptionFailed? && !(at.data.receipt.Some? && Harmless(at.data.receipt.value)) {
      return false;
    }
    if at.data.job.None? || at.data.phase.AdoptionStarted? || !checks {
      return false;
    }
    var cleaned := at.data.(phase := Cleaned);
    assert CleanedUp(at.data, cleaned);
    var saved := v.Save(cleaned, at.version);
    if saved.None? {
      return false;
    }
    assert v.history[at.version] == cleaned && v.history[at.version - 1] == at.data;
    return true;
  }
}
