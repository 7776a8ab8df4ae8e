/**
 The one-shot adoption worker: an exclusive latch on the attempt's state volume, at most one host
 transaction behind it, and terminal evidence that survives container restarts.
 */
module AdoptionWorker {
  import opened Wrappers
  import opened AdoptionJournal

  type Volume = string

  /** A worker report; `evidence` stands for the field checks of a passed adoption. */
  datatype Report = Report(
    mode: Mode, passed: bool, nonce: Option<Nonce>, runtimeChanged: bool,
    networkChecked: bool, networkDetached: bool, latched: bool, evidence: bool)

  /** `closed_report`: what a report may claim. */
  predicate Closed(r: Report) {
    r.passed ==>
      && r.networkChecked && r.networkDetached
      && (r.mode.Preflight? ==> !r.runtimeChanged && !r.latched)
      && (r.mode.Adopt? ==> r.latched && r.evidence)
  }

  function InitialReport(mode: Mode): Report {
    Report(mode, false, None, false, false, true, false, false)
  }

  /** A stored report that must never be replaced. */
  predicate Terminal(r: Report) { r.mode.Adopt? && r.latched }

  // ---------------------------------------------------------------- volumes and nonces

  const NONCE_LENGTH: nat := 16
  const EXPLICIT: string := "dex-loki-s3-"
  const PREFIXED: string := "_transaction-state-"

  /** The two names under which the state volume of a nonce may be mounted. */
  predicate VolumeOf(volume: Volume, job: string, nonce: Nonce) {
    |nonce| == NONCE_LENGTH && (volume == EXPLICIT + nonce || volume == job + PREFIXED + nonce)
  }

  /** A volume belongs to one nonce only. */
  lemma VolumeHasOneNonce(volume: Volume, job: string, m: Nonce, n: Nonce)
    requires VolumeOf(volume, job, m) && VolumeOf(volume, job, n)
    ensures m == n
  {
    assert volume[|volume| - NONCE_LENGTH..] == m;
    assert volume[|volume| - NONCE_LENGTH..] == n;
  }

  datatype Transaction = Transaction(volume: Volume, nonce: Nonce)

  /** Transactions ran on different volumes, each under the nonce of its volume. */
  ghost predicate TransactionsOk(job: string, latched: set<Volume>, ran: seq<Transaction>) {
    && (forall i :: 0 <= i < |ran| ==> ran[i].volume in latched && VolumeOf(ran[i].volume, job, ran[i].nonce))
    && (forall i, k :: 0 <= i < k < |ran| ==> ran[i].volume != ran[k].volume)
  }

  // ---------------------------------------------------------------- starts

  /** What the host and the helper answer during a start, and where the container dies. */
  datatype Answers = Answers(
    inputs: bool, checks: bool, alone: bool, onNetwork: bool, attached: bool, joins: bool, diesLatched: bool)

  /** A start as it is asked for: its mode, its nonce, and the name its state volume is mounted under. */
  datatype Request = Request(mode: Mode, nonce: Nonce, volume: Volume)

  datatype Start = Start(request: Request, answers: Answers)

  /** The start gets as far as the latch. */
  predicate Reaches(job: string, s: Start) {
    var a := s.answers;
    && a.inputs && s.request.mode.Adopt? && a.checks && VolumeOf(s.request.volume, job, s.request.nonce)
    && a.alone && a.onNetwork && !a.attached && a.joins
  }

  /** The latches of the host and the transactions that were started. */
  datatype History = History(latched: set<Volume>, ran: seq<Transaction>)

  /** One start latches a volume that it is the first to reach, and starts the transaction unless it dies in between. */
  function After(job: string, h: History, s: Start): History {
    var r := s.request;
    if !Reaches(job, s) || r.volume in h.latched then h
    else
      History(h.latched + {r.volume},
              if s.answers.diesLatched then h.ran else h.ran + [Transaction(r.volume, r.nonce)])
  }

  function Replay(job: string, h: History, starts: seq<Start>): History {
    if starts == [] then h else After(job, Replay(job, h, starts[..|starts| - 1]), starts[|starts| - 1])
  }

  /** Everything on the host that outlives a container. */
  class Host {
    const job: string
    var latched: set<Volume>
    var reports: map<Volume, Report>
    /** The host transactions that were started. */
    ghost var ran: seq<Transaction>

    ghost predicate Ok()
      reads this
    {
      && TransactionsOk(job, latched, ran)
      && (forall v :: v in reports ==> Closed(reports[v]))
      && (forall v :: v in reports && Terminal(reports[v]) ==> v in latched)
    }

    constructor (job: string)
      ensures Ok() && this.job == job && latched == {} && reports == map[] && ran == []
    {
      this.job, latched, reports, ran := job, {}, map[], [];
    }

    /** Exclusive creation of the latch file. */
    method Latch(volume: Volume) returns (created: bool)
      modifies this`latched
      ensures created <==> volume !in old(latched)
      ensures latched == old(latched) + {volume}
    {
      created := volume !in latched;
      latched := latched + {volume};
    }

    ghost function Past(): History
      reads this
    {
      History(latched, ran)
    }

    /**
     One start of the worker up to its report; `None` is a container that died on the way. At most one
     transaction starts, only behind a latch that this very start created.
     */
    method Execute(s: Start) returns (r: Option<Report>)
      requires Ok() && s.answers.inputs
      modifies this`latched, this`ran
      ensures Ok()
      ensures Past() == After(job, old(Past()), s)
      ensures r.Some? ==>
              Closed(r.value) && r.value.mode == s.request.mode && (Terminal(r.value) ==> s.request.volume in latched)
      ensures r.Some? && r.value.latched ==>
                ran == old(ran) + [Transaction(s.request.volume, s.request.nonce)]
                  && r.value.nonce == Some(s.request.nonce)
      ensures r.Some? && r.value.passed ==>
              s.answers.checks && s.answers.alone && (s.request.mode.Adopt? ==> r.value.latched)
    {
      var mode, nonce, volume := s.request.mode, s.request.nonce, s.request.volume;
      var report := InitialReport(mode);
      if !s.answers.checks || !VolumeOf(volume, job, nonce) {
        return Some(report);
      }
      report := report.(nonce := Some(nonce));
      if !s.answers.alone || !s.answers.onNetwork {
        return Some(report);
      }
      report := report.(networkChecked := true, networkDetached := !s.answers.attached);
      if s.answers.attached {
        return Some(report);
      }
      report := report.(networkDetached := false);
      if s.answers.joins {
        var created := true;
        if mode.Adopt? {
          created := Latch(volume);
        }
        if created {
          if s.answers.diesLatched {
            return None;
          }
          if mode.Adopt? {
            ran := ran + [Transaction(volume, nonce)];
            report := report.(latched := true, runtimeChanged := true);
          }
          report := Transacted(report);
        }
      }
      var dies: bool, leaves: bool := *, *;
      if dies {
        return None;
      }
      report := if leaves then report.(networkDetached := true) else report.(passed := false);
      if !Closed(report) {
        report := report.(passed := false);
      }
      return Some(report);
    }

    /** The helper's outcome: any, or none at all; the latch stays as it is reported. */
    method Transacted(report: Report) returns (r: Report)
      ensures r.mode == report.mode && r.latched == report.latched && r.nonce == report.nonce
      ensures r.networkChecked == report.networkChecked && r.networkDetached == report.networkDetached
    {
      var throws: bool, passed: bool, changed: bool, evidence: bool := *, *, *, *;
      r := if throws then report.(passed := false)
        else report.(passed := passed, runtimeChanged := changed, evidence := evidence);
    }

    /** Store a report, unless terminal adoption evidence is already there. */
    method Persist(report: Report, volume: Volume) returns (stored: bool)
      requires Ok() && (Terminal(report) ==> volume in latched)
      modifies this`reports
      ensures Ok()
      ensures volume in latched && volume in old(reports) && Terminal(old(reports)[volume]) ==> reports == old(reports)
      ensures reports == old(reports) || reports == old(reports)[volume := report]
      ensures stored ==> volume in reports && (reports[volume] == report || Terminal(reports[volume]))
    {
      if !Closed(report) {
        return false;
      }
      if volume in latched && volume in reports {
        if Terminal(reports[volume]) {
          return true;
        }
      }
      var dies: bool := *;
      if dies {
        return false;
      }
      reports := reports[volume := report];
      return true;
    }

    /** One container start: any inputs, cut off anywhere. */
    method Start(s: Start)
      requires Ok()
      modifies this
      ensures Ok() && Evidence(old(latched), old(reports), old(ran))
      ensures Past() == After(job, old(Past()), s)
    {
      var report := Some(InitialReport(Preflight));
      if s.answers.inputs {
        report := Execute(s);
      }
      if report.Some? {
        var stored := Persist(report.value, s.request.volume);
      }
    }

    /** Latches stay, transactions are only added, and terminal evidence is never replaced. */
    ghost predicate Evidence(wasLatched: set<Volume>, wasReports: map<Volume, Report>, hadRun: seq<Transaction>)
      reads this
    {
      && wasLatched <= latched && hadRun <= ran
      && forall v :: v in wasReports && Terminal(wasReports[v]) ==> v in reports && reports[v] == wasReports[v]
    }

    /** Any number of starts and restarts, of any attempts: latches and transactions are those of the starts. */
    method Restarts(starts: seq<Start>)
      requires Ok()
      modifies this
      ensures Ok() && Evidence(old(latched), old(reports), old(ran))
      ensures Past() == Replay(job, old(Past()), starts)
    {
      assert starts[..0] == [];
      for i := 0 to |starts|
        invariant Ok() && Evidence(old(latched), old(reports), old(ran))
        invariant Past() == Replay(job, old(Past()), starts[..i])
      {
        Start(starts[i]);
        assert starts[..i + 1][..i] == starts[..i];
      }
      assert starts[..|starts|] == starts;
    }
  }

  // ---------------------------------------------------------------- how often a nonce can adopt

  /** No two transactions ran under a nonce. */
  ghost predicate AtMostOnce(ran: seq<Transaction>, nonce: Nonce) {
    forall i, k :: 0 <= i < k < |ran| ==> !(ran[i].nonce == nonce && ran[k].nonce == nonce)
  }

  /** Every admissible adopt request for the nonce names the same volume. */
  ghost predicate OneMount(job: string, plan: seq<Request>, nonce: Nonce) {
    forall i, k :: 0 <= i < k < |plan| && Adopts(job, plan[i], nonce) && Adopts(job, plan[k], nonce) ==>
      plan[i].volume == plan[k].volume
  }

  predicate Adopts(job: string, r: Request, nonce: Nonce) {
    r.mode.Adopt? && r.nonce == nonce && VolumeOf(r.volume, job, nonce)
  }

  /** The requests with the answers they meet. */
  function Met(plan: seq<Request>, answers: seq<Answers>): (starts: seq<Start>)
    requires |answers| == |plan|
    ensures |starts| == |plan| && forall i :: 0 <= i < |plan| ==> starts[i] == Start(plan[i], answers[i])
  {
    seq(|plan|, i requires 0 <= i < |plan| => Start(plan[i], answers[i]))
  }

  /** Whatever the environment answers, the nonce runs at most one transaction. */
  ghost predicate RunsAtMostOnce(job: string, plan: seq<Request>, nonce: Nonce) {
    forall answers: seq<Answers> {:trigger Met(plan, answers)} :: |answers| == |plan| ==>
      AtMostOnce(Replay(job, History({}, []), Met(plan, answers)).ran, nonce)
  }

  ghost predicate FromStart(job: string, starts: seq<Start>, t: Transaction) {
    exists k :: 0 <= k < |starts| && Adopts(job, starts[k].request, t.nonce) && starts[k].request.volume == t.volume
  }

  /** Every transaction comes from an admissible adopt request with its volume and nonce, and volumes differ. */
  lemma {:induction false} RanFromStarts(job: string, starts: seq<Start>)
    ensures var h := Replay(job, History({}, []), starts);
            TransactionsOk(job, h.latched, h.ran) && forall i :: 0 <= i < |h.ran| ==> FromStart(job, starts, h.ran[i])
  {
    if starts != [] {
      var init, last := starts[..|starts| - 1], starts[|starts| - 1];
      RanFromStarts(job, init);
      var h, g := Replay(job, History({}, []), init), Replay(job, History({}, []), starts);
      forall i | 0 <= i < |g.ran|
        ensures FromStart(job, starts, g.ran[i])
      {
        if i < |h.ran| {
          var k :| 0 <= k < |init| && Adopts(job, init[k].request, h.ran[i].nonce)
            && init[k].request.volume == h.ran[i].volume;
          assert starts[k] == init[k];
        } else {
          assert Adopts(job, last.request, g.ran[i].nonce);
        }
      }
    }
  }

  /** Nothing goes wrong. */
  const GOOD: Answers := Answers(true, true, true, true, false, true, false)

  /** Then a transaction ran on every latched volume, and every admissible adopt request finds its volume latched. */
  lemma {:induction false} GoodRuns(job: string, starts: seq<Start>, k: nat)
    requires forall i :: 0 <= i < |starts| ==> starts[i].answers == GOOD
    ensures var h := Replay(job, History({}, []), starts);
            && (forall v :: v in h.latched ==> exists i :: 0 <= i < |h.ran| && h.ran[i].volume == v)
            && (k < |starts| && Reaches(job, starts[k]) ==> starts[k].request.volume in h.latched)
  {
    if starts != [] {
      var init, last := starts[..|starts| - 1], starts[|starts| - 1];
      GoodRuns(job, init, k);
      var h, g := Replay(job, History({}, []), init), Replay(job, History({}, []), starts);
      assert g.ran == h.ran || g.ran == h.ran + [Transaction(last.request.volume, last.request.nonce)];
      forall v | v in g.latched
        ensures exists i :: 0 <= i < |g.ran| && g.ran[i].volume == v
      {
        if v in h.latched {
          var i :| 0 <= i < |h.ran| && h.ran[i].volume == v;
          assert g.ran[i].volume == v;
        } else {
          assert g.ran[|h.ran|].volume == v;
        }
      }
    }
  }

  /** An admissible adopt request then has a transaction of its nonce on its volume. */
  lemma GoodRan(job: string, starts: seq<Start>, nonce: Nonce, k: nat) returns (i: nat)
    requires forall m :: 0 <= m < |starts| ==> starts[m].answers == GOOD
    requires k < |starts| && Adopts(job, starts[k].request, nonce)
    ensures var h := Replay(job, History({}, []), starts);
            i < |h.ran| && h.ran[i].nonce == nonce && h.ran[i].volume == starts[k].request.volume
  {
    hide Replay, VolumeOf;
    var h := Replay(job, History({}, []), starts);
    GoodRuns(job, starts, k);
    RanFromStarts(job, starts);
    assert Reaches(job, starts[k]);
    i :| 0 <= i < |h.ran| && h.ran[i].volume == starts[k].request.volume;
    VolumeHasOneNonce(h.ran[i].volume, job, h.ran[i].nonce, nonce);
  }

  /** Two admissible names in the requests are enough for two transactions. */
  lemma TwoMountsRunTwice(job: string, plan: seq<Request>, nonce: Nonce, a: nat, b: nat)
    requires a < b < |plan| && Adopts(job, plan[a], nonce) && Adopts(job, plan[b], nonce)
             && plan[a].volume != plan[b].volume
    ensures !RunsAtMostOnce(job, plan, nonce)
  {
    hide Replay, VolumeOf, Adopts;
    var answers := seq(|plan|, _ => GOOD);
    var starts := Met(plan, answers);
    var i := GoodRan(job, starts, nonce, a);
    var k := GoodRan(job, starts, nonce, b);
    assert !AtMostOnce(Replay(job, History({}, []), starts).ran, nonce);
  }

  /**
   Over any starts, answers and deaths, a nonce runs at most one transaction exactly if its admissible adopt
   requests all mount its volume under the same name.
   */
  lemma OnceExactly(job: string, plan: seq<Request>, nonce: Nonce)
    ensures RunsAtMostOnce(job, plan, nonce) <==> OneMount(job, plan, nonce)
  {
    if OneMount(job, plan, nonce) {
      forall answers: seq<Answers> | |answers| == |plan|
        ensures AtMostOnce(Replay(job, History({}, []), Met(plan, answers)).ran, nonce)
      {
        OneMountOnce(job, plan, nonce, answers);
      }
    } else {
      var a, b :| 0 <= a < b < |plan| && Adopts(job, plan[a], nonce) && Adopts(job, plan[b], nonce)
        && plan[a].volume != plan[b].volume;
      TwoMountsRunTwice(job, plan, nonce, a, b);
    }
  }

  lemma OneMountOnce(job: string, plan: seq<Request>, nonce: Nonce, answers: seq<Answers>)
    requires OneMount(job, plan, nonce) && |answers| == |plan|
    ensures AtMostOnce(Replay(job, History({}, []), Met(plan, answers)).ran, nonce)
  {
    var h := Replay(job, History({}, []), Met(plan, answers));
    RanFromStarts(job, Met(plan, answers));
    OneVolumes(job, plan, nonce, answers, h.ran);
    OneVolumeOnce(job, h.latched, h.ran, nonce);
  }

  lemma OneVolumes(job: string, plan: seq<Request>, nonce: Nonce, answers: seq<Answers>, ran: seq<Transaction>)
    requires OneMount(job, plan, nonce) && |answers| == |plan|
    requires forall i :: 0 <= i < |ran| ==> FromStart(job, Met(plan, answers), ran[i])
    ensures forall i, k :: 0 <= i < k < |ran| && ran[i].nonce == nonce && ran[k].nonce == nonce ==>
            ran[i].volume == ran[k].volume
  {
    forall i, k | 0 <= i < k < |ran| && ran[i].nonce == nonce && ran[k].nonce == nonce
      ensures ran[i].volume == ran[k].volume
    {
      OneVolume(job, plan, nonce, answers, ran[i], ran[k]);
    }
  }

  lemma OneVolume(job: string, plan: seq<Request>, nonce: Nonce, answers: seq<Answers>, t: Transaction, u: Transaction)
    requires OneMount(job, plan, nonce) && |answers| == |plan| && t.nonce == nonce && u.nonce == nonce
    requires FromStart(job, Met(plan, answers), t) && FromStart(job, Met(plan, answers), u)
    ensures t.volume == u.volume
  {
    var starts := Met(plan, answers);
    var a :| 0 <= a < |starts| && Adopts(job, starts[a].request, nonce) && starts[a].request.volume == t.volume;
    var b :| 0 <= b < |starts| && Adopts(job, starts[b].request, nonce) && starts[b].request.volume == u.volume;
    assert plan[a] == starts[a].request && plan[b] == starts[b].request;
  }

  lemma OneVolumeOnce(job: string, latched: set<Volume>, ran: seq<Transaction>, nonce: Nonce)
    requires TransactionsOk(job, latched, ran)
    requires forall i, k :: 0 <= i < k < |ran| && ran[i].nonce == nonce && ran[k].nonce == nonce ==>
             ran[i].volume == ran[k].volume
    ensures AtMostOnce(ran, nonce)
  {
  }

  /** With both names a second transaction is possible; a third never is. */
  lemma AtMostTwice(job: string, latched: set<Volume>, ran: seq<Transaction>, nonce: Nonce, i: nat, k: nat, m: nat)
    requires TransactionsOk(job, latched, ran) && i < k < m < |ran|
    ensures !(ran[i].nonce == nonce && ran[k].nonce == nonce && ran[m].nonce == nonce)
  {
    assert VolumeOf(ran[i].volume, job, ran[i].nonce) && VolumeOf(ran[k].volume, job, ran[k].nonce)
           && VolumeOf(ran[m].volume, job, ran[m].nonce);
  }

  const EXAMPLE: Nonce := "0123456789abcdef"

  /** The exception is real: two starts under the two admissible names of one attempt run two transactions. */
  lemma TwoMountsTwoTransactions()
    ensures var a := Request(Adopt, EXAMPLE, EXPLICIT + EXAMPLE);
            var b := Request(Adopt, EXAMPLE, "job" + PREFIXED + EXAMPLE);
            Replay("job", History({}, []), [Start(a, GOOD), Start(b, GOOD)]).ran
            == [Transaction(a.volume, EXAMPLE), Transaction(b.volume, EXAMPLE)]
  {
    var a, b := Request(Adopt, EXAMPLE, EXPLICIT + EXAMPLE), Request(Adopt, EXAMPLE, "job" + PREFIXED + EXAMPLE);
    var starts := [Start(a, GOOD), Start(b, GOOD)];
    assert a.volume[0] == 'd' && b.volume[0] == 'j';
    assert starts[..1] == [Start(a, GOOD)] && starts[..1][..0] == [];
    assert Replay("job", History({}, []), starts[..1]).ran == [Transaction(a.volume, EXAMPLE)];
  }
}
