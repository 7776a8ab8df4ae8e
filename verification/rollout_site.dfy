/** The world outside the rollout process: its durable files, the chain, and the moment it is cut off. */
module RolloutSite {
  import opened Wrappers
  import opened RolloutPlan
  import opened RolloutChain
  import opened RolloutWorld

  /** What may have happened between two moments: nothing is forgotten. */
  ghost predicate Onward(w: World, v: World) {
    w == v || Remembers(w, v)
  }

  ghost predicate Remembers(w: World, v: World) {
    && (w.foreign ==> v.foreign)
    && v.chain.planned == w.chain.planned
    && CodeKept(w.chain.facts, v.chain.facts)
    && (forall tx :: tx in w.chain.included ==> tx in v.chain.included && v.chain.included[tx] == w.chain.included[tx])
    && (HasPassed(w.log) ==> HasPassed(v.log))
  }

  /** Only the outside world moved. */
  ghost predicate Waited(w: World, v: World) {
    Onward(w, v) && v == World(w.disk, v.chain, w.sent, v.foreign, w.log)
  }

  lemma OnwardTrans(u: World, v: World, w: World)
    requires Onward(u, v) && Onward(v, w)
    ensures Onward(u, w)
  {
  }

  lemma ForeignStep(w: World, g: Facts)
    requires WorldOk(w) && CodeKept(w.chain.facts, g)
    ensures WorldOk(w.(chain := w.chain.(facts := g), foreign := true))
    ensures Onward(w, w.(chain := w.chain.(facts := g), foreign := true))
  {
    ForeignKeeps(w, g);
  }

  lemma IncludeStep(w: World, tx: Tx, ok: bool)
    requires WorldOk(w) && tx in w.sent && tx !in w.chain.included && (ok ==> Admitted(w.chain.facts, tx.action))
    ensures WorldOk(w.(chain := Include(w.chain, tx, ok)))
    ensures Onward(w, w.(chain := Include(w.chain, tx, ok)))
  {
    hide WorldOk;
    IncludeKeeps(w, tx, ok);
  }

  predicate StoredCodeKept(f: Facts, g: Facts)
    ensures StoredCodeKept(f, g) <==> CodeKept(f, g)
  {
    && (forall id :: id in g.wasm ==> id < g.nextCode)
    && f.nextCode <= g.nextCode
    && (forall id :: id in f.wasm ==> id in g.wasm && g.wasm[id] == f.wasm[id])
  }

  class Site {
    var disk: Option<Journal>
    var chain: Chain
    var sent: set<Tx>
    /** The file beside the journal that replaces it. */
    var temporary: Option<Journal>
    /** Effects left before the running process is cut off. */
    var life: nat
    ghost var foreign: bool
    ghost var log: seq<Event>

    ghost function View(): World
      reads this
    {
      World(disk, chain, sent, foreign, log)
    }

    ghost predicate Ok()
      reads this
    {
      WorldOk(View())
    }

    constructor (facts: Facts)
      requires FactsOk(facts)
      ensures View() == World(None, Chain(facts, map[], facts), {}, false, [])
      ensures Ok()
    {
      disk, temporary, chain, sent, life := None, None, Chain(facts, map[], facts), {}, 0;
      foreign, log := false, [];
    }

    /** A new process with an arbitrary number of effects to live. */
    method Restart(effects: nat)
      modifies this`life
      ensures life == effects
    {
      life := effects;
    }

    /** The journal write: a temporary file is filled, then it replaces the journal; a cut leaves the old one. */
    method Save(j: Journal) returns (alive: bool)
      modifies this
      ensures alive ==> View() == old(View()).(disk := Some(j))
      ensures !alive ==> View() == old(View()) && life == 0
    {
      if life == 0 {
        return false;
      }
      temporary, life := Some(j), life - 1;
      if life == 0 {
        return false;
      }
      disk, temporary, life := temporary, None, life - 1;
      return true;
    }

    /** From the first journal on, changes by others are told apart. */
    method Baseline()
      modifies this`foreign, this`chain
      ensures View() == old(View()).(foreign := false, chain := old(chain).(planned := old(chain).facts))
    {
      chain, foreign := chain.(planned := chain.facts), false;
    }

    /** Sign an action with a current account sequence; the signer may refuse. */
    method Sign(ghost n: OpName, action: Action) returns (tx: Option<Tx>)
      modifies this
      ensures tx.None? ==> View() == old(View())
      ensures tx.Some? ==>
                && tx.value.action == action && tx.value.fee > 0 && tx.value !in chain.included
                && View() == old(View()).(log := old(log) + [Signed(n, tx.value, Moment(old(disk), old(chain)))])
    {
      var fee: nat, sequence: nat := *, *;
      tx := None;
      if life > 0 && fee > 0 && Tx(action, sequence, fee) !in chain.included {
        tx := Some(Tx(action, sequence, fee));
        log := log + [Signed(n, tx.value, Moment(disk, chain))];
        life := life - 1;
      }
    }

    /** Hand signed bytes to the network. */
    method Broadcast(ghost n: OpName, tx: Tx) returns (alive: bool)
      modifies this
      ensures alive ==> View() == old(View()).(sent := old(sent) + {tx},
                                               log := old(log) + [Sent(n, tx, Moment(old(disk), old(chain)))])
      ensures !alive ==> View() == old(View()) && life == 0
    {
      alive := life > 0;
      if alive {
        sent := sent + {tx};
        log := log + [Sent(n, tx, Moment(disk, chain))];
        life := life - 1;
      }
    }

    /** Record that a drift check was accepted. */
    ghost method Check()
      modifies this
      ensures View() == old(View()).(log := old(log) + [Checked(Moment(old(disk), old(chain)))])
    {
      log := log + [Checked(Moment(disk, chain))];
    }

    /** Record that a verification passed. */
    ghost method Pass()
      modifies this
      ensures View() == old(View()).(log := old(log) + [Passed(Moment(old(disk), old(chain)))])
    {
      log := log + [Passed(Moment(disk, chain))];
    }

    /** Any number of inclusions of broadcast transactions and of changes by others. */
    method Elapse()
      requires Ok()
      modifies this
      ensures Ok() && Waited(old(View()), View()) && life == old(life)
    {
      var moves: int := *;
      while moves > 0
        invariant Ok() && Waited(old(View()), View()) && life == old(life)
      {
        ghost var before := View();
        var inclusion: bool := *;
        if inclusion { SomeInclusion(); } else { SomeChange(); }
        OnwardTrans(old(View()), before, View());
        moves := moves - 1;
      }
    }

    /** The chain includes one broadcast transaction; it may succeed if the chain admits it. */
    method SomeInclusion()
      requires Ok()
      modifies this
      ensures Ok() && Waited(old(View()), View()) && life == old(life)
    {
      hide WorldOk, Include;
      var ok: bool := *;
      var pending := sent - chain.included.Keys;
      if pending != {} {
        var tx :| tx in pending;
        ghost var w := View();
        ok := ok && Admitted(chain.facts, tx.action);
        IncludeStep(w, tx, ok);
        chain := Include(chain, tx, ok);
        assert View() == w.(chain := Include(w.chain, tx, ok));
      }
    }

    /** Somebody else changes the chain; code that is stored stays as it is. */
    method SomeChange()
      requires Ok()
      modifies this
      ensures Ok() && Waited(old(View()), View()) && life == old(life)
    {
      var facts: Facts := *;
      if StoredCodeKept(chain.facts, facts) {
        ghost var w := View();
        ForeignStep(w, facts);
        chain := chain.(facts := facts);
        foreign := true;
        assert View() == w.(chain := w.chain.(facts := facts), foreign := true);
      }
    }
  }
}
