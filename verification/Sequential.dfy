// What a worker running alone does, as a script: handlers run to the end one after
// another, and reconcile passes between them.

module Sequential {
  import opened Basics
  import opened Queue
  import opened Ledger
  import opened Reconcile
  import opened Handler

  datatype Deed = Handled(env: Env) | Reconciled(now: nat)

  // One deed; none when there is nothing to pop or the table is broken.
  function Do(cfg: Config, limit: nat, w: World, d: Deed): Option<World> {
    match d
    case Handled(env) =>
      if w.queue.pending == [] then None
      else Some(ProcessOne(cfg, w.(queue := PopWake(w.queue).0), w.queue.pending[0], env))
    case Reconciled(now) =>
      if !Listed(w.ledger) then None
      else var (ledger, q, _) := ReconcileOnce(w.ledger, w.queue, now, limit); Some(w.(ledger := ledger, queue := q))
  }

  function Work(cfg: Config, limit: nat, w: World, deeds: seq<Deed>): Option<World>
    decreases |deeds|
  {
    if deeds == [] then Some(w)
    else match Work(cfg, limit, w, deeds[..|deeds| - 1])
         case None => None
         case Some(before) => Do(cfg, limit, before, deeds[|deeds| - 1])
  }

  function Start(d: Deed): nat {
    match d
    case Handled(env) => env.claimAt
    case Reconciled(now) => now
  }

  function End(d: Deed): nat {
    match d
    case Handled(env) => env.doneAt
    case Reconciled(now) => now
  }

  // The deeds happen one after another between the two moments.
  predicate Timely(deeds: seq<Deed>, from: nat, to: nat)
    decreases |deeds|
  {
    if deeds == [] then from <= to
    else
      var last := deeds[|deeds| - 1];
      Timely(deeds[..|deeds| - 1], from, Start(last)) && Start(last) <= End(last) <= to
  }

  lemma WorkOne(cfg: Config, limit: nat, w: World, deeds: seq<Deed>, d: Deed, from: nat, to: nat)
    requires Work(cfg, limit, w, deeds).Some?
    ensures Work(cfg, limit, w, deeds + [d]) == Do(cfg, limit, Work(cfg, limit, w, deeds).value, d)
    ensures Timely(deeds, from, Start(d)) && Start(d) <= End(d) <= to ==> Timely(deeds + [d], from, to)
  {
    assert (deeds + [d])[..|deeds|] == deeds;
  }

  lemma {:induction false} WorkMore(cfg: Config, limit: nat, w: World, first: seq<Deed>, more: seq<Deed>, from: nat, mid: nat, to: nat)
    requires Work(cfg, limit, w, first).Some? && Timely(first, from, mid) && Timely(more, mid, to)
    ensures Work(cfg, limit, w, first + more) == Work(cfg, limit, Work(cfg, limit, w, first).value, more)
    ensures Timely(first + more, from, to)
    decreases |more|
  {
    hide Do;
    if more == [] {
      assert first + more == first;
      TimelyLater(first, from, mid, to);
    } else {
      var last := more[|more| - 1];
      WorkMore(cfg, limit, w, first, more[..|more| - 1], from, mid, Start(last));
      assert (first + more)[..|first + more| - 1] == first + more[..|more| - 1];
    }
  }

  lemma WorkNothing(cfg: Config, limit: nat, w: World, now: nat)
    ensures Work(cfg, limit, w, []) == Some(w) && Timely([], now, now)
  {
  }

  // One more handled id ..
  lemma Handle(cfg: Config, limit: nat, w0: World, deeds: seq<Deed>, w: World, env: Env, from: nat, now: nat)
    requires Work(cfg, limit, w0, deeds) == Some(w) && Timely(deeds, from, now)
    requires w.queue.pending != [] && now <= env.claimAt <= env.doneAt
    ensures Work(cfg, limit, w0, deeds + [Handled(env)])
         == Some(ProcessOne(cfg, w.(queue := PopWake(w.queue).0), w.queue.pending[0], env))
    ensures Timely(deeds + [Handled(env)], from, env.doneAt)
  {
    hide ProcessOne;
    TimelyLater(deeds, from, now, env.claimAt);
    WorkOne(cfg, limit, w0, deeds, Handled(env), from, env.doneAt);
  }

  // .. or one more reconcile pass.
  lemma Tidy(cfg: Config, limit: nat, w0: World, deeds: seq<Deed>, w: World, at: nat, from: nat, now: nat)
    requires Work(cfg, limit, w0, deeds) == Some(w) && Timely(deeds, from, now) && Listed(w.ledger) && now <= at
    ensures var (ledger, q, _) := ReconcileOnce(w.ledger, w.queue, at, limit);
            Work(cfg, limit, w0, deeds + [Reconciled(at)]) == Some(w.(ledger := ledger, queue := q))
    ensures Timely(deeds + [Reconciled(at)], from, at)
  {
    hide ReconcileOnce;
    TimelyLater(deeds, from, now, at);
    WorkOne(cfg, limit, w0, deeds, Reconciled(at), from, at);
  }

  lemma {:induction false} TimelyOrders(deeds: seq<Deed>, from: nat, to: nat)
    requires Timely(deeds, from, to)
    ensures from <= to
    decreases |deeds|
  {
    if deeds != [] {
      TimelyOrders(deeds[..|deeds| - 1], from, Start(deeds[|deeds| - 1]));
    }
  }

  lemma TimelyLater(deeds: seq<Deed>, from: nat, mid: nat, to: nat)
    requires Timely(deeds, from, mid) && mid <= to
    ensures Timely(deeds, from, to)
  {
  }
}
