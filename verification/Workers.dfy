/** The worker pool: over any run the routers are dealt to the workers in turn. */
module Workers {
  import opened Ids
  import opened JsMaps
  import opened SfuCalls
  import opened SfuModel
  import opened World
  import opened Convergence
  import opened Runs

  /** The routers opened between two states: none or one. */
  function Opens(s: Sfu, s': Sfu): seq<Router> {
    var id := s.media.nextId;
    if id in s'.media.routers && id !in s.media.routers then [s'.media.routers[id]] else []
  }

  /** The routers opened by the first `n` actions, in order; some may have been closed since. */
  function Opened(h: History, n: nat): seq<Router>
    requires n < |h.states|
  {
    if n == 0 then [] else Opened(h, n - 1) + Opens(h.states[n - 1].sfu, h.states[n].sfu)
  }

  /** What a step that opens `opens` does to the turn: a new call takes the worker whose turn it is. */
  ghost predicate TakesTurn(s: Sfu, s': Sfu)
    requires s.nextWorkerIndex < |s.workers|
  {
    var opens := Opens(s, s');
    if opens == [] then s'.nextWorkerIndex == s.nextWorkerIndex && s'.calls.Keys <= s.calls.Keys
    else
      opens[0].worker == s.workers[s.nextWorkerIndex] && opens[0].call !in s.calls && opens[0].call in s'.calls &&
      s'.nextWorkerIndex == (s.nextWorkerIndex + 1) % |s.workers|
  }

  lemma CapabilitiesTakeTurn(w: World, s: SocketId)
    requires RoutersOk(w.sfu) && IdsOk(w.sfu) && w.sfu.nextWorkerIndex < |w.sfu.workers|
    ensures TakesTurn(w.sfu, OnGetCapabilities(w, s).sfu)
  {
  }

  lemma OtherStepIsIdle(w: World, a: Action)
    requires !a.GetCapabilities?
    ensures Idle(w.sfu, Step(w, a).sfu)
  {
    StepCalls(w, a);
    ApplyIsIdle(w.sfu, CallOf(w, a));
  }

  lemma StepTakesTurn(w: World, a: Action)
    requires SfuLinked(w) && w.sfu.workers != []
    ensures TakesTurn(w.sfu, Step(w, a).sfu)
  {
    if a.GetCapabilities? {
      CapabilitiesTakeTurn(w, a.socket);
    } else {
      OtherStepIsIdle(w, a);
    }
  }

  lemma NextTurn(n: nat, k: nat)
    requires k > 0
    ensures (n % k + 1) % k == (n + 1) % k
    ensures if n % k == k - 1 then (n + 1) % k == 0 && (n + 1) / k == n / k + 1
            else (n + 1) % k == n % k + 1 && (n + 1) / k == n / k
  {
    var q, r := n / k, n % k;
    assert n == q * k + r;
    if r == k - 1 {
      assert n + 1 == (q + 1) * k;
      QuotientOf(n + 1, k, q + 1, 0);
      QuotientOf(r + 1, k, 1, 0);
    } else {
      QuotientOf(n + 1, k, q, r + 1);
      QuotientOf(r + 1, k, 0, r + 1);
    }
  }

  lemma QuotientOf(n: nat, k: nat, q: nat, r: nat)
    requires k > 0 && n == q * k + r && r < k
    ensures n / k == q && n % k == r
  {
    var d := n / k - q;
    assert n == (n / k) * k + n % k;
    assert d * k == r - n % k;
    if d > 0 {
      AtLeastOnce(d, k);
    } else if d < 0 {
      AtMostMinusOnce(d, k);
    }
  }

  lemma AtLeastOnce(d: nat, k: nat)
    requires d > 0
    ensures d * k >= k
  {
  }

  lemma AtMostMinusOnce(d: int, k: nat)
    requires d < 0
    ensures d * k <= 0 - k
  {
  }

  ghost predicate InTurn(routers: seq<Router>, workers: seq<nat>)
    requires workers != []
  {
    forall m :: 0 <= m < |routers| ==> routers[m].worker == workers[m % |workers|]
  }

  lemma DealOneMore(dealt: seq<Router>, s: Sfu, s': Sfu)
    requires s.nextWorkerIndex < |s.workers| && InTurn(dealt, s.workers)
    requires s.nextWorkerIndex == |dealt| % |s.workers| && TakesTurn(s, s')
    ensures InTurn(dealt + Opens(s, s'), s.workers) && s'.nextWorkerIndex == |dealt + Opens(s, s')| % |s.workers|
  {
    NextTurn(|dealt|, |s.workers|);
  }

  lemma TurnTaken(h: History, n: nat)
    requires IsRun(h) && n < |h.actions| && h.workers != []
    ensures h.states[n].sfu.workers == h.workers && h.states[n].sfu.nextWorkerIndex < |h.workers|
    ensures TakesTurn(h.states[n].sfu, h.states[n + 1].sfu)
  {
    SfuInEveryRun(h, n);
    WorkersStay(h, n);
    StepTakesTurn(h.states[n], h.actions[n]);
  }

  /** The `m`-th router of a run is opened on worker `m % k`. */
  lemma {:induction false} RoundRobin(h: History, n: nat)
    requires IsRun(h) && n <= |h.actions| && h.workers != []
    ensures h.states[n].sfu.nextWorkerIndex == |Opened(h, n)| % |h.workers|
    ensures InTurn(Opened(h, n), h.workers)
  {
    if n > 0 {
      RoundRobin(h, n - 1);
      TurnTaken(h, n - 1);
      DealOneMore(Opened(h, n - 1), h.states[n - 1].sfu, h.states[n].sfu);
    }
  }

  function Load(routers: seq<Router>, worker: nat): nat {
    if routers == [] then 0
    else
      var n := |routers| - 1;
      Load(routers[..n], worker) + if routers[n].worker == worker then 1 else 0
  }

  lemma {:induction false} LoadInTurn(routers: seq<Router>, workers: seq<nat>, j: nat)
    requires j < |workers| && Distinct(workers)
    requires InTurn(routers, workers)
    ensures Load(routers, workers[j]) == |routers| / |workers| + if j < |routers| % |workers| then 1 else 0
  {
    if routers != [] {
      var n := |routers| - 1;
      LoadInTurn(routers[..n], workers, j);
      NextTurn(n, |workers|);
      assert workers[n % |workers|] == workers[j] <==> n % |workers| == j;
    } else {
      QuotientOf(0, |workers|, 0, 0);
    }
  }

  /** After any run each worker was given the floor or the ceiling of its share of the routers. */
  lemma Balanced(h: History, n: nat, j: nat)
    requires IsRun(h) && n <= |h.actions| && j < |h.workers| && Distinct(h.workers)
    ensures var total, k := |Opened(h, n)|, |h.workers|;
      Load(Opened(h, n), h.workers[j]) == total / k + if j < total % k then 1 else 0
  {
    RoundRobin(h, n);
    LoadInTurn(Opened(h, n), h.workers, j);
  }
}
