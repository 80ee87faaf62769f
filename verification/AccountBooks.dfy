/**
 * The books of one account over whole lane cycles: the capital ledger and every
 * lane of the account. A cycle syncs the ledger, marks its lane to the bar's close,
 * syncs again, acts on the risk decision and settles; it can stop at any of these.
 */
module AccountBooks {
  import opened Options
  import opened Floats
  import opened Sums
  import opened LanePositions
  import opened Settlement
  import L = Ledgers
  import E = Execution

  datatype Books = Books(ledger: L.Ledger, lanes: Lanes)

  /**
   * How far a cycle gets: not even through the ledger sync, through the sync, through the
   * marking of its lane but not the sync after it, through the evaluation but not its records,
   * or on to execution.
   */
  datatype Reach = Nowhere | Sync | Mark | Evaluation | Execution

  /** One bar for one lane: what it asks for and what it meets. */
  datatype Work = Work(lane: nat, reach: Reach, request: E.Request, effects: E.Env, fees: Order, settle: Settlement.Env)

  /** Amounts within the tolerance count for nothing. */
  function Cut(x: real): real { if x > TOLERANCE then x else 0.0 }

  /** What a lane is worth to the ledger. */
  function Worth(lane: Lane): real { Cut(lane.notional) }

  ghost predicate ValidBooks(b: Books) { ValidLanes(b.lanes) && L.Sound(b.ledger) }

  /** Ledger and lanes tell the same story. */
  ghost predicate Agree(b: Books) { b.ledger.open == L.OpenEntries(Valuations(b.lanes)) }

  function Synced(b: Books): Books { b.(ledger := b.ledger.(open := L.OpenEntries(Valuations(b.lanes)))) }

  function WithLane(b: Books, i: nat, lane: Lane): Books
    requires i < |b.lanes|
  {
    b.(lanes := b.lanes[i := (b.lanes[i].0, lane)])
  }

  /** The books when the order is about to be decided on: the lane marked, the ledger in step. */
  function Evaluated(b: Books, w: Work): Books
    requires w.lane < |b.lanes|
  {
    Synced(WithLane(b, w.lane, Marked(b.lanes[w.lane].1, w.request.close)))
  }

  /** The request, in the name of the lane it is for. */
  function RequestOf(b: Books, w: Work): E.Request
    requires w.lane < |b.lanes|
  {
    w.request.(owner := b.lanes[w.lane].0)
  }

  /** The order the lane absorbs: the accepted quantity and price, with the fees reported for it. */
  function OrderOf(r: E.Result, fees: Order): Option<Order> {
    if r.Traded? then Some(fees.(quantity := r.order.quantity, price := r.order.price)) else None
  }

  ghost function Execute(b: Books, w: Work): (Books, bool)
    requires w.lane < |b.lanes| && Coherent(b.lanes[w.lane].1)
  {
    var (after, r) := E.Effects(b.ledger, RequestOf(b, w), w.effects);
    if r.EngineFailed? then (b.(ledger := after), false)
    else
      var (settled, lane, result) :=
        Settle(after, b.lanes, w.lane, w.request.close, OrderOf(r, w.fees), w.request.decision, w.settle);
      (WithLane(b, w.lane, lane).(ledger := settled), result.Settled?)
  }

  /** The books after one cycle, and whether it settled. */
  ghost function Cycle(b: Books, w: Work): (Books, bool)
    requires ValidLanes(b.lanes)
  {
    if w.lane >= |b.lanes| || w.reach.Nowhere? then (b, false)
    else if w.reach.Sync? then (Synced(b), false)
    else if w.reach.Mark? then (WithLane(Synced(b), w.lane, Marked(b.lanes[w.lane].1, w.request.close)), false)
    else if w.reach.Evaluation? then (Evaluated(b, w), false)
    else Execute(Evaluated(b, w), w)
  }

  /** The same on the live objects; `lanes` holds the views of all lanes of the account. */
  method RunLaneCycle(ledger: L.AccountLedger, lane: LaneRuntime, lanes: Lanes, w: Work) returns (settled: bool)
    requires w.lane < |lanes| && lanes[w.lane].1 == lane.View() && ValidLanes(lanes)
    modifies ledger, lane
    ensures var (next, done) := Cycle(Books(old(ledger.View()), lanes), w);
            && settled == done && ledger.View() == next.ledger && lane.View() == next.lanes[w.lane].1
  {
    hide E.Effects, Settle, ValidLanes, L.OpenEntries, Valuations, L.Sound;
    ghost var b := Books(ledger.View(), lanes);
    settled := false;
    if w.reach.Nowhere? {
      return;
    }
    ledger.ReplaceLaneOpen(Valuations(lanes));
    if w.reach.Sync? {
      return;
    }
    assert Coherent(lane.View()) by { LaneIsCoherent(lanes, w.lane); }
    lane.Mark(w.request.close);
    if w.reach.Mark? {
      return;
    }
    var owner := lanes[w.lane].0;
    var seen := lanes[w.lane := (owner, Marked(lanes[w.lane].1, w.request.close))];
    ledger.ReplaceLaneOpen(Valuations(seen));
    assert Books(ledger.View(), seen) == Evaluated(b, w);
    if w.reach.Evaluation? {
      return;
    }
    var r := E.ApplyRiskDecisionEffects(ledger, w.request.(owner := owner), w.effects);
    if r.EngineFailed? {
      return;
    }
    var result := ApplyProcessBarStateEffects(ledger, lane, seen, w.lane, w.request.close, OrderOf(r, w.fees),
                                              w.request.decision, w.settle);
    settled := result.Settled?;
  }

  lemma LaneIsCoherent(lanes: Lanes, i: nat)
    requires ValidLanes(lanes) && i < |lanes|
    ensures Coherent(lanes[i].1)
  {
  }

  // ----- Lanes and soundness -----

  lemma WithLaneKeepsValid(b: Books, i: nat, lane: Lane)
    requires ValidLanes(b.lanes) && i < |b.lanes| && Coherent(lane)
    ensures ValidLanes(WithLane(b, i, lane).lanes)
  {
    hide Coherent;
  }

  lemma EvaluatedIsValid(b: Books, w: Work)
    requires ValidBooks(b) && w.lane < |b.lanes|
    ensures ValidBooks(Evaluated(b, w)) && Agree(Evaluated(b, w))
    ensures |Evaluated(b, w).lanes| == |b.lanes| && RequestOf(Evaluated(b, w), w) == RequestOf(b, w)
  {
    WithLaneKeepsValid(b, w.lane, Marked(b.lanes[w.lane].1, w.request.close));
    hide Coherent;
  }

  lemma SettleKeepsSound(
    l: L.Ledger, lanes: Lanes, i: nat, close: Float, order: Option<Order>, decision: RiskDecision, env: Settlement.Env)
    requires i < |lanes| && Coherent(lanes[i].1) && L.Sound(l)
    ensures var (l', _, _) := Settle(l, lanes, i, close, order, decision, env);
            L.Sound(l') && l' == l.(open := l'.open)
  {
    hide FillState;
  }

  lemma EffectsKeepSound(l: L.Ledger, rq: E.Request, env: E.Env)
    requires L.Sound(l)
    ensures L.Sound(E.Effects(l, rq, env).0)
  {
    E.EffectsFrame(l, rq, env);
    E.ReservedOnExit(l, rq, env);
    E.OpenGrowsByFill(l, rq, env);
    hide E.Effects;
  }

  lemma ExecuteKeepsValid(b: Books, w: Work)
    requires ValidBooks(b) && w.lane < |b.lanes|
    ensures ValidBooks(Execute(b, w).0)
  {
    var rq := RequestOf(b, w);
    EffectsKeepSound(b.ledger, rq, w.effects);
    var (after, r) := E.Effects(b.ledger, rq, w.effects);
    hide E.Effects;
    if !r.EngineFailed? {
      var order := OrderOf(r, w.fees);
      SettleKeepsSound(after, b.lanes, w.lane, w.request.close, order, w.request.decision, w.settle);
      SettleKeepsCoherent(after, b.lanes, w.lane, w.request.close, order, w.request.decision, w.settle);
      WithLaneKeepsValid(b, w.lane, Settle(after, b.lanes, w.lane, w.request.close, order, w.request.decision, w.settle).1);
      hide Settle, Coherent, ValidLanes, L.Sound;
    }
  }

  lemma CycleKeepsValid(b: Books, w: Work)
    requires ValidBooks(b)
    ensures ValidBooks(Cycle(b, w).0)
  {
    if w.lane < |b.lanes| {
      WithLaneKeepsValid(Synced(b), w.lane, Marked(b.lanes[w.lane].1, w.request.close));
      EvaluatedIsValid(b, w);
      hide Execute, Evaluated, ValidLanes;
      ExecuteKeepsValid(Evaluated(b, w), w);
    }
  }

  // ----- The ledger's entry for one lane -----

  /** A map with one owner's entry replaced. */
  function WithEntry(m: map<L.Owner, real>, owner: L.Owner, x: real): map<L.Owner, real> {
    if x > TOLERANCE then m[owner := x] else m - {owner}
  }

  lemma LastLane(lanes: Lanes)
    requires lanes != [] && forall j, k :: 0 <= j < k < |lanes| ==> lanes[j].0 != lanes[k].0
    ensures var n := |lanes| - 1;
            && L.OpenEntries(Valuations(lanes)) == WithEntry(L.OpenEntries(Valuations(lanes[..n])), lanes[n].0, lanes[n].1.notional)
            && lanes[n].0 !in L.OpenEntries(Valuations(lanes[..n]))
  {
    var n := |lanes| - 1;
    assert Valuations(lanes)[..n] == Valuations(lanes[..n]);
    OtherOwnersOnly(lanes[..n], lanes[n].0);
  }

  /** Replacing one lane replaces one entry. */
  lemma {:induction false} OneLaneOneEntry(lanes: Lanes, i: nat, lane: Lane)
    requires i < |lanes| && forall j, k :: 0 <= j < k < |lanes| ==> lanes[j].0 != lanes[k].0
    ensures L.OpenEntries(Valuations(lanes[i := (lanes[i].0, lane)])) ==
            WithEntry(L.OpenEntries(Valuations(lanes)), lanes[i].0, lane.notional)
    decreases |lanes|
  {
    var n, owner := |lanes| - 1, lanes[i].0;
    var next := lanes[i := (owner, lane)];
    hide L.OpenEntries, Valuations, WithEntry;
    LastLane(lanes);
    LastLane(next);
    var earlier := L.OpenEntries(Valuations(lanes[..n]));
    if i == n {
      assert next[..n] == lanes[..n];
      EntryOverwrites(earlier, owner, lanes[n].1.notional, lane.notional);
    } else {
      assert next[..n] == lanes[..n][i := (owner, lane)];
      OneLaneOneEntry(lanes[..n], i, lane);
      EntriesCommute(earlier, owner, lane.notional, lanes[n].0, lanes[n].1.notional);
    }
  }

  lemma EntryOverwrites(m: map<L.Owner, real>, owner: L.Owner, first: real, second: real)
    ensures WithEntry(WithEntry(m, owner, first), owner, second) == WithEntry(m, owner, second)
  {
  }

  lemma EntriesCommute(m: map<L.Owner, real>, a: L.Owner, x: real, b: L.Owner, y: real)
    requires a != b
    ensures WithEntry(WithEntry(m, a, x), b, y) == WithEntry(WithEntry(m, b, y), a, x)
  {
  }

  lemma {:induction false} OtherOwnersOnly(lanes: Lanes, owner: L.Owner)
    requires forall j :: 0 <= j < |lanes| ==> lanes[j].0 != owner
    ensures owner !in L.OpenEntries(Valuations(lanes))
    decreases |lanes|
  {
    if lanes != [] {
      var n := |lanes| - 1;
      assert Valuations(lanes)[..n] == Valuations(lanes[..n]);
      OtherOwnersOnly(lanes[..n], owner);
    }
  }

  /** In books that agree, each owner's open notional is what its lane is worth. */
  lemma AgreementPerOwner(b: Books, i: nat)
    requires ValidLanes(b.lanes) && Agree(b) && i < |b.lanes|
    ensures Get(b.ledger.open, b.lanes[i].0) == Worth(b.lanes[i].1)
  {
    OneLaneOneEntry(b.lanes, i, b.lanes[i].1);
    assert b.lanes[i := (b.lanes[i].0, b.lanes[i].1)] == b.lanes;
  }
}
