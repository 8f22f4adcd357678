/** Bounded waiting: a due row is reached after a number of passes fixed by the rows ahead of it. */
module OutboxWaiting {
  import opened OutboxTable
  import opened OutboxProtocol
  import opened OutboxSafety
  import A = Arithmetic

  /** The other PENDING rows that became available no later than t. */
  function Ahead(rows: Table, id: Id, t: int): set<Id>
  {
    set j | j in rows && j != id && rows[j].status == PENDING && rows[j].availableAt <= t
  }

  /** Row `id` is waiting: PENDING and available since t, strictly in the past. */
  predicate Waiting(s: System, id: Id, t: int)
  {
    id in s.rows && s.rows[id].status == PENDING && s.rows[id].availableAt == t && t < s.now
  }

  /** What an observer of one run keeps: complete passes, and rows taken up in the pass under way. */
  datatype Watch = Watch(passes: nat, begun: nat, counting: bool)

  /**
   A pass counts from its get_pending to the end of its loop, unless mark_processing
   raised in it or its process died.
   */
  function Observe(w: Watch, s: System, l: Label): Watch
  {
    match l
    case Fetch(_, _) => Watch(w.passes, 0, true)
    case Begin(_) => w.(begun := w.begun + 1)
    case Raise(r) => if At(s, r).Draining? && At(s, r).phase.AtTop? then w.(counting := false) else w
    case Crash(r) => if InPass(At(s, r)) then w.(counting := false) else w
    case Finish(_) => Watch(w.passes + (if w.counting then 1 else 0), 0, false)
    case _ => w
  }

  function Watched(states: seq<System>, labels: seq<Label>, n: nat): Watch
    requires n <= |labels| < |states|
  {
    if n == 0 then Watch(0, 0, false) else Observe(Watched(states, labels, n - 1), states[n - 1], labels[n - 1])
  }

  /** A step that does not take the row up leaves it waiting and never puts another row ahead of it. */
  lemma StepKeepsPlace(cfg: Config, s: System, l: Label, id: Id, t: int)
    requires Inv(cfg, s) && Enabled(cfg, s, l)
    requires Waiting(s, id, t) && !Attempts(s, l, id)
    ensures var s' := Apply(cfg, s, l);
            && Waiting(s', id, t)
            && s'.rows[id] == s.rows[id]
            && Ahead(s'.rows, id, t) <= Ahead(s.rows, id, t)
  {
  }

  lemma BeginShrinksAhead(cfg: Config, s: System, r: Replica, id: Id, t: int)
    requires Inv(cfg, s) && Enabled(cfg, s, Begin(r))
    requires At(s, r).batch[At(s, r).next].id in Ahead(s.rows, id, t)
    ensures Ahead(Apply(cfg, s, Begin(r)).rows, id, t) == Ahead(s.rows, id, t) - {At(s, r).batch[At(s, r).next].id}
  {
  }

  /** Rows taken up so far in the pass of worker w. */
  function Begun(w: Worker): nat
    requires w.Draining?
  {
    if w.phase.AtTop? then w.next else w.next + 1
  }

  /** Each counted pass pays one batch of the rows that were ahead at the start. */
  ghost predicate Paid(cfg: Config, s: System, w: Watch, id: Id, t: int, ahead: nat)
  {
    var h := Holder(s);
    if w.counting then
      && h.Draining?
      && w.begun == Begun(h) <= |h.batch|
      && (forall k | 0 <= k < w.begun :: h.batch[k].id != id)
      && (if HasId(h.batch, id) then cfg.batchSize * w.passes + |Ahead(s.rows, id, t)| <= ahead
          else
            && |h.batch| == cfg.batchSize
            && (forall k | w.begun <= k < |h.batch| :: h.batch[k].id in Ahead(s.rows, id, t))
            && cfg.batchSize * w.passes + w.begun + |Ahead(s.rows, id, t)| <= ahead)
    else cfg.batchSize * w.passes + |Ahead(s.rows, id, t)| <= ahead
  }

  lemma SubsetSize(a: set<Id>, b: set<Id>)
    requires a <= b
    ensures |a| <= |b|
  {
    if a != b {
      assert b == a + (b - a);
      assert |b| == |a| + |b - a|;
    }
  }

  lemma FetchPays(cfg: Config, s: System, r: Replica, batch: seq<Ticket>, w: Watch, id: Id, t: int, ahead: nat)
    requires Inv(cfg, s) && Enabled(cfg, s, Fetch(r, batch))
    requires Waiting(s, id, t) && Paid(cfg, s, w, id, t, ahead)
    ensures Paid(cfg, Apply(cfg, s, Fetch(r, batch)), Observe(w, s, Fetch(r, batch)), id, t, ahead)
  {
    var s' := Apply(cfg, s, Fetch(r, batch));
    assert Holder(s') == Draining(batch, 0, AtTop);
    assert Due(s.rows[id], s.now);
  }

  lemma BeginPays(cfg: Config, s: System, r: Replica, w: Watch, id: Id, t: int, ahead: nat)
    requires Inv(cfg, s) && Enabled(cfg, s, Begin(r))
    requires Waiting(s, id, t) && !Attempts(s, Begin(r), id) && Paid(cfg, s, w, id, t, ahead)
    ensures Paid(cfg, Apply(cfg, s, Begin(r)), Observe(w, s, Begin(r)), id, t, ahead)
  {
    var s' := Apply(cfg, s, Begin(r));
    var h := At(s, r);
    assert Holder(s) == h && Holder(s') == h.(phase := Marked);
    StepKeepsPlace(cfg, s, Begin(r), id, t);
    SubsetSize(Ahead(s'.rows, id, t), Ahead(s.rows, id, t));
    if w.counting && !HasId(h.batch, id) {
      BeginShrinksAhead(cfg, s, r, id, t);
    }
  }

  /** Rows still to be taken up keep their place ahead of `id` under every step that takes up no row. */
  lemma PendingTicketsStayAhead(cfg: Config, s: System, l: Label, id: Id, t: int, k: nat)
    requires Inv(cfg, s) && Enabled(cfg, s, l) && !l.Begin? && t < s.now
    requires Holder(s).Draining? && Begun(Holder(s)) <= k < |Holder(s).batch|
    requires Holder(s).batch[k].id in Ahead(s.rows, id, t)
    ensures Holder(s).batch[k].id in Ahead(Apply(cfg, s, l).rows, id, t)
  {
    var j := Holder(s).batch[k].id;
    StepKeepsPlace(cfg, s, l, j, s.rows[j].availableAt);
  }

  lemma OtherStepPays(cfg: Config, s: System, l: Label, w: Watch, id: Id, t: int, ahead: nat)
    requires Inv(cfg, s) && Enabled(cfg, s, l) && !l.Begin? && !l.Fetch?
    requires Waiting(s, id, t) && Paid(cfg, s, w, id, t, ahead)
    ensures Paid(cfg, Apply(cfg, s, l), Observe(w, s, l), id, t, ahead)
  {
    var s', h, w' := Apply(cfg, s, l), Holder(s), Observe(w, s, l);
    StepKeepsPlace(cfg, s, l, id, t);
    SubsetSize(Ahead(s'.rows, id, t), Ahead(s.rows, id, t));
    if w'.counting && !HasId(h.batch, id) {
      forall k | w.begun <= k < |h.batch| ensures h.batch[k].id in Ahead(s'.rows, id, t) {
        PendingTicketsStayAhead(cfg, s, l, id, t, k);
      }
      assert Holder(s').Draining? && Holder(s').batch == h.batch;
    }
  }

  lemma StepPays(cfg: Config, s: System, l: Label, w: Watch, id: Id, t: int, ahead: nat)
    requires Inv(cfg, s) && Enabled(cfg, s, l)
    requires Waiting(s, id, t) && !Attempts(s, l, id) && Paid(cfg, s, w, id, t, ahead)
    ensures Paid(cfg, Apply(cfg, s, l), Observe(w, s, l), id, t, ahead)
  {
    match l {
      case Fetch(r, batch) => FetchPays(cfg, s, r, batch, w, id, t, ahead);
      case Begin(r) => BeginPays(cfg, s, r, w, id, t, ahead);
      case _ => OtherStepPays(cfg, s, l, w, id, t, ahead);
    }
  }

  lemma {:induction false} TracePays(cfg: Config, states: seq<System>, labels: seq<Label>, id: Id, t: int, n: nat)
    requires IsTrace(cfg, states, labels) && Inv(cfg, states[0]) && n <= |labels|
    requires Waiting(states[0], id, t)
    requires forall i | 0 <= i < n :: !Attempts(states[i], labels[i], id)
    ensures Waiting(states[n], id, t) && states[n].rows[id] == states[0].rows[id]
    ensures Ahead(states[n].rows, id, t) <= Ahead(states[0].rows, id, t)
    ensures Paid(cfg, states[n], Watched(states, labels, n), id, t, |Ahead(states[0].rows, id, t)|)
  {
    if n > 0 {
      TracePays(cfg, states, labels, id, t, n - 1);
      TraceKeepsInv(cfg, states, labels, n - 1);
      StepKeepsPlace(cfg, states[n - 1], labels[n - 1], id, t);
      StepPays(cfg, states[n - 1], labels[n - 1], Watched(states, labels, n - 1), id, t,
               |Ahead(states[0].rows, id, t)|);
    }
  }

  ghost predicate Reachable(cfg: Config, s: System)
  {
    exists states, labels :: IsRun(cfg, states, labels) && states[|labels|] == s
  }

  lemma ReachableStatesHaveInv(cfg: Config, s: System)
    requires Reachable(cfg, s)
    ensures Inv(cfg, s)
  {
    var states, labels :| IsRun(cfg, states, labels) && states[|labels|] == s;
    ReachableInv(cfg, states, labels, |labels|);
  }

  /**
   No overtaking: until the row is taken up it stays as it is, and every row ahead of
   it was ahead of it from the start. Retried, recovered, requeued and new rows all
   line up behind it.
   */
  lemma NoOvertaking(cfg: Config, states: seq<System>, labels: seq<Label>, id: Id, t: int, n: nat)
    requires IsTrace(cfg, states, labels) && Reachable(cfg, states[0]) && n <= |labels|
    requires Waiting(states[0], id, t)
    requires forall i | 0 <= i < n :: !Attempts(states[i], labels[i], id)
    ensures Waiting(states[n], id, t) && states[n].rows[id] == states[0].rows[id]
    ensures Ahead(states[n].rows, id, t) <= Ahead(states[0].rows, id, t)
  {
    ReachableStatesHaveInv(cfg, states[0]);
    TracePays(cfg, states, labels, id, t, n);
  }

  /**
   Bounded waiting: within floor(ahead / batch_size) + 1 counted passes the row is
   taken up, whatever replicas, operators and new rows do meanwhile.
   */
  lemma BoundedWaiting(cfg: Config, states: seq<System>, labels: seq<Label>, id: Id, t: int)
    requires IsTrace(cfg, states, labels) && Reachable(cfg, states[0])
    requires Waiting(states[0], id, t) && cfg.batchSize >= 1
    requires Watched(states, labels, |labels|).passes >= |Ahead(states[0].rows, id, t)| / cfg.batchSize + 1
    ensures exists i :: 0 <= i < |labels| && Attempts(states[i], labels[i], id)
  {
    ReachableStatesHaveInv(cfg, states[0]);
    if forall i | 0 <= i < |labels| :: !Attempts(states[i], labels[i], id) {
      TracePays(cfg, states, labels, id, t, |labels|);
      A.FitsIff(cfg.batchSize, Watched(states, labels, |labels|).passes, |Ahead(states[0].rows, id, t)|);
    }
  }
}
