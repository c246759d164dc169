/** Any number of callbacks draining one outbox while others stage into it
    (src/qte_ingestion/service.py, the outbox lock).

    A drainer gives way at every await, so its pass is four separate steps. Any interleaving is a list
    of actions; an action that is not possible where it stands does nothing. Bars are told apart by
    their position in staging order. */
module ConcurrentDrain {
  import opened Prelude
  import opened MarketData
  import opened CandleStore

  datatype Drainer = Idle | Holding | Peeked(head: Candle, position: nat) | Sent(head: Candle, position: nat)

  /** One event on the bus, with how many bars had been acknowledged when it left. */
  datatype Publication = Publication(candle: Candle, position: nat, ackedBefore: nat)

  datatype System = System(
    staged: seq<Candle>, outbox: seq<Candle>, acked: nat, bus: seq<Publication>,
    lock: Option<nat>, drainers: map<nat, Drainer>)

  datatype Action =
    | StageAction(c: Candle)
    | AcquireAction(who: nat)
    | PeekAction(who: nat, fate: Outcome)
    | PublishAction(who: nat, fate: Outcome)
    | AckAction(who: nat, fate: Outcome)

  const START := System([], [], 0, [], None, map[])

  function At(s: System, who: nat): Drainer {
    if who in s.drainers then s.drainers[who] else Idle
  }

  function Goes(s: System, who: nat, to: Drainer): System {
    s.(drainers := s.drainers[who := to])
  }

  /** Leaving the guarded block, at its end or by an exception. */
  function Leaves(s: System, who: nat): System {
    Goes(s.(lock := None), who, Idle)
  }

  function Popped(s: System): System {
    if s.outbox == [] then s else s.(outbox := s.outbox[1..], acked := s.acked + 1)
  }

  /** `locked` says whether drainers take the lock before they start. */
  function Act(s: System, a: Action, locked: bool): System {
    match a
    case StageAction(c) => s.(staged := s.staged + [c], outbox := s.outbox + [c])
    case AcquireAction(who) =>
      if At(s, who).Idle? && (locked ==> s.lock.None?) then Goes(s.(lock := Some(who)), who, Holding) else s
    case PeekAction(who, fate) =>
      if !At(s, who).Holding? then s
      else if fate != Done || s.outbox == [] then Leaves(s, who)
      else Goes(s, who, Peeked(s.outbox[0], s.acked))
    case PublishAction(who, fate) =>
      if !At(s, who).Peeked? then s
      else
        var d := At(s, who);
        var sent := if fate == Failed then s else s.(bus := s.bus + [Publication(d.head, d.position, s.acked)]);
        if fate == Done then Goes(sent, who, Sent(d.head, d.position)) else Leaves(sent, who)
    case AckAction(who, fate) =>
      if !At(s, who).Sent? then s
      else
        var popped := if fate == Failed then s else Popped(s);
        if fate == Done then Goes(popped, who, Holding) else Leaves(popped, who)
  }

  function Interleaved(actions: seq<Action>, locked: bool): System {
    if actions == [] then START else Act(Interleaved(Front(actions), locked), Last(actions), locked)
  }

  // ------------------------------------------------------------ what the lock keeps

  /** The outbox is the staged bars from the first unacknowledged one on. */
  ghost predicate Queue(s: System) {
    s.acked <= |s.staged| && s.outbox == s.staged[s.acked..]
  }

  /** Only the holder of the lock is inside, and what it has in hand is the head. */
  ghost predicate OneInside(s: System) {
    forall who: nat :: At(s, who) != Idle ==> s.lock == Some(who) && InHand(s, At(s, who))
  }

  ghost predicate InHand(s: System, d: Drainer) {
    && (d.Peeked? || d.Sent? ==> s.outbox != [] && d.head == s.outbox[0] && d.position == s.acked)
    && (d.Sent? ==> s.bus != [] && Last(s.bus).position == s.acked)
  }

  /** Every publication was of the bar at the head of the outbox as it left, and each position follows
      the one before it or repeats it. */
  ghost predicate InStagingOrder(s: System) {
    && (forall i :: 0 <= i < |s.bus| ==>
          s.bus[i].position == s.bus[i].ackedBefore < |s.staged| && s.bus[i].candle == s.staged[s.bus[i].position])
    && (forall i, j :: 0 <= i < j < |s.bus| ==> s.bus[i].position <= s.bus[j].position)
    && (forall i :: 0 <= i < |s.bus| ==> s.bus[i].position <= s.acked)
    && (forall p: nat :: p < s.acked ==> WasPublished(s.bus, p))
  }

  ghost predicate WasPublished(bus: seq<Publication>, p: nat) {
    exists i :: 0 <= i < |bus| && bus[i].position == p
  }

  ghost predicate Orderly(s: System) {
    Queue(s) && OneInside(s) && InStagingOrder(s)
  }

  lemma PublishedStays(bus: seq<Publication>, more: seq<Publication>, p: nat)
    requires WasPublished(bus, p)
    ensures WasPublished(bus + more, p)
  {
    var i :| 0 <= i < |bus| && bus[i].position == p;
    assert (bus + more)[i].position == p;
  }

  lemma StagingIsOrderly(s: System, c: Candle)
    requires Orderly(s)
    ensures Orderly(Act(s, StageAction(c), true))
  {
    var g := Act(s, StageAction(c), true);
    assert forall who: nat :: At(g, who) == At(s, who);
    assert forall i :: 0 <= i < |s.bus| ==> g.staged[s.bus[i].position] == s.staged[s.bus[i].position];
  }

  /** Moving a drainer that holds the lock, or letting it out. */
  lemma GoingIsOrderly(s: System, who: nat, to: Drainer)
    requires Orderly(s) && s.lock == Some(who) && InHand(s, to)
    ensures Orderly(Goes(s, who, to)) && Orderly(Leaves(s, who))
  {
    assert forall x: nat :: At(Goes(s, who, to), x) == if x == who then to else At(s, x);
    assert forall x: nat :: At(Leaves(s, who), x) == if x == who then Idle else At(s, x);
  }

  lemma PublishingIsOrderly(s: System, who: nat)
    requires Orderly(s) && At(s, who).Peeked?
    ensures var g := s.(bus := s.bus + [Publication(At(s, who).head, At(s, who).position, s.acked)]);
            Orderly(g) && InHand(g, Sent(At(s, who).head, At(s, who).position))
  {
    var d := At(s, who);
    var more := [Publication(d.head, d.position, s.acked)];
    var g := s.(bus := s.bus + more);
    forall x: nat | At(g, x) != Idle ensures g.lock == Some(x) && InHand(g, At(g, x)) {
      assert At(s, x) != Idle;
    }
    forall p: nat | p < s.acked ensures WasPublished(g.bus, p) {
      PublishedStays(s.bus, more, p);
    }
    hide WasPublished;
  }

  lemma PoppingIsOrderly(s: System, who: nat)
    requires Orderly(s) && At(s, who).Sent?
    ensures var g := Popped(s);
            Queue(g) && InStagingOrder(g) && g.lock == s.lock && g.drainers == s.drainers
  {
    assert WasPublished(s.bus, s.acked) by {
      assert s.bus[|s.bus| - 1].position == s.acked;
    }
    hide WasPublished;
  }

  lemma AckingIsOrderly(s: System, who: nat)
    requires Orderly(s) && At(s, who).Sent?
    ensures Orderly(Goes(Popped(s), who, Holding)) && Orderly(Leaves(Popped(s), who))
  {
    PoppingIsOrderly(s, who);
    hide InStagingOrder, Queue;
    var g := Popped(s);
    assert forall x: nat :: At(Goes(g, who, Holding), x) == if x == who then Holding else At(s, x);
    assert forall x: nat :: At(Leaves(g, who), x) == if x == who then Idle else At(s, x);
    assert forall x: nat :: x != who ==> At(s, x) == Idle;
    assert InStagingOrder(Goes(g, who, Holding)) && InStagingOrder(Leaves(g, who)) by {
      SameBus(g, Goes(g, who, Holding));
      SameBus(g, Leaves(g, who));
    }
  }

  lemma SameBus(s: System, g: System)
    requires Queue(s) && InStagingOrder(s)
    requires g.bus == s.bus && g.staged == s.staged && g.acked == s.acked && g.outbox == s.outbox
    ensures Queue(g) && InStagingOrder(g)
  {
  }

  lemma AcquiringIsOrderly(s: System, who: nat)
    requires Orderly(s) && s.lock.None?
    ensures Orderly(Goes(s.(lock := Some(who)), who, Holding))
  {
    var g := Goes(s.(lock := Some(who)), who, Holding);
    forall x: nat ensures At(g, x) == if x == who then Holding else Idle {
      assert At(s, x) != Idle ==> s.lock == Some(x);
    }
    SameBus(s, g);
    hide InStagingOrder, Queue;
  }

  lemma ActIsOrderly(s: System, a: Action)
    requires Orderly(s)
    ensures Orderly(Act(s, a, true))
  {
    hide Queue, InStagingOrder, Goes, Leaves, Popped;
    match a
    case StageAction(c) => StagingIsOrderly(s, c);
    case AcquireAction(who) =>
      if s.lock.None? {
        AcquiringIsOrderly(s, who);
      }
    case PeekAction(who, fate) =>
      if At(s, who).Holding? {
        GoingIsOrderly(s, who, Holding);
        if s.outbox != [] {
          GoingIsOrderly(s, who, Peeked(s.outbox[0], s.acked));
        }
      }
    case PublishAction(who, fate) =>
      if At(s, who).Peeked? {
        var d := At(s, who);
        PublishingIsOrderly(s, who);
        var g := s.(bus := s.bus + [Publication(d.head, d.position, s.acked)]);
        GoingIsOrderly(g, who, Sent(d.head, d.position));
        GoingIsOrderly(s, who, d);
      }
    case AckAction(who, fate) =>
      if At(s, who).Sent? {
        AckingIsOrderly(s, who);
        GoingIsOrderly(s, who, At(s, who));
      }
  }

  lemma {:induction false} LockKeepsOrder(actions: seq<Action>)
    ensures Orderly(Interleaved(actions, true))
  {
    hide Orderly, Act;
    if actions == [] {
      StartIsOrderly();
    } else {
      LockKeepsOrder(Front(actions));
      ActIsOrderly(Interleaved(Front(actions), true), Last(actions));
    }
  }

  lemma StartIsOrderly()
    ensures Orderly(START)
  {
  }

  /** With the lock, over every interleaving and every failure: an acknowledged bar is a published
      bar; what is published is always the oldest unacknowledged bar, so first publications follow
      staging order and the only repeats are of a head not yet acknowledged. */
  lemma AckedBarsWerePublishedInOrder(actions: seq<Action>)
    ensures var s := Interleaved(actions, true);
            && s.acked <= |s.staged| && s.outbox == s.staged[s.acked..]
            && (forall p: nat :: p < s.acked ==> WasPublished(s.bus, p))
            && (forall i :: 0 <= i < |s.bus| ==>
                  s.bus[i].position == s.bus[i].ackedBefore < |s.staged| && s.bus[i].candle == s.staged[s.bus[i].position])
            && (forall i, j :: 0 <= i < j < |s.bus| ==> s.bus[i].position <= s.bus[j].position)
  {
    hide Interleaved;
    LockKeepsOrder(actions);
  }

  /** What was staged, in the order it was. */
  function StagedBy(actions: seq<Action>): seq<Candle> {
    if actions == [] then [] else StagedBy(Front(actions)) + if Last(actions).StageAction? then [Last(actions).c] else []
  }

  lemma ActStages(s: System, a: Action, locked: bool)
    ensures Act(s, a, locked).staged == s.staged + if a.StageAction? then [a.c] else []
  {
    assert s.staged + [] == s.staged;
  }

  /** Every bar staged is in the books, with the lock or without. */
  lemma {:induction false} StagingIsNeverMissed(actions: seq<Action>, locked: bool)
    ensures Interleaved(actions, locked).staged == StagedBy(actions)
  {
    hide Act;
    if actions != [] {
      StagingIsNeverMissed(Front(actions), locked);
      ActStages(Interleaved(Front(actions), locked), Last(actions), locked);
    }
  }

  // ------------------------------------------------------------ and that it is never stuck

  function ActAll(s: System, actions: seq<Action>): System
    decreases |actions|
  {
    if actions == [] then s else ActAll(Act(s, actions[0], true), actions[1..])
  }

  /** The steps of one drainer, none of which fails. */
  predicate AreStepsOf(actions: seq<Action>, who: nat) {
    forall a :: a in actions ==>
      a == AcquireAction(who) || a == PeekAction(who, Done) || a == PublishAction(who, Done) || a == AckAction(who, Done)
  }

  function Rank(d: Drainer): nat {
    match d
    case Idle => 3
    case Holding => 2
    case Peeked(_, _) => 1
    case Sent(_, _) => 0
  }

  /** What a drainer does next. */
  function NextStep(s: System, who: nat): Action {
    match At(s, who)
    case Idle => AcquireAction(who)
    case Holding => PeekAction(who, Done)
    case Peeked(_, _) => PublishAction(who, Done)
    case Sent(_, _) => AckAction(who, Done)
  }

  /** It gets nearer: a bar fewer, or further on with the same; or it is done and out. */
  lemma AStepIsProgress(s: System, who: nat)
    requires Orderly(s) && (At(s, who).Idle? ==> s.lock.None?)
    ensures var t := Act(s, NextStep(s, who), true);
            && t.staged == s.staged && s.bus <= t.bus
            && (if At(s, who).Holding? && s.outbox == [] then t.outbox == [] && t.lock.None?
                else !At(t, who).Idle? && (|t.outbox| < |s.outbox| || (t.outbox == s.outbox && Rank(At(t, who)) < Rank(At(s, who)))))
  {
    hide InStagingOrder, Queue;
  }

  /** From any state the protocol can be in, a drainer that has the lock or can take it empties the outbox, if
      nothing fails: every bar staged so far is then published and acknowledged, and the lock is free. */
  lemma {:induction false} ADrainerEmptiesTheOutbox(s: System, who: nat) returns (actions: seq<Action>)
    requires Orderly(s) && (At(s, who).Idle? ==> s.lock.None?)
    ensures AreStepsOf(actions, who)
    ensures var t := ActAll(s, actions);
            && t.outbox == [] && t.acked == |t.staged| && t.staged == s.staged && t.lock.None? && s.bus <= t.bus
            && (forall p: nat :: p < |s.staged| ==> WasPublished(t.bus, p))
    decreases |s.outbox|, Rank(At(s, who))
  {
    hide Act, Orderly, WasPublished, NextStep;
    var a := NextStep(s, who);
    AStepIsAStep(s, who);
    AStepIsProgress(s, who);
    ActIsOrderly(s, a);
    var t := Act(s, a, true);
    if At(s, who).Holding? && s.outbox == [] {
      actions := [a];
      assert ActAll(t, []) == t;
      EmptyMeansDone(t);
    } else {
      var rest := ADrainerEmptiesTheOutbox(t, who);
      actions := [a] + rest;
      assert actions[1..] == rest;
    }
  }

  lemma AStepIsAStep(s: System, who: nat)
    ensures AreStepsOf([NextStep(s, who)], who)
  {
  }

  lemma EmptyMeansDone(s: System)
    requires Orderly(s) && s.outbox == []
    ensures s.acked == |s.staged| && forall p: nat :: p < |s.staged| ==> WasPublished(s.bus, p)
  {
  }

  // ------------------------------------------------------------ and what happens without it

  /** Two bars, two drainers, each pair of steps taken side by side. */
  function SideBySide(a: Candle, b: Candle): seq<Action> {
    Pair1(a, b) + Pair2() + Pair3() + Pair4() + Pair5()
  }

  function Pair1(a: Candle, b: Candle): seq<Action> {
    [StageAction(a), StageAction(b)]
  }

  function Pair2(): seq<Action> {
    [AcquireAction(0), AcquireAction(1)]
  }

  function Pair3(): seq<Action> {
    [PeekAction(0, Done), PeekAction(1, Done)]
  }

  function Pair4(): seq<Action> {
    [PublishAction(0, Done), PublishAction(1, Done)]
  }

  function Pair5(): seq<Action> {
    [AckAction(0, Done), AckAction(1, Done)]
  }

  function Both(a: Candle, b: Candle, d: Drainer, bus: seq<Publication>): System {
    System([a, b], [a, b], 0, bus, Some(1), map[0 := d, 1 := d])
  }

  lemma TwoSteps(before: seq<Action>, pair: seq<Action>)
    requires |pair| == 2
    ensures Interleaved(before + pair, false) == Act(Act(Interleaved(before, false), pair[0], false), pair[1], false)
  {
    assert Front(before + pair) == before + [pair[0]];
    assert Front(before + [pair[0]]) == before;
  }

  lemma BothHold(a: Candle, b: Candle)
    ensures var s := System([a, b], [a, b], 0, [], None, map[]);
            Act(Act(s, AcquireAction(0), false), AcquireAction(1), false) == Both(a, b, Holding, [])
  {
  }

  lemma BothPeek(a: Candle, b: Candle)
    ensures Act(Act(Both(a, b, Holding, []), PeekAction(0, Done), false), PeekAction(1, Done), false)
         == Both(a, b, Peeked(a, 0), [])
  {
  }

  lemma BothPublish(a: Candle, b: Candle)
    ensures Act(Act(Both(a, b, Peeked(a, 0), []), PublishAction(0, Done), false), PublishAction(1, Done), false)
         == Both(a, b, Sent(a, 0), [Publication(a, 0, 0), Publication(a, 0, 0)])
  {
  }

  lemma BothAck(a: Candle, b: Candle, bus: seq<Publication>)
    ensures var s := Act(Act(Both(a, b, Sent(a, 0), bus), AckAction(0, Done), false), AckAction(1, Done), false);
            s.acked == 2 && s.outbox == [] && s.bus == bus
  {
  }

  /** Without the lock two drainers can publish the first bar twice and acknowledge the second
      unpublished. */
  lemma WithoutTheLockABarIsLost(a: Candle, b: Candle)
    ensures var s := Interleaved(SideBySide(a, b), false);
            s.acked == 2 && s.outbox == [] && !WasPublished(s.bus, 1)
  {
    hide Act;
    TwoSteps(Pair1(a, b) + Pair2() + Pair3() + Pair4(), Pair5());
    TwoSteps(Pair1(a, b) + Pair2() + Pair3(), Pair4());
    TwoSteps(Pair1(a, b) + Pair2(), Pair3());
    TwoSteps(Pair1(a, b), Pair2());
    TwoSteps([], Pair1(a, b));
    assert [] + Pair1(a, b) == Pair1(a, b);
    BothStage(a, b);
    BothHold(a, b);
    BothPeek(a, b);
    BothPublish(a, b);
    BothAck(a, b, [Publication(a, 0, 0), Publication(a, 0, 0)]);
  }

  lemma BothStage(a: Candle, b: Candle)
    ensures Act(Act(START, StageAction(a), false), StageAction(b), false) == System([a, b], [a, b], 0, [], None, map[])
  {
  }
}
