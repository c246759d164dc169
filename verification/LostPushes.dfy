/** The ways a pushed bar is lost, each in a run: a read that raises, a bar behind its series, history
    merged past a bar that is still retained, and history merged before the bar arrives. */
module LostPushes {
  import opened Prelude
  import opened Timeframes
  import opened MarketData
  import opened ResamplerModel
  import opened ResamplerRuns
  import opened CandleStore
  import opened CandleMerge
  import opened Backfill
  import opened Emission
  import opened EmissionLaws
  import opened EmissionRuns
  import opened EmissionProgress
  import opened EmissionWindows
  import opened PushedBars
  import opened EmissionPushes
  import opened EmissionReach

  lemma OneEvent(cfg: Config, boot: Boot, events: seq<Event>, e: Event)
    ensures RunEvents(cfg, boot, events + [e]) == Handle(RunEvents(cfg, boot, events), cfg, e)
  {
    assert Front(events + [e]) == events;
  }

  lemma TwoEvents(cfg: Config, boot: Boot, a: Event, b: Event)
    ensures RunEvents(cfg, boot, [a]) == Handle(Started(cfg, boot), cfg, a)
    ensures RunEvents(cfg, boot, [a, b]) == Handle(Handle(Started(cfg, boot), cfg, a), cfg, b)
  {
    hide Handle;
    assert [] + [a] == [a] && [a] + [b] == [a, b];
    OneEvent(cfg, boot, [], a);
    OneEvent(cfg, boot, [a], b);
  }

  lemma FourEvents(cfg: Config, boot: Boot, a: Event, b: Event, c: Event, d: Event)
    ensures RunEvents(cfg, boot, [a, b, c, d]) == Handle(Handle(RunEvents(cfg, boot, [a, b]), cfg, c), cfg, d)
  {
    hide Handle;
    assert [a, b] + [c] == [a, b, c] && [a, b, c] + [d] == [a, b, c, d];
    OneEvent(cfg, boot, [a, b], c);
    OneEvent(cfg, boot, [a, b, c], d);
  }

  /** A read that raises before anything is retained: the bar is neither held nor staged, nor does it wait. */
  lemma AFailedReadLosesTheBar(cfg: Config, boot: Boot, c: Candle, now: nat, answer: Reply)
    requires c.symbol in cfg.targets && IsFinished(c, now) && boot.script == [Failed]
    ensures var w := RunEvents(cfg, boot, [CheckEvent(c, now, answer), PushEvent]);
            w.retained == [] && w.waiting == [] && w.log.staged == [] && w.log.missed == [c]
  {
    hide IsFinished;
    TwoEvents(cfg, boot, CheckEvent(c, now, answer), PushEvent);
    var w := CheckPush(Started(cfg, boot), cfg, c, now, answer).w;
    assert [] + [c] == [c];
    NothingToTake(w, cfg.limit);
  }

  // ------------------------------------------------------------ a bar behind its series

  /** A bar nobody's history can be asked for just gets in line. */
  lemma JustGetsInLine(w: World, cfg: Config, c: Candle, now: nat)
    requires c.symbol !in cfg.targets && IsFinished(c, now)
    ensures CheckPush(w, cfg, c, now, NotServed).w == w.(waiting := w.waiting + [c])
  {
    hide IsFinished;
  }

  /** Once nothing fails, the bar whose turn it is leaves nothing retained. */
  lemma PushGoesOut(w: World, limit: nat)
    requires w.script == [] && w.waiting != []
    ensures var v := TakePush(w, limit).w;
            && v.script == [] && v.retained == [] && v.waiting == w.waiting[1..] && v.store.outbox == []
            && v.log.swallowed == w.log.swallowed
            && v.log.accepted == (if IsNews(w, w.waiting[0]) then w.log.accepted + [w.waiting[0]] else w.log.accepted)
            && v.log.overtaken == (if IsNews(w, w.waiting[0]) then w.log.overtaken else w.log.overtaken + [w.waiting[0]])
  {
    hide Emit, IsNews;
    EmittingSucceeds(Taken(w), [w.waiting[0]], true, limit);
    APushedBarIsAcceptedExactlyWhen(w, limit);
  }

  /** With nothing failing, a bar pushed after a newer one of its series is dropped by the watermark. */
  lemma ALateBarIsDropped(cfg: Config, newer: Candle, late: Candle, now: nat)
    requires Distinct(cfg.series) && SeriesOf(newer) in cfg.series && cfg.targets == map[]
    requires SeriesOf(late) == SeriesOf(newer) && late.openTime < newer.openTime && IsFinished(newer, now) && IsFinished(late, now)
    ensures var w := RunEvents(cfg, EMPTY_BOOT, [CheckEvent(newer, now, NotServed), PushEvent, CheckEvent(late, now, NotServed), PushEvent]);
            && w.retained == [] && w.waiting == [] && w.log.overtaken == [late]
            && CandlesOf(w.log.staged, SeriesOf(late)) == [newer]
  {
    hide CheckPush, TakePush, IsFinished, RunEvents, Distinct, IsNews, CandlesOf, Except, Started;
    var (s, e1, e3) := (SeriesOf(newer), CheckEvent(newer, now, NotServed), CheckEvent(late, now, NotServed));
    var (w0, w2, w4) := (Started(cfg, EMPTY_BOOT), RunEvents(cfg, EMPTY_BOOT, [e1, PushEvent]), RunEvents(cfg, EMPTY_BOOT, [e1, PushEvent, e3, PushEvent]));
    TwoEvents(cfg, EMPTY_BOOT, e1, PushEvent);
    FourEvents(cfg, EMPTY_BOOT, e1, PushEvent, e3, PushEvent);
    StartOfRun(cfg, newer);
    JustGetsInLine(w0, cfg, newer, now);
    var w1 := w0.(waiting := w0.waiting + [newer]);
    assert w1.waiting == [newer];
    SameNews(w0, w1, newer);
    PushGoesOut(w1, cfg.limit);
    assert [newer][1..] == [];
    JustGetsInLine(w2, cfg, late, now);
    var w3 := w2.(waiting := w2.waiting + [late]);
    assert w3.waiting == [late] && [late][1..] == [] && [] + [late] == [late];
    SentWhenNothingIsHeld(cfg, EMPTY_BOOT, [e1, PushEvent], s);
    JustOne(newer, s);
    StagedBarIsNoNews(cfg, EMPTY_BOOT, [e1, PushEvent], newer, late);
    SameNews(w2, w3, late);
    PushGoesOut(w3, cfg.limit);
    SentWhenNothingIsHeld(cfg, EMPTY_BOOT, [e1, PushEvent, e3, PushEvent], s);
  }

  const EMPTY_BOOT := Boot(EMPTY_STORE, NOTHING_ASKED, [], [])

  lemma StartOfRun(cfg: Config, c: Candle)
    ensures var w := Started(cfg, EMPTY_BOOT);
            && w.script == [] && w.retained == [] && w.waiting == [] && w.log == NothingLogged(EMPTY_STORE) && IsNews(w, c)
  {
  }

  lemma JustOne(c: Candle, s: Series)
    ensures SeriesOf(c) == s ==> CandlesOf([c], s) == [c]
    ensures CandlesOf([], s) == [] && Except([c], []) == [c] && [] + [c] == [c]
  {
    OneCandle(c, s);
    ExceptOne(c, []);
  }

  lemma SentWhenNothingIsHeld(cfg: Config, boot: Boot, events: seq<Event>, s: Series)
    requires Distinct(cfg.series) && s in cfg.series
    requires forall e :: e in events ==> e.CheckEvent? || e.PushEvent? || e.HistoryEvent?
    requires RunEvents(cfg, boot, events).retained == []
    ensures var w := RunEvents(cfg, boot, events);
            CandlesOf(w.log.staged, s) == Except(CandlesOf(w.log.accepted, s), CandlesOf(w.log.swallowed, s))
  {
    hide RunEvents, Certain, Distinct;
    EveryRunIsCertain(cfg, boot, events, s);
    NothingIsOnTheWay(RunEvents(cfg, boot, events), s);
  }

  lemma StagedBarIsNoNews(cfg: Config, boot: Boot, events: seq<Event>, newer: Candle, late: Candle)
    requires SeriesOf(late) == SeriesOf(newer) && late.openTime < newer.openTime
    requires CandlesOf(RunEvents(cfg, boot, events).log.staged, SeriesOf(newer)) == [newer]
    ensures !IsNews(RunEvents(cfg, boot, events), late)
  {
    hide RunEvents, CandlesOf;
    TheOutboxLosesNothing(cfg, boot, events, SeriesOf(newer));
    DuplicateIsBehindTheMark(RunEvents(cfg, boot, events).store, late);
  }

  // ------------------------------------------------------------ history merged past a retained bar

  const MINUTE := 60 * MICROS
  const EURUSD := Series("EURUSD", M1)
  const FEED := Config([EURUSD], 100, false, false, map["EURUSD" := 100], 0)

  function MinuteBar(k: nat): Candle {
    Candle("EURUSD", M1, k * MINUTE, 1.0, 1.0, 1.0, 1.0, 1.0, 0, true)
  }

  function Check(k: nat, answer: Reply): Event {
    CheckEvent(MinuteBar(k), 100 * MINUTE, answer)
  }

  /** The vendor's own copy of minute five. */
  const FIVE := Row(5 * MINUTE, 2.0, 2.0, 2.0, 2.0, 2.0)

  /** A store that has had minute four. */
  const HOLDS_FOUR := Store(map[EURUSD := [MinuteBar(4)]], [], map[EURUSD := 4 * MINUTE], map[])

  /** A service that starts on it: the first read goes well and the first staging fails. */
  const FAILS_ONCE := Boot(HOLDS_FOUR, NOTHING_ASKED, [Done, Failed], [])

  /** A bar whose staging fails. */
  lemma EmitFails(w: World, c: Candle, limit: nat)
    requires w.retained == [] && w.script == [Failed] && IsNews(w, c) && !WasPartial(w, c)
    ensures var v := Emit(w, [c], true, limit).w;
            && v.retained == [Retired(c, false, true)] && v.script == [] && v.store == w.store && v.gap == w.gap
            && v.log == w.log.(accepted := w.log.accepted + [c])
  {
    hide Asked, WasPartial, IsNews;
    assert [c][1..] == [];
    var r := RetainOne(w, c, true);
    assert Retain(w, [c], true) == r && r.retained == [Retired(c, false, true)];
    assert Stage(r, c, limit) == Call(Spent(r), false);
    assert [Failed][1..] == [];
    assert StageWhole(r, 0, limit) == Call(Spent(r), false);
  }

  /** Minute five retained, its staging failed. */
  ghost predicate AfterFive(w: World) {
    && w.retained == [Retired(MinuteBar(5), false, true)] && w.waiting == [] && w.script == []
    && Window(w.store, EURUSD) == [MinuteBar(4)] && Mark(w.store, EURUSD) == Some(4 * MINUTE)
    && w.log.accepted == [MinuteBar(5)] && w.log.swallowed == []
    && EURUSD in w.feeds && w.gap.askedAt == map[]
  }

  lemma FiveFails()
    ensures AfterFive(RunEvents(FEED, FAILS_ONCE, [Check(5, NotServed), PushEvent]))
  {
    hide Emit, PlanSeries;
    TwoEvents(FEED, FAILS_ONCE, Check(5, NotServed), PushEvent);
    var (w, c) := (Started(FEED, FAILS_ONCE), MinuteBar(5));
    assert [Done, Failed][1..] == [Failed];
    assert !LeavesAGap(w.store, c);
    var v := CheckPush(w, FEED, c, 100 * MINUTE, NotServed).w;
    assert v == w.(script := [Failed], waiting := [c]);
    assert [c][1..] == [] && [] + [c] == [c];
    assert IsNews(v, c);
    EmitFails(Taken(v), c, 100);
  }

  /** The vendor's copy of minute five is what the answer changes. */
  lemma AnswerWritesFive(s: Store, before: Option<nat>)
    requires Window(s, EURUSD) == [MinuteBar(4)] && (before.Some? ==> before.value > 5 * MINUTE)
    ensures PlanSeries(s, EURUSD, 100, before, 100 * MINUTE, Answer([FIVE]), false, false)
         == Write([MinuteBar(4), FromRow(EURUSD, FIVE)], [FromRow(EURUSD, FIVE)])
  {
    var (four, five) := (MinuteBar(4), FromRow(EURUSD, FIVE));
    assert Front([FIVE]) == [] && Front([five]) == [] && Front([four]) == [] && Front([four, five]) == [four];
    assert Usable(EURUSD, [FIVE], 100 * MINUTE, before) == [five];
    assert Overlaid([], []) == [] && Overlaid([], [five]) == [five];
    assert LastAt([five], 4 * MINUTE) == None;
    assert Put([], four) == [four];
    assert Put([five], four) == [four, five];
    assert CandleMerge.Kept(Front([four]), [five]) == [five];
    assert Last([four]) == four && four.openTime == 4 * MINUTE;
    assert Merge([four], [five]) == [four, five];
    assert LastAt([four], 5 * MINUTE) == None && LastAt([four], 4 * MINUTE) == Some(four);
    assert Changed([four], [four]) == [];
    assert Changed([four], [four, five]) == [five];
  }

  lemma EightAsks(w: World)
    requires AfterFive(w)
    ensures Asks(w, FEED, MinuteBar(8), 100 * MINUTE)
  {
    assert EURUSD in FEED.series;
  }

  lemma FiveIsOnTheWay(w: World)
    requires AfterFive(w)
    ensures UpTo(OnTheWay(w, EURUSD), 5 * MINUTE) == [MinuteBar(5)]
  {
    OneRetained(w.retained[0], EURUSD);
    FirstIsPending(w.retained[0], [], Mark(w.store, EURUSD));
    assert [w.retained[0]] + [] == w.retained;
    assert Pending([], Some(5 * MINUTE)) == [];
    assert [MinuteBar(5)] + [] == [MinuteBar(5)];
    UpToOne(MinuteBar(5), 5 * MINUTE);
  }

  lemma EightPlansFive(w: World)
    requires AfterFive(w)
    ensures PlanFor(w, FEED, MinuteBar(8), 100 * MINUTE, Answer([FIVE])) == Write([MinuteBar(4), FromRow(EURUSD, FIVE)], [FromRow(EURUSD, FIVE)])
  {
    hide PlanSeries;
    AnswerWritesFive(w.store, Some(8 * MINUTE));
  }

  lemma EightReachesFive(w: World)
    requires AfterFive(w)
    ensures Reaches(w, FEED, Check(8, Answer([FIVE])), EURUSD) == Some(5 * MINUTE)
    ensures SwallowedBy(w, FEED, Check(8, Answer([FIVE])), EURUSD) == [MinuteBar(5)]
  {
    hide PlanFor, Asks, OnTheWay, UpTo;
    EightAsks(w);
    EightPlansFive(w);
    FiveIsOnTheWay(w);
  }

  /** The gap before minute eight is filled, and minute five with it. */
  lemma EightSwallowsFive(w: World)
    requires AfterFive(w) && Configured(w.feeds, FEED.series)
    ensures var v := Handle(w, FEED, Check(8, Answer([FIVE])));
            && v.script == [] && v.waiting == [MinuteBar(8)] && v.retained == w.retained
            && v.log.accepted == [MinuteBar(5)] && CandlesOf(v.log.swallowed, EURUSD) == [MinuteBar(5)]
            && Mark(v.store, EURUSD) == Some(5 * MINUTE)
  {
    hide FillGapBefore, PlanFor, Asks, SwallowedBy, MissedBy, Reaches, IsNews, Handle, CandlesOf, WritePlan;
    var (c, e) := (MinuteBar(8), Check(8, Answer([FIVE])));
    EightAsks(w);
    EightPlansFive(w);
    EightReachesFive(w);
    AnEventLosesExactly(w, FEED, e, EURUSD);
    NoCandles(EURUSD);
    APushedBarWaitsExactlyWhen(w, FEED, c, 100 * MINUTE, Answer([FIVE]));
    FillingSpends(w, FEED, c, 100 * MINUTE, Answer([FIVE]));
    FillingIs(w, FEED, c, 100 * MINUTE, Answer([FIVE]));
    FiveIsWritten(AskedFor(w, c, 100 * MINUTE));
    EightIsChecked(w);
    assert [] + [c] == [c] && [] + [MinuteBar(5)] == [MinuteBar(5)];
  }

  lemma EightIsChecked(w: World)
    requires Configured(w.feeds, FEED.series)
    ensures var (filled, v) := (FillGapBefore(w, FEED, MinuteBar(8), 100 * MINUTE, Answer([FIVE])), Handle(w, FEED, Check(8, Answer([FIVE]))));
            && v == CheckPush(w, FEED, MinuteBar(8), 100 * MINUTE, Answer([FIVE])).w
            && v.store == filled.w.store && v.script == filled.w.script && v.retained == w.retained
  {
    hide FillGapBefore;
  }

  lemma FiveIsWritten(w: World)
    requires Mark(w.store, EURUSD) == Some(4 * MINUTE) && w.script == []
    ensures var five := FromRow(EURUSD, FIVE);
            var v := WritePlan(w, EURUSD, Write([MinuteBar(4), five], [five]), 100);
            Mark(v.store, EURUSD) == Some(5 * MINUTE) && v.script == []
  {
    hide OnTheWay, UpTo, Tail;
  }

  lemma FillingSpends(w: World, cfg: Config, c: Candle, now: nat, answer: Reply)
    requires w.script == []
    ensures FillGapBefore(w, cfg, c, now, answer).w.script == []
  {
    hide PlanSeries, LeavesAGap, Listens, OnTheWay, UpTo, Newest;
  }

  /** Minute eight is news; nothing fails any more. */
  lemma EightGoesOut(w: World)
    requires w.script == [] && w.waiting == [MinuteBar(8)] && w.retained == [Retired(MinuteBar(5), false, true)]
    requires Mark(w.store, EURUSD) == Some(5 * MINUTE) && w.log.accepted == [MinuteBar(5)]
    ensures var v := TakePush(w, 100).w;
            v.retained == [] && v.waiting == [] && v.log.accepted == [MinuteBar(5), MinuteBar(8)] && v.log.swallowed == w.log.swallowed
  {
    hide TakePush;
    DuplicateIsBehindTheMark(w.store, MinuteBar(8));
    assert IsNews(w, MinuteBar(8));
    PushGoesOut(w, 100);
    assert [MinuteBar(5)] + [MinuteBar(8)] == [MinuteBar(5), MinuteBar(8)] && [MinuteBar(8)][1..] == [];
  }

  lemma TwoBars()
    ensures var (a, b) := (MinuteBar(5), MinuteBar(8));
            CandlesOf([a, b], EURUSD) == [a, b] && Except([a, b], [a]) == [b]
  {
    var (a, b) := (MinuteBar(5), MinuteBar(8));
    AllOwn([a, b], EURUSD);
    assert [a, b] == [a] + [b];
    ExceptAppends([a], [b], [a]);
    ExceptOne(a, [a]);
    ExceptOne(b, [a]);
  }

  /** A run in which minute five is retained after a failed staging, the answer to the gap before minute
      eight holds minute five, and minute five, accepted, is never staged: it reaches no one. */
  lemma MergedHistorySwallowsARetainedBar()
    ensures var w := RunEvents(FEED, FAILS_ONCE, [Check(5, NotServed), PushEvent, Check(8, Answer([FIVE])), PushEvent]);
            && w.retained == [] && w.waiting == [] && CandlesOf(w.log.accepted, EURUSD) == [MinuteBar(5), MinuteBar(8)]
            && CandlesOf(w.log.staged, EURUSD) == [MinuteBar(8)]
  {
    hide Handle, CandlesOf, Except, RunEvents;
    var (e1, e3) := (Check(5, NotServed), Check(8, Answer([FIVE])));
    FourEvents(FEED, FAILS_ONCE, e1, PushEvent, e3, PushEvent);
    FiveFails();
    var w := RunEvents(FEED, FAILS_ONCE, [e1, PushEvent]);
    EightSwallowsFive(w);
    var v := Handle(w, FEED, e3);
    EightGoesOut(v);
    PushIsTaken(v);
    SentWhenNothingIsHeld(FEED, FAILS_ONCE, [e1, PushEvent, e3, PushEvent], EURUSD);
    TwoBars();
  }

  lemma PushIsTaken(w: World)
    requires Configured(w.feeds, FEED.series)
    ensures Handle(w, FEED, PushEvent) == TakePush(w, 100).w
  {
  }

  // ------------------------------------------------------------ history merged before the bar arrives

  /** The same store, and nothing fails. */
  const NEVER_FAILS := Boot(HOLDS_FOUR, NOTHING_ASKED, [], [])

  /** A run in which nothing fails. The history loop's answer holds minute five, which has just ended; it is
      merged, and the live bar of minute five, arriving after it, is taken for a duplicate. The window has
      the vendor's copy, and nothing is ever staged. */
  lemma HistoryOvertakesAPushedBar()
    ensures var w := RunEvents(FEED, NEVER_FAILS, [HistoryEvent(EURUSD, 100 * MINUTE, Answer([FIVE])), Check(5, NotServed), PushEvent]);
            && w.retained == [] && w.waiting == [] && w.log.overtaken == [MinuteBar(5)]
            && CandlesOf(w.log.staged, EURUSD) == [] && w.store.outbox == []
  {
    hide Handle, CandlesOf, Except, RunEvents;
    var (e1, e2) := (HistoryEvent(EURUSD, 100 * MINUTE, Answer([FIVE])), Check(5, NotServed));
    TwoEvents(FEED, NEVER_FAILS, e1, e2);
    OneEvent(FEED, NEVER_FAILS, [e1, e2], PushEvent);
    assert [e1, e2] + [PushEvent] == [e1, e2, PushEvent];
    var w := Handle(Started(FEED, NEVER_FAILS), FEED, e1);
    HistoryWritesFive();
    var v := Handle(w, FEED, e2);
    FiveWaits(w);
    PushIsTaken(v);
    FiveIsOvertaken(v);
    SentWhenNothingIsHeld(FEED, NEVER_FAILS, [e1, e2, PushEvent], EURUSD);
    NoCandles(EURUSD);
    NothingFromNothing();
  }

  /** Minute five is in the window, and nobody has heard of it. */
  ghost predicate FiveIsMerged(w: World) {
    && w.script == [] && w.retained == [] && w.waiting == [] && Mark(w.store, EURUSD) == Some(5 * MINUTE)
    && w.log == NothingLogged(HOLDS_FOUR)
  }

  lemma HistoryWritesFive()
    ensures FiveIsMerged(Handle(Started(FEED, NEVER_FAILS), FEED, HistoryEvent(EURUSD, 100 * MINUTE, Answer([FIVE]))))
  {
    hide PlanSeries, OnTheWay, UpTo, WritePlan;
    var w := Started(FEED, NEVER_FAILS);
    AnswerWritesFive(w.store, None);
    FiveIsWritten(w);
    var five := FromRow(EURUSD, FIVE);
    WritingTouchesItsSeries(w, EURUSD, Write([MinuteBar(4), five], [five]), 100);
    NothingSwallowed(w, Write([MinuteBar(4), five], [five]));
  }

  lemma NothingSwallowed(w: World, plan: Plan)
    requires w.retained == [] && w.log.swallowed == [] && (plan.Write? ==> plan.changed != [])
    ensures WritePlan(w, EURUSD, plan, 100).log.swallowed == []
  {
    hide Newest, Carried;
    NoneRetained(EURUSD);
  }

  lemma FiveWaits(w: World)
    requires FiveIsMerged(w) && Configured(w.feeds, FEED.series)
    ensures var v := Handle(w, FEED, Check(5, NotServed));
            && v.script == [] && v.retained == [] && v.waiting == [MinuteBar(5)] && v.store == w.store
            && v.log == w.log
  {
    hide LeavesAGap, NeedsNothing;
  }

  lemma FiveIsOvertaken(w: World)
    requires w.script == [] && w.retained == [] && w.waiting == [MinuteBar(5)] && Mark(w.store, EURUSD) == Some(5 * MINUTE)
    requires w.log == NothingLogged(HOLDS_FOUR)
    ensures var v := TakePush(w, 100).w;
            && v.retained == [] && v.waiting == [] && v.store.outbox == []
            && v.log.accepted == [] && v.log.swallowed == [] && v.log.overtaken == [MinuteBar(5)]
  {
    hide TakePush;
    DuplicateIsBehindTheMark(w.store, MinuteBar(5));
    assert !IsNews(w, MinuteBar(5));
    PushGoesOut(w, 100);
    assert [] + [MinuteBar(5)] == [MinuteBar(5)] && [MinuteBar(5)][1..] == [];
  }

  lemma NothingFromNothing()
    ensures Except([], []) == []
  {
  }
}
