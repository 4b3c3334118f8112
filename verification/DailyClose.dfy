/** The daily close: one report per UTC day and currency, aggregated over a half-open window. */
module DailyClose {
  import opened Common
  import Money

  const DAY_MS: nat := 24 * 60 * 60 * 1000

  datatype EventType = CommissionRecorded | DriverEarningRecorded | OtherEvent

  datatype Tx = Tx(eventType: EventType, reference: string, currency: string, amount: nat, createdAt: nat)

  /** The two aggregates over the transaction table. */
  datatype Aggregate = Commissions | DriverEarnings

  datatype Report = Report(commission: int, driverEarning: int, generatedAt: nat)

  /** The unique pair (closeDate, currency). */
  datatype Key = Key(closeDate: nat, currency: string)

  datatype State = State(txs: seq<Tx>, reports: map<Key, Report>, now: nat)

  predicate EndsWith(s: string, suffix: string) {
    |s| >= |suffix| && s[|s| - |suffix|..] == suffix
  }

  predicate Counts(m: Aggregate, tx: Tx) {
    match m
    case Commissions => tx.eventType == CommissionRecorded
    case DriverEarnings => tx.eventType == DriverEarningRecorded && EndsWith(tx.reference, ":driver-earning")
  }

  /** The sum of the counted transactions created in [from, to). */
  function SumIn(txs: seq<Tx>, m: Aggregate, currency: string, from: nat, to: nat): nat {
    if txs == [] then 0
    else
      var last := txs[|txs| - 1];
      SumIn(txs[..|txs| - 1], m, currency, from, to)
      + if Counts(m, last) && last.currency == currency && from <= last.createdAt < to then last.amount else 0
  }

  function CloseStart(date: nat): nat {
    date / DAY_MS * DAY_MS
  }

  function DaySum(txs: seq<Tx>, m: Aggregate, key: Key): nat {
    SumIn(txs, m, key.currency, key.closeDate, key.closeDate + DAY_MS)
  }

  /** `generateDailyClose`: every amount passes through `decimalValue`. */
  function Generate(s: State, date: nat, currency: string): State {
    var key := Key(CloseStart(date), currency);
    var report := Report(Money.ReadBack(DaySum(s.txs, Commissions, key)), Money.ReadBack(DaySum(s.txs, DriverEarnings, key)), s.now);
    s.(reports := s.reports[key := report])
  }

  datatype Step =
    | Record(eventType: EventType, reference: string, currency: string, amount: nat)
    | DoGenerate(date: nat, closeCurrency: string)
    | Tick(elapsed: nat)

  function Apply(s: State, step: Step): State {
    match step
    case Record(eventType, reference, currency, amount) =>
      s.(txs := s.txs + [Tx(eventType, reference, currency, amount, s.now)])
    case DoGenerate(date, currency) => Generate(s, date, currency)
    case Tick(elapsed) => s.(now := s.now + elapsed)
  }

  function Run(s: State, steps: seq<Step>): State {
    if steps == [] then s else Apply(Run(s, steps[..|steps| - 1]), steps[|steps| - 1])
  }

  function Start(now: nat): State {
    State([], map[], now)
  }

  // ---------------------------------------------------------------- windows

  /** The window of a date contains it, starts at a midnight, and two windows are equal or apart. */
  lemma WindowsTile(d: nat, e: nat)
    ensures CloseStart(d) <= d < CloseStart(d) + DAY_MS && CloseStart(d) % DAY_MS == 0
    ensures CloseStart(CloseStart(d)) == CloseStart(d)
    ensures CloseStart(d) == CloseStart(e)
         || CloseStart(d) + DAY_MS <= CloseStart(e) || CloseStart(e) + DAY_MS <= CloseStart(d)
  {
  }

  lemma {:induction false} SumSplits(txs: seq<Tx>, m: Aggregate, currency: string, a: nat, b: nat, c: nat)
    requires a <= b <= c
    ensures SumIn(txs, m, currency, a, c) == SumIn(txs, m, currency, a, b) + SumIn(txs, m, currency, b, c)
  {
    if txs != [] {
      SumSplits(txs[..|txs| - 1], m, currency, a, b, c);
    }
  }

  // ---------------------------------------------------------------- reports over whole runs

  function Reported(r: Report, m: Aggregate): int {
    match m
    case Commissions => r.commission
    case DriverEarnings => r.driverEarning
  }

  predicate Closed(s: State, key: Key) {
    key in s.reports && key.closeDate + DAY_MS <= s.reports[key].generatedAt
  }

  ghost predicate ReportsOk(s: State) {
    && (forall key :: key in s.reports ==> s.reports[key].generatedAt <= s.now)
    && (forall key, m :: Closed(s, key) ==> Reported(s.reports[key], m) == DaySum(s.txs, m, key))
  }

  lemma StepKeepsReports(s: State, step: Step)
    requires ReportsOk(s)
    ensures ReportsOk(Apply(s, step))
  {
    var s' := Apply(s, step);
    if step.Record? {
      forall key, m | Closed(s', key) ensures Reported(s'.reports[key], m) == DaySum(s'.txs, m, key) {
        assert Closed(s, key);
        assert s'.txs[..|s.txs|] == s.txs;
      }
    } else {
      forall key, m | Closed(s', key) ensures Reported(s'.reports[key], m) == DaySum(s'.txs, m, key) {
        assert key in s.reports && s.reports[key] == s'.reports[key] ==> Closed(s, key);
      }
    }
  }

  /** A report generated after its window has ended is exact from then on. */
  lemma {:induction false} ClosedReportsAreExact(now: nat, steps: seq<Step>)
    ensures ReportsOk(Run(Start(now), steps))
  {
    if steps != [] {
      ClosedReportsAreExact(now, steps[..|steps| - 1]);
      StepKeepsReports(Run(Start(now), steps[..|steps| - 1]), steps[|steps| - 1]);
    }
  }

  /** The reports of `days` consecutive days, added up. */
  function ReportedOver(s: State, m: Aggregate, currency: string, first: nat, days: nat): int {
    if days == 0 then 0
    else
      var key := Key(first + (days - 1) * DAY_MS, currency);
      ReportedOver(s, m, currency, first, days - 1) + if key in s.reports then Reported(s.reports[key], m) else 0
  }

  predicate AllClosed(s: State, currency: string, first: nat, days: nat) {
    days == 0 || (Closed(s, Key(first + (days - 1) * DAY_MS, currency)) && AllClosed(s, currency, first, days - 1))
  }

  /** Over any span of consecutive days whose reports were generated after their windows ended,
      the daily totals add up to exactly the transactions created in the span. */
  lemma {:induction false} ReportsTile(now: nat, steps: seq<Step>, m: Aggregate, currency: string, first: nat, days: nat)
    requires AllClosed(Run(Start(now), steps), currency, first, days)
    ensures var s := Run(Start(now), steps);
            ReportedOver(s, m, currency, first, days) == SumIn(s.txs, m, currency, first, first + days * DAY_MS)
  {
    var s := Run(Start(now), steps);
    if days == 0 {
      EmptyWindow(s.txs, m, currency, first);
    } else {
      ReportsTile(now, steps, m, currency, first, days - 1);
      ClosedReportsAreExact(now, steps);
      var key := Key(first + (days - 1) * DAY_MS, currency);
      assert Closed(s, key);
      assert key.closeDate + DAY_MS == first + days * DAY_MS;
      SumSplits(s.txs, m, currency, first, key.closeDate, key.closeDate + DAY_MS);
    }
  }

  lemma {:induction false} EmptyWindow(txs: seq<Tx>, m: Aggregate, currency: string, at: nat)
    ensures SumIn(txs, m, currency, at, at) == 0
  {
    if txs != [] {
      EmptyWindow(txs[..|txs| - 1], m, currency, at);
    }
  }

  // ---------------------------------------------------------------- when a report stays exact

  predicate NoRegeneration(steps: seq<Step>, key: Key) {
    forall i :: 0 <= i < |steps| && steps[i].DoGenerate? ==> Key(CloseStart(steps[i].date), steps[i].closeCurrency) != key
  }

  /** The report agrees with its day on both aggregates. */
  ghost predicate Exact(s: State, key: Key) {
    key in s.reports && forall m :: Reported(s.reports[key], m) == DaySum(s.txs, m, key)
  }

  lemma StepStaysExact(s: State, step: Step, key: Key)
    requires Exact(s, key) && key.closeDate + DAY_MS <= s.now
    requires step.DoGenerate? ==> Key(CloseStart(step.date), step.closeCurrency) != key
    ensures Exact(Apply(s, step), key) && s.now <= Apply(s, step).now
  {
    var after := Apply(s, step);
    if step.Record? {
      assert after.txs[..|s.txs|] == s.txs;
      forall m ensures DaySum(after.txs, m, key) == DaySum(s.txs, m, key) {}
    }
  }

  /** A report generated after its window has ended is exact for good. */
  lemma {:induction false} ClosedStaysExact(s: State, steps: seq<Step>, key: Key)
    requires Exact(s, key) && key.closeDate + DAY_MS <= s.now && NoRegeneration(steps, key)
    ensures Exact(Run(s, steps), key) && s.now <= Run(s, steps).now
  {
    if steps != [] {
      var k := |steps| - 1;
      assert forall i :: 0 <= i < k ==> steps[..k][i] == steps[i];
      ClosedStaysExact(s, steps[..k], key);
      StepStaysExact(Run(s, steps[..k]), steps[k], key);
    }
  }

  /** One commission, recorded in the window after the report. */
  function LateCommission(s: State, key: Key): seq<Step> {
    [Tick(if s.now < key.closeDate then key.closeDate - s.now else 0)] + [Record(CommissionRecorded, "", key.currency, 1)]
  }

  lemma LateCommissionSpoils(s: State, key: Key)
    requires Exact(s, key) && s.now < key.closeDate + DAY_MS
    ensures NoRegeneration(LateCommission(s, key), key) && !Exact(Run(s, LateCommission(s, key)), key)
  {
    var wait := if s.now < key.closeDate then key.closeDate - s.now else 0;
    var record := Record(CommissionRecorded, "", key.currency, 1);
    RunOneMore(s, [Tick(wait)], record);
    RunOneMore(s, [], Tick(wait));
    assert [] + [Tick(wait)] == [Tick(wait)] && Run(s, []) == s;
    var after := Run(s, LateCommission(s, key));
    assert after.txs[..|s.txs|] == s.txs && after.reports == s.reports;
    assert Reported(after.reports[key], Commissions) == DaySum(s.txs, Commissions, key);
    assert DaySum(after.txs, Commissions, key) == DaySum(s.txs, Commissions, key) + 1;
  }

  /** The report is exact after every later run in which it is not generated again. */
  ghost predicate StaysExact(s: State, key: Key) {
    forall steps {:trigger Run(s, steps)} :: NoRegeneration(steps, key) ==> Exact(Run(s, steps), key)
  }

  /** A report that has just been generated stays exact, whatever is recorded later, if and only
      if its window has ended by then. */
  lemma StaysExactIff(s: State, date: nat, currency: string)
    ensures var key := Key(CloseStart(date), currency);
            StaysExact(Generate(s, date, currency), key) <==> key.closeDate + DAY_MS <= s.now
  {
    var key := Key(CloseStart(date), currency);
    var s1 := Generate(s, date, currency);
    assert Exact(s1, key);
    if key.closeDate + DAY_MS <= s.now {
      forall steps | NoRegeneration(steps, key) ensures Exact(Run(s1, steps), key) {
        ClosedStaysExact(s1, steps, key);
      }
    } else {
      LateCommissionSpoils(s1, key);
      assert !Exact(Run(s1, LateCommission(s1, key)), key);
    }
  }

  // ---------------------------------------------------------------- the hourly schedule

  /** The timer closes the day of the current time. */
  predicate Scheduled(s: State, steps: seq<Step>)
  {
    steps == []
    || (var k := |steps| - 1;
        Scheduled(s, steps[..k]) && (steps[k].DoGenerate? ==> steps[k].date == Run(s, steps[..k]).now))
  }

  predicate Early(key: Key, r: Report) {
    key.closeDate <= r.generatedAt < key.closeDate + DAY_MS
  }

  ghost predicate AllEarly(s: State) {
    forall key :: key in s.reports ==> Early(key, s.reports[key])
  }

  lemma TimerKeepsEarly(s: State, step: Step)
    requires AllEarly(s) && (step.DoGenerate? ==> step.date == s.now)
    ensures AllEarly(Apply(s, step))
  {
    if step.DoGenerate? {
      WindowsTile(s.now, 0);
    }
  }

  /** A report that only the timer generates is always generated before its own day is over. */
  lemma {:induction false} ScheduledReportsAreEarly(now: nat, steps: seq<Step>)
    requires Scheduled(Start(now), steps)
    ensures AllEarly(Run(Start(now), steps))
    ensures forall key :: !Closed(Run(Start(now), steps), key)
  {
    if steps != [] {
      ScheduledReportsAreEarly(now, steps[..|steps| - 1]);
      TimerKeepsEarly(Run(Start(now), steps[..|steps| - 1]), steps[|steps| - 1]);
    }
    forall key | key in Run(Start(now), steps).reports ensures !Closed(Run(Start(now), steps), key) {
      assert Early(key, Run(Start(now), steps).reports[key]);
    }
  }

  lemma RunOneMore(s: State, steps: seq<Step>, step: Step)
    ensures Run(s, steps + [step]) == Apply(Run(s, steps), step)
    ensures Scheduled(s, steps + [step])
       <==> Scheduled(s, steps) && (step.DoGenerate? ==> step.date == Run(s, steps).now)
  {
    assert (steps + [step])[..|steps|] == steps;
  }

  lemma FourSteps(s: State, a: Step, b: Step, c: Step, d: Step)
    ensures Run(s, [a, b, c, d]) == Apply(Apply(Apply(Apply(s, a), b), c), d)
    ensures Scheduled(s, [a, b, c, d])
       <==> && (a.DoGenerate? ==> a.date == s.now)
            && (b.DoGenerate? ==> b.date == Apply(s, a).now)
            && (c.DoGenerate? ==> c.date == Apply(Apply(s, a), b).now)
            && (d.DoGenerate? ==> d.date == Apply(Apply(Apply(s, a), b), c).now)
  {
    assert [a, b, c, d] == [] + [a] + [b] + [c] + [d];
    RunOneMore(s, [], a);
    RunOneMore(s, [] + [a], b);
    RunOneMore(s, [] + [a] + [b], c);
    RunOneMore(s, [] + [a] + [b] + [c], d);
    assert Run(s, []) == s && Scheduled(s, []);
  }

  lemma SumOfOne(tx: Tx, m: Aggregate, currency: string, from: nat, to: nat)
    ensures SumIn([tx], m, currency, from, to)
         == if Counts(m, tx) && tx.currency == currency && from <= tx.createdAt < to then tx.amount else 0
  {
    assert [tx][..0] == [];
    assert SumIn([], m, currency, from, to) == 0;
  }

  /** So a commission recorded after the last hourly report of its day is in no report: here of
      day zero, and the report of the next day does not have it either. */
  lemma LateCommissionIsMissed(currency: string, reference: string, amount: nat)
    ensures var steps := [DoGenerate(0, currency), Record(CommissionRecorded, reference, currency, amount),
                          Tick(DAY_MS), DoGenerate(DAY_MS, currency)];
            var s := Run(Start(0), steps);
            && Scheduled(Start(0), steps)
            && Key(0, currency) in s.reports && s.reports[Key(0, currency)].commission == 0
            && Key(DAY_MS, currency) in s.reports && s.reports[Key(DAY_MS, currency)].commission == 0
            && SumIn(s.txs, Commissions, currency, 0, 2 * DAY_MS) == amount
  {
    var a, b := DoGenerate(0, currency), Record(CommissionRecorded, reference, currency, amount);
    FourSteps(Start(0), a, b, Tick(DAY_MS), DoGenerate(DAY_MS, currency));
    var tx := Tx(CommissionRecorded, reference, currency, amount, 0);
    WindowsTile(0, DAY_MS);
    assert CloseStart(0) == 0 && CloseStart(DAY_MS) == DAY_MS;
    assert DaySum([], Commissions, Key(0, currency)) == 0;
    SumOfOne(tx, Commissions, currency, DAY_MS, 2 * DAY_MS);
    SumOfOne(tx, Commissions, currency, 0, 2 * DAY_MS);
    assert Apply(Apply(Start(0), a), b).txs == [tx];
  }

  // ---------------------------------------------------------------- the service

  class FinanceSchedulerService {
    var txs: seq<Tx>
    var reports: map<Key, Report>

    constructor (txs: seq<Tx>)
      ensures this.txs == txs && reports == map[]
    {
      this.txs := txs;
      reports := map[];
    }

    method GenerateDailyClose(date: nat, currency: string, now: nat)
      modifies this`reports
      ensures State(txs, reports, now) == Generate(State(txs, old(reports), now), date, currency)
    {
      var start := CloseStart(date);
      var end := start + DAY_MS;
      var commission := SumIn(txs, Commissions, currency, start, end);
      var earning := SumIn(txs, DriverEarnings, currency, start, end);
      var key := Key(start, currency);
      if key in reports {
        reports := reports[key := reports[key].(
          commission := Money.ReadBack(commission), driverEarning := Money.ReadBack(earning), generatedAt := now)];
      } else {
        reports := reports[key := Report(Money.ReadBack(commission), Money.ReadBack(earning), now)];
      }
    }
  }
}
