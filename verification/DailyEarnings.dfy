/** What the daily close makes of captures: each capture posts the driver's share twice, and the report
    has it once. */
module DailyEarnings {
  import opened Common
  import opened DailyClose

  /** A capture with a driver, `wait` milliseconds after the one before it. */
  datatype Fare = Fare(id: string, gross: nat, currency: string, wait: nat)

  /** The transactions that the capture of a fare records, in order. */
  function CaptureSteps(f: Fare): seq<Step> {
    var share := 4 * f.gross / 5;
    [Tick(f.wait),
     Record(OtherEvent, "payment:" + f.id + ":captured", f.currency, f.gross),
     Record(CommissionRecorded, "payment:" + f.id + ":commission", f.currency, f.gross - share),
     Record(DriverEarningRecorded, "payment:" + f.id + ":driver-earning", f.currency, share),
     Record(DriverEarningRecorded, "payment:" + f.id + ":driver-payable", f.currency, share),
     Record(OtherEvent, "payout:" + f.id + ":pending", f.currency, share)]
  }

  function AllSteps(fares: seq<Fare>): seq<Step> {
    if fares == [] then [] else AllSteps(fares[..|fares| - 1]) + CaptureSteps(fares[|fares| - 1])
  }

  /** The time after these captures. */
  function After(now: nat, fares: seq<Fare>): nat {
    if fares == [] then now else After(now, fares[..|fares| - 1]) + fares[|fares| - 1].wait
  }

  /** The drivers' shares, or what they leave over, of the fares captured on the day of the report. */
  function Due(m: Aggregate, now: nat, fares: seq<Fare>, key: Key): nat {
    if fares == [] then 0
    else
      var n := |fares| - 1;
      var f, share := fares[n], 4 * fares[n].gross / 5;
      Due(m, now, fares[..n], key)
      + if f.currency == key.currency && key.closeDate <= After(now, fares) < key.closeDate + 24 * 60 * 60 * 1000
        then (if m == DriverEarnings then share else f.gross - share)
        else 0
  }

  lemma {:induction false} RunAppends(s: State, xs: seq<Step>, ys: seq<Step>)
    ensures Run(s, xs + ys) == Run(Run(s, xs), ys)
  {
    if ys == [] {
      assert xs + ys == xs;
    } else {
      assert (xs + ys)[..|xs + ys| - 1] == xs + ys[..|ys| - 1];
      RunAppends(s, xs, ys[..|ys| - 1]);
    }
  }

  lemma OneRecord(s: State, steps: seq<Step>, step: Step, m: Aggregate, key: Key)
    requires step.Record?
    ensures var before, after := Run(s, steps), Run(s, steps + [step]);
            && after.now == before.now
            && DaySum(after.txs, m, key) == DaySum(before.txs, m, key)
               + if Counts(m, Tx(step.eventType, step.reference, step.currency, step.amount, before.now))
                    && step.currency == key.currency && key.closeDate <= before.now < key.closeDate + DAY_MS
                 then step.amount else 0
  {
    RunOneMore(s, steps, step);
    var before, after := Run(s, steps), Run(s, steps + [step]);
    assert after.txs[..|before.txs|] == before.txs;
  }

  lemma Suffixes(id: string)
    ensures EndsWith("payment:" + id + ":driver-earning", ":driver-earning")
    ensures !EndsWith("payment:" + id + ":driver-payable", ":driver-earning")
  {
    var r := "payment:" + id + ":driver-payable";
    assert r[|r| - 15..] == ":driver-payable";
    assert ":driver-payable"[8] != ":driver-earning"[8];
  }

  /** One capture adds its commission, and the share once. */
  lemma OneCapture(s: State, f: Fare, m: Aggregate, key: Key)
    ensures var after := Run(s, CaptureSteps(f));
            var share := 4 * f.gross / 5;
            && after.now == s.now + f.wait
            && DaySum(after.txs, m, key) == DaySum(s.txs, m, key)
               + if f.currency == key.currency && key.closeDate <= s.now + f.wait < key.closeDate + DAY_MS
                 then (if m == DriverEarnings then share else f.gross - share)
                 else 0
  {
    var steps := CaptureSteps(f);
    assert steps[..0] == [];
    RunOneMore(s, [], steps[0]);
    assert Run(s, []) == s;
    assert steps[..1] == [] + [steps[0]] && steps[..2] == steps[..1] + [steps[1]] && steps[..3] == steps[..2] + [steps[2]];
    assert steps[..4] == steps[..3] + [steps[3]] && steps[..5] == steps[..4] + [steps[4]] && steps == steps[..5] + [steps[5]];
    Suffixes(f.id);
    OneRecord(s, steps[..1], steps[1], m, key);
    OneRecord(s, steps[..2], steps[2], m, key);
    OneRecord(s, steps[..3], steps[3], m, key);
    OneRecord(s, steps[..4], steps[4], m, key);
    OneRecord(s, steps[..5], steps[5], m, key);
  }

  lemma {:induction false} ManyCaptures(s: State, fares: seq<Fare>, m: Aggregate, key: Key)
    ensures var after := Run(s, AllSteps(fares));
            after.now == After(s.now, fares) && DaySum(after.txs, m, key) == DaySum(s.txs, m, key) + Due(m, s.now, fares, key)
  {
    if fares == [] {
      assert Run(s, []) == s;
    } else {
      var n := |fares| - 1;
      ManyCaptures(s, fares[..n], m, key);
      RunAppends(s, AllSteps(fares[..n]), CaptureSteps(fares[n]));
      OneCapture(Run(s, AllSteps(fares[..n])), fares[n], m, key);
    }
  }

  /** A report that is generated has the sums of its day. */
  lemma GeneratedHasSums(s: State, date: nat, currency: string)
    ensures var key := Key(CloseStart(date), currency);
            var after := Generate(s, date, currency);
            && key in after.reports && after.txs == s.txs && after.reports[key].generatedAt == s.now
            && after.reports[key].driverEarning == DaySum(s.txs, DriverEarnings, key)
            && after.reports[key].commission == DaySum(s.txs, Commissions, key)
  {
  }

  /** After any captures the report of a day has, besides what it had before, each driver's share of the
      fares captured on that day once, and the commission that it leaves over. */
  lemma ReportHasEachShareOnce(s: State, fares: seq<Fare>, date: nat, currency: string)
    ensures var after := Generate(Run(s, AllSteps(fares)), date, currency);
            var key := Key(CloseStart(date), currency);
            && key in after.reports
            && after.reports[key].driverEarning == DaySum(s.txs, DriverEarnings, key) + Due(DriverEarnings, s.now, fares, key)
            && after.reports[key].commission == DaySum(s.txs, Commissions, key) + Due(Commissions, s.now, fares, key)
            && after.reports[key].generatedAt == After(s.now, fares)
  {
    var key := Key(CloseStart(date), currency);
    ManyCaptures(s, fares, DriverEarnings, key);
    ManyCaptures(s, fares, Commissions, key);
    GeneratedHasSums(Run(s, AllSteps(fares)), date, currency);
  }
}
