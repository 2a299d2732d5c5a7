/** Daily usage counters and the reports made from them. */
module Usage {
  import opened Packing

  type Id = nat

  datatype Totals = Totals(retrievals: int, baseline: int, returned: int, saved: int)

  datatype DayKey = DayKey(ws: Id, day: int)

  // One call of RecordContextUsage that was accepted.
  datatype Record = Record(ws: Id, day: int, full: int, returned: int)

  function Zero(): Totals { Totals(0, 0, 0, 0) }

  function Plus(a: Totals, b: Totals): Totals {
    Totals(a.retrievals + b.retrievals, a.baseline + b.baseline, a.returned + b.returned, a.saved + b.saved)
  }

  lemma PlusZero(a: Totals)
    ensures Plus(Zero(), a) == a && Plus(a, Zero()) == a
  {
  }

  lemma PlusSwap(a: Totals, b: Totals, c: Totals, d: Totals)
    ensures Plus(Plus(a, b), Plus(c, d)) == Plus(Plus(a, c), Plus(b, d))
  {
  }

  // Four characters to a token, rounded up. Counts are not negative, so Go's division agrees.
  function Tokens(characters: int): int {
    (characters + 3) / 4
  }

  function Contribution(e: Record): Totals {
    var baseline, returned := Tokens(e.full), Tokens(e.returned);
    Totals(1, baseline, returned, baseline - returned)
  }

  /** What the log adds up to for one workspace and day. */
  function Tally(log: seq<Record>, key: DayKey): Totals {
    if log == [] then Zero()
    else
      var last := log[|log| - 1];
      Plus(Tally(log[..|log| - 1], key),
           if last.ws == key.ws && last.day == key.day then Contribution(last) else Zero())
  }

  /** What was measured: how often, how many characters there were, and how many of them were returned. */
  datatype Measure = Measure(records: int, full: int, returned: int) {
    function Add(other: Measure): Measure {
      Measure(records + other.records, full + other.full, returned + other.returned)
    }
  }

  function Measured(log: seq<Record>, key: DayKey): Measure {
    if log == [] then Measure(0, 0, 0)
    else
      var last := log[|log| - 1];
      Measured(log[..|log| - 1], key).Add(
        if last.ws == key.ws && last.day == key.day then Measure(1, last.full, last.returned) else Measure(0, 0, 0))
  }

  /**
  What totals promise about a measure: they count the records; baseline and returned tokens bracket
  the characters there were and the characters returned; saved is their difference and not negative.
  */
  ghost predicate Bounded(t: Totals, m: Measure) {
    && t.retrievals == m.records
    && 4 * t.baseline - 3 * t.retrievals <= m.full <= 4 * t.baseline
    && 4 * t.returned - 3 * t.retrievals <= m.returned <= 4 * t.returned
    && t.saved == t.baseline - t.returned >= 0
  }

  predicate Accepted(e: Record) {
    0 <= e.returned <= e.full
  }

  ghost predicate AllAccepted(log: seq<Record>) {
    forall i | 0 <= i < |log| :: Accepted(log[i])
  }

  /** Savings are never negative, and the token estimates bracket the characters. */
  lemma {:induction false} TallyBounds(log: seq<Record>, key: DayKey)
    requires AllAccepted(log)
    ensures Bounded(Tally(log, key), Measured(log, key))
  {
    if log != [] {
      assert Accepted(log[|log| - 1]);
      TallyBounds(log[..|log| - 1], key);
    }
  }

  // ---- reports ----

  function Lookup(days: map<DayKey, Totals>, ws: Id, day: int): Totals {
    if DayKey(ws, day) in days then days[DayKey(ws, day)] else Zero()
  }

  // SUM(...) over the rows of the workspaces in scope, COALESCE'd to zero.
  function DaySum(days: map<DayKey, Totals>, scope: seq<Id>, day: int): Totals {
    if scope == [] then Zero()
    else Plus(DaySum(days, scope[..|scope| - 1], day), Lookup(days, scope[|scope| - 1], day))
  }

  function Window(days: map<DayKey, Totals>, scope: seq<Id>, first: int, n: nat): Totals {
    if n == 0 then Zero() else Plus(Window(days, scope, first, n - 1), DaySum(days, scope, first + n - 1))
  }

  function Separately(days: map<DayKey, Totals>, scope: seq<Id>, first: int, n: nat): Totals {
    if scope == [] then Zero()
    else Plus(Separately(days, scope[..|scope| - 1], first, n), Window(days, [scope[|scope| - 1]], first, n))
  }

  lemma {:induction false} DaySnoc(days: map<DayKey, Totals>, scope: seq<Id>, ws: Id, day: int)
    ensures DaySum(days, scope + [ws], day) == Plus(DaySum(days, scope, day), Lookup(days, ws, day))
  {
    var more := scope + [ws];
    assert more[..|more| - 1] == scope;
  }

  lemma {:induction false} DayOne(days: map<DayKey, Totals>, one: seq<Id>, day: int)
    requires |one| == 1
    ensures DaySum(days, one, day) == Lookup(days, one[0], day)
  {
    var t := Lookup(days, one[0], day);
    assert DaySum(days, one[..|one| - 1], day) == Zero();
    assert DaySum(days, one, day) == Plus(Zero(), t);
    PlusZero(t);
  }

  lemma {:induction false} WindowSnoc(days: map<DayKey, Totals>, scope: seq<Id>, one: seq<Id>, first: int, n: nat)
    requires |one| == 1
    ensures Window(days, scope + one, first, n) == Plus(Window(days, scope, first, n), Window(days, one, first, n))
  {
    if n == 0 {
      PlusZero(Zero());
    } else {
      var day := first + n - 1;
      var a, b := Window(days, scope, first, n - 1), Window(days, one, first, n - 1);
      var c, d := DaySum(days, scope, day), DaySum(days, one, day);
      calc {
        Window(days, scope + one, first, n);
        Plus(Window(days, scope + one, first, n - 1), DaySum(days, scope + one, day));
        { WindowSnoc(days, scope, one, first, n - 1); DayAdds(days, scope, one, day); }
        Plus(Plus(a, b), Plus(c, d));
        { PlusSwap(a, b, c, d); }
        Plus(Plus(a, c), Plus(b, d));
        Plus(Window(days, scope, first, n), Window(days, one, first, n));
      }
    }
  }

  lemma {:induction false} DayAdds(days: map<DayKey, Totals>, scope: seq<Id>, one: seq<Id>, day: int)
    requires |one| == 1
    ensures DaySum(days, scope + one, day) == Plus(DaySum(days, scope, day), DaySum(days, one, day))
  {
    assert one == [one[0]];
    DaySnoc(days, scope, one[0], day);
    DayOne(days, one, day);
  }

  lemma {:induction false} WindowNone(days: map<DayKey, Totals>, first: int, n: nat)
    ensures Window(days, [], first, n) == Zero()
  {
    if n > 0 { WindowNone(days, first, n - 1); }
  }

  /** An owner's report is the sum of the reports of the owned workspaces. */
  lemma {:induction false} OwnerReportAddsUp(days: map<DayKey, Totals>, owned: seq<Id>, first: int, n: nat)
    ensures Window(days, owned, first, n) == Separately(days, owned, first, n)
  {
    if owned == [] {
      WindowNone(days, first, n);
    } else {
      var rest := owned[..|owned| - 1];
      OwnerReportAddsUp(days, rest, first, n);
      WindowSnoc(days, rest, [owned[|owned| - 1]], first, n);
      assert owned == rest + [owned[|owned| - 1]];
    }
  }

  /** The table holds what the log adds up to. */
  ghost predicate Counts(days: map<DayKey, Totals>, log: seq<Record>) {
    forall ws: Id, day: int :: Lookup(days, ws, day) == Tally(log, DayKey(ws, day))
  }

  lemma {:induction false} TallySnoc(log: seq<Record>, e: Record, key: DayKey)
    ensures Tally(log + [e], key) ==
            Plus(Tally(log, key), if DayKey(e.ws, e.day) == key then Contribution(e) else Zero())
  {
    var more := log + [e];
    assert more[..|more| - 1] == log;
  }

  lemma TallyMore(log: seq<Record>, days: map<DayKey, Totals>, row: Totals, e: Record)
    requires Counts(days, log)
    requires row == Plus(Lookup(days, e.ws, e.day), Contribution(e))
    ensures Counts(days[DayKey(e.ws, e.day) := row], log + [e])
  {
    forall ws: Id, day: int
      ensures Lookup(days[DayKey(e.ws, e.day) := row], ws, day) == Tally(log + [e], DayKey(ws, day))
    {
      TallyMoreAt(log, days, row, e, ws, day);
    }
  }

  lemma {:induction false} TallyMoreAt(
      log: seq<Record>, days: map<DayKey, Totals>, row: Totals, e: Record, ws: Id, day: int)
    requires Counts(days, log)
    requires row == Plus(Lookup(days, e.ws, e.day), Contribution(e))
    ensures Lookup(days[DayKey(e.ws, e.day) := row], ws, day) == Tally(log + [e], DayKey(ws, day))
  {
    var key := DayKey(e.ws, e.day);
    TallySnoc(log, e, DayKey(ws, day));
    assert Lookup(days, ws, day) == Tally(log, DayKey(ws, day));
    PlusZero(Lookup(days, ws, day));
    if DayKey(ws, day) == key {
      assert Lookup(days[key := row], ws, day) == row;
    } else {
      assert Lookup(days[key := row], ws, day) == Lookup(days, ws, day);
    }
  }

  /** One more retrieval, with both character counts rounded up to tokens. */
  ghost predicate Adds(a: Totals, b: Totals, full: int, returned: int) {
    && b.retrievals == a.retrievals + 1
    && 4 * (b.baseline - a.baseline) - 3 <= full <= 4 * (b.baseline - a.baseline)
    && 4 * (b.returned - a.returned) - 3 <= returned <= 4 * (b.returned - a.returned)
    && b.saved - a.saved == (b.baseline - a.baseline) - (b.returned - a.returned)
  }

  class UsageStore {
    var days: map<DayKey, Totals>
    ghost var log: seq<Record>

    ghost predicate Valid()
      reads this
    {
      AllAccepted(log) && Counts(days, log)
    }

    constructor ()
      ensures Valid() && log == []
    {
      days, log := map[], [];
    }

    /** Refuses impossible counts, and otherwise adds one retrieval to the workspace's day. */
    method RecordContextUsage(ws: Id, day: int, full: int, returned: int) returns (ok: bool)
      requires Valid()
      modifies this
      ensures Valid()
      ensures ok <==> 0 <= returned <= full
      ensures log == if ok then old(log) + [Record(ws, day, full, returned)] else old(log)
      ensures !ok ==> days == old(days)
      ensures ok ==> Adds(Lookup(old(days), ws, day), Lookup(days, ws, day), full, returned)
      ensures forall key | key != DayKey(ws, day) :: Lookup(days, key.ws, key.day) == Lookup(old(days), key.ws, key.day)
    {
      if full < 0 || returned < 0 || returned > full { return false; }
      var baseline, back := (full + 3) / 4, (returned + 3) / 4;
      var key := DayKey(ws, day);
      var row := Totals(1, baseline, back, baseline - back);
      if key in days {
        var t := days[key];
        row := Totals(t.retrievals + 1, t.baseline + baseline, t.returned + back, t.saved + (baseline - back));
      }
      TallyMore(log, days, row, Record(ws, day, full, returned));
      days := days[key := row];
      log := log + [Record(ws, day, full, returned)];
      return true;
    }

    /** The last 30 days, oldest first, and their totals. */
    method Report(scope: seq<Id>, today: int) returns (daily: seq<Totals>, totals: Totals)
      ensures |daily| == 30 && forall d | 0 <= d < 30 :: daily[d] == DaySum(days, scope, today - 29 + d)
      ensures totals == Window(days, scope, today - 29, |daily|)
      ensures Valid() ==> Bounded(totals, MeasuredWindow(log, scope, today - 29, |daily|))
      ensures Valid() ==> forall d | 0 <= d < 30 :: Bounded(daily[d], MeasuredDay(log, scope, today - 29 + d))
    {
      daily, totals := [], Zero();
      for d := 0 to 30
        invariant |daily| == d && forall k | 0 <= k < d :: daily[k] == DaySum(days, scope, today - 29 + k)
        invariant totals == Window(days, scope, today - 29, |daily|)
      {
        var day := DaySum(days, scope, today - 29 + d);
        assert Window(days, scope, today - 29, d + 1) == Plus(Window(days, scope, today - 29, d), day);
        daily := daily + [day];
        totals := Plus(totals, day);
      }
      if Valid() {
        ReportSaves(days, log, scope, today - 29, |daily|);
        forall d | 0 <= d < 30 ensures Bounded(daily[d], MeasuredDay(log, scope, today - 29 + d)) {
          DayBounded(days, log, scope, today - 29 + d);
        }
      }
    }

    /** A packed context and its independently counted baseline are always accepted. */
    method RecordPacked(ws: Id, day: int, memories: seq<Item>, budget: int) returns (out: Context, ok: bool)
      requires Valid()
      modifies this
      ensures Valid() && ok
      ensures budget >= 1 ==> Packs(memories, budget, out)
      ensures log == old(log) + [Record(ws, day, |Full(memories)|, |out.text|)]
    {
      out := PackContext(memories, budget);
      var full := FullContextCharacters(memories);
      ok := RecordContextUsage(ws, day, full, out.characters);
    }
  }

  lemma PlusBounded(a: Totals, b: Totals, m: Measure, n: Measure)
    requires Bounded(a, m) && Bounded(b, n)
    ensures Bounded(Plus(a, b), m.Add(n))
  {
  }

  // What was measured in some workspaces on a day, and in a window of days.
  function MeasuredDay(log: seq<Record>, scope: seq<Id>, day: int): Measure {
    if scope == [] then Measure(0, 0, 0)
    else MeasuredDay(log, scope[..|scope| - 1], day).Add(Measured(log, DayKey(scope[|scope| - 1], day)))
  }

  function MeasuredWindow(log: seq<Record>, scope: seq<Id>, first: int, n: nat): Measure {
    if n == 0 then Measure(0, 0, 0)
    else MeasuredWindow(log, scope, first, n - 1).Add(MeasuredDay(log, scope, first + n - 1))
  }

  lemma {:induction false} DayBounded(days: map<DayKey, Totals>, log: seq<Record>, scope: seq<Id>, day: int)
    requires AllAccepted(log) && Counts(days, log)
    ensures Bounded(DaySum(days, scope, day), MeasuredDay(log, scope, day))
  {
    if scope != [] {
      var rest, ws := scope[..|scope| - 1], scope[|scope| - 1];
      DayBounded(days, log, rest, day);
      OneDayBounded(days, log, ws, day);
      PlusBounded(DaySum(days, rest, day), Lookup(days, ws, day),
                  MeasuredDay(log, rest, day), Measured(log, DayKey(ws, day)));
    }
  }

  lemma {:induction false} OneDayBounded(days: map<DayKey, Totals>, log: seq<Record>, ws: Id, day: int)
    requires AllAccepted(log) && Counts(days, log)
    ensures Bounded(Lookup(days, ws, day), Measured(log, DayKey(ws, day)))
  {
    TallyBounds(log, DayKey(ws, day));
    assert Lookup(days, ws, day) == Tally(log, DayKey(ws, day));
  }

  /**
  Every report counts the retrievals of its window, brackets the characters that were available and
  those that were returned over all of it, and never claims a negative saving.
  */
  lemma {:induction false} ReportSaves(days: map<DayKey, Totals>, log: seq<Record>, scope: seq<Id>, first: int, n: nat)
    requires AllAccepted(log) && Counts(days, log)
    ensures Bounded(Window(days, scope, first, n), MeasuredWindow(log, scope, first, n))
  {
    if n > 0 {
      var last := first + n - 1;
      ReportSaves(days, log, scope, first, n - 1);
      DayBounded(days, log, scope, last);
      var a, b := Window(days, scope, first, n - 1), DaySum(days, scope, last);
      PlusBounded(a, b, MeasuredWindow(log, scope, first, n - 1), MeasuredDay(log, scope, last));
      assert Window(days, scope, first, n) == Plus(a, b);
    }
  }
}
