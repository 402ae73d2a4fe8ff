/** The arithmetic of the project-estimation endpoint: hours per task by
    priority, an hourly rate per currency, the total, the cost and the
    fallback timeline in weeks. */
module Estimation {

  import opened Records

  /** Hours charged per task priority (`hours_map`). */
  const HoursByPriority: map<string, nat> := map["low" := 2, "medium" := 4, "high" := 8, "urgent" := 16]

  /** Hourly rate per currency (`rates`). */
  const RateByCurrency: map<string, nat> :=
    map["INR" := 3000, "USD" := 40, "EUR" := 35, "GBP" := 30, "AUD" := 60, "CAD" := 55, "JPY" := 5000]

  /** `hours_map.get(priority, 4)`. */
  function HoursFor(priority: string): (h: nat)
    ensures h in HoursByPriority.Values || h == 4
    ensures 2 <= h <= 16
    ensures priority == "low" ==> h == 2
    ensures priority == "medium" ==> h == 4
    ensures priority == "high" ==> h == 8
    ensures priority == "urgent" ==> h == 16
    ensures priority !in HoursByPriority ==> h == 4
  {
    if priority in HoursByPriority then HoursByPriority[priority] else 4
  }

  /** `rates.get(currency, 3000)`. */
  function RateFor(currency: string): (r: nat)
    ensures r > 0
    ensures currency == "INR" ==> r == 3000
    ensures currency == "USD" ==> r == 40
    ensures currency == "EUR" ==> r == 35
    ensures currency == "GBP" ==> r == 30
    ensures currency == "AUD" ==> r == 60
    ensures currency == "CAD" ==> r == 55
    ensures currency == "JPY" ==> r == 5000
    ensures currency !in RateByCurrency ==> r == 3000
  {
    if currency in RateByCurrency then RateByCurrency[currency] else 3000
  }

  /** The currency symbol: JPY and every unknown currency get the yen sign. */
  function SymbolFor(currency: string): (s: string)
    ensures |s| == 1
    ensures currency == "INR" ==> s == "\U{20b9}"
    ensures currency == "USD" || currency == "AUD" || currency == "CAD" ==> s == "$"
    ensures currency == "EUR" ==> s == "\U{20ac}"
    ensures currency == "GBP" ==> s == "\U{a3}"
    ensures currency == "JPY" ==> s == "\U{a5}"
    ensures currency !in RateByCurrency ==> s == "\U{a5}"
  {
    if currency == "INR" then "\U{20b9}"
    else if currency in ["USD", "AUD", "CAD"] then "$"
    else if currency == "EUR" then "\U{20ac}"
    else if currency == "GBP" then "\U{a3}"
    else "\U{a5}"
  }

  /** The sum of the per-task hours. */
  function TotalHours(tasks: seq<Task>): nat {
    if tasks == [] then 0
    else TotalHours(tasks[..|tasks| - 1]) + HoursFor(tasks[|tasks| - 1].fields.priority)
  }

  /** The total lies between 2 and 16 hours per task. */
  lemma {:induction false} TotalHoursBounds(tasks: seq<Task>)
    ensures 2 * |tasks| <= TotalHours(tasks) <= 16 * |tasks|
  {
    if tasks != [] {
      TotalHoursBounds(tasks[..|tasks| - 1]);
    }
  }

  /** The fallback quotation's duration: `max(1, int(total_hours / 30))` weeks. */
  function TimelineWeeks(hours: nat): (w: nat)
    ensures w >= 1
    ensures hours < 30 ==> w == 1
    ensures hours >= 30 ==> w * 30 <= hours < (w + 1) * 30
  {
    if hours / 30 < 1 then 1 else hours / 30
  }

  /** One row of the breakdown. */
  datatype Line = Line(task: string, hours: nat, cost: nat)

  function LineFor(t: Task, rate: nat): Line {
    var h := HoursFor(t.fields.priority);
    Line(t.fields.title, h, h * rate)
  }

  /** The sum of a breakdown's costs. */
  function Costs(lines: seq<Line>): nat {
    if lines == [] then 0 else Costs(lines[..|lines| - 1]) + lines[|lines| - 1].cost
  }

  /** Proof step for the running cost: multiplication distributes over addition. */
  lemma DistributeRight(a: nat, b: nat, c: nat)
    ensures a * c + b * c == (a + b) * c
  {
  }

  /** The breakdown's costs add up to the estimated cost. */
  lemma {:induction false} CostsOfBreakdown(tasks: seq<Task>, rate: nat, lines: seq<Line>)
    requires |lines| == |tasks|
    requires forall k :: 0 <= k < |tasks| ==> lines[k] == LineFor(tasks[k], rate)
    ensures Costs(lines) == TotalHours(tasks) * rate
  {
    if tasks != [] {
      var n := |tasks| - 1;
      assert forall k :: 0 <= k < n ==> lines[..n][k] == LineFor(tasks[..n][k], rate);
      CostsOfBreakdown(tasks[..n], rate, lines[..n]);
      var before, h := TotalHours(tasks[..n]), HoursFor(tasks[n].fields.priority);
      assert lines[n] == LineFor(tasks[n], rate);
      calc {
        Costs(lines);
        Costs(lines[..n]) + lines[n].cost;
        before * rate + h * rate;
        { DistributeRight(before, h, rate); }
        (before + h) * rate;
      }
    }
  }

  /** The endpoint's answer: an error when the project has no tasks. */
  datatype Quote =
    | NoTasks
    | Quote(project: Option<string>, totalTasks: nat, totalHours: nat, estimatedCost: nat,
            currency: string, symbol: string, breakdown: seq<Line>, weeks: nat)

  /** The estimation loop over the project's tasks. */
  method EstimateTasks(tasks: seq<Task>, project: Option<string>, currency: string) returns (q: Quote)
    ensures q.NoTasks? <==> tasks == []
    ensures q.Quote? ==>
      && q.project == project && q.currency == currency && q.symbol == SymbolFor(currency)
      && q.totalTasks == |tasks|
      && q.totalHours == TotalHours(tasks)
      && q.estimatedCost == q.totalHours * RateFor(currency)
      && q.weeks == TimelineWeeks(q.totalHours)
      && |q.breakdown| == |tasks|
      && (forall k :: 0 <= k < |tasks| ==> q.breakdown[k] == LineFor(tasks[k], RateFor(currency)))
  {
    if |tasks| == 0 {
      return NoTasks;
    }
    var rate := RateFor(currency);
    var total, breakdown := Tally(tasks, rate);
    q := Quote(project, |tasks|, total, total * rate, currency, SymbolFor(currency), breakdown, TimelineWeeks(total));
  }

  /** The loop over the tasks: the hours summed and one breakdown row per task. */
  method Tally(tasks: seq<Task>, rate: nat) returns (total: nat, breakdown: seq<Line>)
    ensures total == TotalHours(tasks)
    ensures |breakdown| == |tasks|
    ensures forall k :: 0 <= k < |tasks| ==> breakdown[k] == LineFor(tasks[k], rate)
  {
    total := 0;
    breakdown := [];
    var i := 0;
    while i < |tasks|
      invariant 0 <= i <= |tasks|
      invariant total == TotalHours(tasks[..i])
      invariant |breakdown| == i
      invariant forall k :: 0 <= k < i ==> breakdown[k] == LineFor(tasks[k], rate)
    {
      var line := LineFor(tasks[i], rate);
      assert tasks[..i + 1][..i] == tasks[..i];
      total := total + line.hours;
      breakdown := breakdown + [line];
      i := i + 1;
    }
    assert tasks[..i] == tasks;
  }
}
