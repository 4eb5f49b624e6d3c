/**
 * The usage governor of backend/app/utils/cost_tracker.py: one usage record per day key,
 * created with zero counters on first access and grown by every answered query. The day
 * key (`date.today().isoformat()`) and the creation timestamp (`datetime.utcnow()`) are
 * parameters of every operation.
 */
module CostTracker {
  import opened Text
  import opened Models

  datatype DailyUsage = DailyUsage(queries: int, inputTokens: int, outputTokens: int, costUsd: real, startedAt: string)

  /** The record a day key starts with. */
  function FreshUsage(now: string): DailyUsage {
    DailyUsage(0, 0, 0, 0.0, now)
  }

  /** The record `_get_today_usage` hands out for `today`: the stored one, or a fresh one. */
  function RecordFor(usage: map<string, DailyUsage>, today: string, now: string): (u: DailyUsage)
    ensures today !in usage ==> u.queries == 0 && u.inputTokens == 0 && u.outputTokens == 0 && u.costUsd == 0.0
    ensures today in usage ==> u == usage[today]
  {
    if today in usage then usage[today] else FreshUsage(now)
  }

  /** A removed day key starts again from zero; the other keys keep their records. */
  lemma RecordAfterRemoval(usage: map<string, DailyUsage>, today: string, day: string, now: string)
    ensures RecordFor(usage - {today}, today, now) == FreshUsage(now)
    ensures day != today ==> RecordFor(usage - {today}, day, now) == RecordFor(usage, day, now)
  {
  }

  // ----- `$x.2f` and the admission reasons -----

  /** A non-negative amount rounded to whole cents, ties to the even cent. */
  function RoundCents(x: real): (cents: nat)
    requires x >= 0.0
    ensures (cents as real) - 0.5 <= x * 100.0 <= (cents as real) + 0.5
  {
    var scaled := x * 100.0;
    var q := scaled.Floor;
    var frac := scaled - q as real;
    if frac > 0.5 || (frac == 0.5 && q % 2 == 1) then q + 1 else q
  }

  function TwoDigits(n: nat): string
    requires n < 100
  {
    [DigitChar(n / 10), DigitChar(n % 10)]
  }

  /** An amount printed with two decimals: the sign, the whole dollars, a dot and the cents, rounded on the exact value. */
  function FormatUsd(x: real): (r: string)
    ensures |r| >= 4 && r[|r| - 3] == '.' && IsDigit(r[|r| - 2]) && IsDigit(r[|r| - 1])
    ensures r[0] == '-' <==> x < 0.0
  {
    var sign := if x < 0.0 then "-" else "";
    var cents := RoundCents(if x < 0.0 then -x else x);
    sign + NatToString(cents / 100) + "." + TwoDigits(cents % 100)
  }

  /** An amount that is already a whole number of cents is printed exactly. */
  lemma FormatUsdExact(cents: nat)
    ensures FormatUsd(cents as real / 100.0) == NatToString(cents / 100) + "." + TwoDigits(cents % 100)
  {
    var x := cents as real / 100.0;
    RoundWholeCents(cents);
    assert !(x < 0.0);
    assert FormatUsd(x) == "" + NatToString(cents / 100) + "." + TwoDigits(cents % 100);
  }

  /** A whole number of cents rounds to itself. */
  lemma RoundWholeCents(cents: nat)
    ensures RoundCents(cents as real / 100.0) == cents
  {
    var x := cents as real / 100.0;
    assert x * 100.0 == cents as real;
    assert (x * 100.0).Floor == cents;
  }

  function QueryLimitReason(settings: Settings): string {
    "Daily query limit (" + IntToString(settings.maxDailyQueries) + ") reached. Try again tomorrow."
  }

  function CostLimitReason(settings: Settings): string {
    "Daily cost limit ($" + FormatUsd(settings.maxDailyCostUsd) + ") reached. Try again tomorrow."
  }

  /** The decision of `can_process_query` on a day's record: the query limit is checked before the cost limit. */
  function Admission(u: DailyUsage, settings: Settings): (r: (bool, string))
    ensures r.0 <==> u.queries < settings.maxDailyQueries && u.costUsd < settings.maxDailyCostUsd
    ensures u.queries >= settings.maxDailyQueries ==> r.1 == QueryLimitReason(settings)
    ensures u.queries < settings.maxDailyQueries && u.costUsd >= settings.maxDailyCostUsd ==> r.1 == CostLimitReason(settings)
    ensures r.0 ==> r.1 == "OK"
  {
    if u.queries >= settings.maxDailyQueries then (false, QueryLimitReason(settings))
    else if u.costUsd >= settings.maxDailyCostUsd then (false, CostLimitReason(settings))
    else (true, "OK")
  }

  /** The record after `track_query`. */
  function Tracked(u: DailyUsage, inputTokens: int, outputTokens: int, costUsd: real): (t: DailyUsage)
    ensures t.queries == u.queries + 1
    ensures t.inputTokens - u.inputTokens == inputTokens && t.outputTokens - u.outputTokens == outputTokens
    ensures t.costUsd - u.costUsd == costUsd && t.startedAt == u.startedAt
  {
    u.(queries := u.queries + 1, inputTokens := u.inputTokens + inputTokens,
       outputTokens := u.outputTokens + outputTokens, costUsd := u.costUsd + costUsd)
  }

  /** One answered query: tokens in, tokens out, cost. */
  datatype Query = Query(inputTokens: int, outputTokens: int, costUsd: real)

  function TrackAll(u: DailyUsage, qs: seq<Query>): (t: DailyUsage)
    ensures t.queries == u.queries + |qs|
    decreases |qs|
  {
    if qs == [] then u else TrackAll(Tracked(u, qs[0].inputTokens, qs[0].outputTokens, qs[0].costUsd), qs[1..])
  }

  predicate NonNegative(qs: seq<Query>) {
    forall i :: 0 <= i < |qs| ==> qs[i].inputTokens >= 0 && qs[i].outputTokens >= 0 && qs[i].costUsd >= 0.0
  }

  /** With non-negative inputs the counters never shrink, so the cost never drops. */
  lemma {:induction false} TrackAllGrows(u: DailyUsage, qs: seq<Query>)
    requires NonNegative(qs)
    ensures TrackAll(u, qs).costUsd >= u.costUsd
    ensures TrackAll(u, qs).inputTokens >= u.inputTokens && TrackAll(u, qs).outputTokens >= u.outputTokens
    decreases |qs|
  {
    if qs != [] {
      var next := Tracked(u, qs[0].inputTokens, qs[0].outputTokens, qs[0].costUsd);
      assert NonNegative(qs[1..]) by {
        forall i | 0 <= i < |qs[1..]| ensures qs[1..][i].costUsd >= 0.0 && qs[1..][i].inputTokens >= 0 && qs[1..][i].outputTokens >= 0 {
          assert qs[1..][i] == qs[i + 1];
        }
      }
      TrackAllGrows(next, qs[1..]);
    }
  }

  /** Once a day is denied it stays denied, whatever non-negative queries are tracked on it afterwards. */
  lemma DeniedStaysDenied(u: DailyUsage, qs: seq<Query>, settings: Settings)
    requires NonNegative(qs)
    requires !Admission(u, settings).0
    ensures !Admission(TrackAll(u, qs), settings).0
  {
    TrackAllGrows(u, qs);
  }

  /** The statistics `get_usage_stats` reports. */
  datatype UsageStats = UsageStats(period: string, queriesToday: int, totalTokensUsed: int, totalCostUsd: real, maxQueries: int, maxCostUsd: real)

  class Tracker {
    const settings: Settings
    var dailyUsage: map<string, DailyUsage>

    constructor(settings: Settings)
      ensures this.settings == settings && dailyUsage == map[]
    {
      this.settings := settings;
      dailyUsage := map[];
    }

    /** `_get_today_usage`: creates today's zero record on first access and returns the stored record. */
    method GetTodayUsage(today: string, now: string) returns (u: DailyUsage)
      modifies this
      ensures u == RecordFor(old(dailyUsage), today, now)
      ensures dailyUsage == old(dailyUsage)[today := u]
    {
      if today !in dailyUsage {
        dailyUsage := dailyUsage[today := FreshUsage(now)];
      }
      u := dailyUsage[today];
    }

    /** `can_process_query`: no counter changes; at most today's zero record appears. */
    method CanProcessQuery(today: string, now: string) returns (allowed: bool, reason: string)
      modifies this
      ensures (allowed, reason) == Admission(RecordFor(old(dailyUsage), today, now), settings)
      ensures dailyUsage == old(dailyUsage)[today := RecordFor(old(dailyUsage), today, now)]
    {
      var usage := GetTodayUsage(today, now);
      if usage.queries >= settings.maxDailyQueries {
        return false, QueryLimitReason(settings);
      }
      if usage.costUsd >= settings.maxDailyCostUsd {
        return false, CostLimitReason(settings);
      }
      return true, "OK";
    }

    /** `track_query`: today's record counts one more query and adds the given amounts. */
    method TrackQuery(today: string, now: string, inputTokens: int, outputTokens: int, costUsd: real) returns (u: DailyUsage)
      modifies this
      ensures u == Tracked(RecordFor(old(dailyUsage), today, now), inputTokens, outputTokens, costUsd)
      ensures dailyUsage == old(dailyUsage)[today := u]
    {
      var usage := GetTodayUsage(today, now);
      u := usage.(queries := usage.queries + 1, inputTokens := usage.inputTokens + inputTokens,
                  outputTokens := usage.outputTokens + outputTokens, costUsd := usage.costUsd + costUsd);
      dailyUsage := dailyUsage[today := u];
    }

    /** `get_usage_stats`: today's counters with the token total, and the configured limits. */
    method GetUsageStats(today: string, now: string) returns (stats: UsageStats)
      modifies this
      ensures var u := RecordFor(old(dailyUsage), today, now);
        stats == UsageStats(today, u.queries, u.inputTokens + u.outputTokens, u.costUsd,
                            settings.maxDailyQueries, settings.maxDailyCostUsd)
      ensures dailyUsage == old(dailyUsage)[today := RecordFor(old(dailyUsage), today, now)]
    {
      var usage := GetTodayUsage(today, now);
      stats := UsageStats(today, usage.queries, usage.inputTokens + usage.outputTokens, usage.costUsd,
                          settings.maxDailyQueries, settings.maxDailyCostUsd);
    }

    /** `reset_daily_usage`: forgets today's record only. */
    method ResetDailyUsage(today: string)
      modifies this
      ensures dailyUsage == old(dailyUsage) - {today}
    {
      if today in dailyUsage {
        dailyUsage := dailyUsage - {today};
      }
    }
  }
}
