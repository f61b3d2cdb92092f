/**
 * The counting rules of `database.ts`: the success/failure split of completed
 * missions and the preferred risk level and the most common failure rounds
 * reported by `getUserAnalytics`, and the advice of
 * `getMissionProgressionSuggestions`.
 *
 * The records are given as values: fetching them is not modelled.
 */
module MissionAnalytics {
  import opened Wrappers
  import opened MissionRecords

  // ---------------------------------------------------------------------------
  // Successful and failed missions

  function SuccessfulMissions(missions: seq<MissionSession>): seq<MissionSession> {
    if missions == [] then []
    else (if IsSuccessful(missions[0].missionOutcome) then [missions[0]] else [])
         + SuccessfulMissions(missions[1..])
  }

  function FailedMissions(missions: seq<MissionSession>): seq<MissionSession> {
    if missions == [] then []
    else (if IsFailed(missions[0].missionOutcome) then [missions[0]] else [])
         + FailedMissions(missions[1..])
  }

  /** Missions that have no outcome recorded. */
  function MissionsWithoutOutcome(missions: seq<MissionSession>): seq<MissionSession> {
    if missions == [] then []
    else (if missions[0].missionOutcome.None? then [missions[0]] else [])
         + MissionsWithoutOutcome(missions[1..])
  }

  /**
   * Every mission is counted exactly once: as successful, as failed, or as one
   * without an outcome.
   */
  lemma {:induction false} MissionsPartition(missions: seq<MissionSession>)
    ensures |SuccessfulMissions(missions)| + |FailedMissions(missions)| + |MissionsWithoutOutcome(missions)|
            == |missions|
    decreases |missions|
  {
    if missions != [] {
      MissionsPartition(missions[1..]);
      OutcomePartition(missions[0].missionOutcome);
    }
  }

  // ---------------------------------------------------------------------------
  // Preferred risk level

  /** Number of decisions assessed at `risk`. */
  function CountRisk(decisions: seq<UserDecision>, risk: Risk): (n: nat)
    ensures n <= |decisions|
  {
    if decisions == [] then 0
    else CountRisk(decisions[..|decisions| - 1], risk)
         + (if decisions[|decisions| - 1].riskAssessment == Some(risk) then 1 else 0)
  }

  /** Every decision is assessed at `risk` exactly when all of them count. */
  lemma {:induction false} CountRiskAll(decisions: seq<UserDecision>, risk: Risk)
    ensures CountRisk(decisions, risk) == |decisions|
            <==> forall i :: 0 <= i < |decisions| ==> decisions[i].riskAssessment == Some(risk)
    decreases |decisions|
  {
    if decisions != [] {
      var init := decisions[..|decisions| - 1];
      CountRiskAll(init, risk);
      assert forall i :: 0 <= i < |init| ==> init[i] == decisions[i];
    }
  }

  /**
   * `reduce` over the entries LOW, MEDIUM, HIGH: the running winner is kept
   * only while its count is strictly greater, so later entries win ties.
   */
  function PreferredRisk(low: nat, medium: nat, high: nat): Risk {
    var first := if low > medium then LOW else MEDIUM;
    var firstCount := if low > medium then low else medium;
    if firstCount > high then first else HIGH
  }

  function CountOf(risk: Risk, low: nat, medium: nat, high: nat): nat {
    match risk
    case LOW => low
    case MEDIUM => medium
    case HIGH => high
  }

  /**
   * The preferred risk has the largest count; ties go to the later level:
   * LOW only when it beats both others, HIGH whenever it is at least as large
   * as both.
   */
  lemma PreferredRiskCases(low: nat, medium: nat, high: nat)
    ensures var r := PreferredRisk(low, medium, high);
      var n := CountOf(r, low, medium, high);
      n >= low && n >= medium && n >= high
      && (r == LOW <==> low > medium && low > high)
      && (r == MEDIUM <==> medium >= low && medium > high)
      && (r == HIGH <==> high >= low && high >= medium)
  {
  }

  /** The risk-preference part of `getUserAnalytics`. */
  method RiskPreference(decisions: seq<UserDecision>) returns (preferred: Risk)
    ensures preferred == PreferredRisk(
      CountRisk(decisions, LOW), CountRisk(decisions, MEDIUM), CountRisk(decisions, HIGH))
  {
    var riskCounts: map<Risk, nat> := map[LOW := 0, MEDIUM := 0, HIGH := 0];
    assert forall r: Risk :: r in riskCounts by {
      forall r: Risk
        ensures r in riskCounts
      {
        match r {
          case LOW =>
          case MEDIUM =>
          case HIGH =>
        }
      }
    }
    var i := 0;
    while i < |decisions|
      invariant 0 <= i <= |decisions|
      invariant forall r: Risk :: r in riskCounts
      invariant forall r: Risk :: riskCounts[r] == CountRisk(decisions[..i], r)
    {
      assert decisions[..i + 1][..i] == decisions[..i];
      var assessed := decisions[i].riskAssessment;
      if assessed.Some? {
        riskCounts := riskCounts[assessed.value := riskCounts[assessed.value] + 1];
      }
      i := i + 1;
    }
    assert decisions[..i] == decisions;
    preferred := PreferredRisk(riskCounts[LOW], riskCounts[MEDIUM], riskCounts[HIGH]);
  }

  // ---------------------------------------------------------------------------
  // Most common failure points

  function DigitChar(d: nat): char
    requires d < 10
  {
    ('0' as int + d) as char
  }

  /** The decimal form of `n`, as a template literal prints it. */
  function Decimal(n: nat): string
    decreases n
  {
    if n < 10 then [DigitChar(n)] else Decimal(n / 10) + [DigitChar(n % 10)]
  }

  /** The key a failed mission is counted under. */
  function RoundLabel(round: nat): string {
    "Round " + Decimal(round)
  }

  /** Labels of the rounds the failed missions ended in, in mission order. */
  function FailureRounds(missions: seq<MissionSession>): (labels: seq<string>)
    ensures |labels| == |FailedMissions(missions)|
    ensures forall i :: 0 <= i < |labels| ==> labels[i] == RoundLabel(FailedMissions(missions)[i].currentRound)
  {
    if missions == [] then []
    else (if IsFailed(missions[0].missionOutcome) then [RoundLabel(missions[0].currentRound)] else [])
         + FailureRounds(missions[1..])
  }

  /** Number of times `x` occurs in `s`. */
  function Occurrences(s: seq<string>, x: string): nat {
    if s == [] then 0
    else Occurrences(s[..|s| - 1], x) + (if s[|s| - 1] == x then 1 else 0)
  }

  /** The distinct elements of `s` in order of first occurrence: the key order of the counting object. */
  function FirstOccurrences(s: seq<string>): (keys: seq<string>)
    ensures forall x :: x in keys <==> x in s
    ensures forall i, j :: 0 <= i < j < |keys| ==> keys[i] != keys[j]
  {
    if s == [] then []
    else
      var keys := FirstOccurrences(s[..|s| - 1]);
      assert forall x :: x in s <==> x in s[..|s| - 1] || x == s[|s| - 1];
      if s[|s| - 1] in keys then keys else keys + [s[|s| - 1]]
  }

  /** Appending one element to a list: how its first occurrences and counts change. */
  lemma AppendOne(prefix: seq<string>, x: string)
    ensures FirstOccurrences(prefix + [x])
            == if x in FirstOccurrences(prefix) then FirstOccurrences(prefix) else FirstOccurrences(prefix) + [x]
    ensures forall y :: Occurrences(prefix + [x], y) == Occurrences(prefix, y) + (if x == y then 1 else 0)
  {
    assert (prefix + [x])[..|prefix|] == prefix;
  }

  lemma {:induction false} OccurrencesAbsent(s: seq<string>, x: string)
    requires x !in s
    ensures Occurrences(s, x) == 0
    decreases |s|
  {
    if s != [] {
      assert forall y :: y in s[..|s| - 1] ==> y in s;
      OccurrencesAbsent(s[..|s| - 1], x);
    }
  }

  /** The counting object: its keys in insertion order and the count under each key. */
  datatype Tally = Tally(order: seq<string>, count: map<string, nat>)

  /** `tally` is the counting object after the labels `s`. */
  ghost predicate Counts(tally: Tally, s: seq<string>) {
    && tally.order == FirstOccurrences(s)
    && (forall x :: x in tally.count <==> x in tally.order)
    && (forall x :: x in tally.count ==> tally.count[x] == Occurrences(s, x))
  }

  /** `failurePointCounts[round] = (failurePointCounts[round] || 0) + 1`. */
  function CountOne(tally: Tally, round: string): Tally {
    var previous := if round in tally.count then tally.count[round] else 0;
    var order := if round in tally.count then tally.order else tally.order + [round];
    Tally(order, tally.count[round := previous + 1])
  }

  /** Counting one more label keeps the tally in step with the labels seen. */
  lemma CountOneStep(tally: Tally, s: seq<string>, round: string)
    requires Counts(tally, s)
    ensures Counts(CountOne(tally, round), s + [round])
  {
    AppendOne(s, round);
    var next := CountOne(tally, round);
    if round !in tally.count {
      OccurrencesAbsent(s, round);
      assert next.count[round] == Occurrences(s + [round], round);
    }
    assert forall x :: x in next.count ==> next.count[x] == Occurrences(s + [round], x);
  }

  /** `failureRounds.forEach(...)`: one count per label, keys in first-occurrence order. */
  method CountFailurePoints(rounds: seq<string>) returns (tally: Tally)
    ensures tally.order == FirstOccurrences(rounds)
    ensures forall x :: x in tally.count <==> x in rounds
    ensures forall x :: x in tally.count ==> tally.count[x] == Occurrences(rounds, x)
  {
    tally := Tally([], map[]);
    var i := 0;
    while i < |rounds|
      invariant 0 <= i <= |rounds|
      invariant Counts(tally, rounds[..i])
    {
      var round := rounds[i];
      assert rounds[..i + 1] == rounds[..i] + [round];
      CountOneStep(tally, rounds[..i], round);
      tally := CountOne(tally, round);
      i := i + 1;
    }
    assert rounds[..i] == rounds;
  }

  datatype Entry = Entry(key: string, count: nat)

  /** No key is listed twice, as in the entries of an object. */
  predicate DistinctKeys(s: seq<Entry>) {
    forall i, j :: 0 <= i < j < |s| ==> s[i].key != s[j].key
  }

  /** `Object.entries` of the counting object of `rounds`. */
  function FailureEntries(rounds: seq<string>): (entries: seq<Entry>)
    ensures forall e :: e in entries ==> e.key in rounds && e.count == Occurrences(rounds, e.key)
    ensures forall x :: x in rounds ==> Entry(x, Occurrences(rounds, x)) in entries
    ensures DistinctKeys(entries)
  {
    var keys := FirstOccurrences(rounds);
    var entries := seq(|keys|, i requires 0 <= i < |keys| => Entry(keys[i], Occurrences(rounds, keys[i])));
    assert forall x :: x in rounds ==> Entry(x, Occurrences(rounds, x)) in entries by {
      forall x | x in rounds
        ensures Entry(x, Occurrences(rounds, x)) in entries
      {
        var i :| 0 <= i < |keys| && keys[i] == x;
        assert entries[i] == Entry(x, Occurrences(rounds, x));
      }
    }
    entries
  }

  /**
   * Insert `e` in front of the first entry whose count is not larger. `e` comes
   * before all of `sorted` in the input, so putting it ahead of equal counts
   * keeps the sort stable.
   */
  function InsertByCount(e: Entry, sorted: seq<Entry>): (r: seq<Entry>)
    ensures multiset(r) == multiset(sorted) + multiset{e}
    decreases |sorted|
  {
    if sorted == [] || e.count >= sorted[0].count then [e] + sorted
    else
      assert sorted == [sorted[0]] + sorted[1..];
      [sorted[0]] + InsertByCount(e, sorted[1..])
  }

  /** Every count in the insertion result is bounded by what bounds `e` and `sorted`. */
  lemma InsertByCountBounded(e: Entry, sorted: seq<Entry>, bound: nat)
    requires e.count <= bound && forall i :: 0 <= i < |sorted| ==> sorted[i].count <= bound
    ensures forall i :: 0 <= i < |InsertByCount(e, sorted)| ==> InsertByCount(e, sorted)[i].count <= bound
  {
    var r := InsertByCount(e, sorted);
    forall i | 0 <= i < |r|
      ensures r[i].count <= bound
    {
      assert r[i] in multiset(r);
      if r[i] != e {
        assert r[i] in multiset(sorted);
      }
    }
  }

  /** A stable sort by descending count: `.sort(([,a], [,b]) => b - a)`. */
  function SortByCount(entries: seq<Entry>): (sorted: seq<Entry>)
    ensures multiset(sorted) == multiset(entries)
  {
    if entries == [] then []
    else
      assert entries == [entries[0]] + entries[1..];
      InsertByCount(entries[0], SortByCount(entries[1..]))
  }

  /** Every entry of the insertion result is `e` or comes from `sorted`. */
  lemma InsertByCountFrom(e: Entry, sorted: seq<Entry>, x: Entry)
    requires x in InsertByCount(e, sorted)
    ensures x == e || exists k :: 0 <= k < |sorted| && sorted[k] == x
  {
    assert x in multiset(InsertByCount(e, sorted));
  }

  /** Inserting an entry whose key is new keeps the keys distinct. */
  lemma {:induction false} InsertByCountDistinct(e: Entry, sorted: seq<Entry>)
    requires DistinctKeys(sorted)
    requires forall k :: 0 <= k < |sorted| ==> sorted[k].key != e.key
    ensures DistinctKeys(InsertByCount(e, sorted))
    decreases |sorted|
  {
    if sorted != [] && e.count < sorted[0].count {
      var tail := sorted[1..];
      var rest := InsertByCount(e, tail);
      InsertByCountDistinct(e, tail);
      forall j | 0 <= j < |rest|
        ensures rest[j].key != sorted[0].key
      {
        InsertByCountFrom(e, tail, rest[j]);
        if rest[j] != e {
          var k :| 0 <= k < |tail| && tail[k] == rest[j];
          assert sorted[k + 1] == rest[j];
        }
      }
      var r := [sorted[0]] + rest;
      forall i, j | 0 <= i < j < |r|
        ensures r[i].key != r[j].key
      {
        assert r[j] == rest[j - 1];
        if i > 0 {
          assert r[i] == rest[i - 1];
        }
      }
    }
  }

  /** The sort keeps the keys distinct. */
  lemma {:induction false} SortByCountDistinct(entries: seq<Entry>)
    requires DistinctKeys(entries)
    ensures DistinctKeys(SortByCount(entries))
    decreases |entries|
  {
    if entries != [] {
      var tail := entries[1..];
      var sortedTail := SortByCount(tail);
      SortByCountDistinct(tail);
      forall k | 0 <= k < |sortedTail|
        ensures sortedTail[k].key != entries[0].key
      {
        assert sortedTail[k] in multiset(tail);
        var m :| 0 <= m < |tail| && tail[m] == sortedTail[k];
        assert entries[m + 1] == sortedTail[k];
      }
      InsertByCountDistinct(entries[0], sortedTail);
    }
  }

  predicate CountsDescending(s: seq<Entry>) {
    forall i, j :: 0 <= i < j < |s| ==> s[i].count >= s[j].count
  }

  lemma {:induction false} InsertByCountSorted(e: Entry, sorted: seq<Entry>)
    requires CountsDescending(sorted)
    ensures CountsDescending(InsertByCount(e, sorted))
    decreases |sorted|
  {
    if sorted != [] && e.count < sorted[0].count {
      var tail := sorted[1..];
      var rest := InsertByCount(e, tail);
      InsertByCountSorted(e, tail);
      InsertByCountBounded(e, tail, sorted[0].count);
      var r := [sorted[0]] + rest;
      forall i, j | 0 <= i < j < |r|
        ensures r[i].count >= r[j].count
      {
        if i > 0 {
          assert r[i] == rest[i - 1] && r[j] == rest[j - 1];
        } else {
          assert r[j] == rest[j - 1];
        }
      }
    }
  }

  /** The sort orders by descending count and keeps every entry. */
  lemma {:induction false} SortByCountSorted(entries: seq<Entry>)
    ensures CountsDescending(SortByCount(entries))
    decreases |entries|
  {
    if entries != [] {
      SortByCountSorted(entries[1..]);
      InsertByCountSorted(entries[0], SortByCount(entries[1..]));
    }
  }

  /** `.slice(0, 3).map(([round]) => round)` after the sort. */
  function TopKeys(sorted: seq<Entry>): seq<string> {
    var top := if |sorted| <= 3 then sorted else sorted[..3];
    seq(|top|, i requires 0 <= i < |top| => top[i].key)
  }

  /** The most common failure points of a list of round labels. */
  function CommonFailurePoints(rounds: seq<string>): seq<string> {
    TopKeys(SortByCount(FailureEntries(rounds)))
  }

  /** The failure-point part of `getUserAnalytics`. */
  method MostCommonFailurePoints(missions: seq<MissionSession>) returns (points: seq<string>)
    ensures points == CommonFailurePoints(FailureRounds(missions))
  {
    var failureRounds := FailureRounds(missions);
    var tally := CountFailurePoints(failureRounds);
    var entries := seq(|tally.order|, i requires 0 <= i < |tally.order| =>
      Entry(tally.order[i], if tally.order[i] in tally.count then tally.count[tally.order[i]] else 0));
    assert entries == FailureEntries(failureRounds);
    points := TopKeys(SortByCount(entries));
  }

  /** The keys kept from a sorted list are its first three; an entry left out counts no more than any kept one. */
  lemma TopKeysOfSorted(sorted: seq<Entry>)
    requires CountsDescending(sorted)
    ensures var points := TopKeys(sorted);
      |points| == (if |sorted| <= 3 then |sorted| else 3)
      && (forall i :: 0 <= i < |points| ==> points[i] == sorted[i].key)
      && (DistinctKeys(sorted) ==> forall i, j :: 0 <= i < j < |points| ==> points[i] != points[j])
      && forall k :: 0 <= k < |sorted| && sorted[k].key !in points ==>
           |points| == 3 && forall i :: 0 <= i < 3 ==> sorted[i].count >= sorted[k].count
  {
  }

  /**
   * At most three failure points are reported, each a round some failed
   * mission ended in and none twice, in non-increasing order of failures; a round left out
   * failed no more often than any reported one, and only when three are reported.
   */
  lemma FailurePointsRanked(rounds: seq<string>)
    ensures var points := CommonFailurePoints(rounds);
      |points| <= 3
      && (forall p :: p in points ==> p in rounds)
      && (forall i, j :: 0 <= i < j < |points| ==> points[i] != points[j])
      && (forall i, j :: 0 <= i < j < |points| ==> Occurrences(rounds, points[i]) >= Occurrences(rounds, points[j]))
      && (forall x :: x in rounds && x !in points ==>
            |points| == 3 && forall p :: p in points ==> Occurrences(rounds, x) <= Occurrences(rounds, p))
  {
    var sorted := SortByCount(FailureEntries(rounds));
    SortByCountSorted(FailureEntries(rounds));
    SortByCountDistinct(FailureEntries(rounds));
    TopKeysOfSorted(sorted);
    SortedFailureEntries(rounds);
  }

  /** The sorted entries are exactly one per label, each with its number of occurrences. */
  lemma SortedFailureEntries(rounds: seq<string>)
    ensures var sorted := SortByCount(FailureEntries(rounds));
      (forall i :: 0 <= i < |sorted| ==> sorted[i].key in rounds && sorted[i].count == Occurrences(rounds, sorted[i].key))
      && forall x :: x in rounds ==> exists k :: 0 <= k < |sorted| && sorted[k] == Entry(x, Occurrences(rounds, x))
  {
    var entries := FailureEntries(rounds);
    var sorted := SortByCount(entries);
    forall i | 0 <= i < |sorted|
      ensures sorted[i].key in rounds && sorted[i].count == Occurrences(rounds, sorted[i].key)
    {
      assert sorted[i] in multiset(entries);
    }
    forall x | x in rounds
      ensures exists k :: 0 <= k < |sorted| && sorted[k] == Entry(x, Occurrences(rounds, x))
    {
      assert Entry(x, Occurrences(rounds, x)) in multiset(sorted);
    }
  }

  // ---------------------------------------------------------------------------
  // Progression suggestions

  datatype Suggestion = BeMoreCautious | BeMoreDecisive | PrepareForResolution

  /** The advice text the source pushes. */
  function SuggestionText(s: Suggestion): string {
    match s
    case BeMoreCautious => "Consider more cautious approaches to avoid escalation"
    case BeMoreDecisive => "Mission timeline critical - consider more decisive action"
    case PrepareForResolution => "Mission entering critical phase - prepare for resolution"
  }

  /** Position of each suggestion in the list the source builds. */
  function SuggestionRank(s: Suggestion): nat {
    match s
    case BeMoreCautious => 0
    case BeMoreDecisive => 1
    case PrepareForResolution => 2
  }

  /** `decisions.slice(-3)`. */
  function RecentDecisions(decisions: seq<UserDecision>): (recent: seq<UserDecision>)
    ensures |recent| == if |decisions| <= 3 then |decisions| else 3
    ensures recent == decisions[|decisions| - |recent|..]
  {
    if |decisions| <= 3 then decisions else decisions[|decisions| - 3..]
  }

  predicate RepeatedHighRisk(decisions: seq<UserDecision>) {
    CountRisk(RecentDecisions(decisions), HIGH) >= 2
  }

  predicate RepeatedLowRisk(decisions: seq<UserDecision>) {
    CountRisk(RecentDecisions(decisions), LOW) >= 3
  }

  /** `current_round > max_rounds * 0.7`, in whole numbers. */
  predicate PastSeventyPercent(session: MissionSession) {
    10 * session.currentRound > 7 * session.maxRounds
  }

  /** `current_round / max_rounds > 0.8`, in whole numbers. */
  predicate PastEightyPercent(session: MissionSession) {
    10 * session.currentRound > 8 * session.maxRounds
  }

  /** Repeated low risk means the last three decisions, and there are at least three, were all LOW. */
  lemma RepeatedLowRiskMeans(decisions: seq<UserDecision>)
    ensures RepeatedLowRisk(decisions)
            <==> |decisions| >= 3
                 && forall i :: |decisions| - 3 <= i < |decisions| ==> decisions[i].riskAssessment == Some(LOW)
  {
    var recent := RecentDecisions(decisions);
    CountRiskAll(recent, LOW);
    if |decisions| >= 3 {
      assert forall i :: |decisions| - 3 <= i < |decisions| ==> decisions[i] == recent[i - (|decisions| - 3)];
    }
  }

  /** `getMissionProgressionSuggestions` on a fetched session and its decisions in round order. */
  method ProgressionSuggestions(session: Option<MissionSession>, decisions: seq<UserDecision>)
    returns (suggestions: seq<Suggestion>)
    ensures session.None? || decisions == [] ==> suggestions == []
    ensures session.Some? && decisions != [] ==>
      var s := session.value;
      (BeMoreCautious in suggestions <==>
         RepeatedHighRisk(decisions) && decisions[|decisions| - 1].threatLevelAfter != "RED")
      && (BeMoreDecisive in suggestions <==> RepeatedLowRisk(decisions) && PastSeventyPercent(s))
      && (PrepareForResolution in suggestions <==> PastEightyPercent(s) && !s.isCompleted)
      && |suggestions| ==
           (if RepeatedHighRisk(decisions) && decisions[|decisions| - 1].threatLevelAfter != "RED" then 1 else 0)
           + (if RepeatedLowRisk(decisions) && PastSeventyPercent(s) then 1 else 0)
           + (if PastEightyPercent(s) && !s.isCompleted then 1 else 0)
    ensures forall i, j :: 0 <= i < j < |suggestions| ==> SuggestionRank(suggestions[i]) < SuggestionRank(suggestions[j])
  {
    suggestions := [];
    if session.None? || decisions == [] {
      return;
    }
    var s := session.value;
    var currentThreat := decisions[|decisions| - 1].threatLevelAfter;
    var recent := RecentDecisions(decisions);
    var hasRepeatedHighRisk := CountRisk(recent, HIGH) >= 2;
    var hasRepeatedLowRisk := CountRisk(recent, LOW) >= 3;
    if hasRepeatedHighRisk && currentThreat != "RED" {
      suggestions := suggestions + [BeMoreCautious];
    }
    if hasRepeatedLowRisk && 10 * s.currentRound > 7 * s.maxRounds {
      suggestions := suggestions + [BeMoreDecisive];
    }
    if 10 * s.currentRound > 8 * s.maxRounds && !s.isCompleted {
      suggestions := suggestions + [PrepareForResolution];
    }
  }

  /**
   * Advice for a session just created, at round 0: its timeline and its phase
   * are never critical, so the only possible advice is to be more cautious.
   */
  method NewSessionSuggestions(request: SessionRequest, decisions: seq<UserDecision>)
    returns (suggestions: seq<Suggestion>)
    ensures suggestions ==
      if decisions != [] && RepeatedHighRisk(decisions) && decisions[|decisions| - 1].threatLevelAfter != "RED"
      then [BeMoreCautious] else []
  {
    suggestions := ProgressionSuggestions(Some(NewMissionSession(request)), decisions);
    if |suggestions| == 1 {
      assert suggestions[0] in suggestions;
    }
  }
}
