/** The ledger goal strategy: rounds that start fresh, told every earlier report,
    until a verdict, a failure or the spend cap ends them. */
module GoalLedger {
  import opened Wrappers

  datatype Status = Continue | Done | NeedsUser
  datatype Verdict = Verdict(status: Status, report: string)

  /** One `self` call's outcome: a reply with the spend so far, or a failure. */
  datatype Round =
    | Replied(spent: real, structured: Option<Verdict>, response: string)
    | Failed(name: string, message: string)

  datatype Pause =
    | RoundFailed(name: string, message: string)
    | NoVerdict(response: string)
    | UserNeeded
    | SpendCap(maxCostUsd: real)

  datatype GoalResult =
    | Completed(rounds: nat, spent: real, report: string)
    | Paused(pause: Pause, rounds: nat, spent: real, report: string)

  /** What a round's `self` call is told. */
  datatype Prompt = Prompt(round: nat, objective: string, earlier: seq<string>)

  /** Ended, or waiting for the reply of the round last started. */
  datatype Progress = Ended(result: GoalResult) | Waiting

  // ----- the rounds, read one by one -----

  /** The spend known once the first `n` rounds are answered. */
  function SpentBy(rounds: seq<Round>, n: nat): real
    requires n <= |rounds|
  {
    if n > 0 && rounds[n - 1].Replied? then rounds[n - 1].spent else 0.0
  }

  predicate GoesOn(round: Round, maxCostUsd: real) {
    && round.Replied?
    && round.structured.Some?
    && round.structured.value.status.Continue?
    && !(maxCostUsd > 0.0 && round.spent >= maxCostUsd)
  }

  ghost predicate AllGoOn(rounds: seq<Round>, n: nat, maxCostUsd: real)
    requires n <= |rounds|
  {
    forall j | 0 <= j < n :: GoesOn(rounds[j], maxCostUsd)
  }

  /** The reports of the first `n` rounds, in order. */
  function Reports(rounds: seq<Round>, n: nat): seq<string>
    requires n <= |rounds| && forall j | 0 <= j < n :: rounds[j].Replied? && rounds[j].structured.Some?
  {
    seq(n, j requires 0 <= j < n => rounds[j].structured.value.report)
  }

  function Latest(reports: seq<string>): string {
    if reports == [] then "" else reports[|reports| - 1]
  }

  /** How round `i` (from 0) ends the run when all before it went on. A failed
      or empty-handed round reports the latest report held. */
  function EndingAt(rounds: seq<Round>, i: nat, maxCostUsd: real): GoalResult
    requires i < |rounds| && !GoesOn(rounds[i], maxCostUsd)
    requires forall j | 0 <= j < i :: rounds[j].Replied? && rounds[j].structured.Some?
  {
    var held := Latest(Reports(rounds, i));
    match rounds[i]
    case Failed(name, message) => Paused(RoundFailed(name, message), i + 1, SpentBy(rounds, i), held)
    case Replied(spent, None, response) => Paused(NoVerdict(response), i + 1, spent, held)
    case Replied(spent, Some(Verdict(Done, report)), _) => Completed(i + 1, spent, report)
    case Replied(spent, Some(Verdict(NeedsUser, report)), _) => Paused(UserNeeded, i + 1, spent, report)
    case Replied(spent, Some(Verdict(Continue, report)), _) =>
      Paused(SpendCap(maxCostUsd), i + 1, spent, report)
  }

  // ----- the loop -----

  /** Runs the goal over the outcomes its `self` calls have had so far. Every
      round started was started with all earlier verdicts `continue`, the spend
      under a positive cap and every earlier report in order; the rounds a
      result names are the `self` calls made. */
  method RunGoal(objective: string, maxCostUsd: real, rounds: seq<Round>)
    returns (progress: Progress, prompts: seq<Prompt>)
    ensures 0 < |prompts| <= |rounds| + 1
    ensures AllGoOn(rounds, |prompts| - 1, maxCostUsd)
    ensures forall r | 0 <= r < |prompts| :: prompts[r] == Prompt(r + 1, objective, Reports(rounds, r))
    ensures progress.Waiting? <==> |prompts| == |rounds| + 1
    ensures progress.Ended? ==>
              && !GoesOn(rounds[|prompts| - 1], maxCostUsd)
              && progress.result == EndingAt(rounds, |prompts| - 1, maxCostUsd)
              && progress.result.rounds == |prompts|
  {
    var ledger: seq<string> := [];
    var spent := 0.0;
    prompts := [];
    for round := 1 to |rounds| + 1
      invariant |prompts| == round - 1
      invariant AllGoOn(rounds, round - 1, maxCostUsd)
      invariant ledger == Reports(rounds, round - 1)
      invariant spent == SpentBy(rounds, round - 1)
      invariant forall r | 0 <= r < round - 1 :: prompts[r] == Prompt(r + 1, objective, Reports(rounds, r))
    {
      prompts := prompts + [Prompt(round, objective, ledger)];
      var reply := rounds[round - 1];
      if reply.Failed? {
        return Ended(Paused(RoundFailed(reply.name, reply.message), round, spent, Latest(ledger))), prompts;
      }
      spent := reply.spent;
      if reply.structured.None? {
        return Ended(Paused(NoVerdict(reply.response), round, spent, Latest(ledger))), prompts;
      }
      ledger := ledger + [reply.structured.value.report];
      if reply.structured.value.status == Done {
        return Ended(Completed(round, spent, Latest(ledger))), prompts;
      }
      if reply.structured.value.status == NeedsUser {
        return Ended(Paused(UserNeeded, round, spent, Latest(ledger))), prompts;
      }
      if maxCostUsd > 0.0 && spent >= maxCostUsd {
        return Ended(Paused(SpendCap(maxCostUsd), round, spent, Latest(ledger))), prompts;
      }
    }
    prompts := prompts + [Prompt(|rounds| + 1, objective, ledger)];
    progress := Waiting;
  }

  /** What ends a run how: a failed call, a reply without a verdict, a verdict,
      or the cap after one that said to continue. The spend is the last one a
      reply gave, the report the last one a verdict gave. */
  lemma EndingMeans(rounds: seq<Round>, i: nat, maxCostUsd: real)
    requires i < |rounds| && AllGoOn(rounds, i, maxCostUsd) && !GoesOn(rounds[i], maxCostUsd)
    ensures var end, last := EndingAt(rounds, i, maxCostUsd), rounds[i];
            var judged := last.Replied? && last.structured.Some?;
            && end.rounds == i + 1
            && (end.Completed? <==> judged && last.structured.value.status == Done)
            && (end.Paused? ==>
                  match end.pause
                  case RoundFailed(name, message) => last == Failed(name, message)
                  case NoVerdict(response) => last.Replied? && last.structured.None? && last.response == response
                  case UserNeeded => judged && last.structured.value.status == NeedsUser
                  case SpendCap(cap) => judged && last.structured.value.status == Continue && cap == maxCostUsd)
            && end.spent == (if last.Replied? then last.spent else if i == 0 then 0.0 else rounds[i - 1].spent)
            && end.report == (if judged then last.structured.value.report
                              else if i == 0 then "" else rounds[i - 1].structured.value.report)
  {
    if i > 0 {
      assert GoesOn(rounds[i - 1], maxCostUsd);
      assert Reports(rounds, i)[i - 1] == rounds[i - 1].structured.value.report;
    }
  }

  // ----- the cap -----

  /** Each round costs at least `delta` more than was spent before it. */
  ghost predicate EachCosts(rounds: seq<Round>, delta: real) {
    forall n | 0 < n <= |rounds| && rounds[n - 1].Replied? :: SpentBy(rounds, n) >= SpentBy(rounds, n - 1) + delta
  }

  lemma {:induction false} SpendGrows(rounds: seq<Round>, n: nat, maxCostUsd: real, delta: real)
    requires n <= |rounds| && AllGoOn(rounds, n, maxCostUsd) && EachCosts(rounds, delta)
    ensures SpentBy(rounds, n) >= n as real * delta
  {
    if n > 0 {
      SpendGrows(rounds, n - 1, maxCostUsd, delta);
      assert rounds[n - 1].Replied?;
    }
  }

  /** Under a positive cap, when every round costs at least `delta`, the rounds
      a run goes on past are fewer than it takes `delta` to reach the cap. */
  lemma CapBounds(rounds: seq<Round>, n: nat, maxCostUsd: real, delta: real)
    requires maxCostUsd > 0.0 && EachCosts(rounds, delta)
    requires n <= |rounds| && AllGoOn(rounds, n, maxCostUsd)
    ensures n as real * delta < maxCostUsd
  {
    SpendGrows(rounds, n, maxCostUsd, delta);
    if n > 0 {
      assert GoesOn(rounds[n - 1], maxCostUsd);
    }
  }

  /** So the run halts: given as many outcomes as it takes `delta` to reach the
      cap, some round among them does not go on. */
  lemma CapHalts(rounds: seq<Round>, maxCostUsd: real, delta: real)
    requires maxCostUsd > 0.0 && delta > 0.0 && EachCosts(rounds, delta)
    requires |rounds| as real * delta >= maxCostUsd
    ensures exists i :: 0 <= i < |rounds| && !GoesOn(rounds[i], maxCostUsd)
  {
    if AllGoOn(rounds, |rounds|, maxCostUsd) {
      CapBounds(rounds, |rounds|, maxCostUsd, delta);
    }
  }

  /** Of whatever `RunGoal` returns: the rounds gone on past are fewer than it
      takes `delta` to reach the cap, and with that many outcomes it has ended. */
  lemma {:induction false} CappedRunEnds(
    maxCostUsd: real, rounds: seq<Round>, progress: Progress, prompts: seq<Prompt>, delta: real)
    requires 0 < |prompts| <= |rounds| + 1 && AllGoOn(rounds, |prompts| - 1, maxCostUsd)
    requires progress.Waiting? <==> |prompts| == |rounds| + 1
    requires maxCostUsd > 0.0 && delta > 0.0 && EachCosts(rounds, delta)
    ensures (|prompts| - 1) as real * delta < maxCostUsd
    ensures |rounds| as real * delta >= maxCostUsd ==> progress.Ended? && |prompts| <= |rounds|
  {
    CapBounds(rounds, |prompts| - 1, maxCostUsd, delta);
  }

  /** A run pauses at the cap with the cap spent, by no more than its last
      round cost. */
  lemma CapOverrun(rounds: seq<Round>, i: nat, maxCostUsd: real)
    requires i < |rounds| && AllGoOn(rounds, i, maxCostUsd) && !GoesOn(rounds[i], maxCostUsd)
    requires var end := EndingAt(rounds, i, maxCostUsd); end.Paused? && end.pause.SpendCap?
    ensures var end := EndingAt(rounds, i, maxCostUsd);
            && 0.0 < maxCostUsd <= end.spent
            && end.spent < maxCostUsd + (SpentBy(rounds, i + 1) - SpentBy(rounds, i))
  {
  }
}
