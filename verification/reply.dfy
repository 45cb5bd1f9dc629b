/** The retry controller (app.py, `kelly_reply`): try each model with each
    of three paraphrases, model by model, within an attempt budget; the
    first attempt that yields text wins, and when none does the local poem
    is returned.

    The remote generation call is not part of this model. It is the
    parameter `remote`: `remote(k)` is the outcome of the `k`-th call
    (counting from 0), either a raised exception or a response. Because the
    sequence of requests is fixed by the inputs, every behaviour of the
    remote service is some such function. The sleeps are returned as the
    list of their durations in milliseconds. */
module Reply {
  import opened Wrappers
  import opened Strings
  import opened Extraction
  import opened Fallback

  /** The persona preamble, as `KELLY_SYSTEM_PROMPT.strip()` leaves it: the
      literal without its leading and trailing newline. */
  const KellySystem := "You are Kelly — an analytical poet and scientist. Answer in the form of a short poem.\nStyle: skeptical, analytical, professional. Include one or two practical suggestions or steps.\nKeep lines concise and clear; avoid hype and be evidence-minded."

  /** The fast model, tried after the chosen one unless that one is already fast. */
  const FlashLatest := "models/gemini-flash-latest"

  /** The marker of a fast model identifier. */
  const FastMarker := "flash"

  /** The finish reason the controller treats as a safety block. */
  const SafetyBlockReason := 2

  /** Backoff after an exception, in milliseconds. */
  const ErrorBackoffMs: nat := 600

  /** Backoff after a safety block, in milliseconds. */
  const SafetyBackoffMs: nat := 600

  /** Backoff after any other response without text, in milliseconds. */
  const EmptyBackoffMs: nat := 400

  /** The three paraphrases, in the order they are tried. */
  datatype Paraphrase = Identity | StepByStep | Scientific {
    function Apply(q: string): string {
      match this
      case Identity => q
      case StepByStep => q + " Please explain step by step and include practical suggestions."
      case Scientific => "In scientific terms, describe the stages of: " + q
    }
  }

  const Paraphrases: seq<Paraphrase> := [Identity, StepByStep, Scientific]

  /* Attempt arithmetic below writes the number of paraphrases, 3, as a
     literal so that the solver sees linear arithmetic. */

  /** What the remote call did: raised an exception, or returned a response. */
  datatype Outcome = Raised | Returned(response: Response)

  /** One remote call: the model asked and the request text sent. */
  datatype Call = Call(model: string, request: string)

  /** Where a reply came from: the remote model ("gemini") or the local poem ("fallback"). */
  datatype Source = Gemini | LocalFallback

  datatype Reply = Reply(text: string, source: Source)

  /** A whole run of the controller: its reply, the calls it made in order,
      and the backoffs it slept, in order. */
  datatype Run = Run(reply: Reply, calls: seq<Call>, backoffs: seq<nat>)

  /** `model_attempts`: the chosen model, then the fast model unless the
      chosen identifier already contains "flash". No identifier is listed twice. */
  function Models(modelName: string): (models: seq<string>)
    ensures |models| == if Contains(modelName, FastMarker) then 1 else 2
    ensures models[0] == modelName
    ensures |models| == 2 ==> models[1] == FlashLatest && models[0] != models[1]
  {
    FlashLatestIsFast();
    if Contains(modelName, FastMarker) then [modelName] else [modelName, FlashLatest]
  }

  lemma FlashLatestIsFast()
    ensures Contains(FlashLatest, FastMarker)
  {
    assert FlashLatest[14..19] == FastMarker;
    ContainsAt(FlashLatest, FastMarker, 14);
  }

  /** `base_prompt`: the stripped persona, the user's prompt, and the cue for Kelly. */
  function BasePrompt(prompt: string): string {
    KellySystem + "\n\nUser: " + prompt + "\nKelly:"
  }

  /** `base_prompt.replace(prompt, q)`: every occurrence of the prompt in the
      base prompt, the persona text included, becomes `q`. */
  function Request(basePrompt: string, prompt: string, q: string): string {
    ReplaceAll(basePrompt, prompt, q)
  }

  /** The calls made with one model: the three paraphrases in order. */
  function ModelCalls(basePrompt: string, prompt: string, model: string): (cs: seq<Call>)
    ensures |cs| == 3
  {
    seq(|Paraphrases|, pi requires 0 <= pi < |Paraphrases| =>
      Call(model, Request(basePrompt, prompt, Paraphrases[pi].Apply(prompt))))
  }

  /** The calls for a list of models, model by model. */
  function PlanOver(basePrompt: string, prompt: string, models: seq<string>): (plan: seq<Call>)
    ensures |plan| == 3 * |models|
  {
    if models == [] then []
    else ModelCalls(basePrompt, prompt, models[0]) + PlanOver(basePrompt, prompt, models[1..])
  }

  /** The attempt plan: every model with every paraphrase, model by model. */
  function Plan(basePrompt: string, prompt: string, modelName: string): (plan: seq<Call>)
    ensures |plan| == 3 * |Models(modelName)|
  {
    PlanOver(basePrompt, prompt, Models(modelName))
  }

  /** The number of calls the budget allows: `max_retries` (none when it is
      not positive), but no more than the plan holds. */
  function CallBudget(modelName: string, maxRetries: int): (n: nat)
    ensures n <= 3 * |Models(modelName)|
    ensures n <= maxRetries || n == 0
    ensures n == 3 * |Models(modelName)| || n == maxRetries || (n == 0 && maxRetries <= 0)
  {
    var m := if maxRetries < 0 then 0 else maxRetries;
    if m < 3 * |Models(modelName)| then m else 3 * |Models(modelName)|
  }

  /** The first element of the `finish_reason` check: the first candidate's
      reason, when the response has candidates. */
  function FinishReason(r: Response): Option<int> {
    match r.candidates
    case Some(cs) => if cs != [] then cs[0].finishReason else None
    case None => None
  }

  /** An attempt succeeds when the response yields text and that text is not empty. */
  predicate Succeeds(o: Outcome) {
    o.Returned? && ExtractedText(o.response).Some? && ExtractedText(o.response).value != ""
  }

  /** The sleep after an attempt that did not succeed. */
  function Backoff(o: Outcome): nat {
    match o
    case Raised => ErrorBackoffMs
    case Returned(r) => if FinishReason(r) == Some(SafetyBlockReason) then SafetyBackoffMs else EmptyBackoffMs
  }

  /** The sleeps after the first `n` calls, none of which succeeded. */
  function Backoffs(remote: nat -> Outcome, n: nat): seq<nat> {
    if n == 0 then [] else Backoffs(remote, n - 1) + [Backoff(remote(n - 1))]
  }

  /** The least index in `[from, n)` at which `ok` holds, if any. */
  function FirstIndex(ok: nat -> bool, from: nat, n: nat): (r: Option<nat>)
    ensures r.Some? ==> from <= r.value < n && ok(r.value)
                        && forall k :: from <= k < r.value ==> !ok(k)
    ensures r.None? ==> forall k :: from <= k < n ==> !ok(k)
    decreases n - from
  {
    if n <= from then None
    else if ok(from) then Some(from)
    else FirstIndex(ok, from + 1, n)
  }

  /** Which calls succeed. */
  function Successes(remote: nat -> Outcome): nat -> bool {
    (k: nat) => Succeeds(remote(k))
  }

  /** What the two loops of `kelly_reply` produce: the text of a successful
      attempt, if any, the calls made and the backoffs slept. */
  datatype Attempts = Attempts(text: Option<string>, calls: seq<Call>, backoffs: seq<nat>)

  /** The loops stated over the flattened plan: the calls up to and including
      the first success within the budget, or the whole budget. */
  function AttemptsRun(basePrompt: string, prompt: string, modelName: string, maxRetries: int,
                       remote: nat -> Outcome): Attempts
  {
    var n := CallBudget(modelName, maxRetries);
    var plan := Plan(basePrompt, prompt, modelName);
    match FirstIndex(Successes(remote), 0, n)
    case Some(k) =>
      Attempts(Some(Strip(ExtractedText(remote(k).response).value)), plan[..k + 1], Backoffs(remote, k))
    case None =>
      Attempts(None, plan[..n], Backoffs(remote, n))
  }

  /** What `kelly_reply` returns: the text of the first success, or the
      local poem when no attempt succeeded. */
  function KellyRun(prompt: string, modelName: string, maxRetries: int,
                    remote: nat -> Outcome, unescape: string -> string): Run
  {
    var a := AttemptsRun(BasePrompt(prompt), prompt, modelName, maxRetries, remote);
    var reply := match a.text
      case Some(t) => Reply(t, Gemini)
      case None => Reply(LocalPoemFallback(unescape, prompt), LocalFallback);
    Run(reply, a.calls, a.backoffs)
  }

  /** Attempt `3 * mi + pi` of the plan asks model `mi` with paraphrase `pi`. */
  lemma {:induction false} PlanOverAt(basePrompt: string, prompt: string, models: seq<string>, mi: nat, pi: nat)
    requires mi < |models| && pi < 3
    ensures PlanOver(basePrompt, prompt, models)[3 * mi + pi] == ModelCalls(basePrompt, prompt, models[mi])[pi]
    decreases mi
  {
    if mi == 0 {
      PlanOverHead(basePrompt, prompt, models, pi);
    } else {
      PlanOverAt(basePrompt, prompt, models[1..], mi - 1, pi);
      PlanOverTail(basePrompt, prompt, models, 3 * (mi - 1) + pi);
      assert models[1..][mi - 1] == models[mi];
    }
  }

  lemma PlanOverHead(basePrompt: string, prompt: string, models: seq<string>, pi: nat)
    requires models != [] && pi < 3
    ensures PlanOver(basePrompt, prompt, models)[pi] == ModelCalls(basePrompt, prompt, models[0])[pi]
  {
  }

  lemma PlanOverTail(basePrompt: string, prompt: string, models: seq<string>, k: nat)
    requires models != [] && k < 3 * (|models| - 1)
    ensures PlanOver(basePrompt, prompt, models)[3 + k] == PlanOver(basePrompt, prompt, models[1..])[k]
  {
  }

  /** Call `pi` of a model sends the request built from paraphrase `pi`. */
  lemma ModelCallsAt(basePrompt: string, prompt: string, model: string, pi: nat)
    requires pi < 3
    ensures ModelCalls(basePrompt, prompt, model)[pi]
            == Call(model, Request(basePrompt, prompt, Paraphrases[pi].Apply(prompt)))
  {
  }

  /** Appending the next planned call keeps the calls a prefix of the plan. */
  lemma PrefixExtend(plan: seq<Call>, calls: seq<Call>, c: Call)
    requires |calls| < |plan| && calls == plan[..|calls|] && plan[|calls|] == c
    ensures calls + [c] == plan[..|calls| + 1]
  {
  }

  /** The least index is found wherever it lies. */
  lemma FirstIndexAt(ok: nat -> bool, n: nat, k: nat)
    requires k < n && ok(k)
    requires forall j :: 0 <= j < k ==> !ok(j)
    ensures FirstIndex(ok, 0, n) == Some(k)
  {
  }

  lemma FirstIndexNone(ok: nat -> bool, n: nat)
    requires forall j :: 0 <= j < n ==> !ok(j)
    ensures FirstIndex(ok, 0, n) == None
  {
  }

  /** None of the first `n` calls succeeds. */
  ghost predicate FailsBefore(remote: nat -> Outcome, n: nat) {
    forall j :: 0 <= j < n ==> !Succeeds(remote(j))
  }

  /** The calls made so far are the plan's first ones, each of them failed,
      and each was followed by its backoff. */
  ghost predicate Tried(plan: seq<Call>, remote: nat -> Outcome, calls: seq<Call>, backoffs: seq<nat>) {
    && |calls| <= |plan| && calls == plan[..|calls|]
    && backoffs == Backoffs(remote, |calls|)
    && FailsBefore(remote, |calls|)
  }

  /** One more planned call that fails keeps `Tried`. */
  lemma TriedStep(plan: seq<Call>, remote: nat -> Outcome, calls: seq<Call>, backoffs: seq<nat>, c: Call)
    requires Tried(plan, remote, calls, backoffs)
    requires |calls| < |plan| && plan[|calls|] == c && !Succeeds(remote(|calls|))
    ensures Tried(plan, remote, calls + [c], backoffs + [Backoff(remote(|calls|))])
  {
    PrefixExtend(plan, calls, c);
  }

  /** When the next planned call is the first success within the budget,
      the loops stop after it. */
  lemma AttemptsAtSuccess(basePrompt: string, prompt: string, modelName: string, maxRetries: int,
                          remote: nat -> Outcome, calls: seq<Call>, backoffs: seq<nat>, call: Call)
    requires |calls| < CallBudget(modelName, maxRetries) && Succeeds(remote(|calls|))
    requires Tried(Plan(basePrompt, prompt, modelName), remote, calls, backoffs)
    requires Plan(basePrompt, prompt, modelName)[|calls|] == call
    ensures AttemptsRun(basePrompt, prompt, modelName, maxRetries, remote)
            == Attempts(Some(Strip(ExtractedText(remote(|calls|).response).value)), calls + [call], backoffs)
  {
    var k := |calls|;
    PrefixExtend(Plan(basePrompt, prompt, modelName), calls, call);
    var ok := Successes(remote);
    forall j | 0 <= j < k ensures !ok(j) {
      assert !Succeeds(remote(j));
    }
    assert ok(k);
    FirstIndexAt(ok, CallBudget(modelName, maxRetries), k);
  }

  /** When no attempt within the budget succeeds, the loops spend the budget. */
  lemma AttemptsNoSuccess(basePrompt: string, prompt: string, modelName: string, maxRetries: int,
                          remote: nat -> Outcome)
    requires FailsBefore(remote, CallBudget(modelName, maxRetries))
    ensures var n := CallBudget(modelName, maxRetries);
            AttemptsRun(basePrompt, prompt, modelName, maxRetries, remote)
            == Attempts(None, Plan(basePrompt, prompt, modelName)[..n], Backoffs(remote, n))
  {
    var ok := Successes(remote);
    var n := CallBudget(modelName, maxRetries);
    forall j | 0 <= j < n ensures !ok(j) {
      assert !Succeeds(remote(j));
    }
    FirstIndexNone(ok, n);
  }

  /** The body of one attempt once the remote call has been made (the `try`
      block and its `except`): the stripped text to return when the
      response yields text, and otherwise the backoff to sleep, 600 ms after
      an exception or a safety block and 400 ms after any other response. */
  method TryOutcome(outcome: Outcome) returns (text: Option<string>, pause: nat)
    ensures text.Some? <==> Succeeds(outcome)
    ensures text.Some? ==> text.value == Strip(ExtractedText(outcome.response).value)
    ensures text.None? ==> pause == Backoff(outcome)
  {
    text, pause := None, ErrorBackoffMs;
    match outcome
    case Raised =>
      pause := ErrorBackoffMs;
    case Returned(response) =>
      var extracted := ExtractTextFromResponse(response);
      var fr := FinishReason(response);
      if extracted.Some? && extracted.value != "" {
        text := Some(Strip(extracted.value));
        return;
      }
      if fr == Some(SafetyBlockReason) {
        pause := SafetyBackoffMs;
      } else {
        pause := EmptyBackoffMs;
      }
  }

  /** One attempt of `kelly_reply` (the `try` block and its `except`): make
      `call`, the next call of the plan. It either ends the run with its
      text, or fails and adds its backoff. */
  method Attempt(basePrompt: string, prompt: string, modelName: string, maxRetries: int,
                 remote: nat -> Outcome, call: Call, calls: seq<Call>, backoffs: seq<nat>)
    returns (text: Option<string>, calls': seq<Call>, backoffs': seq<nat>)
    requires |calls| < CallBudget(modelName, maxRetries)
    requires Tried(Plan(basePrompt, prompt, modelName), remote, calls, backoffs)
    requires Plan(basePrompt, prompt, modelName)[|calls|] == call
    ensures text.Some? ==> Attempts(text, calls', backoffs') == AttemptsRun(basePrompt, prompt, modelName, maxRetries, remote)
    ensures text.None? ==> |calls'| == |calls| + 1 && Tried(Plan(basePrompt, prompt, modelName), remote, calls', backoffs')
  {
    ghost var plan := Plan(basePrompt, prompt, modelName);
    calls' := calls + [call];
    var pause;
    text, pause := TryOutcome(remote(|calls|));
    if text.Some? {
      AttemptsAtSuccess(basePrompt, prompt, modelName, maxRetries, remote, calls, backoffs, call);
      backoffs' := backoffs;
    } else {
      TriedStep(plan, remote, calls, backoffs, call);
      backoffs' := backoffs + [pause];
    }
  }

  /** The two loops of `kelly_reply`: over the models and the paraphrases,
      with an attempt counter checked before each call, a `break` that
      leaves only the inner loop, and an early return on the first text. */
  method RetryLoops(basePrompt: string, prompt: string, modelName: string, maxRetries: int,
                    remote: nat -> Outcome)
    returns (text: Option<string>, calls: seq<Call>, backoffs: seq<nat>)
    ensures Attempts(text, calls, backoffs) == AttemptsRun(basePrompt, prompt, modelName, maxRetries, remote)
  {
    var attempt := 0;
    var modelAttempts := Models(modelName);
    ghost var budget := if maxRetries < 0 then 0 else maxRetries;
    ghost var plan := Plan(basePrompt, prompt, modelName);
    text, calls, backoffs := None, [], [];
    for mi := 0 to |modelAttempts|
      invariant attempt <= 3 * mi
      invariant attempt == 3 * mi || attempt > maxRetries
      invariant |calls| == if budget < 3 * mi then budget else 3 * mi
      invariant Tried(plan, remote, calls, backoffs) && text == None
    {
      for pi := 0 to |Paraphrases|
        invariant attempt <= 3 * mi + pi
        invariant attempt == 3 * mi + pi || attempt > maxRetries
        invariant |calls| == if budget < 3 * mi + pi then budget else 3 * mi + pi
        invariant Tried(plan, remote, calls, backoffs) && text == None
      {
        attempt := attempt + 1;
        if attempt > maxRetries {
          break;
        }
        var q := Paraphrases[pi].Apply(prompt);
        var call := Call(modelAttempts[mi], ReplaceAll(basePrompt, prompt, q));
        PlanOverAt(basePrompt, prompt, modelAttempts, mi, pi);
        ModelCallsAt(basePrompt, prompt, modelAttempts[mi], pi);
        text, calls, backoffs := Attempt(basePrompt, prompt, modelName, maxRetries, remote, call, calls, backoffs);
        if text.Some? {
          return;
        }
      }
    }
    AttemptsNoSuccess(basePrompt, prompt, modelName, maxRetries, remote);
  }

  /** `kelly_reply`: the persona and the prompt make the base prompt, the
      loops try the attempts, and the local poem stands in when none of
      them yields text. */
  method KellyReply(prompt: string, modelName: string, maxRetries: int,
                    remote: nat -> Outcome, unescape: string -> string)
    returns (reply: Reply, calls: seq<Call>, backoffs: seq<nat>)
    ensures Run(reply, calls, backoffs) == KellyRun(prompt, modelName, maxRetries, remote, unescape)
  {
    var basePrompt := BasePrompt(prompt);
    var text;
    text, calls, backoffs := RetryLoops(basePrompt, prompt, modelName, maxRetries, remote);
    if text.Some? {
      reply := Reply(text.value, Gemini);
    } else {
      reply := Reply(LocalPoemFallback(unescape, prompt), LocalFallback);
    }
  }

  /** One backoff per call, in call order. */
  lemma {:induction false} BackoffsAt(remote: nat -> Outcome, n: nat)
    ensures |Backoffs(remote, n)| == n
    ensures forall i :: 0 <= i < n ==> Backoffs(remote, n)[i] == Backoff(remote(i))
    decreases n
  {
    if n > 0 {
      BackoffsAt(remote, n - 1);
      var init := Backoffs(remote, n - 1);
      assert Backoffs(remote, n) == init + [Backoff(remote(n - 1))];
    }
  }

  /** What the loops produce when some call within the budget succeeds:
      the plan up to the first success, and a backoff after every call
      before it. */
  lemma AttemptsSucceeded(basePrompt: string, prompt: string, modelName: string, maxRetries: int,
                          remote: nat -> Outcome, a: Attempts)
    requires a == AttemptsRun(basePrompt, prompt, modelName, maxRetries, remote)
    requires FirstIndex(Successes(remote), 0, CallBudget(modelName, maxRetries)).Some?
    ensures a.text.Some?
    ensures |a.calls| == |a.backoffs| + 1 <= CallBudget(modelName, maxRetries)
    ensures a.calls == Plan(basePrompt, prompt, modelName)[..|a.calls|]
    ensures a.backoffs == Backoffs(remote, |a.backoffs|)
    ensures Succeeds(remote(|a.backoffs|))
    ensures FailsBefore(remote, |a.backoffs|)
    ensures a.text.value == Strip(ExtractedText(remote(|a.backoffs|).response).value)
  {
    var ok := Successes(remote);
    var k := FirstIndex(ok, 0, CallBudget(modelName, maxRetries)).value;
    BackoffsAt(remote, k);
    assert ok(k);
    forall j | 0 <= j < k ensures !Succeeds(remote(j)) {
      assert !ok(j);
    }
  }

  /** What the loops produce when no call within the budget succeeds: the
      whole budget of calls, each followed by its backoff, and no text. */
  lemma AttemptsFailed(basePrompt: string, prompt: string, modelName: string, maxRetries: int,
                       remote: nat -> Outcome, a: Attempts)
    requires a == AttemptsRun(basePrompt, prompt, modelName, maxRetries, remote)
    requires FirstIndex(Successes(remote), 0, CallBudget(modelName, maxRetries)).None?
    ensures a.text.None?
    ensures |a.calls| == |a.backoffs| == CallBudget(modelName, maxRetries)
    ensures a.calls == Plan(basePrompt, prompt, modelName)[..|a.calls|]
    ensures a.backoffs == Backoffs(remote, |a.backoffs|)
    ensures FailsBefore(remote, |a.backoffs|)
  {
    var ok := Successes(remote);
    var n := CallBudget(modelName, maxRetries);
    BackoffsAt(remote, n);
    forall j | 0 <= j < n ensures !Succeeds(remote(j)) {
      assert !ok(j);
    }
  }

  /** Kelly's reply comes from the model exactly when some call within the
      budget yields text; otherwise it is the local poem. */
  lemma GeminiIff(prompt: string, modelName: string, maxRetries: int,
                  remote: nat -> Outcome, unescape: string -> string)
    ensures var run := KellyRun(prompt, modelName, maxRetries, remote, unescape);
            run.reply.source == Gemini
            <==> exists k :: 0 <= k < CallBudget(modelName, maxRetries) && Succeeds(remote(k))
    ensures var run := KellyRun(prompt, modelName, maxRetries, remote, unescape);
            run.reply.source == LocalFallback ==> run.reply.text == LocalPoemFallback(unescape, prompt)
  {
    var a := AttemptsRun(BasePrompt(prompt), prompt, modelName, maxRetries, remote);
    if FirstIndex(Successes(remote), 0, CallBudget(modelName, maxRetries)).Some? {
      AttemptsSucceeded(BasePrompt(prompt), prompt, modelName, maxRetries, remote, a);
      assert Succeeds(remote(|a.backoffs|));
    } else {
      AttemptsFailed(BasePrompt(prompt), prompt, modelName, maxRetries, remote, a);
    }
  }

  /** The first call within the budget that yields text decides the run:
      the reply is that call's text exactly as the extractor returned it,
      after that many calls, with a backoff after each earlier one. */
  lemma FirstSuccessWins(prompt: string, modelName: string, maxRetries: int,
                         remote: nat -> Outcome, unescape: string -> string, k: nat)
    requires k < CallBudget(modelName, maxRetries) && Succeeds(remote(k))
    requires FailsBefore(remote, k)
    ensures var run := KellyRun(prompt, modelName, maxRetries, remote, unescape);
            && run.reply == Reply(ExtractedText(remote(k).response).value, Gemini)
            && run.calls == Plan(BasePrompt(prompt), prompt, modelName)[..k + 1]
            && run.backoffs == Backoffs(remote, k)
  {
    var ok := Successes(remote);
    forall j | 0 <= j < k ensures !ok(j) {
      assert !Succeeds(remote(j));
    }
    assert ok(k);
    FirstIndexAt(ok, CallBudget(modelName, maxRetries), k);
    ExtractedIsStripped(remote(k).response);
  }

  /** When no call within the budget yields text, the budget is spent: every
      planned call up to it is made, each is followed by its backoff, and
      the reply is the local poem. */
  lemma AllFail(prompt: string, modelName: string, maxRetries: int,
                remote: nat -> Outcome, unescape: string -> string)
    requires FailsBefore(remote, CallBudget(modelName, maxRetries))
    ensures var run := KellyRun(prompt, modelName, maxRetries, remote, unescape);
            var n := CallBudget(modelName, maxRetries);
            && run.reply == Reply(LocalPoemFallback(unescape, prompt), LocalFallback)
            && run.calls == Plan(BasePrompt(prompt), prompt, modelName)[..n]
            && run.backoffs == Backoffs(remote, n)
  {
    var ok := Successes(remote);
    var n := CallBudget(modelName, maxRetries);
    forall j | 0 <= j < n ensures !ok(j) {
      assert !Succeeds(remote(j));
    }
    FirstIndexNone(ok, n);
  }

  /** At most the budget of calls is made, and a backoff follows every call
      but a successful last one. */
  lemma CallCount(prompt: string, modelName: string, maxRetries: int,
                  remote: nat -> Outcome, unescape: string -> string)
    ensures var run := KellyRun(prompt, modelName, maxRetries, remote, unescape);
            && |run.calls| <= CallBudget(modelName, maxRetries)
            && (run.reply.source == LocalFallback ==> |run.calls| == |run.backoffs| == CallBudget(modelName, maxRetries))
            && (run.reply.source == Gemini ==> |run.calls| == |run.backoffs| + 1)
  {
    var a := AttemptsRun(BasePrompt(prompt), prompt, modelName, maxRetries, remote);
    if FirstIndex(Successes(remote), 0, CallBudget(modelName, maxRetries)).Some? {
      AttemptsSucceeded(BasePrompt(prompt), prompt, modelName, maxRetries, remote, a);
    } else {
      AttemptsFailed(BasePrompt(prompt), prompt, modelName, maxRetries, remote, a);
    }
  }

  /** The `i`-th backoff follows the `i`-th call, which failed: 600 ms after
      an exception or a safety block, 400 ms after any other response. */
  lemma RunBackoffs(prompt: string, modelName: string, maxRetries: int,
                    remote: nat -> Outcome, unescape: string -> string, i: nat)
    requires i < |KellyRun(prompt, modelName, maxRetries, remote, unescape).backoffs|
    ensures i < |KellyRun(prompt, modelName, maxRetries, remote, unescape).calls|
    ensures !Succeeds(remote(i))
    ensures KellyRun(prompt, modelName, maxRetries, remote, unescape).backoffs[i]
            == if remote(i).Raised? || FinishReason(remote(i).response) == Some(SafetyBlockReason) then 600 else 400
  {
    var a := AttemptsRun(BasePrompt(prompt), prompt, modelName, maxRetries, remote);
    if FirstIndex(Successes(remote), 0, CallBudget(modelName, maxRetries)).Some? {
      AttemptsSucceeded(BasePrompt(prompt), prompt, modelName, maxRetries, remote, a);
    } else {
      AttemptsFailed(BasePrompt(prompt), prompt, modelName, maxRetries, remote, a);
    }
    BackoffsAt(remote, |a.backoffs|);
  }

  /** The calls follow the plan: call `3 * mi + pi` asks model `mi` with
      the request built from paraphrase `pi`. */
  lemma CallsFollowPlan(prompt: string, modelName: string, maxRetries: int,
                        remote: nat -> Outcome, unescape: string -> string, mi: nat, pi: nat)
    requires mi < |Models(modelName)| && pi < 3
    requires 3 * mi + pi < |KellyRun(prompt, modelName, maxRetries, remote, unescape).calls|
    ensures KellyRun(prompt, modelName, maxRetries, remote, unescape).calls[3 * mi + pi]
            == Call(Models(modelName)[mi], Request(BasePrompt(prompt), prompt, Paraphrases[pi].Apply(prompt)))
  {
    var a := AttemptsRun(BasePrompt(prompt), prompt, modelName, maxRetries, remote);
    if FirstIndex(Successes(remote), 0, CallBudget(modelName, maxRetries)).Some? {
      AttemptsSucceeded(BasePrompt(prompt), prompt, modelName, maxRetries, remote, a);
    } else {
      AttemptsFailed(BasePrompt(prompt), prompt, modelName, maxRetries, remote, a);
    }
    PlanOverAt(BasePrompt(prompt), prompt, Models(modelName), mi, pi);
    ModelCallsAt(BasePrompt(prompt), prompt, Models(modelName)[mi], pi);
  }

  /** Kelly always answers something: the model's text is non-empty when it
      is used, and so is the local poem. */
  lemma ReplyNonEmpty(prompt: string, modelName: string, maxRetries: int,
                      remote: nat -> Outcome, unescape: string -> string)
    ensures KellyRun(prompt, modelName, maxRetries, remote, unescape).reply.text != ""
  {
    var a := AttemptsRun(BasePrompt(prompt), prompt, modelName, maxRetries, remote);
    if FirstIndex(Successes(remote), 0, CallBudget(modelName, maxRetries)).Some? {
      AttemptsSucceeded(BasePrompt(prompt), prompt, modelName, maxRetries, remote, a);
      ExtractedIsStripped(remote(|a.backoffs|).response);
    } else {
      AttemptsFailed(BasePrompt(prompt), prompt, modelName, maxRetries, remote, a);
      FallbackNonEmpty(unescape, prompt);
    }
  }

  /** With a positive budget the first call asks the chosen model with the
      base prompt itself: the identity paraphrase's `replace` changes
      nothing, whatever the prompt holds (the empty prompt included). */
  lemma FirstRequestIsBasePrompt(prompt: string, modelName: string, maxRetries: int,
                                 remote: nat -> Outcome, unescape: string -> string)
    requires maxRetries >= 1
    ensures var run := KellyRun(prompt, modelName, maxRetries, remote, unescape);
            |run.calls| >= 1 && run.calls[0] == Call(modelName, BasePrompt(prompt))
  {
    CallCount(prompt, modelName, maxRetries, remote, unescape);
    CallsFollowPlan(prompt, modelName, maxRetries, remote, unescape, 0, 0);
    ReplaceBySelf(BasePrompt(prompt), prompt);
  }

  /** With the default budget of three and no text from the service, Kelly
      asks the chosen model three times, once with each paraphrase, never
      reaches the fast model, sleeps after each call and answers with the
      local poem. */
  lemma DefaultBudgetAllFail(prompt: string, modelName: string, remote: nat -> Outcome,
                             unescape: string -> string)
    requires FailsBefore(remote, 3)
    ensures var run := KellyRun(prompt, modelName, 3, remote, unescape);
            && run.reply == Reply(LocalPoemFallback(unescape, prompt), LocalFallback)
            && |run.calls| == 3 && |run.backoffs| == 3
            && run.calls[0] == Call(modelName, BasePrompt(prompt))
            && run.calls[1] == Call(modelName, Request(BasePrompt(prompt), prompt, StepByStep.Apply(prompt)))
            && run.calls[2] == Call(modelName, Request(BasePrompt(prompt), prompt, Scientific.Apply(prompt)))
  {
    GeminiIff(prompt, modelName, 3, remote, unescape);
    CallCount(prompt, modelName, 3, remote, unescape);
    FirstRequestIsBasePrompt(prompt, modelName, 3, remote, unescape);
    CallsFollowPlan(prompt, modelName, 3, remote, unescape, 0, 1);
    CallsFollowPlan(prompt, modelName, 3, remote, unescape, 0, 2);
  }

  /** A budget of two on a service that raises both times: two calls,
      600 ms after each, and the local poem. */
  lemma TwoErrors(prompt: string, modelName: string, remote: nat -> Outcome, unescape: string -> string)
    requires remote(0) == Raised && remote(1) == Raised
    ensures var run := KellyRun(prompt, modelName, 2, remote, unescape);
            && run.reply == Reply(LocalPoemFallback(unescape, prompt), LocalFallback)
            && |run.calls| == 2
            && run.backoffs == [600, 600]
  {
    forall k | 0 <= k < 2 ensures !Succeeds(remote(k)) {
      assert remote(k) == Raised;
    }
    assert CallBudget(modelName, 2) == 2;
    AllFail(prompt, modelName, 2, remote, unescape);
    TwoBackoffs(remote);
  }

  lemma TwoBackoffs(remote: nat -> Outcome)
    requires remote(0) == Raised && remote(1) == Raised
    ensures Backoffs(remote, 2) == [600, 600]
  {
    assert Backoffs(remote, 1) == [Backoff(remote(0))];
  }

  /** "Explain the pipeline of a GAN" in that setting: the poem's first line
      keeps the two spaces the deletion leaves. */
  lemma GanPromptTwoErrors(prompt: string, modelName: string, remote: nat -> Outcome,
                           unescape: string -> string)
    requires prompt == "Explain the pipeline of a GAN" && unescape(prompt) == prompt
    requires remote(0) == Raised && remote(1) == Raised
    ensures var run := KellyRun(prompt, modelName, 2, remote, unescape);
            && run.reply.source == LocalFallback
            && run.backoffs == [600, 600]
            && TopicLine("the  a GAN") <= run.reply.text
  {
    TwoErrors(prompt, modelName, remote, unescape);
    GanSanitized(prompt, unescape);
  }
}
