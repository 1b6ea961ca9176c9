/** Idempotency keys of the in-memory runtime: a retried request takes effect exactly once. */
module ExactlyOnce {
  import opened Prelude
  import opened Encoding
  import opened Domain
  import opened Service
  import opened Requests
  import opened Memory
  import opened MemoryRefinement
  import T = MachineTheorems

  // ---- no stored answer is falsy -----------------------------------------------------------

  /** Python would take a stored empty list for nothing stored. */
  ghost predicate NothingFalsy(s: Mem) {
    forall k :: k in s.idempotency ==> s.idempotency[k] != ArtifactsReply([])
  }

  lemma LeaseCallKeepsTable(s: Mem, c: Call)
    requires c.req.ClaimCard? || c.req.SubmitArtifact? || c.req.RenewLease? || c.req.ReleaseLease?
    ensures Perform(s, c).after.idempotency == s.idempotency
  {
  }

  lemma CardCallKeepsTable(s: Mem, c: Call)
    requires c.req.CreateCard? || c.req.ValidateCard? || c.req.MoveCard? || c.req.RecordEvent? || c.req.RegisterPanel?
    ensures Perform(s, c).after.idempotency == s.idempotency
  {
  }

  lemma PerformKeepsTable(s: Mem, c: Call)
    requires Valid(s)
    ensures Perform(s, c).after.idempotency == s.idempotency
  {
    if c.req.ExpireLeases? {
      ExpireKeepsValid(s, c.now, c.base, |s.leaseOrder|);
    } else if c.req.ClaimCard? || c.req.SubmitArtifact? || c.req.RenewLease? || c.req.ReleaseLease? {
      LeaseCallKeepsTable(s, c);
    } else {
      CardCallKeepsTable(s, c);
    }
  }

  lemma PerformAnswersItsType(s: Mem, c: Call)
    ensures Perform(s, c).result.Ok? ==> Fits(c.req, Perform(s, c).result.value)
    ensures Perform(s, c).result != Ok(ArtifactsReply([]))
  {
  }

  /** A submission refuses an empty list, so no call ever stores a falsy answer. */
  lemma StepKeepsTruthy(s: Mem, c: Call)
    requires Valid(s) && NothingFalsy(s)
    ensures NothingFalsy(Step(s, c).after)
  {
    PerformKeepsTable(s, c);
    PerformAnswersItsType(s, c);
  }

  lemma {:induction false} RunKeepsTruthy(s: Mem, calls: seq<Call>)
    requires Valid(s) && NothingFalsy(s)
    ensures NothingFalsy(Run(s, calls))
  {
    if calls != [] {
      RunKeepsTruthy(s, calls[..|calls| - 1]);
      RunKeepsValid(s, calls[..|calls| - 1]);
      StepKeepsTruthy(Run(s, calls[..|calls| - 1]), calls[|calls| - 1]);
    }
  }

  // ---- stored answers stay -----------------------------------------------------------------

  ghost predicate Holds(s: Mem, key: Option<string>, answer: Reply) {
    Truthy(key) && key.value in s.idempotency && s.idempotency[key.value] == answer
  }

  lemma StepKeepsAnswers(s: Mem, c: Call, key: Option<string>, answer: Reply)
    requires Valid(s) && NothingFalsy(s) && Holds(s, key, answer)
    ensures Holds(Step(s, c).after, key, answer)
  {
    PerformKeepsTable(s, c);
    PerformAnswersItsType(s, c);
  }

  lemma {:induction false} RunKeepsAnswers(s: Mem, calls: seq<Call>, key: Option<string>, answer: Reply)
    requires Valid(s) && NothingFalsy(s) && Holds(s, key, answer)
    ensures Holds(Run(s, calls), key, answer)
  {
    if calls != [] {
      RunKeepsAnswers(s, calls[..|calls| - 1], key, answer);
      RunKeepsTruthy(s, calls[..|calls| - 1]);
      RunKeepsValid(s, calls[..|calls| - 1]);
      StepKeepsAnswers(Run(s, calls[..|calls| - 1]), calls[|calls| - 1], key, answer);
    }
  }

  /** A keyed call that succeeds leaves its answer under its key, except one kind: the release
      of a lease already released answers without storing. */
  lemma SuccessIsStoredIff(s: Mem, c: Call)
    requires Valid(s) && NothingFalsy(s) && Truthy(c.req.Key()) && Step(s, c).result.Ok?
    ensures Holds(Step(s, c).after, c.req.Key(), Step(s, c).result.value)
      <==> (c.req.Key().value in s.idempotency || !AnswersEarly(s, c.req))
  {
    PerformKeepsTable(s, c);
    PerformAnswersItsType(s, c);
  }

  // ---- replays -----------------------------------------------------------------------------

  /** Once an answer is stored, every later call with the key changes nothing: it returns that
      answer if its operation returns that type, and is refused if not. */
  lemma ReplayAnswersFirstResult(s: Mem, first: Call, between: seq<Call>, again: Call)
    requires Valid(s) && NothingFalsy(s)
    requires Truthy(first.req.Key()) && again.req.Key() == first.req.Key()
    requires Step(s, first).result.Ok? && (first.req.Key().value in s.idempotency || !AnswersEarly(s, first.req))
    ensures var later, answer := Run(Step(s, first).after, between), Step(s, first).result.value;
      Step(later, again) == Outcome(later, if Fits(again.req, answer) then Ok(answer) else Err(Conflict))
  {
    var mid, answer := Step(s, first).after, Step(s, first).result.value;
    SuccessIsStoredIff(s, first);
    StepKeepsValid(s, first);
    StepKeepsTruthy(s, first);
    RunKeepsAnswers(mid, between, first.req.Key(), answer);
    RunKeepsTruthy(mid, between);
  }

  /** In particular repeating a request that succeeded, at any later point of any run, changes
      nothing; this includes the release that stored no answer, whose lease stays released. */
  lemma RetryChangesNothing(s: Mem, first: Call, between: seq<Call>, again: Call)
    requires Valid(s) && NothingFalsy(s) && FreshIds(s, first)
    requires again.req == first.req && Truthy(first.req.Key()) && Step(s, first).result.Ok?
    requires Proper(Step(s, first).after, first.now, between)
    ensures Step(Run(Step(s, first).after, between), again).after == Run(Step(s, first).after, between)
  {
    var mid := Step(s, first).after;
    if first.req.Key().value in s.idempotency || !AnswersEarly(s, first.req) {
      ReplayAnswersFirstResult(s, first, between, again);
    } else {
      var l := first.req.leaseId;
      RunRefines(mid, first.now, between);
      T.LeasesAreKept(CoreOf(mid), RunActs(mid, first.now, between), l);
    }
  }

  lemma {:induction false} RunConcat(s: Mem, xs: seq<Call>, ys: seq<Call>)
    ensures Run(s, xs + ys) == Run(Run(s, xs), ys)
  {
    if ys == [] {
      assert xs + ys == xs;
    } else {
      RunConcat(s, xs, ys[..|ys| - 1]);
      assert (xs + ys)[..|xs + ys| - 1] == xs + ys[..|ys| - 1];
    }
  }

  lemma RunOne(s: Mem, c: Call)
    ensures Run(s, [c]) == Step(s, c).after
  {
    assert [c][..0] == [];
    assert Run(s, [c][..0]) == s;
  }

  /** Inserting a retry anywhere after the request it repeats leaves the rest of the run as it was. */
  lemma RetriesAreInvisible(s: Mem, before: seq<Call>, first: Call, between: seq<Call>, again: Call, rest: seq<Call>)
    requires Valid(s) && NothingFalsy(s) && FreshIds(Run(s, before), first)
    requires again.req == first.req && Truthy(first.req.Key()) && Step(Run(s, before), first).result.Ok?
    requires Proper(Step(Run(s, before), first).after, first.now, between)
    ensures Run(s, before + [first] + between + [again] + rest) == Run(s, before + [first] + between + rest)
  {
    var at := Run(s, before);
    RunKeepsValid(s, before);
    RunKeepsTruthy(s, before);
    RetryChangesNothing(at, first, between, again);
    RunConcat(s, before, [first]);
    RunOne(at, first);
    var later := Run(s, before + [first] + between);
    RunConcat(s, before + [first], between);
    RunConcat(s, before + [first] + between, [again]);
    RunOne(later, again);
    RunConcat(s, before + [first] + between + [again], rest);
    RunConcat(s, before + [first] + between, rest);
  }

  // ---- erasing every replay ----------------------------------------------------------------

  ghost predicate IsReplay(s: Mem, c: Call) {
    Truthy(c.req.Key()) && c.req.Key().value in s.idempotency
  }

  /** The run without the calls whose key is already stored when they come. */
  ghost function Erased(s: Mem, calls: seq<Call>): seq<Call> {
    if calls == [] then []
    else
      var front, last := calls[..|calls| - 1], calls[|calls| - 1];
      if IsReplay(Run(s, front), last) then Erased(s, front) else Erased(s, front) + [last]
  }

  /** Exactly once: erasing every replay gives the same cards, leases, artifacts, events and keys. */
  lemma {:induction false} ErasingReplaysChangesNothing(s: Mem, calls: seq<Call>)
    requires Valid(s) && NothingFalsy(s)
    ensures Run(s, Erased(s, calls)) == Run(s, calls)
  {
    if calls != [] {
      var front, last := calls[..|calls| - 1], calls[|calls| - 1];
      ErasingReplaysChangesNothing(s, front);
      RunKeepsTruthy(s, front);
      if !IsReplay(Run(s, front), last) {
        RunConcat(s, Erased(s, front), [last]);
        RunOne(Run(s, front), last);
      }
    }
  }

  /** And what is left repeats no key whose request succeeded and was stored. */
  lemma {:induction false} ErasedRunHasNoReplay(s: Mem, calls: seq<Call>, i: nat)
    requires Valid(s) && NothingFalsy(s) && i < |Erased(s, calls)|
    ensures !IsReplay(Run(s, Erased(s, calls)[..i]), Erased(s, calls)[i])
  {
    var front, last := calls[..|calls| - 1], calls[|calls| - 1];
    if i < |Erased(s, front)| {
      ErasedRunHasNoReplay(s, front, i);
      assert Erased(s, calls)[..i] == Erased(s, front)[..i];
    } else {
      ErasingReplaysChangesNothing(s, front);
      assert Erased(s, calls)[..i] == Erased(s, front);
    }
  }
}
