/**
  The pre-receive secret-scan gate of the githook controller.

  For every reference update of a push (except deletions) the gate scans the commit range
  `baseRev..rev` for leaked secrets. A newly created reference has no old commit, so its base is
  a fallback commit looked up once per push and cached. Findings block the push through the hook's
  `Output` value. A failing collaborator is reported through the error return instead.

  The collaborators (settings store, fallback lookup, secret scanner, findings printer) are given
  as fixed answers in `Oracles`. `Collaborators` records in a ghost log every lookup and scan call
  the gate makes to them, in order.
*/
module PreReceiveScanSecrets {
  import opened Wrappers

  /** The all-zero object id: "no object" as an old value, "deleted" as a new value. */
  const NilSHA: string := "0000000000000000000000000000000000000000"
  /** Peels a revision to the commit it names. */
  const CommitSuffix: string := "^{commit}"
  /** What `output.Error` is set to when the push is blocked. */
  const BlockedByScanMessage: string := "Changes blocked by security scan results"

  predicate IsNil(sha: string) { sha == NilSHA }

  function CommitRev(sha: string): string { sha + CommitSuffix }

  datatype RefUpdate = RefUpdate(ref: string, oldSHA: string, newSHA: string)

  datatype Environment = Environment(alternateObjectDirs: seq<string>)

  datatype PreReceiveInput = PreReceiveInput(refUpdates: seq<RefUpdate>, environment: Environment)

  datatype Repository = Repository(id: int, gitUID: string)

  /** One detected secret; the scanner produces it and the gate only collects and prints it. */
  datatype Finding = Finding(ruleID: string, file: string, startLine: int)

  /** The arguments of one call to the secret scanner. */
  datatype ScanSecretsParams = ScanSecretsParams(
    repoUID: string,
    alternateObjectDirs: seq<string>,
    baseRev: string,
    rev: string)

  /** What the fallback lookup returns when it does not fail: a sha and whether it is usable. */
  datatype FallbackSHA = FallbackSHA(sha: string, available: bool)

  datatype Error =
    | SettingsCheckFailed(cause: string)
    | FallbackSHAFailed(cause: string)
    | SecretDetectionFailed(cause: string)
    | GitLeaksScanFailed(inner: Error)

  /** The answers of the collaborators. They are fixed for one push. */
  datatype Oracles = Oracles(
    scanningEnabled: Result<bool, string>,
    fallback: (seq<RefUpdate>, RefUpdate) -> Result<FallbackSHA, string>,
    scan: ScanSecretsParams -> Result<seq<Finding>, string>,
    printFindings: seq<Finding> -> seq<string>)

  datatype ScanSecretsResult = ScanSecretsResult(findings: seq<Finding>)

  function HasResults(r: ScanSecretsResult): (b: bool)
    ensures b <==> r.findings != []
  {
    |r.findings| > 0
  }

  /**
    The per-push fallback-base cache: `Unresolved` before the lookup, `Resolved(sha)` after it,
    where the empty base means "scan from the root".
  */
  datatype FallbackBase = Unresolved | Resolved(base: string)

  /** The base used for new references once the fallback is resolved. */
  function BaseFromFallback(f: FallbackSHA): (base: string)
    ensures f.available ==> base == f.sha
    ensures !f.available ==> base == ""
  {
    if f.available then f.sha else ""
  }

  /** The scan arguments for update `u` with base revision `baseRev`. */
  function Params(repo: Repository, input: PreReceiveInput, baseRev: string, u: RefUpdate): (p: ScanSecretsParams)
  {
    ScanSecretsParams(repo.gitUID, input.environment.alternateObjectDirs, baseRev, CommitRev(u.newSHA))
  }

  /** An update that creates a reference: its new sha is not nil and its old sha is. */
  predicate IsNewRef(u: RefUpdate)
  {
    !IsNil(u.newSHA) && IsNil(u.oldSHA)
  }

  /** One collaborator call of the loop: a fallback lookup about an update, or a scan. */
  datatype Call = Lookup(current: RefUpdate) | Scan(params: ScanSecretsParams)

  /** The error that the answer to call `c` ends the loop with; None when the call succeeds. */
  function CallError(o: Oracles, input: PreReceiveInput, c: Call): (err: Option<Error>)
  {
    match c
    case Lookup(u) =>
      (match o.fallback(input.refUpdates, u)
       case Err(cause) => Some(FallbackSHAFailed(cause))
       case Ok(_) => None)
    case Scan(p) =>
      (match o.scan(p)
       case Err(cause) => Some(SecretDetectionFailed(cause))
       case Ok(_) => None)
  }

  /** The scans among `calls`, in call order. */
  function Scans(calls: seq<Call>): (ps: seq<ScanSecretsParams>)
    decreases |calls|
  {
    if calls == [] then []
    else (if calls[0].Scan? then [calls[0].params] else []) + Scans(calls[1..])
  }

  /** The fallback lookups among `calls`, in call order. */
  function Lookups(calls: seq<Call>): (us: seq<RefUpdate>)
    decreases |calls|
  {
    if calls == [] then []
    else (if calls[0].Lookup? then [calls[0].current] else []) + Lookups(calls[1..])
  }

  lemma {:induction false} ScansOfConcat(a: seq<Call>, b: seq<Call>)
    ensures Scans(a + b) == Scans(a) + Scans(b)
    decreases |a|
  {
    if a == [] {
      assert a + b == b;
    } else {
      var ab := a + b;
      assert ab[0] == a[0] && ab[1..] == a[1..] + b;
      ScansOfConcat(a[1..], b);
      var head := if a[0].Scan? then [a[0].params] else [];
      assert Scans(ab) == head + Scans(a[1..] + b);
      assert Scans(a) == head + Scans(a[1..]);
    }
  }

  lemma {:induction false} LookupsOfConcat(a: seq<Call>, b: seq<Call>)
    ensures Lookups(a + b) == Lookups(a) + Lookups(b)
    decreases |a|
  {
    if a == [] {
      assert a + b == b;
    } else {
      var ab := a + b;
      assert ab[0] == a[0] && ab[1..] == a[1..] + b;
      LookupsOfConcat(a[1..], b);
      var head := if a[0].Lookup? then [a[0].current] else [];
      assert Lookups(ab) == head + Lookups(a[1..] + b);
      assert Lookups(a) == head + Lookups(a[1..]);
    }
  }

  lemma ScansAndLookupsOfConcat(a: seq<Call>, b: seq<Call>)
    ensures Scans(a + b) == Scans(a) + Scans(b)
    ensures Lookups(a + b) == Lookups(a) + Lookups(b)
  {
    ScansOfConcat(a, b);
    LookupsOfConcat(a, b);
  }

  /** The state of the per-reference loop, together with the calls made so far, in order. */
  datatype LoopState = LoopState(
    fallback: FallbackBase,
    findings: seq<Finding>,
    calls: seq<Call>,
    failure: Option<Error>)

  const Initial: LoopState := LoopState(Unresolved, [], [], None)

  /** One scan call and what it adds to the state. */
  function ScanOne(o: Oracles, s: LoopState, p: ScanSecretsParams): (r: LoopState)
  {
    var s' := s.(calls := s.calls + [Scan(p)]);
    match o.scan(p)
    case Err(cause) => s'.(failure := Some(SecretDetectionFailed(cause)))
    case Ok(found) => s'.(findings := s.findings + found)
  }

  /**
    One iteration of the per-reference loop. It only appends calls, at most a lookup and a scan,
    and only a lookup from an unresolved cache about a new reference. A deletion changes nothing
    and a resolved cache stays as it is. A failure is the error answer of the last call.
  */
  function Step(o: Oracles, repo: Repository, input: PreReceiveInput, s: LoopState, u: RefUpdate): (r: LoopState)
    ensures s.calls <= r.calls && |r.calls| <= |s.calls| + 2
    ensures IsNil(u.newSHA) ==> r == s
    ensures forall i :: |s.calls| <= i < |r.calls| && r.calls[i].Lookup? ==>
      s.fallback.Unresolved? && IsNewRef(u) && r.calls[i] == Lookup(u)
    ensures s.fallback.Resolved? ==> r.fallback == s.fallback
    ensures s.failure.None? && r.failure.Some? ==>
      r.calls != [] && r.failure == CallError(o, input, r.calls[|r.calls| - 1])
  {
    if IsNil(u.newSHA) then s
    else if !IsNil(u.oldSHA) then ScanOne(o, s, Params(repo, input, CommitRev(u.oldSHA), u))
    else match s.fallback
      case Resolved(base) => ScanOne(o, s, Params(repo, input, base, u))
      case Unresolved =>
        var s1 := s.(calls := s.calls + [Lookup(u)]);
        match o.fallback(input.refUpdates, u)
        case Err(cause) => s1.(failure := Some(FallbackSHAFailed(cause)))
        case Ok(f) =>
          var base := BaseFromFallback(f);
          ScanOne(o, s1.(fallback := Resolved(base)), Params(repo, input, base, u))
  }

  /**
    The loop over `us` from state `s`; it stops at the first failure. Calls are only ever
    appended, a failed state is final, and a resolved cache is never changed.
  */
  function Run(o: Oracles, repo: Repository, input: PreReceiveInput, s: LoopState, us: seq<RefUpdate>): (t: LoopState)
    ensures s.calls <= t.calls
    ensures s.failure.Some? ==> t == s
    ensures s.fallback.Resolved? ==> t.fallback == s.fallback
    decreases |us|
  {
    if us == [] || s.failure.Some? then s
    else Run(o, repo, input, Step(o, repo, input, s, us[0]), us[1..])
  }

  /**
    The scans the push asks for: one per update that is not a deletion, in order. An existing
    reference is scanned from its old commit, and a new reference from `base`.
  */
  function Planned(repo: Repository, input: PreReceiveInput, base: string, us: seq<RefUpdate>): (plan: seq<ScanSecretsParams>)
    decreases |us|
  {
    if us == [] then []
    else
      PlanOne(repo, input, base, us[0]) + Planned(repo, input, base, us[1..])
  }

  /** The base revision of update `u`: its old commit, or `base` for a new reference. */
  function BaseFor(base: string, u: RefUpdate): (baseRev: string)
  {
    if IsNil(u.oldSHA) then base else CommitRev(u.oldSHA)
  }

  /** The scan that update `u` asks for: none for a deletion. */
  function PlanOne(repo: Repository, input: PreReceiveInput, base: string, u: RefUpdate): (plan: seq<ScanSecretsParams>)
  {
    if IsNil(u.newSHA) then [] else [Params(repo, input, BaseFor(base, u), u)]
  }

  /**
    The calls update `u` asks for. A new reference met while the cache is not yet filled (`cached`
    false) first asks the fallback lookup about itself.
  */
  function PlanOneCalls(repo: Repository, input: PreReceiveInput, base: string, cached: bool, u: RefUpdate): (calls: seq<Call>)
  {
    if IsNil(u.newSHA) then []
    else if IsNewRef(u) && !cached then [Lookup(u), Scan(Params(repo, input, base, u))]
    else [Scan(Params(repo, input, BaseFor(base, u), u))]
  }

  /** All the calls the push asks for, lookups and scans interleaved in the order they are made. */
  function PlannedCalls(repo: Repository, input: PreReceiveInput, base: string, cached: bool, us: seq<RefUpdate>)
    : (calls: seq<Call>)
    decreases |us|
  {
    if us == [] then []
    else
      PlanOneCalls(repo, input, base, cached, us[0])
      + PlannedCalls(repo, input, base, cached || IsNewRef(us[0]), us[1..])
  }

  /** The first update that creates a reference: the one the fallback lookup is asked about. */
  function FirstNewRef(us: seq<RefUpdate>): (first: Option<RefUpdate>)
    ensures first.Some? ==> first.value in us && IsNewRef(first.value)
    decreases |us|
  {
    if us == [] then None
    else if IsNewRef(us[0]) then Some(us[0])
    else FirstNewRef(us[1..])
  }

  /**
    The base every new reference of the push is scanned from: what the fallback lookup about the
    first new reference answers, or `""` when there is no new reference or the lookup fails (then
    no new reference is scanned at all).
  */
  function FallbackBaseOf(o: Oracles, input: PreReceiveInput): (base: string)
  {
    match FirstNewRef(input.refUpdates)
    case None => ""
    case Some(u) =>
      match o.fallback(input.refUpdates, u)
      case Ok(f) => BaseFromFallback(f)
      case Err(_) => ""
  }

  /** The findings of the successful scans `ps`, concatenated in call order. */
  function FindingsOf(o: Oracles, ps: seq<ScanSecretsParams>): (found: seq<Finding>)
    decreases |ps|
  {
    if ps == [] then []
    else
      var last := o.scan(ps[|ps| - 1]);
      FindingsOf(o, ps[..|ps| - 1]) + (if last.Ok? then last.value else [])
  }

  /**
    The invariant of the loop's calls: every call but the last succeeded, the failure is the
    error answer of the last call (none if it succeeded), and while nothing has failed the
    findings are those of the scans, in call order.
  */
  ghost predicate CallsConsistent(o: Oracles, input: PreReceiveInput, s: LoopState)
  {
    && (forall i :: 0 <= i < |s.calls| - 1 ==> CallError(o, input, s.calls[i]).None?)
    && s.failure == (if s.calls == [] then None else CallError(o, input, s.calls[|s.calls| - 1]))
    && (s.failure.None? ==> s.findings == FindingsOf(o, Scans(s.calls)))
  }

  /**
    The whole effect of one evaluation: the error returned, the calls made, the messages appended
    to `output.Messages`, and the value given to `output.Error` (None: left as it was).
  */
  datatype GateEffect = GateEffect(
    err: Option<Error>,
    calls: seq<Call>,
    appendedMessages: seq<string>,
    blockError: Option<string>)

  function Evaluate(o: Oracles, repo: Repository, input: PreReceiveInput): (e: GateEffect)
    // an evaluation failure never blocks, and a block is never an error
    ensures e.err.Some? ==> e.appendedMessages == [] && e.blockError.None?
    ensures e.blockError.Some? ==> e.err.None? && e.blockError == Some(BlockedByScanMessage)
    ensures e.blockError.None? ==> e.appendedMessages == []
    // no collaborator is called unless scanning is enabled
    ensures o.scanningEnabled != Ok(true) ==> e.calls == []
  {
    match o.scanningEnabled
    case Err(cause) => GateEffect(Some(SettingsCheckFailed(cause)), [], [], None)
    case Ok(enabled) =>
      if !enabled then GateEffect(None, [], [], None)
      else
        var t := Run(o, repo, input, Initial, input.refUpdates);
        if t.failure.Some? then
          GateEffect(Some(GitLeaksScanFailed(t.failure.value)), t.calls, [], None)
        else if !HasResults(ScanSecretsResult(t.findings)) then
          GateEffect(None, t.calls, [], None)
        else
          GateEffect(None, t.calls, o.printFindings(t.findings) + ["", ""], Some(BlockedByScanMessage))
  }

  // ---------------------------------------------------------------------------------------------
  // Properties of the loop

  /**
    The calls made from state `s` are a prefix of the planned calls, all of them when no call
    failed. `base` is the base the cache holds whenever it is resolved.
  */
  lemma {:induction false} CallsFollowPlan(o: Oracles, repo: Repository, input: PreReceiveInput, s: LoopState, us: seq<RefUpdate>, base: string)
    requires s.failure.None?
    requires s.fallback.Resolved? ==> s.fallback.base == base
    requires Run(o, repo, input, s, us).fallback.Resolved? ==> Run(o, repo, input, s, us).fallback.base == base
    ensures var t := Run(o, repo, input, s, us);
      var plan := PlannedCalls(repo, input, base, s.fallback.Resolved?, us);
      && t.calls <= s.calls + plan
      && (t.failure.None? ==> t.calls == s.calls + plan)
    decreases |us|
  {
    if us == [] {
      assert s.calls + [] == s.calls;
      return;
    }
    var u := us[0];
    var s1 := Step(o, repo, input, s, u);
    var t := Run(o, repo, input, s1, us[1..]);
    assert Run(o, repo, input, s, us) == t;
    var here := PlanOneCalls(repo, input, base, s.fallback.Resolved?, u);
    var rest := PlannedCalls(repo, input, base, s.fallback.Resolved? || IsNewRef(u), us[1..]);
    assert PlannedCalls(repo, input, base, s.fallback.Resolved?, us) == here + rest;
    StepCallsPlanOne(o, repo, input, s, u, base);
    if s1.failure.None? {
      CallsFollowPlan(o, repo, input, s1, us[1..], base);
    }
    PrefixThroughStep(s.calls, s1.calls, t.calls, here, rest, s1.failure.None?, t.failure.None?);
  }

  /**
    The calls `y` after a step that made `x1` from `x`, combined: a prefix of the step's plan
    `here` followed by a prefix of the remaining plan `rest` is a prefix of `here + rest`.
  */
  lemma PrefixThroughStep<T>(x: seq<T>, x1: seq<T>, y: seq<T>, here: seq<T>, rest: seq<T>, stepOk: bool, ok: bool)
    requires x1 <= x + here
    requires stepOk ==> x1 == x + here && y <= x1 + rest && (ok ==> y == x1 + rest)
    requires !stepOk ==> y == x1 && !ok
    ensures y <= x + (here + rest)
    ensures ok ==> y == x + (here + rest)
  {
    assert x + (here + rest) == (x + here) + rest;
  }

  /** One loop step makes a prefix of the calls its update asks for, all of them if nothing failed. */
  lemma StepCallsPlanOne(o: Oracles, repo: Repository, input: PreReceiveInput, s: LoopState, u: RefUpdate, base: string)
    requires s.failure.None?
    requires s.fallback.Resolved? ==> s.fallback.base == base
    requires Step(o, repo, input, s, u).fallback.Resolved? ==> Step(o, repo, input, s, u).fallback.base == base
    ensures var s1 := Step(o, repo, input, s, u);
      var here := PlanOneCalls(repo, input, base, s.fallback.Resolved?, u);
      && s1.calls <= s.calls + here
      && (s1.failure.None? ==>
            s1.calls == s.calls + here && s1.fallback.Resolved? == (s.fallback.Resolved? || IsNewRef(u)))
  {
  }

  /**
    The calls of the whole loop, lookups and scans together, are a prefix of the planned calls in
    their order, all of them when nothing failed. The plan uses the one base the cache ends with.
  */
  lemma CallsFollowRefUpdates(o: Oracles, repo: Repository, input: PreReceiveInput)
    ensures var t := Run(o, repo, input, Initial, input.refUpdates);
      var plan := PlannedCalls(repo, input, FallbackBaseOf(o, input), false, input.refUpdates);
      && t.calls <= plan
      && (t.failure.None? ==> t.calls == plan)
  {
    var t := Run(o, repo, input, Initial, input.refUpdates);
    var plan := PlannedCalls(repo, input, FallbackBaseOf(o, input), false, input.refUpdates);
    FallbackLookupFromUnresolved(o, repo, input, Initial, input.refUpdates);
    CallsFollowPlan(o, repo, input, Initial, input.refUpdates, FallbackBaseOf(o, input));
    assert [] + plan == plan;
  }

  /**
    The planned calls hold the planned scans, and a single lookup, about the first new reference,
    unless the cache is already filled.
  */
  lemma {:induction false} PlannedCallsProjections(repo: Repository, input: PreReceiveInput, base: string, cached: bool, us: seq<RefUpdate>)
    ensures Scans(PlannedCalls(repo, input, base, cached, us)) == Planned(repo, input, base, us)
    ensures Lookups(PlannedCalls(repo, input, base, cached, us)) == if cached then [] else OptionToSeq(FirstNewRef(us))
    decreases |us|
  {
    if us != [] {
      var u := us[0];
      var here := PlanOneCalls(repo, input, base, cached, u);
      var rest := PlannedCalls(repo, input, base, cached || IsNewRef(u), us[1..]);
      ScansAndLookupsOfConcat(here, rest);
      PlannedCallsProjections(repo, input, base, cached || IsNewRef(u), us[1..]);
      if IsNewRef(u) && !cached {
        assert here == [Lookup(u)] + [Scan(Params(repo, input, base, u))];
        ScansAndLookupsOfConcat([Lookup(u)], [Scan(Params(repo, input, base, u))]);
      }
    }
  }

  /** The projections of a prefix are prefixes of the projections. */
  lemma ProjectionsOfPrefix(a: seq<Call>, b: seq<Call>)
    requires a <= b
    ensures Scans(a) <= Scans(b) && Lookups(a) <= Lookups(b)
  {
    assert b == a + b[|a|..];
    ScansAndLookupsOfConcat(a, b[|a|..]);
  }

  /** From an unresolved cache, the cache is filled from the lookup about the first new reference. */
  lemma {:induction false} FallbackLookupFromUnresolved(o: Oracles, repo: Repository, input: PreReceiveInput, s: LoopState, us: seq<RefUpdate>)
    requires s.fallback.Unresolved? && s.failure.None?
    ensures var t := Run(o, repo, input, s, us);
      var first := FirstNewRef(us);
      && (t.failure.None? && first.Some? ==> t.fallback.Resolved?)
      && (t.fallback.Resolved? ==>
            && first.Some?
            && o.fallback(input.refUpdates, first.value).Ok?
            && t.fallback.base == BaseFromFallback(o.fallback(input.refUpdates, first.value).value))
    decreases |us|
  {
    if us == [] {
      return;
    }
    var u := us[0];
    var s1 := Step(o, repo, input, s, u);
    if IsNewRef(u) {
      assert FirstNewRef(us) == Some(u);
      if s1.failure.None? {
        assert s1.fallback == Resolved(BaseFromFallback(o.fallback(input.refUpdates, u).value));
      }
    } else {
      assert FirstNewRef(us) == FirstNewRef(us[1..]);
      assert s1.fallback.Unresolved?;
      if s1.failure.None? {
        FallbackLookupFromUnresolved(o, repo, input, s1, us[1..]);
      }
    }
  }

  /**
    However many references the push creates, the fallback lookup is made at most once, about the
    first of them. When nothing fails it is made exactly then, and every new reference is scanned
    from the base it returned.
  */
  lemma FallbackLookedUpAtMostOnce(o: Oracles, repo: Repository, input: PreReceiveInput)
    ensures var t := Run(o, repo, input, Initial, input.refUpdates);
      var first := FirstNewRef(input.refUpdates);
      var lookups := Lookups(t.calls);
      && |lookups| <= 1
      && (lookups == [] || (first.Some? && lookups == [first.value]))
      && (t.failure.None? ==> lookups == OptionToSeq(first))
      && (t.failure.None? && first.Some? ==> t.fallback.Resolved?)
      && (t.fallback.Resolved? ==>
            && first.Some?
            && o.fallback(input.refUpdates, first.value).Ok?
            && t.fallback.base == BaseFromFallback(o.fallback(input.refUpdates, first.value).value))
  {
    var t := Run(o, repo, input, Initial, input.refUpdates);
    var plan := PlannedCalls(repo, input, FallbackBaseOf(o, input), false, input.refUpdates);
    CallsFollowRefUpdates(o, repo, input);
    PlannedCallsProjections(repo, input, FallbackBaseOf(o, input), false, input.refUpdates);
    ProjectionsOfPrefix(t.calls, plan);
    FallbackLookupFromUnresolved(o, repo, input, Initial, input.refUpdates);
  }

  /**
    The scanner is called once per update that is not a deletion, in push order, stopping at the
    first failure. An existing reference is scanned as `old^{commit}..new^{commit}`. Every new
    reference is scanned from the one cached fallback base, which has no `^{commit}` suffix.
  */
  lemma ScansFollowRefUpdates(o: Oracles, repo: Repository, input: PreReceiveInput)
    ensures var t := Run(o, repo, input, Initial, input.refUpdates);
      var plan := Planned(repo, input, FallbackBaseOf(o, input), input.refUpdates);
      && Scans(t.calls) <= plan
      && (t.failure.None? ==> Scans(t.calls) == plan)
  {
    var t := Run(o, repo, input, Initial, input.refUpdates);
    CallsFollowRefUpdates(o, repo, input);
    PlannedCallsProjections(repo, input, FallbackBaseOf(o, input), false, input.refUpdates);
    ProjectionsOfPrefix(t.calls, PlannedCalls(repo, input, FallbackBaseOf(o, input), false, input.refUpdates));
  }

  /** The updates of `us` that are not deletions, in order. */
  function NonDeleted(us: seq<RefUpdate>): (r: seq<RefUpdate>)
    ensures forall i :: 0 <= i < |r| ==> !IsNil(r[i].newSHA)
    ensures |r| <= |us|
    decreases |us|
  {
    if us == [] then []
    else if IsNil(us[0].newSHA) then NonDeleted(us[1..])
    else [us[0]] + NonDeleted(us[1..])
  }

  /** The `i`-th planned scan is that of the `i`-th update that is not a deletion. */
  lemma {:induction false} PlannedScansNonDeleted(repo: Repository, input: PreReceiveInput, base: string, us: seq<RefUpdate>)
    ensures var plan := Planned(repo, input, base, us);
      var targets := NonDeleted(us);
      && |plan| == |targets|
      && forall i :: 0 <= i < |plan| ==>
           plan[i] == Params(repo, input, BaseFor(base, targets[i]), targets[i])
    decreases |us|
  {
    if us != [] {
      var plan, rest := Planned(repo, input, base, us), Planned(repo, input, base, us[1..]);
      var targets, restTargets := NonDeleted(us), NonDeleted(us[1..]);
      PlannedScansNonDeleted(repo, input, base, us[1..]);
      if IsNil(us[0].newSHA) {
        assert plan == rest && targets == restTargets;
      } else {
        assert plan == [Params(repo, input, BaseFor(base, us[0]), us[0])] + rest;
        assert targets == [us[0]] + restTargets;
        forall i | 0 < i < |plan|
          ensures plan[i] == Params(repo, input, BaseFor(base, targets[i]), targets[i])
        {
          assert plan[i] == rest[i - 1] && targets[i] == restTargets[i - 1];
        }
      }
    }
  }

  /**
    Deletions are never scanned: the `i`-th scan call is that of the `i`-th update that is not a
    deletion. A push of deletions only makes no call at all.
  */
  lemma DeletionsNeverScanned(o: Oracles, repo: Repository, input: PreReceiveInput)
    ensures var t := Run(o, repo, input, Initial, input.refUpdates);
      var scans := Scans(t.calls);
      var targets := NonDeleted(input.refUpdates);
      && |scans| <= |targets|
      && forall i :: 0 <= i < |scans| ==>
           !IsNil(targets[i].newSHA) && scans[i].rev == CommitRev(targets[i].newSHA)
    ensures (forall u :: u in input.refUpdates ==> IsNil(u.newSHA)) ==>
      Run(o, repo, input, Initial, input.refUpdates).calls == []
  {
    var t := Run(o, repo, input, Initial, input.refUpdates);
    var base := FallbackBaseOf(o, input);
    ScansFollowRefUpdates(o, repo, input);
    PlannedScansNonDeleted(repo, input, base, input.refUpdates);
    var targets := NonDeleted(input.refUpdates);
    assert forall i :: 0 <= i < |Scans(t.calls)| ==> targets[i] in targets;
    if forall u :: u in input.refUpdates ==> IsNil(u.newSHA) {
      CallsFollowRefUpdates(o, repo, input);
      OnlyDeletions(repo, input, base, false, input.refUpdates);
    }
  }

  /** A list of deletions has no update to scan, no new reference and asks for no call. */
  lemma {:induction false} OnlyDeletions(repo: Repository, input: PreReceiveInput, base: string, cached: bool, us: seq<RefUpdate>)
    requires forall u :: u in us ==> IsNil(u.newSHA)
    ensures NonDeleted(us) == [] && FirstNewRef(us).None?
    ensures PlannedCalls(repo, input, base, cached, us) == []
    decreases |us|
  {
    if us != [] {
      assert us[0] in us;
      assert forall u :: u in us[1..] ==> u in us;
      OnlyDeletions(repo, input, base, cached, us[1..]);
    }
  }

  lemma FindingsOfAppend(o: Oracles, ps: seq<ScanSecretsParams>, p: ScanSecretsParams)
    ensures FindingsOf(o, ps + [p]) == FindingsOf(o, ps) + (if o.scan(p).Ok? then o.scan(p).value else [])
  {
    assert (ps + [p])[..|ps|] == ps;
  }

  /** A scan from a state without failure keeps the calls consistent. */
  lemma ScanOneKeepsCallsConsistent(o: Oracles, input: PreReceiveInput, s: LoopState, p: ScanSecretsParams)
    requires s.failure.None? && CallsConsistent(o, input, s)
    ensures CallsConsistent(o, input, ScanOne(o, s, p))
  {
    var s1 := ScanOne(o, s, p);
    assert s1.calls == s.calls + [Scan(p)];
    forall i | 0 <= i < |s1.calls| - 1
      ensures CallError(o, input, s1.calls[i]).None?
    {
      assert s1.calls[i] == s.calls[i];
    }
    if s1.failure.None? {
      ScansAndLookupsOfConcat(s.calls, [Scan(p)]);
      assert Scans(s1.calls) == Scans(s.calls) + [p];
      FindingsOfAppend(o, Scans(s.calls), p);
    }
  }

  /** Each loop step from a state without failure keeps the calls consistent. */
  lemma StepKeepsCallsConsistent(o: Oracles, repo: Repository, input: PreReceiveInput, s: LoopState, u: RefUpdate)
    requires s.failure.None? && CallsConsistent(o, input, s)
    ensures CallsConsistent(o, input, Step(o, repo, input, s, u))
  {
    if IsNil(u.newSHA) {
    } else if !IsNil(u.oldSHA) {
      ScanOneKeepsCallsConsistent(o, input, s, Params(repo, input, CommitRev(u.oldSHA), u));
    } else if s.fallback.Resolved? {
      ScanOneKeepsCallsConsistent(o, input, s, Params(repo, input, s.fallback.base, u));
    } else {
      LookupKeepsCallsConsistent(o, repo, input, s, u);
    }
  }

  /** The step of a new reference from an unresolved cache keeps the calls consistent. */
  lemma LookupKeepsCallsConsistent(o: Oracles, repo: Repository, input: PreReceiveInput, s: LoopState, u: RefUpdate)
    requires s.failure.None? && CallsConsistent(o, input, s)
    requires IsNewRef(u) && s.fallback.Unresolved?
    ensures CallsConsistent(o, input, Step(o, repo, input, s, u))
  {
    var answer := o.fallback(input.refUpdates, u);
    var calls := s.calls + [Lookup(u)];
    forall i | 0 <= i < |calls| - 1
      ensures CallError(o, input, calls[i]).None?
    {
      assert calls[i] == s.calls[i];
    }
    if answer.Ok? {
      var base := BaseFromFallback(answer.value);
      var s1 := s.(calls := calls, fallback := Resolved(base));
      ScansOfConcat(s.calls, [Lookup(u)]);
      assert Scans(calls) == Scans(s.calls);
      assert CallsConsistent(o, input, s1);
      ScanOneKeepsCallsConsistent(o, input, s1, Params(repo, input, base, u));
    }
  }

  lemma {:induction false} RunKeepsCallsConsistent(o: Oracles, repo: Repository, input: PreReceiveInput, s: LoopState, us: seq<RefUpdate>)
    requires CallsConsistent(o, input, s)
    ensures CallsConsistent(o, input, Run(o, repo, input, s, us))
    decreases |us|
  {
    if us != [] && s.failure.None? {
      StepKeepsCallsConsistent(o, repo, input, s, us[0]);
      RunKeepsCallsConsistent(o, repo, input, Step(o, repo, input, s, us[0]), us[1..]);
    }
  }

  /**
    A failing fallback lookup or scan ends the loop: the error is the answer of the last call
    made, and every call before it, lookup or scan, succeeded. As the calls follow the planned
    order, a failed lookup is followed by no scan and a failed scan by no lookup.
  */
  lemma AbortsAtFirstFailure(o: Oracles, repo: Repository, input: PreReceiveInput)
    ensures var t := Run(o, repo, input, Initial, input.refUpdates);
      var n := |t.calls|;
      && t.calls <= PlannedCalls(repo, input, FallbackBaseOf(o, input), false, input.refUpdates)
      && (forall i :: 0 <= i < n - 1 ==> CallError(o, input, t.calls[i]).None?)
      && (t.failure.Some? <==> n > 0 && CallError(o, input, t.calls[n - 1]).Some?)
      && (t.failure.Some? ==> t.failure == CallError(o, input, t.calls[n - 1]))
  {
    RunKeepsCallsConsistent(o, repo, input, Initial, input.refUpdates);
    CallsFollowRefUpdates(o, repo, input);
  }

  /**
    When no call failed, every call succeeded and the collected findings are those of the
    scans concatenated in push order.
  */
  lemma FindingsInRefUpdateOrder(o: Oracles, repo: Repository, input: PreReceiveInput)
    ensures var t := Run(o, repo, input, Initial, input.refUpdates);
      t.failure.None? ==>
        && t.findings == FindingsOf(o, Planned(repo, input, FallbackBaseOf(o, input), input.refUpdates))
        && forall i :: 0 <= i < |t.calls| ==> CallError(o, input, t.calls[i]).None?
  {
    var t := Run(o, repo, input, Initial, input.refUpdates);
    RunKeepsCallsConsistent(o, repo, input, Initial, input.refUpdates);
    ScansFollowRefUpdates(o, repo, input);
    if t.failure.None? {
      assert t.findings == FindingsOf(o, Scans(t.calls));
      assert Scans(t.calls) == Planned(repo, input, FallbackBaseOf(o, input), input.refUpdates);
      var n := |t.calls|;
      assert n > 0 ==> CallError(o, input, t.calls[n - 1]).None?;
    }
  }

  /**
    The push is blocked exactly when scanning is enabled, every collaborator call succeeded and the
    planned scans found something. The printed findings and two empty lines are then appended.
  */
  lemma BlockedExactlyWhenFindings(o: Oracles, repo: Repository, input: PreReceiveInput)
    ensures var e := Evaluate(o, repo, input);
      var t := Run(o, repo, input, Initial, input.refUpdates);
      var found := FindingsOf(o, Planned(repo, input, FallbackBaseOf(o, input), input.refUpdates));
      && (e.blockError.Some? <==> o.scanningEnabled == Ok(true) && t.failure.None? && found != [])
      && (e.blockError.Some? ==> e.appendedMessages == o.printFindings(found) + ["", ""])
  {
    FindingsInRefUpdateOrder(o, repo, input);
  }

  // ---------------------------------------------------------------------------------------------
  // The imperative gate

  /** The hook's output record; the gate appends messages and may set the blocking error. */
  class Output {
    var messages: seq<string>
    var error: Option<string>
  }

  /** The collaborators of the gate, answering from `oracles` and logging the calls made. */
  class Collaborators {
    const oracles: Oracles
    ghost var calls: seq<Call>

    /** settings.RepoGet of the "secret scanning enabled" key, its default already applied. */
    method RepoGetScanningEnabled() returns (r: Result<bool, string>)
      ensures r == oracles.scanningEnabled
    {
      r := oracles.scanningEnabled;
    }

    method GetBaseSHAForScanningChanges(refUpdates: seq<RefUpdate>, current: RefUpdate)
      returns (r: Result<FallbackSHA, string>)
      modifies this
      ensures calls == old(calls) + [Lookup(current)]
      ensures r == oracles.fallback(refUpdates, current)
    {
      calls := calls + [Lookup(current)];
      r := oracles.fallback(refUpdates, current);
    }

    method ScanSecrets(params: ScanSecretsParams) returns (r: Result<seq<Finding>, string>)
      modifies this
      ensures calls == old(calls) + [Scan(params)]
      ensures r == oracles.scan(params)
    {
      calls := calls + [Scan(params)];
      r := oracles.scan(params);
    }

    method PrintScanSecretsFindings(output: Output, findings: seq<Finding>)
      modifies output
      ensures output.messages == old(output.messages) + oracles.printFindings(findings)
      ensures output.error == old(output.error)
    {
      output.messages := output.messages + oracles.printFindings(findings);
    }
  }

  /**
    Scans every reference update of the push. On the first failing collaborator call it returns
    the error and no findings.
  */
  method ScanSecretsInternal(c: Collaborators, repo: Repository, input: PreReceiveInput)
    returns (res: ScanSecretsResult, err: Option<Error>)
    modifies c
    ensures var t := Run(c.oracles, repo, input, Initial, input.refUpdates);
      && c.calls == old(c.calls) + t.calls
      && err == t.failure
      && res.findings == (if t.failure.Some? then [] else t.findings)
  {
    var o := c.oracles;
    var us := input.refUpdates;
    var baseRevFallBack: FallbackBase := Unresolved;
    res, err := ScanSecretsResult([]), None;
    ghost var st := Initial;
    for i := 0 to |us|
      invariant st.failure.None? && st.fallback == baseRevFallBack && st.findings == res.findings
      invariant c.calls == old(c.calls) + st.calls
      invariant Run(o, repo, input, st, us[i..]) == Run(o, repo, input, Initial, us)
    {
      var refUpdate := us[i];
      assert us[i..][0] == refUpdate && us[i..][1..] == us[i + 1..];
      st := Step(o, repo, input, st, refUpdate);

      if IsNil(refUpdate.newSHA) {
        continue;
      }

      var baseRev := CommitRev(refUpdate.oldSHA);
      var rev := CommitRev(refUpdate.newSHA);
      if IsNil(refUpdate.oldSHA) {
        if baseRevFallBack.Unresolved? {
          var fallback := c.GetBaseSHAForScanningChanges(us, refUpdate);
          if fallback.Err? {
            assert st.failure.Some? && Run(o, repo, input, st, us[i + 1..]) == st;
            return ScanSecretsResult([]), Some(FallbackSHAFailed(fallback.error));
          }
          baseRevFallBack := Resolved(BaseFromFallback(fallback.value));
        }
        baseRev := baseRevFallBack.base;
      }

      var out := c.ScanSecrets(ScanSecretsParams(repo.gitUID, input.environment.alternateObjectDirs, baseRev, rev));
      if out.Err? {
        assert st.failure.Some? && Run(o, repo, input, st, us[i + 1..]) == st;
        return ScanSecretsResult([]), Some(SecretDetectionFailed(out.error));
      }
      if |out.value| == 0 {
        continue;
      }
      res := res.(findings := res.findings + out.value);
    }
  }

  /**
    The pre-receive secret-scan gate. Findings block the push through `output` and the method
    still returns no error. A failing collaborator gives an error and leaves `output` untouched.
  */
  method ScanSecrets(c: Collaborators, repo: Repository, input: PreReceiveInput, output: Output)
    returns (err: Option<Error>)
    modifies c, output
    ensures var e := Evaluate(c.oracles, repo, input);
      && err == e.err
      && c.calls == old(c.calls) + e.calls
      && output.messages == old(output.messages) + e.appendedMessages
      && output.error == (if e.blockError.Some? then e.blockError else old(output.error))
    ensures c.oracles.scanningEnabled.Err? ==>
      && err == Some(SettingsCheckFailed(c.oracles.scanningEnabled.error))
      && unchanged(output) && c.calls == old(c.calls)
    ensures c.oracles.scanningEnabled == Ok(false) ==>
      && err.None?
      && unchanged(output) && c.calls == old(c.calls)
    ensures err.Some? ==> unchanged(output)
  {
    var scanningEnabled := c.RepoGetScanningEnabled();
    if scanningEnabled.Err? {
      return Some(SettingsCheckFailed(scanningEnabled.error));
    }
    if !scanningEnabled.value {
      return None;
    }

    var scanResult, scanErr := ScanSecretsInternal(c, repo, input);
    if scanErr.Some? {
      return Some(GitLeaksScanFailed(scanErr.value));
    }

    if !HasResults(scanResult) {
      return None;
    }

    c.PrintScanSecretsFindings(output, scanResult.findings);
    output.messages := output.messages + ["", ""];
    output.error := Some(BlockedByScanMessage);
    return None;
  }
}
