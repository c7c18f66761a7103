/** Dispatch-time provider custody: preparing a broker session, freezing it into a dispatch, building
    the runner that owns it, and starting or abandoning that runner. A broker session is named by a
    number; whoever drops it revokes it. */
module Dispatch {
  import opened Common

  type SessionId = nat

  datatype HarnessId = Claude | Opencode
  datatype Protocol = OpenAiCompatible

  datatype RegistryEntry = RegistryEntry(id: HarnessId, protocols: seq<Protocol>)

  const HARNESS_REGISTRY := [RegistryEntry(Claude, []), RegistryEntry(Opencode, [OpenAiCompatible])]

  predicate SupportsProtocol(id: HarnessId, protocol: Protocol) {
    exists e :: e in HARNESS_REGISTRY && e.id == id && protocol in e.protocols
  }

  datatype Launch = Launch(runId: int, reviewHead: Option<string>)
  datatype Provider = Provider(stableId: string, protocol: Protocol,
                               access: Option<SessionId>, ledgers: Option<SessionId>)
  datatype Knobs = ClaudeKnobs(model: string) | OpencodeKnobs(model: string)
  datatype Spec = Spec(harness: HarnessId, model: Option<string>, provider: Option<Provider>, knobs: Knobs)
  datatype Runner = Runner(harness: HarnessId, model: Option<string>, provider: Option<Provider>)

  datatype Refusal =
    | HarnessMismatch(configured: HarnessId, expected: HarnessId)
    | UnsupportedProtocol(harness: HarnessId, protocol: Protocol)
    | MissingModel(provider: string)

  datatype Setter = SetRunId(id: int) | SetReviewHead(sha: string) | SetModelOverride(model: string)

  datatype AdapterSession =
    | LegacySession(setters: seq<Setter>)
    | BrokeredSession(access: SessionId, launch: Launch)

  datatype StartedSession = StartedSession(session: AdapterSession, brokerTurns: Option<SessionId>)

  datatype StartError = AdapterFailed | CustodyAlreadyTaken

  datatype Result<+T, +E> = Ok(value: T) | Err(error: E)

  // ---------------------------------------------------------------------------------------------
  // Broker sessions owned by a value: what dropping it revokes
  // ---------------------------------------------------------------------------------------------

  function Holds(session: Option<SessionId>): multiset<SessionId> {
    if session.Some? then multiset{session.value} else multiset{}
  }

  function ProviderHolds(provider: Option<Provider>): multiset<SessionId> {
    if provider.Some? then Holds(provider.value.access) else multiset{}
  }

  function SessionHolds(session: AdapterSession): multiset<SessionId> {
    if session.BrokeredSession? then multiset{session.access} else multiset{}
  }

  // ---------------------------------------------------------------------------------------------
  // Building a runner
  // ---------------------------------------------------------------------------------------------

  predicate NonEmpty(s: Option<string>) {
    s.Some? && s.value != ""
  }

  /** Today's registry: only opencode speaks a provider protocol. */
  lemma OnlyOpencodeIsBrokered()
    ensures forall id, protocol :: SupportsProtocol(id, protocol) <==> id == Opencode
  {
    var entry := HARNESS_REGISTRY[1];
    forall id: HarnessId, protocol: Protocol ensures SupportsProtocol(id, protocol) <==> id == Opencode {
      match protocol
      case OpenAiCompatible => assert entry in HARNESS_REGISTRY && entry.protocols[0] == protocol;
    }
  }

  /** Validates a spec against the harness it will run on and moves its custody into a runner. It
      refuses rather than run on another harness, protocol or model. */
  function FinishDispatchRunner(configured: HarnessId, spec: Spec): (r: Result<Runner, Refusal>)
    ensures r.Ok? <==> configured == spec.harness
                       && (spec.provider.Some? ==>
                             spec.harness == Opencode && spec.model.Some? && spec.model.value != "")
    ensures r.Ok? ==> r.value.harness == spec.harness && r.value.provider == spec.provider
                      && r.value.model == spec.model
    ensures r.Err? ==> (r.error.HarnessMismatch? <==> configured != spec.harness)
    ensures r.Err? ==> (r.error.UnsupportedProtocol? <==> configured == spec.harness == Claude)
    ensures r.Err? && r.error.HarnessMismatch? ==> r.error == HarnessMismatch(configured, spec.harness)
    ensures r.Err? && !r.error.HarnessMismatch? ==>
              && spec.provider.Some?
              && (r.error == UnsupportedProtocol(Claude, spec.provider.value.protocol)
                  || r.error == MissingModel(spec.provider.value.stableId))
  {
    OnlyOpencodeIsBrokered();
    if configured != spec.harness then Err(HarnessMismatch(configured, spec.harness))
    else if spec.provider.Some? && !SupportsProtocol(spec.harness, spec.provider.value.protocol) then
      Err(UnsupportedProtocol(spec.harness, spec.provider.value.protocol))
    else if spec.provider.Some? && !NonEmpty(spec.model) then
      Err(MissingModel(spec.provider.value.stableId))
    else Ok(Runner(configured, spec.model, spec.provider))
  }

  function HarnessOf(knobs: Knobs): HarnessId {
    match knobs
    case ClaudeKnobs(_) => Claude
    case OpencodeKnobs(_) => Opencode
  }

  /** The factory: the adapter is the one the spec's knobs configure, so the knobs must be those of the
      harness that the spec names. */
  function BuildDispatchRunner(spec: Spec): (r: Result<Runner, Refusal>)
    ensures r.Ok? <==> && (spec.knobs.ClaudeKnobs? <==> spec.harness.Claude?)
                       && (spec.provider.Some? ==>
                             spec.harness == Opencode && spec.model.Some? && spec.model.value != "")
    ensures r == FinishDispatchRunner(HarnessOf(spec.knobs), spec)
  {
    var id := HarnessOf(spec.knobs);
    if id != spec.harness then Err(HarnessMismatch(id, spec.harness))
    else FinishDispatchRunner(id, spec)
  }

  // ---------------------------------------------------------------------------------------------
  // Starting a runner
  // ---------------------------------------------------------------------------------------------

  /** The late setters of the legacy branch, in call order. */
  function LegacySetters(launch: Launch, model: Option<string>): seq<Setter> {
    [SetRunId(launch.runId)]
    + (if NonEmpty(launch.reviewHead) then [SetReviewHead(launch.reviewHead.value)] else [])
    + (if NonEmpty(model) then [SetModelOverride(model.value)] else [])
  }

  /** The legacy branch always passes the run id, and passes a review head or a model exactly when
      there is one to pass. */
  lemma LegacySettersCarryTheLaunch(launch: Launch, model: Option<string>)
    ensures var setters := LegacySetters(launch, model);
            && setters[0] == SetRunId(launch.runId)
            && (forall i, text :: 0 < i < |setters| && setters[i] == SetReviewHead(text) ==>
                  i == 1 && launch.reviewHead == Some(text) && text != "")
            && (forall i, text :: 0 < i < |setters| && setters[i] == SetModelOverride(text) ==>
                  i == |setters| - 1 && model == Some(text) && text != "")
            && (forall i :: 0 < i < |setters| ==> !setters[i].SetRunId?)
            && (launch.reviewHead.Some? && launch.reviewHead.value != "" ==>
                  SetReviewHead(launch.reviewHead.value) in setters)
            && (model.Some? && model.value != "" ==> SetModelOverride(model.value) in setters)
  {
  }

  /** What starting a runner yields, `adapterStarts` being the adapter's own answer. */
  function StartOutcome(runner: Runner, launch: Launch, adapterStarts: bool)
    : Result<StartedSession, StartError>
  {
    if !adapterStarts then Err(AdapterFailed)
    else if runner.provider.None? then
      Ok(StartedSession(LegacySession(LegacySetters(launch, runner.model)), None))
    else
      var provider := runner.provider.value;
      if provider.access.None? || provider.ledgers.None? then Err(CustodyAlreadyTaken)
      else Ok(StartedSession(BrokeredSession(provider.access.value, launch), provider.ledgers))
  }

  /** A start succeeds exactly when the adapter starts and a brokered runner still has both halves of its
      custody; it then hands each half to its own side, and a legacy runner gets no receiver. */
  lemma StartsExactly(runner: Runner, launch: Launch, adapterStarts: bool)
    ensures var result := StartOutcome(runner, launch, adapterStarts);
            && (result.Ok? <==>
                  && adapterStarts
                  && (runner.provider.Some? ==>
                        runner.provider.value.access.Some? && runner.provider.value.ledgers.Some?))
            && (result == Err(AdapterFailed) <==> !adapterStarts)
            && (result.Ok? && runner.provider.Some? ==>
                  && result.value.session == BrokeredSession(runner.provider.value.access.value, launch)
                  && result.value.brokerTurns == runner.provider.value.ledgers)
            && (result.Ok? && runner.provider.None? ==>
                  result.value.session.LegacySession? && result.value.brokerTurns == None)
  {
  }

  /** The broker sessions that go out of scope on the way out of a start: the whole prepared provider when
      the adapter fails, and whatever had been taken, or not yet, when a take comes back empty. */
  function StartDrops(runner: Runner, adapterStarts: bool): multiset<SessionId> {
    if runner.provider.None? then multiset{}
    else if !adapterStarts then Holds(runner.provider.value.access)
    else if runner.provider.value.access.None? then multiset{}
    else if runner.provider.value.ledgers.None? then multiset{runner.provider.value.access.value}
    else multiset{}
  }

  function StartedHolds(result: Result<StartedSession, StartError>): multiset<SessionId> {
    if result.Ok? then SessionHolds(result.value.session) else multiset{}
  }

  /** The prepared custody as the start path empties it, one take at a time. */
  class PreparedProvider {
    const stableId: string
    const protocol: Protocol
    var access: Option<SessionId>
    var ledgers: Option<SessionId>

    constructor FromRegistration(stableId: string, protocol: Protocol, session: SessionId)
      ensures Value() == Provider(stableId, protocol, Some(session), Some(session))
    {
      this.stableId, this.protocol := stableId, protocol;
      access, ledgers := Some(session), Some(session);
    }

    function Value(): Provider
      reads this
    {
      Provider(stableId, protocol, access, ledgers)
    }

    method TakeAccess() returns (taken: Option<SessionId>)
      modifies this
      ensures taken == old(access) && Value() == old(Value()).(access := None)
    {
      taken := access;
      access := None;
    }

    method TakeLedgers() returns (taken: Option<SessionId>)
      modifies this
      ensures taken == old(ledgers) && Value() == old(Value()).(ledgers := None)
    {
      taken := ledgers;
      ledgers := None;
    }
  }

  /** Starting consumes the runner. What it does not hand on is dropped on the way out, so that every
      broker session the runner held is either in the started session or revoked. */
  method Start(harness: HarnessId, model: Option<string>, provider: PreparedProvider?, launch: Launch,
               adapterStarts: bool)
    returns (result: Result<StartedSession, StartError>, dropped: multiset<SessionId>)
    modifies provider
    ensures result == StartOutcome(
                        Runner(harness, model, if provider == null then None else Some(old(provider.Value()))),
                        launch, adapterStarts)
    ensures dropped == StartDrops(
                         Runner(harness, model, if provider == null then None else Some(old(provider.Value()))),
                         adapterStarts)
    ensures StartedHolds(result) + dropped
            == if provider == null then multiset{} else Holds(old(provider.access))
  {
    if provider == null {
      if !adapterStarts {
        return Err(AdapterFailed), multiset{};
      }
      var setters := [SetRunId(launch.runId)];
      if NonEmpty(launch.reviewHead) {
        setters := setters + [SetReviewHead(launch.reviewHead.value)];
      }
      if NonEmpty(model) {
        setters := setters + [SetModelOverride(model.value)];
      }
      assert setters == LegacySetters(launch, model);
      return Ok(StartedSession(LegacySession(setters), None)), multiset{};
    }
    if !adapterStarts {
      return Err(AdapterFailed), Holds(provider.access);
    }
    var access := provider.TakeAccess();
    if access.None? {
      return Err(CustodyAlreadyTaken), Holds(provider.access);
    }
    var ledgers := provider.TakeLedgers();
    if ledgers.None? {
      return Err(CustodyAlreadyTaken), Holds(access) + Holds(provider.access);
    }
    result := Ok(StartedSession(BrokeredSession(access.value, launch), ledgers));
    dropped := Holds(provider.access);
  }
}
