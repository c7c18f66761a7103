/** Custody over whole histories: any number of dispatches, interleaved in any order, each prepared,
    frozen, built or bridged, started, refused, failed or dropped. */
module Custody {
  import opened Common
  import opened Dispatch

  /** Where one dispatch stands. Its slot is never reused. */
  datatype Holder =
    | Prepared(provider: Provider)
    | Frozen(spec: Spec)
    | Ready(runner: Runner)
    | Running(started: StartedSession)
    | SessionOnly(session: AdapterSession)
    | ReceiverOnly(ledger: SessionId)
    | Gone

  /** All dispatches so far, the session each was registered for (none on the legacy branch), the number
      of sessions registered, and every revocation. */
  datatype World = World(slots: seq<Holder>, origins: seq<Option<SessionId>>, registered: nat,
                         revoked: multiset<SessionId>)

  datatype Action =
    | Prepare(stableId: string, protocol: Protocol, brokerAccepts: bool)
    | FreezeLegacy(harness: HarnessId, model: Option<string>, knobs: Knobs)
    | Freeze(slot: nat, harness: HarnessId, model: Option<string>, knobs: Knobs)
    | Build(slot: nat)
    | Bridge(slot: nat, configured: HarnessId)
    | Start(slot: nat, launch: Launch, adapterStarts: bool)
    | DropSession(slot: nat)
    | DropReceiver(slot: nat)
    | Drop(slot: nat)

  const EMPTY := World([], [], 0, multiset{})

  /** The broker sessions a holder owns, and hence drops when it is dropped whole. */
  function HolderHolds(h: Holder): multiset<SessionId> {
    match h
    case Prepared(provider) => ProviderHolds(Some(provider))
    case Frozen(spec) => ProviderHolds(spec.provider)
    case Ready(runner) => ProviderHolds(runner.provider)
    case Running(started) => SessionHolds(started.session)
    case SessionOnly(session) => SessionHolds(session)
    case ReceiverOnly(_) => multiset{}
    case Gone => multiset{}
  }

  // ---------------------------------------------------------------------------------------------
  // Events
  // ---------------------------------------------------------------------------------------------

  /** What an event makes of a slot, and the broker sessions that go out of scope on its code path. */
  datatype Move = Move(next: Holder, dropped: multiset<SessionId>)

  /** A runner moves the spec's provider over; a refusal returns with the spec still in scope. */
  function BuildMove(spec: Spec, r: Result<Runner, Refusal>): Move {
    if r.Ok? then Move(Ready(r.value), multiset{}) else Move(Gone, ProviderHolds(spec.provider))
  }

  function StartMove(runner: Runner, launch: Launch, adapterStarts: bool): Move {
    var result := StartOutcome(runner, launch, adapterStarts);
    Move(if result.Ok? then Running(result.value) else Gone, StartDrops(runner, adapterStarts))
  }

  function DropSessionMove(started: StartedSession): Move {
    Move(if started.brokerTurns.Some? then ReceiverOnly(started.brokerTurns.value) else Gone,
         SessionHolds(started.session))
  }

  /** The move of a slot under an action aimed at it; `None` when the action does not apply. */
  function MoveOf(h: Holder, a: Action): Option<Move> {
    match a
    case Freeze(_, harness, model, knobs) =>
      if h.Prepared? then Some(Move(Frozen(Spec(harness, model, Some(h.provider), knobs)), multiset{})) else None
    case Build(_) => if h.Frozen? then Some(BuildMove(h.spec, BuildDispatchRunner(h.spec))) else None
    case Bridge(_, configured) =>
      if h.Frozen? then Some(BuildMove(h.spec, FinishDispatchRunner(configured, h.spec))) else None
    case Start(_, launch, adapterStarts) =>
      if h.Ready? then Some(StartMove(h.runner, launch, adapterStarts)) else None
    case DropSession(_) => if h.Running? then Some(DropSessionMove(h.started)) else None
    case DropReceiver(_) => if h.Running? then Some(Move(SessionOnly(h.started.session), multiset{})) else None
    case Drop(_) => Some(Move(Gone, HolderHolds(h)))
    case _ => None
  }

  /** Dropping a broker session revokes it. */
  function Make(w: World, i: nat, m: Move): World
    requires i < |w.slots|
  {
    w.(slots := w.slots[i := m.next], revoked := w.revoked + m.dropped)
  }

  function Open(w: World, h: Holder, origin: Option<SessionId>): World {
    World(w.slots + [h], w.origins + [origin], if origin.Some? then w.registered + 1 else w.registered, w.revoked)
  }

  /** One event. */
  function Apply(w: World, a: Action): World {
    match a
    case Prepare(stableId, protocol, brokerAccepts) =>
      var session := Some(w.registered);
      if brokerAccepts then Open(w, Prepared(Provider(stableId, protocol, session, session)), session) else w
    case FreezeLegacy(harness, model, knobs) => Open(w, Frozen(Spec(harness, model, None, knobs)), None)
    case _ =>
      if a.slot >= |w.slots| then w
      else
        var m := MoveOf(w.slots[a.slot], a);
        if m.None? then w else Make(w, a.slot, m.value)
  }

  function Run(w: World, actions: seq<Action>): World
    decreases |actions|
  {
    if actions == [] then w else Run(Apply(w, actions[0]), actions[1..])
  }

  // ---------------------------------------------------------------------------------------------
  // Each code path on its own
  // ---------------------------------------------------------------------------------------------

  lemma BuildConserves(spec: Spec, configured: HarnessId)
    ensures var m := BuildMove(spec, FinishDispatchRunner(configured, spec));
            ProviderHolds(spec.provider) == HolderHolds(m.next) + m.dropped
  {
  }

  lemma StartConserves(runner: Runner, launch: Launch, adapterStarts: bool)
    ensures var m := StartMove(runner, launch, adapterStarts);
            ProviderHolds(runner.provider) == HolderHolds(m.next) + m.dropped
  {
  }

  lemma DropSessionConserves(started: StartedSession)
    ensures var m := DropSessionMove(started);
            SessionHolds(started.session) == HolderHolds(m.next) + m.dropped
  {
  }

  lemma OthersConserve(h: Holder, a: Action, m: Move)
    requires MoveOf(h, a) == Some(m) && !a.Build? && !a.Bridge? && !a.Start?
    ensures HolderHolds(h) == HolderHolds(m.next) + m.dropped
  {
    if a.Drop? {
      assert m == Move(Gone, HolderHolds(h));
    } else if a.Freeze? {
      assert h.Prepared? && m.next.Frozen? && m.dropped == multiset{};
    } else if a.DropSession? {
      DropSessionConserves(h.started);
    } else {
      assert h.Running? && m == Move(SessionOnly(h.started.session), multiset{});
    }
  }

  /** On every code path, what a dispatch owned is what it still owns and what was dropped: nothing leaks
      and nothing is invented. */
  lemma PathsConserve(h: Holder, a: Action)
    requires MoveOf(h, a).Some?
    ensures HolderHolds(h) == HolderHolds(MoveOf(h, a).value.next) + MoveOf(h, a).value.dropped
  {
    if a.Build? {
      assert h.Frozen? && MoveOf(h, a).value == BuildMove(h.spec, FinishDispatchRunner(HarnessOf(h.spec.knobs), h.spec));
      BuildConserves(h.spec, HarnessOf(h.spec.knobs));
    } else if a.Bridge? {
      assert h.Frozen? && MoveOf(h, a).value == BuildMove(h.spec, FinishDispatchRunner(a.configured, h.spec));
      BuildConserves(h.spec, a.configured);
    } else if a.Start? {
      assert h.Ready? && MoveOf(h, a).value == StartMove(h.runner, a.launch, a.adapterStarts);
      StartConserves(h.runner, a.launch, a.adapterStarts);
    } else {
      OthersConserve(h, a, MoveOf(h, a).value);
    }
  }

  // ---------------------------------------------------------------------------------------------
  // The invariant
  // ---------------------------------------------------------------------------------------------

  /** The provider still holds both halves of the session the dispatch was registered for. */
  predicate Carries(provider: Option<Provider>, origin: Option<SessionId>) {
    if provider.None? then origin.None?
    else origin.Some? && provider.value.access == origin && provider.value.ledgers == origin
  }

  predicate SessionOf(session: AdapterSession, origin: Option<SessionId>) {
    if session.BrokeredSession? then origin == Some(session.access) else origin.None?
  }

  /** Branch separation: what a dispatch has, at each stage, is what it was registered for. */
  predicate SlotOk(h: Holder, origin: Option<SessionId>) {
    match h
    case Prepared(provider) => Carries(Some(provider), origin)
    case Frozen(spec) => Carries(spec.provider, origin)
    case Ready(runner) =>
      && Carries(runner.provider, origin)
      && (origin.Some? ==>
            SupportsProtocol(runner.harness, runner.provider.value.protocol) && NonEmpty(runner.model))
    case Running(started) => SessionOf(started.session, origin) && started.brokerTurns == origin
    case SessionOnly(session) => SessionOf(session, origin)
    case ReceiverOnly(ledger) => origin == Some(ledger)
    case Gone => true
  }

  function Sum(parts: seq<multiset<SessionId>>): multiset<SessionId> {
    if parts == [] then multiset{} else parts[0] + Sum(parts[1..])
  }

  function Parts(slots: seq<Holder>): seq<multiset<SessionId>> {
    seq(|slots|, i requires 0 <= i < |slots| => HolderHolds(slots[i]))
  }

  /** Every broker session that some dispatch owns, as often as it is owned. */
  function Owned(slots: seq<Holder>): multiset<SessionId> {
    Sum(Parts(slots))
  }

  /** Each of the first `n` sessions, once. */
  function EachOnce(n: nat): multiset<SessionId> {
    if n == 0 then multiset{} else EachOnce(n - 1) + multiset{n - 1}
  }

  /** Every registered session has exactly one owner or one revocation, never both and never neither. */
  ghost predicate Conserved(w: World) {
    Owned(w.slots) + w.revoked == EachOnce(w.registered)
  }

  ghost predicate SlotsOk(w: World) {
    |w.origins| == |w.slots| && forall i :: 0 <= i < |w.slots| ==> SlotOk(w.slots[i], w.origins[i])
  }

  /** No two dispatches were registered for one session. */
  ghost predicate OriginsOk(w: World) {
    && (forall i :: 0 <= i < |w.origins| && w.origins[i].Some? ==> w.origins[i].value < w.registered)
    && (forall i, j :: 0 <= i < j < |w.origins| && w.origins[i].Some? ==> w.origins[i] != w.origins[j])
  }

  ghost predicate Inv(w: World) {
    Conserved(w) && SlotsOk(w) && OriginsOk(w)
  }

  lemma {:induction false} SumAppend(parts: seq<multiset<SessionId>>, m: multiset<SessionId>)
    ensures Sum(parts + [m]) == Sum(parts) + m
  {
    if parts == [] {
      assert parts + [m] == [m];
    } else {
      assert (parts + [m])[1..] == parts[1..] + [m];
      SumAppend(parts[1..], m);
    }
  }

  lemma {:induction false} SumUpdate(parts: seq<multiset<SessionId>>, i: nat, m: multiset<SessionId>)
    requires i < |parts|
    ensures Sum(parts[i := m]) + parts[i] == Sum(parts) + m
  {
    if i == 0 {
      assert parts[i := m][1..] == parts[1..];
    } else {
      assert parts[i := m][1..] == parts[1..][i - 1 := m];
      SumUpdate(parts[1..], i - 1, m);
      var before, after := Sum(parts[1..]), Sum(parts[1..][i - 1 := m]);
      assert (parts[0] + after) + parts[i] == parts[0] + (after + parts[i]) == parts[0] + (before + m);
    }
  }

  lemma OwnedAppend(slots: seq<Holder>, h: Holder)
    ensures Owned(slots + [h]) == Owned(slots) + HolderHolds(h)
  {
    assert Parts(slots + [h]) == Parts(slots) + [HolderHolds(h)];
    SumAppend(Parts(slots), HolderHolds(h));
  }

  lemma OwnedUpdate(slots: seq<Holder>, i: nat, h: Holder)
    requires i < |slots|
    ensures Owned(slots[i := h]) + HolderHolds(slots[i]) == Owned(slots) + HolderHolds(h)
  {
    assert Parts(slots[i := h]) == Parts(slots)[i := HolderHolds(h)];
    SumUpdate(Parts(slots), i, HolderHolds(h));
  }

  /** Accounting for one move. */
  lemma Balance(owned: multiset<SessionId>, owned': multiset<SessionId>, held: multiset<SessionId>,
                next: multiset<SessionId>, dropped: multiset<SessionId>, revoked: multiset<SessionId>)
    requires owned' + held == owned + next && held == next + dropped
    ensures owned' + (revoked + dropped) == owned + revoked
  {
    forall s: SessionId ensures (owned' + (revoked + dropped))[s] == (owned + revoked)[s] {
      assert (owned' + held)[s] == (owned + next)[s];
    }
  }

  lemma MakeConserves(w: World, i: nat, m: Move)
    requires Conserved(w) && i < |w.slots| && HolderHolds(w.slots[i]) == HolderHolds(m.next) + m.dropped
    ensures Conserved(Make(w, i, m))
  {
    OwnedUpdate(w.slots, i, m.next);
    Balance(Owned(w.slots), Owned(w.slots[i := m.next]), HolderHolds(w.slots[i]), HolderHolds(m.next),
            m.dropped, w.revoked);
  }

  lemma BuildKeepsSlot(spec: Spec, configured: HarnessId, origin: Option<SessionId>)
    requires Carries(spec.provider, origin)
    ensures SlotOk(BuildMove(spec, FinishDispatchRunner(configured, spec)).next, origin)
  {
  }

  lemma StartKeepsSlot(runner: Runner, launch: Launch, adapterStarts: bool, origin: Option<SessionId>)
    requires Carries(runner.provider, origin)
    ensures SlotOk(StartMove(runner, launch, adapterStarts).next, origin)
    ensures StartMove(runner, launch, adapterStarts).next == Gone <==> !adapterStarts
  {
  }

  lemma MoveKeepsSlot(h: Holder, a: Action, origin: Option<SessionId>)
    requires SlotOk(h, origin) && MoveOf(h, a).Some?
    ensures SlotOk(MoveOf(h, a).value.next, origin)
  {
    if a.Build? {
      BuildKeepsSlot(h.spec, HarnessOf(h.spec.knobs), origin);
    } else if a.Bridge? {
      BuildKeepsSlot(h.spec, a.configured, origin);
    } else if a.Start? {
      StartKeepsSlot(h.runner, a.launch, a.adapterStarts, origin);
    }
  }

  lemma MakeKeepsSlots(w: World, i: nat, m: Move)
    requires SlotsOk(w) && i < |w.slots| && SlotOk(m.next, w.origins[i])
    ensures SlotsOk(Make(w, i, m))
  {
    var w' := Make(w, i, m);
    forall j | 0 <= j < |w'.slots| ensures SlotOk(w'.slots[j], w'.origins[j]) {
      assert SlotOk(w.slots[j], w.origins[j]);
    }
  }

  lemma OpenKeepsInv(w: World, h: Holder, origin: Option<SessionId>)
    requires Inv(w) && SlotOk(h, origin) && HolderHolds(h) == Holds(origin)
    requires origin.Some? ==> origin.value == w.registered
    ensures Inv(Open(w, h, origin))
  {
    OpenConserves(w, h, origin);
    OpenKeepsSlots(w, h, origin);
  }

  lemma OpenKeepsSlots(w: World, h: Holder, origin: Option<SessionId>)
    requires SlotsOk(w) && SlotOk(h, origin)
    ensures SlotsOk(Open(w, h, origin))
  {
    var w' := Open(w, h, origin);
    forall j | 0 <= j < |w'.slots| ensures SlotOk(w'.slots[j], w'.origins[j]) {
      if j < |w.slots| {
        assert SlotOk(w.slots[j], w.origins[j]);
      }
    }
  }

  lemma OpenConserves(w: World, h: Holder, origin: Option<SessionId>)
    requires Conserved(w) && HolderHolds(h) == Holds(origin)
    requires origin.Some? ==> origin.value == w.registered
    ensures Conserved(Open(w, h, origin))
  {
    OwnedAppend(w.slots, h);
    Tally(Owned(w.slots), w.revoked, w.registered, origin);
  }

  lemma Tally(owned: multiset<SessionId>, revoked: multiset<SessionId>, n: nat, origin: Option<SessionId>)
    requires owned + revoked == EachOnce(n)
    requires origin.Some? ==> origin.value == n
    ensures (owned + Holds(origin)) + revoked == EachOnce(if origin.Some? then n + 1 else n)
  {
    assert (owned + Holds(origin)) + revoked == (owned + revoked) + Holds(origin);
  }

  lemma OpeningsKeepInv(w: World, a: Action)
    requires Inv(w) && (a.Prepare? || a.FreezeLegacy?)
    ensures Inv(Apply(w, a))
  {
    if a.FreezeLegacy? {
      OpenKeepsInv(w, Frozen(Spec(a.harness, a.model, None, a.knobs)), None);
    } else if a.brokerAccepts {
      var session := Some(w.registered);
      OpenKeepsInv(w, Prepared(Provider(a.stableId, a.protocol, session, session)), session);
    }
  }

  lemma ApplyMakes(w: World, a: Action)
    requires !a.Prepare? && !a.FreezeLegacy?
    ensures Apply(w, a) == if a.slot < |w.slots| && MoveOf(w.slots[a.slot], a).Some?
                           then Make(w, a.slot, MoveOf(w.slots[a.slot], a).value) else w
  {
  }

  lemma MoveKeepsInv(w: World, i: nat, a: Action, m: Move)
    requires Inv(w) && i < |w.slots| && MoveOf(w.slots[i], a) == Some(m)
    ensures Inv(Make(w, i, m))
  {
    assert SlotOk(w.slots[i], w.origins[i]);
    PathsConserve(w.slots[i], a);
    MakeConserves(w, i, m);
    MoveKeepsSlot(w.slots[i], a, w.origins[i]);
    MakeKeepsSlots(w, i, m);
  }

  /** Every event keeps the invariant. */
  lemma StepKeepsInv(w: World, a: Action)
    requires Inv(w)
    ensures Inv(Apply(w, a))
  {
    if a.Prepare? || a.FreezeLegacy? {
      OpeningsKeepInv(w, a);
    } else {
      ApplyMakes(w, a);
      if a.slot < |w.slots| && MoveOf(w.slots[a.slot], a).Some? {
        MoveKeepsInv(w, a.slot, a, MoveOf(w.slots[a.slot], a).value);
      }
    }
  }

  lemma {:induction false} RunKeepsInv(w: World, actions: seq<Action>)
    requires Inv(w)
    ensures Inv(Run(w, actions))
    decreases |actions|
  {
    if actions != [] {
      StepKeepsInv(w, actions[0]);
      RunKeepsInv(Apply(w, actions[0]), actions[1..]);
    }
  }

  // ---------------------------------------------------------------------------------------------
  // What holds in every history
  // ---------------------------------------------------------------------------------------------

  /** The state after any history, from a daemon that has dispatched nothing. */
  function After(history: seq<Action>): World {
    Run(EMPTY, history)
  }

  lemma AfterInv(history: seq<Action>)
    ensures Inv(After(history))
  {
    assert Inv(EMPTY);
    RunKeepsInv(EMPTY, history);
  }

  predicate Owns(w: World, i: nat, s: SessionId) {
    i < |w.slots| && s in HolderHolds(w.slots[i])
  }

  lemma {:induction false} SumCovers(parts: seq<multiset<SessionId>>, i: nat, s: SessionId)
    requires i < |parts|
    ensures parts[i][s] <= Sum(parts)[s]
  {
    if i > 0 {
      SumCovers(parts[1..], i - 1, s);
    }
  }

  lemma {:induction false} SumComesFrom(parts: seq<multiset<SessionId>>, s: SessionId) returns (i: nat)
    requires s in Sum(parts)
    ensures i < |parts| && s in parts[i]
  {
    if s in parts[0] {
      i := 0;
    } else {
      i := SumComesFrom(parts[1..], s);
      i := i + 1;
    }
  }

  lemma {:induction false} EachOnceCounts(n: nat, s: SessionId)
    ensures EachOnce(n)[s] == if s < n then 1 else 0
  {
    if n > 0 {
      EachOnceCounts(n - 1, s);
    }
  }

  /** A dispatch only ever owns the session it was registered for. */
  lemma OwnsItsOrigin(w: World, i: nat, s: SessionId)
    requires SlotsOk(w) && Owns(w, i, s)
    ensures w.origins[i] == Some(s)
  {
    assert SlotOk(w.slots[i], w.origins[i]);
  }

  /** In every history, each registered session is revoked at most once, and is unrevoked exactly while
      one dispatch, and only one, owns it. */
  lemma LiveMeansExactlyOneOwner(history: seq<Action>, s: SessionId)
    requires s < After(history).registered
    ensures After(history).revoked[s] <= 1
    ensures s !in After(history).revoked <==> exists i: nat :: Owns(After(history), i, s)
    ensures forall i: nat, j: nat :: Owns(After(history), i, s) && Owns(After(history), j, s) ==> i == j
  {
    var w := After(history);
    AfterInv(history);
    EachOnceCounts(w.registered, s);
    var parts := Parts(w.slots);
    assert Sum(parts)[s] + w.revoked[s] == (Owned(w.slots) + w.revoked)[s] == 1;
    if s !in w.revoked {
      var i := SumComesFrom(parts, s);
      assert Owns(w, i, s);
    }
    forall i: nat | Owns(w, i, s) ensures s !in w.revoked {
      SumCovers(parts, i, s);
    }
    forall i: nat, j: nat | Owns(w, i, s) && Owns(w, j, s) ensures i == j {
      OwnersCoincide(w, i, j, s);
    }
  }

  lemma OwnersCoincide(w: World, i: nat, j: nat, s: SessionId)
    requires SlotsOk(w) && OriginsOk(w) && Owns(w, i, s) && Owns(w, j, s)
    ensures i == j
  {
    OwnsItsOrigin(w, i, s);
    OwnsItsOrigin(w, j, s);
  }

  /** A session is live exactly while the dispatch it was registered for owns it: custody never wanders
      to another dispatch. */
  lemma LiveWithItsOwnDispatch(history: seq<Action>, i: nat, s: SessionId)
    requires i < |After(history).origins| && After(history).origins[i] == Some(s)
    ensures s < After(history).registered
    ensures s !in After(history).revoked <==> Owns(After(history), i, s)
  {
    var w := After(history);
    AfterInv(history);
    LiveMeansExactlyOneOwner(history, s);
    if s !in w.revoked {
      var j: nat :| Owns(w, j, s);
      OwnsItsOrigin(w, j, s);
      assert i == j;
    }
  }

  /** Whatever a dispatch owns was registered for it and is not revoked. */
  lemma OwnedAreRegistered(history: seq<Action>, i: nat, s: SessionId)
    requires Owns(After(history), i, s)
    ensures s < After(history).registered && s !in After(history).revoked
  {
    AfterInv(history);
    OwnsItsOrigin(After(history), i, s);
    LiveWithItsOwnDispatch(history, i, s);
  }

  lemma {:induction false} RunOneMore(w: World, history: seq<Action>, a: Action)
    ensures Run(w, history + [a]) == Apply(Run(w, history), a)
    decreases |history|
  {
    if history == [] {
      assert history + [a] == [a];
      assert Run(w, [a]) == Run(Apply(w, a), [a][1..]);
    } else {
      assert (history + [a])[0] == history[0] && (history + [a])[1..] == history[1..] + [a];
      RunOneMore(Apply(w, history[0]), history[1..], a);
    }
  }

  /** A call that ends a dispatch: a refused build or bridge, or a start the adapter fails. */
  predicate Ends(h: Holder, a: Action) {
    || (h.Frozen? && a.Build? && BuildDispatchRunner(h.spec).Err?)
    || (h.Frozen? && a.Bridge? && FinishDispatchRunner(a.configured, h.spec).Err?)
    || (h.Ready? && a.Start? && !a.adapterStarts)
  }

  predicate Advances(a: Action) {
    a.Freeze? || a.Build? || a.Bridge? || a.Start?
  }

  /** A move that ended a dispatch registered for `origin`, or kept all it had. */
  ghost predicate EndsOrKeeps(m: Move, origin: Option<SessionId>, ends: bool) {
    if ends then m == Move(Gone, Holds(origin))
    else HolderHolds(m.next) == Holds(origin) && m.dropped == multiset{} && m.next != Gone
  }

  lemma BuildEndsOrKeeps(spec: Spec, r: Result<Runner, Refusal>, origin: Option<SessionId>)
    requires Carries(spec.provider, origin) && (r.Ok? ==> r.value.provider == spec.provider)
    ensures EndsOrKeeps(BuildMove(spec, r), origin, r.Err?)
  {
  }

  lemma StartEndsOrKeeps(runner: Runner, launch: Launch, adapterStarts: bool, origin: Option<SessionId>)
    requires Carries(runner.provider, origin)
    ensures EndsOrKeeps(StartMove(runner, launch, adapterStarts), origin, !adapterStarts)
  {
  }

  /** What one advance makes of a dispatch that was registered for `origin`. */
  lemma AdvanceMove(h: Holder, a: Action, origin: Option<SessionId>)
    requires SlotOk(h, origin) && Advances(a) && MoveOf(h, a).Some?
    ensures HolderHolds(h) == Holds(origin) && EndsOrKeeps(MoveOf(h, a).value, origin, Ends(h, a))
  {
    if a.Freeze? {
      assert h.Prepared? && Carries(Some(h.provider), origin);
    } else if a.Start? {
      StartEndsOrKeeps(h.runner, a.launch, a.adapterStarts, origin);
    } else if a.Build? {
      BuildEndsOrKeeps(h.spec, BuildDispatchRunner(h.spec), origin);
    } else {
      BuildEndsOrKeeps(h.spec, FinishDispatchRunner(a.configured, h.spec), origin);
    }
  }

  lemma AdvanceInWorld(w: World, a: Action, m: Move)
    requires SlotsOk(w) && Advances(a) && a.slot < |w.slots| && MoveOf(w.slots[a.slot], a) == Some(m)
    ensures Apply(w, a) == Make(w, a.slot, m)
    ensures HolderHolds(w.slots[a.slot]) == Holds(w.origins[a.slot])
    ensures Ends(w.slots[a.slot], a) ==> m == Move(Gone, Holds(w.origins[a.slot]))
    ensures !Ends(w.slots[a.slot], a) ==>
              HolderHolds(m.next) == HolderHolds(w.slots[a.slot]) && m.dropped == multiset{} && m.next != Gone
  {
    assert SlotOk(w.slots[a.slot], w.origins[a.slot]);
    AdvanceMove(w.slots[a.slot], a, w.origins[a.slot]);
    ApplyMakes(w, a);
  }

  /** A freeze, build, bridge or start that is neither refused nor failed keeps exactly the custody the
      dispatch had, and revokes nothing: there is no silent fall back to the legacy branch. */
  lemma SuccessKeepsCustody(history: seq<Action>, a: Action, m: Move)
    requires Advances(a) && a.slot < |After(history).slots|
    requires MoveOf(After(history).slots[a.slot], a) == Some(m) && !Ends(After(history).slots[a.slot], a)
    ensures Apply(After(history), a)
            == After(history).(slots := After(history).slots[a.slot := m.next])
    ensures m.next != Gone && HolderHolds(m.next) == HolderHolds(After(history).slots[a.slot])
  {
    AfterInv(history);
    AdvanceInWorld(After(history), a, m);
  }

  /** The knobs a spec carries are those of the harness it names. */
  predicate KnobsMatch(harness: HarnessId, knobs: Knobs) {
    knobs.ClaudeKnobs? <==> harness.Claude?
  }

  /** What a provider asks of the dispatch that is to carry it. */
  predicate Carriable(harness: HarnessId, model: Option<string>) {
    harness == Opencode && model.Some? && model.value != ""
  }

  /** In every history, which builds and bridges are refused, and what the others make: a build exactly when
      the knobs are another harness's, a bridge exactly when the harness is another one, and either when a
      dispatch with custody is not opencode's or has no model. */
  lemma RefusedExactly(history: seq<Action>, a: Action)
    requires (a.Build? || a.Bridge?) && a.slot < |After(history).slots| && After(history).slots[a.slot].Frozen?
    ensures |After(history).origins| == |After(history).slots|
    ensures var w := After(history);
            var spec := w.slots[a.slot].spec;
            var next := Apply(w, a).slots[a.slot];
            if (if a.Build? then KnobsMatch(spec.harness, spec.knobs) else a.configured == spec.harness)
               && (w.origins[a.slot].Some? ==> Carriable(spec.harness, spec.model))
            then next == Ready(Runner(spec.harness, spec.model, spec.provider))
            else next == Gone
  {
    var w := After(history);
    AfterInv(history);
    assert SlotOk(w.slots[a.slot], w.origins[a.slot]);
    ApplyMakes(w, a);
  }

  /** A started dispatch: with a provider, an adapter session that owns the registered session and a
      receiver for it, and no late setter; without one, a legacy session with its setters and no receiver. */
  function StartsAs(origin: Option<SessionId>, launch: Launch, model: Option<string>): StartedSession {
    if origin.Some? then StartedSession(BrokeredSession(origin.value, launch), origin)
    else StartedSession(LegacySession(LegacySetters(launch, model)), None)
  }

  lemma StartsOnItsOwnBranch(history: seq<Action>, a: Action)
    requires a.Start? && a.adapterStarts && a.slot < |After(history).slots|
    requires After(history).slots[a.slot].Ready?
    ensures var w, w' := After(history), Apply(After(history), a);
            && |w'.slots| == |w.slots| == |w.origins|
            && w'.slots[a.slot] == Running(StartsAs(w.origins[a.slot], a.launch, w.slots[a.slot].runner.model))
  {
    var w := After(history);
    AfterInv(history);
    assert SlotOk(w.slots[a.slot], w.origins[a.slot]);
  }

  /** A call that does not apply to a dispatch leaves everything as it was; one that applies ends the
      dispatch exactly when it is a refusal or a failed start, and then the session the dispatch was
      registered for, and no other, is revoked. */
  lemma RefusalAndFailureRevoke(history: seq<Action>, a: Action)
    requires Advances(a) && a.slot < |After(history).slots|
    ensures |After(history).origins| == |After(history).slots|
    ensures var w := After(history);
            var m := MoveOf(w.slots[a.slot], a);
            && (m.None? ==> Apply(w, a) == w && !Ends(w.slots[a.slot], a))
            && (m.Some? ==> (m.value.next == Gone <==> Ends(w.slots[a.slot], a)))
            && (Ends(w.slots[a.slot], a) ==>
                  Apply(w, a) == w.(slots := w.slots[a.slot := Gone],
                                    revoked := w.revoked + Holds(w.origins[a.slot])))
  {
    var w := After(history);
    AfterInv(history);
    ApplyMakes(w, a);
    var m := MoveOf(w.slots[a.slot], a);
    if m.Some? {
      AdvanceInWorld(w, a, m.value);
    }
  }

  /** Whatever happens to a dispatch, the session it was registered for is revoked afterwards exactly when
      the dispatch no longer owns it. */
  lemma HeldOrRevoked(history: seq<Action>, a: Action, i: nat, s: SessionId)
    requires i < |After(history).origins| && After(history).origins[i] == Some(s)
    ensures s in Apply(After(history), a).revoked <==> !Owns(Apply(After(history), a), i, s)
  {
    RunOneMore(EMPTY, history, a);
    LiveWithItsOwnDispatch(history + [a], i, s);
  }

  /** One dispatch's fate never touches another's custody, and no revocation is undone. */
  lemma DispatchesAreIsolated(history: seq<Action>, a: Action, j: nat, s: SessionId)
    requires Owns(After(history), j, s)
    requires a.Prepare? || a.FreezeLegacy? || a.slot != j
    ensures Owns(Apply(After(history), a), j, s) && s !in Apply(After(history), a).revoked
    ensures Apply(After(history), a).slots[j] == After(history).slots[j]
    ensures After(history).revoked <= Apply(After(history), a).revoked
  {
    var w, w' := After(history), Apply(After(history), a);
    AfterInv(history);
    OwnsItsOrigin(w, j, s);
    assert Owns(w', j, s) && w'.origins[j] == Some(s);
    HeldOrRevoked(history, a, j, s);
  }

  /** Branch separation in every history: a runner with custody has a supported protocol and a model and
      its custody still to take; a running session carries a ledger receiver exactly when its dispatch was
      registered for a session, and then owns that session. */
  lemma BranchesStaySeparate(history: seq<Action>, i: nat)
    requires i < |After(history).slots|
    ensures var w := After(history);
            && |w.origins| == |w.slots|
            && (w.slots[i].Ready? ==>
                  var runner := w.slots[i].runner;
                  && (runner.provider.Some? <==> w.origins[i].Some?)
                  && (runner.provider.Some? ==>
                        && SupportsProtocol(runner.harness, runner.provider.value.protocol)
                        && NonEmpty(runner.model)
                        && runner.provider.value.access == runner.provider.value.ledgers == w.origins[i]))
            && (w.slots[i].Running? ==>
                  && w.slots[i].started.brokerTurns == w.origins[i]
                  && (w.slots[i].started.session.BrokeredSession? <==> w.origins[i].Some?)
                  && SessionHolds(w.slots[i].started.session) == Holds(w.origins[i]))
  {
    AfterInv(history);
    assert SlotOk(After(history).slots[i], After(history).origins[i]);
  }

  /** Arming a turn is refused when the session is revoked. */
  predicate ArmRefused(w: World, ledger: SessionId) {
    ledger in w.revoked
  }

  /** The worker's receiver sees its session revoked exactly once the adapter session is gone. */
  lemma ReceiverSeesCustody(history: seq<Action>, i: nat)
    requires i < |After(history).slots|
    ensures var w := After(history);
            && (w.slots[i].ReceiverOnly? ==> ArmRefused(w, w.slots[i].ledger))
            && (w.slots[i].Running? && w.slots[i].started.brokerTurns.Some? ==>
                  !ArmRefused(w, w.slots[i].started.brokerTurns.value))
  {
    var w := After(history);
    AfterInv(history);
    assert SlotOk(w.slots[i], w.origins[i]);
    if w.origins[i].Some? {
      LiveWithItsOwnDispatch(history, i, w.origins[i].value);
    }
  }

  // ---------------------------------------------------------------------------------------------
  // Whole dispatches
  // ---------------------------------------------------------------------------------------------

  lemma {:induction false} RunConcat(w: World, a: seq<Action>, b: seq<Action>)
    ensures Run(w, a + b) == Run(Run(w, a), b)
    decreases |a|
  {
    if a == [] {
      assert a + b == b;
    } else {
      assert (a + b)[1..] == a[1..] + b;
      RunConcat(Apply(w, a[0]), a[1..], b);
    }
  }

  /** A refused registration leaves no trace. */
  lemma RefusedPreparationIsNothing(history: seq<Action>, stableId: string, protocol: Protocol)
    ensures After(history + [Prepare(stableId, protocol, false)]) == After(history)
  {
    RunOneMore(EMPTY, history, Prepare(stableId, protocol, false));
  }

  /** A fresh dispatch, prepared, frozen and built: the runner has the harness and model it was frozen with,
      and both halves of the session registered for it. */
  lemma PreparedDispatchBuilds(history: seq<Action>, stableId: string, protocol: Protocol, harness: HarnessId,
                               model: Option<string>, knobs: Knobs)
    ensures var w := After(history);
            var n, s := |w.slots|, w.registered;
            var built := KnobsMatch(harness, knobs) && Carriable(harness, model);
            After(history + [Prepare(stableId, protocol, true), Freeze(n, harness, model, knobs), Build(n)])
            == World(w.slots + [if built then Ready(Runner(harness, model,
                                                           Some(Provider(stableId, protocol, Some(s), Some(s)))))
                                else Gone],
                     w.origins + [Some(s)], s + 1, w.revoked + if built then multiset{} else multiset{s})
  {
    var w := After(history);
    var n, s := |w.slots|, w.registered;
    var provider := Provider(stableId, protocol, Some(s), Some(s));
    var prepared := Open(w, Prepared(provider), Some(s));
    var spec := Spec(harness, model, Some(provider), knobs);
    RunConcat(EMPTY, history, [Prepare(stableId, protocol, true), Freeze(n, harness, model, knobs), Build(n)]);
    RunThree(w, Prepare(stableId, protocol, true), Freeze(n, harness, model, knobs), Build(n));
    assert Apply(w, Prepare(stableId, protocol, true)) == prepared;
    var frozen := Apply(prepared, Freeze(n, harness, model, knobs));
    assert frozen == prepared.(slots := w.slots + [Frozen(spec)]);
    assert Apply(frozen, Build(n)) == Make(frozen, n, BuildMove(spec, BuildDispatchRunner(spec)));
    assert ProviderHolds(Some(provider)) == multiset{s};
  }

  lemma RunThree(w: World, a: Action, b: Action, c: Action)
    ensures Run(w, [a, b, c]) == Apply(Apply(Apply(w, a), b), c)
  {
    assert [a, b, c][1..] == [b, c] && [b, c][1..] == [c] && [c][1..] == [];
    assert Run(Apply(w, a), [b, c]) == Run(Apply(Apply(w, a), b), [c]);
    assert Run(Apply(Apply(w, a), b), [c]) == Run(Apply(Apply(Apply(w, a), b), c), []);
  }

  /** And started: it runs exactly when it was built and the adapter starts, its session owning the registered
      session and the launch context and its receiver beside it; otherwise the registered session, and no
      other, is revoked. */
  lemma PreparedDispatchRuns(history: seq<Action>, stableId: string, protocol: Protocol, harness: HarnessId,
                             model: Option<string>, knobs: Knobs, launch: Launch, adapterStarts: bool)
    ensures var w := After(history);
            var n, s := |w.slots|, w.registered;
            var runs := KnobsMatch(harness, knobs) && Carriable(harness, model) && adapterStarts;
            After(history + [Prepare(stableId, protocol, true), Freeze(n, harness, model, knobs), Build(n)]
                  + [Start(n, launch, adapterStarts)])
            == World(w.slots + [if runs then Running(StartedSession(BrokeredSession(s, launch), Some(s))) else Gone],
                     w.origins + [Some(s)], s + 1, w.revoked + if runs then multiset{} else multiset{s})
  {
    var w := After(history);
    var n, s := |w.slots|, w.registered;
    var before := history + [Prepare(stableId, protocol, true), Freeze(n, harness, model, knobs), Build(n)];
    PreparedDispatchBuilds(history, stableId, protocol, harness, model, knobs);
    RunOneMore(EMPTY, before, Start(n, launch, adapterStarts));
    StartLast(After(before), w.slots, n, launch, adapterStarts);
  }

  /** Starting the newest dispatch. */
  lemma StartLast(built: World, earlier: seq<Holder>, n: nat, launch: Launch, adapterStarts: bool)
    requires |built.slots| == n + 1 && built.slots == earlier + [built.slots[n]]
    requires built.slots[n].Ready? || built.slots[n] == Gone
    ensures Apply(built, Start(n, launch, adapterStarts))
            == if built.slots[n] == Gone then built
               else
                 var m := StartMove(built.slots[n].runner, launch, adapterStarts);
                 built.(slots := earlier + [m.next], revoked := built.revoked + m.dropped)
  {
    if built.slots[n].Ready? {
      var m := StartMove(built.slots[n].runner, launch, adapterStarts);
      assert built.slots[n := m.next] == earlier + [m.next];
    }
  }

  /** A legacy dispatch runs exactly when its knobs match and the adapter starts; it never has custody, and its
      late setters carry the launch and the model it was frozen with. */
  lemma LegacyDispatchRuns(history: seq<Action>, harness: HarnessId, model: Option<string>, knobs: Knobs,
                           launch: Launch, adapterStarts: bool)
    ensures var w := After(history);
            var n := |w.slots|;
            After(history + [FreezeLegacy(harness, model, knobs), Build(n), Start(n, launch, adapterStarts)])
            == w.(slots := w.slots + [if KnobsMatch(harness, knobs) && adapterStarts
                                      then Running(StartedSession(LegacySession(LegacySetters(launch, model)), None))
                                      else Gone],
                  origins := w.origins + [None])
  {
    var w := After(history);
    var n := |w.slots|;
    var spec := Spec(harness, model, None, knobs);
    RunConcat(EMPTY, history, [FreezeLegacy(harness, model, knobs), Build(n), Start(n, launch, adapterStarts)]);
    RunThree(w, FreezeLegacy(harness, model, knobs), Build(n), Start(n, launch, adapterStarts));
    var frozen := Apply(w, FreezeLegacy(harness, model, knobs));
    assert frozen.slots == w.slots + [Frozen(spec)];
    var built := Apply(frozen, Build(n));
    assert built == Make(frozen, n, BuildMove(spec, BuildDispatchRunner(spec)));
    assert built.slots == w.slots + [built.slots[n]];
    StartLast(built, w.slots, n, launch, adapterStarts);
  }

  /** In every history, the two halves of a running brokered dispatch part ways: dropping the adapter session
      revokes it and leaves the worker its receiver; dropping the receiver revokes nothing. */
  lemma HalvesPartWays(history: seq<Action>, i: nat)
    requires i < |After(history).slots| && After(history).slots[i].Running?
    requires |After(history).origins| == |After(history).slots| ==> After(history).origins[i].Some?
    ensures |After(history).origins| == |After(history).slots|
    ensures var w := After(history);
            var s := w.origins[i].value;
            && Apply(w, DropSession(i)) == w.(slots := w.slots[i := ReceiverOnly(s)], revoked := w.revoked + multiset{s})
            && Apply(w, DropReceiver(i)) == w.(slots := w.slots[i := SessionOnly(w.slots[i].started.session)])
            && Apply(w, Drop(i)) == w.(slots := w.slots[i := Gone], revoked := w.revoked + multiset{s})
  {
    var w := After(history);
    AfterInv(history);
    assert SlotOk(w.slots[i], w.origins[i]);
  }
}
