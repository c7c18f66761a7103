/** The owned-server double: handler threads that share a subscription flag and one event queue,
    interleaved in any order. */
module EventServer {
  import opened Common

  datatype PartKind = Text | ToolUse | StepStart | StepFinish
  datatype PartId = Given(id: string) | Numbered(n: nat)

  /** One line of a prompt's child process. A choking line is one the handler raises on, such as JSON
      that is not an object. */
  datatype Line =
    | Unparsable(length: nat)
    | ErrorLine(error: string)
    | PartLine(kind: PartKind, id: Option<string>)
    | OtherLine
    | Choking

  datatype Event =
    | Part(owned: string, kind: PartKind, id: PartId)
    | Oversized(length: nat)
    | SessionError(owned: string, error: string)
    | Idle(owned: string)

  const SCAN_LIMIT: nat := 10 * 1024 * 1024

  // ---------------------------------------------------------------------------------------------
  // What one prompt enqueues
  // ---------------------------------------------------------------------------------------------

  /** The event a line gives rise to, `count` parts having come before it. */
  function Emit(owned: string, line: Line, count: nat): seq<Event> {
    match line
    case Unparsable(length) => if length > SCAN_LIMIT then [Oversized(length)] else []
    case ErrorLine(error) => [SessionError(owned, error)]
    case PartLine(kind, id) =>
      [Part(owned, kind, if id.Some? then Given(id.value) else Numbered(count + 1))]
    case OtherLine => []
    case Choking => []
  }

  function PartCount(lines: seq<Line>): nat {
    if lines == [] then 0
    else PartCount(lines[..|lines| - 1]) + if lines[|lines| - 1].PartLine? then 1 else 0
  }

  function Emitted(owned: string, lines: seq<Line>): seq<Event> {
    if lines == [] then []
    else
      var before, last := lines[..|lines| - 1], lines[|lines| - 1];
      Emitted(owned, before) + Emit(owned, last, PartCount(before))
  }

  lemma EmittedNext(owned: string, lines: seq<Line>, n: nat)
    requires n < |lines|
    ensures Emitted(owned, lines[..n + 1])
            == Emitted(owned, lines[..n]) + Emit(owned, lines[n], PartCount(lines[..n]))
    ensures PartCount(lines[..n + 1]) == PartCount(lines[..n]) + if lines[n].PartLine? then 1 else 0
  {
    assert lines[..n + 1][..n] == lines[..n];
  }

  // ---------------------------------------------------------------------------------------------
  // What that means, line by line
  // ---------------------------------------------------------------------------------------------

  /** The lines that are parts, among the first `n`. */
  ghost function PartLines(lines: seq<Line>, n: nat): set<nat> {
    set i: nat | i < n && i < |lines| && lines[i].PartLine?
  }

  /** Lines that a client hears of: errors, parts, and garbage beyond the scanner's 10 MiB. */
  predicate Heard(line: Line) {
    line.ErrorLine? || line.PartLine? || (line.Unparsable? && line.length > 10485760)
  }

  /** Event `e` is what line `i` says. A part without an id is numbered by its rank among the parts. */
  ghost predicate Says(owned: string, lines: seq<Line>, i: nat, e: Event)
    requires i < |lines|
  {
    var line := lines[i];
    && (line.ErrorLine? ==> e == SessionError(owned, line.error))
    && (line.PartLine? && line.id.Some? ==> e == Part(owned, line.kind, Given(line.id.value)))
    && (line.PartLine? && line.id.None? ==> e == Part(owned, line.kind, Numbered(|PartLines(lines, i + 1)|)))
    && (line.Unparsable? ==> e == Oversized(line.length))
  }

  /** Event by event: `events` are what the lines at `at` say, in the lines' order, and these are exactly
      the lines to be heard. */
  ghost predicate Relays(owned: string, lines: seq<Line>, events: seq<Event>, at: seq<nat>) {
    && |at| == |events|
    && (forall i, j :: 0 <= i < j < |at| ==> at[i] < at[j])
    && (forall j :: 0 <= j < |at| ==> at[j] < |lines| && Heard(lines[at[j]]) && Says(owned, lines, at[j], events[j]))
    && (forall i :: 0 <= i < |lines| && Heard(lines[i]) ==> i in at)
  }

  ghost predicate IsRelay(owned: string, lines: seq<Line>, events: seq<Event>) {
    exists at :: Relays(owned, lines, events, at)
  }

  lemma {:induction false} PartCountIsRank(lines: seq<Line>, n: nat)
    requires n <= |lines|
    ensures PartCount(lines[..n]) == |PartLines(lines, n)|
  {
    if n == 0 {
      assert PartLines(lines, 0) == {};
    } else {
      PartCountIsRank(lines, n - 1);
      assert lines[..n][..n - 1] == lines[..n - 1];
      assert PartLines(lines, n) == PartLines(lines, n - 1) + if lines[n - 1].PartLine? then {n - 1} else {};
    }
  }

  lemma EmitSays(owned: string, lines: seq<Line>, n: nat)
    requires n < |lines|
    ensures var events := Emit(owned, lines[n], PartCount(lines[..n]));
            if Heard(lines[n]) then |events| == 1 && Says(owned, lines, n, events[0]) else events == []
  {
    PartCountIsRank(lines, n);
    PartCountIsRank(lines, n + 1);
    EmittedNext(owned, lines, n);
  }

  /** The same for the first `n` lines. */
  ghost predicate RelaysUpTo(owned: string, lines: seq<Line>, n: nat, events: seq<Event>, at: seq<nat>) {
    && n <= |lines| && |at| == |events|
    && (forall i, j :: 0 <= i < j < |at| ==> at[i] < at[j])
    && (forall j :: 0 <= j < |at| ==> at[j] < n && Heard(lines[at[j]]) && Says(owned, lines, at[j], events[j]))
    && (forall i :: 0 <= i < n && Heard(lines[i]) ==> i in at)
  }

  lemma OneMoreHeard(owned: string, lines: seq<Line>, n: nat, events: seq<Event>, at: seq<nat>, e: Event)
    requires n < |lines| && RelaysUpTo(owned, lines, n, events, at)
    requires Heard(lines[n]) && Says(owned, lines, n, e)
    ensures RelaysUpTo(owned, lines, n + 1, events + [e], at + [n])
  {
    var at' := at + [n];
    forall i | 0 <= i < n + 1 && Heard(lines[i]) ensures i in at' {
      if i == n {
        assert at'[|at|] == n;
      } else {
        assert i in at;
      }
    }
  }

  lemma NextLine(owned: string, lines: seq<Line>, n: nat, events: seq<Event>, at: seq<nat>)
    returns (at': seq<nat>)
    requires n < |lines| && RelaysUpTo(owned, lines, n, events, at)
    ensures RelaysUpTo(owned, lines, n + 1, events + Emit(owned, lines[n], PartCount(lines[..n])), at')
  {
    var more := Emit(owned, lines[n], PartCount(lines[..n]));
    EmitSays(owned, lines, n);
    at' := at;
    if Heard(lines[n]) {
      OneMoreHeard(owned, lines, n, events, at, more[0]);
      assert more == [more[0]];
      at' := at + [n];
    } else {
      assert events + more == events;
    }
  }

  lemma {:induction false} EmittedRelays(owned: string, lines: seq<Line>, n: nat) returns (at: seq<nat>)
    requires n <= |lines|
    ensures RelaysUpTo(owned, lines, n, Emitted(owned, lines[..n]), at)
  {
    at := [];
    if n > 0 {
      at := EmittedRelays(owned, lines, n - 1);
      at := NextLine(owned, lines, n - 1, Emitted(owned, lines[..n - 1]), at);
      EmittedNext(owned, lines, n - 1);
    }
  }

  /** Every prompt's output is relayed line by line. */
  lemma OutputIsRelayed(owned: string, lines: seq<Line>)
    ensures IsRelay(owned, lines, Emitted(owned, lines))
  {
    assert lines[..|lines|] == lines;
    var at := EmittedRelays(owned, lines, |lines|);
    assert Relays(owned, lines, Emitted(owned, lines), at);
  }

  // ---------------------------------------------------------------------------------------------
  // The handler's loop
  // ---------------------------------------------------------------------------------------------

  /** The handler's loop over a child's output. It answers exactly when no line makes it raise;
      otherwise what came before that line stays enqueued, with no idle event. */
  method RelayLines(owned: string, lines: seq<Line>) returns (events: seq<Event>, answered: bool)
    ensures answered <==> Choking !in lines
    ensures answered ==> events == Emitted(owned, lines) + [Idle(owned)]
    ensures answered ==> IsRelay(owned, lines, events[..|events| - 1])
    ensures !answered ==>
              exists n: nat :: n < |lines| && lines[n] == Choking && Choking !in lines[..n]
                               && events == Emitted(owned, lines[..n])
                               && IsRelay(owned, lines[..n], events)
  {
    events, answered := [], false;
    var count := 0;
    for i := 0 to |lines|
      invariant Choking !in lines[..i]
      invariant events == Emitted(owned, lines[..i]) && count == PartCount(lines[..i])
    {
      EmittedNext(owned, lines, i);
      match lines[i]
      case Unparsable(length) =>
        if length > SCAN_LIMIT {
          events := events + [Oversized(length)];
        }
      case ErrorLine(error) => events := events + [SessionError(owned, error)];
      case PartLine(kind, id) =>
        count := count + 1;
        var partId := if id.Some? then Given(id.value) else Numbered(count);
        events := events + [Part(owned, kind, partId)];
      case OtherLine =>
      case Choking =>
        OutputIsRelayed(owned, lines[..i]);
        return;
    }
    assert lines[..|lines|] == lines;
    OutputIsRelayed(owned, lines);
    events, answered := events + [Idle(owned)], true;
  }

  lemma {:induction false} EmittedHasNoIdle(owned: string, lines: seq<Line>, other: string)
    ensures Idle(other) !in Emitted(owned, lines)
  {
    if lines != [] {
      EmittedHasNoIdle(owned, lines[..|lines| - 1], other);
    }
  }

  // ---------------------------------------------------------------------------------------------
  // Threads and their steps
  // ---------------------------------------------------------------------------------------------

  datatype StreamPc = Accepted | Recorded | HeadersSent | Greeted
  datatype PostPc = Waiting | Admitted | IdleQueued | Replied | Tripped | Crashed

  datatype Thread =
    | Stream(pc: StreamPc, sent: seq<Event>, held: Option<Event>, broken: bool)
    | SessionPost(post: PostPc)
    | PromptPost(owned: string, lines: seq<Line>, pos: nat, post: PostPc)

  /** The shared flag and queue, the handler threads, and the history of queue operations, each with
      the thread that did it. */
  datatype Server = Server(subscribed: bool, queue: seq<Event>, threads: seq<Thread>,
                           puts: seq<(nat, Event)>, gets: seq<(nat, Event)>)

  /** A client opens a request, a handler takes its next step, or a stream handler's write fails. */
  datatype Action =
    | OpenStream
    | OpenSession
    | OpenPrompt(owned: string, lines: seq<Line>)
    | Advance(tid: nat)
    | Break(tid: nat)

  const START := Server(false, [], [], [], [])

  function Tagged(tid: nat, events: seq<Event>): seq<(nat, Event)> {
    seq(|events|, i requires 0 <= i < |events| => (tid, events[i]))
  }

  function Put(s: Server, tid: nat, events: seq<Event>): Server {
    s.(queue := s.queue + events, puts := s.puts + Tagged(tid, events))
  }

  function SetThread(s: Server, tid: nat, t: Thread): Server
    requires tid < |s.threads|
  {
    s.(threads := s.threads[tid := t])
  }

  /** An event-stream handler: record the subscription, then answer, greet, and relay the queue. */
  function StepStream(s: Server, tid: nat): Server
    requires tid < |s.threads| && s.threads[tid].Stream?
  {
    var t := s.threads[tid];
    if t.broken then s
    else match t.pc
    case Accepted => SetThread(s, tid, t.(pc := Recorded)).(subscribed := true)
    case Recorded => SetThread(s, tid, t.(pc := HeadersSent))
    case HeadersSent => SetThread(s, tid, t.(pc := Greeted))
    case Greeted =>
      if t.held.Some? then SetThread(s, tid, t.(sent := t.sent + [t.held.value], held := None))
      else if s.queue == [] then s
      else SetThread(s, tid, t.(held := Some(s.queue[0]))).(queue := s.queue[1..],
                                                             gets := s.gets + [(tid, s.queue[0])])
  }

  /** The handler is about to write to its client: its headers, its greeting or the event it took. */
  predicate Writing(t: Thread) {
    t.Stream? && !t.broken && (t.pc == Recorded || t.pc == HeadersSent || t.held.Some?)
  }

  /** The write fails and the handler ends, with whatever it had taken. */
  function BreakStream(s: Server, tid: nat): Server
    requires tid < |s.threads|
  {
    if Writing(s.threads[tid]) then SetThread(s, tid, s.threads[tid].(broken := true)) else s
  }

  function Guard(s: Server): PostPc {
    if s.subscribed then Admitted else Tripped
  }

  function StepSession(s: Server, tid: nat): Server
    requires tid < |s.threads| && s.threads[tid].SessionPost?
  {
    match s.threads[tid].post
    case Waiting => SetThread(s, tid, SessionPost(Guard(s)))
    case Admitted => SetThread(s, tid, SessionPost(Replied))
    case _ => s
  }

  function StepPrompt(s: Server, tid: nat): Server
    requires tid < |s.threads| && s.threads[tid].PromptPost?
  {
    var t := s.threads[tid];
    match t.post
    case Waiting => SetThread(s, tid, t.(post := Guard(s)))
    case Admitted =>
      if t.pos >= |t.lines| then
        Put(SetThread(s, tid, t.(post := IdleQueued)), tid, [Idle(t.owned)])
      else if t.lines[t.pos].Choking? then SetThread(s, tid, t.(post := Crashed))
      else Put(SetThread(s, tid, t.(pos := t.pos + 1)), tid,
               Emit(t.owned, t.lines[t.pos], PartCount(t.lines[..t.pos])))
    case IdleQueued => SetThread(s, tid, t.(post := Replied))
    case _ => s
  }

  function Apply(s: Server, a: Action): Server {
    match a
    case OpenStream => s.(threads := s.threads + [Stream(Accepted, [], None, false)])
    case OpenSession => s.(threads := s.threads + [SessionPost(Waiting)])
    case OpenPrompt(owned, lines) => s.(threads := s.threads + [PromptPost(owned, lines, 0, Waiting)])
    case Break(tid) => if tid >= |s.threads| then s else BreakStream(s, tid)
    case Advance(tid) =>
      if tid >= |s.threads| then s
      else match s.threads[tid]
        case Stream(_, _, _, _) => StepStream(s, tid)
        case SessionPost(_) => StepSession(s, tid)
        case PromptPost(_, _, _, _) => StepPrompt(s, tid)
  }

  function Run(s: Server, actions: seq<Action>): Server
    decreases |actions|
  {
    if actions == [] then s else Run(Apply(s, actions[0]), actions[1..])
  }

  // ---------------------------------------------------------------------------------------------
  // Clients
  // ---------------------------------------------------------------------------------------------

  /** Some client has been sent a byte of the event stream. */
  predicate ByteSent(s: Server) {
    exists t :: t in s.threads && t.Stream? && (t.pc == HeadersSent || t.pc == Greeted)
  }

  /** The adapter's rule: it creates a session or prompts only after a byte of the event stream. */
  ghost predicate Disciplined(s: Server, actions: seq<Action>)
    decreases |actions|
  {
    actions == [] ||
    (&& (actions[0].OpenSession? || actions[0].OpenPrompt? ==> ByteSent(s))
     && Disciplined(Apply(s, actions[0]), actions[1..]))
  }

  predicate PostOf(t: Thread) {
    t.SessionPost? || t.PromptPost?
  }

  predicate HasRecorded(t: Thread) {
    t.Stream? && t.pc != Accepted
  }

  /** The flag is up exactly when some stream handler has got past recording it. */
  ghost predicate FlagOk(s: Server) {
    s.subscribed <==> exists i :: 0 <= i < |s.threads| && HasRecorded(s.threads[i])
  }

  /** Nobody is refused by the subscription guard, nor can be. */
  ghost predicate GuardOk(s: Server) {
    forall i :: 0 <= i < |s.threads| && PostOf(s.threads[i]) ==>
      s.subscribed && s.threads[i].post != Tripped
  }

  /** A step touches one thread, and never un-records a subscription. */
  lemma StepShape(s: Server, a: Action)
    ensures var s' := Apply(s, a);
            && |s.threads| <= |s'.threads|
            && (s.subscribed ==> s'.subscribed)
            && (forall i :: 0 <= i < |s.threads| && a != Advance(i) && a != Break(i) ==> s'.threads[i] == s.threads[i])
            && (forall i :: 0 <= i < |s.threads| && HasRecorded(s.threads[i]) ==> HasRecorded(s'.threads[i]))
  {
  }

  lemma FlagKept(s: Server, a: Action)
    requires FlagOk(s)
    ensures FlagOk(Apply(s, a))
  {
    var s' := Apply(s, a);
    StepShape(s, a);
    if s'.subscribed && !s.subscribed {
      assert HasRecorded(s'.threads[a.tid]);
    }
    if s.subscribed {
      var i :| 0 <= i < |s.threads| && HasRecorded(s.threads[i]);
      assert HasRecorded(s'.threads[i]);
    }
  }

  lemma GuardKept(s: Server, a: Action)
    requires FlagOk(s) && GuardOk(s)
    requires a.OpenSession? || a.OpenPrompt? ==> ByteSent(s)
    ensures GuardOk(Apply(s, a))
  {
  }

  /** A client that acts only after a byte of the event stream never trips the subscription guard, in
      any interleaving. */
  lemma {:induction false} CorrectClientsAreNeverRefused(s: Server, actions: seq<Action>)
    requires FlagOk(s) && GuardOk(s) && Disciplined(s, actions)
    ensures FlagOk(Run(s, actions)) && GuardOk(Run(s, actions))
    decreases |actions|
  {
    if actions != [] {
      FlagKept(s, actions[0]);
      GuardKept(s, actions[0]);
      CorrectClientsAreNeverRefused(Apply(s, actions[0]), actions[1..]);
    }
  }

  lemma NoRefusalFromStart(actions: seq<Action>)
    requires Disciplined(START, actions)
    ensures forall i :: 0 <= i < |Run(START, actions).threads| && PostOf(Run(START, actions).threads[i]) ==>
              Run(START, actions).threads[i].post != Tripped
  {
    CorrectClientsAreNeverRefused(START, actions);
  }

  /** The rule is needed: a client that prompts first is refused. */
  lemma EagerClientsAreRefused(owned: string, lines: seq<Line>)
    ensures Run(START, [OpenPrompt(owned, lines), Advance(0)]).threads == [PromptPost(owned, lines, 0, Tripped)]
  {
    var s := Apply(START, OpenPrompt(owned, lines));
    assert [OpenPrompt(owned, lines), Advance(0)][1..] == [Advance(0)];
    assert [Advance(0)][1..] == [];
    assert Run(s, [Advance(0)]) == Apply(s, Advance(0));
  }

  // ---------------------------------------------------------------------------------------------
  // The queue
  // ---------------------------------------------------------------------------------------------

  function Values(log: seq<(nat, Event)>): seq<Event> {
    seq(|log|, i requires 0 <= i < |log| => log[i].1)
  }

  /** The entries of a history that belong to one thread. */
  function Own(log: seq<(nat, Event)>, tid: nat): seq<Event> {
    if log == [] then []
    else Own(log[..|log| - 1], tid) + if log[|log| - 1].0 == tid then [log[|log| - 1].1] else []
  }

  lemma {:induction false} OwnConcat(a: seq<(nat, Event)>, b: seq<(nat, Event)>, tid: nat)
    ensures Own(a + b, tid) == Own(a, tid) + Own(b, tid)
    decreases |b|
  {
    if b == [] {
      assert a + b == a;
    } else {
      assert (a + b)[..|a + b| - 1] == a + b[..|b| - 1];
      OwnConcat(a, b[..|b| - 1], tid);
    }
  }

  lemma {:induction false} OwnTagged(tid: nat, events: seq<Event>, other: nat)
    ensures Own(Tagged(tid, events), other) == if other == tid then events else []
    decreases |events|
  {
    if events != [] {
      var init := events[..|events| - 1];
      assert Tagged(tid, events)[..|events| - 1] == Tagged(tid, init);
      OwnTagged(tid, init, other);
      assert init + [events[|events| - 1]] == events;
    }
  }

  lemma {:induction false} OwnOfStrangers(log: seq<(nat, Event)>, tid: nat)
    requires forall i :: 0 <= i < |log| ==> log[i].0 != tid
    ensures Own(log, tid) == []
    decreases |log|
  {
    if log != [] {
      OwnOfStrangers(log[..|log| - 1], tid);
    }
  }

  predicate Finished(post: PostPc) {
    post == IdleQueued || post == Replied
  }

  /** What thread `tid` has put on and taken off the queue, by where it stands. */
  ghost predicate ThreadOk(s: Server, tid: nat)
    requires tid < |s.threads|
  {
    match s.threads[tid]
    case Stream(pc, sent, held, _) =>
      && Own(s.puts, tid) == []
      && (held.Some? ==> pc == Greeted)
      && Own(s.gets, tid) == sent + if held.Some? then [held.value] else []
    case SessionPost(_) => Own(s.puts, tid) == [] && Own(s.gets, tid) == []
    case PromptPost(owned, lines, pos, post) =>
      && pos <= |lines| && (Finished(post) ==> pos == |lines|)
      && Choking !in lines[..pos]
      && Own(s.gets, tid) == []
      && Own(s.puts, tid) == Emitted(owned, lines[..pos]) + if Finished(post) then [Idle(owned)] else []
  }

  ghost predicate QueueOk(s: Server) {
    && Values(s.puts) == Values(s.gets) + s.queue
    && (forall i :: 0 <= i < |s.puts| ==> s.puts[i].0 < |s.threads|)
    && (forall i :: 0 <= i < |s.gets| ==> s.gets[i].0 < |s.threads|)
    && (forall tid :: 0 <= tid < |s.threads| ==> ThreadOk(s, tid))
  }

  lemma OpenKeepsQueue(s: Server, t: Thread)
    requires QueueOk(s)
    requires t == Stream(Accepted, [], None, false) || t == SessionPost(Waiting)
             || (t.PromptPost? && t.pos == 0 && t.post == Waiting)
    ensures QueueOk(s.(threads := s.threads + [t]))
  {
    var s' := s.(threads := s.threads + [t]);
    OwnOfStrangers(s.puts, |s.threads|);
    OwnOfStrangers(s.gets, |s.threads|);
    forall tid | 0 <= tid < |s'.threads| ensures ThreadOk(s', tid) {
      if tid < |s.threads| {
        assert ThreadOk(s, tid);
      }
    }
  }

  /** A thread moves on without touching the queue. */
  lemma SetKeepsQueue(s: Server, tid: nat, t: Thread, flag: bool)
    requires QueueOk(s) && tid < |s.threads|
    requires ThreadOk(s.(threads := s.threads[tid := t]), tid)
    ensures QueueOk(s.(threads := s.threads[tid := t], subscribed := flag))
  {
    var s' := s.(threads := s.threads[tid := t], subscribed := flag);
    forall j | 0 <= j < |s'.threads| ensures ThreadOk(s', j) {
      assert ThreadOk(s, j);
    }
  }

  lemma PutBalances(puts: seq<(nat, Event)>, gets: seq<(nat, Event)>, queue: seq<Event>, tid: nat, events: seq<Event>)
    requires Values(puts) == Values(gets) + queue
    ensures Values(puts + Tagged(tid, events)) == Values(gets) + (queue + events)
  {
    assert Values(puts + Tagged(tid, events)) == Values(puts) + events;
  }

  /** A prompt thread moves on and enqueues. */
  lemma PutKeepsQueue(s: Server, tid: nat, t: Thread, events: seq<Event>)
    requires QueueOk(s) && tid < |s.threads| && t.PromptPost?
    requires t.pos <= |t.lines| && (Finished(t.post) ==> t.pos == |t.lines|) && Choking !in t.lines[..t.pos]
    requires Own(s.gets, tid) == []
    requires Own(s.puts, tid) + events
             == Emitted(t.owned, t.lines[..t.pos]) + if Finished(t.post) then [Idle(t.owned)] else []
    ensures QueueOk(Put(SetThread(s, tid, t), tid, events))
  {
    var s' := Put(SetThread(s, tid, t), tid, events);
    PutBalances(s.puts, s.gets, s.queue, tid, events);
    forall j | 0 <= j < |s'.threads| ensures ThreadOk(s', j) {
      OthersUntouched(s, s', tid, events, j);
    }
  }

  lemma OthersUntouched(s: Server, s': Server, tid: nat, events: seq<Event>, j: nat)
    requires QueueOk(s) && tid < |s.threads| == |s'.threads| && j < |s.threads|
    requires s'.puts == s.puts + Tagged(tid, events) && s'.gets == s.gets
    requires j != tid ==> s'.threads[j] == s.threads[j]
    requires j == tid ==>
               var t := s'.threads[tid];
               && t.PromptPost? && t.pos <= |t.lines| && (Finished(t.post) ==> t.pos == |t.lines|)
               && Choking !in t.lines[..t.pos]
               && Own(s.gets, tid) == []
               && Own(s.puts, tid) + events
                  == Emitted(t.owned, t.lines[..t.pos]) + if Finished(t.post) then [Idle(t.owned)] else []
    ensures ThreadOk(s', j)
  {
    assert ThreadOk(s, j);
    OwnConcat(s.puts, Tagged(tid, events), j);
    OwnTagged(tid, events, j);
  }

  /** A stream thread takes the oldest event. */
  lemma GetKeepsQueue(s: Server, tid: nat, t: Thread)
    requires QueueOk(s) && tid < |s.threads| && s.queue != []
    requires t.Stream? && t.pc == Greeted && t.held.None? && t == s.threads[tid]
    ensures QueueOk(SetThread(s, tid, t.(held := Some(s.queue[0]))).(queue := s.queue[1..],
                                                                    gets := s.gets + [(tid, s.queue[0])]))
  {
    var e := s.queue[0];
    var s' := SetThread(s, tid, t.(held := Some(e))).(queue := s.queue[1..], gets := s.gets + [(tid, e)]);
    assert Values(s'.gets) == Values(s.gets) + [e];
    assert s.queue == [e] + s.queue[1..];
    assert ThreadOk(s, tid);
    forall j | 0 <= j < |s'.threads| ensures ThreadOk(s', j) {
      assert ThreadOk(s, j);
      assert s'.gets[..|s'.gets| - 1] == s.gets;
    }
  }

  lemma StreamKeepsQueue(s: Server, tid: nat)
    requires QueueOk(s) && tid < |s.threads| && s.threads[tid].Stream?
    ensures QueueOk(StepStream(s, tid))
  {
    var t := s.threads[tid];
    assert ThreadOk(s, tid);
    if t.broken {
      return;
    }
    match t.pc
    case Accepted => SetKeepsQueue(s, tid, t.(pc := Recorded), true);
    case Recorded => SetKeepsQueue(s, tid, t.(pc := HeadersSent), s.subscribed);
    case HeadersSent => SetKeepsQueue(s, tid, t.(pc := Greeted), s.subscribed);
    case Greeted =>
      if t.held.Some? {
        SetKeepsQueue(s, tid, t.(sent := t.sent + [t.held.value], held := None), s.subscribed);
      } else if s.queue != [] {
        GetKeepsQueue(s, tid, t);
      }
  }

  /** What an admitted prompt has enqueued so far. */
  lemma PromptAccount(s: Server, tid: nat, t: Thread)
    requires QueueOk(s) && tid < |s.threads| && s.threads[tid] == t
    requires t.PromptPost? && t.post == Admitted
    ensures t.pos <= |t.lines| && Choking !in t.lines[..t.pos] && Own(s.gets, tid) == []
    ensures Own(s.puts, tid) == Emitted(t.owned, t.lines[..t.pos])
  {
    assert ThreadOk(s, tid);
    assert Own(s.puts, tid) == Emitted(t.owned, t.lines[..t.pos]) + [];
  }

  /** And will have after one more line. */
  lemma PromptNext(t: Thread, puts: seq<Event>)
    requires t.PromptPost? && t.pos < |t.lines| && t.lines[t.pos] != Choking
    requires puts == Emitted(t.owned, t.lines[..t.pos]) && Choking !in t.lines[..t.pos]
    ensures puts + Emit(t.owned, t.lines[t.pos], PartCount(t.lines[..t.pos])) == Emitted(t.owned, t.lines[..t.pos + 1])
    ensures Choking !in t.lines[..t.pos + 1]
  {
    EmittedNext(t.owned, t.lines, t.pos);
    assert t.lines[..t.pos + 1] == t.lines[..t.pos] + [t.lines[t.pos]];
  }

  lemma PromptLineKeepsQueue(s: Server, tid: nat, t: Thread)
    requires QueueOk(s) && tid < |s.threads| && s.threads[tid] == t
    requires t.PromptPost? && t.post == Admitted && t.pos < |t.lines| && t.lines[t.pos] != Choking
    ensures QueueOk(Put(SetThread(s, tid, t.(pos := t.pos + 1)), tid,
                        Emit(t.owned, t.lines[t.pos], PartCount(t.lines[..t.pos]))))
  {
    var t', more := t.(pos := t.pos + 1), Emit(t.owned, t.lines[t.pos], PartCount(t.lines[..t.pos]));
    assert t'.pos <= |t'.lines| && Choking !in t'.lines[..t'.pos] && Own(s.gets, tid) == []
           && Own(s.puts, tid) + more == Emitted(t'.owned, t'.lines[..t'.pos]) + [] by {
      PromptAccount(s, tid, t);
      PromptNext(t, Own(s.puts, tid));
    }
    PutKeepsQueue(s, tid, t', more);
  }

  lemma PromptIdleKeepsQueue(s: Server, tid: nat, t: Thread)
    requires QueueOk(s) && tid < |s.threads| && s.threads[tid] == t
    requires t.PromptPost? && t.post == Admitted && t.pos >= |t.lines|
    ensures QueueOk(Put(SetThread(s, tid, t.(post := IdleQueued)), tid, [Idle(t.owned)]))
  {
    PromptAccount(s, tid, t);
    PutKeepsQueue(s, tid, t.(post := IdleQueued), [Idle(t.owned)]);
  }

  lemma PromptMovesOn(s: Server, tid: nat, t: Thread, post: PostPc)
    requires QueueOk(s) && tid < |s.threads| && s.threads[tid] == t && t.PromptPost?
    requires Finished(post) <==> Finished(t.post)
    ensures QueueOk(SetThread(s, tid, t.(post := post)))
  {
    assert ThreadOk(s, tid);
    SetKeepsQueue(s, tid, t.(post := post), s.subscribed);
  }

  lemma PromptKeepsQueue(s: Server, tid: nat)
    requires QueueOk(s) && tid < |s.threads| && s.threads[tid].PromptPost?
    ensures QueueOk(StepPrompt(s, tid))
  {
    var t := s.threads[tid];
    match t.post
    case Waiting => PromptMovesOn(s, tid, t, Guard(s));
    case Admitted =>
      if t.pos >= |t.lines| {
        PromptIdleKeepsQueue(s, tid, t);
      } else if t.lines[t.pos].Choking? {
        PromptMovesOn(s, tid, t, Crashed);
      } else {
        PromptLineKeepsQueue(s, tid, t);
      }
    case IdleQueued => PromptMovesOn(s, tid, t, Replied);
    case _ =>
  }

  lemma StepKeepsQueue(s: Server, a: Action)
    requires QueueOk(s)
    ensures QueueOk(Apply(s, a))
  {
    match a
    case OpenStream => OpenKeepsQueue(s, Stream(Accepted, [], None, false));
    case OpenSession => OpenKeepsQueue(s, SessionPost(Waiting));
    case OpenPrompt(owned, lines) => OpenKeepsQueue(s, PromptPost(owned, lines, 0, Waiting));
    case Break(tid) =>
      if tid < |s.threads| && Writing(s.threads[tid]) {
        assert ThreadOk(s, tid);
        SetKeepsQueue(s, tid, s.threads[tid].(broken := true), s.subscribed);
      }
    case Advance(tid) =>
      if tid < |s.threads| {
        assert ThreadOk(s, tid);
        match s.threads[tid]
        case Stream(_, _, _, _) => StreamKeepsQueue(s, tid);
        case SessionPost(post) =>
          if post == Waiting {
            SetKeepsQueue(s, tid, SessionPost(Guard(s)), s.subscribed);
          } else if post == Admitted {
            SetKeepsQueue(s, tid, SessionPost(Replied), s.subscribed);
          }
        case PromptPost(_, _, _, _) => PromptKeepsQueue(s, tid);
      }
  }

  lemma {:induction false} RunKeepsQueue(s: Server, actions: seq<Action>)
    requires QueueOk(s)
    ensures QueueOk(Run(s, actions))
    decreases |actions|
  {
    if actions != [] {
      StepKeepsQueue(s, actions[0]);
      RunKeepsQueue(Apply(s, actions[0]), actions[1..]);
    }
  }

  // ---------------------------------------------------------------------------------------------
  // What holds after any interleaving
  // ---------------------------------------------------------------------------------------------

  /** A prompt that has been answered has enqueued its own events in order, its idle event last. */
  lemma AnsweredPromptsHaveQueuedAll(actions: seq<Action>, tid: nat)
    requires tid < |Run(START, actions).threads|
    requires Run(START, actions).threads[tid].PromptPost? && Run(START, actions).threads[tid].post == Replied
    ensures var s := Run(START, actions);
            Own(s.puts, tid) == Emitted(s.threads[tid].owned, s.threads[tid].lines) + [Idle(s.threads[tid].owned)]
    ensures var s := Run(START, actions);
            exists events :: Own(s.puts, tid) == events + [Idle(s.threads[tid].owned)]
                             && IsRelay(s.threads[tid].owned, s.threads[tid].lines, events)
  {
    RunKeepsQueue(START, actions);
    var s := Run(START, actions);
    assert ThreadOk(s, tid);
    assert s.threads[tid].lines[..|s.threads[tid].lines|] == s.threads[tid].lines;
    OutputIsRelayed(s.threads[tid].owned, s.threads[tid].lines);
  }

  /** A prompt whose child prints a line that makes the handler raise is never answered, and never
      enqueues its idle event. */
  lemma ChokedPromptsNeverAnswer(actions: seq<Action>, tid: nat)
    requires tid < |Run(START, actions).threads|
    requires Run(START, actions).threads[tid].PromptPost? && Choking in Run(START, actions).threads[tid].lines
    ensures var s := Run(START, actions);
            s.threads[tid].post != Replied && Idle(s.threads[tid].owned) !in Own(s.puts, tid)
  {
    RunKeepsQueue(START, actions);
    var s := Run(START, actions);
    assert ThreadOk(s, tid);
    var t := s.threads[tid];
    assert t.lines[..|t.lines|] == t.lines;
    EmittedHasNoIdle(t.owned, t.lines[..t.pos], t.owned);
  }

  /** The queue's two ends agree in content and order, whoever reads it, and what a handler took it has
      sent, but for one event it may still hold. */
  lemma QueueIsFifo(actions: seq<Action>)
    ensures var s := Run(START, actions);
            Values(s.puts) == Values(s.gets) + s.queue
    ensures var s := Run(START, actions);
            forall tid :: 0 <= tid < |s.threads| && s.threads[tid].Stream? ==>
              var t := s.threads[tid];
              Own(s.gets, tid) == t.sent + if t.held.Some? then [t.held.value] else []
  {
    RunKeepsQueue(START, actions);
    var s := Run(START, actions);
    forall tid | 0 <= tid < |s.threads| && s.threads[tid].Stream?
      ensures var t := s.threads[tid];
              Own(s.gets, tid) == t.sent + if t.held.Some? then [t.held.value] else []
    {
      assert ThreadOk(s, tid);
    }
  }

  lemma {:induction false} BrokenStreamsStayBroken(s: Server, actions: seq<Action>, tid: nat)
    requires tid < |s.threads| && s.threads[tid].Stream? && s.threads[tid].broken
    ensures tid < |Run(s, actions).threads| && Run(s, actions).threads[tid] == s.threads[tid]
    decreases |actions|
  {
    if actions != [] {
      BrokenStreamsStayBroken(Apply(s, actions[0]), actions[1..], tid);
    }
  }

  lemma WorkingStreamSendsOrBreaks(s: Server, tid: nat)
    requires QueueOk(s) && tid < |s.threads| && s.threads[tid].Stream?
    requires s.threads[tid].held.Some? && !s.threads[tid].broken
    ensures Apply(s, Advance(tid)).threads[tid]
            == s.threads[tid].(sent := s.threads[tid].sent + [s.threads[tid].held.value], held := None)
    ensures Apply(s, Break(tid)).threads[tid] == s.threads[tid].(broken := true)
  {
    assert ThreadOk(s, tid);
  }

  /** A taken event is lost exactly when the handler holding it has failed: then no continuation sends
      it; otherwise the handler's next step does, unless its write fails then. */
  lemma LostExactlyWhenBroken(actions: seq<Action>, later: seq<Action>, tid: nat)
    requires tid < |Run(START, actions).threads|
    requires Run(START, actions).threads[tid].Stream? && Run(START, actions).threads[tid].held.Some?
    ensures var s := Run(START, actions);
            var t := s.threads[tid];
            if t.broken then tid < |Run(s, later).threads| && Run(s, later).threads[tid] == t
            else && Apply(s, Advance(tid)).threads[tid] == t.(sent := t.sent + [t.held.value], held := None)
                 && Apply(s, Break(tid)).threads[tid] == t.(broken := true)
  {
    var s := Run(START, actions);
    if s.threads[tid].broken {
      BrokenStreamsStayBroken(s, later, tid);
    } else {
      RunKeepsQueue(START, actions);
      WorkingStreamSendsOrBreaks(s, tid);
    }
  }

  ghost predicate OnlyStream(s: Server, tid: nat) {
    && tid < |s.threads| && s.threads[tid].Stream?
    && forall j :: 0 <= j < |s.threads| && s.threads[j].Stream? ==> j == tid
  }

  lemma {:induction false} SoleOwnerOwnsAll(log: seq<(nat, Event)>, tid: nat, n: nat)
    requires forall i :: 0 <= i < |log| ==> log[i].0 < n
    requires forall j :: 0 <= j < n && j != tid ==> Own(log, j) == []
    ensures Own(log, tid) == Values(log)
    decreases |log|
  {
    if log != [] {
      var init, last := log[..|log| - 1], log[|log| - 1];
      assert last.0 != tid ==> Own(log, last.0) != [];
      forall j | 0 <= j < n && j != tid ensures Own(init, j) == [] {
        assert Own(log, j) == [];
      }
      SoleOwnerOwnsAll(init, tid, n);
      assert Values(log) == Values(init) + [last.1];
    }
  }

  /** A single subscriber is sent a prefix of the enqueue order. */
  lemma SoleSubscriberSeesPrefix(actions: seq<Action>, tid: nat)
    requires OnlyStream(Run(START, actions), tid)
    ensures Run(START, actions).threads[tid].sent <= Values(Run(START, actions).puts)
  {
    RunKeepsQueue(START, actions);
    var s := Run(START, actions);
    assert ThreadOk(s, tid);
    forall j | 0 <= j < |s.threads| && j != tid ensures Own(s.gets, j) == [] {
      assert ThreadOk(s, j);
    }
    SoleOwnerOwnsAll(s.gets, tid, |s.threads|);
  }

  /** When a single subscriber has been sent a prompt's idle event, it has been sent every event of that
      prompt before it, in order. */
  lemma IdleSeenMeansAllSeen(actions: seq<Action>, tid: nat, prompt: nat, at: nat)
    requires OnlyStream(Run(START, actions), tid)
    requires prompt < |Run(START, actions).threads| && Run(START, actions).threads[prompt].PromptPost?
    requires var s := Run(START, actions);
             && at < |s.threads[tid].sent| && at < |s.puts|
             && s.puts[at] == (prompt, Idle(s.threads[prompt].owned))
    ensures var s := Run(START, actions);
            var p, seen := s.threads[prompt], |s.threads[tid].sent|;
            && seen <= |s.puts| && s.threads[tid].sent == Values(s.puts[..seen])
            && Own(s.puts[..seen], prompt) == Emitted(p.owned, p.lines) + [Idle(p.owned)]
  {
    SoleSubscriberSeesPrefix(actions, tid);
    RunKeepsQueue(START, actions);
    var s := Run(START, actions);
    var seen := |s.threads[tid].sent|;
    assert s.threads[tid].sent == Values(s.puts)[..seen] == Values(s.puts[..seen]);
    IdleClosesTheHistory(s, prompt, seen, at);
  }

  lemma IdleClosesTheHistory(s: Server, prompt: nat, seen: nat, at: nat)
    requires QueueOk(s) && prompt < |s.threads| && s.threads[prompt].PromptPost?
    requires at < seen <= |s.puts| && s.puts[at] == (prompt, Idle(s.threads[prompt].owned))
    ensures var p := s.threads[prompt];
            Own(s.puts[..seen], prompt) == Emitted(p.owned, p.lines) + [Idle(p.owned)]
  {
    var p := s.threads[prompt];
    assert s.puts == s.puts[..seen] + s.puts[seen..];
    OwnConcat(s.puts[..seen], s.puts[seen..], prompt);
    OwnContains(s.puts[..seen], at);
    assert ThreadOk(s, prompt);
    EmittedHasNoIdle(p.owned, p.lines[..p.pos], p.owned);
    assert p.lines[..|p.lines|] == p.lines;
    LastSeenMeansAllSeen(Emitted(p.owned, p.lines[..p.pos]), Idle(p.owned), Own(s.puts, prompt),
                         Own(s.puts[..seen], prompt));
  }

  lemma LastSeenMeansAllSeen(body: seq<Event>, last: Event, whole: seq<Event>, part: seq<Event>)
    requires whole == body || whole == body + [last]
    requires last !in body && part <= whole && last in part
    ensures whole == body + [last] && part == whole
  {
  }

  lemma {:induction false} OwnContains(log: seq<(nat, Event)>, at: nat)
    requires at < |log|
    ensures log[at].1 in Own(log, log[at].0)
    decreases |log|
  {
    if at < |log| - 1 {
      OwnContains(log[..|log| - 1], at);
    }
  }

  // ---------------------------------------------------------------------------------------------
  // Progress
  // ---------------------------------------------------------------------------------------------

  /** In every history, a waiting request is admitted exactly when some stream handler has got past its
      first step, and tripped otherwise. */
  lemma GuardTripsExactly(actions: seq<Action>, tid: nat)
    requires tid < |Run(START, actions).threads| && PostOf(Run(START, actions).threads[tid])
    requires Run(START, actions).threads[tid].post == Waiting
    ensures var s := Run(START, actions);
            var s' := Apply(s, Advance(tid));
            && |s'.threads| == |s.threads| && PostOf(s'.threads[tid])
            && s'.threads[tid].post == (if exists t :: t in s.threads && t.Stream? && t.pc != Accepted
                                        then Admitted else Tripped)
  {
    RunKeepsFlag(START, actions);
    var s := Run(START, actions);
    if s.subscribed {
      var i :| 0 <= i < |s.threads| && HasRecorded(s.threads[i]);
      assert s.threads[i] in s.threads;
    } else if t :| t in s.threads && t.Stream? && t.pc != Accepted {
      assert HasRecorded(t);
    }
  }

  lemma {:induction false} RunKeepsFlag(s: Server, actions: seq<Action>)
    requires FlagOk(s)
    ensures FlagOk(Run(s, actions))
    decreases |actions|
  {
    if actions != [] {
      FlagKept(s, actions[0]);
      RunKeepsFlag(Apply(s, actions[0]), actions[1..]);
    }
  }

  /** `n` steps of one handler in a row. */
  function Steps(tid: nat, n: nat): seq<Action> {
    if n == 0 then [] else [Advance(tid)] + Steps(tid, n - 1)
  }

  lemma StepsUnroll(s: Server, tid: nat, n: nat)
    requires n > 0
    ensures Run(s, Steps(tid, n)) == Run(Apply(s, Advance(tid)), Steps(tid, n - 1))
  {
    assert Steps(tid, n)[0] == Advance(tid) && Steps(tid, n)[1..] == Steps(tid, n - 1);
  }

  /** A new stream handler greets its client in three steps, and leaves the flag up. */
  lemma StreamConnects(s: Server, tid: nat)
    requires tid < |s.threads| && s.threads[tid] == Stream(Accepted, [], None, false)
    ensures Run(s, Steps(tid, 3))
            == s.(threads := s.threads[tid := Stream(Greeted, [], None, false)], subscribed := true)
  {
    StepsUnroll(s, tid, 3);
    var s1 := Apply(s, Advance(tid));
    StepsUnroll(s1, tid, 2);
    var s2 := Apply(s1, Advance(tid));
    StepsUnroll(s2, tid, 1);
    assert Run(Apply(s2, Advance(tid)), Steps(tid, 0)) == Apply(s2, Advance(tid));
  }

  function HeldBy(t: Thread): seq<Event> {
    if t.Stream? && t.held.Some? then [t.held.value] else []
  }

  /** A working handler that is left to run sends whatever it holds and then the whole queue, in order. */
  lemma {:induction false} StreamDrains(s: Server, tid: nat, n: nat)
    requires tid < |s.threads| && s.threads[tid].Stream?
    requires s.threads[tid].pc == Greeted && !s.threads[tid].broken
    requires n >= 2 * |s.queue| + |HeldBy(s.threads[tid])|
    ensures var s' := Run(s, Steps(tid, n));
            var t := s.threads[tid];
            && s'.threads == s.threads[tid := t.(sent := t.sent + HeldBy(t) + s.queue, held := None)]
            && s'.queue == [] && s'.puts == s.puts && s'.subscribed == s.subscribed
    decreases n
  {
    var t := s.threads[tid];
    if n > 0 {
      StepsUnroll(s, tid, n);
      var s1 := Apply(s, Advance(tid));
      var t1 := s1.threads[tid];
      StreamDrains(s1, tid, n - 1);
      assert t1.sent + HeldBy(t1) + s1.queue == t.sent + HeldBy(t) + s.queue;
    } else {
      assert t.sent + HeldBy(t) + s.queue == t.sent;
    }
  }

  lemma SoleSubscriberTakesAll(s: Server, tid: nat)
    requires QueueOk(s) && OnlyStream(s, tid)
    ensures s.threads[tid].sent + HeldBy(s.threads[tid]) == Values(s.gets)
  {
    assert ThreadOk(s, tid);
    forall j | 0 <= j < |s.threads| && j != tid ensures Own(s.gets, j) == [] {
      assert ThreadOk(s, j);
    }
    SoleOwnerOwnsAll(s.gets, tid, |s.threads|);
  }

  lemma QueueArrives(s: Server, tid: nat)
    requires QueueOk(s) && OnlyStream(s, tid) && s.threads[tid].pc == Greeted && !s.threads[tid].broken
    ensures var s' := Run(s, Steps(tid, 2 * |s.queue| + 1));
            && |s'.threads| == |s.threads| && s'.threads[tid].Stream?
            && s'.threads[tid].sent == Values(s.puts) && s'.puts == s.puts
  {
    SoleSubscriberTakesAll(s, tid);
    StreamDrains(s, tid, 2 * |s.queue| + 1);
  }

  /** In every history with one subscriber, connected and not failed: left to run, it has been sent every
      event that any prompt ever enqueued, in order, and so each prompt's events up to its idle event. */
  lemma EverythingArrives(actions: seq<Action>, tid: nat)
    requires OnlyStream(Run(START, actions), tid)
    requires Run(START, actions).threads[tid].pc == Greeted && !Run(START, actions).threads[tid].broken
    ensures var s := Run(START, actions);
            var s' := Run(s, Steps(tid, 2 * |s.queue| + 1));
            && |s'.threads| == |s.threads| && s'.threads[tid].Stream?
            && s'.threads[tid].sent == Values(s.puts) && s'.puts == s.puts
  {
    RunKeepsQueue(START, actions);
    QueueArrives(Run(START, actions), tid);
  }

  /** What one step makes of an admitted prompt. */
  lemma AdmittedStep(s: Server, tid: nat, t: Thread)
    requires tid < |s.threads| && s.threads[tid] == t && t.PromptPost? && t.post == Admitted && t.pos <= |t.lines|
    ensures var s' := Apply(s, Advance(tid));
            && |s'.threads| == |s.threads|
            && s'.threads[tid] == (if t.pos == |t.lines| then t.(post := IdleQueued)
                                   else if t.lines[t.pos] == Choking then t.(post := Crashed)
                                   else t.(pos := t.pos + 1))
    ensures t.pos < |t.lines| ==>
              (Choking in t.lines[t.pos..] <==> t.lines[t.pos] == Choking || Choking in t.lines[t.pos + 1..])
  {
    if t.pos < |t.lines| {
      assert t.lines[t.pos..] == [t.lines[t.pos]] + t.lines[t.pos + 1..];
    }
  }

  /** A session request is answered in two steps when the flag is up. */
  lemma SessionAnswers(s: Server, tid: nat)
    requires tid < |s.threads| && s.threads[tid] == SessionPost(Waiting)
    ensures Run(s, Steps(tid, 2))
            == s.(threads := s.threads[tid := SessionPost(if s.subscribed then Replied else Tripped)])
  {
    StepsUnroll(s, tid, 2);
    var s1 := Apply(s, Advance(tid));
    StepsUnroll(s1, tid, 1);
    assert Run(Apply(s1, Advance(tid)), Steps(tid, 0)) == Apply(s1, Advance(tid));
  }

  /** An admitted prompt that is left to run answers, unless a line makes its handler raise. */
  lemma {:induction false} PromptAnswers(s: Server, tid: nat, n: nat)
    requires tid < |s.threads| && s.threads[tid].PromptPost? && s.threads[tid].post == Admitted
    requires s.threads[tid].pos <= |s.threads[tid].lines|
    requires n >= |s.threads[tid].lines| - s.threads[tid].pos + 2
    ensures var s' := Run(s, Steps(tid, n));
            var t := s.threads[tid];
            && |s'.threads| == |s.threads| && s'.threads[tid].PromptPost?
            && s'.threads[tid].post == (if Choking in t.lines[t.pos..] then Crashed else Replied)
    decreases n
  {
    var t := s.threads[tid];
    StepsUnroll(s, tid, n);
    AdmittedStep(s, tid, t);
    var s1 := Apply(s, Advance(tid));
    if t.pos == |t.lines| {
      StepsUnroll(s1, tid, n - 1);
      SettledStays(Apply(s1, Advance(tid)), tid, n - 2);
    } else if t.lines[t.pos] == Choking {
      SettledStays(s1, tid, n - 1);
    } else {
      PromptAnswers(s1, tid, n - 1);
    }
  }

  lemma {:induction false} SettledStays(s: Server, tid: nat, n: nat)
    requires tid < |s.threads| && s.threads[tid].PromptPost?
    requires s.threads[tid].post == Replied || s.threads[tid].post == Crashed
    ensures Run(s, Steps(tid, n)) == s
  {
    if n > 0 {
      StepsUnroll(s, tid, n);
      SettledStays(s, tid, n - 1);
    }
  }
}
