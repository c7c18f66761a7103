/** The capabilities registry file: seeding it, and merging newly bundled defaults into it on load. */
module Capabilities {
  import opened Common

  datatype Capability = Capability(name: string, title: string, description: string, instruction: string)

  datatype FileState = Absent | Unreadable | Malformed | Holds(entries: seq<Capability>)

  datatype LoadResult = Loaded(entries: seq<Capability>) | IoError | ParseError

  function Names(entries: seq<Capability>): set<string> {
    set c | c in entries :: c.name
  }

  /** The defaults whose name the file lacks, in bundled order. */
  function Missing(defaults: seq<Capability>, existing: set<string>): seq<Capability> {
    if defaults == [] then []
    else (if defaults[0].name !in existing then [defaults[0]] else []) + Missing(defaults[1..], existing)
  }

  function Merge(entries: seq<Capability>, defaults: seq<Capability>): seq<Capability> {
    entries + Missing(defaults, Names(entries))
  }

  /** What a load leaves on disk, `writable` saying whether a write would succeed. */
  function FileAfterLoad(file: FileState, defaults: seq<Capability>, writable: bool): FileState {
    match file
    case Absent => if writable then Holds(defaults) else Absent
    case Holds(entries) => if writable then Holds(Merge(entries, defaults)) else file
    case _ => file
  }

  class RegistryFile {
    var file: FileState
    var writes: nat

    constructor ()
      ensures file == Absent && writes == 0
    {
      file, writes := Absent, 0;
    }

    method Write(registry: seq<Capability>, writable: bool) returns (ok: bool)
      modifies this
      ensures ok == writable
      ensures file == (if writable then Holds(registry) else old(file))
      ensures writes == old(writes) + if writable then 1 else 0
    {
      ok := writable;
      if writable {
        file, writes := Holds(registry), writes + 1;
      }
    }

    /** Reads the registry, appending and writing back the bundled entries it lacks. It touches the file
        only when something is missing. */
    method LoadOrSeed(defaults: seq<Capability>, writable: bool) returns (result: LoadResult)
      modifies this
      ensures file == FileAfterLoad(old(file), defaults, writable)
      ensures result.ParseError? <==> old(file).Malformed?
      ensures result.IoError? <==>
                || old(file).Unreadable?
                || (!writable && old(file).Absent?)
                || (!writable && old(file).Holds? && !(Names(defaults) <= Names(old(file).entries)))
      ensures result.Loaded? ==> file == Holds(result.entries)
      ensures result.Loaded? ==> Names(defaults) <= Names(result.entries)
      ensures result.Loaded? && old(file).Absent? ==> result.entries == defaults
      ensures result.Loaded? && old(file).Holds? ==> old(file).entries <= result.entries
      ensures old(file).Holds? && Names(defaults) <= Names(old(file).entries) ==>
                writes == old(writes) && result == Loaded(old(file).entries)
      ensures writes == old(writes) + if file == old(file) then 0 else 1
    {
      match file
      case Absent =>
        var ok := Write(defaults, writable);
        result := if ok then Loaded(defaults) else IoError;
      case Unreadable => result := IoError;
      case Malformed => result := ParseError;
      case Holds(entries) =>
        var missing := Missing(defaults, Names(entries));
        MissingNames(defaults, Names(entries));
        NamesAppend(entries, missing);
        if missing == [] {
          assert entries + missing == entries;
          result := Loaded(entries);
        } else {
          MissingMeansLacking(defaults, Names(entries));
          var ok := Write(entries + missing, writable);
          result := if ok then Loaded(entries + missing) else IoError;
        }
    }
  }

  lemma NamesAppend(a: seq<Capability>, b: seq<Capability>)
    ensures Names(a + b) == Names(a) + Names(b)
  {
  }

  lemma {:induction false} MissingNames(defaults: seq<Capability>, existing: set<string>)
    ensures Names(Missing(defaults, existing)) == Names(defaults) - existing
  {
    if defaults != [] {
      var head, rest := [defaults[0]], defaults[1..];
      assert defaults == head + rest;
      NamesAppend(head, rest);
      MissingNames(rest, existing);
      NamesAppend(if defaults[0].name !in existing then head else [], Missing(rest, existing));
      assert Names(head) == {defaults[0].name};
    }
  }

  lemma MissingMeansLacking(defaults: seq<Capability>, existing: set<string>)
    requires Missing(defaults, existing) != []
    ensures !(Names(defaults) <= existing)
  {
  }

  /** `added` are the defaults at the positions `at`, none before `from`: in bundled order, unchanged, each
      once, and exactly those whose name is not taken. */
  ghost predicate Picks(defaults: seq<Capability>, from: nat, taken: set<string>, added: seq<Capability>,
                        at: seq<nat>) {
    && |at| == |added|
    && (forall i, j :: 0 <= i < j < |at| ==> at[i] < at[j])
    && (forall j :: 0 <= j < |at| ==>
          from <= at[j] < |defaults| && added[j] == defaults[at[j]] && added[j].name !in taken)
    && (forall i :: from <= i < |defaults| && defaults[i].name !in taken ==> i in at)
  }

  lemma OneMorePicked(defaults: seq<Capability>, from: nat, taken: set<string>, added: seq<Capability>,
                      at: seq<nat>)
    requires from < |defaults| && Picks(defaults, from + 1, taken, added, at) && defaults[from].name !in taken
    ensures Picks(defaults, from, taken, [defaults[from]] + added, [from] + at)
  {
    forall i | from <= i < |defaults| && defaults[i].name !in taken ensures i in [from] + at {
      assert i > from ==> i in at;
    }
  }

  lemma {:induction false} MissingPicks(defaults: seq<Capability>, from: nat, taken: set<string>)
    returns (at: seq<nat>)
    requires from <= |defaults|
    ensures Picks(defaults, from, taken, Missing(defaults[from..], taken), at)
    decreases |defaults| - from
  {
    at := [];
    if from < |defaults| {
      at := MissingPicks(defaults, from + 1, taken);
      assert defaults[from..][1..] == defaults[from + 1..];
      if defaults[from].name !in taken {
        OneMorePicked(defaults, from, taken, Missing(defaults[from + 1..], taken), at);
        at := [from] + at;
      } else {
        assert [] + Missing(defaults[from + 1..], taken) == Missing(defaults[from + 1..], taken);
      }
    }
  }

  /** What a load appends: the missing defaults, whole and in bundled order, and nothing else. */
  lemma MergeAppendsTheMissing(entries: seq<Capability>, defaults: seq<Capability>)
    ensures entries <= Merge(entries, defaults)
    ensures exists at :: Picks(defaults, 0, Names(entries), Merge(entries, defaults)[|entries|..], at)
  {
    var at := MissingPicks(defaults, 0, Names(entries));
    assert defaults[0..] == defaults;
    assert Merge(entries, defaults)[|entries|..] == Missing(defaults, Names(entries));
  }

  // ---------------------------------------------------------------------------------------------
  // Histories: loads by any releases, some of whose writes fail, between any edits by the user
  // ---------------------------------------------------------------------------------------------

  datatype Event = Load(defaults: seq<Capability>, writable: bool) | Edit(contents: FileState)

  function After(file: FileState, events: seq<Event>): FileState {
    if events == [] then file
    else
      var before, last := After(file, events[..|events| - 1]), events[|events| - 1];
      match last
      case Load(defaults, writable) => FileAfterLoad(before, defaults, writable)
      case Edit(contents) => contents
  }

  /** What the user last left in the file, and the loads since then. */
  function LastEdit(file: FileState, events: seq<Event>): FileState {
    if events == [] then file
    else if events[|events| - 1].Edit? then events[|events| - 1].contents
    else LastEdit(file, events[..|events| - 1])
  }

  function SinceEdit(events: seq<Event>): (loads: seq<Event>)
    ensures forall i :: 0 <= i < |loads| ==> loads[i].Load? && loads[i] in events
  {
    if events == [] || events[|events| - 1].Edit? then []
    else SinceEdit(events[..|events| - 1]) + [events[|events| - 1]]
  }

  /** The names bundled with the loads that could write, and the defaults of the first of these. */
  function Bundled(events: seq<Event>): set<string> {
    if events == [] then {}
    else
      var last := events[|events| - 1];
      Bundled(events[..|events| - 1]) + if last.Load? && last.writable then Names(last.defaults) else {}
  }

  function FirstBundle(events: seq<Event>): Option<seq<Capability>> {
    if events == [] then None
    else
      var first, last := FirstBundle(events[..|events| - 1]), events[|events| - 1];
      if first.Some? then first
      else if last.Load? && last.writable then Some(last.defaults)
      else None
  }

  ghost predicate Distinct(entries: seq<Capability>) {
    forall i, j :: 0 <= i < j < |entries| ==> entries[i].name != entries[j].name
  }

  lemma {:induction false} MissingDistinct(defaults: seq<Capability>, existing: set<string>)
    requires Distinct(defaults)
    ensures Distinct(Missing(defaults, existing))
  {
    if defaults != [] {
      var rest := defaults[1..];
      MissingDistinct(rest, existing);
      MissingNames(rest, existing);
      forall c | c in Missing(rest, existing) ensures c.name != defaults[0].name {
        assert c.name in Names(Missing(rest, existing));
        var d :| d in rest && d.name == c.name;
        var i :| 0 <= i < |rest| && rest[i] == d;
        assert defaults[i + 1] == d;
      }
    }
  }

  lemma MergeKeepsDistinct(entries: seq<Capability>, defaults: seq<Capability>)
    requires Distinct(entries) && Distinct(defaults)
    ensures Distinct(Merge(entries, defaults))
  {
    var missing := Missing(defaults, Names(entries));
    MissingDistinct(defaults, Names(entries));
    MissingNames(defaults, Names(entries));
    forall i, j | 0 <= i < |entries| && 0 <= j < |missing| ensures entries[i].name != missing[j].name {
      assert entries[i] in entries && missing[j] in missing;
      assert missing[j].name in Names(missing);
    }
  }

  ghost predicate BundlesDistinct(events: seq<Event>) {
    forall e :: e in events && e.Load? ==> Distinct(e.defaults)
  }

  /** The file `now` is `first`, in place and unchanged, followed by what adds exactly `names`. */
  ghost predicate Grown(first: seq<Capability>, names: set<string>, now: FileState) {
    now.Holds? && first <= now.entries && Names(now.entries) == Names(first) + names
  }

  lemma MergeGrows(first: seq<Capability>, names: set<string>, now: FileState, defaults: seq<Capability>, writable: bool)
    requires Grown(first, names, now)
    ensures Grown(first, names + if writable then Names(defaults) else {}, FileAfterLoad(now, defaults, writable))
  {
    MissingNames(defaults, Names(now.entries));
    NamesAppend(now.entries, Missing(defaults, Names(now.entries)));
  }

  /** What is left of `edit` after the given loads. Its entries stay first, in place and unchanged, and
      the names are exactly theirs and those bundled with the loads that could write; a missing file stays
      missing until a load can write, and is then seeded; a file that cannot be read or parsed stays as it
      is. */
  ghost predicate Kept(edit: FileState, loads: seq<Event>, now: FileState) {
    match edit
    case Holds(entries) => Grown(entries, Bundled(loads), now)
    case Absent =>
      var seed := FirstBundle(loads);
      if seed.None? then now == Absent else Grown(seed.value, Bundled(loads), now)
    case _ => now == edit
  }

  lemma LoadKeeps(edit: FileState, loads: seq<Event>, now: FileState, defaults: seq<Capability>, writable: bool)
    requires Kept(edit, loads, now)
    ensures Kept(edit, loads + [Load(defaults, writable)], FileAfterLoad(now, defaults, writable))
  {
    assert (loads + [Load(defaults, writable)])[..|loads|] == loads;
    if edit.Holds? {
      MergeGrows(edit.entries, Bundled(loads), now, defaults, writable);
    } else if edit.Absent? && FirstBundle(loads).Some? {
      MergeGrows(FirstBundle(loads).value, Bundled(loads), now, defaults, writable);
    } else if edit.Absent? {
      NothingBundled(loads);
    }
  }

  /** Over any history, what the user last left is never overwritten. */
  lemma {:induction false} LastEditIsKept(file: FileState, events: seq<Event>)
    ensures Kept(LastEdit(file, events), SinceEdit(events), After(file, events))
    decreases |events|
  {
    if events != [] && events[|events| - 1].Load? {
      var init, last := events[..|events| - 1], events[|events| - 1];
      LastEditIsKept(file, init);
      LoadKeeps(LastEdit(file, init), SinceEdit(init), After(file, init), last.defaults, last.writable);
    }
  }

  lemma {:induction false} NothingBundled(events: seq<Event>)
    requires FirstBundle(events).None?
    ensures Bundled(events) == {}
  {
    if events != [] {
      NothingBundled(events[..|events| - 1]);
    }
  }

  /** Loads never introduce a second entry of one name. */
  lemma {:induction false} NamesStayDistinct(file: FileState, events: seq<Event>)
    requires LastEdit(file, events).Holds? ==> Distinct(LastEdit(file, events).entries)
    requires BundlesDistinct(SinceEdit(events))
    ensures After(file, events).Holds? ==> Distinct(After(file, events).entries)
    decreases |events|
  {
    if events != [] && events[|events| - 1].Load? {
      var init, last := events[..|events| - 1], events[|events| - 1];
      assert SinceEdit(events) == SinceEdit(init) + [last];
      assert last in SinceEdit(events);
      NamesStayDistinct(file, init);
      var before := After(file, init);
      if before.Holds? {
        MergeKeepsDistinct(before.entries, last.defaults);
      }
    }
  }

  /** A load changes nothing once every bundled name is present, so a second load is a no-op. */
  lemma SecondLoadIsNoOp(entries: seq<Capability>, defaults: seq<Capability>)
    ensures Merge(Merge(entries, defaults), defaults) == Merge(entries, defaults)
    ensures Merge(entries, defaults) == entries <==> Names(defaults) <= Names(entries)
  {
    var once := Merge(entries, defaults);
    MissingNames(defaults, Names(entries));
    NamesAppend(entries, Missing(defaults, Names(entries)));
    MissingNames(defaults, Names(once));
    if Missing(defaults, Names(once)) != [] {
      MissingMeansLacking(defaults, Names(once));
    }
    if Missing(defaults, Names(entries)) != [] {
      MissingMeansLacking(defaults, Names(entries));
    }
  }

  /** Deleting a bundled entry does not stick: the next load brings the bundled one back, at the end. */
  lemma DeletedDefaultsReturn(entries: seq<Capability>, d: Capability, defaults: seq<Capability>)
    requires d in defaults && d.name !in Names(entries)
    ensures d in Merge(entries, defaults)[|entries|..]
  {
    MissingHas(defaults, Names(entries), d);
  }

  lemma {:induction false} MissingHas(defaults: seq<Capability>, existing: set<string>, d: Capability)
    requires d in defaults && d.name !in existing
    ensures d in Missing(defaults, existing)
  {
    if defaults[0] != d {
      MissingHas(defaults[1..], existing, d);
    }
  }
}
