/**
 The cache of signing keys: one document of approved keys, trusted for five minutes, replaced as a whole by
 any caller that does not find its key. Callers interleave at every critical section.
 */
module KeyCache {
  import opened Wrappers

  type Time = int
  type KeyId = string
  datatype Key = Key(modulus: nat, exponent: nat)
  type CallerId = nat

  const FRESHNESS: Time := 5 * 60 * 1_000_000_000

  type Document = map<KeyId, Key>

  /** The two fields of the authenticator; `loadedAt` is absent before the first load. */
  datatype Cell = Cell(keys: Document, loadedAt: Option<Time>)

  /** The check under the read lock. */
  function Fresh(cell: Cell, kid: KeyId, now: Time): Option<Key> {
    if kid in cell.keys && cell.loadedAt.Some? && now - cell.loadedAt.value < FRESHNESS then Some(cell.keys[kid])
    else None
  }

  /** A document that replaced the cached one. */
  datatype Load = Load(document: Document, at: Time)

  /** `loadsSeen` is the number of loads at the moment the key was read; `failed` says that the own load failed. */
  datatype Phase =
    | Loading(kid: KeyId, begun: Time)
    | Loaded(kid: KeyId, begun: Time)
    | Returned(kid: KeyId, begun: Time, key: Option<Key>, at: Time, loadsSeen: nat, failed: bool)

  datatype State = State(now: Time, cell: Cell, callers: map<CallerId, Phase>, loads: seq<Load>)

  datatype Event = Ask(asker: CallerId, kid: KeyId) | Fetch(fetcher: CallerId, document: Option<Document>)
    | Read(reader: CallerId) | Tick(to: Time)

  function Next(s: State, e: Event): State {
    match e
    case Ask(c, kid) =>
      if c in s.callers then s else
      var hit := Fresh(s.cell, kid, s.now);
      s.(callers := s.callers[c := if hit.Some? then Returned(kid, s.now, hit, s.now, |s.loads|, false)
                                   else Loading(kid, s.now)])
    case Fetch(c, document) =>
      if c !in s.callers || !s.callers[c].Loading? then s else
      var p := s.callers[c];
      // Without a document, or with no approved key in it, the call fails and the cache stays.
      if document.None? || document.value == map[] then
        s.(callers := s.callers[c := Returned(p.kid, p.begun, None, s.now, |s.loads|, true)])
      else
        s.(cell := Cell(document.value, Some(s.now)), loads := s.loads + [Load(document.value, s.now)],
           callers := s.callers[c := Loaded(p.kid, p.begun)])
    case Read(c) =>
      if c !in s.callers || !s.callers[c].Loaded? then s else
      var p := s.callers[c];
      var key := if p.kid in s.cell.keys then Some(s.cell.keys[p.kid]) else None;
      s.(callers := s.callers[c := Returned(p.kid, p.begun, key, s.now, |s.loads|, false)])
    case Tick(to) => if s.now <= to then s.(now := to) else s
  }

  function Start(now: Time): State {
    State(now, Cell(map[], None), map[], [])
  }

  function Run(now: Time, run: seq<Event>): State {
    if run == [] then Start(now) else Next(Run(now, run[..|run| - 1]), run[|run| - 1])
  }

  /** The key is in the newest document of its moment, and that is under five minutes old or came during the call. */
  ghost predicate Trusted(loads: seq<Load>, p: Phase)
    requires p.Returned? && p.key.Some?
  {
    && 0 < p.loadsSeen <= |loads|
    && var newest := loads[p.loadsSeen - 1];
       && p.kid in newest.document && newest.document[p.kid] == p.key.value
       && newest.at <= p.at
       && (p.at - newest.at < 5 * 60 * 1_000_000_000 || p.begun <= newest.at)
  }

  /** The newest document of that moment, loaded during the call, has no such key. */
  ghost predicate Unknown(loads: seq<Load>, p: Phase)
    requires p.Returned?
  {
    && 0 < p.loadsSeen <= |loads|
    && var newest := loads[p.loadsSeen - 1]; p.kid !in newest.document && p.begun <= newest.at <= p.at
  }

  ghost predicate PhaseInv(s: State, p: Phase) {
    match p
    case Loading(_, begun) => begun <= s.now
    case Loaded(_, begun) => s.loads != [] && begun <= s.loads[|s.loads| - 1].at
    case Returned(_, _, key, at, _, failed) =>
      && at <= s.now
      && if key.Some? then Trusted(s.loads, p) else failed || Unknown(s.loads, p)
  }

  ghost predicate Inv(s: State) {
    && (if s.loads == [] then s.cell == Cell(map[], None)
        else s.cell == Cell(s.loads[|s.loads| - 1].document, Some(s.loads[|s.loads| - 1].at)))
    && (s.loads != [] ==> s.loads[|s.loads| - 1].at <= s.now)
    && forall c <- s.callers.Keys :: PhaseInv(s, s.callers[c])
  }

  lemma StepKeeps(s: State, e: Event)
    requires Inv(s)
    ensures Inv(Next(s, e))
  {
    var next := Next(s, e);
    forall c | c in next.callers.Keys
      ensures PhaseInv(next, next.callers[c])
    {
      if c in s.callers {
        assert PhaseInv(s, s.callers[c]);
      }
    }
  }

  lemma {:induction false} RunIsSafe(now: Time, run: seq<Event>)
    ensures Inv(Run(now, run))
  {
    hide Next;
    if run != [] {
      RunIsSafe(now, run[..|run| - 1]);
      hide Inv;
      StepKeeps(Run(now, run[..|run| - 1]), run[|run| - 1]);
    }
  }

  /**
   In every interleaving, a key that a call returned stood in the newest document of that moment; and that
   document was under five minutes old, or had been loaded while the call was under way.
   */
  lemma ReturnedKeysAreTrusted(now: Time, run: seq<Event>, c: CallerId)
    requires c in Run(now, run).callers && Run(now, run).callers[c].Returned? && Run(now, run).callers[c].key.Some?
    ensures Trusted(Run(now, run).loads, Run(now, run).callers[c])
  {
    RunIsSafe(now, run);
    assert PhaseInv(Run(now, run), Run(now, run).callers[c]);
  }

  /** And a call returns no key only if its own load failed, or a document loaded during it has no such key. */
  lemma MissingKeysAreUnknown(now: Time, run: seq<Event>, c: CallerId)
    requires c in Run(now, run).callers && Run(now, run).callers[c].Returned? && Run(now, run).callers[c].key.None?
    ensures Run(now, run).callers[c].failed || Unknown(Run(now, run).loads, Run(now, run).callers[c])
  {
    RunIsSafe(now, run);
    assert PhaseInv(Run(now, run), Run(now, run).callers[c]);
  }

  /**
   A new caller gets its key at once exactly if the newest document has it and was loaded less than five
   minutes ago; otherwise it goes on to load.
   */
  lemma AnsweredWhileFresh(now: Time, run: seq<Event>, c: CallerId, kid: KeyId)
    requires c !in Run(now, run).callers
    ensures var s, next := Run(now, run), Run(now, run + [Ask(c, kid)]);
            && c in next.callers
            && if && s.loads != [] && s.now < s.loads[|s.loads| - 1].at + 5 * 60 * 1_000_000_000
                  && kid in s.loads[|s.loads| - 1].document
               then
                 && next.callers[c].Returned? && !next.callers[c].failed
                 && next.callers[c].key == Some(s.loads[|s.loads| - 1].document[kid])
               else
                 next.callers[c] == Loading(kid, s.now)
  {
    RunIsSafe(now, run);
    assert (run + [Ask(c, kid)])[..|run|] == run;
  }

  /** A load: without a document, or with an empty one, the call fails; any other document replaces the cached one. */
  lemma LoadReplacesOrFails(now: Time, run: seq<Event>, c: CallerId, document: Option<Document>)
    requires c in Run(now, run).callers && Run(now, run).callers[c].Loading?
    ensures var s, next := Run(now, run), Run(now, run + [Fetch(c, document)]);
            var p := s.callers[c];
            if document == None || document == Some(map[]) then
              && next.callers == s.callers[c := Returned(p.kid, p.begun, None, s.now, |s.loads|, true)]
              && next.loads == s.loads && next.cell == s.cell
            else
              && next.callers == s.callers[c := Loaded(p.kid, p.begun)]
              && next.loads == s.loads + [Load(document.value, s.now)]
              && next.cell == Cell(document.value, Some(s.now))
  {
    assert (run + [Fetch(c, document)])[..|run|] == run;
  }

  /** After its load a caller gets its key exactly if the newest document has it. */
  lemma ReadAnswers(now: Time, run: seq<Event>, c: CallerId)
    requires c in Run(now, run).callers && Run(now, run).callers[c].Loaded?
    ensures var s, next := Run(now, run), Run(now, run + [Read(c)]);
            && s.loads != [] && c in next.callers && next.callers[c].Returned? && !next.callers[c].failed
            && var newest, kid := s.loads[|s.loads| - 1].document, s.callers[c].kid;
               next.callers[c].key == if kid in newest then Some(newest[kid]) else None
  {
    RunIsSafe(now, run);
    assert PhaseInv(Run(now, run), Run(now, run).callers[c]);
    assert (run + [Read(c)])[..|run|] == run;
  }

  /** A new caller that is not answered at once loads a document, and gets what this document says of its key. */
  lemma LoadAnswers(now: Time, run: seq<Event>, c: CallerId, kid: KeyId, document: Document)
    requires c !in Run(now, run).callers && document != map[]
    ensures var s, next := Run(now, run), Run(now, run + [Ask(c, kid)] + [Fetch(c, Some(document))] + [Read(c)]);
            && c in next.callers && next.callers[c].Returned? && !next.callers[c].failed
            && next.callers[c].key
               == if && s.loads != [] && s.now < s.loads[|s.loads| - 1].at + 5 * 60 * 1_000_000_000
                     && kid in s.loads[|s.loads| - 1].document
                  then Some(s.loads[|s.loads| - 1].document[kid])
                  else if kid in document then Some(document[kid]) else None
  {
    hide Next;
    var asked := run + [Ask(c, kid)];
    var fetched := asked + [Fetch(c, Some(document))];
    RunMore(now, run, Ask(c, kid));
    RunMore(now, asked, Fetch(c, Some(document)));
    RunMore(now, fetched, Read(c));
    AnsweredWhileFresh(now, run, c, kid);
    if Run(now, asked).callers[c].Loading? {
      LoadReplacesOrFails(now, asked, c, Some(document));
      ReadAnswers(now, fetched, c);
    } else {
      Settled(Run(now, asked), c, document);
    }
  }

  lemma RunMore(now: Time, run: seq<Event>, e: Event)
    ensures Run(now, run + [e]) == Next(Run(now, run), e)
  {
    hide Next;
    assert (run + [e])[..|run|] == run;
  }

  /** A caller that has its answer keeps it. */
  lemma Settled(s: State, c: CallerId, document: Document)
    requires c in s.callers && s.callers[c].Returned?
    ensures Next(Next(s, Fetch(c, Some(document))), Read(c)) == s
  {
  }

  /** A call fails for no other reason than that its own load yielded no document or an empty one. */
  lemma {:induction false} FailuresAreFailedLoads(now: Time, run: seq<Event>, c: CallerId) returns (i: nat)
    requires c in Run(now, run).callers && Run(now, run).callers[c].Returned? && Run(now, run).callers[c].failed
    ensures i < |run| && run[i].Fetch? && run[i].fetcher == c
    ensures run[i].document == None || run[i].document == Some(map[])
  {
    assert run != [];
    var n := |run| - 1;
    var before := Run(now, run[..n]);
    if c in before.callers && before.callers[c] == Run(now, run).callers[c] {
      i := FailuresAreFailedLoads(now, run[..n], c);
    } else {
      i := n;
    }
  }

  // ----- The critical sections in place -----

  /** The authenticator: its two fields behind the lock, and around them the callers. */
  class KeyHolder {
    var keys: Document
    var loadedAt: Option<Time>
    ghost var world: State

    ghost predicate Valid()
      reads this
    {
      world.cell == Cell(keys, loadedAt)
    }

    constructor (ghost now: Time)
      ensures Valid() && world == Start(now)
    {
      keys, loadedAt := map[], None;
      world := Start(now);
    }

    /** The check of an arriving caller: a key that is not fresh does not count. */
    method FirstCheck(ghost caller: CallerId, kid: KeyId, now: Time) returns (key: Option<Key>)
      requires Valid() && now == world.now && caller !in world.callers
      modifies this
      ensures Valid() && world == Next(old(world), Ask(caller, kid))
      ensures caller in world.callers
      ensures if key.Some? then world.callers[caller].Returned? && world.callers[caller].key == key
              else world.callers[caller] == Loading(kid, now)
    {
      key := None;
      if kid in keys && loadedAt.Some? && now - loadedAt.value < FRESHNESS {
        key := Some(keys[kid]);
      }
      world := Next(world, Ask(caller, kid));
    }

    /** A loaded document replaces the cached one as a whole. */
    method Replace(ghost caller: CallerId, loaded: Document, now: Time)
      requires Valid() && now == world.now && caller in world.callers && world.callers[caller].Loading?
      requires loaded != map[]
      modifies this
      ensures Valid() && world == Next(old(world), Fetch(caller, Some(loaded)))
      ensures forall kid: KeyId :: Fresh(world.cell, kid, now).Some? <==> kid in loaded
    {
      keys, loadedAt := loaded, Some(now);
      world := Next(world, Fetch(caller, Some(loaded)));
    }

    /** The second look after the load: whatever document is there now decides. */
    method SecondCheck(ghost caller: CallerId, kid: KeyId) returns (key: Option<Key>)
      requires Valid() && caller in world.callers && world.callers[caller].Loaded? && world.callers[caller].kid == kid
      modifies this
      ensures Valid() && world == Next(old(world), Read(caller))
      ensures caller in world.callers && world.callers[caller].Returned? && world.callers[caller].key == key
    {
      key := if kid in keys then Some(keys[kid]) else None;
      world := Next(world, Read(caller));
    }
  }
}
