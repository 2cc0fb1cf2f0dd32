/** The write-ahead log store as the program keeps it: a map updated in place and a file that is replaced. */
module FileLogStore {
  import opened Basics
  import opened RaftTypes
  import opened LogStore
  import opened AtomicFile

  /** The number of system calls a write takes when the process does not die. */
  const CALLS: nat := 8

  class LogFile {
    var logs: map<nat, Entry>
    var last: nat
    var compactedUntil: nat
    var compactedTerm: nat
    const file: File<Wal>

    ghost function State(): Store
      reads this
    {
      Store(logs, last, compactedUntil, compactedTerm)
    }

    ghost predicate Valid()
      reads this, file
    {
      file.Valid() && WellKeyed(State())
    }

    /** The file holds exactly this state, also after a crash. */
    ghost predicate Persisted()
      reads this, file
    {
      file.current.Whole? && Saves(State(), file.current.data) && file.Survivors() == {file.current}
    }

    /** Opens the file: an absent one is an empty log, any other is read entry by entry. */
    constructor (wal: File<Wal>)
      requires wal.Valid()
      ensures file == wal
      ensures State() == if wal.current.Whole? then Load(wal.current.data) else EMPTY
    {
      file := wal;
      logs, last, compactedUntil, compactedTerm := map[], 0, 0, 0;
      new;
      if wal.current.Whole? {
        var data := wal.current.data;
        compactedUntil, compactedTerm, last := data.compactedUntil, data.compactedTerm, data.compactedUntil;
        var i := 0;
        while i < |data.entries|
          invariant 0 <= i <= |data.entries|
          invariant file == wal && wal.current.Whole? && wal.current.data == data
          invariant LoadAll(State(), data.entries[i..]) == Load(data)
        {
          var entry := data.entries[i];
          logs := logs[entry.index := entry];
          if entry.index > last {
            last := entry.index;
          }
          i := i + 1;
        }
      }
    }

    method StoreLogs(entries: seq<Entry>, luck: Luck) returns (r: Result<(), Error>)
      requires Valid()
      modifies this, file
      ensures Valid() && State() == PutAll(old(State()), entries).0
      ensures !PutAll(old(State()), entries).1 ==> r == Err(CannotAppend) && file.Survivors() == old(file.Survivors())
      ensures r.Ok? ==> PutAll(old(State()), entries).1 && Persisted()
    {
      var i := 0;
      while i < |entries|
        invariant 0 <= i <= |entries|
        invariant PutAll(State(), entries[i..]) == PutAll(old(State()), entries)
        invariant WellKeyed(State())
        invariant compactedUntil == old(compactedUntil)
        invariant file.Valid() && file.Survivors() == old(file.Survivors())
        modifies `logs, `last
      {
        var entry := entries[i];
        if entry.index <= compactedUntil {
          return Err(CannotAppend);
        }
        logs := logs[entry.index := entry];
        if entry.index > last {
          last := entry.index;
        }
        i := i + 1;
      }
      r := Persist(luck, CALLS);
    }

    method GetLog(index: nat) returns (r: Result<Entry, Error>)
      ensures r == Lookup(State(), index)
    {
      if index <= compactedUntil {
        return Err(Compacted);
      }
      if index !in logs {
        return Err(NotFound);
      }
      return Ok(logs[index]);
    }

    method LastIndexAndTerm() returns (r: Result<(nat, nat), Error>)
      ensures r == LastOf(State())
    {
      if last == 0 {
        return Ok((0, 0));
      }
      if last == compactedUntil {
        return Ok((compactedUntil, compactedTerm));
      }
      if last !in logs {
        return Err(Missing);
      }
      return Ok((last, logs[last].term));
    }

    method DeleteRange(min: nat, max: nat, luck: Luck) returns (r: Result<(), Error>)
      requires Valid()
      modifies this, file
      ensures Valid() && State() == Delete(old(State()), min, max)
      ensures r.Ok? ==> Persisted() || (State() == old(State()) && file.Survivors() == old(file.Survivors()))
    {
      if min > max {
        return Ok(());
      }
      var top := if max == UNLIMITED || max > last then last else max;
      if top == 0 {
        return Ok(());
      }
      RaiseMark(min, top);
      var low := if min <= compactedUntil then compactedUntil + 1 else min;
      RemoveRange(low, top);
      DeleteWellKeyed(old(State()), min, max, last);
      r := Persist(luck, CALLS);
    }

    /** A range that starts at 0 moves the compaction mark up. */
    method RaiseMark(min: nat, top: nat)
      modifies `compactedUntil, `compactedTerm
      ensures State() == Marked(old(State()), min, top)
    {
      if min == 0 && top > compactedUntil {
        if top in logs {
          compactedTerm := logs[top].term;
        }
        compactedUntil := top;
      }
    }

    method RemoveRange(low: nat, top: nat)
      modifies `logs, `last
      ensures State() == old(State()).(logs := Without(old(logs), low, top), last := last)
      ensures IsHighest(logs.Keys, compactedUntil, last)
    {
      logs := Drop(logs, low, top);
      last := HighestOf(logs.Keys, compactedUntil);
    }

    /** Deletes the keys in low..top one by one, in no particular order. */
    static method Drop(logs: map<nat, Entry>, low: nat, top: nat) returns (rest: map<nat, Entry>)
      ensures rest == Without(logs, low, top)
    {
      rest := logs;
      var keys := logs.Keys;
      while keys != {}
        invariant keys <= logs.Keys
        invariant forall i :: i in rest <==> i in logs && (i in keys || !(low <= i <= top))
        invariant forall i :: i in rest ==> rest[i] == logs[i]
        decreases |keys|
      {
        var k :| k in keys;
        if low <= k <= top {
          rest := rest - {k};
        }
        keys := keys - {k};
      }
    }

    static method HighestOf(keys: set<nat>, floor: nat) returns (h: nat)
      ensures IsHighest(keys, floor, h)
    {
      h := floor;
      var rest := keys;
      while rest != {}
        invariant rest <= keys && floor <= h && (h == floor || h in keys)
        invariant forall k :: k in keys && k !in rest ==> k <= h
        decreases |rest|
      {
        var k :| k in rest;
        if k > h {
          h := k;
        }
        rest := rest - {k};
      }
    }

    /**
     * Writes the map, sorted by index, with the compaction mark. The process may die after any
     * number of steps: a restart then loads a state that was saved before, or this one.
     */
    method Persist(luck: Luck, steps: nat) returns (r: Result<(), Error>)
      requires Valid()
      modifies file
      ensures Valid() && (r.Ok? ==> Persisted())
      ensures forall image :: image in file.Survivors() ==>
                image in old(file.Survivors()) || (image.Whole? && Load(image.data) == State())
    {
      var entries := Sorted(logs);
      var wal := Wal(compactedUntil, compactedTerm, entries);
      var outcome := file.WriteAtomically(wal, luck, steps);
      ReloadRestores(State(), wal);
      r := if outcome == Done then Ok(()) else Err(WriteFailed);
    }

    /** The entries of the map in the order of their indexes. */
    static method Sorted(logs: map<nat, Entry>) returns (entries: seq<Entry>)
      requires forall k :: k in logs ==> logs[k].index == k
      ensures SortedByIndex(entries)
      ensures forall k :: k in logs ==> logs[k] in entries
      ensures forall e :: e in entries ==> e.index in logs && logs[e.index] == e
    {
      entries := [];
      var keys := logs.Keys;
      while keys != {}
        invariant keys <= logs.Keys && SortedByIndex(entries)
        invariant forall k :: k in logs && k !in keys ==> logs[k] in entries
        invariant forall e :: e in entries ==> e.index in logs && e.index !in keys && logs[e.index] == e
        decreases |keys|
      {
        var k :| k in keys;
        entries := Insert(entries, logs[k]);
        keys := keys - {k};
      }
    }

    static method Insert(entries: seq<Entry>, e: Entry) returns (longer: seq<Entry>)
      requires SortedByIndex(entries) && (forall x :: x in entries ==> x.index != e.index)
      ensures SortedByIndex(longer)
      ensures forall x :: x in longer <==> x in entries || x == e
    {
      var i := 0;
      while i < |entries| && entries[i].index < e.index
        invariant 0 <= i <= |entries|
        invariant forall j :: 0 <= j < i ==> entries[j].index < e.index
      {
        i := i + 1;
      }
      longer := entries[..i] + [e] + entries[i..];
      InsertedSorted(entries, i, e);
      InsertedHas(entries, i, e);
    }
  }

  lemma InsertedSorted(entries: seq<Entry>, i: nat, e: Entry)
    requires SortedByIndex(entries) && i <= |entries| && (forall j :: 0 <= j < i ==> entries[j].index < e.index)
    requires i < |entries| ==> e.index < entries[i].index
    ensures SortedByIndex(entries[..i] + [e] + entries[i..])
  {
    var longer := entries[..i] + [e] + entries[i..];
    forall a, b | 0 <= a < b < |longer| ensures longer[a].index < longer[b].index {
      assert longer[a] == if a < i then entries[a] else if a == i then e else entries[a - 1];
      assert longer[b] == if b < i then entries[b] else if b == i then e else entries[b - 1];
    }
  }

  lemma InsertedHas(entries: seq<Entry>, i: nat, e: Entry)
    requires i <= |entries|
    ensures forall x :: x in entries[..i] + [e] + entries[i..] <==> x in entries || x == e
  {
    assert entries == entries[..i] + entries[i..];
  }

  /**
   * Crash of the process or of the machine, and restart: once a call has returned without an
   * error, the store that a restarted process loads is the store the old process had.
   */
  method Reopen(old_: LogFile, machine: bool, renameLost: bool) returns (again: LogFile)
    requires old_.Valid() && old_.Persisted()
    modifies old_.file
    ensures again.State() == old_.State() && old_.State() == old(old_.State())
  {
    old_.file.CrashAndReopen(machine, renameLost);
    again := new LogFile(old_.file);
    ReloadRestores(old_.State(), old_.file.current.data);
  }
}
