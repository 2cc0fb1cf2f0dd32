/**
 * Replacing a file by writing a temporary file, syncing it, renaming it over the old one and
 * syncing the directory.
 *
 * A rename is visible at once, but until the directory is synced a crash may undo it; data that
 * was never synced may be torn after a crash.
 */
module AtomicFile {

  /** What stands under a name. */
  datatype Image<T> = Absent | Whole(data: T) | Torn

  /** Which of the system calls succeed. */
  datatype Luck = Luck(mkdir: bool, open: bool, write: bool, sync: bool, close: bool, rename: bool, openDir: bool,
                       syncDir: bool)

  /** Every call up to and including the rename succeeds. */
  predicate Renames(luck: Luck) {
    luck.mkdir && luck.open && luck.write && luck.sync && luck.close && luck.rename
  }

  datatype Outcome = Done | Failed | Crashed

  class File<T(==)> {
    /** The file as readers see it, and as the last directory sync left it. */
    var current: Image<T>
    var settled: Image<T>
    var currentSynced: bool
    /** The temporary file beside it. */
    var temp: Image<T>
    var tempSynced: bool

    constructor ()
      ensures Valid() && current == Absent && Survivors() == {Absent}
    {
      current, settled, temp := Absent, Absent, Absent;
      currentSynced, tempSynced := true, true;
    }

    /** Nothing under the name can be torn. */
    ghost predicate Valid()
      reads this
    {
      currentSynced && current != Torn && settled != Torn
    }

    /** What can stand under the name after a crash at this moment. */
    ghost function Survivors(): set<Image<T>>
      reads this
    {
      {settled, if currentSynced then current else Torn}
    }

    /**
     * Runs at most `steps` of the calls before the process crashes. However it ends, the old
     * contents or the new ones survive; after success only the new ones do; after a failure
     * before the rename only the old ones do.
     */
    method WriteAtomically(data: T, luck: Luck, steps: nat) returns (outcome: Outcome)
      requires Valid()
      modifies this
      ensures Valid()
      ensures Survivors() <= old(Survivors()) + {Whole(data)}
      ensures outcome == Done ==> Survivors() == {Whole(data)} && current == Whole(data)
      ensures outcome == Failed && !Renames(luck) ==> Survivors() == old(Survivors()) && current == old(current)
      ensures outcome == Failed && Renames(luck) ==>
                Survivors() == {old(settled), Whole(data)} && current == Whole(data)
      ensures outcome == Done <==> steps >= 8 && Renames(luck) && luck.openDir && luck.syncDir
      ensures outcome == Crashed ==> steps < 8
    {
      if steps < 1 { return Crashed; }
      if !luck.mkdir { return Failed; }
      if steps < 2 { return Crashed; }
      if !luck.open { return Failed; }
      temp, tempSynced := Torn, false;
      if steps < 3 { return Crashed; }
      if luck.write { temp := Whole(data); }
      if steps < 4 { return Crashed; }
      if luck.write && luck.sync { tempSynced := true; }
      if steps < 5 { return Crashed; }
      if !luck.write || !luck.sync || !luck.close {
        temp := Absent;
        return Failed;
      }
      if steps < 6 { return Crashed; }
      if !luck.rename {
        temp := Absent;
        return Failed;
      }
      current, currentSynced, temp := temp, tempSynced, Absent;
      if steps < 7 { return Crashed; }
      if !luck.openDir { return Failed; }
      if steps < 8 { return Crashed; }
      if !luck.syncDir { return Failed; }
      settled := current;
      return Done;
    }

    /**
     * A restart finds one of the survivors. After a crash of the machine what it finds is settled;
     * after a crash of the process alone nothing is lost and nothing more is settled.
     */
    method CrashAndReopen(machine: bool, renameLost: bool)
      requires Valid()
      modifies this
      ensures Valid() && current in old(Survivors()) && Survivors() <= old(Survivors())
      ensures if machine then Survivors() == {current} else current == old(current) && Survivors() == old(Survivors())
    {
      if machine {
        current := if renameLost then settled else current;
        settled := current;
      }
    }
  }
}
