/** Atomic file replacement and what a crash can make of it
    (hysteria/state_store.py, `_write_atomic`).

    A file is its visible content together with every content that may be found
    after a machine crash.  A write that fails before `os.replace` changes nothing;
    a write whose directory fsync fails is visible but not yet durable. */
module DurableFile {

  datatype Outcome =
    | NotReplaced  // an exception before os.replace
    | Unsynced     // AtomicReplaceDurabilityUncertain
    | Durable      // replaced and the directory entry is on disk

  datatype File<T> = File(visible: T, possible: set<T>)

  ghost predicate Coherent<T>(f: File<T>) {
    f.visible in f.possible
  }

  /** Every content a crash may expose satisfies p. */
  ghost predicate Everywhere<T(!new)>(f: File<T>, p: T -> bool) {
    forall c :: c in f.possible ==> p(c)
  }

  function Written<T>(f: File<T>, content: T, o: Outcome): File<T> {
    match o
    case NotReplaced => f
    case Unsynced => File(content, f.possible + {content})
    case Durable => File(content, {content})
  }

  /** The file after a machine crash that left `content` on disk. */
  function Rebooted<T>(content: T): File<T> {
    File(content, {content})
  }

  /** The writer's steps, in the order the source performs them. */
  class AtomicFile<T(==)> {
    var content: T
    ghost var afterCrash: set<T>

    ghost function View(): File<T>
      reads this
    {
      File(content, afterCrash)
    }

    ghost predicate Valid()
      reads this
    {
      Coherent(View())
    }

    constructor (initial: T)
      ensures View() == Rebooted(initial) && Valid()
    {
      content := initial;
      afterCrash := {initial};
    }

    /** `tempWritten`: the sibling temp file was written and fsynced;
        `directorySynced`: the directory fsync after the replace succeeded. */
    method WriteAtomic(text: T, tempWritten: bool, directorySynced: bool) returns (o: Outcome)
      requires Valid()
      modifies this
      ensures Valid()
      ensures View() == Written(old(View()), text, o)
      ensures o == NotReplaced <==> !tempWritten
      ensures o == Durable <==> tempWritten && directorySynced
    {
      if !tempWritten {
        return NotReplaced;
      }
      content := text;
      afterCrash := afterCrash + {text};
      if !directorySynced {
        return Unsynced;
      }
      afterCrash := {text};
      return Durable;
    }
  }
}
