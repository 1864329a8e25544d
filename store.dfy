/**
 * The log store and the lock registry. Log files are a map from path to contents that is only
 * ever appended to (a missing file reads as empty and is created by its first append). The
 * lock registry is the bot-memory entry `chanlog_locks`, a dictionary with a default factory:
 * looking up a path returns its lock, creating and recording a new one on first use, so its
 * keys only grow and a path keeps its lock for the life of the process.
 */
module Store {
  import opened Text
  import opened Paths

  type Files = map<Path, string>

  /** The contents of the file at `p`; a file never written reads as empty. */
  function Read(files: Files, p: Path): string
  {
    if p in files then files[p] else []
  }

  /** One `open(p, "ab").write(line)`: the file at `p` grows by `line`, every other file stays. */
  function AppendTo(files: Files, p: Path, line: string): (r: Files)
    ensures r.Keys == files.Keys + {p}
    ensures Read(r, p) == Read(files, p) + line
    ensures forall q :: q != p ==> Read(r, q) == Read(files, q)
  {
    files[p := Read(files, p) + line]
  }

  /** Appending `line` to each of `paths`, in order. */
  function AppendAll(files: Files, paths: seq<Path>, line: string): Files
  {
    if paths == [] then files
    else AppendTo(AppendAll(files, paths[..|paths| - 1], line), paths[|paths| - 1], line)
  }

  /** After appending to a list of paths, the files that exist are the old ones and the listed
      ones. */
  lemma {:induction false} AppendAllKeys(files: Files, paths: seq<Path>, line: string)
    ensures AppendAll(files, paths, line).Keys == files.Keys + Elems(paths)
  {
    if paths != [] {
      var init, last := paths[..|paths| - 1], paths[|paths| - 1];
      AppendAllKeys(files, init, line);
      assert paths == init + [last];
      ElemsSnoc(init, last);
    }
  }

  /** Appending to one more path is one more append after the others. */
  lemma AppendAllSnoc(files: Files, paths: seq<Path>, p: Path, line: string)
    ensures AppendAll(files, paths + [p], line) == AppendTo(AppendAll(files, paths, line), p, line)
  {
    assert (paths + [p])[..|paths|] == paths;
  }

  /** Growing is transitive. */
  lemma GrowsTrans<V>(a: map<Path, V>, b: map<Path, V>, c: map<Path, V>)
    requires Grows(a, b) && Grows(b, c)
    ensures Grows(a, c)
  {
  }

  /** Each file grows by one copy of the line per occurrence of its path. */
  lemma {:induction false} AppendAllAt(files: Files, paths: seq<Path>, line: string, p: Path)
    ensures Read(AppendAll(files, paths, line), p) == Read(files, p) + Repeat(line, Count(paths, p))
  {
    if paths != [] {
      var init, last := paths[..|paths| - 1], paths[|paths| - 1];
      AppendAllAt(files, init, line, p);
      AppendOneMore(AppendAll(files, init, line), last, line, p, Read(files, p), Count(init, p));
    }
  }

  /** The step of `AppendAllAt`: one more append to `last`. */
  lemma AppendOneMore(before: Files, last: Path, line: string, p: Path, old0: string, k: nat)
    requires Read(before, p) == old0 + Repeat(line, k)
    ensures Read(AppendTo(before, last, line), p) == old0 + Repeat(line, k + (if last == p then 1 else 0))
  {
    if last == p {
      assert old0 + Repeat(line, k) + line == old0 + (Repeat(line, k) + line);
    }
  }

  /** With no path repeated, each listed file gets the line exactly once and no other file
      changes. */
  lemma AppendAllDistinct(files: Files, paths: seq<Path>, line: string, p: Path)
    requires Distinct(paths)
    ensures p in paths ==> Read(AppendAll(files, paths, line), p) == Read(files, p) + line
    ensures p !in paths ==> Read(AppendAll(files, paths, line), p) == Read(files, p)
  {
    AppendAllAt(files, paths, line, p);
    CountOfDistinct(paths, p);
    assert Repeat(line, 1) == line;
  }

  /** Files are only appended to: what a file held before is a prefix of what it holds after. */
  lemma AppendAllOnlyAppends(files: Files, paths: seq<Path>, line: string, p: Path)
    ensures StartsWith(Read(AppendAll(files, paths, line), p), Read(files, p))
  {
    AppendAllAt(files, paths, line, p);
    var before := Read(files, p);
    assert (before + Repeat(line, Count(paths, p)))[..|before|] == before;
  }

  /** Every entry of `before` is in `after`, unchanged. */
  predicate Grows<V(==)>(before: map<Path, V>, after: map<Path, V>)
  {
    forall p :: p in before ==> p in after && after[p] == before[p]
  }

  /** The log directory's files. */
  class LogFiles {
    var files: Files

    constructor ()
      ensures files == map[]
    {
      files := map[];
    }

    /** `with open(path, "ab") as f: f.write(line)`. */
    method Append(path: Path, line: string)
      modifies this
      ensures files == AppendTo(old(files), path, line)
    {
      files := AppendTo(files, path, line);
    }
  }

  /** A `threading.Lock`; only its identity matters here. */
  class Lock {
    constructor ()
    {
    }
  }

  /** The `chanlog_locks` dictionary of locks, keyed by log path. */
  class LockRegistry {
    var locks: map<Path, Lock>

    /** No two paths share a lock (each was created for its own path). */
    ghost predicate Valid()
      reads this
    {
      forall p, q :: p in locks && q in locks && p != q ==> locks[p] != locks[q]
    }

    constructor ()
      ensures Valid() && locks == map[]
    {
      locks := map[];
    }

    /** `chanlog_locks[path]`: the lock already recorded for `path`, or a new one recorded now. */
    method Get(path: Path) returns (l: Lock)
      requires Valid()
      modifies this
      ensures Valid()
      ensures path in old(locks) ==> l == old(locks)[path] && locks == old(locks)
      ensures path !in old(locks) ==> fresh(l) && locks == old(locks)[path := l]
      ensures locks.Keys == old(locks).Keys + {path} && Grows(old(locks), locks)
    {
      if path in locks {
        l := locks[path];
      } else {
        l := new Lock();
        locks := locks[path := l];
      }
    }
  }

  /** The bot's memory, reduced to the entry this plugin keeps there. */
  class BotMemory {
    var chanlogLocks: LockRegistry?

    constructor ()
      ensures chanlogLocks == null
    {
      chanlogLocks := null;
    }
  }
}
