/**
 * The plugin's event handlers, run against the log files and the lock registry. Each handler
 * formats its line once, then for each target path looks the path's lock up in the registry
 * (creating it on first use) and appends the line to the file. The effect of each handler is
 * the plan that module `Routing` computes for the same inputs.
 */
module Handlers {
  import opened Text
  import opened Paths
  import opened Templates
  import opened Store
  import opened Routing

  /** What a handler call ends with: normally, or with the exception it raises. */
  function Outcome(plan: Plan): Option<Error>
  {
    if plan.Raise? then Some(plan.error) else None
  }

  /** `setup`: the lock registry is put into the bot's memory unless one is there already. */
  method Setup(memory: BotMemory)
    modifies memory
    ensures old(memory.chanlogLocks) != null ==> memory.chanlogLocks == old(memory.chanlogLocks)
    ensures old(memory.chanlogLocks) == null ==>
      && memory.chanlogLocks != null && fresh(memory.chanlogLocks)
      && memory.chanlogLocks.locks == map[] && memory.chanlogLocks.Valid()
  {
    if memory.chanlogLocks == null {
      memory.chanlogLocks := new LockRegistry();
    }
  }

  /** `with chanlog_locks[path]: open(path, "ab").write(line)`. */
  method WriteLine(registry: LockRegistry, disk: LogFiles, path: Path, line: string)
    requires registry.Valid()
    modifies registry, disk
    ensures registry.Valid()
    ensures registry.locks.Keys == old(registry.locks).Keys + {path} && Grows(old(registry.locks), registry.locks)
    ensures disk.files == AppendTo(old(disk.files), path, line)
  {
    var lock := registry.Get(path);
    disk.Append(path, line);
  }

  /** Formatting the line, then writing it to the one file `path`. */
  method WriteOne(env: Env, tpl: string, f: Fields, path: Path, registry: LockRegistry, disk: LogFiles)
    returns (err: Option<Error>)
    requires registry.Valid()
    modifies registry, disk
    ensures var plan := WriteOrRaise(env, tpl, f, [path]);
      && err == Outcome(plan)
      && disk.files == Apply(old(disk.files), plan)
      && registry.Valid()
      && registry.locks.Keys == old(registry.locks).Keys + Touched(plan)
      && Grows(old(registry.locks), registry.locks)
  {
    var formatted := FormatLine(env.custom, tpl, f);
    if formatted.None? {
      return Some(FormatError);
    }
    WriteLine(registry, disk, path, formatted.value);
    AppendAllSnoc(old(disk.files), [], path, formatted.value);
    assert [] + [path] == [path];
    assert Elems([path]) == {path};
    err := None;
  }

  /** `log_message` (with the action branch as intended, see `Routing.MessagePlan`). */
  method LogMessage(env: Env, stamp: Stamp, date: string, t: Trigger, registry: LockRegistry, disk: LogFiles)
    returns (err: Option<Error>)
    requires registry.Valid()
    modifies registry, disk
    ensures var plan := MessagePlan(env, stamp, date, t);
      && err == Outcome(plan)
      && disk.files == Apply(old(disk.files), plan)
      && registry.Valid()
      && registry.locks.Keys == old(registry.locks).Keys + Touched(plan)
      && Grows(old(registry.locks), registry.locks)
  {
    if SkipsPrivate(env.cfg, t) {
      return None;
    }
    var sel := SelectTemplate(env.cfg, t.text);
    var path := LogPath(env.cfg.paths, env.fold, [], t.sender, date);
    err := WriteOne(env, sel.template, Fields(stamp, t, Some(sel.payload)), path, registry, disk);
  }

  /** The shape shared by `log_join`, `log_part` and `log_topic`. */
  method LogChannelEvent(env: Env, k: Kind, stamp: Stamp, date: string, t: Trigger, registry: LockRegistry, disk: LogFiles)
    returns (err: Option<Error>)
    requires registry.Valid()
    modifies registry, disk
    ensures var plan := ChannelPlan(env, k, stamp, date, t);
      && err == Outcome(plan)
      && disk.files == Apply(old(disk.files), plan)
      && registry.Valid()
      && registry.locks.Keys == old(registry.locks).Keys + Touched(plan)
      && Grows(old(registry.locks), registry.locks)
  {
    var tpl := TemplateFor(env.cfg.overrides, k);
    var path := LogPath(env.cfg.paths, env.fold, t.sender, t.sender, date);
    err := WriteOne(env, tpl, Fields(stamp, t, None), path, registry, disk);
  }

  method LogJoin(env: Env, stamp: Stamp, date: string, t: Trigger, registry: LockRegistry, disk: LogFiles)
    returns (err: Option<Error>)
    requires registry.Valid()
    modifies registry, disk
    ensures var plan := ChannelPlan(env, JoinEvent, stamp, date, t);
      && err == Outcome(plan)
      && disk.files == Apply(old(disk.files), plan)
      && registry.Valid()
      && registry.locks.Keys == old(registry.locks).Keys + Touched(plan)
      && Grows(old(registry.locks), registry.locks)
  {
    err := LogChannelEvent(env, JoinEvent, stamp, date, t, registry, disk);
  }

  method LogPart(env: Env, stamp: Stamp, date: string, t: Trigger, registry: LockRegistry, disk: LogFiles)
    returns (err: Option<Error>)
    requires registry.Valid()
    modifies registry, disk
    ensures var plan := ChannelPlan(env, PartEvent, stamp, date, t);
      && err == Outcome(plan)
      && disk.files == Apply(old(disk.files), plan)
      && registry.Valid()
      && registry.locks.Keys == old(registry.locks).Keys + Touched(plan)
      && Grows(old(registry.locks), registry.locks)
  {
    err := LogChannelEvent(env, PartEvent, stamp, date, t, registry, disk);
  }

  method LogTopic(env: Env, stamp: Stamp, date: string, t: Trigger, registry: LockRegistry, disk: LogFiles)
    returns (err: Option<Error>)
    requires registry.Valid()
    modifies registry, disk
    ensures var plan := ChannelPlan(env, TopicEvent, stamp, date, t);
      && err == Outcome(plan)
      && disk.files == Apply(old(disk.files), plan)
      && registry.Valid()
      && registry.locks.Keys == old(registry.locks).Keys + Touched(plan)
      && Grows(old(registry.locks), registry.locks)
  {
    err := LogChannelEvent(env, TopicEvent, stamp, date, t, registry, disk);
  }

  /** The body shared by `log_quit` and `log_nick_change`: the line is formatted once, then
      written to the file of every snapshot entry the event hits, in snapshot order. */
  method LogFanOut(env: Env, k: Kind, stamp: Stamp, dateOf: nat -> string, t: Trigger, snapshot: seq<Roster>, a: Affected,
                   registry: LockRegistry, disk: LogFiles)
    returns (err: Option<Error>)
    requires registry.Valid()
    modifies registry, disk
    ensures var plan := FanOutPlan(env, k, stamp, dateOf, t, snapshot, a);
      && err == Outcome(plan)
      && disk.files == Apply(old(disk.files), plan)
      && registry.Valid()
      && registry.locks.Keys == old(registry.locks).Keys + Touched(plan)
      && Grows(old(registry.locks), registry.locks)
  {
    var formatted := FormatLine(env.custom, TemplateFor(env.cfg.overrides, k), Fields(stamp, t, None));
    if formatted.None? {
      return Some(FormatError);
    }
    WriteFanOut(EntryResolver(env, dateOf, t.sender), snapshot, a, formatted.value, registry, disk);
    err := None;
  }

  /** The state after the loop has handled the first `i` snapshot entries: each file hit so far
      has the line once more per hit, and the locks of exactly those files have been looked up. */
  ghost predicate WroteFanOut(resolve: Resolver, snapshot: seq<Roster>, a: Affected, i: nat, line: string,
                              files0: Files, locks0: map<Path, Lock>, registry: LockRegistry, disk: LogFiles)
    reads registry, disk
  {
    && i <= |snapshot|
    && registry.Valid()
    && disk.files == AppendAll(files0, FanOut(resolve, snapshot, a, i), line)
    && registry.locks.Keys == locks0.Keys + Elems(FanOut(resolve, snapshot, a, i))
    && Grows(locks0, registry.locks)
  }

  /** The `for channel in channels_copy` loop: `line` to the file of every entry hit, found by
      `resolve`. */
  method WriteFanOut(resolve: Resolver, snapshot: seq<Roster>, a: Affected, line: string,
                     registry: LockRegistry, disk: LogFiles)
    requires registry.Valid()
    modifies registry, disk
    ensures disk.files == AppendAll(old(disk.files), FanOut(resolve, snapshot, a, |snapshot|), line)
    ensures registry.Valid()
    ensures registry.locks.Keys == old(registry.locks).Keys + Elems(FanOut(resolve, snapshot, a, |snapshot|))
    ensures Grows(old(registry.locks), registry.locks)
  {
    ghost var files0, locks0 := disk.files, registry.locks;
    var i := 0;
    while i < |snapshot|
      invariant i <= |snapshot|
      invariant WroteFanOut(resolve, snapshot, a, i, line, files0, locks0, registry, disk)
    {
      WriteEntry(resolve, snapshot, a, i, line, files0, locks0, registry, disk);
      i := i + 1;
    }
  }

  /** One turn of the loop: the entry's file gets the line when the event hits the entry. */
  method WriteEntry(resolve: Resolver, snapshot: seq<Roster>, a: Affected, i: nat, line: string,
                    ghost files0: Files, ghost locks0: map<Path, Lock>, registry: LockRegistry, disk: LogFiles)
    requires i < |snapshot|
    requires WroteFanOut(resolve, snapshot, a, i, line, files0, locks0, registry, disk)
    modifies registry, disk
    ensures WroteFanOut(resolve, snapshot, a, i + 1, line, files0, locks0, registry, disk)
  {
    ghost var done := FanOut(resolve, snapshot, a, i);
    FanOutStep(resolve, snapshot, a, i);
    if Hit(snapshot[i], a) {
      var path := EntryPath(resolve, snapshot, i);
      ghost var locksBefore := registry.locks;
      WriteLine(registry, disk, path, line);
      AppendAllSnoc(files0, done, path, line);
      ElemsSnoc(done, path);
      GrowsTrans(locks0, locksBefore, registry.locks);
    }
  }

  /** `log_quit`: every channel of the snapshot that the quitting nick is in. */
  method LogQuit(env: Env, stamp: Stamp, dateOf: nat -> string, t: Trigger, snapshot: seq<Roster>,
                 registry: LockRegistry, disk: LogFiles)
    returns (err: Option<Error>)
    requires registry.Valid()
    modifies registry, disk
    ensures var plan := QuitPlan(env, stamp, dateOf, t, snapshot);
      && err == Outcome(plan)
      && disk.files == Apply(old(disk.files), plan)
      && registry.Valid()
      && registry.locks.Keys == old(registry.locks).Keys + Touched(plan)
      && Grows(old(registry.locks), registry.locks)
  {
    err := LogFanOut(env, QuitEvent, stamp, dateOf, t, snapshot, Quitter(t.nick), registry, disk);
  }

  /** `log_nick_change`: every channel of the snapshot that the old or the new nick is in. */
  method LogNickChange(env: Env, stamp: Stamp, dateOf: nat -> string, t: Trigger, snapshot: seq<Roster>,
                       registry: LockRegistry, disk: LogFiles)
    returns (err: Option<Error>)
    requires registry.Valid()
    modifies registry, disk
    ensures var plan := NickPlan(env, stamp, dateOf, t, snapshot);
      && err == Outcome(plan)
      && disk.files == Apply(old(disk.files), plan)
      && registry.Valid()
      && registry.locks.Keys == old(registry.locks).Keys + Touched(plan)
      && Grows(old(registry.locks), registry.locks)
  {
    err := LogFanOut(env, NickEvent, stamp, dateOf, t, snapshot, Renamed(t.nick, t.sender), registry, disk);
  }
}
