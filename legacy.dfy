/**
 * The legacy version of the plugin. Its path resolution, formatting, setup and single-target
 * handlers are those of the current version; its quit and nick handlers walk a copy of
 * `bot.privileges`, a list of channel names each with a dictionary keyed by the nicks present,
 * instead of the bot's channel objects.
 */
module Legacy {
  import opened Text
  import opened Paths
  import opened Templates
  import opened Store
  import opened Routing
  import opened Handlers

  /** The privilege level a nick holds in a channel (its value plays no part in routing). */
  type Privilege = int

  /** `list(bot.privileges.items())`: channel names, each with its nick-to-privilege dictionary. */
  type PrivilegesCopy = seq<(string, map<string, Privilege>)>

  /** The channel snapshot the copy stands for: a channel's users are the keys of its
      dictionary. */
  function Rosters(privcopy: PrivilegesCopy): (r: seq<Roster>)
    ensures |r| == |privcopy|
    ensures forall i :: 0 <= i < |r| ==> r[i].name == privcopy[i].0 && r[i].users == privcopy[i].1.Keys
  {
    if privcopy == [] then []
    else Rosters(privcopy[..|privcopy| - 1]) + [Roster(privcopy[|privcopy| - 1].0, privcopy[|privcopy| - 1].1.Keys)]
  }

  /** A quit writes to a path exactly when some channel of the copy has the quitting nick among
      its dictionary's keys and resolves to that path. */
  lemma LegacyQuitTargets(resolve: Resolver, t: Trigger, privcopy: PrivilegesCopy, p: Path)
    ensures p in FanOut(resolve, Rosters(privcopy), Quitter(t.nick), |privcopy|) <==>
      exists i :: 0 <= i < |privcopy| && t.nick in privcopy[i].1 && resolve(privcopy[i].0, i) == p
  {
    FanOutTargets(resolve, Rosters(privcopy), Quitter(t.nick), |privcopy|, p);
  }

  /** A nick change writes to a path exactly when some channel of the copy has the old or the
      new nick among its dictionary's keys and resolves to that path. */
  lemma LegacyNickTargets(resolve: Resolver, t: Trigger, privcopy: PrivilegesCopy, p: Path)
    ensures p in FanOut(resolve, Rosters(privcopy), Renamed(t.nick, t.sender), |privcopy|) <==>
      exists i :: 0 <= i < |privcopy| && (t.nick in privcopy[i].1 || t.sender in privcopy[i].1) && resolve(privcopy[i].0, i) == p
  {
    FanOutTargets(resolve, Rosters(privcopy), Renamed(t.nick, t.sender), |privcopy|, p);
  }

  /** Legacy `log_quit`. */
  method LogQuit(env: Env, stamp: Stamp, dateOf: nat -> string, t: Trigger, privcopy: PrivilegesCopy,
                 registry: LockRegistry, disk: LogFiles)
    returns (err: Option<Error>)
    requires registry.Valid()
    modifies registry, disk
    ensures var plan := QuitPlan(env, stamp, dateOf, t, Rosters(privcopy));
      && err == Outcome(plan)
      && disk.files == Apply(old(disk.files), plan)
      && registry.Valid()
      && registry.locks.Keys == old(registry.locks).Keys + Touched(plan)
      && Grows(old(registry.locks), registry.locks)
  {
    err := Handlers.LogQuit(env, stamp, dateOf, t, Rosters(privcopy), registry, disk);
  }

  /** Legacy `log_nick_change`. */
  method LogNickChange(env: Env, stamp: Stamp, dateOf: nat -> string, t: Trigger, privcopy: PrivilegesCopy,
                       registry: LockRegistry, disk: LogFiles)
    returns (err: Option<Error>)
    requires registry.Valid()
    modifies registry, disk
    ensures var plan := NickPlan(env, stamp, dateOf, t, Rosters(privcopy));
      && err == Outcome(plan)
      && disk.files == Apply(old(disk.files), plan)
      && registry.Valid()
      && registry.locks.Keys == old(registry.locks).Keys + Touched(plan)
      && Grows(old(registry.locks), registry.locks)
  {
    err := Handlers.LogNickChange(env, stamp, dateOf, t, Rosters(privcopy), registry, disk);
  }
}
