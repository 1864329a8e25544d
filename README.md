# sopel-chanlogs, modelled in Dafny

A model of the core of sopel-chanlogs, the Sopel IRC bot plugin that appends every channel
event to a per-channel (optionally per-day) log file. Two versions of the plugin exist: the
current one (`sopel_chanlogs/plugin.py`) and a legacy one (`sopel_modules/chanlogs/__init__.py`).
They share path resolution, formatting, setup and the message, join, part and topic handlers
line for line. They differ in where the folding of identifiers comes from (a parameter here in
both cases) and in what the quit and nick handlers walk: the bot's channel objects, or a copy of
`bot.privileges`.

The model has four parts.

- **Log paths** (module `Paths`, file `paths.dfy`): `get_fpath`.
  - Every leading `#` is stripped (`lstrip`).
  - Each of `/ ? % * : | " < > .` and space becomes `__` (the backslash in the pattern only escapes the `/`).
  - The server's identifier folding is applied, given as a parameter `fold`. The case folding
    of section 2.2 of RFC 1459 is defined as one instance (`Rfc1459Lower`).
  - The file name is `<name>-<date>.log` or `<name>.log`, joined POSIX-style under the log
    directory.
  - `get_fpath` itself is `Paths.LogPath`; its steps are `ChannelOrSender`, `StripHashes`,
    `Sanitize`, `BaseName`, `FileName` and `JoinPath`.
- **Templates and formatting** (module `Templates`): the seven default templates and
  `_format_template`.
  - A default template renders as the concatenation it stands for and fails exactly where it
    names a field the event lacks.
  - An override template is rendered by the parameter `custom`, which stands for
    `str.format`.
  - Every line gets one trailing `"\n"`.
  - `_format_template` is `Templates.FormatLine` over `Templates.Render`; the `tpl = ... or
    DEFAULT` choice of each handler is `Templates.TemplateFor`.
- **Routing** (module `Routing`): what each handler does, as a `Plan`.
  - The possible plans are: skip, raise before writing, or append one line to a list of paths.
  - Routing covers the private-message skip, CTCP ACTION detection and unwrapping, and the
    choice between override and default template.
  - Join, part and topic go to the event's channel. Quit and nick changes fan out over a
    snapshot of the channels.
  - `log_message` is `Routing.MessagePlan` (with `IsAction`, `ActionPayload` and
    `SelectTemplate`); `log_join`, `log_part` and `log_topic` are `Routing.ChannelPlan`;
    `log_quit` and `log_nick_change` are `Routing.QuitPlan` and `Routing.NickPlan`, both
    `Routing.FanOutPlan` over the paths listed by `Routing.FanOut`.
- **Store and handlers** (modules `Store`, `Handlers`, `Legacy`): the state the plugin changes.
  - The log directory is a class holding a map from path to contents. It is only ever appended
    to, and a missing file reads as empty.
  - The `chanlog_locks` registry is a class holding a map from path to lock. It is filled
    get-or-create, so its keys only grow and a path keeps its lock.
  - `setup` installs the registry in the bot's memory only when it is absent.
  - The handlers are methods that carry out their plan path by path (`Handlers.LogMessage`,
    `LogJoin`, `LogPart`, `LogTopic`, `LogQuit`, `LogNickChange`, and `Legacy.LogQuit` and
    `Legacy.LogNickChange`). The quit and nick
    handlers run a loop over the snapshot. Each handler's postcondition is that the files and
    the registry end up exactly as the plan says.

The clock is an input. The line's timestamp (`Stamp`) and the date in the path are separate
inputs, because the source reads the clock once to format and again for each path it resolves.
`dateOf(i)` is the date read while resolving snapshot entry `i`. Whether the sender is a nick
(`is_nick()`) is a field of the trigger. The channel snapshot is an input of the quit and nick
handlers.

## Model

| member | source | states |
|---|---|---|
| Paths.StripHashes | sopel_chanlogs/plugin.py:96 | `lstrip("#")` removes a prefix made only of `#` and leaves a string that does not start with `#`, so every leading `#` is gone and nothing else |
| Paths.Sanitize | sopel_chanlogs/plugin.py:97 | after the substitution no unsafe character remains, and the length grows by exactly one per unsafe character replaced |
| Paths.AbsentChannelMeansSender | sopel_chanlogs/plugin.py:95 | an event without a channel argument is logged in the same file as one naming the sender as its channel; given a channel, the sender plays no part in the path |
| Paths.SanitizeAppend | sopel_chanlogs/plugin.py:97 | the substitution works character by character: sanitising a concatenation is concatenating the sanitised parts |
| Paths.SanitizeKeepsSafeNames | sopel_chanlogs/plugin.py:97 | a name without unsafe characters is left unchanged, and sanitising is idempotent |
| Paths.SanitizeIgnoresWhichBadChar | sopel_chanlogs/plugin.py:39 | every unsafe character has the same replacement, so names that differ only in which unsafe character stands where sanitise alike |
| Paths.StripHashesAfterHashes | sopel_chanlogs/plugin.py:96 | any number of extra leading `#` is stripped with the rest |
| Paths.LeadingHashesIgnored | sopel_chanlogs/plugin.py:95-105 | a non-empty channel name gets the same log path however many `#` are put in front of it |
| Paths.AsciiCaseIgnored | sopel_chanlogs/plugin.py:96-98 | under a fold that ignores ASCII case, channel names that differ only in ASCII letter case get the same log path |
| Paths.Rfc1459FoldsAsciiCase | sopel_chanlogs/plugin.py:98 | the RFC 1459 folding ignores ASCII case, so it meets the hypothesis of `AsciiCaseIgnored` |
| Paths.Rfc1459KeepsSlashAndDotOut | sopel_chanlogs/plugin.py:98 | RFC 1459 folding maps no character to `/` or `.`, so it meets the hypothesis of `FileInLogDirectory` |
| Paths.FileInLogDirectory | sopel_chanlogs/plugin.py:101-105 | the path is the directory, a separator when needed, then `<name>-<date>.log` (by day) or `<name>.log`, where the name holds no `/` and no `.`, so the file sits directly in the log directory |
| Paths.DaysSplitFiles | sopel_chanlogs/plugin.py:101-104 | split by day, two dates give the same file exactly when they are equal; not split, the date plays no part |
| Paths.JoinPathInjective | sopel_chanlogs/plugin.py:105 | joining under one directory keeps relative file names apart |
| Paths.FoldingReintroducesBadChar | sopel_chanlogs/plugin.py:97-98 | folding runs after the substitution, so under RFC 1459 folding `#a\b` ends as `a|b`, which holds an unsafe character |
| Paths.DistinctChannelsCollide | sopel_chanlogs/plugin.py:96-97 | different channels can share a log file: `#a.b`, `#a b` and `##a__b` give the same path |
| Templates.TemplateOverrides | sopel_chanlogs/plugin.py:157 | an override set to `""` behaves exactly as an unset one (the default is used), a non-empty override is used as it is, and setting the override of one event kind leaves the template of every other kind unchanged |
| Templates.DefaultTemplateFailures | sopel_chanlogs/plugin.py:31-37 | a default template fails to format exactly when it names a field the event lacks: `{message}` without a message, `{trigger.args[1]}` with fewer than two arguments |
| Templates.DefaultLineIsOneLine | sopel_chanlogs/plugin.py:108-117 | with a default template and newline-free fields, the formatted line ends in `"\n"` and holds no other newline |
| Templates.MessageLineExample | sopel_chanlogs/plugin.py:31 | `bob` saying `hello` at `2024-01-01T00:00:00+00:00` gives `2024-01-01T00:00:00+00:00  <bob> hello` and a newline |
| Templates.MessageLineDeterminesFields | sopel_chanlogs/plugin.py:31 | for one timestamp, a default message line determines the nick (when it holds no `>`) and the message |
| Store.AppendTo | sopel_chanlogs/plugin.py:148-149 | appending grows the target file by exactly the line and leaves every other file unchanged; a missing file is created |
| Store.AppendAllKeys | sopel_chanlogs/plugin.py:190-195 | after appending to a list of paths, the files that exist are the old ones and the listed ones |
| Store.AppendAllAt | sopel_chanlogs/plugin.py:190-195 | each file grows by one copy of the line per occurrence of its path in the list, and by nothing else |
| Store.AppendAllDistinct | sopel_chanlogs/plugin.py:190-195 | with no path repeated, each listed file gets the line exactly once and every other file is unchanged |
| Store.AppendAllOnlyAppends | sopel_chanlogs/plugin.py:148 | files are opened for appending only: what a file held before is a prefix of what it holds after |
| Store.LogFiles.Append | sopel_chanlogs/plugin.py:148-149 | the directory's files become exactly those of `AppendTo` on the old files |
| Store.LockRegistry.constructor | sopel_chanlogs/plugin.py:125 | a new registry is empty and satisfies the one-lock-per-path invariant |
| Store.LockRegistry.Get | sopel_chanlogs/plugin.py:147 | a path already in the registry gets its recorded lock and the registry is unchanged; a new path gets a fresh lock that is recorded; keys only grow, recorded locks never change, no two paths share a lock |
| Routing.ActionPayload | sopel_chanlogs/plugin.py:141 | `text[8:-1]` of an action, put back into the `\x01ACTION ` … `\x01` wrapper, gives the text again |
| Routing.ActionRoundTrip | sopel_chanlogs/plugin.py:138-141 | a text is an action exactly when it is some payload in the wrapper, and unwrapping `"\x01ACTION " + m + "\x01"` gives back exactly `m` |
| Routing.SelectTemplate | sopel_chanlogs/plugin.py:138-143 | an action selects the action template and its unwrapped payload; any other text selects the message template and stays as it is |
| Routing.FanOut | sopel_chanlogs/plugin.py:190-192 | the fan-out over the first `n` snapshot entries lists at most one path per entry |
| Routing.PrivateMessageSkipped | sopel_chanlogs/plugin.py:134-135 | a message is skipped exactly when it is private and private logging is off; a skip changes no file and records no lock |
| Routing.MessageGoesToSender | sopel_chanlogs/plugin.py:145-146 | a message that is not skipped is written to its sender's file alone, or raises a format error |
| Routing.PlainMessageLogged | sopel_chanlogs/plugin.py:142-149 | a non-action message under the default template appends `<datetime>  <<nick>> <text>` and a newline to the sender's file |
| Routing.ActionLogged | sopel_chanlogs/plugin.py:138-149 | under the corrected handler, `/me m` under the default template appends `<datetime>  * <nick> m` and a newline to the sender's file |
| Routing.ActionNeverLoggedAsWritten | sopel_chanlogs/plugin.py:138-146 | as written, every action that is not skipped raises before anything is written, under any action template; under the default action template the exception is `AttributeError` and the corrected handler writes a line instead; other messages behave the same in both |
| Routing.ChannelEventGoesToItsChannel | sopel_chanlogs/plugin.py:157-162 | join, part and topic are never skipped: they write one line to the file of the channel the event names, or raise a format error |
| Routing.TopicNeedsItsArgument | sopel_chanlogs/plugin.py:37 | under the default template, a topic change raises exactly when the event lacks its second argument |
| Routing.FanOutTargets | sopel_chanlogs/plugin.py:190-192 | a path is written exactly when some snapshot entry that the event hits resolves to it |
| Routing.FanOutDistinct | sopel_chanlogs/plugin.py:190-195 | when the entries hit resolve to different paths, no path is written twice |
| Routing.FanOutCount | sopel_chanlogs/plugin.py:190-192 | the fan-out lists a path exactly as many times as there are snapshot entries hit that resolve to it |
| Routing.FanOutGrowth | sopel_chanlogs/plugin.py:190-195 | after the loop, every file has grown by one copy of the line per channel hit that resolves to it |
| Routing.FanOutAppendsOncePerChannel | sopel_chanlogs/plugin.py:188-195 | a quit or nick change appends the line to a file once per channel hit whose file it is: a file no channel hit resolves to is unchanged; when the channels hit have different files, each gets the line once; a file shared by several channels hit gets it once per channel |
| Routing.QuitExample | sopel_chanlogs/plugin.py:183-195 | `alice` quitting while in `#a` and `#b` but not in `#c` adds one quit line to `a.log` and one to `b.log`, and leaves `c.log` as it was |
| Handlers.Setup | sopel_chanlogs/plugin.py:124-125 | the registry is created, empty, when absent; a registry already present is kept |
| Handlers.WriteLine | sopel_chanlogs/plugin.py:147-149 | the path's lock is looked up (recorded if new), then the line is appended to that file alone |
| Handlers.WriteOne | sopel_chanlogs/plugin.py:158-162 | formatting fails with no effect, or the line goes to the one file |
| Handlers.LogMessage | sopel_chanlogs/plugin.py:131-149 | files and registry end exactly as the message plan says, and the handler raises exactly when the plan raises |
| Handlers.LogChannelEvent | sopel_chanlogs/plugin.py:157-162 | files and registry end exactly as the channel-event plan says |
| Handlers.LogJoin | sopel_chanlogs/plugin.py:155-162 | files and registry end exactly as the join plan says |
| Handlers.LogPart | sopel_chanlogs/plugin.py:168-175 | files and registry end exactly as the part plan says |
| Handlers.LogTopic | sopel_chanlogs/plugin.py:221-228 | files and registry end exactly as the topic plan says |
| Handlers.LogFanOut | sopel_chanlogs/plugin.py:185-195 | the line is formatted once, before any write; then files and registry end exactly as the fan-out plan says |
| Handlers.WriteFanOut | sopel_chanlogs/plugin.py:190-195 | the loop appends the line to the fan-out's paths in snapshot order and records exactly their locks |
| Handlers.WriteEntry | sopel_chanlogs/plugin.py:191-195 | one turn of the loop takes files and registry from the state after the first `i` entries (each file hit once more per hit, exactly those locks looked up, no lock changed) to the state after the first `i + 1` |
| Handlers.LogQuit | sopel_chanlogs/plugin.py:183-195 | files and registry end exactly as the quit plan says |
| Handlers.LogNickChange | sopel_chanlogs/plugin.py:201-215 | files and registry end exactly as the nick-change plan says, over the channels holding the old or the new nick |
| Legacy.Rosters | sopel_modules/chanlogs/__init__.py:179 | the copy of `bot.privileges` is read as channels whose users are the keys of their privilege dictionaries |
| Legacy.LegacyQuitTargets | sopel_modules/chanlogs/__init__.py:179-186 | a quit writes to a path exactly when a channel of the copy has the nick among its keys and resolves to that path |
| Legacy.LegacyNickTargets | sopel_modules/chanlogs/__init__.py:195-205 | a nick change writes to a path exactly when a channel of the copy has the old or the new nick among its keys and resolves to that path |
| Legacy.LogQuit | sopel_modules/chanlogs/__init__.py:175-186 | files and registry end exactly as the quit plan over the copied privileges says |
| Legacy.LogNickChange | sopel_modules/chanlogs/__init__.py:192-205 | files and registry end exactly as the nick-change plan over the copied privileges says |

The rows citing the current plugin cover the same code in the legacy one, which the shared
members model as well: `get_fpath` at `sopel_modules/chanlogs/__init__.py` lines 81-97,
`_format_template` at 100-111, `setup` at 114-119, `log_message` at 125-143, and `log_join`,
`log_part` and `log_topic` at 149-155, 161-167 and 211-217.

## Left out

- Clock and time zone: `get_datetime` (UTC or the configured zone, microsecond truncation) is
  not modelled. The timestamp and the dates are inputs, and nothing ties them together.
- Threading: the locks are modelled only as identities in a get-or-create map. Mutual
  exclusion between threads and the `thread(False)` and `priority('high')` settings are not
  modelled.
- File I/O: there is no encoding to UTF-8 bytes (lines are strings), and `~` in the directory
  setting is not expanded. `os.path.join` is modelled for POSIX paths only.
- Failed appends are not modelled. In the source an exception from `open` or `write` leaves
  the loop, so in a quit or nick fan-out the remaining channels are not written.
- Identifier folding: `make_identifier(...).lower()` and `Identifier(...).lower()` are Sopel
  code and are not part of this model. They are the parameter `fold`. No contract claims that
  a finished path is free of unsafe characters or invariant under folding in general.
- Membership tests (`trigger.nick in channel.users`, `nick in privileges`): Sopel's containers
  compare identifiers case-insensitively. Here membership is exact membership of the nick
  string.
- `str.format` for override templates: an override is rendered by the opaque parameter
  `custom`. The full format language of the defaults (`{trigger}` conversion, attribute and
  index lookup) is reduced to the concatenation each default template produces. An override
  whose text equals a default template renders as that default.
- Configuration glue: `configure`, the config section classes, the plugin decorators and the
  packaging script are not modelled. The Python 2 re-encoding branch of the legacy formatter
  is not modelled either.
- Handlers.LogMessage: models the handler as evidently intended (see Findings); the code as
  written is `Routing.MessagePlanAsWritten`. There, whether an override action template fails
  while formatting or only later in `get_fpath` is decided by the parameter `bare`, which
  stands for `str.format` with a bare string as `trigger`.
- Paths.LeadingHashesIgnored: holds for a non-empty channel name only. A name made only of `#`
  is stripped to nothing and lands in a file named after nothing.

## Findings

| source | as written | input that shows it | evidently intended | confidence | as-written member | corrected member |
|---|---|---|---|---|---|---|
| sopel_chanlogs/plugin.py:141-146 | the action branch rebinds `message` to the plain string `message[8:-1]`, then passes it as `trigger` to the formatter and to `get_fpath`, which read `trigger.nick` and `trigger.sender`; a plain string has neither, so the handler raises before anything is written (`AttributeError` under the default action template; under an override, whatever `str.format` raises, or `AttributeError` from `get_fpath`) | a channel message `"\x01ACTION waves\x01"` with the default action template | the line `<datetime>  * <nick> waves` appended to the channel's file | high; not executed | Routing.MessagePlanAsWritten (shown by Routing.ActionNeverLoggedAsWritten) | Routing.MessagePlan (proved by Routing.ActionLogged) |
