/**
 * Event routing: for each handler, which template is used, what line is written and to which
 * log files. Each handler's effect is a `Plan` computed from its inputs; the handlers in
 * module `Handlers` carry plans out against the log store and the lock registry.
 *
 * Quit and nick changes name no channel: they go to every channel of a snapshot of the bot's
 * channel list whose users include the nick (for a nick change, the old or the new nick).
 */
module Routing {
  import opened Text
  import opened Paths
  import opened Templates
  import opened Store

  /** The plugin's settings: log directory and day splitting, whether private conversations are
      logged, and the template overrides that are set. */
  datatype Config = Config(paths: PathConfig, privmsg: bool, overrides: map<Kind, string>)

  /** What the plugin takes from its host: the settings, the server's case folding of
      identifiers, and `str.format` applied to an override template. */
  datatype Env = Env(cfg: Config, fold: string -> string, custom: Renderer)

  // ---------------------------------------------------------------------------
  // CTCP ACTION

  /** The CTCP delimiter, byte 0x01. */
  const CtcpDelim: char := '\U{1}'

  const ActionPrefix: string := [CtcpDelim] + "ACTION "

  /** `text.startswith("\x01ACTION ") and text.endswith("\x01")`. */
  predicate IsAction(text: string)
  {
    StartsWith(text, ActionPrefix) && EndsWith(text, [CtcpDelim])
  }

  /** What `/me m` sends. */
  function WrapAction(m: string): string
  {
    ActionPrefix + m + [CtcpDelim]
  }

  /** `text[8:-1]`: the action with its wrapper taken off. */
  function ActionPayload(text: string): (m: string)
    requires IsAction(text)
    ensures WrapAction(m) == text
  {
    assert text[7] == ' ' by { assert text[..8] == ActionPrefix; }
    assert text[|text| - 1] == CtcpDelim by { assert text[|text| - 1..] == [CtcpDelim]; }
    var m := text[8..|text| - 1];
    assert text == text[..8] + m + text[|text| - 1..];
    m
  }

  /** A text is an action exactly when it is some payload in the wrapper, and the payload taken
      off is that one. */
  lemma ActionRoundTrip(text: string, m: string)
    ensures text == WrapAction(m) ==> IsAction(text) && ActionPayload(text) == m
    ensures IsAction(text) <==> exists p :: text == WrapAction(p)
  {
    var w := WrapAction(m);
    assert w[..|ActionPrefix|] == ActionPrefix;
    assert w[|w| - 1..] == [CtcpDelim];
    assert w[8..|w| - 1] == m;
    if IsAction(text) {
      assert text == WrapAction(ActionPayload(text));
    }
    forall p | text == WrapAction(p) ensures IsAction(text) {
      var t := WrapAction(p);
      assert t[..|ActionPrefix|] == ActionPrefix;
      assert t[|t| - 1..] == [CtcpDelim];
    }
  }

  /** The template and payload the message handler formats with. */
  datatype Selection = Selection(template: string, payload: string)

  /** Action template and unwrapped payload for an action, message template and the text as it
      is for anything else. */
  function SelectTemplate(cfg: Config, text: string): (s: Selection)
    ensures IsAction(text) ==> s.template == TemplateFor(cfg.overrides, ActionEvent) && WrapAction(s.payload) == text
    ensures !IsAction(text) ==> s.template == TemplateFor(cfg.overrides, MessageEvent) && s.payload == text
  {
    if IsAction(text) then Selection(TemplateFor(cfg.overrides, ActionEvent), ActionPayload(text))
    else Selection(TemplateFor(cfg.overrides, MessageEvent), text)
  }

  // ---------------------------------------------------------------------------
  // Plans

  datatype Error =
    | FormatError     // the template names a field the event does not have
    | AttributeError  // a plain string is used where the handler expects the trigger

  /** What one event does: nothing, raise before writing anything, or append `line` to each of
      `paths` in order, each under the lock of its path. */
  datatype Plan = Skip | Raise(error: Error) | Write(paths: seq<Path>, line: string)

  /** The log files after a plan. */
  function Apply(files: Files, plan: Plan): Files
  {
    if plan.Write? then AppendAll(files, plan.paths, plan.line) else files
  }

  /** The paths whose locks a plan looks up (and so records in the registry). */
  function Touched(plan: Plan): set<Path>
  {
    if plan.Write? then Elems(plan.paths) else {}
  }

  /** A private conversation while private logging is off. */
  predicate SkipsPrivate(cfg: Config, t: Trigger)
  {
    t.senderIsNick && !cfg.privmsg
  }

  /** Formatting a template for `t`, then writing the line to `paths`. */
  function WriteOrRaise(env: Env, tpl: string, f: Fields, paths: seq<Path>): Plan
  {
    match FormatLine(env.custom, tpl, f)
    case None => Raise(FormatError)
    case Some(line) => Write(paths, line)
  }

  /** `log_message` as intended: the line goes to the sender's file (the channel, or the other
      party of a private conversation), with the action template and the unwrapped payload for
      an action. */
  function MessagePlan(env: Env, stamp: Stamp, date: string, t: Trigger): Plan
  {
    if SkipsPrivate(env.cfg, t) then Skip
    else
      var sel := SelectTemplate(env.cfg, t.text);
      WriteOrRaise(env, sel.template, Fields(stamp, t, Some(sel.payload)), [LogPath(env.cfg.paths, env.fold, [], t.sender, date)])
  }

  /** `str.format` of an override template with one bare string bound to both `trigger` and
      `message`: `None` when the template reads something the string does not have. */
  type BareRenderer = (string, Stamp, string) -> Option<string>

  /** The exception the action branch as written ends in. The default action template reads
      `{trigger.nick}` of the bare string, an `AttributeError`. An override either fails to
      format against the string, or formats, after which `get_fpath` reads `trigger.sender` of
      the string, an `AttributeError` again. */
  function ActionErrorAsWritten(bare: BareRenderer, tpl: string, stamp: Stamp, payload: string): Error
  {
    if tpl == ActionTemplate || bare(tpl, stamp, payload).Some? then AttributeError else FormatError
  }

  /** `log_message` as written: the action branch rebinds `message` to the bare payload string
      and formats and resolves the path with it in place of the trigger, so it raises before
      anything is written. */
  function MessagePlanAsWritten(env: Env, bare: BareRenderer, stamp: Stamp, date: string, t: Trigger): Plan
  {
    if SkipsPrivate(env.cfg, t) then Skip
    else if IsAction(t.text) then
      var sel := SelectTemplate(env.cfg, t.text);
      Raise(ActionErrorAsWritten(bare, sel.template, stamp, sel.payload))
    else
      var tpl := TemplateFor(env.cfg.overrides, MessageEvent);
      WriteOrRaise(env, tpl, Fields(stamp, t, Some(t.text)), [LogPath(env.cfg.paths, env.fold, [], t.sender, date)])
  }

  /** `log_join`, `log_part`, `log_topic`: one line to the file of the event's channel. */
  function ChannelPlan(env: Env, k: Kind, stamp: Stamp, date: string, t: Trigger): Plan
  {
    WriteOrRaise(env, TemplateFor(env.cfg.overrides, k), Fields(stamp, t, None), [LogPath(env.cfg.paths, env.fold, t.sender, t.sender, date)])
  }

  // ---------------------------------------------------------------------------
  // Fan-out

  /** One entry of the channel snapshot: its name and the nicks in it. */
  datatype Roster = Roster(name: string, users: set<string>)

  /** Whose channels an event goes to: a quitting nick, or the two nicks of a nick change. */
  datatype Affected = Quitter(nick: string) | Renamed(oldNick: string, newNick: string)

  predicate Hit(r: Roster, a: Affected)
  {
    match a
    case Quitter(n) => n in r.users
    case Renamed(o, n) => o in r.users || n in r.users
  }

  /** How a snapshot entry's log path is found from its channel name and its place `i` in the
      snapshot. */
  type Resolver = (string, nat) -> Path

  /** `get_fpath(bot, trigger, channel.name)`, where `dateOf(i)` is the date read while
      resolving entry `i`. */
  function EntryResolver(env: Env, dateOf: nat -> string, sender: string): Resolver
  {
    (channel: string, i: nat) => LogPath(env.cfg.paths, env.fold, channel, sender, dateOf(i))
  }

  /** The log path of snapshot entry `i`. */
  function EntryPath(resolve: Resolver, snapshot: seq<Roster>, i: nat): Path
    requires i < |snapshot|
  {
    resolve(snapshot[i].name, i)
  }

  /** The paths written for the first `n` snapshot entries, in snapshot order. */
  function FanOut(resolve: Resolver, snapshot: seq<Roster>, a: Affected, n: nat): (r: seq<Path>)
    requires n <= |snapshot|
    ensures |r| <= n
  {
    if n == 0 then []
    else
      FanOut(resolve, snapshot, a, n - 1)
      + (if Hit(snapshot[n - 1], a) then [EntryPath(resolve, snapshot, n - 1)] else [])
  }

  /** One more snapshot entry adds its path when the event hits it and nothing otherwise. */
  lemma FanOutStep(resolve: Resolver, snapshot: seq<Roster>, a: Affected, i: nat)
    requires i < |snapshot|
    ensures Hit(snapshot[i], a) ==>
      FanOut(resolve, snapshot, a, i + 1) == FanOut(resolve, snapshot, a, i) + [EntryPath(resolve, snapshot, i)]
    ensures !Hit(snapshot[i], a) ==>
      FanOut(resolve, snapshot, a, i + 1) == FanOut(resolve, snapshot, a, i)
  {
  }

  /** `log_quit` and `log_nick_change`: the line, formatted once, to every channel hit. */
  function FanOutPlan(env: Env, k: Kind, stamp: Stamp, dateOf: nat -> string, t: Trigger, snapshot: seq<Roster>, a: Affected): Plan
  {
    WriteOrRaise(env, TemplateFor(env.cfg.overrides, k), Fields(stamp, t, None), FanOut(EntryResolver(env, dateOf, t.sender), snapshot, a, |snapshot|))
  }

  function QuitPlan(env: Env, stamp: Stamp, dateOf: nat -> string, t: Trigger, snapshot: seq<Roster>): Plan
  {
    FanOutPlan(env, QuitEvent, stamp, dateOf, t, snapshot, Quitter(t.nick))
  }

  /** For a NICK the trigger's nick is the old nick and its sender the new one. */
  function NickPlan(env: Env, stamp: Stamp, dateOf: nat -> string, t: Trigger, snapshot: seq<Roster>): Plan
  {
    FanOutPlan(env, NickEvent, stamp, dateOf, t, snapshot, Renamed(t.nick, t.sender))
  }

  // ---------------------------------------------------------------------------
  // Properties of the message handler

  /** A message is skipped, touching no file and no lock, exactly when it is private and
      private logging is off. */
  lemma PrivateMessageSkipped(env: Env, stamp: Stamp, date: string, t: Trigger, files: Files)
    ensures MessagePlan(env, stamp, date, t) == Skip <==> SkipsPrivate(env.cfg, t)
    ensures SkipsPrivate(env.cfg, t) ==>
      Apply(files, MessagePlan(env, stamp, date, t)) == files && Touched(MessagePlan(env, stamp, date, t)) == {}
  {
  }

  /** Every message handled goes to the sender's file alone, formatted with the selected
      template; the only other outcome is a format error of an override. */
  lemma MessageGoesToSender(env: Env, stamp: Stamp, date: string, t: Trigger)
    requires !SkipsPrivate(env.cfg, t)
    ensures var plan := MessagePlan(env, stamp, date, t);
      || (plan.Write? && plan.paths == [LogPath(env.cfg.paths, env.fold, t.sender, t.sender, date)])
      || plan == Raise(FormatError)
  {
    AbsentChannelMeansSender(env.cfg.paths, env.fold, t.sender, t.sender, t.sender, date);
  }

  /** `/me m` in a channel, with the default action template: the line is
      `<datetime>  * <nick> m` and goes to the channel's file. */
  lemma ActionLogged(env: Env, stamp: Stamp, date: string, t: Trigger, m: string)
    requires !SkipsPrivate(env.cfg, t)
    requires t.text == WrapAction(m)
    requires ActionEvent !in env.cfg.overrides || env.cfg.overrides[ActionEvent] == []
    ensures MessagePlan(env, stamp, date, t)
         == Write([LogPath(env.cfg.paths, env.fold, t.sender, t.sender, date)], stamp.datetime + "  * " + t.nick + " " + m + "\n")
  {
    ActionRoundTrip(t.text, m);
    var sel := SelectTemplate(env.cfg, t.text);
    assert sel == Selection(ActionTemplate, m);
    DefaultActionLine(env.custom, Fields(stamp, t, Some(m)));
    AbsentChannelMeansSender(env.cfg.paths, env.fold, t.sender, t.sender, t.sender, date);
  }

  /** A plain message with the default message template: `<datetime>  <<nick>> <text>`, the
      text unchanged. */
  lemma PlainMessageLogged(env: Env, stamp: Stamp, date: string, t: Trigger)
    requires !SkipsPrivate(env.cfg, t)
    requires !IsAction(t.text)
    requires MessageEvent !in env.cfg.overrides || env.cfg.overrides[MessageEvent] == []
    ensures MessagePlan(env, stamp, date, t)
         == Write([LogPath(env.cfg.paths, env.fold, t.sender, t.sender, date)], stamp.datetime + "  <" + t.nick + "> " + t.text + "\n")
  {
    assert SelectTemplate(env.cfg, t.text) == Selection(MessageTemplate, t.text);
    assert FormatLine(env.custom, MessageTemplate, Fields(stamp, t, Some(t.text)))
        == Some(stamp.datetime + "  <" + t.nick + "> " + t.text + "\n");
    AbsentChannelMeansSender(env.cfg.paths, env.fold, t.sender, t.sender, t.sender, date);
  }

  /** As written, no action is ever logged: the handler raises for every action it does not
      skip, with `AttributeError` under the default action template, where the intended handler
      writes a line. Other messages are unaffected. */
  lemma ActionNeverLoggedAsWritten(env: Env, bare: BareRenderer, stamp: Stamp, date: string, t: Trigger)
    ensures IsAction(t.text) && !SkipsPrivate(env.cfg, t) ==> MessagePlanAsWritten(env, bare, stamp, date, t).Raise?
    ensures IsAction(t.text) && !SkipsPrivate(env.cfg, t) && TemplateFor(env.cfg.overrides, ActionEvent) == ActionTemplate ==>
      MessagePlanAsWritten(env, bare, stamp, date, t) == Raise(AttributeError)
      && MessagePlan(env, stamp, date, t).Write?
    ensures !IsAction(t.text) ==> MessagePlanAsWritten(env, bare, stamp, date, t) == MessagePlan(env, stamp, date, t)
  {
    assert ActionTemplate != MessageTemplate;
  }

  // ---------------------------------------------------------------------------
  // Properties of the channel handlers

  /** Join, part and topic write one line, to the file of the channel the event names, or raise
      on a format error; they are never skipped. */
  lemma ChannelEventGoesToItsChannel(env: Env, k: Kind, stamp: Stamp, date: string, t: Trigger)
    ensures var plan := ChannelPlan(env, k, stamp, date, t);
      || (plan.Write? && plan.paths == [LogPath(env.cfg.paths, env.fold, t.sender, t.sender, date)])
      || plan == Raise(FormatError)
  {
  }

  /** A topic change with the default template raises exactly when the event lacks the topic
      argument. */
  lemma TopicNeedsItsArgument(env: Env, stamp: Stamp, date: string, t: Trigger)
    requires TopicEvent !in env.cfg.overrides || env.cfg.overrides[TopicEvent] == []
    ensures ChannelPlan(env, TopicEvent, stamp, date, t).Raise? <==> |t.args| < 2
  {
    DefaultTemplateFailures(env.custom, TopicEvent, Fields(stamp, t, None));
  }

  // ---------------------------------------------------------------------------
  // Properties of the fan-out

  /** A path is written exactly when some snapshot entry that the event hits resolves to it. */
  lemma {:induction false} FanOutTargets(resolve: Resolver, snapshot: seq<Roster>, a: Affected, n: nat, p: Path)
    requires n <= |snapshot|
    ensures p in FanOut(resolve, snapshot, a, n) <==>
      exists i :: 0 <= i < n && Hit(snapshot[i], a) && EntryPath(resolve, snapshot, i) == p
  {
    if n > 0 {
      FanOutTargets(resolve, snapshot, a, n - 1, p);
      FanOutStep(resolve, snapshot, a, n - 1);
      if Hit(snapshot[n - 1], a) && EntryPath(resolve, snapshot, n - 1) == p {
        assert p in FanOut(resolve, snapshot, a, n);
      }
    }
  }

  /** When the entries hit resolve to different paths, no path is written twice. */
  lemma {:induction false} FanOutDistinct(resolve: Resolver, snapshot: seq<Roster>, a: Affected, n: nat)
    requires n <= |snapshot|
    requires forall i, j :: 0 <= i < j < n && Hit(snapshot[i], a) && Hit(snapshot[j], a) ==>
      EntryPath(resolve, snapshot, i) != EntryPath(resolve, snapshot, j)
    ensures Distinct(FanOut(resolve, snapshot, a, n))
  {
    if n > 0 {
      var init := FanOut(resolve, snapshot, a, n - 1);
      FanOutDistinct(resolve, snapshot, a, n - 1);
      FanOutStep(resolve, snapshot, a, n - 1);
      if Hit(snapshot[n - 1], a) {
        var p := EntryPath(resolve, snapshot, n - 1);
        if p in init {
          FanOutTargets(resolve, snapshot, a, n - 1, p);
          assert false;
        }
      }
    }
  }

  /** The snapshot entries among the first `n` that the event hits and that resolve to `p`. */
  function HitsAt(resolve: Resolver, snapshot: seq<Roster>, a: Affected, n: nat, p: Path): set<nat>
    requires n <= |snapshot|
  {
    set i: nat | i < n && Hit(snapshot[i], a) && EntryPath(resolve, snapshot, i) == p
  }

  /** One more snapshot entry adds itself to the entries resolving to `p` when the event hits
      it and it resolves to `p`. */
  lemma HitsAtStep(resolve: Resolver, snapshot: seq<Roster>, a: Affected, n: nat, p: Path)
    requires n < |snapshot|
    ensures n !in HitsAt(resolve, snapshot, a, n, p)
    ensures HitsAt(resolve, snapshot, a, n + 1, p) == HitsAt(resolve, snapshot, a, n, p)
      + (if Hit(snapshot[n], a) && EntryPath(resolve, snapshot, n) == p then {n} else {})
  {
  }

  /** A path is listed once for every entry hit that resolves to it. */
  lemma {:induction false} FanOutCount(resolve: Resolver, snapshot: seq<Roster>, a: Affected, n: nat, p: Path)
    requires n <= |snapshot|
    ensures Count(FanOut(resolve, snapshot, a, n), p) == |HitsAt(resolve, snapshot, a, n, p)|
  {
    if n > 0 {
      FanOutCount(resolve, snapshot, a, n - 1, p);
      FanOutStep(resolve, snapshot, a, n - 1);
      HitsAtStep(resolve, snapshot, a, n - 1, p);
      if Hit(snapshot[n - 1], a) {
        CountSnoc(FanOut(resolve, snapshot, a, n - 1), EntryPath(resolve, snapshot, n - 1), p);
      }
    }
  }

  /** The files after a fan-out: each grows by one copy of the line per entry hit that resolves
      to it. */
  lemma FanOutGrowth(resolve: Resolver, snapshot: seq<Roster>, a: Affected, files: Files, line: string, p: Path)
    ensures Read(AppendAll(files, FanOut(resolve, snapshot, a, |snapshot|), line), p)
         == Read(files, p) + Repeat(line, |HitsAt(resolve, snapshot, a, |snapshot|, p)|)
  {
    AppendAllAt(files, FanOut(resolve, snapshot, a, |snapshot|), line, p);
    FanOutCount(resolve, snapshot, a, |snapshot|, p);
  }

  /** When the entries hit resolve to different paths, a path that one of them resolves to is
      resolved to by that one alone. */
  lemma HitsAtOne(resolve: Resolver, snapshot: seq<Roster>, a: Affected, p: Path)
    requires exists i :: 0 <= i < |snapshot| && Hit(snapshot[i], a) && EntryPath(resolve, snapshot, i) == p
    requires forall i, j :: 0 <= i < j < |snapshot| && Hit(snapshot[i], a) && Hit(snapshot[j], a) ==>
      EntryPath(resolve, snapshot, i) != EntryPath(resolve, snapshot, j)
    ensures |HitsAt(resolve, snapshot, a, |snapshot|, p)| == 1
  {
    var i :| 0 <= i < |snapshot| && Hit(snapshot[i], a) && EntryPath(resolve, snapshot, i) == p;
    assert HitsAt(resolve, snapshot, a, |snapshot|, p) == {i};
  }

  /** A quit or nick change appends the line to a file once for every channel hit whose file it
      is: a file no such channel resolves to is unchanged, the file of a channel hit gets the
      line once when the channels hit have different files, and a file shared by several
      channels hit gets it once per channel. */
  lemma FanOutAppendsOncePerChannel(env: Env, k: Kind, stamp: Stamp, dateOf: nat -> string, t: Trigger, snapshot: seq<Roster>, a: Affected, files: Files, p: Path)
    requires FanOutPlan(env, k, stamp, dateOf, t, snapshot, a).Write?
    ensures var plan := FanOutPlan(env, k, stamp, dateOf, t, snapshot, a);
      var resolve := EntryResolver(env, dateOf, t.sender);
      && Read(Apply(files, plan), p) == Read(files, p) + Repeat(plan.line, |HitsAt(resolve, snapshot, a, |snapshot|, p)|)
      && ((forall i :: 0 <= i < |snapshot| && Hit(snapshot[i], a) ==> EntryPath(resolve, snapshot, i) != p) ==>
            Read(Apply(files, plan), p) == Read(files, p))
      && (((exists i :: 0 <= i < |snapshot| && Hit(snapshot[i], a) && EntryPath(resolve, snapshot, i) == p)
           && (forall i, j :: 0 <= i < j < |snapshot| && Hit(snapshot[i], a) && Hit(snapshot[j], a) ==>
                 EntryPath(resolve, snapshot, i) != EntryPath(resolve, snapshot, j))) ==>
            Read(Apply(files, plan), p) == Read(files, p) + plan.line)
  {
    var plan := FanOutPlan(env, k, stamp, dateOf, t, snapshot, a);
    var resolve := EntryResolver(env, dateOf, t.sender);
    FanOutGrowth(resolve, snapshot, a, files, plan.line, p);
    if forall i :: 0 <= i < |snapshot| && Hit(snapshot[i], a) ==> EntryPath(resolve, snapshot, i) != p {
      assert HitsAt(resolve, snapshot, a, |snapshot|, p) == {};
    }
    if (exists i :: 0 <= i < |snapshot| && Hit(snapshot[i], a) && EntryPath(resolve, snapshot, i) == p)
       && (forall i, j :: 0 <= i < j < |snapshot| && Hit(snapshot[i], a) && Hit(snapshot[j], a) ==>
             EntryPath(resolve, snapshot, i) != EntryPath(resolve, snapshot, j)) {
      HitsAtOne(resolve, snapshot, a, p);
      assert Repeat(plan.line, 1) == plan.line;
    }
  }

  /** A quit for `alice`, who is in `#a` and `#b` but not in `#c`: one line in the file of
      `#a`, one in that of `#b`, none in that of `#c` (default template, no day split, a fold
      that keeps these small names). */
  lemma QuitExample(env: Env, stamp: Stamp, dateOf: nat -> string, files: Files)
    requires !env.cfg.paths.byDay && env.cfg.overrides == map[]
    requires env.fold("a") == "a" && env.fold("b") == "b" && env.fold("c") == "c"
    ensures var t := Trigger("alice", "alice", "Quit: bye", ["Quit: bye"], true);
      var snapshot := [Roster("#a", {"alice", "bob"}), Roster("#b", {"alice"}), Roster("#c", {"bob"})];
      var line := stamp.datetime + "  *** alice has quit IRC\n";
      var after := Apply(files, QuitPlan(env, stamp, dateOf, t, snapshot));
      var dir := env.cfg.paths.dir;
      && Read(after, JoinPath(dir, "a.log")) == Read(files, JoinPath(dir, "a.log")) + line
      && Read(after, JoinPath(dir, "b.log")) == Read(files, JoinPath(dir, "b.log")) + line
      && Read(after, JoinPath(dir, "c.log")) == Read(files, JoinPath(dir, "c.log"))
  {
    var t := Trigger("alice", "alice", "Quit: bye", ["Quit: bye"], true);
    var snapshot := [Roster("#a", {"alice", "bob"}), Roster("#b", {"alice"}), Roster("#c", {"bob"})];
    var line := stamp.datetime + "  *** alice has quit IRC\n";
    var dir := env.cfg.paths.dir;
    var pa, pb := JoinPath(dir, "a.log"), JoinPath(dir, "b.log");
    QuitExampleFanOut(env, dateOf, snapshot);
    QuitLine(env.custom, stamp, t);
    assert QuitPlan(env, stamp, dateOf, t, snapshot) == Write([pa, pb], line);
    QuitExampleFiles(files, dir, line);
  }

  lemma QuitExampleFanOut(env: Env, dateOf: nat -> string, snapshot: seq<Roster>)
    requires !env.cfg.paths.byDay
    requires env.fold("a") == "a" && env.fold("b") == "b"
    requires snapshot == [Roster("#a", {"alice", "bob"}), Roster("#b", {"alice"}), Roster("#c", {"bob"})]
    ensures FanOut(EntryResolver(env, dateOf, "alice"), snapshot, Quitter("alice"), 3)
         == [JoinPath(env.cfg.paths.dir, "a.log"), JoinPath(env.cfg.paths.dir, "b.log")]
  {
    QuitExampleHits(snapshot);
    QuitExampleEntries(env, dateOf, snapshot);
    FanOutOfTwoHits(EntryResolver(env, dateOf, "alice"), snapshot, Quitter("alice"));
  }

  lemma QuitExampleHits(snapshot: seq<Roster>)
    requires snapshot == [Roster("#a", {"alice", "bob"}), Roster("#b", {"alice"}), Roster("#c", {"bob"})]
    ensures |snapshot| == 3 && snapshot[0].name == "#a" && snapshot[1].name == "#b"
    ensures Hit(snapshot[0], Quitter("alice")) && Hit(snapshot[1], Quitter("alice"))
    ensures !Hit(snapshot[2], Quitter("alice"))
  {
    assert "alice" != "bob";
  }

  lemma FanOutOfTwoHits(resolve: Resolver, snapshot: seq<Roster>, a: Affected)
    requires |snapshot| == 3 && Hit(snapshot[0], a) && Hit(snapshot[1], a) && !Hit(snapshot[2], a)
    ensures FanOut(resolve, snapshot, a, 3)
         == [EntryPath(resolve, snapshot, 0), EntryPath(resolve, snapshot, 1)]
  {
    var pa, pb := EntryPath(resolve, snapshot, 0), EntryPath(resolve, snapshot, 1);
    assert FanOut(resolve, snapshot, a, 1) == [pa];
    assert FanOut(resolve, snapshot, a, 2) == [pa] + [pb];
  }

  lemma QuitExampleEntries(env: Env, dateOf: nat -> string, snapshot: seq<Roster>)
    requires !env.cfg.paths.byDay
    requires env.fold("a") == "a" && env.fold("b") == "b"
    requires |snapshot| == 3 && snapshot[0].name == "#a" && snapshot[1].name == "#b"
    ensures EntryPath(EntryResolver(env, dateOf, "alice"), snapshot, 0) == JoinPath(env.cfg.paths.dir, "a.log")
    ensures EntryPath(EntryResolver(env, dateOf, "alice"), snapshot, 1) == JoinPath(env.cfg.paths.dir, "b.log")
  {
    assert "#a" == "#" + "a" && "a" + ".log" == "a.log" && NoBadChars("a");
    ChannelFile(env, snapshot[0].name, "a", dateOf(0));
    assert "#b" == "#" + "b" && "b" + ".log" == "b.log" && NoBadChars("b");
    ChannelFile(env, snapshot[1].name, "b", dateOf(1));
  }

  /** The file of a channel whose name is one `#` and a safe name that the fold keeps. */
  lemma ChannelFile(env: Env, channel: string, name: string, date: string)
    requires !env.cfg.paths.byDay
    requires channel == "#" + name && name != [] && name[0] != '#'
    requires NoBadChars(name) && env.fold(name) == name
    ensures LogPath(env.cfg.paths, env.fold, channel, "alice", date) == JoinPath(env.cfg.paths.dir, name + ".log")
  {
    assert StripHashes(channel) == name by { assert channel[1..] == name; }
    SanitizeKeepsSafeNames2(name);
  }

  lemma QuitExampleFiles(files: Files, dir: string, line: string)
    ensures var pa, pb, pc := JoinPath(dir, "a.log"), JoinPath(dir, "b.log"), JoinPath(dir, "c.log");
      && Read(AppendAll(files, [pa, pb], line), pa) == Read(files, pa) + line
      && Read(AppendAll(files, [pa, pb], line), pb) == Read(files, pb) + line
      && Read(AppendAll(files, [pa, pb], line), pc) == Read(files, pc)
  {
    var pa, pb, pc := JoinPath(dir, "a.log"), JoinPath(dir, "b.log"), JoinPath(dir, "c.log");
    var p := DirPrefix(dir);
    assert pa == p + "a.log" && pb == p + "b.log" && pc == p + "c.log";
    assert pa[|p|] == 'a' && pb[|p|] == 'b' && pc[|p|] == 'c';
    assert Distinct([pa, pb]);
    AppendAllDistinct(files, [pa, pb], line, pa);
    AppendAllDistinct(files, [pa, pb], line, pb);
    AppendAllDistinct(files, [pa, pb], line, pc);
  }

  lemma QuitLine(custom: Renderer, stamp: Stamp, t: Trigger)
    requires t.nick == "alice"
    ensures FormatLine(custom, TemplateFor(map[], QuitEvent), Fields(stamp, t, None)) == Some(stamp.datetime + "  *** alice has quit IRC\n")
  {
    assert QuitTemplate != MessageTemplate && QuitTemplate != ActionTemplate && QuitTemplate != NickTemplate;
    assert QuitTemplate != JoinTemplate && QuitTemplate != PartTemplate;
    assert stamp.datetime + "  *** " + "alice" + " has quit IRC" + "\n" == stamp.datetime + "  *** alice has quit IRC\n";
  }
}
