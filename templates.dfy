/**
 * The line formatter (`_format_template`) and the default templates. A template is a
 * `str.format` string; the seven default ones are rendered here as the concatenations they
 * stand for, and a configured override, which may reference anything, is rendered by the
 * parameter `custom`. Every rendered line gets exactly one `"\n"` appended.
 */
module Templates {
  import opened Text

  /** The event kinds, one per handler (an action is a message wrapped as a CTCP ACTION). */
  datatype Kind = MessageEvent | ActionEvent | JoinEvent | PartEvent | QuitEvent | NickEvent | TopicEvent

  const MessageTemplate: string := "{datetime}  <{trigger.nick}> {message}"
  const ActionTemplate: string := "{datetime}  * {trigger.nick} {message}"
  const NickTemplate: string := "{datetime}  *** {trigger.nick} is now known as {trigger.sender}"
  const JoinTemplate: string := "{datetime}  *** {trigger.nick} has joined {trigger}"
  const PartTemplate: string := "{datetime}  *** {trigger.nick} has left {trigger}"
  const QuitTemplate: string := "{datetime}  *** {trigger.nick} has quit IRC"
  const TopicTemplate: string := "{datetime}  *** {trigger.nick} changed the topic to {trigger.args[1]}"

  function DefaultTemplate(k: Kind): string
  {
    match k
    case MessageEvent => MessageTemplate
    case ActionEvent => ActionTemplate
    case JoinEvent => JoinTemplate
    case PartEvent => PartTemplate
    case QuitEvent => QuitTemplate
    case NickEvent => NickTemplate
    case TopicEvent => TopicTemplate
  }

  /** A clock reading in ISO 8601: the whole instant, its date and its time of day. */
  datatype Stamp = Stamp(datetime: string, date: string, time: string)

  /** What the templates read from an incoming IRC line: the nick it came from, its sender
      (the channel, or the new nick of a NICK), its text (`{trigger}`), its arguments and
      whether the sender is a nick (a private conversation). */
  datatype Trigger = Trigger(nick: string, sender: string, text: string, args: seq<string>, senderIsNick: bool)

  /** The names a template is formatted with; `message` is passed by the message handler only. */
  datatype Fields = Fields(stamp: Stamp, trigger: Trigger, message: Option<string>)

  /** `str.format` of an override template: `None` when it names a field that is missing. */
  type Renderer = (string, Fields) -> Option<string>

  /** The override when it is set and non-empty (Python truthiness), the default otherwise. */
  function TemplateFor(overrides: map<Kind, string>, k: Kind): (tpl: string)
    ensures k in overrides && overrides[k] != [] ==> tpl == overrides[k]
    ensures !(k in overrides && overrides[k] != []) ==> tpl == DefaultTemplate(k)
    ensures tpl != []
  {
    if k in overrides && overrides[k] != [] then overrides[k] else DefaultTemplate(k)
  }

  /** Setting an override to `""` is leaving it unset; a non-empty override is used as it is;
      the override of one kind has no effect on the template of another. */
  lemma TemplateOverrides(overrides: map<Kind, string>, k: Kind, j: Kind, s: string)
    ensures TemplateFor(overrides[k := []], k) == TemplateFor(overrides - {k}, k) == DefaultTemplate(k)
    ensures s != [] ==> TemplateFor(overrides[k := s], k) == s
    ensures j != k ==> TemplateFor(overrides[j := s], k) == TemplateFor(overrides, k)
  {
  }

  /** `tpl.format(...)`: a default template is the concatenation it stands for; it fails only
      where it names a field the event lacks (`{message}` outside the message handler, the
      second argument of a topic change). */
  function Render(custom: Renderer, tpl: string, f: Fields): Option<string>
  {
    var dt, nick := f.stamp.datetime, f.trigger.nick;
    if tpl == MessageTemplate then
      if f.message.Some? then Some(dt + "  <" + nick + "> " + f.message.value) else None
    else if tpl == ActionTemplate then
      if f.message.Some? then Some(dt + "  * " + nick + " " + f.message.value) else None
    else if tpl == NickTemplate then Some(dt + "  *** " + nick + " is now known as " + f.trigger.sender)
    else if tpl == JoinTemplate then Some(dt + "  *** " + nick + " has joined " + f.trigger.text)
    else if tpl == PartTemplate then Some(dt + "  *** " + nick + " has left " + f.trigger.text)
    else if tpl == QuitTemplate then Some(dt + "  *** " + nick + " has quit IRC")
    else if tpl == TopicTemplate then
      if |f.trigger.args| >= 2 then Some(dt + "  *** " + nick + " changed the topic to " + f.trigger.args[1]) else None
    else custom(tpl, f)
  }

  /** `_format_template`: the rendered template followed by one newline. */
  function FormatLine(custom: Renderer, tpl: string, f: Fields): Option<string>
  {
    match Render(custom, tpl, f)
    case None => None
    case Some(text) => Some(text + "\n")
  }

  predicate NoNewline(s: string)
  {
    forall i :: 0 <= i < |s| ==> s[i] != '\n'
  }

  /** A log line: newline-terminated, with no other newline in it. */
  predicate IsOneLine(line: string)
  {
    |line| > 0 && line[|line| - 1] == '\n' && NoNewline(line[..|line| - 1])
  }

  /** None of the values a default template can insert contains a newline. */
  predicate FieldsOnOneLine(f: Fields)
  {
    && NoNewline(f.stamp.datetime) && NoNewline(f.trigger.nick) && NoNewline(f.trigger.sender)
    && NoNewline(f.trigger.text)
    && (f.message.Some? ==> NoNewline(f.message.value))
    && (|f.trigger.args| >= 2 ==> NoNewline(f.trigger.args[1]))
  }

  lemma NoNewlineConcat(a: string, b: string)
    requires NoNewline(a) && NoNewline(b)
    ensures NoNewline(a + b)
  {
  }

  lemma NoNewlineJoin5(a: string, b: string, c: string, d: string, e: string)
    requires NoNewline(a) && NoNewline(b) && NoNewline(c) && NoNewline(d) && NoNewline(e)
    ensures NoNewline(a + b + c + d + e)
  {
    NoNewlineConcat(a, b);
    NoNewlineConcat(a + b, c);
    NoNewlineConcat(a + b + c, d);
    NoNewlineConcat(a + b + c + d, e);
  }

  /** With a default template, a successful format is exactly one log line, so every event
      adds one line to a file and lines never run together. */
  lemma {:induction false} DefaultLineIsOneLine(custom: Renderer, k: Kind, f: Fields)
    requires FieldsOnOneLine(f)
    requires FormatLine(custom, DefaultTemplate(k), f).Some?
    ensures IsOneLine(FormatLine(custom, DefaultTemplate(k), f).value)
  {
    var text := Render(custom, DefaultTemplate(k), f).value;
    var dt, nick := f.stamp.datetime, f.trigger.nick;
    match k
    case MessageEvent =>
      NoNewlineJoin5(dt, "  <", nick, "> ", f.message.value);
    case ActionEvent =>
      assert ActionTemplate != MessageTemplate;
      NoNewlineJoin5(dt, "  * ", nick, " ", f.message.value);
    case NickEvent =>
      assert NickTemplate != MessageTemplate && NickTemplate != ActionTemplate;
      NoNewlineJoin5(dt, "  *** ", nick, " is now known as ", f.trigger.sender);
    case JoinEvent =>
      assert JoinTemplate != MessageTemplate && JoinTemplate != ActionTemplate && JoinTemplate != NickTemplate;
      NoNewlineJoin5(dt, "  *** ", nick, " has joined ", f.trigger.text);
    case PartEvent =>
      assert PartTemplate != MessageTemplate && PartTemplate != ActionTemplate && PartTemplate != NickTemplate;
      assert PartTemplate != JoinTemplate;
      NoNewlineJoin5(dt, "  *** ", nick, " has left ", f.trigger.text);
    case QuitEvent =>
      assert QuitTemplate != MessageTemplate && QuitTemplate != ActionTemplate && QuitTemplate != NickTemplate;
      assert QuitTemplate != JoinTemplate && QuitTemplate != PartTemplate;
      NoNewlineJoin5(dt, "  *** ", nick, " has quit IRC", "");
    case TopicEvent =>
      assert TopicTemplate != MessageTemplate && TopicTemplate != ActionTemplate && TopicTemplate != NickTemplate;
      assert TopicTemplate != JoinTemplate && TopicTemplate != PartTemplate && TopicTemplate != QuitTemplate;
      NoNewlineJoin5(dt, "  *** ", nick, " changed the topic to ", f.trigger.args[1]);
    var line := text + "\n";
    assert line[..|line| - 1] == text;
  }

  /** A default template fails to format exactly when it names a field the event lacks. */
  lemma DefaultTemplateFailures(custom: Renderer, k: Kind, f: Fields)
    ensures FormatLine(custom, DefaultTemplate(k), f).None? <==>
      || ((k == MessageEvent || k == ActionEvent) && f.message.None?)
      || (k == TopicEvent && |f.trigger.args| < 2)
  {
    assert ActionTemplate != MessageTemplate;
    assert NickTemplate != MessageTemplate && NickTemplate != ActionTemplate;
    assert JoinTemplate != MessageTemplate && JoinTemplate != ActionTemplate && JoinTemplate != NickTemplate;
    assert PartTemplate != MessageTemplate && PartTemplate != ActionTemplate && PartTemplate != NickTemplate;
    assert PartTemplate != JoinTemplate;
    assert QuitTemplate != MessageTemplate && QuitTemplate != ActionTemplate && QuitTemplate != NickTemplate;
    assert QuitTemplate != JoinTemplate && QuitTemplate != PartTemplate;
    assert TopicTemplate != MessageTemplate && TopicTemplate != ActionTemplate && TopicTemplate != NickTemplate;
    assert TopicTemplate != JoinTemplate && TopicTemplate != PartTemplate && TopicTemplate != QuitTemplate;
  }

  /** The default action line: `<datetime>  * <nick> <payload>`. */
  lemma DefaultActionLine(custom: Renderer, f: Fields)
    requires f.message.Some?
    ensures FormatLine(custom, ActionTemplate, f)
         == Some(f.stamp.datetime + "  * " + f.trigger.nick + " " + f.message.value + "\n")
  {
    assert ActionTemplate != MessageTemplate;
  }

  /** Example: nick `bob` saying `hello` at midnight UTC on 1 January 2024. */
  lemma MessageLineExample(custom: Renderer, t: Trigger)
    requires t.nick == "bob"
    ensures FormatLine(custom, MessageTemplate, Fields(Stamp("2024-01-01T00:00:00+00:00", "2024-01-01", "00:00:00"), t, Some("hello")))
         == Some("2024-01-01T00:00:00+00:00  <bob> hello\n")
  {
    var dt := "2024-01-01T00:00:00+00:00";
    assert dt + "  <" + "bob" + "> " + "hello" + "\n" == "2024-01-01T00:00:00+00:00  <bob> hello\n";
  }

  /** Position of the first `c` in `s` (or `|s|` when there is none). */
  function Find(s: string, c: char): nat
  {
    if s == [] || s[0] == c then 0 else 1 + Find(s[1..], c)
  }

  lemma {:induction false} FindAfter(n: string, c: char, rest: string)
    requires c !in n
    ensures Find(n + [c] + rest, c) == |n|
  {
    if n != [] {
      assert (n + [c] + rest)[1..] == n[1..] + [c] + rest;
      FindAfter(n[1..], c, rest);
    }
  }

  /** A message line can be read back: for one timestamp, the line determines the nick and the
      message, as long as the nick holds no `>` (IRC nicks never do). */
  lemma MessageLineDeterminesFields(custom: Renderer, f1: Fields, f2: Fields)
    requires f1.stamp.datetime == f2.stamp.datetime
    requires f1.message.Some? && f2.message.Some?
    requires '>' !in f1.trigger.nick && '>' !in f2.trigger.nick
    requires FormatLine(custom, MessageTemplate, f1) == FormatLine(custom, MessageTemplate, f2)
    ensures f1.trigger.nick == f2.trigger.nick && f1.message == f2.message
  {
    var n1, n2 := f1.trigger.nick, f2.trigger.nick;
    var m1, m2 := f1.message.value, f2.message.value;
    var head := f1.stamp.datetime + "  <";
    assert FormatLine(custom, MessageTemplate, f1) == Some(head + n1 + "> " + m1 + "\n");
    assert FormatLine(custom, MessageTemplate, f2) == Some(head + n2 + "> " + m2 + "\n");
    SplitAtMarker(head, n1, m1, n2, m2);
  }

  /** The first `>` after a common head ends the nick, and the rest before the newline is the
      message. */
  lemma SplitAtMarker(head: string, n1: string, m1: string, n2: string, m2: string)
    requires '>' !in n1 && '>' !in n2
    requires head + n1 + "> " + m1 + "\n" == head + n2 + "> " + m2 + "\n"
    ensures n1 == n2 && m1 == m2
  {
    var l1, l2 := head + n1 + "> " + m1 + "\n", head + n2 + "> " + m2 + "\n";
    var r1, r2 := n1 + "> " + m1 + "\n", n2 + "> " + m2 + "\n";
    assert l1 == head + r1 && l2 == head + r2;
    assert r1 == l1[|head|..] && r2 == l2[|head|..];
    assert r1 == n1 + ['>'] + (" " + m1 + "\n") && r2 == n2 + ['>'] + (" " + m2 + "\n");
    FindAfter(n1, '>', " " + m1 + "\n");
    FindAfter(n2, '>', " " + m2 + "\n");
    assert n1 == r1[..|n1|] && n2 == r2[..|n2|];
    assert m1 == r1[|n1| + 2..|r1| - 1] && m2 == r2[|n2| + 2..|r2| - 1];
  }
}
