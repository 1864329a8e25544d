/**
 * The path resolver (`get_fpath`): a channel name becomes a log file name by dropping its
 * leading `#` characters, writing `__` for every character that is unsafe in a file name,
 * folding case as the IRC server does, and appending the day (when logs are split by day)
 * and the `.log` extension; the file name is then joined to the configured directory.
 *
 * Case folding is foreign code (the bot's identifier type); it is the parameter `fold`.
 */
module Paths {
  import opened Text

  type Path = string

  /** The log directory and whether logs are split into one file per day. */
  datatype PathConfig = PathConfig(dir: string, byDay: bool)

  /** The character class `[\/?%*:|"<>. ]` of file-name-unsafe characters. */
  predicate IsBadChar(c: char)
  {
    c == '/' || c == '?' || c == '%' || c == '*' || c == ':' || c == '|'
    || c == '"' || c == '<' || c == '>' || c == '.' || c == ' '
  }

  /** What every unsafe character is replaced by. */
  const Substitute: string := "__"

  predicate NoBadChars(s: string)
  {
    forall i :: 0 <= i < |s| ==> !IsBadChar(s[i])
  }

  /** Number of unsafe characters in `s`. */
  function CountBad(s: string): nat
  {
    if s == [] then 0 else (if IsBadChar(s[0]) then 1 else 0) + CountBad(s[1..])
  }

  /** `str.lstrip("#")`: every leading `#` goes, and nothing else. */
  function StripHashes(s: string): (r: string)
    ensures |r| <= |s| && r == s[|s| - |r|..]
    ensures forall i :: 0 <= i < |s| - |r| ==> s[i] == '#'
    ensures r == [] || r[0] != '#'
  {
    if s != [] && s[0] == '#' then StripHashes(s[1..]) else s
  }

  /** The regular-expression substitution of `__` for every unsafe character. */
  function Sanitize(s: string): (r: string)
    ensures |r| == |s| + CountBad(s)
    ensures NoBadChars(r)
  {
    if s == [] then []
    else (if IsBadChar(s[0]) then Substitute else [s[0]]) + Sanitize(s[1..])
  }

  /** `channel or trigger.sender`: an absent (empty) channel argument means the event's sender. */
  function ChannelOrSender(channel: string, sender: string): (r: string)
    ensures channel != [] ==> r == channel
    ensures channel == [] ==> r == sender
  {
    if channel != [] then channel else sender
  }

  /** The channel part of the file name. */
  function BaseName(fold: string -> string, channel: string): string
  {
    fold(Sanitize(StripHashes(channel)))
  }

  /** `<name>-<date>.log` when split by day, `<name>.log` otherwise. */
  function FileName(name: string, byDay: bool, date: string): string
  {
    if byDay then name + "-" + date + ".log" else name + ".log"
  }

  /** What `JoinPath` puts in front of a relative file name. */
  function DirPrefix(dir: string): string
  {
    if dir == [] || dir[|dir| - 1] == '/' then dir else dir + "/"
  }

  /** `os.path.join(dir, name)` on a POSIX system. */
  function JoinPath(dir: string, name: string): Path
  {
    if name != [] && name[0] == '/' then name else DirPrefix(dir) + name
  }

  /** `get_fpath`: the log file for `channel` (or the sender when it is empty) on `date`. */
  function LogPath(pc: PathConfig, fold: string -> string, channel: string, sender: string, date: string): Path
  {
    JoinPath(pc.dir, FileName(BaseName(fold, ChannelOrSender(channel, sender)), pc.byDay, date))
  }

  /** An event without a channel argument is logged where the event's sender, named as the
      channel, is logged; given a channel, the sender plays no part. */
  lemma AbsentChannelMeansSender(pc: PathConfig, fold: string -> string, channel: string, sender: string, other: string, date: string)
    ensures LogPath(pc, fold, [], sender, date) == LogPath(pc, fold, sender, sender, date)
    ensures channel != [] ==> LogPath(pc, fold, channel, sender, date) == LogPath(pc, fold, channel, other, date)
  {
  }

  // ---------------------------------------------------------------------------
  // Sanitising

  lemma {:induction false} SanitizeAppend(a: string, b: string)
    ensures Sanitize(a + b) == Sanitize(a) + Sanitize(b)
  {
    if a != [] {
      assert (a + b)[1..] == a[1..] + b;
      SanitizeAppend(a[1..], b);
    } else {
      assert a + b == b;
    }
  }

  /** A name without unsafe characters is left as it is, so sanitising twice is sanitising once. */
  lemma {:induction false} SanitizeKeepsSafeNames(s: string)
    ensures NoBadChars(s) ==> Sanitize(s) == s
    ensures Sanitize(Sanitize(s)) == Sanitize(s)
  {
    if s != [] {
      SanitizeKeepsSafeNames(s[1..]);
    }
    if NoBadChars(Sanitize(s)) {
      SanitizeKeepsSafeNames2(Sanitize(s));
    }
  }

  lemma {:induction false} SanitizeKeepsSafeNames2(s: string)
    requires NoBadChars(s)
    ensures Sanitize(s) == s
  {
    if s != [] {
      SanitizeKeepsSafeNames2(s[1..]);
    }
  }

  /** Every unsafe character is replaced by the same thing, so names that differ only in which
      unsafe character stands at a place sanitise alike. */
  function BadToSlash(s: string): (r: string)
    ensures |r| == |s|
  {
    if s == [] then [] else [if IsBadChar(s[0]) then '/' else s[0]] + BadToSlash(s[1..])
  }

  lemma {:induction false} SanitizeIgnoresWhichBadChar(a: string, b: string)
    requires BadToSlash(a) == BadToSlash(b)
    ensures Sanitize(a) == Sanitize(b)
  {
    if a != [] {
      assert BadToSlash(a)[0] == BadToSlash(b)[0];
      assert BadToSlash(a)[1..] == BadToSlash(a[1..]);
      assert BadToSlash(b)[1..] == BadToSlash(b[1..]);
      SanitizeIgnoresWhichBadChar(a[1..], b[1..]);
    }
  }

  // ---------------------------------------------------------------------------
  // Leading `#` characters

  lemma {:induction false} StripHashesAfterHashes(n: nat, s: string)
    ensures StripHashes(Hashes(n) + s) == StripHashes(s)
  {
    if n > 0 {
      assert (Hashes(n) + s)[1..] == Hashes(n - 1) + s;
      StripHashesAfterHashes(n - 1, s);
    } else {
      assert Hashes(0) + s == s;
    }
  }

  /** A channel name gets the same file however many `#` it starts with; only a name made of
      nothing but `#` differs from the empty argument, which falls back to the sender. */
  lemma LeadingHashesIgnored(pc: PathConfig, fold: string -> string, n: nat, channel: string, sender: string, date: string)
    requires channel != []
    ensures LogPath(pc, fold, Hashes(n) + channel, sender, date) == LogPath(pc, fold, channel, sender, date)
  {
    StripHashesAfterHashes(n, channel);
  }

  // ---------------------------------------------------------------------------
  // Case

  /** A fold that does not distinguish ASCII capitals from small letters. */
  ghost predicate FoldsAsciiCase(fold: string -> string)
  {
    forall s :: fold(AsciiLower(s)) == fold(s)
  }

  lemma {:induction false} StripHashesAsciiLower(s: string)
    ensures StripHashes(AsciiLower(s)) == AsciiLower(StripHashes(s))
  {
    if s != [] {
      assert AsciiLower(s)[1..] == AsciiLower(s[1..]);
      StripHashesAsciiLower(s[1..]);
    }
  }

  lemma {:induction false} SanitizeAsciiLower(s: string)
    ensures Sanitize(AsciiLower(s)) == AsciiLower(Sanitize(s))
  {
    if s != [] {
      var head := if IsBadChar(s[0]) then Substitute else [s[0]];
      assert AsciiLower(s)[1..] == AsciiLower(s[1..]);
      SanitizeAsciiLower(s[1..]);
      AsciiLowerAppend(head, Sanitize(s[1..]));
    }
  }

  lemma {:induction false} AsciiLowerAppend(a: string, b: string)
    ensures AsciiLower(a + b) == AsciiLower(a) + AsciiLower(b)
  {
    if a != [] {
      assert (a + b)[1..] == a[1..] + b;
      AsciiLowerAppend(a[1..], b);
    } else {
      assert a + b == b;
    }
  }

  /** Under a fold that ignores ASCII case, channel names that differ only in ASCII case share
      their log file. */
  lemma AsciiCaseIgnored(pc: PathConfig, fold: string -> string, a: string, b: string, sender: string, date: string)
    requires FoldsAsciiCase(fold)
    requires AsciiLower(a) == AsciiLower(b)
    ensures LogPath(pc, fold, a, sender, date) == LogPath(pc, fold, b, sender, date)
  {
    assert |a| == |b|;
    StripHashesAsciiLower(a);
    StripHashesAsciiLower(b);
    SanitizeAsciiLower(StripHashes(a));
    SanitizeAsciiLower(StripHashes(b));
    assert fold(Sanitize(StripHashes(a))) == fold(AsciiLower(Sanitize(StripHashes(a))));
    assert fold(Sanitize(StripHashes(b))) == fold(AsciiLower(Sanitize(StripHashes(b))));
  }

  // ---------------------------------------------------------------------------
  // Where the file lands

  predicate NoSlashOrDot(s: string)
  {
    forall i :: 0 <= i < |s| ==> s[i] != '/' && s[i] != '.'
  }

  /** A fold that brings in no `/` and no `.` (RFC 1459 folding is one, by
      `Rfc1459KeepsSlashAndDotOut`). */
  ghost predicate FoldKeepsSlashAndDotOut(fold: string -> string)
  {
    forall s :: NoSlashOrDot(s) ==> NoSlashOrDot(fold(s))
  }

  /** The file sits directly in the log directory: the path is the directory, a separator when
      the directory lacks one, then the channel part (free of `/` and `.`), then the day and
      `.log` or just `.log`. */
  lemma FileInLogDirectory(pc: PathConfig, fold: string -> string, channel: string, sender: string, date: string)
    requires FoldKeepsSlashAndDotOut(fold)
    requires NoSlashOrDot(date)
    ensures var name := BaseName(fold, ChannelOrSender(channel, sender));
      && NoSlashOrDot(name)
      && LogPath(pc, fold, channel, sender, date)
         == DirPrefix(pc.dir) + name + (if pc.byDay then "-" + date + ".log" else ".log")
  {
    var name := BaseName(fold, ChannelOrSender(channel, sender));
    var clean := Sanitize(StripHashes(ChannelOrSender(channel, sender)));
    assert NoSlashOrDot(clean) by {
      forall i | 0 <= i < |clean| ensures clean[i] != '/' && clean[i] != '.' {
        assert !IsBadChar(clean[i]);
      }
    }
  }

  /** Split by day, two different days give two different files; not split, the day is ignored. */
  lemma DaysSplitFiles(pc: PathConfig, fold: string -> string, channel: string, sender: string, d1: string, d2: string)
    ensures pc.byDay ==> (LogPath(pc, fold, channel, sender, d1) == LogPath(pc, fold, channel, sender, d2) <==> d1 == d2)
    ensures !pc.byDay ==> LogPath(pc, fold, channel, sender, d1) == LogPath(pc, fold, channel, sender, d2)
  {
    if pc.byDay && LogPath(pc, fold, channel, sender, d1) == LogPath(pc, fold, channel, sender, d2) {
      var name := BaseName(fold, ChannelOrSender(channel, sender));
      var f1, f2 := FileName(name, true, d1), FileName(name, true, d2);
      if name != [] {
        assert f1[0] == name[0] && f2[0] == name[0];
      } else {
        assert f1[0] == '-' && f2[0] == '-';
      }
      JoinPathInjective(pc.dir, f1, f2);
      var k := |name| + 1;
      assert f1 == (name + "-") + d1 + ".log" && f2 == (name + "-") + d2 + ".log";
      assert |d1| == |d2|;
      assert d1 == f1[k..k + |d1|] && d2 == f2[k..k + |d2|];
    }
  }

  lemma JoinPathInjective(dir: string, a: string, b: string)
    requires JoinPath(dir, a) == JoinPath(dir, b)
    requires (a != [] && a[0] == '/') == (b != [] && b[0] == '/')
    ensures a == b
  {
    if a == [] || a[0] != '/' {
      var p := DirPrefix(dir);
      assert JoinPath(dir, a) == p + a && JoinPath(dir, b) == p + b;
      assert a == (p + a)[|p|..] && b == (p + b)[|p|..];
    }
  }

  // ---------------------------------------------------------------------------
  // Case folding after substitution

  /** Case folding of section 2.2 of RFC 1459: ASCII capitals to small letters, and `[`, `]`,
      `\` to `{`, `}`, `|`. One instance of the folding parameter. */
  function Rfc1459LowerChar(c: char): char
  {
    if 'A' <= c <= 'Z' then (c as int + 32) as char
    else if c == '[' then '{'
    else if c == ']' then '}'
    else if c == '\\' then '|'
    else c
  }

  function Rfc1459Lower(s: string): (r: string)
    ensures |r| == |s|
  {
    if s == [] then [] else [Rfc1459LowerChar(s[0])] + Rfc1459Lower(s[1..])
  }

  /** RFC 1459 folding ignores ASCII case, so it meets the hypothesis of `AsciiCaseIgnored`. */
  lemma {:induction false} Rfc1459FoldsAsciiCase(s: string)
    ensures Rfc1459Lower(AsciiLower(s)) == Rfc1459Lower(s)
  {
    if s != [] {
      assert AsciiLower(s)[1..] == AsciiLower(s[1..]);
      Rfc1459FoldsAsciiCase(s[1..]);
    }
  }

  lemma {:induction false} Rfc1459LowerAt(s: string, i: nat)
    requires i < |s|
    ensures Rfc1459Lower(s)[i] == Rfc1459LowerChar(s[i])
  {
    if i > 0 {
      Rfc1459LowerAt(s[1..], i - 1);
    }
  }

  /** RFC 1459 folding maps no character to `/` or `.`, so it meets the hypothesis of
      `FileInLogDirectory`. */
  lemma Rfc1459KeepsSlashAndDotOut()
    ensures FoldKeepsSlashAndDotOut(Rfc1459Lower)
  {
    forall s | NoSlashOrDot(s) ensures NoSlashOrDot(Rfc1459Lower(s)) {
      Rfc1459LowerKeeps(s);
    }
  }

  lemma Rfc1459LowerKeeps(s: string)
    requires NoSlashOrDot(s)
    ensures NoSlashOrDot(Rfc1459Lower(s))
  {
    var r := Rfc1459Lower(s);
    forall i | 0 <= i < |r| ensures r[i] != '/' && r[i] != '.' {
      Rfc1459LowerAt(s, i);
      Rfc1459LowerCharKeeps(s[i]);
    }
  }

  lemma Rfc1459LowerCharKeeps(c: char)
    requires c != '/' && c != '.'
    ensures Rfc1459LowerChar(c) != '/' && Rfc1459LowerChar(c) != '.'
  {
  }

  /** Folding runs after substitution, so a `\` in a channel name reaches the file name as the
      unsafe `|`: the absence of unsafe characters holds before folding only. */
  lemma FoldingReintroducesBadChar()
    ensures BaseName(Rfc1459Lower, "#a\\b") == "a|b"
    ensures !NoBadChars(BaseName(Rfc1459Lower, "#a\\b"))
  {
    assert StripHashes("#a\\b") == "a\\b";
    assert Sanitize("a\\b") == "a\\b";
    assert Rfc1459Lower("a\\b") == "a|b";
    assert IsBadChar("a|b"[1]);
  }

  /** Distinct channels can share a file: unsafe characters all become `__`, which also occurs
      literally. */
  lemma DistinctChannelsCollide(pc: PathConfig, fold: string -> string, sender: string, date: string)
    ensures LogPath(pc, fold, "#a.b", sender, date) == LogPath(pc, fold, "#a b", sender, date)
    ensures LogPath(pc, fold, "#a.b", sender, date) == LogPath(pc, fold, "##a__b", sender, date)
  {
    DotChannelBase(fold);
    SpaceChannelBase(fold);
    UnderscoreChannelBase(fold);
    SameBaseName(pc, fold, "#a.b", "#a b", sender, date);
    SameBaseName(pc, fold, "#a.b", "##a__b", sender, date);
  }

  lemma DotChannelBase(fold: string -> string)
    ensures BaseName(fold, "#a.b") == fold("a__b")
  {
    StripOneHash("#a.b", "a.b");
    NoLeadingHash("a.b");
    SanitizesTo("a.b", "a__b");
  }

  lemma SpaceChannelBase(fold: string -> string)
    ensures BaseName(fold, "#a b") == fold("a__b")
  {
    StripOneHash("#a b", "a b");
    NoLeadingHash("a b");
    SanitizesTo("a b", "a__b");
  }

  lemma UnderscoreChannelBase(fold: string -> string)
    ensures BaseName(fold, "##a__b") == fold("a__b")
  {
    UnderscoreChannelStrip();
    SanitizesTo("a__b", "a__b");
  }

  lemma UnderscoreChannelStrip()
    ensures StripHashes("##a__b") == "a__b"
  {
    assert "##a__b" == "##" + "a__b";
    StripTwoHashes("a__b");
  }

  lemma StripTwoHashes(r: string)
    requires r != [] && r[0] != '#'
    ensures StripHashes("##" + r) == r
  {
    assert ("##" + r)[1..] == "#" + r;
    assert ("#" + r)[1..] == r;
  }

  lemma NoLeadingHash(s: string)
    requires s != [] && s[0] != '#'
    ensures StripHashes(s) == s
  {
  }

  lemma StripOneHash(c: string, r: string)
    requires c == "#" + r
    ensures StripHashes(c) == StripHashes(r)
  {
    assert c[1..] == r;
  }

  lemma SameBaseName(pc: PathConfig, fold: string -> string, c1: string, c2: string, sender: string, date: string)
    requires c1 != [] && c2 != [] && BaseName(fold, c1) == BaseName(fold, c2)
    ensures LogPath(pc, fold, c1, sender, date) == LogPath(pc, fold, c2, sender, date)
  {
  }

  lemma SanitizesTo(s: string, r: string)
    requires s in {"a.b", "a b", "a__b"} && r == "a__b"
    ensures Sanitize(s) == r
  {
    assert s == [s[0]] + [s[1]] + s[2..];
    SanitizeAppend([s[0]] + [s[1]], s[2..]);
    SanitizeAppend([s[0]], [s[1]]);
    if s == "a__b" {
      assert s[2..] == "_b";
      SanitizeKeepsSafeNames2("_b");
    } else {
      assert s[2..] == "b";
    }
  }
}
