/**
 * The text the handler assembles for an admitted delivery: the sanitised
 * timestamp, the name of the file the event is written to, and the shell
 * command sent to the instance.
 */
module Render {
  import opened Js

  // ---------------------------------------------------------------------
  // Timestamp: `iso.replace(/:/g, '-').replace(/\.\d{3}/, '')`
  // ---------------------------------------------------------------------

  /** `replace(/:/g, '-')`: every ':' becomes '-'; every other character
      stays where it was. */
  function ReplaceColons(s: string): (r: string)
    ensures |r| == |s|
    ensures ':' !in r
    ensures forall i :: 0 <= i < |s| && s[i] == ':' ==> r[i] == '-'
    ensures forall i :: 0 <= i < |s| && s[i] != ':' ==> r[i] == s[i]
  {
    seq(|s|, i requires 0 <= i < |s| => if s[i] == ':' then '-' else s[i])
  }

  /** `\d` of a JavaScript regular expression without the `u` flag. */
  predicate IsDigit(c: char)
  {
    '0' <= c <= '9'
  }

  /** `\.\d{3}` matches at position i of s. */
  predicate MillisAt(s: string, i: int)
  {
    0 <= i && i + 4 <= |s| && s[i] == '.' && IsDigit(s[i + 1]) && IsDigit(s[i + 2]) && IsDigit(s[i + 3])
  }

  /** The leftmost position where `\.\d{3}` matches, or |s| when none does. */
  function FirstMillis(s: string): (k: nat)
    ensures k <= |s|
    ensures k < |s| ==> MillisAt(s, k)
    ensures forall i :: 0 <= i < k ==> !MillisAt(s, i)
  {
    if |s| < 4 then |s|
    else if MillisAt(s, 0) then 0
    else
      assert forall i :: 1 <= i < |s| ==> (MillisAt(s, i) <==> MillisAt(s[1..], i - 1));
      1 + FirstMillis(s[1..])
  }

  /** `replace(/\.\d{3}/, '')`: a non-global regular expression removes the
      leftmost match only. */
  function RemoveFirstMillis(s: string): (r: string)
    ensures FirstMillis(s) == |s| ==> r == s
    ensures FirstMillis(s) < |s| ==> |r| == |s| - 4
    ensures r[..FirstMillis(s)] == s[..FirstMillis(s)]
    ensures FirstMillis(s) < |s| ==> r[FirstMillis(s)..] == s[FirstMillis(s) + 4..]
  {
    var k := FirstMillis(s);
    if k < |s| then s[..k] + s[k + 4..] else s
  }

  /** The timestamp as it appears in the file name: no ':' is left, and no
      '_' appears that was not there before. */
  function Sanitise(iso: string): (r: string)
    ensures ':' !in r
    ensures '_' !in iso ==> '_' !in r
  {
    var colonFree := ReplaceColons(iso);
    assert ':' !in colonFree;
    assert '_' !in iso ==> '_' !in colonFree;
    RemoveFirstMillis(colonFree)
  }

  lemma ReplaceColonsKeepsMillis(s: string, i: int)
    ensures MillisAt(ReplaceColons(s), i) <==> MillisAt(s, i)
  {
    var r := ReplaceColons(s);
    if 0 <= i && i + 4 <= |s| {
      assert r[i] == '.' <==> s[i] == '.';
      assert IsDigit(r[i + 1]) <==> IsDigit(s[i + 1]);
      assert IsDigit(r[i + 2]) <==> IsDigit(s[i + 2]);
      assert IsDigit(r[i + 3]) <==> IsDigit(s[i + 3]);
    }
  }

  /** Two texts with matches at the same positions have the same leftmost one. */
  lemma FirstMillisSame(s: string, t: string)
    requires |s| == |t|
    requires forall i :: MillisAt(s, i) <==> MillisAt(t, i)
    ensures FirstMillis(s) == FirstMillis(t)
  {
  }

  /** Replacing colons commutes with cutting the text at `cut`. */
  lemma ReplaceColonsSplit(s: string, cut: int)
    requires 0 <= cut <= |s|
    ensures ReplaceColons(s)[..cut] == ReplaceColons(s[..cut])
    ensures ReplaceColons(s)[cut..] == ReplaceColons(s[cut..])
  {
    var r := ReplaceColons(s);
    var front, back := ReplaceColons(s[..cut]), ReplaceColons(s[cut..]);
    forall i | 0 <= i < cut ensures r[..cut][i] == front[i] {
      assert s[..cut][i] == s[i];
    }
    forall i | 0 <= i < |s| - cut ensures r[cut..][i] == back[i] {
      assert s[cut..][i] == s[cut + i];
    }
  }

  /** Replacing colons moves no match of `\.\d{3}`. */
  lemma ReplaceColonsSameMatch(iso: string)
    ensures FirstMillis(ReplaceColons(iso)) == FirstMillis(iso)
  {
    var colonFree := ReplaceColons(iso);
    forall i ensures MillisAt(colonFree, i) <==> MillisAt(iso, i) {
      ReplaceColonsKeepsMillis(iso, i);
    }
    FirstMillisSame(colonFree, iso);
  }

  /** Sanitising, read off the original text: the leftmost `.ddd` of `iso`
      is dropped and every ':' on either side of it becomes '-'. */
  lemma SanitiseDropsFirstMillis(iso: string)
    requires FirstMillis(iso) < |iso|
    ensures Sanitise(iso) == ReplaceColons(iso[..FirstMillis(iso)]) + ReplaceColons(iso[FirstMillis(iso) + 4..])
  {
    var colonFree := ReplaceColons(iso);
    var k := FirstMillis(iso);
    ReplaceColonsSameMatch(iso);
    assert MillisAt(iso, k);
    ReplaceColonsSplit(iso, k);
    ReplaceColonsSplit(iso, k + 4);
    assert Sanitise(iso) == colonFree[..k] + colonFree[k + 4..];
  }

  /** Without a `.ddd` anywhere, sanitising only replaces the colons. */
  lemma SanitiseWithoutMillis(iso: string)
    requires FirstMillis(iso) == |iso|
    ensures Sanitise(iso) == ReplaceColons(iso)
  {
    ReplaceColonsSameMatch(iso);
  }

  // ---------------------------------------------------------------------
  // File name: `timestamp + '_' + repository + '_' + eventType + '.json'`
  // ---------------------------------------------------------------------

  const Extension := ".json"

  /** The timestamp and an underscore lead; an underscore, the event type
      and the extension close; `FileNameRoundTrip` shows the parts can be
      read back. */
  function FileName(timestamp: string, repoName: string, eventType: string): (f: string)
    ensures |f| == |timestamp| + |repoName| + |eventType| + 2 + |Extension|
    ensures StartsWith(f, timestamp + "_")
    ensures EndsWith(f, "_" + eventType + Extension)
  {
    timestamp + "_" + repoName + "_" + eventType + Extension
  }

  /** The leftmost position of c in s, or |s| when c does not occur. */
  function FirstIndex(s: string, c: char): (k: nat)
    ensures k <= |s|
    ensures k < |s| ==> s[k] == c
    ensures forall i :: 0 <= i < k ==> s[i] != c
  {
    if s == [] || s[0] == c then 0 else 1 + FirstIndex(s[1..], c)
  }

  /** The rightmost position of c in s, or -1 when c does not occur. */
  function LastIndex(s: string, c: char): (k: int)
    ensures -1 <= k < |s|
    ensures 0 <= k ==> s[k] == c
    ensures forall i :: k < i < |s| ==> s[i] != c
  {
    if s == [] then -1
    else if s[|s| - 1] == c then |s| - 1
    else LastIndex(s[..|s| - 1], c)
  }

  /** Reads a file name back as (timestamp, repository, event type): the
      timestamp ends at the first '_', the event type starts after the last. */
  function SplitFileName(f: string): Option<(string, string, string)>
  {
    if |f| < |Extension| || f[|f| - |Extension|..] != Extension then None
    else
      var stem := f[..|f| - |Extension|];
      var i := FirstIndex(stem, '_');
      var j := LastIndex(stem, '_');
      if i < j then Some((stem[..i], stem[i + 1..j], stem[j + 1..])) else None
  }

  /** The first `c` of `a + [c] + b` is the one after `a` when `a` has none. */
  lemma {:induction false} FirstIndexAfter(a: string, c: char, b: string)
    requires c !in a
    ensures FirstIndex(a + [c] + b, c) == |a|
  {
    var s := a + [c] + b;
    if a != [] {
      assert s[1..] == a[1..] + [c] + b;
      FirstIndexAfter(a[1..], c, b);
    }
  }

  /** The last `c` of `a + [c] + b` is the one before `b` when `b` has none. */
  lemma {:induction false} LastIndexBefore(a: string, c: char, b: string)
    requires c !in b
    ensures LastIndex(a + [c] + b, c) == |a|
  {
    var s := a + [c] + b;
    if b != [] {
      assert s[..|s| - 1] == a + [c] + b[..|b| - 1];
      LastIndexBefore(a, c, b[..|b| - 1]);
    }
  }

  /** The file name determines its parts whenever the timestamp and the event
      type hold no '_' (the repository name may). */
  lemma {:induction false} FileNameRoundTrip(timestamp: string, repoName: string, eventType: string)
    requires '_' !in timestamp && '_' !in eventType
    ensures SplitFileName(FileName(timestamp, repoName, eventType)) == Some((timestamp, repoName, eventType))
  {
    var stem := timestamp + "_" + repoName + "_" + eventType;
    var f := FileName(timestamp, repoName, eventType);
    assert f == stem + Extension;
    assert f[|f| - |Extension|..] == Extension;
    assert f[..|f| - |Extension|] == stem;
    var second := |timestamp| + 1 + |repoName|;
    assert stem == timestamp + ['_'] + (repoName + "_" + eventType);
    FirstIndexAfter(timestamp, '_', repoName + "_" + eventType);
    assert stem == (timestamp + "_" + repoName) + ['_'] + eventType;
    LastIndexBefore(timestamp + "_" + repoName, '_', eventType);
    assert stem[..|timestamp|] == timestamp;
    assert stem[|timestamp| + 1..second] == repoName;
    assert stem[second + 1..] == eventType;
  }

  // ---------------------------------------------------------------------
  // Shell command
  // ---------------------------------------------------------------------

  const EchoLead := "mkdir events && echo "

  /** `mkdir events && echo '<payload>' > events/'<file>'` */
  function PrepCommand(payload: string, fileName: string): string
  {
    "mkdir events && echo '" + payload + "' > events/'" + fileName + "'"
  }

  /** `./bin/webhook.sh events/'<file>'` */
  function ScriptCall(fileName: string): string
  {
    "./bin/webhook.sh events/'" + fileName + "'"
  }

  /** The payload sits verbatim between the quote that opens echo's argument
      and the quote after it; echo's output is redirected to `events/'<file>'`,
      and the command ends by running the script on that same file (the
      whole layout, redirect included, is `CommandShape`). Nothing is
      escaped. */
  function BaseCommand(payload: string, fileName: string): (cmd: string)
    ensures |cmd| > |EchoLead| + 1 + |payload|
    ensures cmd[..|EchoLead| + 1] == EchoLead + "'"
    ensures cmd[|EchoLead| + 1..|EchoLead| + 1 + |payload|] == payload
    ensures cmd[|EchoLead| + 1 + |payload|] == '\''
    ensures EndsWith(cmd, ScriptCall(fileName))
  {
    var cmd := PrepCommand(payload, fileName) + " && " + ScriptCall(fileName);
    assert cmd == EchoLead + "'" + payload + "'" + (" > events/'" + fileName + "' && " + ScriptCall(fileName));
    cmd
  }

  predicate StartsWith(s: string, prefix: string)
  {
    |prefix| <= |s| && s[..|prefix|] == prefix
  }

  predicate EndsWith(s: string, suffix: string)
  {
    |suffix| <= |s| && s[|s| - |suffix|..] == suffix
  }

  /** `shouldShutdownInstance ? base_cmd + " true" : base_cmd` */
  function RenderCommand(payload: string, fileName: string, shutdown: bool): (cmd: string)
    ensures shutdown ==> cmd == BaseCommand(payload, fileName) + " true"
    ensures !shutdown ==> cmd == BaseCommand(payload, fileName)
    ensures EndsWith(cmd, " true") <==> shutdown
  {
    var base := BaseCommand(payload, fileName);
    assert base[|base| - 1] == '\'' by {
      assert EndsWith(base, ScriptCall(fileName));
      assert ScriptCall(fileName)[|ScriptCall(fileName)| - 1] == '\'';
    }
    if shutdown then base + " true" else base
  }

  // ---------------------------------------------------------------------
  // How a shell reads the command: the first single-quoted span
  // ---------------------------------------------------------------------

  /** The text before the first single quote. */
  function UpToQuote(s: string): (r: string)
    ensures r <= s
    ensures '\'' !in r
    ensures |r| < |s| ==> s[|r|] == '\''
  {
    if s == [] || s[0] == '\'' then [] else [s[0]] + UpToQuote(s[1..])
  }

  /** The text after the first single quote (empty when there is none). */
  function AfterQuote(s: string): string
  {
    if s == [] then []
    else if s[0] == '\'' then s[1..]
    else AfterQuote(s[1..])
  }

  /** The text between the first and the second single quote of a command:
      the argument `echo` receives when that argument is one quoted word. */
  function FirstQuoted(cmd: string): string
  {
    UpToQuote(AfterQuote(cmd))
  }

  lemma {:induction false} AfterQuoteSkips(a: string, b: string)
    requires '\'' !in a
    ensures AfterQuote(a + "'" + b) == b
  {
    if a == [] {
      assert a + "'" + b == "'" + b;
    } else {
      assert (a + "'" + b)[1..] == a[1..] + "'" + b;
      AfterQuoteSkips(a[1..], b);
    }
  }

  lemma {:induction false} UpToQuoteStops(a: string, b: string)
    requires '\'' !in a
    ensures UpToQuote(a + "'" + b) == a
  {
    if a == [] {
      assert a + "'" + b == "'" + b;
    } else {
      assert (a + "'" + b)[1..] == a[1..] + "'" + b;
      UpToQuoteStops(a[1..], b);
    }
  }

  /** Everything after the closing quote of echo's argument. */
  function CommandTail(fileName: string, shutdown: bool): string
  {
    " > events/'" + fileName + "' && " + ScriptCall(fileName) + (if shutdown then " true" else "")
  }

  lemma CommandShape(payload: string, fileName: string, shutdown: bool)
    ensures RenderCommand(payload, fileName, shutdown) == EchoLead + "'" + (payload + "'" + CommandTail(fileName, shutdown))
  {
    var base := PrepCommand(payload, fileName) + " && " + ScriptCall(fileName);
    assert base == EchoLead + "'" + (payload + "'" + CommandTail(fileName, false));
  }

  /** The first single-quoted word of the command is the payload exactly
      when the payload holds no single quote; a quote inside it ends the
      quoted word early and the rest of the payload is read as shell syntax. */
  lemma QuotedPayloadIff(payload: string, fileName: string, shutdown: bool)
    ensures FirstQuoted(RenderCommand(payload, fileName, shutdown)) == payload <==> '\'' !in payload
  {
    var tail := CommandTail(fileName, shutdown);
    CommandShape(payload, fileName, shutdown);
    assert '\'' !in EchoLead;
    AfterQuoteSkips(EchoLead, payload + "'" + tail);
    if '\'' !in payload {
      UpToQuoteStops(payload, tail);
    }
  }
}
