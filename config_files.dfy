/**
 * The rewrites the profile stage applies to configuration files of the
 * staged root filesystem: /etc/hosts and the SSID of hostapd.conf.
 */
module ConfigFiles {
  import opened Text

  // ---------------------------------------------------------------------
  // file_hosts_update

  /** What /etc/hosts holds after the update, whatever it held before. */
  function HostsText(hostname: string): (text: string)
  {
    "127.0.0.1    localhost" + "\n" + "127.0.1.1    " + hostname + "\n"
  }

  /** The hosts file has exactly two lines: localhost on 127.0.0.1 and the
      hostname on 127.0.1.1. */
  lemma HostsLines(hostname: string)
    requires NoNewline(hostname)
    ensures Lines(HostsText(hostname)) == ["127.0.0.1    localhost\n", "127.0.1.1    " + hostname + "\n"]
  {
    var ls := ["127.0.0.1    localhost\n", "127.0.1.1    " + hostname + "\n"];
    assert Join(ls) == HostsText(hostname) by {
      assert Join(ls[1..]) == ls[1] + Join([]);
    }
    var second := ls[1];
    assert second[..|second| - 1] == "127.0.1.1    " + hostname;
    assert IsLine(ls[0]) && IsLine(second);
    JoinLines(ls);
  }

  // ---------------------------------------------------------------------
  // file_hostapdconf_update

  function SsidLine(hostname: string): string {
    "ssid=" + hostname + "\n"
  }

  /** The lines the rewrite drops: every line that starts with "ssid",
      which includes "ssid2=..." as well as "ssid=...". */
  predicate IsSsid(line: string) {
    StartsWith(line, "ssid")
  }

  /** The input lines that survive the rewrite, in their original order. */
  function Kept(lines: seq<string>): (kept: seq<string>)
    ensures |kept| <= |lines|
  {
    if lines == [] then []
    else (if IsSsid(lines[0]) then [] else [lines[0]]) + Kept(lines[1..])
  }

  /** Filtering distributes over concatenation: the relative order of the
      surviving lines is the input order. */
  lemma {:induction false} KeptAppend(a: seq<string>, b: seq<string>)
    ensures Kept(a + b) == Kept(a) + Kept(b)
  {
    if a == [] {
      assert a + b == b;
    } else {
      assert (a + b)[1..] == a[1..] + b;
      KeptAppend(a[1..], b);
    }
  }

  /** A line survives exactly when it is in the input and does not start
      with "ssid". */
  lemma {:induction false} KeptMembers(lines: seq<string>, l: string)
    ensures l in Kept(lines) <==> l in lines && !IsSsid(l)
  {
    if lines != [] {
      KeptMembers(lines[1..], l);
      assert lines == [lines[0]] + lines[1..];
    }
  }

  /** Filtering what was already filtered keeps every line. */
  lemma {:induction false} KeptIdempotent(lines: seq<string>)
    ensures Kept(Kept(lines)) == Kept(lines)
  {
    if lines != [] {
      var head := if IsSsid(lines[0]) then [] else [lines[0]];
      KeptAppend(head, Kept(lines[1..]));
      KeptIdempotent(lines[1..]);
      if head != [] {
        assert head[1..] == [];
      }
    }
  }

  lemma {:induction false} KeptWellFormed(lines: seq<string>)
    requires WellFormed(lines)
    ensures WellFormed(Kept(lines))
  {
    if lines != [] {
      assert WellFormed(lines[1..]) by {
        forall i | 0 <= i < |lines[1..]|
          ensures IsLine(lines[1..][i]) && (i < |lines[1..]| - 1 ==> Terminated(lines[1..][i]))
        {
          assert lines[1..][i] == lines[i + 1];
        }
      }
      KeptWellFormed(lines[1..]);
      var rest := Kept(lines[1..]);
      if rest != [] {
        assert |lines| > 1;
        assert Terminated(lines[0]);
      }
    }
  }

  /** The file as written back: the fresh SSID line, then the surviving
      lines of the file as text-mode reading yields them. */
  function HostapdConf(content: string, hostname: string): (text: string)
  {
    SsidLine(hostname) + Join(Kept(Lines(Translate(content))))
  }

  /** The rewrite as the script runs it: one pass over the lines of the
      file, collecting the survivors into a list. */
  method RewriteHostapdConf(content: string, hostname: string) returns (text: string)
    ensures text == HostapdConf(content, hostname)
  {
    var input := Lines(Translate(content));
    var lines: seq<string> := [];
    var i := 0;
    while i < |input|
      invariant 0 <= i <= |input|
      invariant lines == Kept(input[..i])
    {
      var line := input[i];
      KeptAppend(input[..i], [line]);
      assert input[..i + 1] == input[..i] + [line];
      assert [line][1..] == [];
      if !StartsWith(line, "ssid") {
        lines := lines + [line];
      }
      i := i + 1;
    }
    assert input[..i] == input;
    text := SsidLine(hostname) + Join(lines);
  }

  /** Read back line by line, the rewritten file is the SSID line followed
      by exactly the input lines that do not start with "ssid". */
  lemma HostapdConfLines(content: string, hostname: string)
    requires NoNewline(hostname)
    ensures Lines(HostapdConf(content, hostname)) == [SsidLine(hostname)] + Kept(Lines(Translate(content)))
  {
    var kept := Kept(Lines(Translate(content)));
    LinesJoin(Translate(content));
    KeptWellFormed(Lines(Translate(content)));
    var ls := [SsidLine(hostname)] + kept;
    var first := SsidLine(hostname);
    assert first[..|first| - 1] == "ssid=" + hostname;
    assert WellFormed(ls) by {
      forall i | 0 <= i < |ls|
        ensures IsLine(ls[i]) && (i < |ls| - 1 ==> Terminated(ls[i]))
      {
        if i > 0 {
          assert ls[i] == kept[i - 1];
        }
      }
    }
    assert ls[1..] == kept;
    JoinLines(ls);
  }

  lemma {:induction false} JoinHolds(ls: seq<string>, c: char)
    requires c in Join(ls)
    ensures exists l :: l in ls && c in l
  {
    if ls != [] {
      if c !in ls[0] {
        JoinHolds(ls[1..], c);
        var l :| l in ls[1..] && c in l;
        assert l in ls;
      }
    }
  }

  lemma {:induction false} LinesHold(s: string, l: string, c: char)
    requires l in Lines(s) && c in l
    ensures c in s
    decreases |s|
  {
    var k := LineLength(s);
    assert s == s[..k] + s[k..];
    if l != s[..k] {
      LinesHold(s[k..], l, c);
    }
  }

  /** Rewriting twice with the same hostname gives what rewriting once
      gives. */
  lemma HostapdConfIdempotent(content: string, hostname: string)
    requires NoNewline(hostname) && '\r' !in hostname
    ensures HostapdConf(HostapdConf(content, hostname), hostname) == HostapdConf(content, hostname)
  {
    var once := HostapdConf(content, hostname);
    var kept := Kept(Lines(Translate(content)));
    assert '\r' !in Join(kept) by {
      if '\r' in Join(kept) {
        JoinHolds(kept, '\r');
        var l :| l in kept && '\r' in l;
        KeptMembers(Lines(Translate(content)), l);
        LinesHold(Translate(content), l, '\r');
      }
    }
    assert '\r' !in once;
    TranslateKeeps(once);
    HostapdConfLines(content, hostname);
    KeptAppend([SsidLine(hostname)], kept);
    assert IsSsid(SsidLine(hostname));
    assert [SsidLine(hostname)][1..] == [];
    assert Kept([SsidLine(hostname)]) == [];
    KeptIdempotent(Lines(Translate(content)));
    assert Kept(Lines(Translate(once))) == kept;
  }
}
