/**
 * How /bin/sh cuts a command line into words, for lines built from
 * blanks, single quotes and ordinary characters. run_cmd hands its line
 * to the shell, so a path holding a blank reaches the command as several
 * words unless it is quoted.
 */
module Shell {

  predicate Blank(c: char) { c == ' ' || c == '\t' || c == '\n' }

  /** A string the shell passes on as one word without quoting: no blank
      and no quote. */
  predicate Plain(s: string) {
    forall i :: 0 <= i < |s| ==> !Blank(s[i]) && s[i] != '\''
  }

  /** Word splitting: an unquoted blank ends the current word, a quoted
      run is taken literally, and a quote character itself is dropped.
      `word` is the word read so far, `inWord` says whether one has
      started (a pair of quotes starts an empty word) and `quoted` whether
      the scan is inside '...'. */
  function Scan(s: string, word: string, inWord: bool, quoted: bool): seq<string>
    decreases |s|
  {
    if s == [] then
      (if inWord then [word] else [])
    else if quoted then
      if s[0] == '\'' then Scan(s[1..], word, true, false)
      else Scan(s[1..], word + [s[0]], true, true)
    else if s[0] == '\'' then
      Scan(s[1..], word, true, true)
    else if Blank(s[0]) then
      (if inWord then [word] else []) + Scan(s[1..], "", false, false)
    else
      Scan(s[1..], word + [s[0]], true, false)
  }

  /** The argument words of a command line. */
  function Words(line: string): seq<string> {
    Scan(line, "", false, false)
  }

  /** Quoting for the shell: everything between single quotes is literal. */
  function Quote(s: string): string { "'" + s + "'" }

  /** Plain characters extend the current word. */
  lemma {:induction false} PlainRun(a: string, rest: string, word: string, inWord: bool)
    requires Plain(a) && a != []
    ensures Scan(a + rest, word, inWord, false) == Scan(rest, word + a, true, false)
    decreases |a|
  {
    assert (a + rest)[0] == a[0] && (a + rest)[1..] == a[1..] + rest;
    if |a| == 1 {
      assert a[1..] + rest == rest && a == [a[0]];
    } else {
      assert Plain(a[1..]) by {
        forall i | 0 <= i < |a[1..]| ensures !Blank(a[1..][i]) && a[1..][i] != '\'' {
          assert a[1..][i] == a[i + 1];
        }
      }
      PlainRun(a[1..], rest, word + [a[0]], true);
      assert word + [a[0]] + a[1..] == word + a;
    }
  }

  /** Inside quotes every character but the quote is kept, blanks included;
      the closing quote leaves the word open. */
  lemma {:induction false} QuotedRun(a: string, rest: string, word: string)
    requires '\'' !in a
    ensures Scan(a + "'" + rest, word, true, true) == Scan(rest, word + a, true, false)
    decreases |a|
  {
    if a == [] {
      assert a + "'" + rest == "'" + rest && word + a == word;
      assert ("'" + rest)[1..] == rest;
    } else {
      assert (a + "'" + rest)[0] == a[0] && (a + "'" + rest)[1..] == a[1..] + "'" + rest;
      QuotedRun(a[1..], rest, word + [a[0]]);
      assert word + [a[0]] + a[1..] == word + a;
    }
  }

  /** A plain word followed by a blank is one word, and scanning goes on
      afresh after it. */
  lemma WordThenBlank(w: string, rest: string)
    requires Plain(w) && w != []
    ensures Words(w + " " + rest) == [w] + Words(rest)
  {
    PlainRun(w, " " + rest, "", false);
    assert w + " " + rest == w + (" " + rest);
    assert (" " + rest)[0] == ' ' && (" " + rest)[1..] == rest;
    assert "" + w == w;
  }

  /** A plain word at the end of the line is the last word. */
  lemma LastWord(w: string)
    requires Plain(w) && w != []
    ensures Words(w) == [w]
  {
    PlainRun(w, "", "", false);
    assert w + "" == w && "" + w == w;
  }

  /** A quoted string is exactly one word, whatever blanks it holds. */
  lemma QuotedWord(s: string)
    requires '\'' !in s
    ensures Words(Quote(s)) == [s]
  {
    QuotedRun(s, "", "");
    assert Quote(s) == "'" + (s + "'" + "");
    assert Quote(s)[1..] == s + "'" + "";
    assert "" + s == s;
  }

  /** A leading blank separates nothing. */
  lemma LeadingBlank(rest: string)
    ensures Words(" " + rest) == Words(rest)
  {
    assert (" " + rest)[0] == ' ' && (" " + rest)[1..] == rest;
  }
}
