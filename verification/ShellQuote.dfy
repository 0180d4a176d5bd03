/**
 Quoting an argument vector for a remote login shell. The command line crosses two
 shells: the one that runs `<shell> -lc <script>`, and the login shell that runs
 the script.
 */
module ShellQuote {
  import opened Common
  import opened ShellWords

  /** An allow-list: letters, digits and a few characters that are inert in every shell. */
  predicate UnsafeInShell(c: char) {
    !('a' <= c <= 'z') && !('A' <= c <= 'Z') && !('0' <= c <= '9') && c !in "@%+=:,./-_"
  }

  predicate ContainsUnsafe(s: string) {
    exists i :: 0 <= i < |s| && UnsafeInShell(s[i])
  }

  /** Every single quote becomes: close the quotes, an escaped quote, reopen. */
  function EscapeQuotes(s: string): string {
    if s == "" then ""
    else (if s[0] == '\'' then "'\\''" else [s[0]]) + EscapeQuotes(s[1..])
  }

  function ShellQuote(s: string): string {
    if s == "" then "''"
    else if !ContainsUnsafe(s) then s
    else "'" + EscapeQuotes(s) + "'"
  }

  function JoinQuoted(argv: seq<string>): string {
    if argv == [] then ""
    else if |argv| == 1 then ShellQuote(argv[0])
    else ShellQuote(argv[0]) + " " + JoinQuoted(argv[1..])
  }

  /** strings.Join */
  function Join(parts: seq<string>, sep: string): string {
    if parts == [] then ""
    else if |parts| == 1 then parts[0]
    else parts[0] + sep + Join(parts[1..], sep)
  }

  lemma {:induction false} JoinOfQuoted(argv: seq<string>, quoted: seq<string>)
    requires |quoted| == |argv| && forall i | 0 <= i < |argv| :: quoted[i] == ShellQuote(argv[i])
    ensures Join(quoted, " ") == JoinQuoted(argv)
  {
    if |argv| > 1 {
      JoinOfQuoted(argv[1..], quoted[1..]);
    }
  }

  /** The quoted arguments, one space between any two. */
  method JoinArgv(argv: seq<string>) returns (line: string)
    ensures line == JoinQuoted(argv)
    ensures Tokenize(line) == Some(Words(argv))
  {
    var quoted := new string[|argv|](_ => "");
    for i := 0 to |argv|
      invariant forall j | 0 <= j < i :: quoted[j] == ShellQuote(argv[j])
    {
      quoted[i] := ShellQuote(argv[i]);
    }
    line := Join(quoted[..], " ");
    JoinOfQuoted(argv, quoted[..]);
    ArgvRoundTrips(argv);
  }

  const LOGIN_SHELL: string := "SHELL:-/bin/sh"

  /** exec "${SHELL:-/bin/sh}" -lc */
  const PREFIX: string := "exec" + " " + ("\"${" + LOGIN_SHELL + "}\" ") + "-lc" + " "

  /** What is sent to be run. With raw, command[0] is a script of its own. */
  function RemoteCommand(command: seq<string>, raw: bool): string
    requires raw ==> command != []
  {
    PREFIX + ShellQuote(if raw then command[0] else JoinQuoted(command))
  }

  // ---------------------------------------------------------------------------
  // One word
  // ---------------------------------------------------------------------------

  lemma LitsGrow(word: Word, s: string)
    requires s != ""
    ensures word + [Lit(s[0])] + Lits(s[1..]) == word + Lits(s)
  {
  }

  lemma SafeTail(s: string)
    requires s != "" && !ContainsUnsafe(s)
    ensures !ContainsUnsafe(s[1..]) && !IsBlank(s[0]) && !IsSpecial(s[0])
  {
    assert !UnsafeInShell(s[0]);
    forall i | 0 <= i < |s[1..]| ensures !UnsafeInShell(s[1..][i]) {
      assert s[1..][i] == s[i + 1];
    }
  }

  /** Characters of the safe set are read as themselves. */
  lemma {:induction false} ScanBare(s: string, rest: string, word: Option<Word>)
    requires s != "" && !ContainsUnsafe(s)
    ensures Scan(s + rest, Unquoted, word) == Scan(rest, Unquoted, Some(Sofar(word) + Lits(s)))
    decreases |s|
  {
    var tail := s[1..] + rest;
    assert s + rest == [s[0]] + tail;
    SafeTail(s);
    ScanPlain(s[0], tail, word);
    LitsGrow(Sofar(word), s);
    if |s| == 1 {
      assert tail == rest;
      assert Sofar(word) + [Lit(s[0])] + Lits(s[1..]) == Sofar(word) + [Lit(s[0])];
    } else {
      ScanBare(s[1..], rest, Some(Sofar(word) + [Lit(s[0])]));
    }
  }

  /** Inside single quotes the escaped string is read as the string, up to the closing quote. */
  lemma {:induction false} ScanEscaped(s: string, rest: string, word: Word)
    ensures Scan(EscapeQuotes(s) + ("'" + rest), SingleQuoted, Some(word)) == Scan(rest, Unquoted, Some(word + Lits(s)))
    decreases |s|
  {
    if s == "" {
      assert EscapeQuotes(s) + ("'" + rest) == "'" + rest;
      ScanClose(rest, Some(word));
      assert word + Lits(s) == word;
    } else {
      var tail := EscapeQuotes(s[1..]) + ("'" + rest);
      ScanEscaped(s[1..], rest, word + [Lit(s[0])]);
      LitsGrow(word, s);
      if s[0] == '\'' {
        assert EscapeQuotes(s) + ("'" + rest) == "'\\''" + tail;
        ScanQuoteItself(tail, word);
      } else {
        assert EscapeQuotes(s) + ("'" + rest) == [s[0]] + tail;
        ScanInside(s[0], tail, word);
      }
    }
  }

  /** A quoted argument is read as one word, or one more piece of a word, character for character. */
  lemma ScanQuoted(s: string, rest: string, word: Option<Word>)
    ensures Scan(ShellQuote(s) + rest, Unquoted, word) == Scan(rest, Unquoted, Some(Sofar(word) + Lits(s)))
  {
    if s == "" || ContainsUnsafe(s) {
      var inner := EscapeQuotes(s) + ("'" + rest);
      assert ShellQuote(s) + rest == "'" + inner;
      ScanOpen(inner, word);
      ScanEscaped(s, rest, Sofar(word));
    } else {
      ScanBare(s, rest, word);
    }
  }

  // ---------------------------------------------------------------------------
  // Whole lines
  // ---------------------------------------------------------------------------

  function Words(argv: seq<string>): (ws: seq<Word>)
    ensures |ws| == |argv| && forall i | 0 <= i < |argv| :: ws[i] == Lits(argv[i])
  {
    seq(|argv|, i requires 0 <= i < |argv| => Lits(argv[i]))
  }

  /** A quoted argument alone on the line, and one with more after it. */
  lemma ScanAlone(s: string)
    ensures Tokenize(ShellQuote(s)) == Some([Lits(s)])
  {
    ScanQuoted(s, "", None);
    assert ShellQuote(s) + "" == ShellQuote(s);
    assert [] + Lits(s) == Lits(s);
  }

  lemma ScanFirst(s: string, rest: string)
    ensures Tokenize(ShellQuote(s) + (" " + rest)) == Prepend(Lits(s), Tokenize(rest))
  {
    ScanQuoted(s, " " + rest, None);
    assert [] + Lits(s) == Lits(s);
    ScanBlank(rest, Lits(s));
  }

  /** One more word in front of a line that tokenizes. */
  lemma OneMoreWord(first: string, rest: string, words: seq<Word>, line: string)
    requires line == ShellQuote(first) + (" " + rest) && Tokenize(rest) == Some(words)
    ensures Tokenize(line) == Some([Lits(first)] + words)
  {
    ScanFirst(first, rest);
  }

  lemma JoinedFront(argv: seq<string>)
    requires |argv| > 1
    ensures JoinQuoted(argv) == ShellQuote(argv[0]) + (" " + JoinQuoted(argv[1..]))
  {
  }

  lemma WordsFront(argv: seq<string>)
    requires argv != []
    ensures Words(argv) == [Lits(argv[0])] + Words(argv[1..])
  {
  }

  /** The shell reads the joined line back as exactly the argv, whatever the arguments contain. */
  lemma {:induction false} ArgvRoundTrips(argv: seq<string>)
    ensures Tokenize(JoinQuoted(argv)) == Some(Words(argv))
  {
    if argv == [] {
    } else if |argv| == 1 {
      ScanAlone(argv[0]);
      WordsFront(argv);
      assert [Lits(argv[0])] + Words(argv[1..]) == [Lits(argv[0])];
    } else {
      ArgvRoundTrips(argv[1..]);
      JoinedFront(argv);
      OneMoreWord(argv[0], JoinQuoted(argv[1..]), Words(argv[1..]), JoinQuoted(argv));
      WordsFront(argv);
    }
  }

  /**
   Both levels. The outer shell reads four words, the last of which is the script,
   character for character; and the login shell that is given the script reads
   exactly the argv.
   */
  lemma RemoteCommandRoundTrips(argv: seq<string>)
    ensures Tokenize(RemoteCommand(argv, false)) ==
              Some([Lits("exec"), [Expansion(LOGIN_SHELL)], Lits("-lc"), Lits(JoinQuoted(argv))])
    ensures Tokenize(JoinQuoted(argv)) == Some(Words(argv))
  {
    ScriptArrives(JoinQuoted(argv));
    ArgvRoundTrips(argv);
  }

  /** With --sh the script arrives verbatim. */
  lemma RawScriptArrives(script: string)
    ensures Tokenize(RemoteCommand([script], true)) ==
              Some([Lits("exec"), [Expansion(LOGIN_SHELL)], Lits("-lc"), Lits(script)])
  {
    ScriptArrives(script);
  }

  /** Words of the safe set need no quotes. */
  lemma OneMoreBareWord(word: string, rest: string, words: seq<Word>, line: string)
    requires word != "" && !ContainsUnsafe(word)
    requires line == word + (" " + rest) && Tokenize(rest) == Some(words)
    ensures Tokenize(line) == Some([Lits(word)] + words)
  {
    OneMoreWord(word, rest, words, line);
  }

  lemma OneMoreExpansion(parameter: string, rest: string, words: seq<Word>, line: string)
    requires '}' !in parameter
    requires line == "\"${" + parameter + "}\" " + rest && Tokenize(rest) == Some(words)
    ensures Tokenize(line) == Some([[Expansion(parameter)]] + words)
  {
    ScanExpansion(parameter, rest);
  }

  lemma ScriptArrives(script: string)
    ensures Tokenize(PREFIX + ShellQuote(script)) ==
              Some([Lits("exec"), [Expansion(LOGIN_SHELL)], Lits("-lc"), Lits(script)])
  {
    var l1 := ShellQuote(script);
    var l2 := "-lc" + (" " + l1);
    var l3 := "\"${" + LOGIN_SHELL + "}\" " + l2;
    var w1, w2, w3, w4: Word := Lits("exec"), [Expansion(LOGIN_SHELL)], Lits("-lc"), Lits(script);
    ScanAlone(script);
    OneMoreBareWord("-lc", l1, [w4], l2);
    OneMoreExpansion(LOGIN_SHELL, l2, [w3] + [w4], l3);
    PrefixSplits(l1);
    OneMoreBareWord("exec", l3, [w2] + ([w3] + [w4]), PREFIX + l1);
    assert [w1] + ([w2] + ([w3] + [w4])) == [w1, w2, w3, w4];
  }

  lemma PrefixSplits(l: string)
    ensures PREFIX + l == "exec" + (" " + ("\"${" + LOGIN_SHELL + "}\" " + ("-lc" + (" " + l))))
  {
  }

  /** Two different argument vectors never become the same command string. */
  lemma RemoteCommandIsInjective(a: seq<string>, b: seq<string>)
    requires RemoteCommand(a, false) == RemoteCommand(b, false)
    ensures a == b
  {
    RemoteCommandRoundTrips(a);
    RemoteCommandRoundTrips(b);
    LitsInjective(JoinQuoted(a), JoinQuoted(b));
    assert Words(a) == Words(b);
    forall i | 0 <= i < |a|
      ensures a[i] == b[i]
    {
      assert Words(a)[i] == Words(b)[i];
      LitsInjective(a[i], b[i]);
    }
  }

  lemma LitsInjective(s: string, t: string)
    requires Lits(s) == Lits(t)
    ensures s == t
  {
    forall i | 0 <= i < |s|
      ensures s[i] == t[i]
    {
      assert Lits(s)[i] == Lits(t)[i];
    }
  }
}
