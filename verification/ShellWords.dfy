/**
 How a POSIX shell splits an input line into words: token recognition and quoting
 (sections 2.2 and 2.3 of the Shell Command Language volume of POSIX.1-2017), and
 quote removal (section 2.6.7). Only input made of plain words is given a meaning:
 anything that would be an operator, an expansion outside double quotes, a pattern
 or a comment makes the result None, so a line that has words here has no other
 reading.
 */
module ShellWords {
  import opened Common

  /** A piece of a word: a literal character, or a quoted parameter expansion. */
  datatype Piece = Lit(c: char) | Expansion(parameter: string)

  type Word = seq<Piece>

  datatype Mode = Unquoted | SingleQuoted | DoubleQuoted

  function Lits(s: string): (w: Word)
    ensures |w| == |s| && forall i | 0 <= i < |s| :: w[i] == Lit(s[i])
  {
    seq(|s|, i requires 0 <= i < |s| => Lit(s[i]))
  }

  predicate IsBlank(c: char) { c == ' ' || c == '\t' }

  /** Characters that mean something to the shell when they are not quoted (section 2.2), and braces. */
  predicate IsSpecial(c: char) {
    c in "|&;<>()$`\\\"' \t\n*?[#~!{}]"
  }

  /** Where the closing brace of a parameter expansion is, or the length of the input. */
  function ClosingBrace(s: string): (i: nat)
    ensures i <= |s|
  {
    if s == "" || s[0] == '}' then 0 else 1 + ClosingBrace(s[1..])
  }

  function Grown(word: Option<Word>, p: Piece): Option<Word> {
    Some((if word.Some? then word.value else []) + [p])
  }

  function Opened(word: Option<Word>): Option<Word> {
    if word.Some? then word else Some([])
  }

  function Prepend(w: Word, words: Option<seq<Word>>): Option<seq<Word>> {
    if words.Some? then Some([w] + words.value) else None
  }

  /** The words of the input, given the quoting mode and the word under construction, if any. */
  function Scan(s: string, mode: Mode, word: Option<Word>): Option<seq<Word>>
    decreases |s|
  {
    match mode
    case Unquoted =>
      if s == "" then (if word.Some? then Some([word.value]) else Some([]))
      else if IsBlank(s[0]) then
        var rest := Scan(s[1..], Unquoted, None);
        if word.Some? then Prepend(word.value, rest) else rest
      else if s[0] == '\'' then Scan(s[1..], SingleQuoted, Opened(word))
      else if s[0] == '"' then Scan(s[1..], DoubleQuoted, Opened(word))
      else if s[0] == '\\' then
        if |s| == 1 then None
        else if s[1] == '\n' then Scan(s[2..], Unquoted, word)
        else Scan(s[2..], Unquoted, Grown(word, Lit(s[1])))
      else if IsSpecial(s[0]) then None
      else Scan(s[1..], Unquoted, Grown(word, Lit(s[0])))
    case SingleQuoted =>
      if s == "" then None
      else if s[0] == '\'' then Scan(s[1..], Unquoted, word)
      else Scan(s[1..], SingleQuoted, Grown(word, Lit(s[0])))
    case DoubleQuoted =>
      if s == "" then None
      else if s[0] == '"' then Scan(s[1..], Unquoted, word)
      else if s[0] == '`' then None
      else if s[0] == '$' then
        if |s| == 1 || s[1] != '{' then None
        else
          var n := ClosingBrace(s[2..]);
          if n == |s[2..]| then None
          else Scan(s[2..][n + 1..], DoubleQuoted, Grown(word, Expansion(s[2..][..n])))
      else if s[0] == '\\' && |s| > 1 && s[1] in "$`\"\\\n" then
        if s[1] == '\n' then Scan(s[2..], DoubleQuoted, word)
        else Scan(s[2..], DoubleQuoted, Grown(word, Lit(s[1])))
      else Scan(s[1..], DoubleQuoted, Grown(word, Lit(s[0])))
  }

  function Tokenize(line: string): Option<seq<Word>> {
    Scan(line, Unquoted, None)
  }

  // ---------------------------------------------------------------------------
  // One character at a time
  // ---------------------------------------------------------------------------

  function Sofar(word: Option<Word>): Word {
    if word.Some? then word.value else []
  }

  lemma ScanPlain(c: char, t: string, word: Option<Word>)
    requires !IsBlank(c) && !IsSpecial(c)
    ensures Scan([c] + t, Unquoted, word) == Scan(t, Unquoted, Some(Sofar(word) + [Lit(c)]))
  {
    assert ([c] + t)[1..] == t;
  }

  lemma ScanBlank(t: string, word: Word)
    ensures Scan(" " + t, Unquoted, Some(word)) == Prepend(word, Scan(t, Unquoted, None))
  {
    assert (" " + t)[1..] == t;
  }

  lemma ScanOpen(t: string, word: Option<Word>)
    ensures Scan("'" + t, Unquoted, word) == Scan(t, SingleQuoted, Some(Sofar(word)))
  {
    assert ("'" + t)[1..] == t;
  }

  lemma ScanClose(t: string, word: Option<Word>)
    ensures Scan("'" + t, SingleQuoted, word) == Scan(t, Unquoted, word)
  {
    assert ("'" + t)[1..] == t;
  }

  lemma ScanInside(c: char, t: string, word: Word)
    requires c != '\''
    ensures Scan([c] + t, SingleQuoted, Some(word)) == Scan(t, SingleQuoted, Some(word + [Lit(c)]))
  {
    assert ([c] + t)[1..] == t;
  }

  /** A single quote, escaped outside the quotes and then back inside. */
  lemma ScanQuoteItself(t: string, word: Word)
    ensures Scan("'\\''" + t, SingleQuoted, Some(word)) == Scan(t, SingleQuoted, Some(word + [Lit('\'')]))
  {
    var l1, l2 := "\\''" + t, "'" + t;
    assert "'\\''" + t == "'" + l1;
    ScanClose(l1, Some(word));
    assert l1[2..] == l2;
    ScanOpen(t, Some(word + [Lit('\'')]));
  }

  /** Inside double quotes, a braced parameter is read up to its closing brace. */
  lemma ScanBraced(parameter: string, after: string)
    requires '}' !in parameter
    ensures Scan("${" + (parameter + "}" + after), DoubleQuoted, Some([])) == Scan(after, DoubleQuoted, Some([Expansion(parameter)]))
  {
    var inner := "${" + (parameter + "}" + after);
    assert inner[2..] == parameter + "}" + after;
    ClosingBraceAfter(parameter, after);
    assert inner[2..][..|parameter|] == parameter && inner[2..][|parameter| + 1..] == after;
    var w: Word := [Expansion(parameter)];
    assert [] + w == w;
  }

  lemma ScanOpenDouble(t: string)
    ensures Scan("\"" + t, Unquoted, None) == Scan(t, DoubleQuoted, Some([]))
  {
    assert ("\"" + t)[1..] == t;
  }

  lemma ScanCloseDouble(t: string, w: Word)
    ensures Scan("\"" + t, DoubleQuoted, Some(w)) == Scan(t, Unquoted, Some(w))
  {
    assert ("\"" + t)[1..] == t;
  }

  /** A double-quoted parameter expansion is one word of its own. */
  lemma ScanExpansion(parameter: string, t: string)
    requires '}' !in parameter
    ensures Scan("\"${" + parameter + "}\" " + t, Unquoted, None) == Prepend([Expansion(parameter)], Scan(t, Unquoted, None))
  {
    var after := "\"" + (" " + t);
    var inner := "${" + (parameter + "}" + after);
    assert "\"${" + parameter + "}\" " + t == "\"" + inner;
    ScanOpenDouble(inner);
    ScanBraced(parameter, after);
    ScanCloseDouble(" " + t, [Expansion(parameter)]);
    ScanBlank(t, [Expansion(parameter)]);
  }

  lemma {:induction false} ClosingBraceAfter(s: string, rest: string)
    requires '}' !in s
    ensures ClosingBrace(s + "}" + rest) == |s|
  {
    if s != "" {
      assert (s + "}" + rest)[1..] == s[1..] + "}" + rest;
      ClosingBraceAfter(s[1..], rest);
    }
  }
}
