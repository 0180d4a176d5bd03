/** The command line of the remote client: a token, options, a mandatory separator, the command. */
module RemoteArgs {
  import opened Common

  datatype Invocation = Invocation(token: string, raw: bool, timeout: int, command: seq<string>)

  datatype ParseError =
    | NoSeparator               // the arguments ended
    | BareWord(word: string)    // a word that is no option, where the separator should be
    | ShTakesNoValue(word: string)
    | TimeoutNeedsValue
    | NotADuration(value: string)
    | NegativeTimeout(value: string)
    | UnknownFlag(word: string)

  datatype Parsed = Ok(inv: Invocation) | Help | Failed(error: ParseError)

  const DEFAULT_TIMEOUT: int := 120_000_000_000

  predicate HasPrefix(s: string, p: string) { p <= s }

  function IndexOf(s: string, c: char): (i: nat)
    ensures i <= |s| && (i < |s| ==> s[i] == c) && c !in s[..i]
  {
    if s == "" || s[0] == c then 0 else 1 + IndexOf(s[1..], c)
  }

  function TrimDash(s: string): string {
    if HasPrefix(s, "-") then s[1..] else s
  }

  /** Name, value, and whether a value was attached. */
  function SplitFlagArg(arg: string): (string, string, bool) {
    if !HasPrefix(arg, "-") || arg == "-" || arg == "--" then ("", "", false)
    else
      var s := TrimDash(TrimDash(arg));
      var i := IndexOf(s, '=');
      if i < |s| then (s[..i], s[i + 1..], true) else (s, "", false)
  }

  predicate IsRemoteOption(arg: string) {
    SplitFlagArg(arg).0 in ["timeout", "sh", "h", "help"]
  }

  /** The options from position i on, up to the separator. time.ParseDuration is a parameter. */
  function Options(args: seq<string>, i: nat, inv: Invocation, duration: string -> Option<int>): Parsed
    decreases |args| - i
  {
    if i >= |args| then Failed(NoSeparator)
    else if args[i] == "--" then Ok(inv.(command := args[i + 1..]))
    else if !HasPrefix(args[i], "-") then Failed(BareWord(args[i]))
    else
      var (name, attached, hasValue) := SplitFlagArg(args[i]);
      if name == "h" || name == "help" then Help
      else if name == "sh" then
        if hasValue then Failed(ShTakesNoValue(args[i])) else Options(args, i + 1, inv.(raw := true), duration)
      else if name == "timeout" then
        if !hasValue && i + 1 >= |args| then Failed(TimeoutNeedsValue)
        else
          var value := if hasValue then attached else args[i + 1];
          var d := duration(value);
          if d.None? then Failed(NotADuration(value))
          else if d.value < 0 then Failed(NegativeTimeout(value))
          else Options(args, if hasValue then i + 1 else i + 2, inv.(timeout := d.value), duration)
      else Failed(UnknownFlag(args[i]))
  }

  /** Where the token is found, and where the options start. */
  function TakeToken(args: seq<string>): (string, nat)
    requires args != []
  {
    var (_, attached, hasAttached) := SplitFlagArg(args[0]);
    if hasAttached then (attached, 1)
    else if 1 < |args| && args[1] != "--" && !IsRemoteOption(args[1]) then (args[1], 2)
    else ("", 1)
  }

  function Parse(args: seq<string>, duration: string -> Option<int>): Parsed
    requires args != []
  {
    var (token, i) := TakeToken(args);
    Options(args, i, Invocation(token, false, DEFAULT_TIMEOUT, []), duration)
  }

  /** The parser itself; args[0] is the flag that selected this mode. */
  method ParseRemoteArgs(args: seq<string>, duration: string -> Option<int>) returns (r: Parsed)
    requires args != []
    ensures r == Parse(args, duration)
  {
    var inv, i: nat := ReadToken(args);
    var sawSeparator := false;
    while i < |args|
      invariant !sawSeparator
      invariant Options(args, i, inv, duration) == Parse(args, duration)
      decreases |args| - i
    {
      if args[i] == "--" {
        sawSeparator := true;
        i := i + 1;
        break;
      }
      if !HasPrefix(args[i], "-") {
        return Failed(BareWord(args[i]));
      }
      var stop, last;
      stop, inv, last := TakeOption(args, i, inv, duration);
      if stop.Some? {
        return stop.value;
      }
      i := last + 1;
    }
    if !sawSeparator {
      return Failed(NoSeparator);
    }
    inv := inv.(command := args[i..]);
    r := Ok(inv);
  }

  /** The token, attached to the flag or as the next argument. */
  method ReadToken(args: seq<string>) returns (inv: Invocation, i: nat)
    requires args != []
    ensures inv == Invocation(TakeToken(args).0, false, DEFAULT_TIMEOUT, []) && i == TakeToken(args).1
  {
    var (_, attached, hasAttached) := SplitFlagArg(args[0]);
    inv, i := Invocation("", false, DEFAULT_TIMEOUT, []), 1;
    if hasAttached {
      inv := inv.(token := attached);
    } else if i < |args| && args[i] != "--" && !IsRemoteOption(args[i]) {
      inv := inv.(token := args[i]);
      i := i + 1;
    }
  }

  /** One option: what ends the parse, or the options so far and the last argument it took up. */
  method TakeOption(args: seq<string>, at: nat, inv0: Invocation, duration: string -> Option<int>)
    returns (stop: Option<Parsed>, inv: Invocation, i: nat)
    requires at < |args| && args[at] != "--" && HasPrefix(args[at], "-")
    ensures stop.Some? ==> Options(args, at, inv0, duration) == stop.value
    ensures stop.None? ==> i >= at && Options(args, at, inv0, duration) == Options(args, i + 1, inv, duration)
  {
    stop, inv, i := None, inv0, at;
    var (name, value, hasValue) := SplitFlagArg(args[at]);
    if name == "h" || name == "help" {
      stop := Some(Help);
    } else if name == "sh" {
      if hasValue {
        return Some(Failed(ShTakesNoValue(args[at]))), inv, i;
      }
      inv := inv.(raw := true);
    } else if name == "timeout" {
      if !hasValue {
        i := i + 1;
        if i >= |args| {
          return Some(Failed(TimeoutNeedsValue)), inv, i;
        }
        value := args[i];
      }
      var d := duration(value);
      if d.None? {
        return Some(Failed(NotADuration(value))), inv, i;
      }
      if d.value < 0 {
        return Some(Failed(NegativeTimeout(value))), inv, i;
      }
      inv := inv.(timeout := d.value);
    } else {
      stop := Some(Failed(UnknownFlag(args[at])));
    }
  }

  // ---------------------------------------------------------------------------
  // What a parse means
  // ---------------------------------------------------------------------------

  /** An option as it can be spelled: --sh, --timeout=value, or --timeout and its value as the next word. */
  datatype Opt = Sh(word: string) | Attached(word: string, timeout: nat) | Separate(word: string, value: string, timeout: nat)

  function Words(o: Opt): seq<string> {
    if o.Separate? then [o.word, o.value] else [o.word]
  }

  predicate GoodOption(o: Opt, duration: string -> Option<int>) {
    var (name, attached, hasValue) := SplitFlagArg(o.word);
    match o
    case Sh(_) => name == "sh" && !hasValue
    case Attached(_, timeout) => name == "timeout" && hasValue && duration(attached) == Some(timeout)
    case Separate(_, value, timeout) => name == "timeout" && !hasValue && duration(value) == Some(timeout)
  }

  predicate GoodOptions(opts: seq<Opt>, duration: string -> Option<int>) {
    opts == [] || (GoodOption(opts[0], duration) && GoodOptions(opts[1..], duration))
  }

  /** The options as words on the command line. */
  function Spelled(opts: seq<Opt>): seq<string> {
    if opts == [] then [] else Words(opts[0]) + Spelled(opts[1..])
  }

  /** What one option sets. */
  function Apply(inv: Invocation, o: Opt): Invocation {
    if o.Sh? then inv.(raw := true) else inv.(timeout := o.timeout)
  }

  function ApplyAll(inv: Invocation, opts: seq<Opt>): Invocation
    decreases |opts|
  {
    if opts == [] then inv else ApplyAll(Apply(inv, opts[0]), opts[1..])
  }

  /** Options take effect in order: any --sh makes the command raw, and the last timeout is the one that counts. */
  lemma {:induction false} LastTimeoutCounts(inv: Invocation, opts: seq<Opt>)
    ensures var r := ApplyAll(inv, opts);
            && (r.raw <==> inv.raw || exists k :: 0 <= k < |opts| && opts[k].Sh?)
            && r.token == inv.token && r.command == inv.command
            && ((forall k | 0 <= k < |opts| :: opts[k].Sh?) ==> r.timeout == inv.timeout)
            && (forall k | 0 <= k < |opts| && !opts[k].Sh? && (forall j | k < j < |opts| :: opts[j].Sh?) ::
                  r.timeout == opts[k].timeout)
    decreases |opts|
  {
    if opts != [] {
      LastTimeoutCounts(Apply(inv, opts[0]), opts[1..]);
      assert forall k | 0 < k < |opts| :: opts[k] == opts[1..][k - 1];
    }
  }

  /** No well-formed option begins these words. */
  ghost predicate Stops(rest: seq<string>, duration: string -> Option<int>) {
    rest != [] ==>
      && !GoodOption(Sh(rest[0]), duration) && (forall t: nat :: !GoodOption(Attached(rest[0], t), duration))
      && (1 < |rest| ==> forall t: nat :: !GoodOption(Separate(rest[0], rest[1], t), duration))
  }

  /** What the words behind the last well-formed option make of it all. */
  function Verdict(rest: seq<string>, inv: Invocation, duration: string -> Option<int>): Parsed {
    if rest == [] then Failed(NoSeparator)
    else
      var (name, attached, hasValue) := SplitFlagArg(rest[0]);
      if rest[0] == "--" then Ok(inv.(command := rest[1..]))
      else if !HasPrefix(rest[0], "-") then Failed(BareWord(rest[0]))
      else if name in ["h", "help"] then Help
      else if name == "sh" then Failed(ShTakesNoValue(rest[0]))
      else if name != "timeout" then Failed(UnknownFlag(rest[0]))
      else if !hasValue && |rest| == 1 then Failed(TimeoutNeedsValue)
      else
        var value := if hasValue then attached else rest[1];
        Failed(if duration(value).None? then NotADuration(value) else NegativeTimeout(value))
  }

  /** These words are well-formed options and then something else, which decides the parse. */
  ghost predicate Reads(words: seq<string>, opts: seq<Opt>, rest: seq<string>, inv: Invocation,
                  duration: string -> Option<int>, r: Parsed)
  {
    && words == Spelled(opts) + rest && GoodOptions(opts, duration) && Stops(rest, duration)
    && r == Verdict(rest, ApplyAll(inv, opts), duration)
  }

  lemma SeparateStep(args: seq<string>, i: nat, o: Opt, inv: Invocation, duration: string -> Option<int>)
    requires o.Separate? && i + 1 < |args| && args[i] == o.word && args[i + 1] == o.value && GoodOption(o, duration)
    ensures Options(args, i, inv, duration) == Options(args, i + 2, inv.(timeout := o.timeout), duration)
  {
  }

  lemma OptionStep(args: seq<string>, i: nat, o: Opt, inv: Invocation, duration: string -> Option<int>)
    requires i <= |args| && Words(o) <= args[i..] && GoodOption(o, duration)
    ensures i + |Words(o)| <= |args|
    ensures Options(args, i, inv, duration) == Options(args, i + |Words(o)|, Apply(inv, o), duration)
  {
    assert args[i] == args[i..][0] == Words(o)[0];
    if o.Separate? {
      assert args[i + 1] == args[i..][1] == Words(o)[1];
      SeparateStep(args, i, o, inv, duration);
    }
  }

  lemma StopStep(args: seq<string>, i: nat, inv: Invocation, duration: string -> Option<int>)
    requires i <= |args| && Stops(args[i..], duration)
    ensures Options(args, i, inv, duration) == Verdict(args[i..], inv, duration)
  {
    var rest := args[i..];
    if rest != [] {
      assert rest[0] == args[i] && rest[1..] == args[i + 1..];
      var (name, attached, hasValue) := SplitFlagArg(rest[0]);
      if name == "timeout" && (hasValue || 1 < |rest|) {
        var d := duration(if hasValue then attached else rest[1]);
        assert 1 < |rest| ==> rest[1] == args[i + 1];
        var t: nat := if d.Some? && d.value >= 0 then d.value else 0;
        assert GoodOption(if hasValue then Attached(rest[0], t) else Separate(rest[0], rest[1], t), duration)
          <==> d == Some(t);
      }
    }
  }

  lemma OneMore(o: Opt, more: seq<Opt>, rest: seq<string>, inv: Invocation, duration: string -> Option<int>)
    ensures GoodOptions([o] + more, duration) <==> GoodOption(o, duration) && GoodOptions(more, duration)
    ensures Spelled([o] + more) + rest == Words(o) + (Spelled(more) + rest)
    ensures ApplyAll(inv, [o] + more) == ApplyAll(Apply(inv, o), more)
  {
    assert ([o] + more)[0] == o && ([o] + more)[1..] == more;
  }

  /** However the words are read as options and a rest, the parse is what the rest decides. */
  lemma {:induction false} ReadingDecides(args: seq<string>, i: nat, opts: seq<Opt>, rest: seq<string>,
                                          inv: Invocation, duration: string -> Option<int>, r: Parsed)
    requires i <= |args| && Reads(args[i..], opts, rest, inv, duration, r)
    ensures Options(args, i, inv, duration) == r
    decreases |opts|
  {
    if opts == [] {
      assert args[i..] == rest;
      StopStep(args, i, inv, duration);
    } else {
      var o, more := opts[0], opts[1..];
      assert opts == [o] + more;
      OneMore(o, more, rest, inv, duration);
      OptionStep(args, i, o, inv, duration);
      assert args[i + |Words(o)|..] == args[i..][|Words(o)|..];
      ReadingDecides(args, i + |Words(o)|, more, rest, Apply(inv, o), duration, r);
    }
  }

  lemma ReadsMore(words: seq<string>, o: Opt, more: seq<Opt>, rest: seq<string>,
                  inv: Invocation, duration: string -> Option<int>, r: Parsed)
    requires GoodOption(o, duration) && Words(o) <= words
    requires Reads(words[|Words(o)|..], more, rest, Apply(inv, o), duration, r)
    ensures Reads(words, [o] + more, rest, inv, duration, r)
  {
    hide GoodOption, Stops, Verdict;
    var tail := words[|Words(o)|..];
    OneMore(o, more, rest, inv, duration);
    assert words == Words(o) + tail && tail == Spelled(more) + rest;
  }

  lemma StopsIff(words: seq<string>, duration: string -> Option<int>)
    ensures Stops(words, duration) <==> forall o: Opt | GoodOption(o, duration) :: !(Words(o) <= words)
  {
    if words != [] {
      assert Words(Sh(words[0])) <= words && forall t: nat :: Words(Attached(words[0], t)) <= words;
      assert 1 < |words| ==> forall t: nat :: Words(Separate(words[0], words[1], t)) <= words;
    }
    forall o: Opt | GoodOption(o, duration) && Words(o) <= words
      ensures !Stops(words, duration)
    {
      assert words[0] == Words(o)[0] == o.word && (o.Separate? ==> words[1] == Words(o)[1] == o.value);
    }
  }

  /** Any words can be read so. */
  lemma {:induction false} ReadingExists(words: seq<string>, inv: Invocation, duration: string -> Option<int>)
    returns (opts: seq<Opt>, rest: seq<string>, r: Parsed)
    ensures Reads(words, opts, rest, inv, duration, r)
    decreases |words|
  {
    StopsIff(words, duration);
    if Stops(words, duration) {
      opts, rest, r := [], words, Verdict(words, inv, duration);
      assert Spelled([]) + rest == rest;
    } else {
      var o: Opt :| GoodOption(o, duration) && Words(o) <= words;
      var more;
      more, rest, r := ReadingExists(words[|Words(o)|..], Apply(inv, o), duration);
      opts := [o] + more;
      ReadsMore(words, o, more, rest, inv, duration, r);
    }
  }

  /**
   What an argument list comes to: it comes to r if and only if, behind the token,
   it is well-formed options followed by words that do not begin with one, and r is
   what those words decide: the separator gives the command, with the last timeout
   and any --sh in force; anything else is the one error that fits it.
   */
  lemma ParseIff(args: seq<string>, duration: string -> Option<int>, r: Parsed)
    requires args != []
    ensures Parse(args, duration) == r <==>
              exists opts: seq<Opt>, rest: seq<string> ::
                Reads(args[TakeToken(args).1..], opts, rest,
                      Invocation(TakeToken(args).0, false, DEFAULT_TIMEOUT, []), duration, r)
  {
    var (token, i) := TakeToken(args);
    var inv := Invocation(token, false, DEFAULT_TIMEOUT, []);
    var opts, rest, verdict := ReadingExists(args[i..], inv, duration);
    ReadingDecides(args, i, opts, rest, inv, duration, verdict);
    if opts': seq<Opt>, rest': seq<string> :| Reads(args[i..], opts', rest', inv, duration, r) {
      ReadingDecides(args, i, opts', rest', inv, duration, r);
    }
  }

  /** A parse that succeeds has found a separator, and the command is everything after it, untouched. */
  lemma {:induction false} CommandFollowsSeparator(args: seq<string>, i: nat, inv: Invocation, duration: string -> Option<int>)
    returns (sep: nat)
    requires Options(args, i, inv, duration).Ok?
    ensures i <= sep < |args| && args[sep] == "--"
    ensures Options(args, i, inv, duration).inv.command == args[sep + 1..]
    ensures Options(args, i, inv, duration).inv.token == inv.token
    decreases |args| - i
  {
    if args[i] == "--" {
      sep := i;
    } else {
      var (name, attached, hasValue) := SplitFlagArg(args[i]);
      if name == "sh" {
        sep := CommandFollowsSeparator(args, i + 1, inv.(raw := true), duration);
      } else {
        var d := duration(if hasValue then attached else args[i + 1]);
        sep := CommandFollowsSeparator(args, if hasValue then i + 1 else i + 2, inv.(timeout := d.value), duration);
      }
    }
  }

  /**
   The line wharf prints, `--remote <token> -- <command>`, parses back to its token
   and command, whatever words the command is made of, if and only if the token is
   not the separator and not spelled like one of the options.
   */
  lemma PrintedLineParsesIff(token: string, command: seq<string>, duration: string -> Option<int>)
    ensures Parse(["--remote", token, "--"] + command, duration) ==
              Ok(Invocation(token, false, DEFAULT_TIMEOUT, command))
            <==> token != "--" && !IsRemoteOption(token)
  {
    var args := ["--remote", token, "--"] + command;
    assert args[0] == "--remote" && args[1] == token && args[2] == "--" && args[3..] == command;
    RemoteFlagHasNoValue();
    if token != "--" && !IsRemoteOption(token) {
      assert TakeToken(args) == (token, 2);
    } else {
      assert TakeToken(args) == ("", 1);
      var p := Parse(args, duration);
      if p.Ok? {
        var _ := CommandFollowsSeparator(args, 1, Invocation("", false, DEFAULT_TIMEOUT, []), duration);
        OptionIsNotEmpty();
      }
    }
  }

  /** A flag as it is spelled, with a value attached: one dash or two, its name, and everything behind the first '='. */
  lemma FlagWithValue(dashes: string, name: string, value: string)
    requires dashes == "-" || dashes == "--"
    requires '=' !in name && (dashes == "-" ==> !HasPrefix(name, "-"))
    ensures SplitFlagArg(dashes + name + "=" + value) == (name, value, true)
  {
    hide IndexOf;
    var arg, s := dashes + name + "=" + value, name + "=" + value;
    assert arg == dashes + s;
    assert s[|name|] == '=' && s[..|name|] == name && s[|name| + 1..] == value;
    assert HasPrefix(s, "-") ==> s[0] == '-' && (name != "" ==> name[0] == '-' && name[..1] == "-");
    Undashed(arg, dashes, s);
    IndexAt(s, '=', |name|);
  }

  lemma Undashed(arg: string, dashes: string, s: string)
    requires arg == dashes + s && s != "" && (dashes == "-" || dashes == "--")
    requires dashes == "-" ==> !HasPrefix(s, "-")
    ensures HasPrefix(arg, "-") && arg != "-" && arg[|dashes|..] == s && TrimDash(TrimDash(arg)) == s
  {
    if dashes == "-" {
      assert arg[1..] == s;
    } else {
      assert arg[1..] == "-" + s && ("-" + s)[1..] == s;
    }
  }

  /** And without. */
  lemma FlagWithoutValue(dashes: string, name: string)
    requires dashes == "-" || dashes == "--"
    requires name != "" && '=' !in name && (dashes == "-" ==> !HasPrefix(name, "-"))
    ensures SplitFlagArg(dashes + name) == (name, "", false)
  {
    hide TrimDash;
    Undashed(dashes + name, dashes, name);
  }

  lemma {:induction false} IndexAt(s: string, c: char, i: nat)
    requires i < |s| && s[i] == c && c !in s[..i]
    ensures IndexOf(s, c) == i
  {
    if i > 0 {
      assert s[..i][0] == s[0] && s[1..][..i - 1] == s[..i][1..];
      IndexAt(s[1..], c, i - 1);
    }
  }

  /** The other way to name the token, attached to the flag: then any token parses back. */
  lemma AttachedTokenParses(token: string, command: seq<string>, duration: string -> Option<int>)
    ensures Parse(["--remote=" + token, "--"] + command, duration) ==
              Ok(Invocation(token, false, DEFAULT_TIMEOUT, command))
  {
    var args := ["--remote=" + token, "--"] + command;
    FlagWithValue("--", "remote", token);
    assert "--" + "remote" + "=" + token == "--remote=" + token;
    assert args[0] == "--remote=" + token && args[1] == "--" && args[2..] == command;
  }

  lemma RemoteFlagHasNoValue()
    ensures !SplitFlagArg("--remote").2
  {
    assert TrimDash(TrimDash("--remote")) == "remote";
    assert '=' !in "remote";
  }

  lemma OptionIsNotEmpty()
    ensures !IsRemoteOption("")
  {
  }

  /** A grant's token is lower-case base32, which no option and no separator is spelled in. */
  lemma MintedTokensAreSafe(token: string)
    requires token != "" && forall c | c in token :: 'a' <= c <= 'z' || '2' <= c <= '7'
    ensures token != "--" && !IsRemoteOption(token)
  {
    assert token[0] in token;
  }
}
