/** Splitting the one host out of a command line, and the flag parser that reads the rest. */
module Args {
  import opened Wrappers

  /** The defined flags; true for the ones that take no value. */
  type Flags = map<string, bool>

  /** flag.Var refuses other names. */
  predicate WellFormed(fs: Flags) {
    forall name | name in fs :: '=' !in name && (name == "" || name[0] != '-')
  }

  function TrimDashes(arg: string): string {
    if arg != [] && arg[0] == '-' then TrimDashes(arg[1..]) else arg
  }

  predicate IsPositional(arg: string) {
    arg == [] || arg[0] != '-' || arg == "-"
  }

  /** A defined flag, written without "=", that needs the next word. */
  predicate TakesValue(fs: Flags, arg: string) {
    '=' !in arg && TrimDashes(arg) in fs && !fs[TrimDashes(arg)]
  }

  // ---- the split ----

  /** The words before "--" that are neither flags nor values of flags, and everything else. */
  datatype Words = Words(positional: seq<string>, rest: seq<string>)

  function Split(fs: Flags, args: seq<string>): Words
    decreases |args|
  {
    if args == [] then Words([], [])
    else if args[0] == "--" then Words([], args)
    else if IsPositional(args[0]) then
      var tail := Split(fs, args[1..]);
      Words([args[0]] + tail.positional, tail.rest)
    else if TakesValue(fs, args[0]) && |args| > 1 then
      var tail := Split(fs, args[2..]);
      Words(tail.positional, args[..2] + tail.rest)
    else
      var tail := Split(fs, args[1..]);
      Words(tail.positional, args[..1] + tail.rest)
  }

  /** Only empty words may precede the last positional one, which is the host. */
  predicate OneHost(positional: seq<string>) {
    forall i | 0 <= i < |positional| - 1 :: positional[i] == ""
  }

  function HostOf(positional: seq<string>): string {
    if positional == [] then "" else positional[|positional| - 1]
  }

  /** The word after the host: the first word that is not empty is the host, and this is the next one. */
  ghost predicate SecondHost(positional: seq<string>, word: string) {
    exists k | 0 < k < |positional| ::
      positional[k] == word && positional[k - 1] != "" && OneHost(positional[..k])
  }

  /** What the loop has still to do, given what it has gathered. */
  lemma SplitStep(fs: Flags, args: seq<string>, i: nat)
    requires i < |args|
    ensures var arg, todo := args[i], Split(fs, args[i..]);
            todo == if arg == "--" then Words([], args[i..])
                    else if IsPositional(arg) then
                      Words([arg] + Split(fs, args[i + 1..]).positional, Split(fs, args[i + 1..]).rest)
                    else if TakesValue(fs, arg) && i + 1 < |args| then
                      Words(Split(fs, args[i + 2..]).positional, [arg, args[i + 1]] + Split(fs, args[i + 2..]).rest)
                    else Words(Split(fs, args[i + 1..]).positional, [arg] + Split(fs, args[i + 1..]).rest)
  {
  }

  lemma Grown(seen: seq<string>, arg: string)
    requires OneHost(seen) && HostOf(seen) == ""
    ensures OneHost(seen + [arg]) && HostOf(seen + [arg]) == arg
  {
  }

  lemma SplitOfNothing(fs: Flags, args: seq<string>)
    ensures Split(fs, args[|args|..]) == Words([], [])
  {
  }

  lemma NoHostYet()
    ensures OneHost([]) && HostOf([]) == ""
  {
  }

  lemma FoundSecond(seen: seq<string>, arg: string, later: seq<string>)
    requires OneHost(seen) && HostOf(seen) != ""
    ensures !OneHost(seen + ([arg] + later)) && SecondHost(seen + ([arg] + later), arg)
  {
    var all := seen + ([arg] + later);
    assert all[|seen| - 1] != "" && all[|seen|] == arg;
    assert OneHost(all[..|seen|]);
  }

  /** The host and the other words, in order; an error names the first word that would be a second host. */
  method ExtractHost(fs: Flags, args: seq<string>) returns (r: Result<(string, seq<string>), string>)
    ensures r.Ok? <==> OneHost(Split(fs, args).positional)
    ensures r.Ok? ==> r.value == (HostOf(Split(fs, args).positional), Split(fs, args).rest)
    ensures r.Err? ==> SecondHost(Split(fs, args).positional, r.error)
  {
    var host := "";
    var rest: seq<string> := [];
    ghost var seen: seq<string> := [];
    hide Split, IsPositional, TakesValue, TrimDashes, OneHost, HostOf;
    NoHostYet();
    var i := 0;
    assert args[0..] == args;
    while i < |args|
      invariant i <= |args|
      invariant Split(fs, args) == Words(seen + Split(fs, args[i..]).positional, rest + Split(fs, args[i..]).rest)
      invariant OneHost(seen) && host == HostOf(seen)
    {
      var arg := args[i];
      SplitStep(fs, args, i);
      if arg == "--" {
        rest := rest + args[i..];
        assert Split(fs, args) == Words(seen, rest);
        break;
      }
      if IsPositional(arg) {
        if host != "" {
          FoundSecond(seen, arg, Split(fs, args[i + 1..]).positional);
          return Err(arg);
        }
        host := arg;
        Grown(seen, arg);
        seen := seen + [arg];
        i := i + 1;
        continue;
      }
      rest := rest + [arg];
      if TakesValue(fs, arg) && i + 1 < |args| {
        i := i + 1;
        rest := rest + [args[i]];
      }
      i := i + 1;
    }
    SplitOfNothing(fs, args);
    assert Split(fs, args) == Words(seen, rest);
    return Ok((host, rest));
  }

  // ---- Go's flag parser ----

  datatype Setting = Setting(name: string, value: string)

  /** Whether Flag.Value.Set takes this text. */
  type Accepts = Setting -> bool

  datatype ParseError = BadSyntax | Help | Undefined | MissingValue | Rejected

  /** The flags set, in order, and the words left over. */
  datatype Parsed = Parsed(settings: seq<Setting>, words: seq<string>)

  /** Where the first "=" after the first character is, if anywhere. */
  function EqualsAt(name: string, i: nat): (r: Option<nat>)
    requires i <= |name|
    ensures r.Some? ==> i <= r.value < |name| && name[r.value] == '='
    ensures r.None? ==> '=' !in name[i..]
    decreases |name| - i
  {
    if i == |name| then None else if name[i] == '=' then Some(i) else EqualsAt(name, i + 1)
  }

  /** What the parser makes of its first word: nothing more, an error, or one flag and how many words it used. */
  datatype Step = Stop(used: nat) | Fail(error: ParseError) | Flag(setting: Setting, used: nat)

  function Assign(fs: Flags, accepts: Accepts, name: string, value: Option<string>, used: nat): (r: Step)
    ensures r.Flag? ==> r.used == used && name in fs
    ensures !r.Stop?
  {
    if name !in fs then Fail(if name == "help" || name == "h" then Help else Undefined)
    else if value.None? && !fs[name] then Fail(MissingValue)
    else
      var setting := Setting(name, value.GetOr("true"));
      if accepts(setting) then Flag(setting, used) else Fail(Rejected)
  }

  function ParseOne(fs: Flags, accepts: Accepts, args: seq<string>): (r: Step)
    ensures r.Flag? ==> 1 <= r.used <= |args|
    ensures r.Stop? ==> r.used <= 1 && r.used <= |args|
  {
    if args == [] then Stop(0)
    else
      var s := args[0];
      if |s| < 2 || s[0] != '-' then Stop(0)
      else if s == "--" then Stop(1)
      else
        var name := s[if s[1] == '-' then 2 else 1..];
        if name == "" || name[0] == '-' || name[0] == '=' then Fail(BadSyntax)
        else
          match EqualsAt(name, 1)
          case Some(k) => Assign(fs, accepts, name[..k], Some(name[k + 1..]), 1)
          case None =>
            if name in fs && !fs[name] && |args| > 1 then Assign(fs, accepts, name, Some(args[1]), 2)
            else Assign(fs, accepts, name, None, 1)
  }

  function Prepend(setting: Setting, r: Result<Parsed, ParseError>): Result<Parsed, ParseError> {
    match r case Ok(p) => Ok(p.(settings := [setting] + p.settings)) case Err(e) => Err(e)
  }

  /** FlagSet.Parse: it stops at the first word that is not a flag. */
  function Parse(fs: Flags, accepts: Accepts, args: seq<string>): Result<Parsed, ParseError>
    decreases |args|
  {
    match ParseOne(fs, accepts, args)
    case Stop(used) => Ok(Parsed([], args[used..]))
    case Fail(e) => Err(e)
    case Flag(setting, used) => Prepend(setting, Parse(fs, accepts, args[used..]))
  }

  lemma {:induction false} EqualsAtFirst(name: string, i: nat, k: nat)
    requires i <= k < |name| && name[k] == '=' && forall j | i <= j < k :: name[j] != '='
    ensures EqualsAt(name, i) == Some(k)
    decreases k - i
  {
    if i < k { EqualsAtFirst(name, i + 1, k); }
  }

  /** A flag's own way of being written: with one dash or two. */
  predicate Dashes(s: string) {
    s == "-" || s == "--"
  }

  lemma {:induction false} NoEquals(name: string, i: nat)
    requires i <= |name| && '=' !in name
    ensures EqualsAt(name, i) == None
    decreases |name| - i
  {
    if i < |name| { NoEquals(name, i + 1); }
  }

  /** The forms of a flag: alone it is set to "true" or takes the next word, with "=" it takes what follows. */
  lemma FlagForms(fs: Flags, accepts: Accepts, dashes: string, name: string, value: string, rest: seq<string>)
    requires WellFormed(fs) && Dashes(dashes) && name in fs && name != "" && accepts(Setting(name, value))
    ensures fs[name] && accepts(Setting(name, "true")) ==>
              ParseOne(fs, accepts, [dashes + name] + rest) == Flag(Setting(name, "true"), 1)
    ensures !fs[name] ==> ParseOne(fs, accepts, [dashes + name, value] + rest) == Flag(Setting(name, value), 2)
    ensures ParseOne(fs, accepts, [dashes + name + "=" + value] + rest) == Flag(Setting(name, value), 1)
  {
    var alone, full := dashes + name, dashes + name + "=" + value;
    assert alone[|dashes|..] == name && full[|dashes|..] == name + "=" + value;
    assert alone[0] == '-' && full[0] == '-';
    assert |dashes| == 1 ==> alone[1] == name[0] == full[1];
    assert |dashes| == 2 ==> alone[1] == '-' == full[1];
    assert name[0] != '-' && '=' !in name;
    NoEquals(name, 1);
    EqualsAtFirst(name + "=" + value, 1, |name|);
    assert (name + "=" + value)[..|name|] == name && (name + "=" + value)[|name| + 1..] == value;
  }

  // ---- a parser that allows words anywhere, for reference ----

  datatype Reading = Reading(settings: seq<Setting>, positional: seq<string>, words: seq<string>)

  /** As Parse, but a word that is not a flag is set aside instead of ending the flags. */
  function ReadAnywhere(fs: Flags, accepts: Accepts, args: seq<string>): Result<Reading, ParseError>
    decreases |args|
  {
    match ParseOne(fs, accepts, args)
    case Stop(used) =>
      if args == [] || used == 1 then Ok(Reading([], [], args[used..]))
      else
        (match ReadAnywhere(fs, accepts, args[1..])
         case Ok(r) => Ok(r.(positional := [args[0]] + r.positional))
         case Err(e) => Err(e))
    case Fail(e) => Err(e)
    case Flag(setting, used) =>
      match ReadAnywhere(fs, accepts, args[used..])
      case Ok(r) => Ok(r.(settings := [setting] + r.settings))
      case Err(e) => Err(e)
  }

  lemma Trimmed(s: string, dashes: nat)
    requires |s| >= 2 && s[0] == '-' && dashes == (if s[1] == '-' then 2 else 1)
    requires s[dashes..] != "" && s[dashes..][0] != '-'
    ensures TrimDashes(s) == s[dashes..]
  {
    assert TrimDashes(s) == TrimDashes(s[1..]);
    if dashes == 2 {
      assert s[1..][1..] == s[2..];
    }
  }

  /** The splitter and the parser cut a command line into the same groups of words. */
  lemma SameGroup(fs: Flags, accepts: Accepts, args: seq<string>)
    requires WellFormed(fs) && args != []
    ensures var s := ParseOne(fs, accepts, args);
            && (s == Stop(1) <==> args[0] == "--")
            && (s == Stop(0) <==> IsPositional(args[0]))
            && (s.Flag? ==> s.used == if TakesValue(fs, args[0]) then 2 else 1)
  {
    var s := args[0];
    if s != [] && s[0] == '-' && s != "-" && s != "--" {
      var dashes := if s[1] == '-' then 2 else 1;
      var name := s[dashes..];
      if name != "" && name[0] != '-' && name[0] != '=' {
        Trimmed(s, dashes);
        assert '=' in s <==> '=' in name[1..];
      }
    }
  }

  lemma NothingToParse(fs: Flags, accepts: Accepts)
    ensures ParseOne(fs, accepts, []) == Stop(0)
  {
  }

  /** The parser looks at the first word, and at the second only if the first needs it. */
  lemma OneGroupOnly(fs: Flags, accepts: Accepts, args: seq<string>, other: seq<string>)
    requires WellFormed(fs) && args != [] && other != [] && other[0] == args[0]
    requires TakesValue(fs, args[0]) ==> (|args| > 1 <==> |other| > 1) && (|args| > 1 ==> other[1] == args[1])
    ensures ParseOne(fs, accepts, other) == ParseOne(fs, accepts, args)
  {
    var s := args[0];
    if s != [] && s[0] == '-' && s != "-" && s != "--" {
      var dashes := if s[1] == '-' then 2 else 1;
      var name := s[dashes..];
      if name != "" && name[0] != '-' && name[0] != '=' {
        Trimmed(s, dashes);
        assert '=' in s <==> '=' in name[1..];
      }
    }
  }

  /**
   Parsing what the splitter leaves is reading the whole command line with words allowed anywhere:
   the same error, or the same flags and the same words after "--", with the positional words set aside.
   */
  lemma {:induction false} AgreesWithParser(fs: Flags, accepts: Accepts, args: seq<string>)
    requires WellFormed(fs)
    ensures var split, read := Split(fs, args), ReadAnywhere(fs, accepts, args);
            && Parse(fs, accepts, split.rest) ==
               (match read case Ok(r) => Ok(Parsed(r.settings, r.words)) case Err(e) => Err(e))
            && (read.Ok? ==> read.value.positional == split.positional)
    decreases |args|
  {
    hide ParseOne, IsPositional, TakesValue, WellFormed;
    if args == [] {
      NothingToParse(fs, accepts);
    } else {
      SameGroup(fs, accepts, args);
      if args[0] == "--" {
      } else if IsPositional(args[0]) {
        AgreesWithParser(fs, accepts, args[1..]);
      } else {
        var n := if TakesValue(fs, args[0]) && |args| > 1 then 2 else 1;
        var rest := Split(fs, args).rest;
        assert rest == args[..n] + Split(fs, args[n..]).rest && rest[n..] == Split(fs, args[n..]).rest;
        OneGroupOnly(fs, accepts, args, rest);
        AgreesWithParser(fs, accepts, args[n..]);
      }
    }
  }

  /** Words the splitter passes as wholes, without reaching a "--": hosts, and flags with their values. */
  predicate Whole(fs: Flags, args: seq<string>)
    decreases |args|
  {
    args == [] ||
    (args[0] != "--"
     && if IsPositional(args[0]) || !TakesValue(fs, args[0]) then Whole(fs, args[1..])
        else |args| > 1 && Whole(fs, args[2..]))
  }

  /** The one command line is cut at its first "--" that is not a flag's value, or nowhere. */
  ghost predicate CutAtDashes(fs: Flags, args: seq<string>, before: seq<string>, after: seq<string>) {
    Whole(fs, before) && (args == before + ["--"] + after || (args == before && after == []))
  }

  lemma WholeStep(fs: Flags, args: seq<string>, n: nat, before: seq<string>, after: seq<string>)
    requires args != [] && args[0] != "--" && n <= |args|
    requires n == if !IsPositional(args[0]) && TakesValue(fs, args[0]) then 2 else 1
    requires CutAtDashes(fs, args[n..], before, after)
    ensures CutAtDashes(fs, args, args[..n] + before, after)
  {
    hide IsPositional, TakesValue;
    var all := args[..n] + before;
    assert all[n..] == before && all[0] == args[0];
    assert args == args[..n] + args[n..];
  }

  lemma {:induction false} ReadWords(fs: Flags, accepts: Accepts, args: seq<string>) returns (before: seq<string>)
    requires WellFormed(fs) && ReadAnywhere(fs, accepts, args).Ok?
    ensures CutAtDashes(fs, args, before, ReadAnywhere(fs, accepts, args).value.words)
    decreases |args|
  {
    hide ParseOne, IsPositional, TakesValue, WellFormed;
    if args == [] {
      NothingToParse(fs, accepts);
      before := [];
    } else {
      SameGroup(fs, accepts, args);
      if args[0] == "--" {
        before := [];
        assert args == [] + ["--"] + args[1..];
      } else {
        var n := if !IsPositional(args[0]) && TakesValue(fs, args[0]) then 2 else 1;
        before := ReadWords(fs, accepts, args[n..]);
        WholeStep(fs, args, n, before, ReadAnywhere(fs, accepts, args).value.words);
        before := args[..n] + before;
      }
    }
  }

  /** A successful parse leaves exactly the words after that "--", and none if there is no such "--". */
  lemma {:induction false} LeavesWordsAfterDashes(fs: Flags, accepts: Accepts, args: seq<string>)
    returns (before: seq<string>)
    requires WellFormed(fs) && Parse(fs, accepts, Split(fs, args).rest).Ok?
    ensures CutAtDashes(fs, args, before, Parse(fs, accepts, Split(fs, args).rest).value.words)
    decreases |args|
  {
    AgreesWithParser(fs, accepts, args);
    before := ReadWords(fs, accepts, args);
  }

  lemma CutStep(fs: Flags, args: seq<string>, n: nat, before: seq<string>, after: seq<string>)
    requires args != [] && args[0] != "--"
    requires n == if !IsPositional(args[0]) && TakesValue(fs, args[0]) then 2 else 1
    requires CutAtDashes(fs, args, before, after)
    ensures n <= |before| && n <= |args| && before == args[..n] + before[n..]
    ensures CutAtDashes(fs, args[n..], before[n..], after)
  {
    hide IsPositional, TakesValue;
    assert before[0] == args[0];
    assert before == args || args[n..] == before[n..] + ["--"] + after;
  }

  /** There is only one such cut. */
  lemma {:induction false} OneCut(fs: Flags, args: seq<string>, b: seq<string>, a: seq<string>, c: seq<string>,
                                  d: seq<string>)
    requires CutAtDashes(fs, args, b, a) && CutAtDashes(fs, args, c, d)
    ensures b == c && a == d
    decreases |args|
  {
    hide IsPositional, TakesValue;
    if args != [] && args[0] != "--" {
      var n := if !IsPositional(args[0]) && TakesValue(fs, args[0]) then 2 else 1;
      CutStep(fs, args, n, b, a);
      CutStep(fs, args, n, c, d);
      OneCut(fs, args[n..], b[n..], a, c[n..], d);
    } else if args != [] {
      assert args[1..] == a && args[1..] == d;
    }
  }

  // ---- what is removed, and where the host may stand ----

  /** One word of a list taken out, the others in order. */
  ghost predicate OneRemoved(args: seq<string>, rest: seq<string>, word: string) {
    exists k | 0 <= k <= |rest| :: args == rest[..k] + [word] + rest[k..]
  }

  lemma RemovedLater(head: seq<string>, args: seq<string>, rest: seq<string>, word: string)
    requires OneRemoved(args, rest, word)
    ensures OneRemoved(head + args, head + rest, word)
  {
    var k :| 0 <= k <= |rest| && args == rest[..k] + [word] + rest[k..];
    assert (head + rest)[..|head| + k] == head + rest[..k] && (head + rest)[|head| + k..] == rest[k..];
  }

  /** Nothing positional, nothing removed; one positional word, exactly that one is removed. */
  lemma {:induction false} RemovesPositional(fs: Flags, args: seq<string>)
    ensures var s := Split(fs, args);
            && (s.positional == [] ==> s.rest == args)
            && (|s.positional| == 1 ==> OneRemoved(args, s.rest, s.positional[0]))
            && |s.positional| + |s.rest| == |args|
            && forall word | word in s.positional :: word in args
    decreases |args|
  {
    hide IsPositional, TakesValue;
    if args != [] && args[0] != "--" {
      if IsPositional(args[0]) {
        RemovesPositional(fs, args[1..]);
        var rest := Split(fs, args).rest;
        assert args == [args[0]] + args[1..];
        if Split(fs, args[1..]).positional == [] {
          assert args == rest[..0] + [args[0]] + rest[0..];
        }
      } else {
        var n := if TakesValue(fs, args[0]) && |args| > 1 then 2 else 1;
        RemovesPositional(fs, args[n..]);
        var tail := Split(fs, args[n..]);
        assert args == args[..n] + args[n..];
        if |tail.positional| == 1 {
          RemovedLater(args[..n], args[n..], tail.rest, tail.positional[0]);
        }
      }
    }
  }

  /** What a successful split promises: no host and nothing changed, or the host out and the others in order. */
  ghost predicate OnlyHostRemoved(args: seq<string>, rest: seq<string>, host: string) {
    if host == "" then rest == args else OneRemoved(args, rest, host)
  }

  /**
   A successful split takes out exactly the host if and only if no empty word stands in a host's place:
   an empty word there is dropped without notice, and another host may follow it.
   */
  lemma ExactlyTheHostIsRemoved(fs: Flags, args: seq<string>)
    requires OneHost(Split(fs, args).positional)
    ensures OnlyHostRemoved(args, Split(fs, args).rest, HostOf(Split(fs, args).positional)) <==>
            "" !in Split(fs, args).positional
    ensures "" !in args ==> "" !in Split(fs, args).positional
  {
    RemovesPositional(fs, args);
    hide Split;
    var positional, rest := Split(fs, args).positional, Split(fs, args).rest;
    assert positional != [] ==> positional[0] in positional;
    if "" in positional {
      assert |rest| < |args| && (|positional| == 1 ==> HostOf(positional) == "");
    } else {
      assert |positional| <= 1;
    }
  }

  lemma EmptyWordIsDropped(fs: Flags)
    ensures Split(fs, ["", "host"]) == Words(["", "host"], []) && OneHost(["", "host"])
    ensures !OnlyHostRemoved(["", "host"], [], "host")
  {
  }

  /** Whole flags, each with its value: no other word, and nothing cut off. */
  predicate Complete(fs: Flags, args: seq<string>)
    decreases |args|
  {
    args == [] ||
    (!IsPositional(args[0]) && args[0] != "--"
     && if TakesValue(fs, args[0]) then |args| > 1 && Complete(fs, args[2..]) else Complete(fs, args[1..]))
  }

  /** How many words the first flag takes, and what the splitter makes of them. */
  lemma CompleteStep(fs: Flags, flags: seq<string>, args: seq<string>) returns (n: nat)
    requires Complete(fs, flags) && flags != []
    ensures 1 <= n <= |flags| && Complete(fs, flags[n..])
    ensures var tail := Split(fs, (flags + args)[n..]);
            Split(fs, flags + args) == Words(tail.positional, (flags + args)[..n] + tail.rest)
  {
    hide IsPositional, TakesValue;
    n := if TakesValue(fs, flags[0]) then 2 else 1;
  }

  lemma Sliced<T>(a: seq<T>, b: seq<T>, n: nat, c: seq<T>)
    requires n <= |a|
    ensures (a + b)[n..] == a[n..] + b && (a + b)[..n] + (a[n..] + c) == a + c
  {
  }

  lemma {:induction false} SplitAfterFlags(fs: Flags, flags: seq<string>, args: seq<string>)
    requires Complete(fs, flags)
    ensures Split(fs, flags + args) ==
            Words(Split(fs, args).positional, flags + Split(fs, args).rest)
    decreases |flags|
  {
    if flags == [] {
      assert flags + args == args;
    } else {
      hide *;
      var n := CompleteStep(fs, flags, args);
      SplitAfterFlags(fs, flags[n..], args);
      Sliced(flags, args, n, Split(fs, args).rest);
    }
  }

  lemma {:induction false} CompleteTogether(fs: Flags, a: seq<string>, b: seq<string>)
    requires Complete(fs, a) && Complete(fs, b)
    ensures Complete(fs, a + b)
    decreases |a|
  {
    hide IsPositional, TakesValue;
    if a == [] {
      assert a + b == b;
    } else {
      var n := if TakesValue(fs, a[0]) then 2 else 1;
      CompleteTogether(fs, a[n..], b);
      assert (a + b)[n..] == a[n..] + b;
    }
  }

  lemma AfterWord(fs: Flags, word: string, args: seq<string>)
    requires IsPositional(word)
    ensures Split(fs, [word] + args) == Words([word] + Split(fs, args).positional, Split(fs, args).rest)
  {
  }

  lemma WordAmongFlags(fs: Flags, a: seq<string>, b: seq<string>, c: seq<string>, word: string)
    requires Complete(fs, a) && Complete(fs, b) && IsPositional(word)
    ensures Split(fs, a + [word] + b + c) == Words([word] + Split(fs, c).positional, a + b + Split(fs, c).rest)
  {
    hide Split, Complete, IsPositional;
    SplitAfterFlags(fs, b, c);
    AfterWord(fs, word, b + c);
    SplitAfterFlags(fs, a, [word] + (b + c));
    assert a + [word] + b + c == a + ([word] + (b + c));
    assert a + (b + Split(fs, c).rest) == a + b + Split(fs, c).rest;
  }

  /** Moving the host across whole flags, before any "--", changes neither the host nor the rest. */
  lemma HostMayMove(fs: Flags, a: seq<string>, b: seq<string>, c: seq<string>, host: string)
    requires Complete(fs, a) && Complete(fs, b) && IsPositional(host)
    ensures Split(fs, a + [host] + b + c) == Split(fs, a + b + [host] + c)
  {
    WordAmongFlags(fs, a, b, c, host);
    CompleteTogether(fs, a, b);
    WordAmongFlags(fs, a + b, [], c, host);
    assert a + b + [] == a + b && (a + b) + [host] + [] + c == a + b + [host] + c;
  }

  // ---- the subcommand's own entry point ----

  datatype ArgsError = SecondHostGiven(word: string) | FlagError(error: ParseError) | HostMissing

  /** The outcome, from the words before "--" and what reading the whole line gives. */
  ghost predicate HostOutcome(positional: seq<string>, read: Result<Reading, ParseError>,
                              r: Result<string, ArgsError>)
  {
    if !OneHost(positional) then r.Err? && r.error.SecondHostGiven? && SecondHost(positional, r.error.word)
    else if read.Err? then r == Err(FlagError(read.error))
    else if HostOf(positional) == "" then r == Err(HostMissing)
    else r == Ok(HostOf(positional))
  }

  method ParseWithHost(fs: Flags, accepts: Accepts, args: seq<string>)
    returns (r: Result<string, ArgsError>, settings: seq<Setting>)
    requires WellFormed(fs)
    ensures HostOutcome(Split(fs, args).positional, ReadAnywhere(fs, accepts, args), r)
    ensures r.Ok? ==> settings == ReadAnywhere(fs, accepts, args).value.settings
  {
    AgreesWithParser(fs, accepts, args);
    settings := [];
    var split := ExtractHost(fs, args);
    if split.Err? {
      return Err(SecondHostGiven(split.error)), [];
    }
    var (host, rest) := split.value;
    var parsed := Parse(fs, accepts, rest);
    if parsed.Err? {
      return Err(FlagError(parsed.error)), [];
    }
    if host == "" {
      return Err(HostMissing), parsed.value.settings;
    }
    return Ok(host), parsed.value.settings;
  }
}
