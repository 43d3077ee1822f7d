/**
 * The command line of the pipeline runner (`_parse_main_args` in
 * app/pipeline.py): `--no-cache`, a `--months N` or `--months=N` period
 * count, and an optional venue filter given as the first bare argument.
 * The argument vector is a parameter; index 0 is the program name.
 */
module PipelineArgs {
  import opened Common
  import opened Models

  /** What the runner was asked to do: bypass the cache, restrict to one venue, override the period count. */
  datatype MainArgs = MainArgs(noCache: bool, venueFilter: Option<string>, months: Option<int>)

  const NoCacheFlag := "--no-cache"
  const MonthsFlag := "--months"
  const MonthsPrefix := "--months="

  /** `str.isdigit` over ASCII: at least one character, all of them digits. */
  predicate IsDigitText(s: string)
  {
    |s| > 0 && forall i :: 0 <= i < |s| ==> IsAsciiDigit(s[i])
  }

  /** `int(text)`: surrounding whitespace, an optional sign and decimal digits; None where it raises ValueError. */
  function ParseInt(text: string): (r: Option<int>)
    ensures r.Some? <==> IsDecimalInteger(Strip(text))
  {
    var t := Strip(text);
    if IsDecimalInteger(t) then Some(DecimalValue(t)) else None
  }

  /** `max(1, n)`. */
  function AtLeastOne(n: int): (r: int)
    ensures r >= 1 && r >= n && (r == 1 || r == n)
  {
    if n < 1 then 1 else n
  }

  /** The loop's state: the period count so far and the bare arguments met so far. */
  datatype ArgScan = ArgScan(months: Option<int>, positionals: seq<string>)

  /**
   * The argument loop from index `i`: `--no-cache` is skipped; `--months`
   * takes the next argument when it is all digits and is skipped alone
   * otherwise; `--months=X` sets the count when `X` is an integer and is
   * ignored otherwise; any other argument not starting with `--` is bare.
   */
  function ScanFrom(argv: seq<string>, i: nat, months: Option<int>, positionals: seq<string>): ArgScan
    decreases |argv| - i
  {
    if i >= |argv| then ArgScan(months, positionals)
    else
      var a := argv[i];
      if a == NoCacheFlag then ScanFrom(argv, i + 1, months, positionals)
      else if a == MonthsFlag then
        if i + 1 < |argv| && IsDigitText(argv[i + 1]) then
          ScanFrom(argv, i + 2, Some(AtLeastOne(DigitsValue(argv[i + 1]))), positionals)
        else ScanFrom(argv, i + 1, months, positionals)
      else if StartsWith(a, MonthsPrefix) then
        var v := ParseInt(a[|MonthsPrefix|..]);
        ScanFrom(argv, i + 1, if v.Some? then Some(AtLeastOne(v.value)) else months, positionals)
      else if !StartsWith(a, "--") then ScanFrom(argv, i + 1, months, positionals + [a])
      else ScanFrom(argv, i + 1, months, positionals)
  }

  /** What `_parse_main_args` returns for `argv`; `--no-cache` is looked for in the whole vector. */
  function MainArgsOf(argv: seq<string>): MainArgs
  {
    var s := ScanFrom(argv, 1, None, []);
    MainArgs(NoCacheFlag in argv, if s.positionals != [] then Some(s.positionals[0]) else None, s.months)
  }

  /** `_parse_main_args`: the index-driven loop over the arguments after the program name. */
  method ParseMainArgs(argv: seq<string>) returns (r: MainArgs)
    ensures r == MainArgsOf(argv)
  {
    var noCache := NoCacheFlag in argv;
    var months: Option<int> := None;
    var positionals: seq<string> := [];
    var i := 1;
    while i < |argv|
      invariant ScanFrom(argv, 1, None, []) == ScanFrom(argv, i, months, positionals)
      decreases |argv| - i
    {
      var a := argv[i];
      if a == NoCacheFlag {
        i := i + 1;
        continue;
      }
      if a == MonthsFlag {
        if i + 1 < |argv| && IsDigitText(argv[i + 1]) {
          months := Some(AtLeastOne(DigitsValue(argv[i + 1])));
          i := i + 2;
          continue;
        }
        i := i + 1;
        continue;
      }
      if StartsWith(a, MonthsPrefix) {
        var v := ParseInt(a[|MonthsPrefix|..]);
        if v.Some? {
          months := Some(AtLeastOne(v.value));
        }
        i := i + 1;
        continue;
      }
      if !StartsWith(a, "--") {
        positionals := positionals + [a];
      }
      i := i + 1;
    }
    var venueFilter: Option<string> := None;
    if positionals != [] {
      venueFilter := Some(positionals[0]);
    }
    return MainArgs(noCache, venueFilter, months);
  }

  // ---------------------------------------------------------------------
  // Properties
  // ---------------------------------------------------------------------

  lemma {:induction false} ScanMonthsPositive(argv: seq<string>, i: nat, months: Option<int>, positionals: seq<string>)
    requires months.Some? ==> months.value >= 1
    ensures var s := ScanFrom(argv, i, months, positionals); s.months.Some? ==> s.months.value >= 1
    decreases |argv| - i
  {
    if i < |argv| {
      var a := argv[i];
      if a == NoCacheFlag {
        ScanMonthsPositive(argv, i + 1, months, positionals);
      } else if a == MonthsFlag {
        if i + 1 < |argv| && IsDigitText(argv[i + 1]) {
          ScanMonthsPositive(argv, i + 2, Some(AtLeastOne(DigitsValue(argv[i + 1]))), positionals);
        } else {
          ScanMonthsPositive(argv, i + 1, months, positionals);
        }
      } else if StartsWith(a, MonthsPrefix) {
        var v := ParseInt(a[|MonthsPrefix|..]);
        ScanMonthsPositive(argv, i + 1, if v.Some? then Some(AtLeastOne(v.value)) else months, positionals);
      } else if !StartsWith(a, "--") {
        ScanMonthsPositive(argv, i + 1, months, positionals + [a]);
      } else {
        ScanMonthsPositive(argv, i + 1, months, positionals);
      }
    }
  }

  /** A period count given on the command line is never below 1. */
  lemma MonthsAtLeastOne(argv: seq<string>)
    ensures MainArgsOf(argv).months.Some? ==> MainArgsOf(argv).months.value >= 1
  {
    ScanMonthsPositive(argv, 1, None, []);
  }

  /** Without any `--months` option the count stays unset. */
  lemma {:induction false} ScanWithoutMonths(argv: seq<string>, i: nat, months: Option<int>, positionals: seq<string>)
    requires forall j :: i <= j < |argv| ==> argv[j] != MonthsFlag && !StartsWith(argv[j], MonthsPrefix)
    ensures ScanFrom(argv, i, months, positionals).months == months
    decreases |argv| - i
  {
    if i < |argv| {
      var a := argv[i];
      if a == NoCacheFlag || StartsWith(a, "--") {
        ScanWithoutMonths(argv, i + 1, months, positionals);
      } else {
        ScanWithoutMonths(argv, i + 1, months, positionals + [a]);
      }
    }
  }

  lemma NoMonthsOption(argv: seq<string>)
    requires forall j :: 1 <= j < |argv| ==> argv[j] != MonthsFlag && !StartsWith(argv[j], MonthsPrefix)
    ensures MainArgsOf(argv).months == None
  {
    ScanWithoutMonths(argv, 1, None, []);
  }

  /**
   * `s` keeps `positionals` in front and adds only arguments from index `i`
   * on that do not start with `--`.
   */
  predicate ExtendsWithBare(argv: seq<string>, i: nat, positionals: seq<string>, s: ArgScan)
  {
    |positionals| <= |s.positionals| && s.positionals[..|positionals|] == positionals &&
    forall k :: |positionals| <= k < |s.positionals| ==> BareFrom(argv, i, s.positionals[k])
  }

  /** `a` is an argument at index `i` or later that does not start with `--`. */
  predicate BareFrom(argv: seq<string>, i: nat, a: string)
  {
    exists j :: i <= j < |argv| && argv[j] == a && !StartsWith(argv[j], "--")
  }

  lemma ExtendsWithBareEarlier(argv: seq<string>, i: nat, i2: nat, positionals: seq<string>, s: ArgScan)
    requires i <= i2 && ExtendsWithBare(argv, i2, positionals, s)
    ensures ExtendsWithBare(argv, i, positionals, s)
  {
    forall k | |positionals| <= k < |s.positionals|
      ensures BareFrom(argv, i, s.positionals[k])
    {
      var j :| i2 <= j < |argv| && argv[j] == s.positionals[k] && !StartsWith(argv[j], "--");
    }
  }

  /** A bare argument is kept at the end of the list; what was met before it stays in front. */
  lemma {:induction false} ScanPositionals(argv: seq<string>, i: nat, months: Option<int>, positionals: seq<string>)
    ensures ExtendsWithBare(argv, i, positionals, ScanFrom(argv, i, months, positionals))
    decreases |argv| - i, 1
  {
    if i < |argv| {
      var a := argv[i];
      var s := ScanFrom(argv, i, months, positionals);
      if a == NoCacheFlag {
        ScanPositionals(argv, i + 1, months, positionals);
        assert s == ScanFrom(argv, i + 1, months, positionals);
        ExtendsWithBareEarlier(argv, i, i + 1, positionals, s);
      } else if a == MonthsFlag {
        if i + 1 < |argv| && IsDigitText(argv[i + 1]) {
          ScanPositionals(argv, i + 2, Some(AtLeastOne(DigitsValue(argv[i + 1]))), positionals);
          assert s == ScanFrom(argv, i + 2, Some(AtLeastOne(DigitsValue(argv[i + 1]))), positionals);
          ExtendsWithBareEarlier(argv, i, i + 2, positionals, s);
        } else {
          ScanPositionals(argv, i + 1, months, positionals);
          assert s == ScanFrom(argv, i + 1, months, positionals);
          ExtendsWithBareEarlier(argv, i, i + 1, positionals, s);
        }
      } else if StartsWith(a, MonthsPrefix) {
        var v := ParseInt(a[|MonthsPrefix|..]);
        ScanPositionals(argv, i + 1, if v.Some? then Some(AtLeastOne(v.value)) else months, positionals);
        assert s == ScanFrom(argv, i + 1, if v.Some? then Some(AtLeastOne(v.value)) else months, positionals);
        ExtendsWithBareEarlier(argv, i, i + 1, positionals, s);
      } else if !StartsWith(a, "--") {
        BareKept(argv, i, months, positionals);
      } else {
        ScanPositionals(argv, i + 1, months, positionals);
        assert s == ScanFrom(argv, i + 1, months, positionals);
        ExtendsWithBareEarlier(argv, i, i + 1, positionals, s);
      }
    } else {
      assert positionals[..|positionals|] == positionals;
    }
  }

  /** The step of `ScanPositionals` for a bare argument. */
  lemma {:induction false} BareKept(argv: seq<string>, i: nat, months: Option<int>, positionals: seq<string>)
    requires i < |argv| && argv[i] != NoCacheFlag && argv[i] != MonthsFlag
    requires !StartsWith(argv[i], MonthsPrefix) && !StartsWith(argv[i], "--")
    ensures ExtendsWithBare(argv, i, positionals, ScanFrom(argv, i, months, positionals))
    decreases |argv| - i, 0
  {
    var a := argv[i];
    var p := positionals + [a];
    ScanPositionals(argv, i + 1, months, p);
    var s := ScanFrom(argv, i + 1, months, p);
    assert ScanFrom(argv, i, months, positionals) == s;
    assert s.positionals[..|positionals|] == s.positionals[..|p|][..|positionals|];
    forall k | |positionals| <= k < |s.positionals|
      ensures BareFrom(argv, i, s.positionals[k])
    {
      if k == |positionals| {
        assert s.positionals[k] == s.positionals[..|p|][k] == a;
      }
    }
  }

  /** A string that starts with a string that starts with `q` starts with `q`. */
  lemma StartsWithTransitive(a: string, p: string, q: string)
    ensures StartsWith(a, p) && StartsWith(p, q) ==> StartsWith(a, q)
  {
    if StartsWith(a, p) && StartsWith(p, q) {
      assert a[..|q|] == a[..|p|][..|q|];
    }
  }

  /**
   * The venue filter is an argument after the program name that does not
   * start with `--`; when there is no such argument there is no filter.
   */
  lemma VenueFilterIsBareArgument(argv: seq<string>)
    ensures MainArgsOf(argv).venueFilter.Some? ==>
              exists j :: 1 <= j < |argv| && argv[j] == MainArgsOf(argv).venueFilter.value && !StartsWith(argv[j], "--")
    ensures (forall j :: 1 <= j < |argv| ==> StartsWith(argv[j], "--")) ==> MainArgsOf(argv).venueFilter == None
  {
    ScanPositionals(argv, 1, None, []);
  }

  /** An argument right after the program name that does not start with `--` is the venue filter. */
  lemma FirstBareArgumentIsFilter(argv: seq<string>)
    requires |argv| > 1 && !StartsWith(argv[1], "--")
    ensures MainArgsOf(argv).venueFilter == Some(argv[1])
  {
    assert argv[1] != NoCacheFlag && argv[1] != MonthsFlag && !StartsWith(argv[1], MonthsPrefix) by {
      assert StartsWith(NoCacheFlag, "--") && StartsWith(MonthsFlag, "--") && StartsWith(MonthsPrefix, "--");
      StartsWithTransitive(argv[1], MonthsPrefix, "--");
    }
    assert ScanFrom(argv, 1, None, []) == ScanFrom(argv, 2, None, [] + [argv[1]]);
    assert [] + [argv[1]] == [argv[1]];
    ScanPositionals(argv, 2, None, [argv[1]]);
    var s := ScanFrom(argv, 2, None, [argv[1]]);
    assert s.positionals[0] == s.positionals[..1][0];
  }

  /** The effect of one argument on the loop state, when it is not taken as the value of `--months`. */
  function ApplyOne(a: string, s: ArgScan): ArgScan
  {
    if a == NoCacheFlag || a == MonthsFlag then s
    else if StartsWith(a, MonthsPrefix) then
      var v := ParseInt(a[|MonthsPrefix|..]);
      if v.Some? then s.(months := Some(AtLeastOne(v.value))) else s
    else if !StartsWith(a, "--") then s.(positionals := s.positionals + [a])
    else s
  }

  /** An appended argument that is not all digits is always processed on its own, after everything before it. */
  lemma {:induction false} ScanAppend(argv: seq<string>, x: string, i: nat, months: Option<int>, positionals: seq<string>)
    requires !IsDigitText(x) && i <= |argv|
    ensures ScanFrom(argv + [x], i, months, positionals) == ApplyOne(x, ScanFrom(argv, i, months, positionals))
    decreases |argv| - i
  {
    var ax := argv + [x];
    if i == |argv| {
      assert ax[i] == x;
      assert ScanFrom(ax, i + 1, months, positionals) == ArgScan(months, positionals);
      if x != NoCacheFlag && x == MonthsFlag {
        assert !(i + 1 < |ax|);
      }
    } else {
      var a := argv[i];
      assert ax[i] == a;
      if a == NoCacheFlag {
        ScanAppend(argv, x, i + 1, months, positionals);
      } else if a == MonthsFlag {
        if i + 1 < |argv| && IsDigitText(argv[i + 1]) {
          assert ax[i + 1] == argv[i + 1];
          ScanAppend(argv, x, i + 2, Some(AtLeastOne(DigitsValue(argv[i + 1]))), positionals);
        } else {
          assert i + 1 < |ax| ==> ax[i + 1] == (if i + 1 < |argv| then argv[i + 1] else x);
          ScanAppend(argv, x, i + 1, months, positionals);
        }
      } else if StartsWith(a, MonthsPrefix) {
        var v := ParseInt(a[|MonthsPrefix|..]);
        ScanAppend(argv, x, i + 1, if v.Some? then Some(AtLeastOne(v.value)) else months, positionals);
      } else if !StartsWith(a, "--") {
        ScanAppend(argv, x, i + 1, months, positionals + [a]);
      } else {
        ScanAppend(argv, x, i + 1, months, positionals);
      }
    }
  }

  /** A `--months=N` at the end of the command line overrides every earlier period count; nothing else changes. */
  lemma LastMonthsOptionWins(argv: seq<string>, x: string)
    requires |argv| >= 1 && ParseInt(x).Some?
    ensures var r := MainArgsOf(argv + [MonthsPrefix + x]);
      r.months == Some(AtLeastOne(ParseInt(x).value)) && r.venueFilter == MainArgsOf(argv).venueFilter &&
      r.noCache == MainArgsOf(argv).noCache
  {
    var opt := MonthsPrefix + x;
    assert !IsDigitText(opt) by {
      assert opt[0] == '-';
    }
    assert StartsWith(opt, MonthsPrefix) && opt[|MonthsPrefix|..] == x && opt != NoCacheFlag && opt != MonthsFlag;
    ScanAppend(argv, opt, 1, None, []);
    var s := ScanFrom(argv, 1, None, []);
    ScanPositionals(argv, 1, None, []);
    assert (NoCacheFlag in argv + [opt]) == (NoCacheFlag in argv) by {
      assert opt != NoCacheFlag;
      assert forall a :: a in argv + [opt] <==> a in argv || a == opt;
    }
  }

  /** `--months` followed by a number sets the count to that number (at least 1). */
  lemma MonthsFlagValue(program: string, n: nat)
    ensures MainArgsOf([program, MonthsFlag, NatToString(n)]).months == Some(AtLeastOne(n))
  {
    var argv := [program, MonthsFlag, NatToString(n)];
    NatToStringValue(n);
    assert |MonthsFlag| != |NoCacheFlag|;
    assert argv[1] == MonthsFlag && IsDigitText(argv[2]);
    assert ScanFrom(argv, 1, None, []) == ScanFrom(argv, 3, Some(AtLeastOne(n)), []);
  }

  /** `--months` followed by a word that is not a number leaves the count unset, and the word is read on its own. */
  lemma MonthsFlagWithoutNumber(program: string, word: string)
    requires program != NoCacheFlag && !IsDigitText(word) && !StartsWith(word, "--")
    ensures MainArgsOf([program, MonthsFlag, word]) == MainArgs(false, Some(word), None)
  {
    var argv := [program, MonthsFlag, word];
    assert |MonthsFlag| != |NoCacheFlag|;
    assert argv[1] == MonthsFlag && argv[2] == word;
    assert word != NoCacheFlag && word != MonthsFlag && !StartsWith(word, MonthsPrefix) by {
      assert StartsWith(NoCacheFlag, "--") && StartsWith(MonthsFlag, "--") && StartsWith(MonthsPrefix, "--");
      StartsWithTransitive(word, MonthsPrefix, "--");
    }
    assert ScanFrom(argv, 1, None, []) == ScanFrom(argv, 2, None, []);
    assert ScanFrom(argv, 2, None, []) == ScanFrom(argv, 3, None, [] + [word]);
    assert NoCacheFlag !in argv;
  }
}
