/**
  How `project_run` picks one launch configuration from a selector: as a 0-based
  index when the selector is an `int` for `Integer.parseInt`, otherwise as a
  case-sensitive name prefix that exactly one configuration must have.

  `Resolve` is the reference definition. It counts the prefix matches; the
  command's own scan (`ProjectRunCommand.Select`) stops at the second match, and
  its contract says the two agree.
 */
module SelectorResolution {
  import opened Wrappers
  import opened JavaText

  /** An `ILaunchConfiguration`: the name the command reads and an opaque identity it hands back to the launcher. */
  datatype Config = Config(name: string, handle: nat)

  /** The outcome of resolving a selector. */
  datatype Selection = Selected(config: Config) | IndexOutOfRange | MultipleFound | NotFound

  /** `String.startsWith`: `prefix` is an exact leading part of `s`. */
  predicate StartsWith(s: string, prefix: string) {
    prefix <= s
  }

  predicate IsMatch(c: Config, prefix: string) {
    StartsWith(c.name, prefix)
  }

  /** The configurations whose names start with `prefix`, in their order. */
  function PrefixMatches(configs: seq<Config>, prefix: string): seq<Config>
  {
    if configs == [] then []
    else (if IsMatch(configs[0], prefix) then [configs[0]] else []) + PrefixMatches(configs[1..], prefix)
  }

  /** What the command selects for `selector` among `configs`. */
  function Resolve(selector: string, configs: seq<Config>): (r: Selection)
    ensures r.IndexOutOfRange? ==> ParseInt(selector).Some?
    ensures r.Selected? ==> r.config in configs
    ensures r.Selected? && ParseInt(selector).None? ==> IsMatch(r.config, selector)
  {
    match ParseInt(selector)
    case Some(index) =>
      if 0 <= index < |configs| then Selected(configs[index]) else IndexOutOfRange
    case None =>
      var matches := PrefixMatches(configs, selector);
      PrefixMatchesMembers(configs, selector);
      assert |matches| > 0 ==> matches[0] in matches;
      if |matches| == 0 then NotFound
      else if |matches| == 1 then Selected(matches[0])
      else MultipleFound
  }

  // ---- Prefix matches ----

  /** Filtering a concatenation filters each part. */
  lemma {:induction false} PrefixMatchesAppend(xs: seq<Config>, ys: seq<Config>, prefix: string)
    ensures PrefixMatches(xs + ys, prefix) == PrefixMatches(xs, prefix) + PrefixMatches(ys, prefix)
  {
    if xs == [] {
      assert xs + ys == ys;
    } else {
      assert (xs + ys)[1..] == xs[1..] + ys;
      PrefixMatchesAppend(xs[1..], ys, prefix);
    }
  }

  /** The matches are exactly the configurations of the list whose names start with the prefix. */
  lemma {:induction false} PrefixMatchesMembers(configs: seq<Config>, prefix: string)
    ensures forall c :: c in PrefixMatches(configs, prefix) <==> c in configs && IsMatch(c, prefix)
  {
    if configs != [] {
      PrefixMatchesMembers(configs[1..], prefix);
      assert configs == [configs[0]] + configs[1..];
    }
  }

  /** Every position whose name matches contributes one match. */
  lemma MatchAtIndex(configs: seq<Config>, prefix: string, k: nat)
    requires k < |configs| && IsMatch(configs[k], prefix)
    ensures configs[k] in PrefixMatches(configs, prefix)
  {
    PrefixMatchesMembers(configs, prefix);
  }

  /** No match at all exactly when no name starts with the prefix. */
  lemma NoMatchIff(configs: seq<Config>, prefix: string)
    ensures PrefixMatches(configs, prefix) == [] <==>
            forall k :: 0 <= k < |configs| ==> !IsMatch(configs[k], prefix)
  {
    PrefixMatchesMembers(configs, prefix);
    if PrefixMatches(configs, prefix) != [] {
      assert PrefixMatches(configs, prefix)[0] in PrefixMatches(configs, prefix);
    }
  }

  /** Two different matching positions give two matches. */
  lemma TwoMatchesSeveral(configs: seq<Config>, prefix: string, j: nat, k: nat)
    requires j < k < |configs| && IsMatch(configs[j], prefix) && IsMatch(configs[k], prefix)
    ensures |PrefixMatches(configs, prefix)| >= 2
  {
    assert configs == configs[..k] + configs[k..];
    PrefixMatchesAppend(configs[..k], configs[k..], prefix);
    MatchAtIndex(configs[..k], prefix, j);
    MatchAtIndex(configs[k..], prefix, 0);
  }

  /** Two matches or more come from two different matching positions. */
  lemma {:induction false} SeveralMatchesWitness(configs: seq<Config>, prefix: string)
    requires |PrefixMatches(configs, prefix)| >= 2
    ensures exists j, k :: 0 <= j < k < |configs| && IsMatch(configs[j], prefix) && IsMatch(configs[k], prefix)
  {
    var rest := configs[1..];
    if IsMatch(configs[0], prefix) {
      var m := PrefixMatches(rest, prefix);
      PrefixMatchesMembers(rest, prefix);
      assert m[0] in m;
      var k :| 0 <= k < |rest| && rest[k] == m[0];
      assert IsMatch(configs[0], prefix) && IsMatch(configs[k + 1], prefix);
    } else {
      SeveralMatchesWitness(rest, prefix);
      var j, k :| 0 <= j < k < |rest| && IsMatch(rest[j], prefix) && IsMatch(rest[k], prefix);
      assert IsMatch(configs[j + 1], prefix) && IsMatch(configs[k + 1], prefix);
    }
  }

  /** Two matches or more exactly when two different positions match. */
  lemma SeveralMatchesIff(configs: seq<Config>, prefix: string)
    ensures |PrefixMatches(configs, prefix)| >= 2 <==>
            exists j, k :: 0 <= j < k < |configs| && IsMatch(configs[j], prefix) && IsMatch(configs[k], prefix)
  {
    if |PrefixMatches(configs, prefix)| >= 2 {
      SeveralMatchesWitness(configs, prefix);
    }
    if exists j, k :: 0 <= j < k < |configs| && IsMatch(configs[j], prefix) && IsMatch(configs[k], prefix) {
      var j, k :| 0 <= j < k < |configs| && IsMatch(configs[j], prefix) && IsMatch(configs[k], prefix);
      TwoMatchesSeveral(configs, prefix, j, k);
    }
  }

  /** Each config appears among the matches as often as in the list when it matches, and never otherwise. */
  lemma {:induction false} PrefixMatchesCount(configs: seq<Config>, prefix: string, c: Config)
    ensures multiset(PrefixMatches(configs, prefix))[c] == if IsMatch(c, prefix) then multiset(configs)[c] else 0
  {
    if configs != [] {
      PrefixMatchesCount(configs[1..], prefix, c);
      assert configs == [configs[0]] + configs[1..];
    }
  }

  // ---- Resolution ----

  /**
    The index path. An `int` selector is always an index: it selects the
    configuration at that position when there is one and is out of range
    otherwise, whatever the names are.
   */
  lemma IndexSelects(i: int, configs: seq<Config>)
    requires IntMin <= i <= IntMax
    ensures 0 <= i < |configs| ==> Resolve(IntToString(i), configs) == Selected(configs[i])
    ensures i < 0 || i >= |configs| ==> Resolve(IntToString(i), configs) == IndexOutOfRange
  {
    ParseIntToString(i);
  }

  /**
    The index path, for every spelling of an `int` (signs and leading zeros
    included): "Index Out of Range" happens exactly for an `int` selector outside
    the list, and an `int` inside it selects that position. A selector that is
    not an `int` is therefore never out of range.
   */
  lemma IndexPathIff(selector: string, configs: seq<Config>)
    ensures Resolve(selector, configs) == IndexOutOfRange <==>
            ParseInt(selector).Some? && !(0 <= ParseInt(selector).value < |configs|)
    ensures ParseInt(selector).Some? && 0 <= ParseInt(selector).value < |configs| ==>
            Resolve(selector, configs) == Selected(configs[ParseInt(selector).value])
    ensures ParseInt(selector).None? ==> Resolve(selector, configs) != IndexOutOfRange
  {
  }

  /** A digit string too large for an `int` is no index: it is matched as a name prefix. */
  lemma OverflowIsPrefix(n: nat, configs: seq<Config>)
    requires n > IntMax
    ensures Resolve(DecimalDigits(n), configs) != IndexOutOfRange
    ensures Resolve(DecimalDigits(n), configs) == NotFound <==>
            forall k :: 0 <= k < |configs| ==> !IsMatch(configs[k], DecimalDigits(n))
  {
    ParseIntOverflow(n);
    NoMatchIff(configs, DecimalDigits(n));
  }

  /** "Configuration Not Found" is reported exactly for a non-`int` selector that starts no name. */
  lemma NotFoundIff(selector: string, configs: seq<Config>)
    ensures Resolve(selector, configs) == NotFound <==>
            ParseInt(selector).None? && forall k :: 0 <= k < |configs| ==> !IsMatch(configs[k], selector)
  {
    NoMatchIff(configs, selector);
  }

  /** "Multiple Launch Configurations Found" is reported exactly for a non-`int` selector that starts two names or more. */
  lemma MultipleFoundIff(selector: string, configs: seq<Config>)
    ensures Resolve(selector, configs) == MultipleFound <==>
            ParseInt(selector).None? &&
            exists j, k :: 0 <= j < k < |configs| && IsMatch(configs[j], selector) && IsMatch(configs[k], selector)
  {
    SeveralMatchesIff(configs, selector);
  }

  /** A non-`int` selector that starts exactly one name, at position `j`, selects that configuration. */
  lemma UniquePrefixSelects(selector: string, configs: seq<Config>, j: nat)
    requires ParseInt(selector).None?
    requires j < |configs| && IsMatch(configs[j], selector)
    requires forall k :: 0 <= k < |configs| && k != j ==> !IsMatch(configs[k], selector)
    ensures Resolve(selector, configs) == Selected(configs[j])
  {
    var m := PrefixMatches(configs, selector);
    MatchAtIndex(configs, selector, j);
    SeveralMatchesIff(configs, selector);
    assert |m| == 1;
    PrefixMatchesMembers(configs, selector);
    assert m[0] in m;
  }

  /** Conversely, a non-`int` selector selects only a configuration whose name it alone starts. */
  lemma PrefixSelectionIsUnique(selector: string, configs: seq<Config>, c: Config)
    requires ParseInt(selector).None?
    requires Resolve(selector, configs) == Selected(c)
    ensures exists j :: 0 <= j < |configs| && configs[j] == c && IsMatch(c, selector) &&
                        forall k :: 0 <= k < |configs| && k != j ==> !IsMatch(configs[k], selector)
  {
    var m := PrefixMatches(configs, selector);
    PrefixMatchesMembers(configs, selector);
    SeveralMatchesIff(configs, selector);
    assert m[0] == c && c in m;
    var j :| 0 <= j < |configs| && configs[j] == c;
  }

  /**
    On the prefix path the order of the configurations does not matter: a
    reordered list gives the same outcome, the same configuration included.
   */
  lemma PrefixPathIgnoresOrder(selector: string, a: seq<Config>, b: seq<Config>)
    requires ParseInt(selector).None?
    requires multiset(a) == multiset(b)
    ensures Resolve(selector, a) == Resolve(selector, b)
  {
    var ma, mb := PrefixMatches(a, selector), PrefixMatches(b, selector);
    forall c ensures multiset(ma)[c] == multiset(mb)[c] {
      PrefixMatchesCount(a, selector, c);
      PrefixMatchesCount(b, selector, c);
    }
    assert multiset(ma) == multiset(mb);
    assert |ma| == |multiset(ma)| == |multiset(mb)| == |mb|;
    if |ma| == 1 {
      assert ma == [ma[0]] && mb == [mb[0]];
      assert ma[0] in multiset(mb);
    }
  }

  /** The configurations of the examples below: `build`, `build-debug`, `test`. */
  function ExampleConfigs(): seq<Config> {
    [Config("build", 0), Config("build-debug", 1), Config("test", 2)]
  }

  /** Index selectors: in range, out of range, negative, signed and zero-padded. */
  lemma IndexExamples()
    ensures Resolve("2", ExampleConfigs()) == Selected(Config("test", 2))
    ensures Resolve("3", ExampleConfigs()) == IndexOutOfRange
    ensures Resolve("-1", ExampleConfigs()) == IndexOutOfRange
    ensures Resolve("+1", ExampleConfigs()) == Selected(Config("build-debug", 1))
    ensures Resolve("01", ExampleConfigs()) == Selected(Config("build-debug", 1))
  {
    assert "2" == IntToString(2) && "3" == IntToString(3) && "-1" == IntToString(-1);
    IndexSelects(2, ExampleConfigs());
    IndexSelects(3, ExampleConfigs());
    IndexSelects(-1, ExampleConfigs());
    assert ParseInt("+1") == Some(1);
    assert ParseInt("01") == Some(1);
  }

  /** A unique name selects it, even the exact name of one; an exact name that starts another is ambiguous. */
  lemma NameExamples()
    ensures Resolve("test", ExampleConfigs()) == Selected(Config("test", 2))
    ensures Resolve("build", ExampleConfigs()) == MultipleFound
  {
    var cs := ExampleConfigs();
    assert ParseInt("test") == None && ParseInt("build") == None;
    assert !IsMatch(cs[0], "test") && !IsMatch(cs[1], "test") && IsMatch(cs[2], "test");
    UniquePrefixSelects("test", cs, 2);
    assert IsMatch(cs[0], "build") && IsMatch(cs[1], "build");
    MultipleFoundIff("build", cs);
  }

  /** An unknown name is not found; the empty selector starts every name. */
  lemma MissingAndEmptyExamples()
    ensures Resolve("missing", ExampleConfigs()) == NotFound
    ensures Resolve("", ExampleConfigs()) == MultipleFound
  {
    var cs := ExampleConfigs();
    assert ParseInt("missing") == None && ParseInt("") == None;
    assert !IsMatch(cs[0], "missing") && !IsMatch(cs[1], "missing") && !IsMatch(cs[2], "missing");
    NotFoundIff("missing", cs);
    assert IsMatch(cs[0], "") && IsMatch(cs[1], "");
    MultipleFoundIff("", cs);
  }

  /** `IntMax + 1` written out in decimal. */
  lemma TooLargeDigits()
    ensures DecimalDigits(IntMax + 1) == "2147483648"
  {
    assert DecimalDigits(2) == "2";
    assert DecimalDigits(21) == "21";
    assert DecimalDigits(214) == "214";
    assert DecimalDigits(2147) == "2147";
    assert DecimalDigits(21474) == "21474";
    assert DecimalDigits(214748) == "214748";
    assert DecimalDigits(2147483) == "2147483";
    assert DecimalDigits(21474836) == "21474836";
    assert DecimalDigits(214748364) == "214748364";
  }

  /** `2147483648` is one more than the largest `int`: it is looked up as a name and not found. */
  lemma OverflowExample()
    ensures Resolve("2147483648", ExampleConfigs()) == NotFound
  {
    var cs := ExampleConfigs();
    TooLargeDigits();
    OverflowIsPrefix(IntMax + 1, cs);
    assert !IsMatch(cs[0], "2147483648") && !IsMatch(cs[1], "2147483648") && !IsMatch(cs[2], "2147483648");
  }
}
