/**
  The text `project_run -l` prints: one line per launch configuration, in the
  order the launch manager gives them, either the bare name or the name behind
  its 0-based index printed with `%-3d` (left-justified, at least three wide).
 */
module ConfigurationListing {
  import opened JavaText
  import opened SelectorResolution

  /**
    `FORMAT_SHOW_INDICES`, that is `"%-3d: %s\n"`: the index in decimal, padded
    on the right to at least three characters, then `": "`, the name and a line
    break. `IndexedLineLayout` states the padding.
   */
  function IndexedLine(index: nat, name: string): (r: string)
    ensures |DecimalDigits(index)| + |name| + 3 <= |r|
    ensures r[..|DecimalDigits(index)|] == DecimalDigits(index)
    ensures r[|r| - |name| - 3..] == ": " + name + "\n"
  {
    var p := PadRight(DecimalDigits(index), 3);
    assert (p + ": " + name + "\n")[|p|..] == ": " + name + "\n";
    p + ": " + name + "\n"
  }

  /** `FORMAT_NO_INDICES`, that is `"%s\n"`: the name alone on its line. */
  function PlainLine(name: string): (r: string)
    ensures |r| == |name| + 1 && r[..|name|] == name && r[|name|] == '\n'
  {
    name + "\n"
  }

  function Line(index: nat, name: string, showIndices: bool): string {
    if showIndices then IndexedLine(index, name) else PlainLine(name)
  }

  /**
    The lines of `configs`, the first of them numbered `first`: at least one
    character, the line break, per configuration, and six per indexed line.
   */
  function ListingFrom(configs: seq<Config>, first: nat, showIndices: bool): (r: string)
    ensures |r| >= (if showIndices then 6 else 1) * |configs|
    decreases |configs|
  {
    if configs == [] then ""
    else Line(first, configs[0].name, showIndices) + ListingFrom(configs[1..], first + 1, showIndices)
  }

  /**
    The text of `listConfigurations`: the lines of all configurations, numbered
    from 0, so the first line is that of the first configuration with index 0.
   */
  function Listing(configs: seq<Config>, showIndices: bool): (r: string)
    ensures r == [] <==> configs == []
    ensures configs != [] && showIndices ==> |r| >= 5 && r[..5] == "0  : "
    ensures configs != [] && !showIndices ==>
              |r| > |configs[0].name| && r[..|configs[0].name| + 1] == configs[0].name + "\n"
  {
    assert DecimalDigits(0) == "0";
    ListingFrom(configs, 0, showIndices)
  }

  /** The number of line breaks in `s`. */
  function Newlines(s: string): nat {
    if s == [] then 0 else (if s[0] == '\n' then 1 else 0) + Newlines(s[1..])
  }

  predicate SingleLineNames(configs: seq<Config>) {
    forall k :: 0 <= k < |configs| ==> '\n' !in configs[k].name
  }

  lemma AppendAssociative<T>(a: seq<T>, b: seq<T>, c: seq<T>)
    ensures a + (b + c) == (a + b) + c
  {
  }

  /** Listing two lists one after the other numbers the second from where the first stopped. */
  lemma {:induction false} ListingFromAppend(xs: seq<Config>, ys: seq<Config>, first: nat, showIndices: bool)
    ensures ListingFrom(xs + ys, first, showIndices) ==
            ListingFrom(xs, first, showIndices) + ListingFrom(ys, first + |xs|, showIndices)
  {
    if xs == [] {
      assert xs + ys == ys;
    } else {
      var line := Line(first, xs[0].name, showIndices);
      assert (xs + ys)[0] == xs[0] && (xs + ys)[1..] == xs[1..] + ys;
      ListingFromAppend(xs[1..], ys, first + 1, showIndices);
      AppendAssociative(line, ListingFrom(xs[1..], first + 1, showIndices),
                        ListingFrom(ys, first + |xs|, showIndices));
    }
  }

  /** The listing of the first `i + 1` configurations adds line `i` to that of the first `i`. */
  lemma ListingPrefixStep(configs: seq<Config>, i: nat, showIndices: bool)
    requires i < |configs|
    ensures Listing(configs[..i + 1], showIndices) ==
            Listing(configs[..i], showIndices) + Line(i, configs[i].name, showIndices)
  {
    assert configs[..i + 1] == configs[..i] + [configs[i]];
    ListingFromAppend(configs[..i], [configs[i]], 0, showIndices);
  }

  /**
    Where the index and the name stand in an indexed line: the index comes
    first; below 1000 it is padded with spaces to three characters, so the
    `": "` separators of the first thousand lines line up; from 1000 on nothing
    is added.
   */
  lemma IndexedLineLayout(index: nat, name: string)
    ensures var line, d := IndexedLine(index, name), DecimalDigits(index);
            |d| <= |line| && line[..|d|] == d &&
            (index < 1000 ==>
               |line| == |name| + 6 &&
               (forall k :: |d| <= k < 3 ==> line[k] == ' ') &&
               line[3..] == ": " + name + "\n") &&
            (index >= 1000 ==> line == d + ": " + name + "\n")
  {
    DecimalDigitsWidth(index);
    var d := DecimalDigits(index);
    var p := PadRight(d, 3);
    assert IndexedLine(index, name) == p + (": " + name + "\n");
  }

  /**
    The index printed on line `k` of an indexed listing, given back as the
    selector, selects the configuration listed on that line. A Java list holds at
    most `IntMax` elements, so every printed index is an `int`.
   */
  lemma ListedIndexSelects(configs: seq<Config>, k: nat)
    requires |configs| <= IntMax
    requires k < |configs|
    ensures Resolve(DecimalDigits(k), configs) == Selected(configs[k])
  {
    IndexSelects(k, configs);
  }

  lemma {:induction false} NewlinesAppend(s: string, t: string)
    ensures Newlines(s + t) == Newlines(s) + Newlines(t)
  {
    if s == [] {
      assert s + t == t;
    } else {
      assert (s + t)[1..] == s[1..] + t;
      NewlinesAppend(s[1..], t);
    }
  }

  lemma {:induction false} NoNewlines(s: string)
    requires '\n' !in s
    ensures Newlines(s) == 0
  {
    if s != [] {
      assert s == [s[0]] + s[1..];
      NoNewlines(s[1..]);
    }
  }

  /** When no name holds a line break, the listing has exactly one line per configuration. */
  lemma {:induction false} ListingLineCount(configs: seq<Config>, first: nat, showIndices: bool)
    requires SingleLineNames(configs)
    ensures Newlines(ListingFrom(configs, first, showIndices)) == |configs|
  {
    if configs != [] {
      var name := configs[0].name;
      var body := if showIndices then PadRight(DecimalDigits(first), 3) + ": " + name else name;
      assert Line(first, name, showIndices) == body + "\n";
      DecimalDigitsValue(first);
      assert '\n' !in body;
      NoNewlines(body);
      NewlinesAppend(body, "\n");
      ListingLineCount(configs[1..], first + 1, showIndices);
      NewlinesAppend(Line(first, name, showIndices), ListingFrom(configs[1..], first + 1, showIndices));
    }
  }

  /** A one-digit index is followed by two spaces of padding. */
  lemma SingleDigitLine(index: nat, name: string)
    requires index < 10
    ensures IndexedLine(index, name) == [DigitChar(index)] + "  : " + name + "\n"
  {
    assert PadRight([DigitChar(index)], 3) == [DigitChar(index)] + "  ";
  }

  /** A listing is empty exactly when there is nothing to list; otherwise it ends with a line break. */
  lemma {:induction false} ListingEnds(configs: seq<Config>, first: nat, showIndices: bool)
    ensures var text := ListingFrom(configs, first, showIndices);
            (text == [] <==> configs == []) && (text != [] ==> text[|text| - 1] == '\n')
  {
    if configs != [] {
      ListingEnds(configs[1..], first + 1, showIndices);
    }
  }

  /** A two-configuration listing is the line of each, numbered 0 and 1. */
  lemma TwoLines(a: Config, b: Config, showIndices: bool)
    ensures Listing([a, b], showIndices) == Line(0, a.name, showIndices) + Line(1, b.name, showIndices)
  {
    assert [a, b][1..] == [b] && [b][1..] == [];
    var second := Line(1, b.name, showIndices);
    assert ListingFrom([b], 1, showIndices) == second + ListingFrom([], 2, showIndices) == second;
  }

  lemma ExampleIndexedLines()
    ensures Line(0, "cfg0", true) == "0  : cfg0\n"
    ensures Line(1, "cfg1", true) == "1  : cfg1\n"
  {
    SingleDigitLine(0, "cfg0");
    SingleDigitLine(1, "cfg1");
  }

  /** Two configurations listed without indices. */
  lemma ListingExample()
    ensures Listing([Config("cfg0", 0), Config("cfg1", 1)], false) == "cfg0\ncfg1\n"
  {
    TwoLines(Config("cfg0", 0), Config("cfg1", 1), false);
  }

  /** The same two configurations listed with indices: `%-3d` pads on the right. */
  lemma IndexedListingExample()
    ensures Listing([Config("cfg0", 0), Config("cfg1", 1)], true) == "0  : cfg0\n1  : cfg1\n"
  {
    TwoLines(Config("cfg0", 0), Config("cfg1", 1), true);
    ExampleIndexedLines();
  }
}
