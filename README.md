# eclim `project_run`: selector resolution and dispatch, in Dafny

This project models the core of eclim's `project_run` command
(`ProjectRunCommand.java`). The command takes the IDE's launch configurations
and does one of two things:

- with `-l`, it lists them, one per line, with their 0-based indices when `-i` is also given;
- otherwise it takes exactly one free argument, the selector, and launches the
  configuration it picks, in debug mode with `-d` and in run mode without.

The selector is an index when `Integer.parseInt` accepts it. That means an
optional sign, decimal digits, and a value inside Java's `int` range. An index
selects the configuration at that position, or is out of range; it never falls
back to name matching. Any other selector is a case-sensitive name prefix: one
matching name launches it, two or more are ambiguous, none is not found.

Files and modules:

- `wrappers.dfy` (`Wrappers`): `Option` and `Result`.
- `java_text.dfy` (`JavaText`): the Java library behaviour the command relies
  on. This covers `Integer.parseInt` with radix 10 (`ParseInt`), the `%d`
  conversion (`DecimalDigits`, `IntToString`) and the left-justified `%-3d`
  (`PadRight`). It also proves the round trip between printing and parsing.
- `selection.dfy` (`SelectorResolution`): `Config`, the `Selection` outcomes, and
  `Resolve`, the reference definition of what a selector selects. `Resolve`
  counts the prefix matches. The lemmas state each outcome as an if-and-only-if
  condition on the selector and the names (`IndexPathIff`, `NotFoundIff`,
  `MultipleFoundIff`, and `UniquePrefixSelects` with `PrefixSelectionIsUnique`),
  and show the prefix outcome does not depend on the order of the
  configurations.
- `listing.dfy` (`ConfigurationListing`): the listing text, `Listing`, and its
  lemmas. These cover line layout, line count, the listed index selecting its
  line's configuration, and the final line break.
- `project_run_command.dfy` (`ProjectRunCommand`): the command's methods, each
  proved against those definitions. They are `FilterByProject`,
  `ListConfigurations`, `Select`, `LaunchConfiguration` and `Execute`. The file
  also holds the error constants and the launcher `DebugUI`, whose ghost log
  records each `DebugUITools.launch` call. `Select` scans and stops at the
  second match; its postcondition equates it with the counting `Resolve`.

The external services become inputs:

- The launch manager's configurations and the set of known project names form a
  `Workspace` value.
- The parsed command line is a `CommandLine` value: flags, the `-p` value and
  the unclaimed arguments.
- `getMode` reduces to `GetMode`, a `Run`/`Debug` choice made by the debug flag.

Three points where the code is easy to misread:

- `%-3d` pads the index with spaces on the right (left-justified), not on the
  left. `0` prints as `0  : name`.
- `filterByProject` does not filter. Its doc comment promises to narrow the list
  to the project, but the code copies every configuration whatever the project.
  `FilterByProject` is proved to be the identity.
- An index selector may be negative or carry a `+`, because `Integer.parseInt`
  accepts both (the `+` from Java 7 on). A negative index is out of range.

## Model

| member | source | states |
|---|---|---|
| JavaText.ParseInt | src/java/org/eclim/plugin/core/command/project/ProjectRunCommand.java:160 | `Integer.parseInt`: a value only for an optional sign followed by decimal digits, and every value it gives lies in the 32-bit `int` range |
| JavaText.ParseIntToString | src/java/org/eclim/plugin/core/command/project/ProjectRunCommand.java:160 | every `int`, printed in decimal, parses back to itself, so each `int` is a selector of the index path |
| JavaText.ParseIntOverflow | src/java/org/eclim/plugin/core/command/project/ProjectRunCommand.java:160 | a digit string whose value exceeds the largest `int` is rejected by `parseInt` |
| JavaText.DecimalDigitsValue | src/java/org/eclim/plugin/core/command/project/ProjectRunCommand.java:113 | `%d` prints a non-empty digit string whose value is the number printed |
| JavaText.DecimalDigits | src/java/org/eclim/plugin/core/command/project/ProjectRunCommand.java:113 | `%d` of a non-negative index: a non-empty text that starts with `0` only when the number is 0, so it has no leading zeros (its digits spell the number: `DecimalDigitsValue`) |
| JavaText.DecimalDigitsWidth | src/java/org/eclim/plugin/core/command/project/ProjectRunCommand.java:49 | a number fits the three-character field of `%-3d` exactly when it is below 1000 |
| JavaText.PadRight | src/java/org/eclim/plugin/core/command/project/ProjectRunCommand.java:49 | left justification to a minimum width: the text is kept at the front and spaces fill the rest up to the width |
| SelectorResolution.Resolve | src/java/org/eclim/plugin/core/command/project/ProjectRunCommand.java:156-178 | the reference outcome: an `int` selector takes the index path and selects a listed configuration or is out of range; any other selector counts its prefix matches (none: not found, one: that configuration, two or more: ambiguous). Its contract: only an `int` is ever out of range, a selection is always a listed configuration, and on the prefix path its name starts with the selector |
| SelectorResolution.PrefixMatchesAppend | src/java/org/eclim/plugin/core/command/project/ProjectRunCommand.java:167-175 | the names matching in a concatenation are those of each part, in order |
| SelectorResolution.PrefixMatchesMembers | src/java/org/eclim/plugin/core/command/project/ProjectRunCommand.java:167-168 | a configuration is among the matches exactly when it is listed and its name starts with the selector |
| SelectorResolution.NoMatchIff | src/java/org/eclim/plugin/core/command/project/ProjectRunCommand.java:167-177 | there is no match exactly when no listed name starts with the selector |
| SelectorResolution.TwoMatchesSeveral | src/java/org/eclim/plugin/core/command/project/ProjectRunCommand.java:167-171 | two different positions with matching names make at least two matches, which is when the scan reports the second one |
| SelectorResolution.SeveralMatchesWitness | src/java/org/eclim/plugin/core/command/project/ProjectRunCommand.java:167-171 | at least two matches come from two different positions whose names match |
| SelectorResolution.SeveralMatchesIff | src/java/org/eclim/plugin/core/command/project/ProjectRunCommand.java:167-171 | there are two matches or more exactly when two different positions have matching names |
| SelectorResolution.PrefixMatchesCount | src/java/org/eclim/plugin/core/command/project/ProjectRunCommand.java:167-175 | each configuration occurs among the matches as often as in the list if its name matches, and never otherwise |
| SelectorResolution.IndexPathIff | src/java/org/eclim/plugin/core/command/project/ProjectRunCommand.java:160-164 | for every spelling of an `int`: "Index Out of Range" exactly when the selector is an `int` outside `0 <= i < size`; an `int` inside selects `configs[i]`; a selector that is not an `int` is never out of range |
| SelectorResolution.IndexSelects | src/java/org/eclim/plugin/core/command/project/ProjectRunCommand.java:160-164 | an `int` selector selects the configuration at that position when `0 <= i < size`, and is out of range otherwise, whatever the names are (so every `int` is out of range for an empty list) |
| SelectorResolution.OverflowIsPrefix | src/java/org/eclim/plugin/core/command/project/ProjectRunCommand.java:158-166 | a digit string too large for an `int` is never out of range; it is matched as a prefix, and is not found exactly when no name starts with it |
| SelectorResolution.NotFoundIff | src/java/org/eclim/plugin/core/command/project/ProjectRunCommand.java:176-177 | "Configuration Not Found" happens exactly when the selector is not an `int` and starts no name (so always for an empty list and a non-`int` selector) |
| SelectorResolution.MultipleFoundIff | src/java/org/eclim/plugin/core/command/project/ProjectRunCommand.java:168-171 | "Multiple Launch Configurations Found" happens exactly when the selector is not an `int` and two different positions have names starting with it |
| SelectorResolution.UniquePrefixSelects | src/java/org/eclim/plugin/core/command/project/ProjectRunCommand.java:165-175 | a non-`int` selector that starts the name at position `j` and no other selects `configs[j]` |
| SelectorResolution.PrefixSelectionIsUnique | src/java/org/eclim/plugin/core/command/project/ProjectRunCommand.java:165-178 | conversely, a non-`int` selector selects only a listed configuration whose name it starts and that no other position's name shares |
| SelectorResolution.PrefixPathIgnoresOrder | src/java/org/eclim/plugin/core/command/project/ProjectRunCommand.java:167-178 | on the prefix path, reordering the configurations changes neither the outcome nor the configuration selected, although the scan stops at the second match |
| SelectorResolution.TooLargeDigits | src/java/org/eclim/plugin/core/command/project/ProjectRunCommand.java:160 | the decimal form of one more than the largest `int` is `2147483648` |
| SelectorResolution.IndexExamples | src/java/org/eclim/plugin/core/command/project/ProjectRunCommand.java:160-164 | against `build`, `build-debug`, `test`: `2` selects `test`; `3` and `-1` are out of range; `+1` and `01` select `build-debug` |
| SelectorResolution.NameExamples | src/java/org/eclim/plugin/core/command/project/ProjectRunCommand.java:165-175 | against the same list, `test` selects `test`, and `build` is ambiguous because it also starts `build-debug` |
| SelectorResolution.MissingAndEmptyExamples | src/java/org/eclim/plugin/core/command/project/ProjectRunCommand.java:167-177 | against the same list, `missing` is not found and the empty selector is ambiguous |
| SelectorResolution.OverflowExample | src/java/org/eclim/plugin/core/command/project/ProjectRunCommand.java:158-177 | against the same list, `2147483648` is looked up as a name, not as an index, and is not found |
| ConfigurationListing.ListingFromAppend | src/java/org/eclim/plugin/core/command/project/ProjectRunCommand.java:108-117 | the listing of two lists one after the other is the first's followed by the second's, numbered on from where the first stopped |
| ConfigurationListing.ListingFrom | src/java/org/eclim/plugin/core/command/project/ProjectRunCommand.java:110-117 | the lines of the configurations numbered from `first`: at least one character per configuration and at least six per indexed line (its order and numbering are stated by `ListingFromAppend`) |
| ConfigurationListing.Listing | src/java/org/eclim/plugin/core/command/project/ProjectRunCommand.java:107-119 | the text `listConfigurations` returns, numbered from 0: empty exactly when there are no configurations; otherwise the first line is that of the first configuration, starting `"0  : "` with indices and `"<name>\n"` without |
| ConfigurationListing.ListingPrefixStep | src/java/org/eclim/plugin/core/command/project/ProjectRunCommand.java:110-117 | each configuration adds its own line, carrying its position, to the listing of those before it |
| ConfigurationListing.IndexedLineLayout | src/java/org/eclim/plugin/core/command/project/ProjectRunCommand.java:49 | an indexed line starts with the index; below 1000 it is padded with spaces to three characters, so `": "` stands at columns 3-4 and the name follows; from 1000 on the index is followed directly by `": "` |
| ConfigurationListing.IndexedLine | src/java/org/eclim/plugin/core/command/project/ProjectRunCommand.java:49 | `FORMAT_SHOW_INDICES`: the line starts with the index in decimal and ends with `": "`, the name and a line break (its padding to three characters is stated by `IndexedLineLayout`) |
| ConfigurationListing.PlainLine | src/java/org/eclim/plugin/core/command/project/ProjectRunCommand.java:50 | `FORMAT_NO_INDICES`: the name followed by exactly one line break |
| ConfigurationListing.ListedIndexSelects | src/java/org/eclim/plugin/core/command/project/ProjectRunCommand.java:111-113 | the index printed on line `k`, given back as the selector, selects the configuration listed on line `k` |
| ConfigurationListing.ListingLineCount | src/java/org/eclim/plugin/core/command/project/ProjectRunCommand.java:107-119 | when no name holds a line break, the listing has exactly one line per configuration, with or without indices |
| ConfigurationListing.ListingEnds | src/java/org/eclim/plugin/core/command/project/ProjectRunCommand.java:107-119 | the listing is empty exactly when there is nothing to list, and otherwise ends with a line break |
| ConfigurationListing.ListingExample | src/java/org/eclim/plugin/core/command/project/ProjectRunCommand.java:50 | `cfg0`, `cfg1` list as `"cfg0\ncfg1\n"` without indices |
| ConfigurationListing.IndexedListingExample | src/java/org/eclim/plugin/core/command/project/ProjectRunCommand.java:49 | the same two list as `"0  : cfg0\n1  : cfg1\n"` with indices, padded on the right by `%-3d` |
| ProjectRunCommand.GetMode | src/java/org/eclim/plugin/core/command/project/ProjectRunCommand.java:126-134 | the debug flag chooses `Debug`, its absence `Run` |
| ProjectRunCommand.GetProject | src/java/org/eclim/plugin/core/command/project/ProjectRunCommand.java:141-148 | without `-p` there is no project; with `-p` the lookup runs, and it fails exactly when the name is not a known project, carrying that name |
| ProjectRunCommand.Reply | src/java/org/eclim/plugin/core/command/project/ProjectRunCommand.java:51-57 | one reply text per outcome (returned at lines 162, 171, 177 and 182): a selection replies with the configuration's name followed by `" Started"`, every error with its `"Error: "` text |
| ProjectRunCommand.LaunchesFor | src/java/org/eclim/plugin/core/command/project/ProjectRunCommand.java:181 | the launches of one `launchConfiguration` call: exactly one record, the selected configuration with the mode, on a selection, and none on an error |
| ProjectRunCommand.ErrorsDistinct | src/java/org/eclim/plugin/core/command/project/ProjectRunCommand.java:53-57 | the four error texts are pairwise different |
| ProjectRunCommand.StartedIffSelected | src/java/org/eclim/plugin/core/command/project/ProjectRunCommand.java:176-182 | a reply ends with `" Started"` exactly when a configuration was selected; every other reply starts with `"Error: "` |
| ProjectRunCommand.ListingIsNotStarted | src/java/org/eclim/plugin/core/command/project/ProjectRunCommand.java:107-119 | no listing ends with `" Started"` |
| ProjectRunCommand.FilterByProject | src/java/org/eclim/plugin/core/command/project/ProjectRunCommand.java:93-99 | returns the configurations unchanged, with the same length, elements and order, whatever the project |
| ProjectRunCommand.ListConfigurations | src/java/org/eclim/plugin/core/command/project/ProjectRunCommand.java:107-119 | the text built line by line is the listing of the configurations in order, indexed from 0 when indices are shown |
| ProjectRunCommand.Select | src/java/org/eclim/plugin/core/command/project/ProjectRunCommand.java:156-179 | the index-or-scan resolution, which stops at the second prefix match, gives exactly `Resolve`, the outcome defined by counting the matches |
| ProjectRunCommand.LaunchConfiguration | src/java/org/eclim/plugin/core/command/project/ProjectRunCommand.java:156-183 | replies `"<name> Started"` and launches the selected configuration exactly once in the given mode; each error kind replies with its own error text and launches nothing |
| ProjectRunCommand.DebugUI.Launch | src/java/org/eclim/plugin/core/command/project/ProjectRunCommand.java:181 | each launch appends one record, the configuration with its mode, to the launch log |
| ProjectRunCommand.Execute | src/java/org/eclim/plugin/core/command/project/ProjectRunCommand.java:62-83 | a failed project lookup propagates before anything else. With `-l` the command lists, ignores the free arguments and launches nothing. Otherwise any count of free arguments other than one gives `"Error: Invalid Args"` with no launch, and exactly one is resolved and dispatched. At most one launch happens, and one happens exactly when the reply ends with `" Started"` |

## Left out

- JavaText.ParseInt: accepts ASCII digits only. `Integer.parseInt` uses `Character.digit`, which also accepts the decimal digits of other scripts (Arabic-Indic, fullwidth and others). A selector written in those digits is an index in Java but a name prefix here.
- JavaText.ParseInt: follows `Integer.parseInt` of Java 7 and later, which accepts a leading `+`. Under Java 6, `"+1"` throws `NumberFormatException`, so such a selector would be matched as a name prefix there.
- JavaText.DecimalDigits: prints ASCII digits. `String.format` localises `%d` to the default locale's digits; the model assumes a locale whose zero digit is `0`.
- The launch manager (`DebugPlugin...getLaunchConfigurations()`) is foreign IDE code. Its result is an input sequence, `Workspace.launchConfigurations`. Its own failures (the `CoreException` that `execute` may pass on) are not modelled.
- `DebugUITools.launch` is foreign code. It becomes an append to the ghost log `DebugUI.launched`. The process or debug session it starts is not modelled; the command does not wait for it.
- The launch-group lookup in `getMode` is foreign code. It is reduced to the `Run`/`Debug` choice made by the debug flag.
- `ProjectUtils.getProject` is not part of this model. The lookup succeeds for names in `Workspace.projects` and otherwise fails with `ProjectNotFound`. The exception's type and message are not modelled. The project found is passed to `FilterByProject`, which ignores it, as the source does.
- `CommandLine` option parsing and the `@Command` annotation are plumbing. The model starts from their result: flags, the `-p` value and the unclaimed arguments.
- Null names and null configurations are not modelled; the IDE does not hand them out.
- ListConfigurations: its index counter is an unbounded integer. The Java `int` counter cannot overflow, because a Java list holds at most `2^31 - 1` elements.
