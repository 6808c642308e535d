# URL gate of the SharePoint custom-CSS application customizer

The customizer injects stylesheets into SharePoint pages. Its only real logic
is the URL gate at the start of `onInit`. The gate takes the current page
address and the customizer's property bag (`cssUrl`, `useInternalCss`,
`includeUrls`, `excludeUrls`, `enableDebug`). It decides whether styling applies
to the page, and it requests the bundled stylesheet, the external one, both,
or neither.

This project models that gate as pure Dafny functions and proves the
properties the code promises.

- `options.dfy`, module `Options`: the optional value used for every property.
- `text.dfy`, module `AsciiText`: ASCII `toLowerCase`, and `indexOf` with
  JavaScript's semantics. It also holds the reference meaning of a pattern
  match: the predicate `Contains` (some position where the pattern occurs).
- `gate.dfy`, module `CustomCssGate`:
  - the property bag (`Properties`);
  - load requests (`Load = Internal | External(url)`);
  - the gate's verdict (`Verdict`), which records the position of the first
    matching pattern that the code reports;
  - the debug trace (`Event`);
  - the functional model (`Gate`, `Requests`, `Decide`, `DebugTrace`);
  - `OnInit`, a method that follows the source's two `for` loops, early
    `return` and `break` statement by statement. It is proved to agree with
    the functional model on every input.
- `properties.dfy`, module `GateProperties`: lemmas about the gate. They cover
  exclusion precedence, the default-include rule, case-insensitivity, empty
  patterns, and pattern order.
- `scenarios.dfy`, module `GateScenarios`: concrete addresses and
  configurations worked through the gate.

JavaScript truthiness is written out explicitly:
- `enableDebug` is on only when it is present and `true`.
- `useInternalCss !== false` holds when the value is absent or `true`.
- `cssUrl` counts only when it is present and non-empty.
- For the decision, an absent pattern list behaves exactly like an empty one
  (`Patterns`). The debug trace still tells them apart, because lines 42-43
  log the raw property.

The debug trace follows the code. When the include list is empty or absent,
no debug line reports that styling applies. The line at 68 announces that
styling will be applied, and it is written only when an include pattern
matched. Two lines announce that styling will not be applied: line 51, which
names the matching exclude pattern, and line 90, written when an include list
existed and none of its patterns matched.

## Model

| member | source | states |
|---|---|---|
| AsciiText.LowerChar | src/extensions/spCustomCssExtension/SpCustomCssExtensionApplicationCustomizer.ts:37 | one character's `toLowerCase`: the result is never an ASCII capital; a capital moves 32 code points to its lower-case letter; every other character is unchanged |
| AsciiText.Lower | src/extensions/spCustomCssExtension/SpCustomCssExtensionApplicationCustomizer.ts:37 | lower-casing keeps the length and leaves no ASCII capital |
| AsciiText.LowerKeepsLetters | src/extensions/spCustomCssExtension/SpCustomCssExtensionApplicationCustomizer.ts:37 | lower-casing changes a character only into the same letter in the other case, and leaves every character other than an ASCII capital unchanged |
| AsciiText.LowerIdempotent | src/extensions/spCustomCssExtension/SpCustomCssExtensionApplicationCustomizer.ts:49 | lower-casing an already lower-cased address or pattern changes nothing |
| AsciiText.LowerEqualIffEqualIgnoringCase | src/extensions/spCustomCssExtension/SpCustomCssExtensionApplicationCustomizer.ts:49 | two strings lower-case to the same string exactly when they differ only in the case of ASCII letters (both directions) |
| AsciiText.Contains | src/extensions/spCustomCssExtension/SpCustomCssExtensionApplicationCustomizer.ts:49 | defined as: some position of the address holds the pattern as a contiguous substring; this is the meaning of `indexOf(...) > -1` at lines 49 and 65, against which `IndexOf` and `Matches` are proved |
| AsciiText.IndexOf | src/extensions/spCustomCssExtension/SpCustomCssExtensionApplicationCustomizer.ts:49 | `indexOf` returns -1 exactly when the needle occurs nowhere; otherwise it returns a position where the needle occurs, and no earlier position has it |
| AsciiText.IndexFrom | src/extensions/spCustomCssExtension/SpCustomCssExtensionApplicationCustomizer.ts:65 | the search resumed at a position returns the first occurrence at or after it, or -1 when there is none |
| AsciiText.ContainsEmpty | src/extensions/spCustomCssExtension/SpCustomCssExtensionApplicationCustomizer.ts:49 | the empty pattern is contained in every address, and `indexOf("")` is 0, which is greater than -1 |
| CustomCssGate.Properties | src/extensions/spCustomCssExtension/SpCustomCssExtensionApplicationCustomizer.ts:14-25 | the property bag: five optional fields, `cssUrl`, `useInternalCss`, `includeUrls`, `excludeUrls` and `enableDebug` |
| CustomCssGate.Load | src/extensions/spCustomCssExtension/SpCustomCssExtensionApplicationCustomizer.ts:80-86 | defined as one stylesheet request: `Internal` stands for `loadCss(this._internalCssPath)` at line 80, `External(u)` for `loadCss(cssUrl)` at line 86 |
| CustomCssGate.Verdict | src/extensions/spCustomCssExtension/SpCustomCssExtensionApplicationCustomizer.ts:53-73 | defined as the gate's four outcomes: `ExcludedBy(k)` is the early return at line 53 after exclude pattern `k`; `Unfiltered` is `shouldApplyCss` left true at line 59 with no include list; `IncludedBy(k)` is the match and `break` at lines 66-70 on include pattern `k`; `NoIncludeMatch` is `shouldApplyCss` left false by line 62 |
| CustomCssGate.Event | src/extensions/spCustomCssExtension/SpCustomCssExtensionApplicationCustomizer.ts:41-90 | defined as one debug line: the address (41), the include list (42), the exclude list (43), the matched exclude pattern as written (51), the matched include pattern as written (68), and the no-match notice (90) |
| CustomCssGate.Patterns | src/extensions/spCustomCssExtension/SpCustomCssExtensionApplicationCustomizer.ts:47 | the pattern list is non-empty exactly when the guard `list && list.length > 0` holds, and it holds exactly the patterns the guarded loop visits |
| CustomCssGate.DebugEnabled | src/extensions/spCustomCssExtension/SpCustomCssExtensionApplicationCustomizer.ts:40 | truthiness of `enableDebug`: absent and `false` switch the trace off, `true` switches it on |
| CustomCssGate.InternalEnabled | src/extensions/spCustomCssExtension/SpCustomCssExtensionApplicationCustomizer.ts:78 | `useInternalCss !== false`: absent and `true` enable the bundled stylesheet; only `false` disables it |
| CustomCssGate.ExternalGiven | src/extensions/spCustomCssExtension/SpCustomCssExtensionApplicationCustomizer.ts:85 | truthiness of `cssUrl`: absent and the empty string are falsy, every non-empty string is truthy |
| CustomCssGate.Header | src/extensions/spCustomCssExtension/SpCustomCssExtensionApplicationCustomizer.ts:41-43 | defined as the first three debug lines: the lower-cased address, then the include list and the exclude list as given, absent lists included |
| CustomCssGate.Matches | src/extensions/spCustomCssExtension/SpCustomCssExtensionApplicationCustomizer.ts:49 | the test `indexOf(pattern.toLowerCase()) > -1` holds exactly when the lower-cased pattern is a substring of the lower-cased address |
| CustomCssGate.FirstMatchFrom | src/extensions/spCustomCssExtension/SpCustomCssExtensionApplicationCustomizer.ts:48-55 | the scan stops at the first matching pattern at or after its start; it finds none exactly when no later pattern matches |
| CustomCssGate.FirstMatch | src/extensions/spCustomCssExtension/SpCustomCssExtensionApplicationCustomizer.ts:64-72 | the short-circuiting scan finds nothing exactly when no pattern is contained in the address; otherwise it finds the first contained pattern |
| CustomCssGate.Gate | src/extensions/spCustomCssExtension/SpCustomCssExtensionApplicationCustomizer.ts:46-73 | the page is excluded exactly when some exclude pattern is contained, and the first such pattern is reported; otherwise styling applies exactly when the include list is empty or absent, or one of its patterns is contained |
| CustomCssGate.Requests | src/extensions/spCustomCssExtension/SpCustomCssExtensionApplicationCustomizer.ts:77-88 | once styling applies: the bundled stylesheet is requested exactly when `useInternalCss` is not `false`; the external one exactly when `cssUrl` is present and non-empty; at most two requests, bundled first |
| CustomCssGate.Decide | src/extensions/spCustomCssExtension/SpCustomCssExtensionApplicationCustomizer.ts:46-91 | no loads unless styling applies; the bundled stylesheet loads exactly when styling applies and `useInternalCss` is not `false`; the external one exactly when styling applies and `cssUrl` is present and non-empty; at most two loads, bundled before external |
| CustomCssGate.DebugTrace | src/extensions/spCustomCssExtension/SpCustomCssExtensionApplicationCustomizer.ts:39-91 | a trace is written only when `enableDebug` is true. It starts with the lower-cased address and both lists. It then reports the first matching exclude pattern, or the first matching include pattern, as written. When an include list exists and nothing in it matched, it says so instead. |
| CustomCssGate.OnInit | src/extensions/spCustomCssExtension/SpCustomCssExtensionApplicationCustomizer.ts:33-94 | the loop-by-loop body of `onInit`, with its early return and `break`, requests exactly the loads of `Decide` and writes exactly the trace of `DebugTrace` |
| GateProperties.ExclusionWins | src/extensions/spCustomCssExtension/SpCustomCssExtensionApplicationCustomizer.ts:47-56 | if any exclude pattern, lower-cased, is in the lower-cased address, nothing loads, whatever the other properties say |
| GateProperties.EmptyIncludeApplies | src/extensions/spCustomCssExtension/SpCustomCssExtensionApplicationCustomizer.ts:59-76 | with an absent or empty include list and no exclude match, styling applies |
| GateProperties.UnmatchedIncludeSuppresses | src/extensions/spCustomCssExtension/SpCustomCssExtensionApplicationCustomizer.ts:61-90 | with a non-empty include list none of whose patterns is contained, and no exclude match, nothing loads |
| GateProperties.MatchedIncludeApplies | src/extensions/spCustomCssExtension/SpCustomCssExtensionApplicationCustomizer.ts:64-76 | one contained include pattern, with no exclude match, is enough for styling to apply |
| GateProperties.EmptyExcludePatternSuppressesAll | src/extensions/spCustomCssExtension/SpCustomCssExtensionApplicationCustomizer.ts:49 | an empty exclude pattern suppresses every page |
| GateProperties.EmptyIncludePatternQualifiesAll | src/extensions/spCustomCssExtension/SpCustomCssExtensionApplicationCustomizer.ts:65 | an empty include pattern qualifies every page that no exclude pattern matches |
| GateProperties.FirstMatchFromIgnoresCase | src/extensions/spCustomCssExtension/SpCustomCssExtensionApplicationCustomizer.ts:48-72 | scans of two pattern lists that agree up to letter case stop at the same position |
| GateProperties.CaseInsensitive | src/extensions/spCustomCssExtension/SpCustomCssExtensionApplicationCustomizer.ts:37-65 | changing the letter case of the address or of any pattern changes neither the verdict, nor the reported pattern's position, nor the loads |
| GateProperties.AnyContainedSameElements | src/extensions/spCustomCssExtension/SpCustomCssExtensionApplicationCustomizer.ts:48-55 | whether some pattern matches depends only on which patterns the list holds |
| GateProperties.DecisionDependsOnPatternSets | src/extensions/spCustomCssExtension/SpCustomCssExtensionApplicationCustomizer.ts:47-73 | the loads depend only on the sets of patterns: reordering or repeating patterns in either list changes nothing |
| GateProperties.PatternOrderIrrelevant | src/extensions/spCustomCssExtension/SpCustomCssExtensionApplicationCustomizer.ts:48-72 | permuting either pattern list leaves the loads unchanged |
| GateScenarios.ExcludedPage | src/extensions/spCustomCssExtension/SpCustomCssExtensionApplicationCustomizer.ts:47-56 | `.../sites/a/home.aspx` with exclude `/home` loads nothing |
| GateScenarios.IncludedPage | src/extensions/spCustomCssExtension/SpCustomCssExtensionApplicationCustomizer.ts:61-81 | the same page with include `/sites/a` loads only the bundled stylesheet |
| GateScenarios.NotIncludedPage | src/extensions/spCustomCssExtension/SpCustomCssExtensionApplicationCustomizer.ts:61-76 | the same page with include `/teamsite` loads nothing |
| GateScenarios.ExternalOnly | src/extensions/spCustomCssExtension/SpCustomCssExtensionApplicationCustomizer.ts:78-88 | `useInternalCss: false` with a `cssUrl` and no lists loads only the external stylesheet |
| GateScenarios.NothingConfigured | src/extensions/spCustomCssExtension/SpCustomCssExtensionApplicationCustomizer.ts:59-81 | with no property set, only the bundled stylesheet loads |
| GateScenarios.CapitalisedPatternMatches | src/extensions/spCustomCssExtension/SpCustomCssExtensionApplicationCustomizer.ts:65 | include pattern `Home` matches the address `.../home/` |
| GateScenarios.ReportedPatternFollowsOrder | src/extensions/spCustomCssExtension/SpCustomCssExtensionApplicationCustomizer.ts:48-53 | reordering two matching exclude patterns leaves the loads alone, but the trace then reports the other pattern |

## Left out

- The hosting lifecycle: `BaseApplicationCustomizer`, property injection, and the `Promise` that `onInit` returns. The gate is a function of the address and the property bag.
- Reading `window.location.href`: the address is a parameter.
- Loading stylesheets (`SPComponentLoader.loadCss`) and the bundler's resolution of `require('./styles/customStyles.css')`. These are foreign calls; the model emits `Load` values instead, and `Internal` stands for the bundled stylesheet's resolved path.
- The `Log.info` lines (lines 34, 81, 87) are written whether or not debugging is on. They do not affect the decision, so they are not modelled. The `console.log` debug lines are modelled as `Event` values.
- AsciiText.Lower: only ASCII letters are lower-cased. JavaScript's `toLowerCase` follows full Unicode case mapping, which can also change characters outside ASCII and the length of a string. Such mappings are not modelled.
- JavaScript strings are sequences of UTF-16 code units. Dafny's `string` holds Unicode scalar values. The two agree on every address made of characters in the Basic Multilingual Plane.
- The property bag is modelled with its declared types. A deployment that supplies a non-array list or a non-string pattern would make the JavaScript iterate characters or throw. That runtime behaviour is not modelled.
