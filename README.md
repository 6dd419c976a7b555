# SILViewer view model in Dafny

SILViewer is a macOS window in which one types Swift source and looks at what
the Swift compiler makes of it. There is one tab for the source and seven
output tabs: parse tree, AST, pre-SIL Swift printed from the AST, raw SIL,
canonical SIL, LLVM IR and assembly. Four toggles (demangle, optimize, module
optimize, parse as library) shape the command line. All the compiling is done
by `swiftc` in a shell subprocess. The logic of the app lives in its view
model, and that is what this project models:

- **Composer** (`composer.dfy`): the four `withX` helpers, the `"%@"` template
  they build, and the command each tab runs. The raw SIL, canonical SIL, IR
  and assembly tabs fill the template with their base `swiftc` invocation.
  The AST, parse and pretty-printed AST tabs use fixed commands. The source
  tab runs nothing.
- **Runner** (`runner.dfy`): the rule that picks what a run shows. It shows
  standard output when the error text is empty or a single newline, and the
  error text otherwise. The subprocess itself is a `Shell` function value
  from (command, standard input) to (stdout, stderr) that is passed in.
- **Binder** (`binder.dfy`): the session state, the per-tab dispatcher
  `run(params:tab:)` and the handlers the view model's `init` subscribes.
  Every state change is a function on a `Session` value, and the lemmas are
  about those functions. The `ViewModel` class holds the same fields. Its
  methods assign them in place and are proved to produce exactly what those
  functions give. A ghost field `requests` records every subprocess the
  class starts, so the contracts can say how many runs a change causes.

The flags are nested in this order: parse-as-library innermost, then
whole-module optimization, then `-O`, then the demangle pipe. So
` -whole-module-optimization` comes before ` -O` in every command. The
model follows the code (SILViewer/ContentView.swift:139-151), and
`Composer.ModuleOptimizeBeforeOptimizeExample` pins this order down.

Combine's `@Published` publishes a new value just before storing it. So each
handler runs `run` with the new value it was handed, and only then does the
property take that value. The handler methods keep this order. The result
is the same as storing first, because `run` reads only its arguments and
the source.

## Model

| member | source | states |
|---|---|---|
| `Composer.WithParseAsLibrary` | SILViewer/ContentView.swift:122-124 | appends ` -parse-as-library -module-name SILInspector` when its toggle is on; its properties are stated by `Composer.HelpersOnlyAppend` |
| `Composer.WithOptimize` | SILViewer/ContentView.swift:126-128 | appends ` -O` when its toggle is on; its properties are stated by `Composer.HelpersOnlyAppend` |
| `Composer.WithModuleOptimize` | SILViewer/ContentView.swift:130-132 | appends ` -whole-module-optimization` when its toggle is on; its properties are stated by `Composer.HelpersOnlyAppend` |
| `Composer.WithDemangle` | SILViewer/ContentView.swift:134-136 | appends the pipe into `xcrun swift-demangle` when its toggle is on; its properties are stated by `Composer.HelpersOnlyAppend` and `Composer.PipedIffDemangle` |
| `Composer.ProgramTemplate` | SILViewer/ContentView.swift:139-151 | nests the four helpers around `%@`, parse-as-library innermost; `Composer.TemplateIsPlaceholderThenSuffixes` states what it yields |
| `Composer.Format` | SILViewer/ContentView.swift:154-174 | puts the argument in place of a leading `%@`; `Composer.Filled` states the result for the templates `run` builds |
| `Composer.BaseCommand` | SILViewer/ContentView.swift:152-180 | the `swiftc` invocation of each output tab, with the source's literals; `Composer.Command`, `Composer.TemplatedCommand` and `Composer.FixedCommandIgnoresToggles` state how it is used |
| `Composer.HelpersOnlyAppend` | SILViewer/ContentView.swift:122-136 | each helper keeps its input as a prefix and appends exactly its own flag when its toggle is on, and nothing when it is off |
| `Composer.TemplateIsPlaceholderThenSuffixes` | SILViewer/ContentView.swift:139-151 | the template is `%@` followed by the parse-as-library, whole-module-optimization, `-O` and demangle suffixes in that order, each present exactly when its toggle is on |
| `Composer.Command` | SILViewer/ContentView.swift:152-183 | the source tab runs nothing and every other tab runs a command that starts with its base `swiftc` invocation |
| `Composer.TemplatedCommand` | SILViewer/ContentView.swift:139-176 | raw SIL, canonical SIL, IR and assembly run their base invocation followed by the toggled suffixes in the fixed order |
| `Composer.AllOffIsBaseCommand` | SILViewer/ContentView.swift:139-176 | with all four toggles off a templated tab runs its base command unchanged |
| `Composer.FixedCommandIgnoresToggles` | SILViewer/ContentView.swift:161-180 | the AST, parse and pretty-printed AST tabs run `swiftc - -dump-ast`, `swiftc - -dump-parse` and `swiftc - -print-ast` whatever the toggles |
| `Composer.CanonicalSilLibraryExample` | SILViewer/ContentView.swift:139-172 | parse-as-library plus module optimize on canonical SIL gives `swiftc - -emit-sil -parse-as-library -module-name SILInspector -whole-module-optimization` |
| `Composer.ModuleOptimizeBeforeOptimizeExample` | SILViewer/ContentView.swift:139-176 | with both optimizations and demangling on, the assembly command has ` -whole-module-optimization`, then ` -O`, then the demangle pipe |
| `Composer.PipedIffDemangle` | SILViewer/ContentView.swift:134-151 | the first tuple element drives the demangler: a templated command ends in the pipe into `xcrun swift-demangle` exactly when `params.0` is true |
| `Composer.LibraryFlagsIffParseAsLibrary` | SILViewer/ContentView.swift:122-151 | the fourth tuple element drives parse-as-library: a templated command continues its base invocation with the library flags exactly when `params.3` is true |
| `Composer.SuffixesInjective` | SILViewer/ContentView.swift:122-151 | different toggle tuples give different flag tails, so each suffix is present only when its toggle is on |
| `Composer.TemplatedCommandInjective` | SILViewer/ContentView.swift:139-176 | for a templated tab the command determines all four toggles |
| `Runner.SelectOutput` | SILViewer/ContentView.swift:204 | the text shown is stdout when stderr is `""` or `"\n"`, stderr otherwise, and never a mix of the two |
| `Runner.RunProgram` | SILViewer/ContentView.swift:186-205 | a run shows one of the two texts the subprocess wrote for that command and that source |
| `Runner.ErrorHidesOutput` | SILViewer/ContentView.swift:204 | non-blank error text is shown whatever the standard output was |
| `Runner.ShowsErrorIff` | SILViewer/ContentView.swift:204 | the error text is shown exactly when it is not blank, or when both pipes carried the same text |
| `Runner.EchoShowsSource` | SILViewer/ContentView.swift:186-205 | a command that echoes its input and writes no error shows the source text itself |
| `Binder.Initial` | SILViewer/ContentView.swift:88-102 | the starting session: source tab, demangle on, the other toggles off, the placeholder source and empty outputs; `Binder.StartupRunsChangeNothing` and `Binder.ViewModel.constructor` state its role |
| `Binder.Pane` | SILViewer/ContentView.swift:152-183 | the field each tab displays, the source for the source tab; `Binder.WithPaneSetsOnlyThatPane` and `Binder.RunEffect` state how runs change it |
| `Binder.WithPane` | SILViewer/ContentView.swift:152-183 | stores a run's text in the tab's own field; `Binder.WithPaneSetsOnlyThatPane` states that nothing else changes |
| `Binder.WithPaneSetsOnlyThatPane` | SILViewer/ContentView.swift:152-183 | storing into a tab's field sets that tab's text and leaves every other tab, the command, the toggles, the selected tab and the source alone |
| `Binder.RunEffect` | SILViewer/ContentView.swift:138-184 | `run` on the source tab changes nothing; on an output tab it records the composed command and stores what that command shows on the source, in that tab's field only, with toggles, selected tab and source unchanged |
| `Binder.Requests` | SILViewer/ContentView.swift:152-183 | `run` starts exactly one subprocess, with the composed command and the source, for an output tab and none for the source tab |
| `Binder.FlagsChanged` | SILViewer/ContentView.swift:105-112 | flipping a toggle reruns the selected tab with the new tuple and keeps the new toggles, the tab and the source |
| `Binder.TabSelected` | SILViewer/ContentView.swift:113-119 | selecting a tab reruns that tab with the current toggles and makes it the selected tab |
| `Binder.SourceEdited` | SILViewer/ContentView.swift:93 | editing the source stores the text and touches nothing else |
| `Binder.StartupRunsChangeNothing` | SILViewer/ContentView.swift:88-119 | the initial session (source tab, demangle on, the other toggles off, empty outputs) is unchanged by the values the subscriptions deliver at start, and starts no subprocess |
| `Binder.HandlersKeepConsistent` | SILViewer/ContentView.swift:104-119 | every handler keeps the shown command equal to the command the current toggles give for the selected tab |
| `Binder.RerunsRefresh` | SILViewer/ContentView.swift:104-119 | after a toggle or tab change the selected tab shows what its command gives on the current source |
| `Binder.SourceEditLeavesOutputStale` | SILViewer/ContentView.swift:104-119 | editing the source reruns nothing, so the selected tab can show output for the old source |
| `Binder.RunIdempotent` | SILViewer/ContentView.swift:138-184 | running the same tab twice with the same toggles and source gives the same state as running it once |
| `Binder.ReselectOnlyRefreshes` | SILViewer/ContentView.swift:113-119 | reselecting the selected tab keeps its command and refreshes only its output |
| `Binder.ViewModel.State` | SILViewer/ContentView.swift:88-102 | the view model's published properties as a `Session` value; every method's contract is stated through it |
| `Binder.ViewModel.constructor` | SILViewer/ContentView.swift:88-119 | the new view model holds the initial session, and the two subscriptions start no subprocess |
| `Binder.ViewModel.RunProgram` | SILViewer/ContentView.swift:186-205 | starts one subprocess with the source as input and returns the selected text |
| `Binder.ViewModel.Run` | SILViewer/ContentView.swift:138-184 | the new state is exactly `RunEffect` of the old one, and exactly the subprocesses of `Requests` are started |
| `Binder.ViewModel.Dispatch` | SILViewer/ContentView.swift:153-180 | one output case: records the command, runs it once and stores the result in the tab's field |
| `Binder.ViewModel.StoreOutput` | SILViewer/ContentView.swift:152-183 | writes only the given tab's output field |
| `Binder.ViewModel.SetDemangle` | SILViewer/ContentView.swift:105-112 | the new state is `FlagsChanged` with the new demangle value, and one run is started for an output tab |
| `Binder.ViewModel.SetOptimize` | SILViewer/ContentView.swift:105-112 | the same for the optimize toggle |
| `Binder.ViewModel.SetModuleOptimize` | SILViewer/ContentView.swift:105-112 | the same for the module optimize toggle |
| `Binder.ViewModel.SetParseAsLibrary` | SILViewer/ContentView.swift:105-112 | the same for the parse-as-library toggle |
| `Binder.ViewModel.SelectTab` | SILViewer/ContentView.swift:113-119 | the new state is `TabSelected`, and exactly one run is started unless the source tab was selected |
| `Binder.ViewModel.EditSource` | SILViewer/ContentView.swift:93 | stores the new source and starts no subprocess |

## Left out

- The SwiftUI views (`body`, `optionsView`, `buildView`, the font slider), the smart-quote fix on `NSTextView` and the copy to `NSPasteboard`. These are UI and AppKit calls.
- The process plumbing in `runProgram`: pipes, `/bin/bash -c`, reading to end of file and UTF-8 decoding. A `Shell` function passed in stands for all of it, so the model assumes a run is deterministic and always finishes.
- Combine itself: `combineLatest`, `sink`, the cancellables and `[weak self]`. The handlers are sequential methods. Overlapping runs and their races are not modelled, because each run here finishes before the next change.
- `String(format:)` in general. `Composer.Format` only replaces a leading `%@`, which is the only form the templates take.
- `run`'s switch is split in two. `Binder.ViewModel.Run` keeps the per-tab choice of command, with the source's literals. `Binder.ViewModel.Dispatch` and `StoreOutput` do the shared "record the command, run it, store the output" step. The behaviour is the same.
- The field `assmeblyOutput` is called `assemblyOutput` here.
- SILViewer/SILViewerApp.swift is not part of this model. It holds only the app entry point and the window scene.
