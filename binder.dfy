/** The view model of the SIL viewer: the session state (the source text, the
    four toggles, the selected tab, the last command run and one output text
    per tab), the per-tab dispatcher `run`, and the handlers that rerun it
    when a toggle or the selected tab changes.

    The state changes are specified twice over: as functions on a `Session`
    value, about which the lemmas speak, and by the `ViewModel` class, whose
    methods update its fields in place and are proved to agree with those
    functions. */
module Binder {
  import opened Composer
  import opened Runner

  /** All the state the view model keeps, as a value. */
  datatype Session = Session(
    selectedTab: Tab,
    demangle: bool,
    optimize: bool,
    moduleOptimize: bool,
    parseAsLibrary: bool,
    source: string,
    commandRun: string,
    silOutput: string,
    canonicalSilOutput: string,
    irOutput: string,
    parseOutput: string,
    prettyPrintAST: string,
    astOutput: string,
    assemblyOutput: string)

  /** One subprocess started: the command and the text given as its input. */
  datatype Request = Request(command: string, stdin: string)

  /** The session the view model starts with. */
  function Initial(): Session
  {
    Session(Code, true, false, false, false, "// Paste or write your Swift code here", "",
            "", "", "", "", "", "", "")
  }

  /** The toggles in the order `run` takes them. */
  function ParamsOf(s: Session): Params
  {
    (s.demangle, s.optimize, s.moduleOptimize, s.parseAsLibrary)
  }

  /** The text each tab displays; the source tab displays the source. */
  function Pane(s: Session, tab: Tab): string
  {
    match tab
    case Code => s.source
    case Ast => s.astOutput
    case PrettyPrintAST => s.prettyPrintAST
    case Parse => s.parseOutput
    case Sil => s.silOutput
    case CanonicalSil => s.canonicalSilOutput
    case IR => s.irOutput
    case Assembly => s.assemblyOutput
  }

  /** `s` with the output field of `tab` set to `text`. */
  function WithPane(s: Session, tab: Tab, text: string): Session
    requires tab != Code
  {
    match tab
    case Ast => s.(astOutput := text)
    case PrettyPrintAST => s.(prettyPrintAST := text)
    case Parse => s.(parseOutput := text)
    case Sil => s.(silOutput := text)
    case CanonicalSil => s.(canonicalSilOutput := text)
    case IR => s.(irOutput := text)
    case Assembly => s.(assemblyOutput := text)
  }

  /** Storing into a tab's field sets that tab's text and nothing else. */
  lemma WithPaneSetsOnlyThatPane(s: Session, tab: Tab, text: string)
    requires tab != Code
    ensures var r := WithPane(s, tab, text);
            && Pane(r, tab) == text
            && (forall t :: t != tab ==> Pane(r, t) == Pane(s, t))
            && SameSettings(r, s) && r.commandRun == s.commandRun
  {
  }

  /** The toggles, the selected tab and the source are the same in both. */
  predicate SameSettings(s: Session, t: Session)
  {
    ParamsOf(s) == ParamsOf(t) && s.selectedTab == t.selectedTab && s.source == t.source
  }

  /** The effect of `run(params:tab:)`: for an output tab it records the
      command and stores what running it on the source shows, in that tab's
      field only; for the source tab it does nothing. */
  function RunEffect(s: Session, shell: Shell, params: Params, tab: Tab): (r: Session)
    ensures tab == Code ==> r == s
    ensures tab != Code ==> Command(params, tab) == Some(r.commandRun)
                            && Pane(r, tab) == RunProgram(shell, r.commandRun, s.source)
    ensures forall t :: t != tab ==> Pane(r, t) == Pane(s, t)
    ensures SameSettings(r, s)
  {
    if tab == Code then s
    else
      var command := Command(params, tab).value;
      var text := RunProgram(shell, command, s.source);
      WithPaneSetsOnlyThatPane(s.(commandRun := command), tab, text);
      WithPane(s.(commandRun := command), tab, text)
  }

  /** The subprocesses `run(params:tab:)` starts: one for an output tab, none
      for the source tab. */
  function Requests(s: Session, params: Params, tab: Tab): (r: seq<Request>)
    ensures |r| == if tab == Code then 0 else 1
    ensures tab != Code ==> Some(r[0].command) == Command(params, tab) && r[0].stdin == s.source
  {
    match Command(params, tab)
    case None => []
    case Some(command) => [Request(command, s.source)]
  }

  /** Sessions that agree on the source and on every output field show the
      same text under every tab. */
  lemma SamePanes(a: Session, b: Session)
    requires a.source == b.source && a.astOutput == b.astOutput
    requires a.prettyPrintAST == b.prettyPrintAST && a.parseOutput == b.parseOutput
    requires a.silOutput == b.silOutput && a.canonicalSilOutput == b.canonicalSilOutput
    requires a.irOutput == b.irOutput && a.assemblyOutput == b.assemblyOutput
    ensures forall t :: Pane(a, t) == Pane(b, t)
  {
  }

  /** A toggle was flipped: `run` with the new toggles on the current tab,
      and the new toggles are kept. */
  function FlagsChanged(s: Session, shell: Shell, params: Params): (r: Session)
    ensures ParamsOf(r) == params && r.selectedTab == s.selectedTab && r.source == s.source
    ensures s.selectedTab != Code ==> Command(params, s.selectedTab) == Some(r.commandRun)
                                      && Pane(r, s.selectedTab) == RunProgram(shell, r.commandRun, s.source)
    ensures forall t :: t != s.selectedTab ==> Pane(r, t) == Pane(s, t)
    ensures s.selectedTab == Code ==> r.commandRun == s.commandRun
  {
    var e := RunEffect(s, shell, params, s.selectedTab);
    var r := e.(demangle := params.0, optimize := params.1, moduleOptimize := params.2, parseAsLibrary := params.3);
    SamePanes(r, e);
    r
  }

  /** A tab was selected: `run` with the current toggles on that tab, and the
      tab is kept as the selected one. */
  function TabSelected(s: Session, shell: Shell, tab: Tab): (r: Session)
    ensures ParamsOf(r) == ParamsOf(s) && r.selectedTab == tab && r.source == s.source
    ensures tab != Code ==> Command(ParamsOf(s), tab) == Some(r.commandRun)
                            && Pane(r, tab) == RunProgram(shell, r.commandRun, s.source)
    ensures forall t :: t != tab ==> Pane(r, t) == Pane(s, t)
    ensures tab == Code ==> r.commandRun == s.commandRun
  {
    var e := RunEffect(s, shell, ParamsOf(s), tab);
    var r := e.(selectedTab := tab);
    SamePanes(r, e);
    r
  }

  /** The source was edited: nothing is rerun. */
  function SourceEdited(s: Session, text: string): (r: Session)
    ensures r.source == text && ParamsOf(r) == ParamsOf(s) && r.selectedTab == s.selectedTab
    ensures r.commandRun == s.commandRun
    ensures forall t :: t != Code ==> Pane(r, t) == Pane(s, t)
  {
    s.(source := text)
  }

  /** The command shown under an output tab (the one the copy button copies)
      is the one the current toggles give for the selected tab. */
  predicate Consistent(s: Session)
  {
    s.selectedTab != Code ==> Command(ParamsOf(s), s.selectedTab) == Some(s.commandRun)
  }

  /** The selected output tab shows what its command gives on the current source. */
  predicate Fresh(s: Session, shell: Shell)
  {
    s.selectedTab != Code ==> Pane(s, s.selectedTab) == RunProgram(shell, s.commandRun, s.source)
  }

  /** The two subscriptions deliver the starting values once when they are
      made; both name the source tab, so nothing runs and nothing changes. */
  lemma StartupRunsChangeNothing(shell: Shell)
    ensures RunEffect(Initial(), shell, ParamsOf(Initial()), Initial().selectedTab) == Initial()
    ensures Requests(Initial(), ParamsOf(Initial()), Initial().selectedTab) == []
    ensures Consistent(Initial())
  {
  }

  /** Every handler keeps the displayed command in step with the toggles and
      the selected tab. */
  lemma HandlersKeepConsistent(s: Session, shell: Shell, params: Params, tab: Tab, text: string)
    requires Consistent(s)
    ensures Consistent(FlagsChanged(s, shell, params))
    ensures Consistent(TabSelected(s, shell, tab))
    ensures Consistent(SourceEdited(s, text))
  {
  }

  /** Flipping a toggle or selecting a tab leaves the selected tab showing
      what its command gives on the current source. */
  lemma RerunsRefresh(s: Session, shell: Shell, params: Params, tab: Tab)
    ensures Fresh(FlagsChanged(s, shell, params), shell)
    ensures Fresh(TabSelected(s, shell, tab), shell)
  {
  }

  /** Editing the source does not rerun: the selected tab keeps showing the
      output for the old source, which is stale whenever the command gives
      something else for the new one. */
  lemma SourceEditLeavesOutputStale(s: Session, shell: Shell, text: string)
    requires s.selectedTab != Code
    requires RunProgram(shell, s.commandRun, text) != Pane(s, s.selectedTab)
    ensures forall t :: t != Code ==> Pane(SourceEdited(s, text), t) == Pane(s, t)
    ensures SourceEdited(s, text).commandRun == s.commandRun
    ensures !Fresh(SourceEdited(s, text), shell)
  {
  }

  /** Running the same tab again with the same toggles and source changes
      nothing more. */
  lemma RunIdempotent(s: Session, shell: Shell, params: Params, tab: Tab)
    ensures RunEffect(RunEffect(s, shell, params, tab), shell, params, tab) == RunEffect(s, shell, params, tab)
  {
  }

  /** Selecting the tab that is already selected, with unchanged toggles,
      reruns its command on the current source and changes nothing else. */
  lemma ReselectOnlyRefreshes(s: Session, shell: Shell)
    requires Consistent(s) && s.selectedTab != Code
    ensures var r := TabSelected(s, shell, s.selectedTab);
            r.commandRun == s.commandRun
            && Pane(r, s.selectedTab) == RunProgram(shell, s.commandRun, s.source)
            && SameSettings(r, s)
            && forall t :: t != s.selectedTab ==> Pane(r, t) == Pane(s, t)
  {
  }

  /** The view model, whose fields the dispatcher and the handlers assign in
      place. `requests` records every subprocess started, in order. */
  class ViewModel {
    const shell: Shell

    var selectedTab: Tab
    var demangle: bool
    var optimize: bool
    var moduleOptimize: bool
    var parseAsLibrary: bool
    var source: string
    var commandRun: string

    var silOutput: string
    var canonicalSilOutput: string
    var irOutput: string
    var parseOutput: string
    var prettyPrintAST: string
    var astOutput: string
    var assemblyOutput: string

    ghost var requests: seq<Request>

    /** The fields, as a `Session` value. */
    function State(): Session
      reads this
    {
      Session(selectedTab, demangle, optimize, moduleOptimize, parseAsLibrary, source, commandRun,
              silOutput, canonicalSilOutput, irOutput, parseOutput, prettyPrintAST, astOutput, assemblyOutput)
    }

    /** Starts from the default session and subscribes the two handlers; each
        subscription hands its handler the current values once. */
    constructor (shell: Shell)
      ensures this.shell == shell
      ensures State() == Initial() && requests == []
    {
      this.shell := shell;
      selectedTab := Code;
      demangle := true;
      optimize := false;
      moduleOptimize := false;
      parseAsLibrary := false;
      source := "// Paste or write your Swift code here";
      commandRun := "";
      silOutput := "";
      canonicalSilOutput := "";
      irOutput := "";
      parseOutput := "";
      prettyPrintAST := "";
      astOutput := "";
      assemblyOutput := "";
      requests := [];
      new;
      Run((demangle, optimize, moduleOptimize, parseAsLibrary), selectedTab);
      Run((demangle, optimize, moduleOptimize, parseAsLibrary), selectedTab);
    }

    /** Starts `program` with the source as its input and returns the text to show. */
    method RunProgram(program: string) returns (output: string)
      modifies this`requests
      ensures output == Runner.RunProgram(shell, program, source)
      ensures requests == old(requests) + [Request(program, source)]
    {
      requests := requests + [Request(program, source)];
      var out := shell(program, source);
      output := SelectOutput(out);
    }

    /** `run(params:tab:)`: builds the template from the toggles, then picks
        the command for the tab (the template filled with the tab's base
        invocation, or a fixed command) and dispatches it; the source tab
        does nothing. */
    method Run(params: Params, tab: Tab)
      modifies this
      ensures State() == RunEffect(old(State()), shell, params, tab)
      ensures requests == old(requests) + Requests(old(State()), params, tab)
    {
      var programTemplate := ProgramTemplate(params);
      match tab
      case Sil => Dispatch(tab, Format(programTemplate, "swiftc - -emit-silgen"));
      case IR => Dispatch(tab, Format(programTemplate, "swiftc - -emit-ir"));
      case Ast => Dispatch(tab, "swiftc - -dump-ast");
      case Parse => Dispatch(tab, "swiftc - -dump-parse");
      case CanonicalSil => Dispatch(tab, Format(programTemplate, "swiftc - -emit-sil"));
      case Assembly => Dispatch(tab, Format(programTemplate, "swiftc - -emit-assembly"));
      case PrettyPrintAST => Dispatch(tab, "swiftc - -print-ast");
      case Code =>
    }

    /** What every output case of `run` does with its command: shows it as
        the command run, runs it and stores the text to show in the tab's field. */
    method Dispatch(tab: Tab, command: string)
      requires tab != Code
      modifies this
      ensures State() == WithPane(old(State()).(commandRun := command), tab, Runner.RunProgram(shell, command, old(source)))
      ensures requests == old(requests) + [Request(command, old(source))]
    {
      commandRun := command;
      var output := RunProgram(command);
      StoreOutput(tab, output);
    }

    /** Stores `text` in the output field of `tab`. */
    method StoreOutput(tab: Tab, text: string)
      requires tab != Code
      modifies this
      ensures State() == WithPane(old(State()), tab, text)
      ensures requests == old(requests)
    {
      match tab
      case Sil => silOutput := text;
      case IR => irOutput := text;
      case Ast => astOutput := text;
      case Parse => parseOutput := text;
      case CanonicalSil => canonicalSilOutput := text;
      case Assembly => assemblyOutput := text;
      case PrettyPrintAST => prettyPrintAST := text;
    }

    // Each toggle's handler receives the new value before it is stored
    // (the publisher fires as the property is about to change), and reruns
    // the selected tab with the new tuple.

    method SetDemangle(value: bool)
      modifies this
      ensures State() == FlagsChanged(old(State()), shell, (value, old(optimize), old(moduleOptimize), old(parseAsLibrary)))
      ensures requests == old(requests)
                          + Requests(old(State()), (value, old(optimize), old(moduleOptimize), old(parseAsLibrary)), old(selectedTab))
    {
      Run((value, optimize, moduleOptimize, parseAsLibrary), selectedTab);
      demangle := value;
    }

    method SetOptimize(value: bool)
      modifies this
      ensures State() == FlagsChanged(old(State()), shell, (old(demangle), value, old(moduleOptimize), old(parseAsLibrary)))
      ensures requests == old(requests)
                          + Requests(old(State()), (old(demangle), value, old(moduleOptimize), old(parseAsLibrary)), old(selectedTab))
    {
      Run((demangle, value, moduleOptimize, parseAsLibrary), selectedTab);
      optimize := value;
    }

    method SetModuleOptimize(value: bool)
      modifies this
      ensures State() == FlagsChanged(old(State()), shell, (old(demangle), old(optimize), value, old(parseAsLibrary)))
      ensures requests == old(requests)
                          + Requests(old(State()), (old(demangle), old(optimize), value, old(parseAsLibrary)), old(selectedTab))
    {
      Run((demangle, optimize, value, parseAsLibrary), selectedTab);
      moduleOptimize := value;
    }

    method SetParseAsLibrary(value: bool)
      modifies this
      ensures State() == FlagsChanged(old(State()), shell, (old(demangle), old(optimize), old(moduleOptimize), value))
      ensures requests == old(requests)
                          + Requests(old(State()), (old(demangle), old(optimize), old(moduleOptimize), value), old(selectedTab))
    {
      Run((demangle, optimize, moduleOptimize, value), selectedTab);
      parseAsLibrary := value;
    }

    /** The tab handler: reruns the newly selected tab with the current toggles. */
    method SelectTab(tab: Tab)
      modifies this
      ensures State() == TabSelected(old(State()), shell, tab)
      ensures requests == old(requests) + Requests(old(State()), ParamsOf(old(State())), tab)
    {
      Run((demangle, optimize, moduleOptimize, parseAsLibrary), tab);
      selectedTab := tab;
    }

    /** Editing the source only stores the text; no handler observes it. */
    method EditSource(text: string)
      modifies this
      ensures State() == SourceEdited(old(State()), text)
      ensures requests == old(requests)
    {
      source := text;
    }
  }
}
