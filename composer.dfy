/** The command composer of the SIL viewer: from the selected tab and the four
    option toggles it builds the shell command that runs the Swift compiler
    for that tab.  Four helpers each append one fixed flag when their toggle
    is on; they are nested around a "%@" template, and the template is then
    filled with the tab's base `swiftc` invocation. */
module Composer {

  datatype Option<T> = None | Some(value: T)

  /** The tabs of the window, in the order the source declares them. */
  datatype Tab = Code | Ast | PrettyPrintAST | Parse | Sil | CanonicalSil | IR | Assembly

  /** The tuple handed to `run`, positionally
      (demangle, optimize, moduleOptimize, parseAsLibrary). */
  type Params = (bool, bool, bool, bool)

  const Placeholder: string := "%@"

  const ParseAsLibraryFlag: string := " -parse-as-library -module-name SILInspector"
  const OptimizeFlag: string := " -O"
  const ModuleOptimizeFlag: string := " -whole-module-optimization"
  const DemanglePipe: string := " | xcrun swift-demangle"

  /** Appends the parse-as-library flags when asked to, and nothing otherwise. */
  function WithParseAsLibrary(parseAsLibrary: bool, program: string): string
  {
    if parseAsLibrary then program + ParseAsLibraryFlag else program
  }

  /** Appends `-O` when asked to, and nothing otherwise. */
  function WithOptimize(optimize: bool, program: string): string
  {
    if optimize then program + OptimizeFlag else program
  }

  /** Appends the whole-module-optimization flag when asked to, and nothing otherwise. */
  function WithModuleOptimize(moduleOptimize: bool, program: string): string
  {
    if moduleOptimize then program + ModuleOptimizeFlag else program
  }

  /** Pipes the command through the demangler when asked to, and leaves it alone otherwise. */
  function WithDemangle(demangle: bool, program: string): string
  {
    if demangle then program + DemanglePipe else program
  }

  /** Each helper leaves the command it is given in front and appends its
      own flag when its toggle is on, and nothing when it is off. */
  lemma HelpersOnlyAppend(on: bool, program: string)
    ensures program <= WithParseAsLibrary(on, program)
            && WithParseAsLibrary(on, program)[|program|..] == Optional(on, ParseAsLibraryFlag)
    ensures program <= WithModuleOptimize(on, program)
            && WithModuleOptimize(on, program)[|program|..] == Optional(on, ModuleOptimizeFlag)
    ensures program <= WithOptimize(on, program)
            && WithOptimize(on, program)[|program|..] == Optional(on, OptimizeFlag)
    ensures program <= WithDemangle(on, program)
            && WithDemangle(on, program)[|program|..] == Optional(on, DemanglePipe)
  {
  }

  /** The template `run` builds before it looks at the tab: parse-as-library
      innermost, then whole-module optimization, then `-O`, then the demangler. */
  function ProgramTemplate(params: Params): string
  {
    WithDemangle(params.0,
      WithOptimize(params.1,
        WithModuleOptimize(params.2,
          WithParseAsLibrary(params.3, Placeholder))))
  }

  /** `s` when `on`, the empty string otherwise. */
  function Optional(on: bool, s: string): string
  {
    if on then s else ""
  }

  /** Reference definition of what the toggles add to a templated command:
      each flag present exactly when its toggle is on, in the fixed order. */
  function Suffixes(params: Params): string
  {
    Optional(params.3, ParseAsLibraryFlag)
    + Optional(params.2, ModuleOptimizeFlag)
    + Optional(params.1, OptimizeFlag)
    + Optional(params.0, DemanglePipe)
  }

  /** The one use of `String(format:)` the viewer makes: a template whose
      only conversion is a leading "%@" gets its argument put in its place.
      A template without it is returned as it is (the argument is unused). */
  function Format(template: string, argument: string): string
  {
    if Placeholder <= template then argument + template[|Placeholder|..] else template
  }

  /** The tabs whose command depends on the toggles. */
  predicate IsTemplated(tab: Tab)
  {
    tab.Sil? || tab.CanonicalSil? || tab.IR? || tab.Assembly?
  }

  /** The `swiftc` invocation each output tab starts from. */
  function BaseCommand(tab: Tab): string
    requires tab != Code
  {
    match tab
    case Sil => "swiftc - -emit-silgen"
    case IR => "swiftc - -emit-ir"
    case Ast => "swiftc - -dump-ast"
    case Parse => "swiftc - -dump-parse"
    case CanonicalSil => "swiftc - -emit-sil"
    case Assembly => "swiftc - -emit-assembly"
    case PrettyPrintAST => "swiftc - -print-ast"
  }

  /** The command `run` executes for `tab`, or None for the source tab,
      where `run` does nothing. */
  function Command(params: Params, tab: Tab): (r: Option<string>)
    ensures r.None? <==> tab == Code
    ensures r.Some? ==> BaseCommand(tab) <= r.value
  {
    if tab == Code then None
    else if IsTemplated(tab) then Some(Format(ProgramTemplate(params), BaseCommand(tab)))
    else Some(BaseCommand(tab))
  }

  /** The template is the placeholder followed by exactly the flags that are
      on, in the fixed order. */
  lemma TemplateIsPlaceholderThenSuffixes(params: Params)
    ensures ProgramTemplate(params) == Placeholder + Suffixes(params)
  {
    var a := Optional(params.3, ParseAsLibraryFlag);
    var b := Optional(params.2, ModuleOptimizeFlag);
    var c := Optional(params.1, OptimizeFlag);
    var d := Optional(params.0, DemanglePipe);
    assert WithParseAsLibrary(params.3, Placeholder) == Placeholder + a;
    assert WithModuleOptimize(params.2, Placeholder + a) == Placeholder + a + b;
    assert WithOptimize(params.1, Placeholder + a + b) == Placeholder + a + b + c;
    assert WithDemangle(params.0, Placeholder + a + b + c) == Placeholder + a + b + c + d;
    Associative(Placeholder, a, b);
    Associative(Placeholder, a + b, c);
    Associative(Placeholder, a + b + c, d);
  }

  /** A templated tab runs its base command followed by the flags that are
      on, in the fixed order. */
  lemma TemplatedCommand(params: Params, tab: Tab)
    requires IsTemplated(tab)
    ensures Command(params, tab) == Some(BaseCommand(tab) + Suffixes(params))
  {
    TemplateIsPlaceholderThenSuffixes(params);
    Filled(ProgramTemplate(params), BaseCommand(tab), Suffixes(params));
  }

  /** Filling a template that is the placeholder followed by `tail` gives
      the argument followed by `tail`. */
  lemma Filled(template: string, argument: string, tail: string)
    requires template == Placeholder + tail
    ensures Format(template, argument) == argument + tail
  {
    assert template[|Placeholder|..] == tail;
  }

  /** With every toggle off a templated tab runs its base command unchanged. */
  lemma AllOffIsBaseCommand(tab: Tab)
    requires IsTemplated(tab)
    ensures Command((false, false, false, false), tab) == Some(BaseCommand(tab))
  {
    TemplatedCommand((false, false, false, false), tab);
    assert BaseCommand(tab) + "" == BaseCommand(tab);
  }

  /** Parse-as-library and whole-module optimization on the canonical SIL
      tab: `swiftc - -emit-sil -parse-as-library -module-name SILInspector
      -whole-module-optimization`. */
  lemma CanonicalSilLibraryExample()
    ensures Command((false, false, true, true), CanonicalSil)
            == Some("swiftc - -emit-sil" + ParseAsLibraryFlag + ModuleOptimizeFlag)
  {
    TemplatedCommand((false, false, true, true), CanonicalSil);
    assert Suffixes((false, false, true, true)) == ParseAsLibraryFlag + ModuleOptimizeFlag;
    Associative(BaseCommand(CanonicalSil), ParseAsLibraryFlag, ModuleOptimizeFlag);
  }

  /** With both optimizations on, whole-module optimization comes before `-O`:
      `swiftc - -emit-assembly -whole-module-optimization -O | xcrun swift-demangle`. */
  lemma ModuleOptimizeBeforeOptimizeExample()
    ensures Command((true, true, true, false), Assembly)
            == Some("swiftc - -emit-assembly" + ModuleOptimizeFlag + OptimizeFlag + DemanglePipe)
  {
    TemplatedCommand((true, true, true, false), Assembly);
    assert Suffixes((true, true, true, false)) == ModuleOptimizeFlag + OptimizeFlag + DemanglePipe;
    RegroupTail(BaseCommand(Assembly), ModuleOptimizeFlag, OptimizeFlag, DemanglePipe);
  }

  /** The AST, parse and pretty-printed AST tabs ignore the toggles. */
  lemma FixedCommandIgnoresToggles(params: Params, other: Params, tab: Tab)
    requires tab != Code && !IsTemplated(tab)
    ensures Command(params, tab) == Command(other, tab) == Some(BaseCommand(tab))
  {
  }

  /** Different toggle settings give different flag tails: reading the tail
      from its end, each flag is there exactly when its toggle is on. */
  lemma SuffixesInjective(params: Params, other: Params)
    requires Suffixes(params) == Suffixes(other)
    ensures params == other
  {
    // Each flag ends in a character no other flag ends in, so the last
    // character of a tail names the outermost flag it holds.
    var s := Suffixes(params);
    var t := Suffixes(other);
    assert s == t;
    if params.0 != other.0 {
      LastCharNamesDemangle(params);
      LastCharNamesDemangle(other);
      assert false;
    }
    var s3 := Optional(params.3, ParseAsLibraryFlag) + Optional(params.2, ModuleOptimizeFlag) + Optional(params.1, OptimizeFlag);
    var t3 := Optional(other.3, ParseAsLibraryFlag) + Optional(other.2, ModuleOptimizeFlag) + Optional(other.1, OptimizeFlag);
    DropCommonTail(s3, t3, Optional(params.0, DemanglePipe));
    if params.1 != other.1 {
      LastCharNamesOptimize(params.3, params.2, params.1);
      LastCharNamesOptimize(other.3, other.2, other.1);
      assert false;
    }
    var s2 := Optional(params.3, ParseAsLibraryFlag) + Optional(params.2, ModuleOptimizeFlag);
    var t2 := Optional(other.3, ParseAsLibraryFlag) + Optional(other.2, ModuleOptimizeFlag);
    DropCommonTail(s2, t2, Optional(params.1, OptimizeFlag));
    if params.2 != other.2 {
      LastCharNamesModuleOptimize(params.3, params.2);
      LastCharNamesModuleOptimize(other.3, other.2);
      assert false;
    }
    DropCommonTail(Optional(params.3, ParseAsLibraryFlag), Optional(other.3, ParseAsLibraryFlag), Optional(params.2, ModuleOptimizeFlag));
  }

  /** `params.0` drives the demangler: a templated command ends with the
      demangle pipe exactly when it is on. */
  lemma PipedIffDemangle(params: Params, tab: Tab)
    requires IsTemplated(tab)
    ensures EndsWith(Command(params, tab).value, DemanglePipe) <==> params.0
  {
    TemplatedCommand(params, tab);
    var base := BaseCommand(tab);
    var s := Suffixes(params);
    var s3 := Optional(params.3, ParseAsLibraryFlag) + Optional(params.2, ModuleOptimizeFlag) + Optional(params.1, OptimizeFlag);
    if params.0 {
      assert s == s3 + DemanglePipe;
      Associative(base, s3, DemanglePipe);
      EndsWithAppended(base + s3, DemanglePipe);
    } else {
      LastCharNamesDemangle(params);
      assert base[|base| - 1] != 'e';
      LastOfAppend(base, s);
      if EndsWith(base + s, DemanglePipe) {
        EndsWithLastChar(base + s, DemanglePipe);
        assert false;
      }
    }
  }

  /** `s` ends with `tail`. */
  predicate EndsWith(s: string, tail: string)
  {
    |tail| <= |s| && s[|s| - |tail|..] == tail
  }

  lemma EndsWithAppended(s: string, tail: string)
    ensures EndsWith(s + tail, tail)
  {
    assert (s + tail)[|s|..] == tail;
  }

  lemma EndsWithLastChar(s: string, tail: string)
    requires EndsWith(s, tail) && |tail| > 0
    ensures s[|s| - 1] == tail[|tail| - 1]
  {
    assert s[|s| - 1] == s[|s| - |tail|..][|tail| - 1];
  }

  lemma LastOfAppend(a: string, b: string)
    requires |a| > 0
    ensures (a + b)[|a + b| - 1] == if b == [] then a[|a| - 1] else b[|b| - 1]
  {
  }

  /** `params.3` drives parse-as-library: a templated command goes on from
      its base invocation with the parse-as-library flags exactly when it is on. */
  lemma LibraryFlagsIffParseAsLibrary(params: Params, tab: Tab)
    requires IsTemplated(tab)
    ensures BaseCommand(tab) + ParseAsLibraryFlag <= Command(params, tab).value <==> params.3
  {
    TemplatedCommand(params, tab);
    SuffixesOpenWithLibraryFlags(params);
    CommonHeadPrefix(BaseCommand(tab), ParseAsLibraryFlag, Suffixes(params));
  }

  lemma SuffixesOpenWithLibraryFlags(params: Params)
    ensures ParseAsLibraryFlag <= Suffixes(params) <==> params.3
  {
    var rest := Optional(params.2, ModuleOptimizeFlag) + Optional(params.1, OptimizeFlag) + Optional(params.0, DemanglePipe);
    RegroupTail(Optional(params.3, ParseAsLibraryFlag), Optional(params.2, ModuleOptimizeFlag),
                Optional(params.1, OptimizeFlag), Optional(params.0, DemanglePipe));
    if params.3 {
      assert Suffixes(params) == ParseAsLibraryFlag + rest;
    } else {
      assert Suffixes(params) == rest;
      // every other flag starts with " -w", " -O" or " |", never " -p"
      var c := Optional(params.1, OptimizeFlag);
      var d := Optional(params.0, DemanglePipe);
      if params.2 {
        RegroupTail(ModuleOptimizeFlag, c, d, "");
        HeadsDiffer(ParseAsLibraryFlag, ModuleOptimizeFlag, c + d, 2);
      } else if params.1 {
        assert rest == OptimizeFlag + d;
        HeadsDiffer(ParseAsLibraryFlag, OptimizeFlag, d, 2);
      } else if params.0 {
        assert rest == DemanglePipe + "";
        HeadsDiffer(ParseAsLibraryFlag, DemanglePipe, "", 1);
      }
    }
  }

  /** A string whose k-th character differs from `head`'s is no prefix of
      anything that starts with `head`. */
  lemma HeadsDiffer(p: string, head: string, rest: string, k: nat)
    requires k < |p| && k < |head| && p[k] != head[k]
    ensures !(p <= head + rest)
  {
    assert (head + rest)[k] == head[k];
  }

  lemma Associative(a: string, b: string, c: string)
    ensures a + (b + c) == a + b + c
  {
  }

  lemma RegroupTail(a: string, b: string, c: string, d: string)
    ensures a + b + c + d == a + (b + c + d)
  {
  }

  lemma CommonHeadPrefix(a: string, b: string, c: string)
    ensures a + b <= a + c <==> b <= c
  {
    if a + b <= a + c {
      assert b == (a + b)[|a|..];
      assert b == (a + c)[|a|..|a| + |b|];
      assert (a + c)[|a|..|a| + |b|] == c[..|b|];
    }
    if b <= c {
      assert a + c == (a + b) + c[|b|..];
    }
  }

  /** For a templated tab the command determines the toggles. */
  lemma TemplatedCommandInjective(params: Params, other: Params, tab: Tab)
    requires IsTemplated(tab)
    requires Command(params, tab) == Command(other, tab)
    ensures params == other
  {
    TemplatedCommand(params, tab);
    TemplatedCommand(other, tab);
    DropCommonHead(BaseCommand(tab), Suffixes(params), Suffixes(other));
    SuffixesInjective(params, other);
  }

  lemma DropCommonTail(a: string, b: string, c: string)
    requires a + c == b + c
    ensures a == b
  {
    assert a == (a + c)[..|a|];
    assert b == (b + c)[..|b|];
  }

  lemma DropCommonHead(a: string, b: string, c: string)
    requires a + b == a + c
    ensures b == c
  {
    assert b == (a + b)[|a|..];
    assert c == (a + c)[|a|..];
  }

  /** The tail ends in 'e' exactly when the demangler is piped in. */
  lemma LastCharNamesDemangle(params: Params)
    ensures var s := Suffixes(params); (|s| > 0 && s[|s| - 1] == 'e') <==> params.0
  {
    var s3 := Optional(params.3, ParseAsLibraryFlag) + Optional(params.2, ModuleOptimizeFlag) + Optional(params.1, OptimizeFlag);
    LastCharNamesOptimize(params.3, params.2, params.1);
    var s := Suffixes(params);
    if params.0 {
      assert s == s3 + DemanglePipe;
      assert s[|s| - 1] == DemanglePipe[|DemanglePipe| - 1];
    } else {
      assert s == s3;
    }
  }

  /** Without the demangler, the tail ends in 'O' exactly when `-O` is on. */
  lemma LastCharNamesOptimize(parseAsLibrary: bool, moduleOptimize: bool, optimize: bool)
    ensures var s := Optional(parseAsLibrary, ParseAsLibraryFlag) + Optional(moduleOptimize, ModuleOptimizeFlag)
                     + Optional(optimize, OptimizeFlag);
            (|s| > 0 && s[|s| - 1] == 'O') <==> optimize
    ensures var s := Optional(parseAsLibrary, ParseAsLibraryFlag) + Optional(moduleOptimize, ModuleOptimizeFlag)
                     + Optional(optimize, OptimizeFlag);
            |s| > 0 ==> s[|s| - 1] in {'r', 'n', 'O'}
  {
    var s2 := Optional(parseAsLibrary, ParseAsLibraryFlag) + Optional(moduleOptimize, ModuleOptimizeFlag);
    LastCharNamesModuleOptimize(parseAsLibrary, moduleOptimize);
    if optimize {
      var s := s2 + OptimizeFlag;
      assert s[|s| - 1] == 'O';
    } else {
      assert s2 + "" == s2;
    }
  }

  /** With only the first two flags possible, the tail ends in 'n' exactly
      when whole-module optimization is on. */
  lemma LastCharNamesModuleOptimize(parseAsLibrary: bool, moduleOptimize: bool)
    ensures var s := Optional(parseAsLibrary, ParseAsLibraryFlag) + Optional(moduleOptimize, ModuleOptimizeFlag);
            (|s| > 0 && s[|s| - 1] == 'n') <==> moduleOptimize
    ensures var s := Optional(parseAsLibrary, ParseAsLibraryFlag) + Optional(moduleOptimize, ModuleOptimizeFlag);
            |s| > 0 ==> s[|s| - 1] in {'r', 'n'}
  {
    var p := Optional(parseAsLibrary, ParseAsLibraryFlag);
    if moduleOptimize {
      var s := p + ModuleOptimizeFlag;
      assert s[|s| - 1] == 'n';
    } else {
      assert p + "" == p;
      if parseAsLibrary {
        assert p[|p| - 1] == 'r';
      }
    }
  }
}
