/** The subprocess runner of the SIL viewer.  The process itself (a bash
    shell fed the source text on standard input, both pipes read to the end
    and decoded as UTF-8) is not modelled: it is a `Shell`, a function from
    the command and the standard input to what the process wrote.  What is
    modelled is the choice of which of the two texts the viewer shows. */
module Runner {

  /** What the process wrote to its two output pipes, decoded. */
  datatype ProcessOutput = ProcessOutput(stdout: string, stderr: string)

  /** Running `command` under a shell with `stdin` as its standard input. */
  type Shell = (string, string) -> ProcessOutput

  /** Error text that counts as no error: nothing, or a lone newline. */
  predicate IsBlank(error: string)
  {
    error == "" || error == "\n"
  }

  /** The text shown for a run: the standard output when the error text is
      blank, the error text otherwise; the two are never combined. */
  function SelectOutput(out: ProcessOutput): (r: string)
    ensures r == out.stdout || r == out.stderr
    ensures IsBlank(out.stderr) ==> r == out.stdout
    ensures !IsBlank(out.stderr) ==> r == out.stderr
  {
    if out.stderr == "" || out.stderr == "\n" then out.stdout else out.stderr
  }

  /** Runs `program` with `source` as its input and returns the text to show. */
  function RunProgram(shell: Shell, program: string, source: string): (r: string)
    ensures r == shell(program, source).stdout || r == shell(program, source).stderr
  {
    SelectOutput(shell(program, source))
  }

  /** Non-blank error text hides the standard output completely: whatever the
      process printed there, the same text is shown. */
  lemma ErrorHidesOutput(out: ProcessOutput, other: ProcessOutput)
    requires !IsBlank(out.stderr) && other.stderr == out.stderr
    ensures SelectOutput(out) == SelectOutput(other) == out.stderr
  {
  }

  /** The text shown equals the error text exactly when the error text is not
      blank, or when both pipes carried the same text. */
  lemma ShowsErrorIff(out: ProcessOutput)
    ensures SelectOutput(out) == out.stderr <==> !IsBlank(out.stderr) || out.stdout == out.stderr
  {
  }

  /** A command that copies its input to its output and writes no error
      shows the source text itself. */
  lemma EchoShowsSource(shell: Shell, program: string, source: string)
    requires shell(program, source) == ProcessOutput(source, "")
    ensures RunProgram(shell, program, source) == source
  {
  }
}
