/** The two functions of the integration tests (tests/pipefail.rs), each declared
    `-> io::Result<i32>` and marked with the attribute, whose bodies fail at once. */
module Scenarios {
  import opened Wrappers
  import opened Io
  import opened Syntax
  import Filters

  const IoResultI32: Ty := Path(["io", "Result"], [Path(["i32"], [])])

  /** `fn pipe_machine_broke() -> io::Result<i32>`. */
  const PipeMachineBroke: FnDecl := FnDecl([], Inherited,
    Sig([], "pipe_machine_broke", [], [], Type(IoResultI32)),
    Stmts(["Err(io::Error::new(io::ErrorKind::BrokenPipe, \"understandable, have a nice day\"))"]))

  /** `fn any_other_error() -> io::Result<i32>`. */
  const AnyOtherError: FnDecl := FnDecl([], Inherited,
    Sig([], "any_other_error", [], [], Type(IoResultI32)),
    Stmts(["Err(io::Error::new(io::ErrorKind::UnexpectedEof, \"sudden truncation! oh no!\"))"]))

  /** Running a body that only builds and returns the given error. */
  function Failing(e: Error): seq<string> -> Filters.Outcome {
    (code: seq<string>) => Filters.Outcome([], Err(e))
  }

  /** `broken_pipe_is_not_an_error`: the rewritten function returns `Ok(())`. */
  lemma BrokenPipeIsNotAnError()
    ensures
      var g := Filters.Pipefail(Fn(PipeMachineBroke));
      var e := Error(BrokenPipe, "understandable, have a nice day");
      && g.Ok? && g.value.sig.output == Filters.RewrittenOutput
      && g.value.block.resultTy == IoResultI32
      && Filters.Run(g.value.block, Failing(e)).result == Ok(Filters.Unit)
  {
  }

  /** `other_errors_are_still_errors`: the rewritten function returns the very error
      its body produced. */
  lemma OtherErrorsAreStillErrors()
    ensures
      var g := Filters.Pipefail(Fn(AnyOtherError));
      var e := Error(UnexpectedEof, "sudden truncation! oh no!");
      && g.Ok? && g.value.sig.output == Filters.RewrittenOutput
      && Filters.Run(g.value.block, Failing(e)).result == Err(e)
  {
  }
}
