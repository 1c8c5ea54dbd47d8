/** The `#[pipefail]` attribute of the `calmio_filters` crate (filters/src/lib.rs),
    the copy that the `calm_io` crate re-exports.

    At build time the attribute rewrites one function: it swaps the declared return
    type for `std::io::Result<()>`, remembers the old one as the type the body's
    result is bound to, and wraps the body in a dispatch that runs the body once and
    then classifies its result. At run time that dispatch turns a broken-pipe error
    into success, re-raises every other error as it is, and discards any success
    payload. */
module Filters {
  import opened Wrappers
  import opened Io
  import opened Syntax

  /** What `parse_str("-> std::io::Result<()>")` yields: the new return type. */
  const RewrittenOutput: ReturnType := Type(IoResultUnit)

  // ---------------------------------------------------------------------------
  // Build time: the rewrite
  // ---------------------------------------------------------------------------

  /** `mem::replace(&mut sig.output, output)`: installs the new return type and hands
      back the one it displaced; no other part of the signature moves. */
  function ReplaceOutput(sig: Sig, output: ReturnType): (r: (Sig, ReturnType))
    ensures r.0.output == output
    ensures r.0.(output := r.1) == sig
  {
    (sig.(output := output), sig.output)
  }

  /** The type the body's result is bound to, read off the displaced return type:
      `()` when none was declared, the declared type verbatim otherwise. */
  function RecordedType(displaced: ReturnType): Ty {
    match displaced
    case Default => UnitTy
    case Type(t) => t
  }

  /** The whole attribute: parse the item as a function or fail, swap its return
      type, copy attributes, visibility, signature and body into the emitted
      function, whose body is the guard around the original block. */
  function Pipefail(item: Item): (r: Result<FnDecl, Diagnostic>)
    ensures r.Err? <==> item.NonFn?
    ensures item.NonFn? ==> r.error == ExpectedFn(item.keyword)
    ensures r.Ok? ==> r.value.sig.output == RewrittenOutput
    ensures r.Ok? ==>
      && r.value.attrs == item.decl.attrs
      && r.value.vis == item.decl.vis
      && r.value.sig.(output := item.decl.sig.output) == item.decl.sig
    ensures r.Ok? ==> r.value.block.Guarded? && r.value.block.inner == item.decl.block
    ensures r.Ok? && item.decl.sig.output.Default? ==> r.value.block.resultTy == UnitTy
    ensures r.Ok? && item.decl.sig.output.Type? ==> r.value.block.resultTy == item.decl.sig.output.ty
  {
    match item
    case NonFn(keyword) => Err(ExpectedFn(keyword))
    case Fn(func) =>
      var (sig, displaced) := ReplaceOutput(func.sig, RewrittenOutput);
      var retTy := RecordedType(displaced);
      Ok(FnDecl(func.attrs, func.vis, sig, Guarded(retTy, func.block)))
  }

  /** The declaration with a missing return type written out as `-> ()`. */
  function WithExplicitUnit(f: FnDecl): FnDecl {
    if f.sig.output.Default? then f.(sig := f.sig.(output := Type(UnitTy))) else f
  }

  /** The rewrite forgets nothing but the difference between no return type and
      `-> ()`: two functions rewrite to the same output exactly when they agree once
      that difference is erased. */
  lemma PipefailForgetsOnlyUnitSpelling(a: FnDecl, b: FnDecl)
    ensures Pipefail(Fn(a)) == Pipefail(Fn(b)) <==> WithExplicitUnit(a) == WithExplicitUnit(b)
  {
  }

  /** A function with no declared return type has its result bound to `()`, the empty
      tuple, which can never match `Result::Err`/`Result::Ok`, so the emitted `match`
      cannot type-check: the build then fails in the compiler, not in the attribute. */
  lemma DefaultReturnIsNotResultShaped(f: FnDecl)
    requires f.sig.output.Default?
    ensures !ResultShaped(Pipefail(Fn(f)).value.block.resultTy)
    ensures !GuardsResultShaped(Pipefail(Fn(f)).value.block)
  {
  }

  // ---------------------------------------------------------------------------
  // Run time: the dispatch the rewrite installs
  // ---------------------------------------------------------------------------

  /** The emitted `match res { Err(e) => match e.kind() { BrokenPipe => Ok(()),
      _ => Err(e) }, Ok(_) => Ok(()) }`. */
  function Filter<T>(r: IoResult<T>): (f: IoResult<()>)
    ensures f.Ok? <==> (r.Ok? || r.error.kind == BrokenPipe)
    ensures f.Err? ==> r.Err? && f.error == r.error
    ensures f.Err? ==> f.error.kind != BrokenPipe
  {
    match r
    case Err(e) => (
      match e.kind
      case BrokenPipe => Ok(())
      case _ => Err(e))
    case Ok(_) => Ok(())
  }

  /** Applying the dispatch to its own result changes nothing. */
  lemma FilterIdempotent<T>(r: IoResult<T>)
    ensures Filter(Filter(r)) == Filter(r)
  {
  }

  /** A success payload of the declared type, never inspected; `Unit` is `()`. */
  datatype Value = Unit | Payload(repr: string)

  /** What running a block does: the effects it performs, in order, and its result. */
  datatype Outcome = Outcome(effects: seq<string>, result: IoResult<Value>)

  /** The emitted function's `io::Result<()>` seen as a result over `Value`. */
  function Lift(r: IoResult<()>): IoResult<Value> {
    match r
    case Ok(_) => Ok(Unit)
    case Err(e) => Err(e)
  }

  /** Running a block, where `exec` says what the author's own statements do (they
      call code the model cannot see). A guard evaluates its inner block to completion
      (the immediately-invoked closure) and then applies the dispatch. However many
      guards are stacked, the author's statements run once, the guards add no effect,
      and the result is that of one dispatch over the statements' result. */
  function Run(b: Block, exec: seq<string> -> Outcome): (o: Outcome)
    ensures o.effects == exec(Innermost(b)).effects
    ensures b.Guarded? ==> o.result == Lift(Filter(exec(Innermost(b)).result))
  {
    match b
    case Stmts(stmts) => exec(stmts)
    case Guarded(_, inner) =>
      var res := Run(inner, exec);
      Outcome(res.effects, Lift(Filter(res.result)))
  }

  /** The emitted function does what the original body does, then the dispatch. */
  lemma ExpansionMeaning(item: Item, exec: seq<string> -> Outcome)
    requires item.Fn?
    ensures Pipefail(item).Ok?
    ensures Run(Pipefail(item).value.block, exec).effects == Run(item.decl.block, exec).effects
    ensures Run(Pipefail(item).value.block, exec).result
         == Lift(Filter(Run(item.decl.block, exec).result))
  {
  }

  /** A body that fails with a broken pipe makes the emitted function succeed. */
  lemma BrokenPipeSuppressed(item: Item, exec: seq<string> -> Outcome)
    requires item.Fn?
    requires Run(item.decl.block, exec).result.Err?
    requires Run(item.decl.block, exec).result.error.kind == BrokenPipe
    ensures Run(Pipefail(item).value.block, exec).result == Ok(Unit)
  {
  }

  /** A body that fails with any other kind makes the emitted function fail with the
      same error, kind and message alike. */
  lemma OtherErrorReraised(item: Item, exec: seq<string> -> Outcome)
    requires item.Fn?
    requires Run(item.decl.block, exec).result.Err?
    requires Run(item.decl.block, exec).result.error.kind != BrokenPipe
    ensures Run(Pipefail(item).value.block, exec).result == Run(item.decl.block, exec).result
  {
  }

  /** A body that succeeds makes the emitted function succeed with `()`, whatever the
      payload was. */
  lemma PayloadDiscarded(item: Item, exec: seq<string> -> Outcome)
    requires item.Fn?
    requires Run(item.decl.block, exec).result.Ok?
    ensures Run(Pipefail(item).value.block, exec).result == Ok(Unit)
  {
  }

  // ---------------------------------------------------------------------------
  // Applying the attribute again
  // ---------------------------------------------------------------------------

  /** The attribute applied `n` times, each time to the previous output. */
  function PipefailN(item: Item, n: nat): Result<FnDecl, Diagnostic>
    requires n >= 1
  {
    if n == 1 then Pipefail(item)
    else
      match PipefailN(item, n - 1)
      case Ok(g) => Pipefail(Fn(g))
      case Err(d) => Err(d)
  }

  /** Stacking the attribute is accepted and changes nothing at run time: every
      application after the first keeps attributes, visibility and signature, adds
      one guard that records `std::io::Result<()>` around the previous body, and leaves the
      effects and the result of the emitted function as after the first. A non-function
      is rejected by the first application. */
  lemma {:induction false} StackedPipefail(item: Item, n: nat, exec: seq<string> -> Outcome)
    requires n >= 1
    ensures item.NonFn? ==> PipefailN(item, n) == Err(ExpectedFn(item.keyword))
    ensures item.Fn? ==> PipefailN(item, n).Ok?
    ensures item.Fn? && n > 1 ==>
      PipefailN(item, n).value.block == Guarded(IoResultUnit, PipefailN(item, n - 1).value.block)
    ensures item.Fn? ==>
      var g := PipefailN(item, n).value;
      var once := Pipefail(item).value;
      && g.attrs == once.attrs && g.vis == once.vis && g.sig == once.sig
      && Depth(g.block) == Depth(item.decl.block) + n
      && (GuardsResultShaped(g.block) <==> GuardsResultShaped(once.block))
      && Run(g.block, exec) == Run(once.block, exec)
  {
    if n > 1 {
      StackedPipefail(item, n - 1, exec);
      if item.Fn? {
        var prev := PipefailN(item, n - 1).value;
        var g := PipefailN(item, n).value;
        assert g == Pipefail(Fn(prev)).value;
        assert g.block == Guarded(IoResultUnit, prev.block);
        assert Innermost(g.block) == Innermost(prev.block);
      }
    }
  }
}
