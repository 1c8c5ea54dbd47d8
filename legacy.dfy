/** The `#[pipefail]` attribute of the older standalone `pipefail` crate
    (pipefail/src/lib.rs). It is written out again here from that file, and then
    shown to emit exactly what the live copy emits, so every property proved of
    `Filters` holds of it too. */
module Legacy {
  import opened Wrappers
  import opened Io
  import opened Syntax
  import Filters

  /** Parse the item as a function or fail; swap the return type for
      `std::io::Result<()>`, binding the body's result to `()` or to the displaced
      type; copy the rest through and guard the body. */
  function Pipefail(item: Item): (r: Result<FnDecl, Diagnostic>)
    ensures r == Filters.Pipefail(item)
  {
    match item
    case NonFn(keyword) => Err(ExpectedFn(keyword))
    case Fn(func) =>
      var retTy := match func.sig.output
        case Default => Tuple([])
        case Type(t) => t;
      var sig := func.sig.(output := Type(Path(["std", "io", "Result"], [Tuple([])])));
      Ok(FnDecl(func.attrs, func.vis, sig, Guarded(retTy, func.block)))
  }

  /** The old crate's dispatch: the body runs once, with its effects, and then a broken
      pipe becomes `Ok(())`, any other error is re-raised unchanged, and a success
      becomes `Ok(())`. */
  lemma Dispatch(item: Item, exec: seq<string> -> Filters.Outcome)
    requires item.Fn?
    ensures Pipefail(item).Ok?
    ensures
      var body := Filters.Run(item.decl.block, exec);
      var out := Filters.Run(Pipefail(item).value.block, exec);
      && out.effects == body.effects
      && (body.result.Err? && body.result.error.kind == BrokenPipe ==> out.result == Ok(Filters.Unit))
      && (body.result.Err? && body.result.error.kind != BrokenPipe ==> out.result == body.result)
      && (body.result.Ok? ==> out.result == Ok(Filters.Unit))
  {
  }
}
