# calm_io `#[pipefail]`, modelled in Dafny

`calm_io` lets a terminal Rust program (typically `main`) stop quietly when the
reader of its output goes away, provided its writes report the broken pipe as an
error instead of panicking. Its one piece of logic is the `#[pipefail]`
procedural attribute. At build time it rewrites the marked function:

- the return type becomes `std::io::Result<()>`;
- the old return type (`()` if none was declared) becomes the type the body's
  result is bound to;
- attributes, visibility, the rest of the signature and the body are copied
  through;
- the body is wrapped in a dispatch.

At run time the dispatch runs the body once, then turns a `BrokenPipe` error
into `Ok(())`, returns every other error unchanged, and turns any success into
`Ok(())`, dropping the payload. This assumes the body returns a result: a body
that panics or never returns never reaches the dispatch. The attribute exists
twice with the same logic: the live copy in the `calmio_filters` crate (filters/src/lib.rs, re-exported by
src/lib.rs) and an older standalone `pipefail` crate (pipefail/src/lib.rs).

Modules:

- `Wrappers`: `Result<T, E>`.
- `Io`: `ErrorKind`, `Error` (kind plus opaque message) and `IoResult<T>`, the
  parts of `std::io` the dispatch looks at.
- `Syntax`: the `syn` trees the attribute handles (`ItemFn`, `Signature`,
  `ReturnType`, `Type`). A `Block` is either the author's opaque statements or
  `Guarded(resultTy, inner)`: the block the attribute emits,
  `{ let res: resultTy = (|| inner)(); match res { ... } }`.
- `Filters`: the live attribute. `Pipefail` is the rewrite and `Filter` is the
  emitted `match`. `Run` gives the run-time meaning of a block. The lemmas relate
  the rewritten function to the original one, and cover stacking the attribute
  several times.
- `Legacy`: the old crate's attribute, written out again from its own file and
  proved to emit exactly what `Filters.Pipefail` emits.
- `Scenarios`: the two functions and assertions of tests/pipefail.rs.

The author's statements call code the model cannot see, so what they do is a
parameter `exec: seq<string> -> Outcome`. An `Outcome` is the ordered effects
the statements perform plus their `IoResult`. `exec` is applied to the
innermost statements. The guards add no effects of their own.

The attribute's doc comment (filters/src/lib.rs:21-24) says it fails the build for
a non-function item and for a function that does not return `io::Result<_>`. The
code checks only the first of these, when it parses the item as a function. It
does not inspect the return type or extract its success type (the TODO at
filters/src/lib.rs:29-30). Lines 35-36 bind the displaced type, as written, to the
body's result. A wrong return type therefore fails in the compiler, when the
emitted `match` does not type-check, not in the attribute. The model follows the
code. Applying the attribute again to its own output is accepted. It adds one
guard that records `std::io::Result<()>`, and the run-time meaning stays the same
(`Filters.StackedPipefail`).

## Model

| member | source | states |
|---|---|---|
| Filters.Pipefail | filters/src/lib.rs:27-53 | A non-function item is rejected with a diagnostic and yields no function. A function yields one whose return type is `std::io::Result<()>`. Its attributes, visibility and the rest of its signature are unchanged: restoring the old output gives back the original signature. Its body is a guard around the original block, bound to `()` for a missing return type and to the declared type otherwise. |
| Filters.ReplaceOutput | filters/src/lib.rs:31-34 | The `mem::replace` swap installs the new output and returns the displaced one. Putting the displaced output back restores the original signature exactly. |
| Filters.PipefailForgetsOnlyUnitSpelling | filters/src/lib.rs:35-41 | Two functions rewrite to the same output if and only if they are equal once a missing return type is written as `-> ()`. The rewrite loses no other information. |
| Filters.DefaultReturnIsNotResultShaped | filters/src/lib.rs:21-36 | For a function with no return type, the recorded type `()` is not a `Result` type. The emitted dispatch therefore cannot type-check, so the documented build failure comes from the compiler. |
| Filters.Filter | filters/src/lib.rs:43-49 | The dispatch succeeds exactly when the body succeeded or failed with `BrokenPipe`. When it fails, the error is the body's own error, kind and message unchanged. It never yields a `BrokenPipe` error. |
| Filters.FilterIdempotent | filters/src/lib.rs:43-49 | Applying the dispatch to its own result changes nothing. |
| Filters.Run | filters/src/lib.rs:42-49 | However many guards are stacked on the author's statements, those statements run once and their effects are the block's effects. Under at least one guard, the result is one dispatch over the statements' result. |
| Filters.ExpansionMeaning | filters/src/lib.rs:38-51 | The rewritten function performs exactly the original body's effects. Its result is the dispatch applied to the original body's result. |
| Filters.BrokenPipeSuppressed | filters/src/lib.rs:44-45 | If the body fails with `BrokenPipe`, the rewritten function returns `Ok(())`. |
| Filters.OtherErrorReraised | filters/src/lib.rs:46 | If the body fails with any other kind, the rewritten function returns that same error. |
| Filters.PayloadDiscarded | filters/src/lib.rs:48 | If the body succeeds, the rewritten function returns `Ok(())` whatever the payload was (the limitation noted at filters/src/lib.rs:29-30). |
| Filters.StackedPipefail | filters/src/lib.rs:27-53 | Applying the attribute n >= 1 times rejects a non-function with the first diagnostic. For a function it is accepted and gives the first application's attributes, visibility and signature, with n more guards. Each later application wraps the previous body in a guard that records `std::io::Result<()>`. Effects and result match those after one application. |
| Legacy.Pipefail | pipefail/src/lib.rs:14-37 | The old crate's rewrite emits, for every item, exactly what the live copy emits, so all of its properties carry over. |
| Legacy.Dispatch | pipefail/src/lib.rs:27-34 | In the old crate, the body runs once with its effects kept. Then `BrokenPipe` gives `Ok(())`, any other error is returned unchanged, and any success gives `Ok(())`. |
| Scenarios.BrokenPipeIsNotAnError | tests/pipefail.rs:5-24 | `pipe_machine_broke`, declared `-> io::Result<i32>` with a body that fails with `BrokenPipe`, is rewritten to return `std::io::Result<()>`. Its result is bound to `io::Result<i32>`, and it returns `Ok(())`. |
| Scenarios.OtherErrorsAreStillErrors | tests/pipefail.rs:13-29 | `any_other_error`, whose body fails with `UnexpectedEof` and message "sudden truncation! oh no!", returns that very error. |

## Left out

- The output macros `stdout!`, `stdoutln!`, `stderr!` and `stderrln!` (src/lib.rs:70-112) are not modelled. Each locks a standard stream and makes one `write!`: pure I/O with no control flow.
- Known defect, not modelled: `stderr!` and `stderrln!` lock `stdout` instead of `stderr` (src/lib.rs:98, src/lib.rs:110).
- Token parsing and quoting by `syn` and `quote` (`parse_macro_input!`, `parse_str`, `quote!`, `TokenStream` conversion) are foreign library calls. Items and types are abstract datatypes, and the two `parse_str` results are constants. The diagnostic keeps only the keyword found instead of `fn`, not `syn`'s exact wording.
- The attribute's own argument tokens (`_attrs`) are ignored by the source and are not a parameter of the model.
- Rustc's type-checking of the emitted code is not modelled. `ResultShaped` says only that a type is written as a `...::Result<...>` path. It is neither necessary nor sufficient for the emitted `match` to compile: an alias such as `type Res = std::io::Result<()>` type-checks without that spelling.
- A body that panics or does not return is not modelled. In the source, the dispatch then never runs and the panic propagates, for example from `println!` on a closed pipe (src/lib.rs:3-14). `exec` models only bodies that return a result.
- DefaultReturnIsNotResultShaped: states only that the recorded `()` is not result-shaped, not that the compiler rejects the expansion, since type-checking is outside the model.
- The immediately invoked closure (filters/src/lib.rs:42) is modelled only as "run the inner block to completion". A `return` inside it, which leaves only the closure, is not distinguished from the block's final value.
- `io::ErrorKind` is non-exhaustive. The model lists its long-stable variants, and the dispatch treats every variant other than `BrokenPipe` alike.
- examples/good_yes.rs and examples/bad_yes.rs (argument handling, an endless print loop) are not modelled.
- Concurrency, SIGPIPE and the process exit status that `main`'s result turns into are not modelled.
