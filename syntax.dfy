/** The syntax trees the attribute works on, shaped like the `syn` items it parses
    (`ItemFn`, `Signature`, `ReturnType`, `Type`). Everything the attribute copies
    without looking inside is kept opaque. */
module Syntax {

  /** A Rust type as written. `()` is the empty tuple; `std::io::Result<()>` is a path
      with one generic argument; anything else the model never inspects is verbatim. */
  datatype Ty =
    | Tuple(elems: seq<Ty>)
    | Path(segments: seq<string>, args: seq<Ty>)
    | Verbatim(tokens: string)

  /** What `parse_str("()")` yields. */
  const UnitTy: Ty := Tuple([])

  /** The type inside what `parse_str("-> std::io::Result<()>")` yields. */
  const IoResultUnit: Ty := Path(["std", "io", "Result"], [UnitTy])

  /** A type written as a `...::Result<...>` path: its last path segment is `Result`
      and it has at least one generic argument. This is a statement about how the
      type is spelled only; an alias or a parenthesised type may name a result type
      without being written this way. */
  predicate ResultShaped(t: Ty) {
    t.Path? && |t.segments| > 0 && t.segments[|t.segments| - 1] == "Result" && |t.args| >= 1
  }

  /** `syn::ReturnType`: no `->` at all, or `-> T` (the arrow token is not kept). */
  datatype ReturnType = Default | Type(ty: Ty)

  datatype Param = Param(pattern: string, ty: Ty)

  /** `syn::Signature`: `qualifiers` holds `const`, `async`, `unsafe` and an `extern` ABI. */
  datatype Sig = Sig(
    qualifiers: seq<string>,
    name: string,
    generics: seq<string>,
    params: seq<Param>,
    output: ReturnType)

  datatype Visibility = Inherited | Public | Crate | Restricted(path: seq<string>)

  datatype Attribute = Attribute(path: seq<string>, tokens: string)

  /** A function body. `Stmts` is the author's own block, never looked into.
      `Guarded` is the block the attribute emits around an inner block:
      `{ let res: resultTy = (|| inner)(); match res { ... } }`. */
  datatype Block =
    | Stmts(stmts: seq<string>)
    | Guarded(resultTy: Ty, inner: Block)

  /** `syn::ItemFn`. */
  datatype FnDecl = FnDecl(attrs: seq<Attribute>, vis: Visibility, sig: Sig, block: Block)

  /** The item an attribute is placed on: a function, or any other item (`struct`,
      `impl`, `mod`, ...) named by its leading keyword. */
  datatype Item = Fn(decl: FnDecl) | NonFn(keyword: string)

  /** The compile error `parse_macro_input!` emits when the item is not a function:
      parsing stops at the token where `fn` was expected. */
  datatype Diagnostic = ExpectedFn(found: string)

  /** The author's statements under all the guards stacked on a block. */
  function Innermost(b: Block): seq<string> {
    match b
    case Stmts(s) => s
    case Guarded(_, inner) => Innermost(inner)
  }

  /** How many guards are stacked on a block. */
  function Depth(b: Block): nat {
    match b
    case Stmts(_) => 0
    case Guarded(_, inner) => 1 + Depth(inner)
  }

  /** Every guard of the block records a result-shaped type. */
  predicate GuardsResultShaped(b: Block) {
    match b
    case Stmts(_) => true
    case Guarded(t, inner) => ResultShaped(t) && GuardsResultShaped(inner)
  }
}
