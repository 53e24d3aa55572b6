/**
 * The part of Rust's syntax tree (as `syn` hands it to the macro) that the
 * `functional_component` attribute looks at, together with a small printer
 * standing in for `to_token_stream`.
 */
module Syntax {
  import opened Wrappers

  type Ident = string
  type Token = string

  /** A lifetime such as `'a`; the name keeps its leading quote. */
  datatype Lifetime = Lifetime(name: string)

  datatype Type =
    | Reference(lifetime: Option<Lifetime>, mutable: bool, elem: Type)  // `&'a mut T`
    | Unit                                                              // `()`
    | Path(path: string)                                                // `Props`, `yew::Html`
    | Other(tokens: seq<Token>)                                         // any other type, as written

  datatype Pat = Wild | Binding(name: Ident) | OtherPat(tokens: seq<Token>)

  /** A parameter: a `self` receiver or a typed pattern `pat: ty`. */
  datatype FnArg =
    | Receiver(byReference: bool, mutable: bool)
    | Typed(pat: Pat, ty: Type)

  datatype GenericParam = TypeParam(name: Ident) | LifetimeParam(lifetime: Lifetime) | ConstParam(name: Ident)

  /** `<...>` and an optional `where` clause; only the parameters are checked by the macro. */
  datatype Generics = Generics(params: seq<GenericParam>, whereClause: seq<Token>)

  /** `extern` or `extern "C"`. */
  datatype Abi = Abi(name: Option<string>)

  /** `ReturnType::Default` (nothing written) or `-> ty`. */
  datatype ReturnType = Default | Returns(ty: Type)

  datatype Signature = Signature(
    constness: bool,
    asyncness: bool,
    unsafety: bool,
    abi: Option<Abi>,
    ident: Ident,
    generics: Generics,
    inputs: seq<FnArg>,
    variadic: bool,
    output: ReturnType)

  datatype Visibility = Inherited | Public | Crate | Restricted(path: string)

  /** An outer attribute such as `#[doc = "..."]`, kept as written. */
  datatype Attribute = Attribute(text: string)

  /** A function body; never looked into, only moved. */
  datatype Block = Block(tokens: seq<Token>)

  datatype ItemFn = ItemFn(attrs: seq<Attribute>, vis: Visibility, sig: Signature, block: Block)

  /** The annotated item: a function, or any other kind of item. */
  datatype Item = Fn(func: ItemFn) | OtherItem(tokens: seq<Token>)

  /** The tokens of the attribute argument; keywords and `_` are not identifiers. */
  datatype AttrToken =
    | IdentToken(name: Ident)
    | KeywordToken(word: string)
    | PunctToken(ch: char)
    | LiteralToken(text: string)

  // ---------------------------------------------------------------------
  // Printing (`to_token_stream`)
  // ---------------------------------------------------------------------

  function TypeTokens(t: Type): seq<Token> {
    match t
    case Reference(lifetime, mutable, elem) =>
      ["&"] + (if lifetime.Some? then [lifetime.value.name] else [])
      + (if mutable then ["mut"] else []) + TypeTokens(elem)
    case Unit => ["(", ")"]
    case Path(p) => [p]
    case Other(ts) => ts
  }

  function PatTokens(p: Pat): seq<Token> {
    match p
    case Wild => ["_"]
    case Binding(name) => [name]
    case OtherPat(ts) => ts
  }

  function ArgTokens(a: FnArg): seq<Token> {
    match a
    case Receiver(byReference, mutable) =>
      (if byReference then ["&"] else []) + (if mutable then ["mut"] else []) + ["self"]
    case Typed(pat, ty) => PatTokens(pat) + [":"] + TypeTokens(ty)
  }

  /** The parameters' token streams collected one after another, without separators. */
  function ArgsTokens(args: seq<FnArg>): seq<Token> {
    if args == [] then [] else ArgTokens(args[0]) + ArgsTokens(args[1..])
  }

  /** Collecting two runs of parameters is collecting each and concatenating. */
  lemma {:induction false} ArgsTokensAppend(xs: seq<FnArg>, ys: seq<FnArg>)
    ensures ArgsTokens(xs + ys) == ArgsTokens(xs) + ArgsTokens(ys)
  {
    if xs == [] {
      assert xs + ys == ys;
    } else {
      assert (xs + ys)[1..] == xs[1..] + ys;
      ArgsTokensAppend(xs[1..], ys);
    }
  }

  /**
   * The collected stream holds each parameter's own tokens, whole and in order:
   * the k-th parameter sits right after the tokens of the ones before it.
   */
  lemma ArgsTokensSlice(args: seq<FnArg>, k: nat)
    requires k < |args|
    ensures var start := |ArgsTokens(args[..k])|;
      && start + |ArgTokens(args[k])| <= |ArgsTokens(args)|
      && ArgsTokens(args)[start..start + |ArgTokens(args[k])|] == ArgTokens(args[k])
  {
    assert args == args[..k] + ([args[k]] + args[k + 1..]);
    ArgsTokensAppend(args[..k], [args[k]] + args[k + 1..]);
    assert ArgsTokens([args[k]] + args[k + 1..]) == ArgTokens(args[k]) + ArgsTokens(args[k + 1..]) by {
      assert ([args[k]] + args[k + 1..])[1..] == args[k + 1..];
    }
  }
}
