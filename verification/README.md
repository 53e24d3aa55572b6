# yew `#[functional_component]`, modelled in Dafny

The `functional_component` attribute macro of `yew-functional-macro` turns a
function such as

    #[functional_component(Foo)]
    fn foo(props: &Props) -> Html { ... }

into a hidden marker struct `foo`, an implementation of
`::yew_functional::FunctionProvider` for it (`type TProps = Props;` and
`fn run(props: &Props) -> ::yew::html::Html { ... }`) and an alias
`type Foo = ::yew_functional::FunctionComponent<foo>;`. Before rewriting, it
checks the function's shape, stopping at the first problem with one
diagnostic.

The model is a pure function of the two inputs the macro receives:

- `syntax.dfy` (module `Syntax`): the syntax tree the macro sees (item,
  signature, parameters, types, visibility, attributes, an opaque body) and
  the attribute argument as tokens, plus a small printer standing in for
  `to_token_stream`.
- `macro.dfy` (module `Macro`): `FunctionalComponent::parse` as
  `ParseFunctionalComponent`, `FunctionalComponentName::parse` (as
  `parse_macro_input!` runs it, so leftover tokens are an error) as
  `ParseComponentName`, `functional_component_impl` as
  `FunctionalComponentImpl`, and the attribute entry point
  `functional_component` as `ExpandFunctionalComponent`. The generated code is
  an `Output` record: marker struct, provider impl and type alias. Errors are
  tagged kinds carrying what the diagnostic points at.
- `properties.dfy` (module `MacroProperties`): every defect an input can have,
  read off the syntax alone (`Has`), the order in which they are reported
  (`Rank`), and the theorem that the expansion succeeds exactly when there is
  no defect and otherwise reports the present defect of least rank. Lemmas
  then state each check in its own terms.
- `wrappers.dfy`: `Option` and `Result`.

Behaviour of the code worth knowing, which the model follows:

- Besides an empty argument (`MissingComponentName`), the attribute is
  rejected when its first token is not an identifier (`ExpectedIdentifier`)
  or when anything follows the identifier (`UnexpectedToken`): `syn`'s
  identifier parser and `parse_macro_input!` (lib.rs:151, 163) add these.
- A `&'a T` or `&mut T` parameter is reported by pointing at the lifetime or
  the `mut`; only a non-reference parameter's message quotes the type.
- The extra parameters of `TooManyParameters` are the diagnostic's span
  (lib.rs:106-108); its message text is fixed.
- `unsafe`, a variadic `...` and a `where` clause with no generic
  parameters are accepted and do not appear in the output.

The expansion is a total function, so identical inputs give identical
results; no lemma is needed for determinism.

## Model

| member | source | states |
|---|---|---|
| `Macro.NextInput` | yew-functional-macro/src/lib.rs:61-64 | the first parameter and the rest split the parameter list; with no parameters the first is `_: &()` and nothing remains |
| `Macro.PropsType` | yew-functional-macro/src/lib.rs:66-100 | a parameter is accepted exactly when it is a typed reference with no lifetime and no `mut`, and then it is `&T` for the returned `T`; a receiver, a lifetime (even on `&'a mut T`) and a non-reference `U` get their own errors carrying the offending item |
| `Macro.ParseFunctionalComponent` | yew-functional-macro/src/lib.rs:20-138 | a non-function is rejected; an accepted function has no generic parameters, async, const or ABI, at most one parameter, an explicit return type; the record keeps that parameter (or `_: &()`) whose type is `&TProps`, the declared return type, name, visibility, attributes and body |
| `Macro.ParseComponentName` | yew-functional-macro/src/lib.rs:146-154 | an empty attribute is `MissingComponentName`; the name is accepted exactly when the attribute is one identifier token |
| `Macro.FunctionalComponentImpl` | yew-functional-macro/src/lib.rs:170-215 | fails exactly when function and component names are equal, naming both; otherwise the marker, provider impl and alias carry the record's parts and fit the runtime's provider/wrapper contract |
| `Macro.ExpandFunctionalComponent` | yew-functional-macro/src/lib.rs:157-168 | the item's error is reported before anything about the attribute, then the attribute's; accepted output fits the runtime contract |
| `Syntax.ArgsTokensAppend` | yew-functional-macro/src/lib.rs:106 | collecting the token streams of two runs of parameters is concatenating their collections |
| `Syntax.ArgsTokensSlice` | yew-functional-macro/src/lib.rs:105-110 | each parameter's tokens appear whole in the collected stream, right after those of the parameters before it |
| `MacroProperties.ExpandReportsFirstDefect` | yew-functional-macro/src/lib.rs:20-194 | the expansion succeeds if and only if the input has no defect; when it fails, the reported defect is present and has the least rank of all present defects |
| `MacroProperties.ReportedDefectIsUnique` | yew-functional-macro/src/lib.rs:161-166 | any present defect of least rank is the one the diagnostic reports |
| `MacroProperties.GenericsAlwaysRejected` | yew-functional-macro/src/lib.rs:32-38 | generic parameters give `GenericsNotAllowed` whatever else is wrong with the function or the attribute |
| `MacroProperties.ModifierOrder` | yew-functional-macro/src/lib.rs:32-59 | generics, async, const and extern ABI are reported in that order; an accepted function has none of them |
| `MacroProperties.ZeroParametersUseUnitReference` | yew-functional-macro/src/lib.rs:61-84 | with no parameters the only possible error is the missing return type; on success the argument is `_: &()` and `TProps` is `()` |
| `MacroProperties.PlainReferenceGivesPropsType` | yew-functional-macro/src/lib.rs:66-131 | a single parameter `&T` with a return type is accepted, with `TProps = T`, the parameter kept as written and the declared return type recorded |
| `MacroProperties.BadFirstParameterRejected` | yew-functional-macro/src/lib.rs:69-91 | a first parameter `&'a T` (also `&'a mut T`) gets the lifetime error, `&mut T` the mutability error, a non-reference `U` the `NotAReference(U)` error, whatever parameters follow |
| `MacroProperties.SuggestionIsAccepted` | yew-functional-macro/src/lib.rs:85-90 | the `&U` proposed for a non-reference `U` prints as `&` followed by `U` and is itself accepted with props type `U` |
| `MacroProperties.ReceiverBeforeArity` | yew-functional-macro/src/lib.rs:94-111 | a receiver first parameter is reported as such even when more parameters follow or the return type is missing |
| `MacroProperties.ExtraParametersRejected` | yew-functional-macro/src/lib.rs:102-111 | two or more parameters with a valid first one give `TooManyParameters` of exactly the parameters after the first, whose span holds each of them whole and in order |
| `MacroProperties.MissingReturnTypeLast` | yew-functional-macro/src/lib.rs:105-121 | `MissingReturnType` is reported if and only if every modifier and parameter check passes and no return type is written |
| `MacroProperties.EmptyAttributeRejected` | yew-functional-macro/src/lib.rs:147-149 | an acceptable function with an empty attribute gives `MissingComponentName` |
| `MacroProperties.NameCollisionRejected` | yew-functional-macro/src/lib.rs:186-194 | an otherwise acceptable function whose name is the component name gives `NameCollision` |
| `MacroProperties.ExpansionShape` | yew-functional-macro/src/lib.rs:196-213 | the marker is named after the function with its visibility; `TProps` is the first parameter's referent or `()`; `run` takes that parameter and returns `Html` whatever was declared; the body is moved unchanged; the alias has the component name, the function's attributes and visibility, and wraps the marker |
| `MacroProperties.UncheckedQualifiersDropped` | yew-functional-macro/src/lib.rs:32-60 | `unsafe`, a variadic `...` and a `where` clause without generic parameters change neither the verdict nor the record, so they are dropped from the output |

## Left out

- Token streams, `proc_macro`/`proc_macro2`, `parse_macro_input!` and `to_compile_error` (lib.rs:157-168): the host compiler's plumbing. A result `Err(e)` stands for the one diagnostic that replaces the output.
- `syn`'s parsing of tokens into an `Item`: the item is an input value. The attribute argument is a token list where keywords and `_` are their own token kinds, as `syn`'s identifier parser refuses them.
- Rendering by `quote!`/`quote_spanned!` and all span positions: the output is an abstract record. The only span kept is the declared return type that the `Html` return type borrows (`RunFn.returnSpan`).
- Diagnostic message strings: errors are kinds carrying the offending item. The `&U` suggestion in the `NotAReference` message is the `Suggestion` function.
- `to_token_stream` is a simplified printer (`TypeTokens`, `ArgTokens`): a path is one token and other types or patterns are kept as written. It is only used for the `TooManyParameters` span and the suggestion.
- Receivers do not carry their lifetime (`&'a self`), since the macro rejects every receiver the same way.
- Parameter attributes, the `fn` and parenthesis tokens: not looked at by the macro.
