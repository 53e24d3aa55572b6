/**
 * The `#[functional_component(Name)]` attribute: it checks the shape of the
 * annotated function, extracts what it needs into a `FunctionalComponent`
 * record and rewrites the function into a marker struct, a `FunctionProvider`
 * implementation for it and a type alias naming the component.
 */
module Macro {
  import opened Wrappers
  import opened Syntax

  /** What the macro keeps of a function it accepts. */
  datatype FunctionalComponent = FunctionalComponent(
    block: Block,
    propsType: Type,
    arg: FnArg,
    vis: Visibility,
    attrs: seq<Attribute>,
    name: Ident,
    returnType: Type)

  /** The one effective parameter is a plain reference (no lifetime, not `mut`) to the props type. */
  predicate ValidComponent(c: FunctionalComponent) {
    c.arg.Typed? && c.arg.ty == Reference(None, false, c.propsType)
  }

  /** Every diagnostic the macro can produce, carrying what its span points at. */
  datatype Error =
    | NotAFunction
    | GenericsNotAllowed(generics: Generics)
    | AsyncNotAllowed
    | ConstNotAllowed
    | ExternNotAllowed(abi: Abi)
    | ReceiverNotAllowed(receiver: FnArg)
    | LifetimeNotAllowed(lifetime: Lifetime)
    | MutableReferenceNotAllowed
    | NotAReference(found: Type)
    | TooManyParameters(extra: seq<FnArg>)
    | MissingReturnType
    | MissingComponentName
    | ExpectedIdentifier(token: AttrToken)
    | UnexpectedToken(token: AttrToken)
    | NameCollision(componentName: Ident, functionName: Ident)

  /** The type the `NotAReference` message proposes (`try: &U`). */
  function Suggestion(found: Type): Type {
    Reference(None, false, found)
  }

  /** The anchor of the `TooManyParameters` diagnostic: the extra parameters' tokens, collected. */
  function ExtraParamsSpan(extra: seq<FnArg>): seq<Token> {
    ArgsTokens(extra)
  }

  // ---------------------------------------------------------------------
  // FunctionalComponent::parse
  // ---------------------------------------------------------------------

  /** `_: &()`, put in place of a missing first parameter. */
  const UNIT_REF_ARG: FnArg := Typed(Wild, Reference(None, false, Unit))

  /** `inputs.next().unwrap_or_else(|| _: &())`, and what the iterator still holds. */
  function NextInput(inputs: seq<FnArg>): (r: (FnArg, seq<FnArg>))
    ensures inputs == [] ==> r == (UNIT_REF_ARG, [])
    ensures inputs != [] ==> [r.0] + r.1 == inputs
  {
    if inputs == [] then (UNIT_REF_ARG, []) else (inputs[0], inputs[1..])
  }

  /** The props type of the first parameter, or why that parameter is unacceptable. */
  function PropsType(arg: FnArg): (r: Result<Type, Error>)
    ensures r.Ok? <==> arg.Typed? && arg.ty.Reference? && arg.ty.lifetime.None? && !arg.ty.mutable
    ensures r.Ok? ==> arg.ty == Reference(None, false, r.value)
    ensures arg.Receiver? ==> r == Err(ReceiverNotAllowed(arg))
    ensures arg.Typed? && arg.ty.Reference? && arg.ty.lifetime.Some? ==> r == Err(LifetimeNotAllowed(arg.ty.lifetime.value))
    ensures arg.Typed? && !arg.ty.Reference? ==> r == Err(NotAReference(arg.ty))
  {
    match arg
    case Receiver(_, _) => Err(ReceiverNotAllowed(arg))
    case Typed(_, ty) =>
      match ty
      case Reference(lifetime, mutable, elem) =>
        if lifetime.Some? then Err(LifetimeNotAllowed(lifetime.value))
        else if mutable then Err(MutableReferenceNotAllowed)
        else Ok(elem)
      case _ => Err(NotAReference(ty))
  }

  /** Checks an item against the shape a functional component must have and extracts its parts. */
  function ParseFunctionalComponent(item: Item): (r: Result<FunctionalComponent, Error>)
    ensures !item.Fn? ==> r == Err(NotAFunction)
    ensures r.Ok? ==> ValidComponent(r.value)
    ensures r.Ok? ==>
      && item.Fn?
      && var sig := item.func.sig;
      && sig.generics.params == [] && !sig.asyncness && !sig.constness && sig.abi.None?
      && |sig.inputs| <= 1
      && r.value.arg == (if sig.inputs == [] then UNIT_REF_ARG else sig.inputs[0])
      && sig.output == Returns(r.value.returnType)
      && r.value.name == sig.ident
      && r.value.vis == item.func.vis
      && r.value.attrs == item.func.attrs
      && r.value.block == item.func.block
  {
    match item
    case OtherItem(_) => Err(NotAFunction)
    case Fn(ItemFn(attrs, vis, sig, block)) =>
      if |sig.generics.params| > 0 then Err(GenericsNotAllowed(sig.generics))
      else if sig.asyncness then Err(AsyncNotAllowed)
      else if sig.constness then Err(ConstNotAllowed)
      else if sig.abi.Some? then Err(ExternNotAllowed(sig.abi.value))
      else
        var (arg, rest) := NextInput(sig.inputs);
        var ty :- PropsType(arg);
        if |rest| > 0 then Err(TooManyParameters(rest))
        else
          match sig.output
          case Default => Err(MissingReturnType)
          case Returns(returnType) => Ok(FunctionalComponent(block, ty, arg, vis, attrs, sig.ident, returnType))
  }

  // ---------------------------------------------------------------------
  // FunctionalComponentName::parse, as `parse_macro_input!` runs it
  // ---------------------------------------------------------------------

  /** The attribute argument must be exactly one identifier. */
  function ParseComponentName(attr: seq<AttrToken>): (r: Result<Ident, Error>)
    ensures attr == [] ==> r == Err(MissingComponentName)
    ensures r.Ok? <==> |attr| == 1 && attr[0].IdentToken?
    ensures r.Ok? ==> attr == [IdentToken(r.value)]
  {
    if attr == [] then Err(MissingComponentName)
    else if !attr[0].IdentToken? then Err(ExpectedIdentifier(attr[0]))
    else if |attr| > 1 then Err(UnexpectedToken(attr[1]))
    else Ok(attr[0].name)
  }

  // ---------------------------------------------------------------------
  // functional_component_impl
  // ---------------------------------------------------------------------

  const FUNCTION_PROVIDER_PATH: string := "::yew_functional::FunctionProvider"
  const FUNCTION_COMPONENT_PATH: string := "::yew_functional::FunctionComponent"
  const HTML_TYPE: Type := Path("::yew::html::Html")
  const MARKER_ATTRS: seq<Attribute> := [Attribute("#[doc(hidden)]"), Attribute("#[allow(non_camel_case_types)]")]

  /** `#vis struct #function_name;` */
  datatype MarkerStruct = MarkerStruct(attrs: seq<Attribute>, vis: Visibility, name: Ident)

  /** `fn run(#arg) -> #ret_type { #block }`; `returnSpan` is the type whose span the return type borrows. */
  datatype RunFn = RunFn(arg: FnArg, returnType: Type, returnSpan: Type, body: Block)

  /** `impl ::yew_functional::FunctionProvider for #function_name { type TProps = ...; fn run ... }` */
  datatype ProviderImpl = ProviderImpl(traitPath: string, selfType: Ident, propsType: Type, run: RunFn)

  /** `#(#attrs)* #vis type #component_name = ::yew_functional::FunctionComponent<#function_name>;` */
  datatype TypeAlias = TypeAlias(attrs: seq<Attribute>, vis: Visibility, name: Ident, wrapperPath: string, marker: Ident)

  datatype Output = Output(marker: MarkerStruct, provider: ProviderImpl, alias: TypeAlias)

  /** What the runtime's `FunctionProvider` / `FunctionComponent` pair needs of the generated code. */
  predicate FitsRuntime(out: Output) {
    && out.marker.attrs == MARKER_ATTRS
    && out.provider.traitPath == FUNCTION_PROVIDER_PATH
    && out.provider.selfType == out.marker.name
    && out.provider.run.arg.Typed?
    && out.provider.run.arg.ty == Reference(None, false, out.provider.propsType)
    && out.provider.run.returnType == HTML_TYPE
    && out.alias.wrapperPath == FUNCTION_COMPONENT_PATH
    && out.alias.marker == out.marker.name
    && out.alias.name != out.marker.name
    && out.alias.vis == out.marker.vis
  }

  /** Rejects a component named like its function, otherwise builds the three declarations. */
  function FunctionalComponentImpl(componentName: Ident, c: FunctionalComponent): (r: Result<Output, Error>)
    ensures r.Err? <==> c.name == componentName
    ensures r.Err? ==> r.error == NameCollision(componentName, c.name)
    ensures r.Ok? && ValidComponent(c) ==> FitsRuntime(r.value)
    ensures r.Ok? ==>
      && r.value.marker.name == c.name && r.value.marker.vis == c.vis
      && r.value.provider.propsType == c.propsType
      && r.value.provider.run.arg == c.arg
      && r.value.provider.run.returnType == HTML_TYPE
      && r.value.provider.run.returnSpan == c.returnType
      && r.value.provider.run.body == c.block
      && r.value.alias.name == componentName
      && r.value.alias.attrs == c.attrs
      && r.value.alias.vis == c.vis
  {
    if c.name == componentName then
      Err(NameCollision(componentName, c.name))
    else
      var marker := MarkerStruct(MARKER_ATTRS, c.vis, c.name);
      var run := RunFn(c.arg, HTML_TYPE, c.returnType, c.block);
      var provider := ProviderImpl(FUNCTION_PROVIDER_PATH, c.name, c.propsType, run);
      var alias := TypeAlias(c.attrs, c.vis, componentName, FUNCTION_COMPONENT_PATH, c.name);
      Ok(Output(marker, provider, alias))
  }

  // ---------------------------------------------------------------------
  // functional_component: item first, then the attribute, then the impl
  // ---------------------------------------------------------------------

  /** The whole expansion; an error replaces the output entirely. */
  function ExpandFunctionalComponent(attr: seq<AttrToken>, item: Item): (r: Result<Output, Error>)
    ensures ParseFunctionalComponent(item).Err? ==> r == Err(ParseFunctionalComponent(item).error)
    ensures ParseFunctionalComponent(item).Ok? && ParseComponentName(attr).Err? ==> r == Err(ParseComponentName(attr).error)
    ensures r.Ok? ==> FitsRuntime(r.value)
  {
    var component :- ParseFunctionalComponent(item);
    var name :- ParseComponentName(attr);
    FunctionalComponentImpl(name, component)
  }
}
