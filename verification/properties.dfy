/**
 * What the `functional_component` expansion promises, stated over its inputs:
 * which defects it rejects, in which order it reports them, and what the
 * generated declarations are when it accepts.
 */
module MacroProperties {
  import opened Wrappers
  import opened Syntax
  import opened Macro

  // ---------------------------------------------------------------------
  // The defects, independently of the order the code happens to test them in
  // ---------------------------------------------------------------------

  datatype Defect =
    | NotAFunctionItem
    | HasGenerics
    | IsAsync
    | IsConst
    | HasExternAbi
    | ParamReceiver
    | ParamLifetime
    | ParamMutable
    | ParamNotReference
    | ExtraParams
    | NoReturnType
    | EmptyAttribute
    | AttributeNotIdent
    | TrailingAttribute
    | SameName

  /** The order in which defects are reported: lower rank wins. */
  function Rank(d: Defect): nat {
    match d
    case NotAFunctionItem => 0
    case HasGenerics => 1
    case IsAsync => 2
    case IsConst => 3
    case HasExternAbi => 4
    case ParamReceiver => 5
    case ParamLifetime => 6
    case ParamMutable => 7
    case ParamNotReference => 8
    case ExtraParams => 9
    case NoReturnType => 10
    case EmptyAttribute => 11
    case AttributeNotIdent => 12
    case TrailingAttribute => 13
    case SameName => 14
  }

  /** The first parameter the user wrote, if any. */
  function DeclaredFirst(item: Item): Option<FnArg> {
    if item.Fn? && item.func.sig.inputs != [] then Some(item.func.sig.inputs[0]) else None
  }

  /** Whether the input shows the defect, read off the syntax alone. */
  predicate Has(d: Defect, attr: seq<AttrToken>, item: Item) {
    match d
    case NotAFunctionItem => !item.Fn?
    case HasGenerics => item.Fn? && item.func.sig.generics.params != []
    case IsAsync => item.Fn? && item.func.sig.asyncness
    case IsConst => item.Fn? && item.func.sig.constness
    case HasExternAbi => item.Fn? && item.func.sig.abi.Some?
    case ParamReceiver => DeclaredFirst(item).Some? && DeclaredFirst(item).value.Receiver?
    case ParamLifetime =>
      DeclaredFirst(item).Some? && DeclaredFirst(item).value.Typed?
      && DeclaredFirst(item).value.ty.Reference? && DeclaredFirst(item).value.ty.lifetime.Some?
    case ParamMutable =>
      DeclaredFirst(item).Some? && DeclaredFirst(item).value.Typed?
      && DeclaredFirst(item).value.ty.Reference? && DeclaredFirst(item).value.ty.mutable
    case ParamNotReference =>
      DeclaredFirst(item).Some? && DeclaredFirst(item).value.Typed? && !DeclaredFirst(item).value.ty.Reference?
    case ExtraParams => item.Fn? && |item.func.sig.inputs| > 1
    case NoReturnType => item.Fn? && item.func.sig.output.Default?
    case EmptyAttribute => attr == []
    case AttributeNotIdent => attr != [] && !attr[0].IdentToken?
    case TrailingAttribute => |attr| > 1
    case SameName => item.Fn? && attr != [] && attr[0].IdentToken? && attr[0].name == item.func.sig.ident
  }

  /** The defect a diagnostic reports. */
  function DefectOf(e: Error): Defect {
    match e
    case NotAFunction => NotAFunctionItem
    case GenericsNotAllowed(_) => HasGenerics
    case AsyncNotAllowed => IsAsync
    case ConstNotAllowed => IsConst
    case ExternNotAllowed(_) => HasExternAbi
    case ReceiverNotAllowed(_) => ParamReceiver
    case LifetimeNotAllowed(_) => ParamLifetime
    case MutableReferenceNotAllowed => ParamMutable
    case NotAReference(_) => ParamNotReference
    case TooManyParameters(_) => ExtraParams
    case MissingReturnType => NoReturnType
    case MissingComponentName => EmptyAttribute
    case ExpectedIdentifier(_) => AttributeNotIdent
    case UnexpectedToken(_) => TrailingAttribute
    case NameCollision(_, _) => SameName
  }

  // ---------------------------------------------------------------------
  // Error priority
  // ---------------------------------------------------------------------

  /**
   * The expansion succeeds exactly when the input has no defect; when it
   * fails, it reports a defect the input has, and the one of least rank.
   */
  lemma ExpandReportsFirstDefect(attr: seq<AttrToken>, item: Item)
    ensures ExpandFunctionalComponent(attr, item).Ok? <==> forall d :: !Has(d, attr, item)
    ensures var r := ExpandFunctionalComponent(attr, item);
      r.Err? ==>
        && Has(DefectOf(r.error), attr, item)
        && forall d :: Has(d, attr, item) ==> Rank(DefectOf(r.error)) <= Rank(d)
  {
    var r := ExpandFunctionalComponent(attr, item);
    if r.Ok? {
      forall d ensures !Has(d, attr, item) { }
    } else {
      // the reported defect witnesses that some defect is present
      assert Has(DefectOf(r.error), attr, item);
    }
  }

  /** Ranks are distinct, so the reported defect is the only present one of least rank. */
  lemma ReportedDefectIsUnique(attr: seq<AttrToken>, item: Item, d: Defect)
    requires ExpandFunctionalComponent(attr, item).Err?
    requires Has(d, attr, item)
    requires forall d' :: Has(d', attr, item) ==> Rank(d) <= Rank(d')
    ensures d == DefectOf(ExpandFunctionalComponent(attr, item).error)
  {
    ExpandReportsFirstDefect(attr, item);
  }

  /** None of the four modifier checks fires. */
  predicate ModifiersAllowed(sig: Signature) {
    sig.generics.params == [] && !sig.asyncness && !sig.constness && sig.abi.None?
  }

  /** A generic parameter list is always rejected, and its diagnostic wins over every other. */
  lemma GenericsAlwaysRejected(attr: seq<AttrToken>, f: ItemFn)
    requires f.sig.generics.params != []
    ensures ExpandFunctionalComponent(attr, Fn(f)) == Err(GenericsNotAllowed(f.sig.generics))
  {
  }

  /** The modifiers are checked generics, then async, then const, then extern ABI. */
  lemma ModifierOrder(attr: seq<AttrToken>, f: ItemFn)
    ensures var r := ExpandFunctionalComponent(attr, Fn(f)); var sig := f.sig;
      && (sig.generics.params == [] && sig.asyncness ==> r == Err(AsyncNotAllowed))
      && (sig.generics.params == [] && !sig.asyncness && sig.constness ==> r == Err(ConstNotAllowed))
      && (sig.generics.params == [] && !sig.asyncness && !sig.constness && sig.abi.Some?
          ==> r == Err(ExternNotAllowed(sig.abi.value)))
      && (r.Ok? ==> ModifiersAllowed(sig))
  {
  }

  /** A function without parameters gets `_: &()`: props type `()`, and no parameter error. */
  lemma ZeroParametersUseUnitReference(f: ItemFn)
    requires ModifiersAllowed(f.sig) && f.sig.inputs == []
    ensures var r := ParseFunctionalComponent(Fn(f));
      && (r.Ok? <==> f.sig.output.Returns?)
      && (r.Ok? ==> r.value.arg == UNIT_REF_ARG && r.value.propsType == Unit)
      && (r.Err? ==> r.error == MissingReturnType)
  {
  }

  /** A single `&T` parameter (no lifetime, not `mut`) yields props type `T` and is kept as written. */
  lemma PlainReferenceGivesPropsType(f: ItemFn, p: Pat, t: Type, ret: Type)
    requires ModifiersAllowed(f.sig)
    requires f.sig.inputs == [Typed(p, Reference(None, false, t))]
    requires f.sig.output == Returns(ret)
    ensures var r := ParseFunctionalComponent(Fn(f));
      && r.Ok?
      && r.value.propsType == t
      && r.value.arg == f.sig.inputs[0]
      && r.value.returnType == ret
  {
  }

  /**
   * A first parameter that is not a plain reference is rejected whatever follows it:
   * a lifetime before mutability, and a non-reference `U` with the suggestion `&U`.
   */
  lemma BadFirstParameterRejected(f: ItemFn, p: Pat, t: Type)
    requires ModifiersAllowed(f.sig)
    requires f.sig.inputs != [] && f.sig.inputs[0] == Typed(p, t)
    ensures var r := ParseFunctionalComponent(Fn(f));
      && (t.Reference? && t.lifetime.Some? ==> r == Err(LifetimeNotAllowed(t.lifetime.value)))
      && (t.Reference? && t.lifetime.None? && t.mutable ==> r == Err(MutableReferenceNotAllowed))
      && (!t.Reference? ==> r == Err(NotAReference(t)))
  {
  }

  /** The suggested `&U` is accepted in place of `U`, with props type `U`. */
  lemma SuggestionIsAccepted(p: Pat, u: Type)
    requires PropsType(Typed(p, u)) == Err(NotAReference(u))
    ensures PropsType(Typed(p, Suggestion(u))) == Ok(u)
    ensures TypeTokens(Suggestion(u)) == ["&"] + TypeTokens(u)
  {
  }

  /** A receiver is reported as such, before the extra parameters or a missing return type. */
  lemma ReceiverBeforeArity(f: ItemFn)
    requires ModifiersAllowed(f.sig)
    requires f.sig.inputs != [] && f.sig.inputs[0].Receiver?
    ensures ParseFunctionalComponent(Fn(f)) == Err(ReceiverNotAllowed(f.sig.inputs[0]))
  {
  }

  /**
   * Two or more parameters with an acceptable first one are rejected whatever the return
   * type, and the diagnostic covers exactly the parameters after the first: its span is
   * their tokens, each one's whole and in order.
   */
  lemma ExtraParametersRejected(f: ItemFn, k: nat)
    requires ModifiersAllowed(f.sig)
    requires |f.sig.inputs| >= 2 && PropsType(f.sig.inputs[0]).Ok?
    requires k < |f.sig.inputs| - 1
    ensures ParseFunctionalComponent(Fn(f)) == Err(TooManyParameters(f.sig.inputs[1..]))
    ensures var span := ExtraParamsSpan(f.sig.inputs[1..]);
      var start := |ArgsTokens(f.sig.inputs[1..k + 1])|;
      var n := |ArgTokens(f.sig.inputs[k + 1])|;
      start + n <= |span| && span[start..start + n] == ArgTokens(f.sig.inputs[k + 1])
  {
    var extra := f.sig.inputs[1..];
    ArgsTokensSlice(extra, k);
    assert extra[..k] == f.sig.inputs[1..k + 1];
  }

  /** A missing return type is reported only once every parameter check has passed. */
  lemma MissingReturnTypeLast(f: ItemFn)
    ensures ParseFunctionalComponent(Fn(f)) == Err(MissingReturnType) <==>
      && ModifiersAllowed(f.sig)
      && |f.sig.inputs| <= 1
      && (f.sig.inputs != [] ==> PropsType(f.sig.inputs[0]).Ok?)
      && f.sig.output == Default
  {
  }

  /** An empty attribute is rejected once the item itself is acceptable. */
  lemma EmptyAttributeRejected(item: Item)
    requires ParseFunctionalComponent(item).Ok?
    ensures ExpandFunctionalComponent([], item) == Err(MissingComponentName)
  {
  }

  /** A component named like its function is rejected, even if everything else is valid. */
  lemma NameCollisionRejected(f: ItemFn)
    requires ParseFunctionalComponent(Fn(f)).Ok?
    ensures ExpandFunctionalComponent([IdentToken(f.sig.ident)], Fn(f))
      == Err(NameCollision(f.sig.ident, f.sig.ident))
  {
  }

  /**
   * What an accepted function becomes: a marker named after the function with its
   * visibility, `TProps` the referent of the first parameter (or `()`), `run` taking
   * that parameter as written and returning `Html` whatever was declared, the body
   * moved unchanged, and an alias with the component's name, the function's
   * attributes and visibility, bound to `FunctionComponent<marker>`.
   */
  lemma ExpansionShape(name: Ident, f: ItemFn)
    requires ExpandFunctionalComponent([IdentToken(name)], Fn(f)).Ok?
    ensures var out := ExpandFunctionalComponent([IdentToken(name)], Fn(f)).value;
      && FitsRuntime(out)
      && name != f.sig.ident
      && out.marker == MarkerStruct(MARKER_ATTRS, f.vis, f.sig.ident)
      && out.provider.propsType == (if f.sig.inputs == [] then Unit else f.sig.inputs[0].ty.elem)
      && out.provider.run.arg == (if f.sig.inputs == [] then UNIT_REF_ARG else f.sig.inputs[0])
      && out.provider.run.returnType == HTML_TYPE
      && Returns(out.provider.run.returnSpan) == f.sig.output
      && out.provider.run.body == f.block
      && out.alias == TypeAlias(f.attrs, f.vis, name, FUNCTION_COMPONENT_PATH, f.sig.ident)
  {
  }

  /**
   * `unsafe`, a variadic `...` and a `where` clause are not checked: flipping them changes
   * neither the verdict nor the extracted record, and none of them reaches the output.
   */
  lemma UncheckedQualifiersDropped(f: ItemFn, unsafety: bool, variadic: bool, whereClause: seq<Token>)
    requires f.sig.generics.params == []
    ensures var g := f.(sig := f.sig.(unsafety := unsafety, variadic := variadic,
                                      generics := Generics([], whereClause)));
      ParseFunctionalComponent(Fn(g)) == ParseFunctionalComponent(Fn(f))
  {
  }
}
