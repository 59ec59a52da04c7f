/**
 * Resolution of a backend root to an operator: the three-way `OperatorFactory` dispatch
 * and the `LambdaOperatorFactory` decorator that transforms every successfully loaded operator.
 */
module Factory {
  import opened Wrappers
  import opened Errors

  /** An opaque backend operator; the model never looks inside it. */
  datatype Operator = Operator(handle: nat)

  /**
   * An operator registry, as a partial map from URI to the operator it builds. A URI
   * outside the map is refused with the error `refusal` gives for it: an unregistered
   * scheme (`Unsupported`), a URI that does not parse or has no scheme, or a backend that
   * rejects its configuration (`ConfigInvalid`).
   */
  datatype OperatorRegistry = OperatorRegistry(entries: map<string, Operator>, refusal: string -> OpendalError) {
    function Load(uri: string): (r: Result<Operator, OpendalError>)
      ensures r.Success? <==> uri in entries
      ensures r.Success? ==> r.value == entries[uri]
      ensures r.Failure? ==> r.error == refusal(uri)
    {
      if uri in entries then Success(entries[uri])
      else Failure(refusal(uri))
    }
  }

  /** `OperatorFactory`: the process-wide registry, an explicit registry, or a custom loader. */
  datatype OperatorFactory =
    | Default
    | Registry(registry: OperatorRegistry)
    | Custom(custom: CustomOperatorFactory)

  /**
   * The custom loaders: `LambdaOperatorFactory` (an inner factory and a transform),
   * or any other implementation, given by its load function.
   */
  datatype CustomOperatorFactory =
    | Lambda(inner: OperatorFactory, transform: Operator -> Operator)
    | Foreign(load: string -> Result<Operator, OpendalError>)

  /**
   * `OperatorFactory::from_uri`. The process-wide registry is passed in as `global`.
   * The factory is a value, so resolving a URI leaves it as it was.
   */
  function FromUri(f: OperatorFactory, global: OperatorRegistry, uri: string): (r: Result<Operator, OpendalError>)
    ensures f.Default? ==> (r.Success? <==> uri in global.entries) && (r.Success? ==> r.value == global.entries[uri])
    ensures f.Registry? ==> (r.Success? <==> uri in f.registry.entries) && (r.Success? ==> r.value == f.registry.entries[uri])
    ensures f.Default? && r.Failure? ==> r.error == global.refusal(uri)
    ensures f.Registry? && r.Failure? ==> r.error == f.registry.refusal(uri)
    decreases f
  {
    match f
    case Default => global.Load(uri)
    case Registry(r) => r.Load(uri)
    case Custom(c) => Load(c, global, uri)
  }

  /** `CustomOperatorFactory::load`; for a lambda factory, the transform applies to a successful load only. */
  function Load(c: CustomOperatorFactory, global: OperatorRegistry, uri: string): (r: Result<Operator, OpendalError>)
    ensures c.Lambda? ==> (r.Success? <==> FromUri(c.inner, global, uri).Success?)
    ensures c.Lambda? && r.Failure? ==> r.error == FromUri(c.inner, global, uri).error
    ensures c.Foreign? ==> r == c.load(uri)
    decreases c
  {
    match c
    case Lambda(inner, transform) =>
      var op :- FromUri(inner, global, uri);
      Success(transform(op))
    case Foreign(load) => load(uri)
  }

  /** `OperatorFactory::default()`. */
  function DefaultFactory(): (f: OperatorFactory)
    ensures forall global, uri :: FromUri(f, global, uri) == global.Load(uri)
  {
    Default
  }

  /** `from_uri` hands each variant to its own loader and returns the loader's answer unchanged. */
  lemma FromUriDispatch(f: OperatorFactory, global: OperatorRegistry, uri: string)
    ensures f.Default? ==> FromUri(f, global, uri) == global.Load(uri)
    ensures f.Registry? ==> FromUri(f, global, uri) == f.registry.Load(uri)
    ensures f.Custom? ==> FromUri(f, global, uri) == Load(f.custom, global, uri)
  {
  }

  /** A lambda factory returns the transformed operator when its inner factory succeeds, and the inner error otherwise. */
  lemma LambdaLoad(inner: OperatorFactory, transform: Operator -> Operator, global: OperatorRegistry, uri: string)
    ensures var r := Load(Lambda(inner, transform), global, uri);
      && r.Success? == FromUri(inner, global, uri).Success?
      && (r.Success? ==> r.value == transform(FromUri(inner, global, uri).value))
      && (r.Failure? ==> r.error == FromUri(inner, global, uri).error)
  {
  }

  /** When the inner factory fails, the transform is never consulted: any two transforms give the same answer. */
  lemma LambdaFailureIgnoresTransform(inner: OperatorFactory, t1: Operator -> Operator, t2: Operator -> Operator,
                                      global: OperatorRegistry, uri: string)
    requires FromUri(inner, global, uri).Failure?
    ensures Load(Lambda(inner, t1), global, uri) == Load(Lambda(inner, t2), global, uri)
  {
  }

  /** Wraps `base` in one lambda factory per transform; `transforms[0]` is the innermost. */
  function Decorate(base: OperatorFactory, transforms: seq<Operator -> Operator>): OperatorFactory
  {
    if transforms == [] then base
    else Custom(Lambda(Decorate(base, transforms[..|transforms| - 1]), transforms[|transforms| - 1]))
  }

  /** Applies the transforms to `op` from first to last. */
  function ApplyInOrder(transforms: seq<Operator -> Operator>, op: Operator): Operator
  {
    if transforms == [] then op else ApplyInOrder(transforms[1..], transforms[0](op))
  }

  lemma {:induction false} ApplyInOrderSnoc(transforms: seq<Operator -> Operator>, t: Operator -> Operator, op: Operator)
    ensures ApplyInOrder(transforms + [t], op) == t(ApplyInOrder(transforms, op))
  {
    if transforms != [] {
      assert (transforms + [t])[1..] == transforms[1..] + [t];
      ApplyInOrderSnoc(transforms[1..], t, transforms[0](op));
    }
  }

  /**
   * Nested lambda factories apply the innermost transform first and the outer ones after it,
   * in order; a failure of the base factory comes out unchanged.
   */
  lemma {:induction false} NestedLambdasApplyInOrder(base: OperatorFactory, transforms: seq<Operator -> Operator>,
                                                    global: OperatorRegistry, uri: string)
    ensures var r := FromUri(Decorate(base, transforms), global, uri);
      && r.Success? == FromUri(base, global, uri).Success?
      && (r.Success? ==> r.value == ApplyInOrder(transforms, FromUri(base, global, uri).value))
      && (r.Failure? ==> r.error == FromUri(base, global, uri).error)
    decreases |transforms|
  {
    if transforms != [] {
      var init, last := transforms[..|transforms| - 1], transforms[|transforms| - 1];
      NestedLambdasApplyInOrder(base, init, global, uri);
      assert init + [last] == transforms;
      if FromUri(base, global, uri).Success? {
        ApplyInOrderSnoc(init, last, FromUri(base, global, uri).value);
      }
    }
  }
}
