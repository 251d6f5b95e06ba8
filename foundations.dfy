/** Value wrappers shared by the table and link models: the optional value,
    the result of parsing an argument, the tri-state `Smart` value
    ("inherit" versus "explicit") and the four-sided `Sides` record with its
    side-by-side fold. */
module Foundations {

  datatype Option<+T> = None | Some(value: T) {
    /** The contained value, or `default` when there is none. */
    function UnwrapOr(default: T): (r: T)
      ensures Some? ==> r == value
      ensures None? ==> r == default
    {
      match this
      case Some(v) => v
      case None => default
    }

    /** `Option::or_else`: this value when there is one, else `other`. */
    function OrElse(other: Option<T>): (r: Option<T>)
      ensures Some? ==> r == this
      ensures None? ==> r == other
    {
      if Some? then this else other
    }
  }

  /** Why an element's arguments could not be parsed. */
  datatype ParseError =
    | MissingArgument(name: string)   // a required argument was not given
    | InvalidArgument(name: string)   // an argument was given but has the wrong type

  datatype Result<+T> = Ok(value: T) | Err(error: ParseError)

  /** One argument as the argument parser finds it: not there, there and of
      the expected type, or there but not castable to that type. */
  datatype Arg<+T> = Absent | Given(value: T) | Malformed

  /** `args.named(name)?`: an absent argument is `None`, a malformed one is
      an error naming the argument. */
  function Named<T>(a: Arg<T>, name: string): (r: Result<Option<T>>)
    ensures a.Absent? <==> r == Ok(None)
    ensures a.Given? ==> r == Ok(Some(a.value))
    ensures r.Ok? && r.value.Some? ==> a == Given(r.value.value)
    ensures a.Malformed? <==> r == Err(InvalidArgument(name))
  {
    match a
    case Absent => Ok(None)
    case Given(v) => Ok(Some(v))
    case Malformed => Err(InvalidArgument(name))
  }

  /** A tri-state value: `Auto` inherits from the enclosing scope, `Custom(v)`
      sets `v` explicitly (and `v` may itself be an explicit "nothing"). */
  datatype Smart<+T> = Auto | Custom(value: T) {
    /** `Smart::unwrap_or`: the explicit value, or `default` when inheriting. */
    function UnwrapOr(default: T): (r: T)
      ensures Custom? ==> r == value
      ensures Auto? ==> r == default
    {
      match this
      case Custom(v) => v
      case Auto => default
    }

    /** `Smart::map_or`: `f` applied to the explicit value, or `default`. */
    function MapOr<U>(default: U, f: T -> U): (r: U)
      ensures Custom? ==> r == f(value)
      ensures Auto? ==> r == default
    {
      match this
      case Custom(v) => f(v)
      case Auto => default
    }
  }

  /** A value for each of the four sides of a box. */
  datatype Sides<+T> = Sides(left: T, top: T, right: T, bottom: T) {
    /** `Sides::map`: `f` applied to each side on its own. */
    function Map<U>(f: T -> U): (r: Sides<U>)
      ensures r.left == f(left) && r.top == f(top)
      ensures r.right == f(right) && r.bottom == f(bottom)
    {
      Sides(f(left), f(top), f(right), f(bottom))
    }
  }

  /** `Sides::splat`: the same value on all four sides. */
  function Splat<T>(v: T): (r: Sides<T>)
    ensures r.left == v && r.top == v && r.right == v && r.bottom == v
  {
    Sides(v, v, v, v)
  }

  /** Every side is `Some`. */
  predicate AllSome<T>(s: Sides<Option<T>>) {
    s.left.Some? && s.top.Some? && s.right.Some? && s.bottom.Some?
  }

  /** The side-by-side fold of a partial inner `Sides` onto a complete outer
      one: each side takes the inner value when it is given and the outer
      value otherwise. */
  function FoldSides<T>(inner: Sides<Option<T>>, outer: Sides<T>): (r: Sides<T>)
    ensures r.left == (if inner.left.Some? then inner.left.value else outer.left)
    ensures r.top == (if inner.top.Some? then inner.top.value else outer.top)
    ensures r.right == (if inner.right.Some? then inner.right.value else outer.right)
    ensures r.bottom == (if inner.bottom.Some? then inner.bottom.value else outer.bottom)
  {
    Sides(inner.left.UnwrapOr(outer.left), inner.top.UnwrapOr(outer.top),
          inner.right.UnwrapOr(outer.right), inner.bottom.UnwrapOr(outer.bottom))
  }

  /** Folding the same inner value twice changes nothing more than folding it once. */
  lemma FoldSidesIdempotent<T>(inner: Sides<Option<T>>, outer: Sides<T>)
    ensures FoldSides(inner, FoldSides(inner, outer)) == FoldSides(inner, outer)
  {
  }

  /** A complete inner value wins over any outer one. */
  lemma FoldSidesComplete<T>(inner: Sides<T>, outer: Sides<T>)
    ensures FoldSides(inner.Map(x => Some(x)), outer) == inner
  {
  }

  /** An inner value with no side set leaves the outer value as it is. */
  lemma FoldSidesEmpty<T>(outer: Sides<T>)
    ensures FoldSides(Splat(None), outer) == outer
  {
  }
}
