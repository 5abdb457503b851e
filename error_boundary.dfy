/** The error boundary (src/components/ErrorBoundary.tsx): while no error has
    been caught it shows its children; once a descendant throws during
    rendering it shows a fallback with what was thrown and a `retry` action. */
module ErrorBoundary {
  import opened AuthTypes

  /** `ErrorBoundaryState`: `{ hasError, error? }`. An `error` of `None` is
      `undefined`: either nothing was caught, or `undefined` itself was thrown. */
  datatype BoundaryState = BoundaryState(hasError: bool, error: Thrown)

  /** No error value is kept while the children are shown. */
  predicate WellFormed(s: BoundaryState)
  {
    !s.hasError ==> s.error == None
  }

  /** The state the constructor sets: `{ hasError: false }`. */
  function InitialBoundaryState(): (s: BoundaryState)
    ensures WellFormed(s) && !s.hasError && s.error == None
  {
    BoundaryState(false, None)
  }

  /** `getDerivedStateFromError(error)`: the update React merges into the state,
      for whatever value was thrown. */
  function DerivedStateFromError(thrown: Thrown): (s: BoundaryState)
    ensures WellFormed(s) && s.hasError && s.error == thrown
  {
    BoundaryState(true, thrown)
  }

  /** The update `retry` passes to `setState`. */
  function RetryState(): (s: BoundaryState)
    ensures WellFormed(s) && !s.hasError && s.error == None
  {
    BoundaryState(false, None)
  }

  /** Catching anything and then retrying gives back the initial state, which
      the catch had left. */
  lemma CatchThenRetryIsInitial(thrown: Thrown)
    ensures RetryState() == InitialBoundaryState()
    ensures DerivedStateFromError(thrown) != InitialBoundaryState()
  {
  }

  /** The component used as a fallback: the one passed as the `fallback` prop, or the built-in one. */
  datatype FallbackComponent = DefaultErrorFallback | ProvidedFallback(name: string)

  /** What `render()` returns. */
  datatype View = ShowChildren | ShowFallback(component: FallbackComponent, error: Thrown)

  /** `render()` for a state and the `fallback` prop. */
  function RenderView(s: BoundaryState, fallback: Option<string>): (v: View)
    ensures v.ShowChildren? <==> !s.hasError
    ensures v.ShowFallback? ==> v.error == s.error
  {
    if s.hasError then
      ShowFallback(if fallback.Some? then ProvidedFallback(fallback.value) else DefaultErrorFallback, s.error)
    else ShowChildren
  }

  /** The guard `error && (...)` of `DefaultErrorFallback`: the details panel
      appears only for a truthy error value. */
  predicate DetailsShown(error: Thrown)
    ensures DetailsShown(error) ==> error.Some?
  {
    match error
    case None => false
    case Some(ErrorInstance(_)) => true
    case Some(OtherValue(truthy)) => truthy
  }

  /** Children are shown exactly when no error has been caught; otherwise the
      fallback receives the stored error value, and it is the provided component
      when one is given and the built-in one otherwise. */
  lemma RenderChoosesByState(s: BoundaryState, fallback: Option<string>)
    ensures RenderView(s, fallback).ShowChildren? <==> !s.hasError
    ensures s.hasError ==> RenderView(s, fallback).error == s.error
    ensures s.hasError && fallback.Some? ==> RenderView(s, fallback).component == ProvidedFallback(fallback.value)
    ensures s.hasError && fallback.None? ==> RenderView(s, fallback).component == DefaultErrorFallback
  {
  }

  /** After a catch the fallback gets exactly what was thrown; after `retry`
      the children are back. */
  lemma RenderAfterCatchAndRetry(thrown: Thrown, fallback: Option<string>)
    ensures RenderView(DerivedStateFromError(thrown), fallback).ShowFallback?
    ensures RenderView(DerivedStateFromError(thrown), fallback).error == thrown
    ensures RenderView(RetryState(), fallback) == ShowChildren
  {
  }

  /** A thrown `Error` gets the details panel; a thrown `undefined` still
      replaces the children with the fallback, but without details. */
  lemma DetailsAfterCatch(message: string)
    ensures DetailsShown(RenderView(DerivedStateFromError(Some(ErrorInstance(message))), None).error)
    ensures RenderView(DerivedStateFromError(None), None) == ShowFallback(DefaultErrorFallback, None)
    ensures !DetailsShown(RenderView(DerivedStateFromError(None), None).error)
  {
  }

  class Boundary {
    var hasError: bool
    var error: Thrown

    function State(): (s: BoundaryState)
      reads this
    {
      BoundaryState(hasError, error)
    }

    ghost predicate Valid()
      reads this
    {
      WellFormed(State())
    }

    constructor ()
      ensures Valid() && State() == InitialBoundaryState()
    {
      hasError := false;
      error := None;
    }

    /** A descendant threw `thrown` while rendering: React merges
        `getDerivedStateFromError(thrown)` into the state. */
    method Catch(thrown: Thrown)
      modifies this
      ensures Valid() && State() == DerivedStateFromError(thrown)
    {
      var update := DerivedStateFromError(thrown);
      hasError := update.hasError;
      error := update.error;
    }

    method Retry()
      modifies this
      ensures Valid() && State() == RetryState()
    {
      hasError := false;
      error := None;
    }

    function Render(fallback: Option<string>): (v: View)
      reads this
      ensures v.ShowChildren? <==> !hasError
      ensures v.ShowFallback? ==> v.error == error
      ensures Valid() && v.ShowChildren? ==> error == None
    {
      RenderView(State(), fallback)
    }
  }
}
