/** `ForbidContext`: the context handed to an authentication handler when
    access is forbidden. It carries the request context, the authentication
    scheme's name and optional authentication properties, and refuses a
    missing or empty scheme name. */
module ForbidContext {
  import opened Wrappers

  /** The exception the constructor throws. The source passes the parameter's
      name as the exception's message. */
  datatype ArgumentError = ArgumentError(message: string)

  /** A constructed context. `H` (the request context) and `P` (the
      authentication properties) are opaque; `properties` is `None` when null. */
  datatype Forbid<H, P> = Forbid(httpContext: H, authenticationScheme: string, properties: Option<P>)

  /** `string.IsNullOrEmpty`. */
  predicate IsNullOrEmpty(s: Option<string>)
  {
    s.None? || |s.value| == 0
  }

  /** The three-argument constructor: a null or empty scheme throws.
      `BaseAuthenticationContext` is not part of this model; its constructor is
      assumed to store the request context, scheme and properties as given
      and not to throw. */
  function NewForbidContext<H, P>(httpContext: H, authenticationScheme: Option<string>, properties: Option<P>): (r: Result<Forbid<H, P>, ArgumentError>)
    // accepted exactly when the scheme is present and has at least one character
    ensures r.Success? <==> authenticationScheme.Some? && authenticationScheme.value != ""
    // on success every argument is forwarded unchanged
    ensures r.Success? ==> r.value == Forbid(httpContext, authenticationScheme.value, properties)
    // on failure, the argument error naming the scheme parameter
    ensures r.Failure? ==> r.error == ArgumentError("authenticationScheme")
  {
    if IsNullOrEmpty(authenticationScheme) then
      Failure(ArgumentError("authenticationScheme"))
    else
      Success(Forbid(httpContext, authenticationScheme.value, properties))
  }

  /** The two-argument constructor: the three-argument one with null
      properties. */
  function NewForbidContextWithoutProperties<H, P>(httpContext: H, authenticationScheme: Option<string>): (r: Result<Forbid<H, P>, ArgumentError>)
    ensures r.Success? <==> authenticationScheme.Some? && authenticationScheme.value != ""
    ensures r.Success? ==> r.value == Forbid(httpContext, authenticationScheme.value, None)
    ensures r.Failure? ==> r.error == ArgumentError("authenticationScheme")
  {
    NewForbidContext(httpContext, authenticationScheme, None)
  }

  /** Both constructors agree once the properties are null. */
  lemma WithoutPropertiesIsNullProperties<H, P>(httpContext: H, authenticationScheme: Option<string>)
    ensures NewForbidContextWithoutProperties<H, P>(httpContext, authenticationScheme)
         == NewForbidContext<H, P>(httpContext, authenticationScheme, None)
  {
  }

  /** A null scheme and an empty scheme are both rejected. */
  lemma NullOrEmptySchemeRejected<H, P>(httpContext: H, properties: Option<P>)
    ensures NewForbidContext(httpContext, None, properties) == Failure(ArgumentError("authenticationScheme"))
    ensures NewForbidContext(httpContext, Some(""), properties) == Failure(ArgumentError("authenticationScheme"))
  {
  }

  /** The check is emptiness, not blankness: every non-empty scheme,
      whitespace-only ones included, is accepted and kept as given. */
  lemma WhitespaceSchemeAccepted<H, P>(httpContext: H, scheme: string, properties: Option<P>)
    requires scheme != ""
    ensures NewForbidContext(httpContext, Some(scheme), properties) == Success(Forbid(httpContext, scheme, properties))
  {
  }
}
