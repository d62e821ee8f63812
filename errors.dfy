/**
 * The exception hierarchy of the client (errors.py), as a closed set of
 * error kinds. Every kind is a subclass of the base `IntegreSQLError`; the
 * base is raised with a free-form message, `NotFound` carries the message it
 * was constructed with, and the other kinds carry nothing.
 */
module Errors {
  import opened Wrappers

  datatype Error =
    | IntegreSQLError(message: string)
    | BadDatabaseID
    | DatabaseInUse
    | TemplateAlreadyInitialized
    | ManagerNotReady
    | TemplateNotFound
    | DatabaseDiscarded
    | NotFound(message: string)

  /** The Python classes of errors.py, used to model `isinstance` and `except`. */
  datatype Class =
    | IntegreSQLErrorClass
    | BadDatabaseIDClass
    | DatabaseInUseClass
    | TemplateAlreadyInitializedClass
    | ManagerNotReadyClass
    | TemplateNotFoundClass
    | DatabaseDiscardedClass
    | NotFoundClass

  function ClassOf(e: Error): Class {
    match e
    case IntegreSQLError(_) => IntegreSQLErrorClass
    case BadDatabaseID => BadDatabaseIDClass
    case DatabaseInUse => DatabaseInUseClass
    case TemplateAlreadyInitialized => TemplateAlreadyInitializedClass
    case ManagerNotReady => ManagerNotReadyClass
    case TemplateNotFound => TemplateNotFoundClass
    case DatabaseDiscarded => DatabaseDiscardedClass
    case NotFound(_) => NotFoundClass
  }

  /** The direct base class inside errors.py (the base itself derives from Exception). */
  function BaseOf(c: Class): Option<Class> {
    if c == IntegreSQLErrorClass then None else Some(IntegreSQLErrorClass)
  }

  /** `isinstance(e, c)` over a hierarchy that is one level deep. */
  predicate IsInstance(e: Error, c: Class) {
    ClassOf(e) == c || BaseOf(ClassOf(e)) == Some(c)
  }

  /** `except IntegreSQLError` catches every error the client raises, and an
      `except` naming a subclass catches exactly the errors of that kind. */
  lemma CaughtByBase(e: Error, c: Class)
    ensures IsInstance(e, IntegreSQLErrorClass)
    ensures c != IntegreSQLErrorClass ==> (IsInstance(e, c) <==> ClassOf(e) == c)
  {
  }

  /** The `.message` attribute: only `NotFound` defines one. */
  function MessageAttribute(e: Error): (r: Option<string>)
    ensures r.Some? <==> e.NotFound?
    ensures e.NotFound? ==> r.value == e.message
  {
    if e.NotFound? then Some(e.message) else None
  }

  /** `str(e)`: the message for the base class and for `NotFound`, empty for
      the kinds raised without arguments. */
  function Text(e: Error): (r: string)
    ensures (e.IntegreSQLError? || e.NotFound?) ==> r == e.message
    ensures !(e.IntegreSQLError? || e.NotFound?) ==> r == ""
  {
    match e
    case IntegreSQLError(m) => m
    case NotFound(m) => m
    case _ => ""
  }
}
