/** The exceptions the core throws, one constructor per distinct throw site. */
module Errors {

  /** The Java exception class behind an error. */
  datatype ExceptionClass =
    | RuntimeException
    | MalformedParametersException
    | IllegalArgumentException
    | IllegalStateException
    | ArrayIndexOutOfBoundsException
    | NullPointerException

  datatype Error =
      /** `getClient` returned null for the annotation's client name. */
    | ClientNotFound(clientName: string)
      /** A label entry does not split into exactly `key` and `value`. */
    | MalformedLabel(owner: string, entry: string)
      /** Two entries of one annotation array share the same key. */
    | DuplicateKey(owner: string, keys: seq<string>)
      /** `split("=")[0]` on an entry that splits into no parts at all (such as `"="`). */
    | KeyIndexOutOfBounds(entry: string)
      /** A handler method with the wrong number of parameters for its event kind. */
    | WrongArity(owner: string, methodName: string, got: nat)
      /** A handler parameter that cannot receive the watched resource type. */
    | NotAssignable(owner: string, methodName: string, paramType: string, resource: string)
      /** The second parameter of a two-parameter DELETE handler is not a boolean. */
    | NotBoolean(paramType: string)
      /** The annotation names a configuration that is not defined. */
    | UndefinedConfigName(owner: string, name: string)
      /** `split("=")[0]` or `split("=")[1]` out of bounds while parsing a label into a map. */
    | LabelIndexOutOfBounds(entry: string)
      /** `Collectors.toMap` met the same label key twice. */
    | DuplicateMapKey(key: string)
      /** `Set.of` met the same namespace name twice. */
    | DuplicateSetElement(element: string)
      /** Neither the owner's configuration name nor "default" is in the configuration map. */
    | NoConfiguration(name: string)
      /** The context's client is null when a namespace query or a subscription needs it. */
    | NoClient(clientName: string)

  /** The exception class each error is thrown as. */
  function ExceptionOf(e: Error): ExceptionClass {
    match e
    case ClientNotFound(_) => RuntimeException
    case MalformedLabel(_, _) => MalformedParametersException
    case DuplicateKey(_, _) => IllegalArgumentException
    case KeyIndexOutOfBounds(_) => ArrayIndexOutOfBoundsException
    case WrongArity(_, _, _) => MalformedParametersException
    case NotAssignable(_, _, _, _) => MalformedParametersException
    case NotBoolean(_) => MalformedParametersException
    case UndefinedConfigName(_, _) => IllegalArgumentException
    case LabelIndexOutOfBounds(_) => ArrayIndexOutOfBoundsException
    case DuplicateMapKey(_) => IllegalStateException
    case DuplicateSetElement(_) => IllegalArgumentException
    case NoConfiguration(_) => NullPointerException
    case NoClient(_) => NullPointerException
  }
}
