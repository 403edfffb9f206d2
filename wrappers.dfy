// Shared result types for the model: absent values, and the Java exceptions
// that the modelled services raise or return as error signals.
module Wrappers {

  datatype Option<T> = None | Some(value: T)
  {
    predicate IsSome() { Some? }

    function GetOr(default: T): (r: T)
      ensures Some? ==> r == value
      ensures None? ==> r == default
    {
      if Some? then value else default
    }
  }

  /** The exception classes the modelled code throws, catches or classifies. */
  datatype ExceptionKind =
    | IllegalArgument
    | IllegalState
    | ResourceNotFound
    | Runtime
    | NumberFormat
    | IndexOutOfBounds
    | NullPointer
    | ClassCast
    | JsonProcessing
    | IO
    | SocketTimeout
    | Connect
    | Timeout
    | OptimisticLockingFailure
    | Amqp
    | VectorStore
  {
    /** Class.getName() of the exception class. */
    function ClassName(): string
    {
      match this
      case IllegalArgument => "java.lang.IllegalArgumentException"
      case IllegalState => "java.lang.IllegalStateException"
      case ResourceNotFound => "com.ainovel.server.common.exception.ResourceNotFoundException"
      case Runtime => "java.lang.RuntimeException"
      case NumberFormat => "java.lang.NumberFormatException"
      case IndexOutOfBounds => "java.lang.IndexOutOfBoundsException"
      case NullPointer => "java.lang.NullPointerException"
      case ClassCast => "java.lang.ClassCastException"
      case JsonProcessing => "com.fasterxml.jackson.core.JsonProcessingException"
      case IO => "java.io.IOException"
      case SocketTimeout => "java.net.SocketTimeoutException"
      case Connect => "java.net.ConnectException"
      case Timeout => "java.util.concurrent.TimeoutException"
      case OptimisticLockingFailure => "org.springframework.dao.OptimisticLockingFailureException"
      case Amqp => "org.springframework.amqp.AmqpException"
      case VectorStore => "com.ainovel.server.exception.VectorStoreException"
    }

    /** instanceof IOException: SocketTimeoutException, ConnectException and
        Jackson's JsonProcessingException are subclasses of it. */
    predicate IsIOException() { this == IO || this == SocketTimeout || this == Connect || this == JsonProcessing }
  }

  /** A Throwable: its class, its message (null when absent), its cause and the
      text of its stack frames. */
  datatype Exception = Exception(kind: ExceptionKind, message: Option<string>,
                                 cause: Option<Exception>, stackTrace: seq<string>)

  /** An exception created with a message and nothing else. */
  function Thrown(kind: ExceptionKind, message: string): (e: Exception)
    ensures e.kind == kind && e.message == Some(message) && e.cause.None?
  {
    Exception(kind, Some(message), None, [])
  }

  /** The message of the ClassCastException the JVM (HotSpot, JDK 11 and
      later) raises when an object of one java.base class is cast to another. */
  function CastMessage(actual: string, target: string): string
  {
    "class " + actual + " cannot be cast to class " + target + " (" + actual + " and " + target
      + " are in module java.base of loader 'bootstrap')"
  }

  /** A value or the exception that replaced it. */
  datatype Result<T> = Ok(value: T) | Err(error: Exception)
}
