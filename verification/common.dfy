/** The platform vocabulary the Acme business classes are written against:
    nullable references, exceptions, 32-bit integers, dates, the
    OperationResult record of Acme.Common and the request handed to the
    e-mail service. */
module Common {

  /** A reference that may be null. */
  datatype Option<+T> = None | Some(value: T)

  /** Either a value or the exception the source would throw. */
  datatype Result<+T, +E> = Success(value: T) | Failure(error: E)

  /** The exceptions the core can raise; the string is the `nameof(...)`
      parameter name carried by the argument exceptions. */
  datatype Exception =
    | ArgumentNull(paramName: string)
    | ArgumentOutOfRange(paramName: string)
    | NullReference

  /** C#'s `int`. */
  type Int32 = x: int | -0x8000_0000 <= x < 0x8000_0000

  /** A `DateTime`, identified by its tick count. */
  datatype DateTime = DateTime(ticks: int)

  /** A `DateTimeOffset`: comparisons use the UTC instant only, the offset
      matters only to formatting. */
  datatype DateTimeOffset = DateTimeOffset(utcTicks: int, offsetMinutes: int)

  /** The lifted comparison `d <= now` on a nullable `DateTimeOffset`:
      false when `d` is null. */
  predicate NotAfter(d: Option<DateTimeOffset>, now: DateTimeOffset)
  {
    d.Some? && d.value.utcTicks <= now.utcTicks
  }

  /** Acme.Common's OperationResult: a success flag and a message. */
  datatype OperationResult = OperationResult(success: bool, message: string)

  /** The arguments of `EmailService.SendMessage(subject, message, recipient)`;
      the service itself is a parameter of every operation that calls it.
      The message and the recipient may be null. */
  datatype EmailRequest = EmailRequest(subject: string, message: Option<string>, recipient: Option<string>)
}
