/** The .NET exceptions the modelled code raises, catches and reports. */
module Exceptions {

  /** A COM error code read as an unsigned 32-bit value, as `(uint)ex.ErrorCode` does. */
  type HResult = c: int | 0 <= c < 0x1_0000_0000

  /**
   * An exception: a `COMException` carries an error code; any other exception
   * is known by its type name. Both carry the `Message` text.
   */
  datatype Exception =
    | ComException(code: HResult, message: string)
    | ClrException(typeName: string, message: string)

  /** `new ArgumentNullException(paramName)`, with the .NET Framework message text. */
  function ArgumentNull(paramName: string): (ex: Exception)
    ensures ex.ClrException? && ex.typeName == "ArgumentNullException"
  {
    ClrException("ArgumentNullException", "Value cannot be null.\r\nParameter name: " + paramName)
  }

  /** `new ArgumentException(message)`. */
  function ArgumentError(message: string): (ex: Exception)
    ensures ex.ClrException? && ex.typeName == "ArgumentException" && ex.message == message
  {
    ClrException("ArgumentException", message)
  }
}
