/** Shared result types and the library's error codes.

    The error enumeration is the union of the codes the backends return
    (`SoundIoError*`); `NoError` plays the role of the C value 0.
 */
module Common {

  datatype Option<+T> = None | Some(value: T)

  /** Error codes returned by the library. `NoError` is success. */
  datatype Error =
    | NoError
    | NoMem
    | InitAudioBackend
    | SystemResources
    | OpeningDevice
    | Invalid
    | BackendUnavailable
    | IncompatibleDevice
    | IncompatibleBackend
    | Streaming
    | Underflow
    | NoSuchClient
    | EncodingString
    | BackendDisconnected

  /** A value or an error code other than `NoError`. */
  datatype Result<+T> = Ok(value: T) | Err(error: Error)
}
