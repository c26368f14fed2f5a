/** Types shared by the generated model classes, mappers and clients. */
module AwsCore {

  /** A value that may be absent; used where the SDK pairs a field with a "has been set" flag. */
  datatype Option<+T> = None | Some(value: T)

  /** C++ `int` on every platform the SDK targets. */
  newtype int32 = x: int | -0x8000_0000 <= x < 0x8000_0000

  /**
   * Aws::Utils::DateTime. Its implementation is not part of this model; a point in
   * time is carried as milliseconds since the epoch and only compared for equality.
   */
  datatype DateTime = DateTime(millis: int)
}
