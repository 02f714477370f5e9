/** The part of the java.sql surface that the pooled statement proxy consumes:
    native driver objects, the errors the driver raises, and the outcomes of
    calls into the driver. Everything here is a value; the driver itself is
    foreign, so what it answers is always handed in by the caller. */
module Sql {

  /** A Java class or interface, named as it is passed to `unwrap`. */
  type Iface = string

  /** Java `int` and `long`, as the execute methods pass them through. */
  newtype int32 = x: int | -0x8000_0000 <= x < 0x8000_0000
  newtype int64 = x: int | -0x8000_0000_0000_0000 <= x < 0x8000_0000_0000_0000

  datatype Option<T> = None | Some(value: T)

  /** A native driver object: its identity and the types it is an instance of. */
  datatype Handle = Handle(id: nat, types: set<Iface>)

  /** `iface.isInstance(h)`: a null reference is an instance of nothing. */
  predicate IsInstance(iface: Iface, h: Option<Handle>)
  {
    h.Some? && iface in h.value.types
  }

  /** A native result-set reference as the driver returns it; `Null` is Java's
      null. Two references are the same object exactly when they are equal. */
  datatype NativeResult = Null | ResultSet(id: nat)

  /** A `java.sql.SQLException`: either one raised by the driver, or the one the
      proxy raises itself when `unwrap` has nothing to unwrap. */
  datatype SqlError =
    | DriverError(reason: string, sqlState: string, vendorCode: int32)
    | NotAnInstance(iface: Iface)

  /** A call that returns a value or throws. */
  datatype Result<T> = Ok(value: T) | Err(error: SqlError)

  /** A `void` call that returns or throws. */
  datatype Outcome = Done | Failed(error: SqlError)

  /** The optional second argument of the execute overloads that takes one:
      none, an `autoGeneratedKeys` flag, column indexes or column names. */
  datatype KeysRequest =
    | NoKeys
    | AutoGeneratedKeys(flag: int32)
    | ColumnIndexes(indexes: seq<int32>)
    | ColumnNames(names: seq<string>)
}
