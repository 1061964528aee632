/** Types shared by every component of the broker model. */
module Basics {

  datatype Option<+T> = None | Some(value: T) {
    function GetOr(default: T): T {
      if Some? then value else default
    }
  }

  /** Success or failure; works with `:-`. */
  datatype Result<+T, +E> = Ok(value: T) | Err(error: E) {
    predicate IsFailure() {
      Err?
    }

    function PropagateFailure<U>(): Result<U, E>
      requires Err?
    {
      Err(error)
    }

    function Extract(): T
      requires Ok?
    {
      value
    }
  }

  /** `u8` and `u16` of the program. */
  type Byte = b: int | 0 <= b < 0x100
  type U16 = n: int | 0 <= n < 0x1_0000

  /** A Rust `String`, as the bytes of its UTF-8 form. */
  type Str = seq<Byte>

  /** The identity a session presents to the router. */
  datatype SessionId = SessionId(session: Str, internalId: int, generation: int)

  datatype Publish = Publish(
    identifier: U16, topic: Str, message: seq<Byte>, retain: bool, dup: bool, qos: Byte)

  datatype BrokerError = PersistError

  /** Some element; which one, the program does not fix. */
  method Pick<T(==)>(s: set<T>) returns (x: T)
    requires s != {}
    ensures x in s
  {
    x :| x in s;
  }
}
