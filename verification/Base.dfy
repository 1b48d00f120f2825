/** Vocabulary shared by every module: bytes, topic paths, messages and session handles. */
module Base {
  datatype Option<+T> = None | Some(value: T)

  datatype Result<+T> = Ok(value: T) | Err

  /** A byte is an integer, so Go's `&127`, `&128` and `|128` are written with `%`, `<` and `+`. */
  type byte = x: int | 0 <= x < 256

  type Bytes = seq<byte>

  /** What lies between two '/' characters. */
  type Segment = seq<byte>

  type Path = seq<Segment>

  type ClientId = string

  type PacketId = x: int | 0 <= x < 65536

  const SLASH: byte := 47
  const PLUS: byte := 43
  const HASH: byte := 35
  const PLUS_SEG: Segment := [PLUS]
  const HASH_SEG: Segment := [HASH]

  /** A retained application message or a will. */
  datatype Message = Message(topic: Bytes, payload: Bytes, qos: byte, retain: bool, timestamp: int)

  /** A pointer to a session object, with the two fields of that object that never change.
      Two handles denote the same object exactly when they have the same number. */
  datatype SessionRef = SessionRef(id: ClientId, num: nat, clean: bool)

  datatype Subscription = Subscription(session: SessionRef, qos: byte)

  /** `q` is the smaller of the two. */
  predicate Smaller(q: int, a: int, b: int) {
    q <= a && q <= b && (q == a || q == b)
  }

  function Min(a: int, b: int): (r: int)
    ensures Smaller(r, a, b)
  {
    if a <= b then a else b
  }
}
