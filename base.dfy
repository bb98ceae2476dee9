/**
 * Basic vocabulary shared by every layer of the model: bytes and byte strings
 * (Go strings are byte sequences), identifiers, timestamps, optional values,
 * results, the lexicographic byte order and tag overlap.
 */
module Base {

  newtype byte = x: int | 0 <= x < 256

  /** A Go string: a sequence of bytes. */
  type Bytes = seq<byte>

  /** A row identifier (the text of a UUID); treated as opaque. */
  type Id = Bytes

  /** An opaque, totally ordered instant ("now" is always passed in). */
  type Time = nat

  /** Go's zero time.Time, earlier than every clock reading. */
  const ZeroTime: Time := 0

  /** Postgres INTEGER is 32 bits wide. */
  const MaxInt32: int := 0x7fff_ffff

  datatype Option<+T> = None | Some(value: T) {
    function GetOr(default: T): T {
      match this
      case Some(v) => v
      case None => default
    }
  }

  /** Encodes an ASCII literal as bytes (used for the constants of the source). */
  function Ascii(s: string): (r: Bytes)
    ensures |r| == |s|
    ensures forall i :: 0 <= i < |s| ==> r[i] as int == s[i] as int % 256
  {
    seq(|s|, i requires 0 <= i < |s| => (s[i] as int % 256) as byte)
  }

  /**
   * The number of characters of a UTF-8 text: its bytes that do not continue
   * a multi-byte sequence (continuation bytes are 0x80 to 0xBF).
   */
  function CharLength(b: Bytes): nat
    decreases |b|
  {
    if b == [] then 0
    else (if 0x80 <= b[0] < 0xC0 then 0 else 1) + CharLength(b[1..])
  }

  /** A text has at most as many characters as bytes, and ASCII text exactly as many. */
  lemma {:induction false} CharLengthBounds(b: Bytes)
    ensures CharLength(b) <= |b|
    ensures (forall i :: 0 <= i < |b| ==> b[i] < 0x80) ==> CharLength(b) == |b|
    decreases |b|
  {
    if b != [] {
      CharLengthBounds(b[1..]);
    }
  }

  predicate HasPrefix(s: Bytes, prefix: Bytes) {
    |prefix| <= |s| && s[..|prefix|] == prefix
  }

  /** Byte-wise lexicographic order (the "C" collation): a may precede b. */
  predicate BytesLe(a: Bytes, b: Bytes)
    decreases |a|
  {
    if a == [] then true
    else if b == [] then false
    else if a[0] != b[0] then a[0] < b[0]
    else BytesLe(a[1..], b[1..])
  }

  lemma {:induction false} BytesLeTotal(a: Bytes, b: Bytes)
    ensures BytesLe(a, b) || BytesLe(b, a)
    decreases |a|
  {
    if a != [] && b != [] && a[0] == b[0] {
      BytesLeTotal(a[1..], b[1..]);
    }
  }

  lemma {:induction false} BytesLeTransitive(a: Bytes, b: Bytes, c: Bytes)
    requires BytesLe(a, b) && BytesLe(b, c)
    ensures BytesLe(a, c)
    decreases |a|
  {
    if a != [] && b != [] && c != [] && a[0] == b[0] && b[0] == c[0] {
      BytesLeTransitive(a[1..], b[1..], c[1..]);
    }
  }

  lemma {:induction false} BytesLeAntisymmetric(a: Bytes, b: Bytes)
    requires BytesLe(a, b) && BytesLe(b, a)
    ensures a == b
    decreases |a|
  {
    if a != [] && b != [] {
      BytesLeAntisymmetric(a[1..], b[1..]);
      assert a == [a[0]] + a[1..];
      assert b == [b[0]] + b[1..];
    }
  }

  /** Two tag lists share at least one tag (SQL `&&` on arrays, or the nested loops of the resolver). */
  predicate Overlaps(a: seq<Bytes>, b: seq<Bytes>) {
    exists i, j :: 0 <= i < |a| && 0 <= j < |b| && a[i] == b[j]
  }

  /** Errors raised by the relational store (the driver's error values). */
  datatype SqlError =
    | Unavailable          // the connection to the store is down
    | ConstraintViolation  // a primary key, UNIQUE, CHECK or FOREIGN KEY violation
    | ValueTooLong         // a value longer than its VARCHAR column (SQLSTATE 22001)
    | NoRows               // sql.ErrNoRows from QueryRow(...).Scan
    | IntegerOutOfRange    // INTEGER arithmetic past 2^31 - 1
    | BadParameters        // placeholders and bound arguments do not match
    | TypeMismatch         // an argument of the wrong type for its column
    | NegativeLimit        // LIMIT must not be negative
    | NegativeOffset       // OFFSET must not be negative

  /** The errors the Go code returns, by the message it builds. */
  datatype Error =
    | Sql(sqlError: SqlError)              // a store error returned unwrapped
    | Failed(action: Bytes, cause: Error)  // fmt.Errorf("failed to <action>: %w", cause)
    | NotFoundAfter(step: Bytes)           // "blog post not found after <step>"
    | DatabaseUnavailable                  // "database connection not available"
    | MustBeString(typeName: Bytes)        // "<typeName> must be a string"

  datatype Result<+T> = Ok(value: T) | Err(error: Error)
}
