// Shared value types.
module Common {
  datatype Option<+T> = None | Some(value: T)

  datatype Result<+T, +E> = Ok(value: T) | Err(error: E)

  type Byte = b: int | 0 <= b < 256
  type Bytes = seq<Byte>

  // Hex digests and identities are plain text; the hash functions that produce
  // them are always parameters.
  type Digest = string

  // Instants are whole microseconds since 0001-01-01T00:00:00Z, so the largest
  // representable datetime (9999-12-31T23:59:59.999999Z) is a constant.
  type Instant = int
  const MaxInstant: Instant := 315_537_897_599_999_999

  // Code-point order on text.
  predicate Less(a: string, b: string) {
    b != [] && (a == [] || a[0] < b[0] || (a[0] == b[0] && Less(a[1..], b[1..])))
  }

  predicate StrictlySorted(s: seq<string>) {
    forall i, j :: 0 <= i < j < |s| ==> Less(s[i], s[j])
  }

  predicate AlphaNum(c: char) { 'a' <= c <= 'z' || 'A' <= c <= 'Z' || '0' <= c <= '9' }

  // A canonical bounded identifier: 1 to 128 characters, alphanumeric at both ends.
  predicate IsIdentifier(s: string) {
    && 1 <= |s| <= 128 && AlphaNum(s[0]) && AlphaNum(s[|s| - 1])
    && forall c <- s :: AlphaNum(c) || c in "._:@/-"
  }

  predicate IsSha256(s: string) {
    |s| == 64 && forall c <- s :: 'a' <= c <= 'f' || '0' <= c <= '9'
  }
}
