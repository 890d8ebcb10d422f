/** Shared vocabulary of the cloud-run controller model. */
module Common {

  datatype Option<+T> = None | Some(value: T)

  /** The largest value of the source's signed 64-bit clock arithmetic. */
  const INT64_MAX: int := 0x7fff_ffff_ffff_ffff

  predicate IdentityChar(c: char) {
    'a' <= c <= 'z' || 'A' <= c <= 'Z' || '0' <= c <= '9' || c == '_' || c == '-' || c == ':' || c == '.'
  }

  /** Run and activation identities: 1 to 128 characters of a fixed alphabet. */
  predicate ValidIdentity(id: string) {
    0 < |id| <= 128 && forall i :: 0 <= i < |id| ==> IdentityChar(id[i])
  }
}
