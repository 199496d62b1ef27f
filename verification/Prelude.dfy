/** Shared vocabulary: optional values, the two ends of a session, url-safe text. */
module Prelude {

  datatype Option<+T> = None | Some(value: T)

  datatype Role = Agent | Client {
    function Other(): Role {
      if this == Agent then Client else Agent
    }
  }

  predicate UrlSafeChar(c: char) {
    'A' <= c <= 'Z' || 'a' <= c <= 'z' || '0' <= c <= '9' || c == '_' || c == '-'
  }

  predicate UrlSafe(s: string) {
    forall i :: 0 <= i < |s| ==> UrlSafeChar(s[i])
  }
}
