/** Values shared by both builders: an optional value (Go's nil pointer) and an
    opaque stand-in for a `*tls.Config` produced by certificate loading. */
module Base {

  /** `None` plays the role of a nil pointer. */
  datatype Option<+T> = None | Some(value: T)

  /** A TLS configuration. Its contents belong to the TLS library; only its
      identity matters to the builders. */
  datatype TlsConfig = TlsConfig(handle: nat)
}
