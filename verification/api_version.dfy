/** The protocol revision the client claims to speak. */
module ApiVersions {
  import opened Json

  const DEFAULT_API_VERSION: i64 := 6

  /** A single-variant tag around the version number. */
  datatype ApiVersion = V(v: i64) {

    /** The version number sent in every request; total, as there is one variant. */
    function ToI64(): (n: i64)
      ensures V(n) == this
    {
      match this
      case V(v) => v
    }
  }

  /** The version a client gets when none is given. */
  function Default(): (a: ApiVersion)
    ensures a.ToI64() == 6
  {
    V(DEFAULT_API_VERSION)
  }

  /** `ToI64` gives back exactly the wrapped number. */
  lemma ToI64OfV(v: i64)
    ensures V(v).ToI64() == v
  {
  }
}
