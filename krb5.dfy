/** The krb5 configuration the proxies consult, reduced to what the forwarding code reads. */
module Krb5 {
  import opened Net

  /** What GetKDCs(realm, tcp) returns: a count, the KDC addresses in the order the loop visits them, and whether it failed. */
  datatype Lookup = Lookup(count: int, kdcs: seq<Addr>, failed: bool)

  /**
   * The loaded configuration: the KDC lookup (static file or DNS SRV, foreign code),
   * LibDefaults.UDPPreferenceLimit and LibDefaults.DefaultRealm.
   */
  datatype Config = Config(getKdcs: (string, bool) -> Lookup, udpPreferenceLimit: int, defaultRealm: string)
}
