/**
 Socket addresses, and the key under which the per-IP accounting files them.

 An IPv6 address is kept as its upper 96 bits and its lower 32 bits, because the only
 structure the library looks at is the IPv4-mapped form of section 2.5.5.2 of RFC 4291:
 eighty zero bits, sixteen one bits, and an IPv4 address.
 */
module Net {

  type Word32 = n: nat | n < 0x1_0000_0000
  type Word96 = n: nat | n < 0x1_0000_0000_0000_0000_0000_0000

  const MAPPED_PREFIX: Word96 := 0xffff

  datatype Ip = V4(bits: Word32) | V6(prefix: Word96, low: Word32)

  datatype SocketAddr = SocketAddr(ip: Ip, port: nat)

  /** Folds an IPv4-mapped IPv6 address back to its IPv4 form. */
  function CanonicalIp(addr: SocketAddr): Ip {
    match addr.ip
    case V6(prefix, low) => if prefix == MAPPED_PREFIX then V4(low) else addr.ip
    case V4(_) => addr.ip
  }

  /** The host an address stands for, told apart without computing a canonical form:
      two addresses name one host when their IPs are equal or are the two spellings of one
      IPv4 address. */
  predicate SameHost(a: Ip, b: Ip) {
    || a == b
    || Spells(a, b)
    || Spells(b, a)
  }

  /** `v6` is the IPv4-mapped spelling of `v4`. */
  predicate Spells(v6: Ip, v4: Ip) {
    v6.V6? && v4.V4? && v6.prefix == MAPPED_PREFIX && v6.low == v4.bits
  }

  /** One bucket per host: two addresses share an accounting key exactly when they name the
      same host, whichever spelling and port either of them uses. */
  lemma CanonicalIpSeparatesHosts(a: SocketAddr, b: SocketAddr)
    ensures CanonicalIp(a) == CanonicalIp(b) <==> SameHost(a.ip, b.ip)
    ensures CanonicalIp(SocketAddr(CanonicalIp(a), b.port)) == CanonicalIp(a)
  {
  }
}
