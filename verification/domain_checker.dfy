/**
 * vproxyx.websocks.DomainChecker: decides whether a connection to
 * `domain:port` goes through the proxy. Only the suffix and port checkers
 * are modelled; the pattern and ABP checkers delegate to engines outside
 * this model.
 */
module DomainChecker {
  datatype DomainChecker =
    | SuffixDomainChecker(suffix: string)
    | PortChecker(port: int)

  /** `needProxy(domain, port)`. */
  function NeedProxy(c: DomainChecker, domain: string, port: int): bool
  {
    match c
    case SuffixDomainChecker(suffix) => |suffix| <= |domain| && domain[|domain| - |suffix|..] == suffix
    case PortChecker(p) => port == p
  }

  /** The suffix checker answers whether the domain ends with the suffix, whatever the port. */
  lemma SuffixChecker(suffix: string, domain: string, port: int, otherPort: int)
    ensures NeedProxy(SuffixDomainChecker(suffix), domain, port) <==> exists head :: domain == head + suffix
    ensures NeedProxy(SuffixDomainChecker(suffix), domain, port) == NeedProxy(SuffixDomainChecker(suffix), domain, otherPort)
  {
    if NeedProxy(SuffixDomainChecker(suffix), domain, port) {
      var head := domain[..|domain| - |suffix|];
      assert domain == head + suffix;
    }
    if exists head :: domain == head + suffix {
      var head :| domain == head + suffix;
      assert domain[|domain| - |suffix|..] == suffix;
    }
  }

  /** The port checker answers whether the port is the configured one, whatever the domain. */
  lemma PortChecks(p: int, domain: string, otherDomain: string, port: int)
    ensures NeedProxy(PortChecker(p), domain, port) <==> port == p
    ensures NeedProxy(PortChecker(p), domain, port) == NeedProxy(PortChecker(p), otherDomain, port)
  {
  }
}
