/**
 * `scripts/utils.js`: the page helpers that pick the Arweave gateway to fetch media from and
 * tell a phone from a desktop.
 *
 * `window.location` and `navigator` are inputs: the protocol, host name and origin of the page,
 * whether `ontouchstart` exists, `maxTouchPoints`, `innerWidth` and the user agent.
 */
module Gateway {
  import opened Text

  // ---------- Gateway ----------

  /** The gateway every host under `ar.io` is sent to. */
  const ArweaveNet := "https://arweave.net"

  /** What the exception looks for. */
  const ArIo := "ar.io"

  /** An occurrence of `p` in `s` brings every character of `p` with it. */
  lemma {:induction false} ContainedCharsOccur(s: string, p: string, c: char)
    requires Contains(s, p) && c in p
    ensures c in s
    decreases |s|
  {
    if StartsWith(s, p) {
      var k :| 0 <= k < |p| && p[k] == c;
      assert s[k] == c;
    } else {
      ContainedCharsOccur(s[1..], p, c);
    }
  }

  /** Text in front keeps an occurrence. */
  lemma {:induction false} ContainsAfterPrefix(a: string, b: string, p: string)
    requires Contains(b, p)
    ensures Contains(a + b, p)
    decreases |a|
  {
    if |a| == 0 {
      assert a + b == b;
    } else {
      ContainsAfterPrefix(a[1..], b, p);
      assert (a + b)[1..] == a[1..] + b;
    }
  }

  /** The fallback gateway does not trigger the exception again. */
  lemma ArweaveNetIsNotArIo()
    ensures !Contains(ArweaveNet, ArIo)
  {
    assert ArIo[3] == 'i';
    assert 'i' !in ArweaveNet;
    MissingCharExcludes(ArweaveNet, ArIo, 'i');
  }

  /** Text lacking one of the characters of `p` holds no occurrence of `p`. */
  lemma MissingCharExcludes(s: string, p: string, c: char)
    requires c in p && c !in s
    ensures !Contains(s, p)
  {
    if Contains(s, p) {
      ContainedCharsOccur(s, p, c);
    }
  }

  /** The gateway the host name suggests: the protocol and every label after the first, or the origin for a one-label host. */
  function HostGateway(protocol: string, hostname: string, origin: string): string {
    var parts := Split(hostname, '.');
    if |parts| > 1 then protocol + "//" + Join(parts[1..], ".") else origin
  }

  /** `detectGatewayDomain()`: the host's gateway, unless it mentions `ar.io`; never a gateway mentioning `ar.io`. */
  function DetectGatewayDomain(protocol: string, hostname: string, origin: string): (g: string)
    ensures !Contains(g, ArIo)
    ensures g == ArweaveNet || g == HostGateway(protocol, hostname, origin)
  {
    ArweaveNetIsNotArIo();
    var gateway := HostGateway(protocol, hostname, origin);
    if Contains(gateway, ArIo) then ArweaveNet else gateway
  }

  /** A host `first.domain` is served by `protocol//domain`: everything after the first dot. */
  lemma GatewayOfSubdomain(protocol: string, first: string, domain: string, origin: string)
    requires forall i :: 0 <= i < |first| ==> first[i] != '.'
    requires !Contains(protocol + "//" + domain, ArIo)
    ensures DetectGatewayDomain(protocol, first + "." + domain, origin) == protocol + "//" + domain
  {
    SplitAfterSegment(first, '.', domain);
    JoinSplit(domain, '.');
  }

  /** A host under `ar.io` is sent to arweave.net. */
  lemma ArIoHostUsesArweaveNet(protocol: string, first: string, domain: string, origin: string)
    requires forall i :: 0 <= i < |first| ==> first[i] != '.'
    requires Contains(domain, ArIo)
    ensures DetectGatewayDomain(protocol, first + "." + domain, origin) == ArweaveNet
  {
    SplitAfterSegment(first, '.', domain);
    JoinSplit(domain, '.');
    ContainsAfterPrefix(protocol + "//", domain, ArIo);
  }

  /** A host without a dot (`localhost`) is its own gateway: the page's origin. */
  lemma SingleLabelUsesOrigin(protocol: string, hostname: string, origin: string)
    requires forall i :: 0 <= i < |hostname| ==> hostname[i] != '.'
    requires !Contains(origin, ArIo)
    ensures DetectGatewayDomain(protocol, hostname, origin) == origin
  {
    SplitWithoutSeparator(hostname, '.');
  }

  // ---------- Device detection ----------

  /** The widest viewport counted as small. */
  const MaxMobileWidth := 768

  /** The alternatives of `/Android|webOS|iPhone|iPad|iPod|BlackBerry|IEMobile|Opera Mini/i`. */
  const MobileAgents: seq<string> := ["Android", "webOS", "iPhone", "iPad", "iPod", "BlackBerry", "IEMobile", "Opera Mini"]

  /** The pattern matches somewhere in the user agent, ignoring case. */
  predicate MobileUserAgent(userAgent: string) {
    exists i :: 0 <= i < |MobileAgents| && Contains(ToLower(userAgent), ToLower(MobileAgents[i]))
  }

  /** `isMobileDevice()` */
  function IsMobileDevice(hasTouchStart: bool, maxTouchPoints: int, innerWidth: int, userAgent: string): (r: bool)
    ensures innerWidth > MaxMobileWidth ==> (r <==> MobileUserAgent(userAgent))
    ensures !hasTouchStart && maxTouchPoints <= 0 ==> (r <==> MobileUserAgent(userAgent))
    ensures MobileUserAgent(userAgent) ==> r
    ensures (hasTouchStart || maxTouchPoints > 0) && innerWidth <= MaxMobileWidth ==> r
  {
    var touchAndSmall := (hasTouchStart || maxTouchPoints > 0) && innerWidth <= MaxMobileWidth;
    touchAndSmall || MobileUserAgent(userAgent)
  }

  /** Lower-casing distributes over concatenation. */
  lemma ToLowerAppend(a: string, b: string)
    ensures ToLower(a + b) == ToLower(a) + ToLower(b)
  {
  }

  /** The user-agent test ignores case. */
  lemma IsMobileIgnoresCase(hasTouchStart: bool, maxTouchPoints: int, innerWidth: int, userAgent: string)
    ensures IsMobileDevice(hasTouchStart, maxTouchPoints, innerWidth, ToLower(userAgent))
         == IsMobileDevice(hasTouchStart, maxTouchPoints, innerWidth, userAgent)
  {
    ToLowerIdempotent(userAgent);
  }

  /** A user agent naming one of the devices, in any case, is mobile on any screen. */
  lemma NamedDeviceIsMobile(i: nat, name: string, before: string, after: string, hasTouchStart: bool, maxTouchPoints: int, innerWidth: int)
    requires i < |MobileAgents| && ToLower(name) == ToLower(MobileAgents[i])
    ensures IsMobileDevice(hasTouchStart, maxTouchPoints, innerWidth, before + name + after)
  {
    ToLowerAppend(before + name, after);
    ToLowerAppend(before, name);
    ContainsInContext(ToLower(before), ToLower(name), ToLower(after));
  }
}
