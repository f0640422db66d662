/**
 * The two ways the server derives a client address from a request:
 * utils.GetClientIP (validated, used for rate limiting) and the IP half of
 * utils.GetClientInfo (unvalidated, recorded with sessions).
 */
module ClientIp {
  import opened Wrappers
  import opened Text
  import opened Http

  /**
   * The net package functions GetClientIP calls: net.ParseIP (does the text
   * parse as an address?) and the host part of net.SplitHostPort (None when
   * splitting fails). Both are foreign; the model treats them as given.
   */
  datatype Net = Net(parseIp: string -> bool, splitHost: string -> Option<string>)

  /** The first comma-separated element of X-Forwarded-For, trimmed. */
  function FirstForwarded(xff: string): (ip: string)
    ensures forall k :: 0 <= k < |ip| ==> ip[k] != ','
    ensures ip != [] ==> !IsSpace(ip[0]) && !IsSpace(ip[|ip| - 1])
  {
    var parts := Split(xff, ",");
    SplitPartsFree(xff, ",");
    var first := parts[0];
    assert forall k :: 0 <= k < |first| ==> first[k] != ',' by {
      forall k | 0 <= k < |first| ensures first[k] != ',' {
        assert first[k..k + 1] == [first[k]];
        assert !OccursAt(first, ",", k);
      }
    }
    TrimSpace(first)
  }

  /** Where GetClientIP's answer came from. */
  datatype IpSource = Forwarded | RealIp | RemoteHost | RemoteRaw

  /** utils.GetClientIP: the source that wins the header-priority chain. */
  function ClientIpSource(r: Request, net: Net): IpSource {
    var xff := Get(r.header, "X-Forwarded-For");
    var xri := Get(r.header, "X-Real-IP");
    if xff != "" && net.parseIp(FirstForwarded(xff)) then Forwarded
    else if xri != "" && net.parseIp(xri) then RealIp
    else if net.splitHost(r.remoteAddr).Some? then RemoteHost
    else RemoteRaw
  }

  /** utils.GetClientIP. */
  function GetClientIP(r: Request, net: Net): (ip: string)
    ensures var xff := Get(r.header, "X-Forwarded-For");
            xff != "" && net.parseIp(FirstForwarded(xff)) ==> ip == FirstForwarded(xff)
    ensures var xff := Get(r.header, "X-Forwarded-For");
            var xri := Get(r.header, "X-Real-IP");
            !(xff != "" && net.parseIp(FirstForwarded(xff))) && xri != "" && net.parseIp(xri) ==> ip == xri
    ensures var xff := Get(r.header, "X-Forwarded-For");
            var xri := Get(r.header, "X-Real-IP");
            !(xff != "" && net.parseIp(FirstForwarded(xff))) && !(xri != "" && net.parseIp(xri)) ==>
              ip == net.splitHost(r.remoteAddr).GetOr(r.remoteAddr)
    ensures ip == FirstForwarded(Get(r.header, "X-Forwarded-For")) || ip == Get(r.header, "X-Real-IP")
            || net.splitHost(r.remoteAddr) == Some(ip) || ip == r.remoteAddr
  {
    match ClientIpSource(r, net)
    case Forwarded => FirstForwarded(Get(r.header, "X-Forwarded-For"))
    case RealIp => Get(r.header, "X-Real-IP")
    case RemoteHost => net.splitHost(r.remoteAddr).value
    case RemoteRaw => r.remoteAddr
  }

  /** An address that came from either header is one ParseIP accepted. */
  lemma {:induction false} ClientIpFromHeaderParses(r: Request, net: Net)
    requires ClientIpSource(r, net) == Forwarded || ClientIpSource(r, net) == RealIp
    ensures net.parseIp(GetClientIP(r, net))
  {
  }

  /** utils.GetClientInfo: the session's IP and device strings. */
  function GetClientInfo(r: Request): (info: (string, string))
    ensures info.1 != ""
  {
    var xff := Get(r.header, "X-Forwarded-For");
    var xri := Get(r.header, "X-Real-IP");
    var ip := if xff != "" then xff else if xri != "" then xri else r.remoteAddr;
    var ua := Get(r.header, "User-Agent");
    var device := if ua == "" then "Unknown Device" else ua;
    (ip, device)
  }

  /**
   * GetClientInfo and GetClientIP agree when X-Forwarded-For holds one valid
   * address with no comma and no surrounding white space ...
   */
  lemma {:induction false} ClientInfoAgreesOnSingleAddress(r: Request, net: Net)
    requires var xff := Get(r.header, "X-Forwarded-For");
             xff != "" && (forall k :: 0 <= k < |xff| ==> xff[k] != ',') && TrimSpace(xff) == xff
             && net.parseIp(xff)
    ensures GetClientInfo(r).0 == GetClientIP(r, net)
  {
    var xff := Get(r.header, "X-Forwarded-For");
    forall k | 0 <= k ensures !OccursAt(xff, ",", k) {
      if k + 1 <= |xff| {
        assert xff[k..k + 1][0] == xff[k];
      }
    }
    assert IndexOf(xff, ",") == None;
    assert Split(xff, ",") == [xff];
  }

  /**
   * ... and disagree whenever that header lists more than one hop:
   * GetClientInfo keeps the whole list, comma included.
   */
  lemma {:induction false} ClientInfoKeepsWholeForwardedList(r: Request, net: Net)
    requires var xff := Get(r.header, "X-Forwarded-For");
             exists k :: 0 <= k < |xff| && xff[k] == ','
    ensures ClientIpSource(r, net) == Forwarded ==> GetClientInfo(r).0 != GetClientIP(r, net)
  {
    var xff := Get(r.header, "X-Forwarded-For");
    var k :| 0 <= k < |xff| && xff[k] == ',';
    var fwd := FirstForwarded(xff);
    assert GetClientInfo(r).0 == xff;
    assert xff[k] == ',';
  }
}
