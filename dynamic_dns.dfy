/**
 * The Namecheap dynamic DNS update: one GET request per host to the update
 * endpoint, carrying the host, the domain, the password and the IP address
 * as query parameters. The HTTP service and the external IP address lookup
 * are inputs: the service is an initialised flag and a response function,
 * and the address is the string the lookup returned. Each method returns the
 * requests it sent, in order, after the ones sent before it.
 */
module DynamicDns {
  import opened Options

  const DYNAMIC_DNS_BASE_URL := "https://dynamicdns.park-your-domain.com"
  const DYNAMIC_DNS_UPDATE_PATH := "update"
  const HOST_QUERY_PARAMETER := "host"
  const DOMAIN_QUERY_PARAMETER := "domain"
  const PASSWORD_QUERY_PARAMETER := "password"
  const IP_ADDRESS_QUERY_PARAMETER := "ip"

  /** A GET request: the base URL and path it is sent to, and its query parameters in the order they are added. */
  datatype Request = Request(baseUrl: string, path: string, query: seq<(string, string)>)

  /** What the code asks of a response: whether the transfer failed, and whether the status code is a failure. */
  datatype Response = Response(isFailure: bool, isFailureStatusCode: bool)

  /**
   * The HTTP service: whether it is initialised, and the response (None for
   * a null response) to a request sent after the given earlier requests.
   */
  datatype HttpService = HttpService(initialized: bool, respond: (seq<Request>, Request) -> Option<Response>)

  /** The update request for one host. */
  function UpdateRequest(host: string, domain: string, password: string, ipAddress: string): Request {
    Request(DYNAMIC_DNS_BASE_URL, DYNAMIC_DNS_UPDATE_PATH,
            [(HOST_QUERY_PARAMETER, host), (DOMAIN_QUERY_PARAMETER, domain),
             (PASSWORD_QUERY_PARAMETER, password), (IP_ADDRESS_QUERY_PARAMETER, ipAddress)])
  }

  /** The argument check of the single-host update: all four strings non-empty. */
  predicate ArgumentsPresent(host: string, domain: string, password: string, ipAddress: string) {
    host != "" && domain != "" && password != "" && ipAddress != ""
  }

  /** A response that counts as success: present, not a transfer failure, and not a failure status code. */
  predicate Succeeded(response: Option<Response>) {
    response.Some? && !response.value.isFailure && !response.value.isFailureStatusCode
  }

  /** Whether the single-host update sends its request: the arguments pass and the service is initialised. */
  predicate Sends(http: HttpService, host: string, domain: string, password: string, ipAddress: string) {
    ArgumentsPresent(host, domain, password, ipAddress) && http.initialized
  }

  /** The single-host update succeeds, after the requests in sent. */
  predicate HostUpdated(http: HttpService, sent: seq<Request>, host: string, domain: string, password: string, ipAddress: string) {
    Sends(http, host, domain, password, ipAddress) && Succeeded(http.respond(sent, UpdateRequest(host, domain, password, ipAddress)))
  }

  /** The requests the multi-host update sends for the given hosts: one per host whose single-host update sends, in order. */
  function Issued(http: HttpService, hosts: seq<string>, domain: string, password: string, ipAddress: string): (r: seq<Request>)
    ensures |r| <= |hosts|
  {
    if hosts == [] then []
    else
      var last := hosts[|hosts| - 1];
      Issued(http, hosts[..|hosts| - 1], domain, password, ipAddress) +
        (if Sends(http, last, domain, password, ipAddress) then [UpdateRequest(last, domain, password, ipAddress)] else [])
  }

  /** Every one of the first n hosts was updated, each after the requests the hosts before it sent. */
  predicate UpdatedUpTo(http: HttpService, sent: seq<Request>, hosts: seq<string>, n: nat,
                        domain: string, password: string, ipAddress: string)
    requires n <= |hosts|
  {
    forall i :: 0 <= i < n ==> HostUpdated(http, sent + Issued(http, hosts[..i], domain, password, ipAddress), hosts[i], domain, password, ipAddress)
  }

  /** One more host: its request, if it sends one, follows those of the hosts before it. */
  lemma IssuedStep(http: HttpService, hosts: seq<string>, i: nat, domain: string, password: string, ipAddress: string)
    requires i < |hosts|
    ensures Issued(http, hosts[..i + 1], domain, password, ipAddress) ==
              Issued(http, hosts[..i], domain, password, ipAddress) +
              (if Sends(http, hosts[i], domain, password, ipAddress) then [UpdateRequest(hosts[i], domain, password, ipAddress)] else [])
  {
    assert hosts[..i + 1][..i] == hosts[..i];
  }

  /** One more host: the first i + 1 hosts were updated when the first i were and host i was. */
  lemma UpdatedStep(http: HttpService, sent: seq<Request>, hosts: seq<string>, i: nat, domain: string, password: string, ipAddress: string)
    requires i < |hosts|
    ensures UpdatedUpTo(http, sent, hosts, i + 1, domain, password, ipAddress) <==>
              UpdatedUpTo(http, sent, hosts, i, domain, password, ipAddress) &&
              HostUpdated(http, sent + Issued(http, hosts[..i], domain, password, ipAddress), hosts[i], domain, password, ipAddress)
  {
  }

  /**
   * The single-host setIPAddress: no request at all when an argument is
   * empty or the service is not initialised; otherwise exactly the update
   * request, and success exactly when its response succeeds.
   */
  method SetIPAddressForHost(http: HttpService, sent: seq<Request>, host: string, domain: string, password: string, ipAddress: string)
    returns (ok: bool, sentAfter: seq<Request>)
    ensures !Sends(http, host, domain, password, ipAddress) ==> sentAfter == sent
    ensures Sends(http, host, domain, password, ipAddress) ==> sentAfter == sent + [UpdateRequest(host, domain, password, ipAddress)]
    ensures ok <==> HostUpdated(http, sent, host, domain, password, ipAddress)
  {
    if host == "" || domain == "" || password == "" || ipAddress == "" {
      return false, sent;
    }
    if !http.initialized {
      return false, sent;
    }
    var request := Request(DYNAMIC_DNS_BASE_URL, DYNAMIC_DNS_UPDATE_PATH, []);
    request := request.(query := request.query + [(HOST_QUERY_PARAMETER, host)]);
    request := request.(query := request.query + [(DOMAIN_QUERY_PARAMETER, domain)]);
    request := request.(query := request.query + [(PASSWORD_QUERY_PARAMETER, password)]);
    request := request.(query := request.query + [(IP_ADDRESS_QUERY_PARAMETER, ipAddress)]);
    assert request == UpdateRequest(host, domain, password, ipAddress);
    var response := http.respond(sent, request);
    sentAfter := sent + [request];
    if response.None? || response.value.isFailure {
      return false, sentAfter;
    }
    if response.value.isFailureStatusCode {
      return false, sentAfter;
    }
    return true, sentAfter;
  }

  /**
   * The multi-host setIPAddress: false for an empty host list; otherwise
   * every host is tried once, in order, whatever happened to the hosts
   * before it, and the result is true exactly when every host was updated.
   */
  method SetIPAddress(http: HttpService, sent: seq<Request>, hosts: seq<string>, domain: string, password: string, ipAddress: string)
    returns (ok: bool, sentAfter: seq<Request>)
    ensures sentAfter == sent + Issued(http, hosts, domain, password, ipAddress)
    ensures ok <==> hosts != [] && UpdatedUpTo(http, sent, hosts, |hosts|, domain, password, ipAddress)
  {
    if hosts == [] {
      return false, sent;
    }
    var allIPAddressesSet := true;
    sentAfter := sent;
    for i := 0 to |hosts|
      invariant sentAfter == sent + Issued(http, hosts[..i], domain, password, ipAddress)
      invariant allIPAddressesSet <==> UpdatedUpTo(http, sent, hosts, i, domain, password, ipAddress)
    {
      IssuedStep(http, hosts, i, domain, password, ipAddress);
      UpdatedStep(http, sent, hosts, i, domain, password, ipAddress);
      var hostSet;
      hostSet, sentAfter := SetIPAddressForHost(http, sentAfter, hosts[i], domain, password, ipAddress);
      if !hostSet {
        allIPAddressesSet := false;
      }
    }
    assert hosts[..|hosts|] == hosts;
    return allIPAddressesSet, sentAfter;
  }

  /**
   * The multi-host updateIPAddress, with the address the external lookup
   * returned: an empty address fails before any update; otherwise it is
   * the multi-host setIPAddress with that address.
   */
  method UpdateIPAddress(http: HttpService, sent: seq<Request>, discoveredIpAddress: string,
                         hosts: seq<string>, domain: string, password: string)
    returns (ok: bool, sentAfter: seq<Request>)
    ensures discoveredIpAddress == "" ==> !ok && sentAfter == sent
    ensures discoveredIpAddress != "" ==> sentAfter == sent + Issued(http, hosts, domain, password, discoveredIpAddress)
    ensures ok <==> discoveredIpAddress != "" && hosts != [] &&
                    UpdatedUpTo(http, sent, hosts, |hosts|, domain, password, discoveredIpAddress)
  {
    if discoveredIpAddress == "" {
      return false, sent;
    }
    ok, sentAfter := SetIPAddress(http, sent, hosts, domain, password, discoveredIpAddress);
  }

  /**
   * The single-host updateIPAddress as written. Its argument list { host }
   * holds a string_view, which converts to the string_view parameter of
   * this same overload but not to a vector of strings, so the call is to
   * itself with the same arguments: no address is looked up, no request is
   * sent and the call never returns. The unbounded recursion is modelled by
   * the number of activations the call stack still has room for; None
   * means the stack ran out before any activation returned.
   */
  method UpdateIPAddressForHost(http: HttpService, sent: seq<Request>, host: string, domain: string, password: string,
                                stackDepth: nat)
    returns (result: Option<bool>, sentAfter: seq<Request>)
    ensures result.None?
    ensures sentAfter == sent
    decreases stackDepth
  {
    if stackDepth == 0 {
      return None, sent;
    }
    result, sentAfter := UpdateIPAddressForHost(http, sent, host, domain, password, stackDepth - 1);
  }

  /**
   * The single-host updateIPAddress as intended: the multi-host one with a
   * one-element list, which sends what the single-host setIPAddress sends
   * and succeeds when it does.
   */
  method UpdateIPAddressForHostCorrected(http: HttpService, sent: seq<Request>, discoveredIpAddress: string,
                                         host: string, domain: string, password: string)
    returns (ok: bool, sentAfter: seq<Request>)
    ensures sentAfter == sent + (if Sends(http, host, domain, password, discoveredIpAddress)
                                 then [UpdateRequest(host, domain, password, discoveredIpAddress)] else [])
    ensures ok <==> HostUpdated(http, sent, host, domain, password, discoveredIpAddress)
  {
    ok, sentAfter := UpdateIPAddress(http, sent, discoveredIpAddress, [host], domain, password);
    OneHost(http, sent, host, domain, password, discoveredIpAddress);
  }

  /**
   * Where the two differ: with a non-empty discovered address, arguments
   * present and the service initialised, the intended update sends exactly
   * one request, while the code as written sends none at any stack depth.
   */
  lemma IntendedUpdateSends(http: HttpService, discoveredIpAddress: string, host: string, domain: string, password: string)
    requires http.initialized && ArgumentsPresent(host, domain, password, discoveredIpAddress)
    ensures Issued(http, [host], domain, password, discoveredIpAddress) == [UpdateRequest(host, domain, password, discoveredIpAddress)]
  {
    OneHost(http, [], host, domain, password, discoveredIpAddress);
  }

  /** A one-element host list sends what the single-host call sends and succeeds when it does. */
  lemma OneHost(http: HttpService, sent: seq<Request>, host: string, domain: string, password: string, ipAddress: string)
    ensures Issued(http, [host], domain, password, ipAddress) ==
              if Sends(http, host, domain, password, ipAddress) then [UpdateRequest(host, domain, password, ipAddress)] else []
    ensures UpdatedUpTo(http, sent, [host], 1, domain, password, ipAddress) <==> HostUpdated(http, sent, host, domain, password, ipAddress)
  {
    assert [host][..0] == [];
    assert Issued(http, [], domain, password, ipAddress) == [];
    assert sent + [] == sent;
  }

  /**
   * With the service initialised and every argument present, each host
   * gets exactly one request, in the order of the list: a failure for one
   * host does not stop the hosts after it.
   */
  lemma {:induction false} EveryHostAttempted(http: HttpService, hosts: seq<string>, domain: string, password: string, ipAddress: string)
    requires http.initialized && domain != "" && password != "" && ipAddress != ""
    requires forall i :: 0 <= i < |hosts| ==> hosts[i] != ""
    ensures |Issued(http, hosts, domain, password, ipAddress)| == |hosts|
    ensures forall i :: 0 <= i < |hosts| ==> Issued(http, hosts, domain, password, ipAddress)[i] == UpdateRequest(hosts[i], domain, password, ipAddress)
  {
    if hosts != [] {
      EveryHostAttempted(http, hosts[..|hosts| - 1], domain, password, ipAddress);
    }
  }

  /** An uninitialised service is never sent a request, and nothing succeeds. */
  lemma {:induction false} UninitializedSendsNothing(http: HttpService, sent: seq<Request>, hosts: seq<string>,
                                                     domain: string, password: string, ipAddress: string)
    requires !http.initialized
    ensures Issued(http, hosts, domain, password, ipAddress) == []
    ensures hosts != [] ==> !UpdatedUpTo(http, sent, hosts, |hosts|, domain, password, ipAddress)
  {
    if hosts != [] {
      UninitializedSendsNothing(http, sent, hosts[..|hosts| - 1], domain, password, ipAddress);
      assert !HostUpdated(http, sent + Issued(http, hosts[..0], domain, password, ipAddress), hosts[0], domain, password, ipAddress);
    }
  }

  /**
   * Which requests are sent never depends on the responses: two services
   * that are both initialised, or both not, receive the same requests.
   */
  lemma {:induction false} RequestsIndependentOfResponses(http1: HttpService, http2: HttpService, hosts: seq<string>,
                                                          domain: string, password: string, ipAddress: string)
    requires http1.initialized == http2.initialized
    ensures Issued(http1, hosts, domain, password, ipAddress) == Issued(http2, hosts, domain, password, ipAddress)
  {
    if hosts != [] {
      RequestsIndependentOfResponses(http1, http2, hosts[..|hosts| - 1], domain, password, ipAddress);
    }
  }

  /** A host with an empty name makes the whole multi-host update fail. */
  lemma EmptyHostFails(http: HttpService, sent: seq<Request>, hosts: seq<string>, k: nat,
                       domain: string, password: string, ipAddress: string)
    requires k < |hosts| && hosts[k] == ""
    ensures !UpdatedUpTo(http, sent, hosts, |hosts|, domain, password, ipAddress)
  {
    assert !HostUpdated(http, sent + Issued(http, hosts[..k], domain, password, ipAddress), hosts[k], domain, password, ipAddress);
  }
}
