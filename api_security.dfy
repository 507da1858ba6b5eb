/** `verifyAPISecurity`: the accept/reject gate over the API address and the two
    security flags. */
module APISecurity {
  import opened NetAddress
  import opened DaemonConfig

  /** The host literal the model treats as the local-only address. */
  const LoopbackHost: string := "127.0.0.1"

  /** The syntactic class of an API address. */
  datatype AddressClass = Loopback | BlankHost | Public

  /** The class is read off the address text: loopback when it starts with `127.0.0.1:`,
      blank when it has no port separator (a bare port) or starts with one, public
      otherwise. */
  function ClassOf(addr: string): (k: AddressClass)
    ensures k == Loopback <==> LoopbackHost + ":" <= addr
    ensures k == BlankHost <==> ':' !in addr || addr[0] == ':'
    ensures k == Public <==> ':' in addr && addr[0] != ':' && !(LoopbackHost + ":" <= addr)
  {
    HostIsPrefix(LoopbackHost, addr);
    HostIsPrefix("", addr);
    if Host(addr) == LoopbackHost then Loopback
    else if Host(addr) == "" then BlankHost
    else Public
  }

  /** Why an address/flag combination was refused. */
  datatype SecurityError =
    | BlankHostWithoutOptIn(port: string)  // a blank host listens on all interfaces
    | NonLoopbackWithoutOptIn              // a non-loopback bind needs AllowAPIBind
    | OptInWithoutPassword                 // AllowAPIBind needs AuthenticateAPI

  datatype Verdict = Accept | Reject(error: SecurityError)

  /** The gate: without `AllowAPIBind` only the loopback address is accepted; with it,
      any address is accepted provided `AuthenticateAPI` is on. */
  function VerifyAPISecurity(config: Config): (v: Verdict)
    ensures
      var d := config.turtleDexd;
      v.Accept? <==> (!d.allowAPIBind && ClassOf(d.apiAddr) == Loopback) || (d.allowAPIBind && d.authenticateAPI)
    ensures
      var d := config.turtleDexd;
      v.Accept? && ClassOf(d.apiAddr) != Loopback ==> d.allowAPIBind && d.authenticateAPI
    ensures
      var d := config.turtleDexd;
      v.Reject? && v.error.BlankHostWithoutOptIn? ==> ClassOf(d.apiAddr) == BlankHost && !d.allowAPIBind
  {
    var d := config.turtleDexd;
    if !d.allowAPIBind then
      match ClassOf(d.apiAddr)
      case Loopback => Accept
      case BlankHost => Reject(BlankHostWithoutOptIn(Port(d.apiAddr)))
      case Public => Reject(NonLoopbackWithoutOptIn)
    else if !d.authenticateAPI then Reject(OptInWithoutPassword)
    else Accept
  }

  /** A public hostname is accepted exactly when both flags are on. */
  lemma PublicNeedsBindAndAuthentication(config: Config)
    requires ClassOf(config.turtleDexd.apiAddr) == Public
    ensures VerifyAPISecurity(config).Accept? <==>
      config.turtleDexd.allowAPIBind && config.turtleDexd.authenticateAPI
  {
  }

  /** Without `AllowAPIBind`, the gate accepts exactly the loopback address. */
  lemma WithoutBindOnlyLoopback(config: Config)
    requires !config.turtleDexd.allowAPIBind
    ensures VerifyAPISecurity(config).Accept? <==> ClassOf(config.turtleDexd.apiAddr) == Loopback
  {
  }

  /** The record the test builds: the zero record with an API address and the two flags. */
  function SecurityCase(apiAddr: string, allowAPIBind: bool, authenticateAPI: bool): (c: Config) {
    ZeroConfig.(turtleDexd := ZeroConfig.turtleDexd.(
      apiAddr := apiAddr, allowAPIBind := allowAPIBind, authenticateAPI := authenticateAPI))
  }

  /** The class of `host:port` is decided by `host` alone. */
  lemma ClassOfJoin(host: string, port: string)
    requires ':' !in host
    ensures ClassOf(JoinHostPort(host, port)) ==
      if host == LoopbackHost then Loopback else if host == "" then BlankHost else Public
  {
    SplitOfJoin(host, port);
  }

  /** daemon_test.go, lines 151-157: the loopback address is accepted without the flags. */
  lemma LoopbackAccepted()
    ensures VerifyAPISecurity(SecurityCase("127.0.0.1:9980", false, false)).Accept?
  {
    ClassOfJoin("127.0.0.1", "9980");
    assert JoinHostPort("127.0.0.1", "9980") == "127.0.0.1:9980";
  }

  /** daemon_test.go, lines 159-165: the blank host is refused without the flags. */
  lemma BlankHostRejected()
    ensures VerifyAPISecurity(SecurityCase(":9980", false, false)).Reject?
  {
  }

  /** daemon_test.go, lines 167-194: a public hostname is refused without the flags and
      with `AllowAPIBind` alone, and accepted with both flags. */
  lemma PublicHostCases()
    ensures VerifyAPISecurity(SecurityCase("turtledex.io:9980", false, false)).Reject?
    ensures VerifyAPISecurity(SecurityCase("turtledex.io:9980", true, false)).Reject?
    ensures VerifyAPISecurity(SecurityCase("turtledex.io:9980", true, true)).Accept?
  {
    ClassOfJoin("turtledex.io", "9980");
    assert JoinHostPort("turtledex.io", "9980") == "turtledex.io:9980";
  }
}
