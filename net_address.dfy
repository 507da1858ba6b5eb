/** The address normaliser `processNetAddr` and the syntactic host/port split it relies on. */
module NetAddress {

  /** Position of the first ':' in `s`, or `|s|` when there is none. */
  function FirstColon(s: string): (k: nat)
    ensures k <= |s|
    ensures forall j :: 0 <= j < k ==> s[j] != ':'
    ensures k < |s| ==> s[k] == ':'
    ensures k == |s| <==> ':' !in s
  {
    if s == [] then 0
    else if s[0] == ':' then 0
    else 1 + FirstColon(s[1..])
  }

  /** The host part of an endpoint: what comes before the first ':'. A string without
      ':' is a bare port, so its host is blank (all interfaces). */
  function Host(addr: string): (h: string)
    ensures ':' !in h
    ensures ':' in addr ==> h + ":" <= addr
    ensures ':' !in addr ==> h == ""
  {
    if ':' in addr then addr[..FirstColon(addr)] else ""
  }

  /** The port part of an endpoint: what follows the first ':', or the whole bare port. */
  function Port(addr: string): (p: string)
    ensures ':' in addr ==> addr == Host(addr) + ":" + p
    ensures ':' !in addr ==> p == addr
  {
    if ':' in addr then
      var k := FirstColon(addr);
      assert addr == addr[..k] + [addr[k]] + addr[k + 1..];
      addr[k + 1..]
    else addr
  }

  /** Joins a host and a port into the `host:port` form. */
  function JoinHostPort(host: string, port: string): (addr: string) {
    host + ":" + port
  }

  /** An address that has a port separator starts with `host:` for exactly one
      colon-free `host`, and that is its host part. */
  lemma HostIsPrefix(host: string, addr: string)
    ensures (':' !in host && host + ":" <= addr) <==> (':' in addr && Host(addr) == host)
  {
    if ':' !in host && host + ":" <= addr {
      assert addr[|host|] == ':';
      assert forall j :: 0 <= j < |host| ==> addr[j] == host[j];
      assert FirstColon(addr) == |host|;
      assert addr[..|host|] == host;
    }
  }

  /** `processNetAddr`: a bare port gets a ':' prefix, an address that already has a
      port separator is returned as it is. The endpoint it denotes does not change. */
  function ProcessNetAddr(addr: string): (r: string)
    ensures ':' in r
    ensures ':' in addr ==> r == addr
    ensures ':' !in addr ==> r == ":" + addr
    ensures Host(r) == Host(addr) && Port(r) == Port(addr)
  {
    if ':' in addr then addr
    else ":" + addr
  }

  /** Normalising an address is the same as splitting it and joining the parts again. */
  lemma ProcessNetAddrIsJoinOfSplit(addr: string)
    ensures ProcessNetAddr(addr) == JoinHostPort(Host(addr), Port(addr))
  {
  }

  /** Splitting a joined address gives back its parts, when the host has no ':'. */
  lemma SplitOfJoin(host: string, port: string)
    requires ':' !in host
    ensures Host(JoinHostPort(host, port)) == host
    ensures Port(JoinHostPort(host, port)) == port
  {
    var a := JoinHostPort(host, port);
    assert a[|host|] == ':';
    assert forall j :: 0 <= j < |host| ==> a[j] == host[j];
    assert FirstColon(a) == |host|;
    assert a[..|host|] == host;
    assert a[|host| + 1..] == port;
  }

  /** Normalising twice is normalising once. */
  lemma ProcessNetAddrIdempotent(addr: string)
    ensures ProcessNetAddr(ProcessNetAddr(addr)) == ProcessNetAddr(addr)
  {
  }

  /** The endpoints of the table at daemon_test.go, lines 13-14. */
  const NetAddrInputs: seq<string> :=
    ["9980", ":9980", "localhost:9980", "test.com:9980", "192.168.14.92:9980"]
  const NetAddrExpected: seq<string> :=
    [":9980", ":9980", "localhost:9980", "test.com:9980", "192.168.14.92:9980"]

  /** Every row of the table maps to its expected output. */
  lemma ProcessNetAddrTable()
    ensures |NetAddrInputs| == |NetAddrExpected|
    ensures forall i :: 0 <= i < |NetAddrInputs| ==> ProcessNetAddr(NetAddrInputs[i]) == NetAddrExpected[i]
  {
    assert "localhost:9980"[9] == ':';
    assert "test.com:9980"[8] == ':';
    assert "192.168.14.92:9980"[13] == ':';
    assert ':' !in "9980";
    assert ":9980"[0] == ':';
  }
}
