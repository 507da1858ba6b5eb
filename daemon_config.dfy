/** The daemon's configuration record and `processConfig`, which normalises it. */
module DaemonConfig {
  import opened Wrappers
  import opened NetAddress
  import opened ModuleFlags

  /** The `TurtleDexd` section of the configuration. */
  datatype TurtleDexdSection = TurtleDexdSection(
    apiAddr: string,
    rpcAddr: string,
    hostAddr: string,
    modules: string,
    authenticateAPI: bool,
    allowAPIBind: bool)

  /** The whole configuration record; the API password sits outside the section. */
  datatype Config = Config(turtleDexd: TurtleDexdSection, apiPassword: string)

  /** Go's zero value `var config Config`: every string empty, every flag false. */
  const ZeroConfig: Config := Config(TurtleDexdSection("", "", "", "", false, false), "")

  /** The error `processConfig` propagates from the module validator. */
  datatype ConfigError = InvalidModules(cause: ModuleError)

  /** `after` is the normal form of the endpoint `before`: it has a port separator,
      denotes the same host and port, and is `before` itself when that had one already. */
  predicate SameEndpoint(before: string, after: string) {
    ':' in after && Host(after) == Host(before) && Port(after) == Port(before) &&
    (':' in before ==> after == before)
  }

  /** The state the record is in after processing: every endpoint has a port separator
      and the module string is valid and already lower-case. */
  ghost predicate Processed(config: Config) {
    var d := config.turtleDexd;
    ':' in d.apiAddr && ':' in d.rpcAddr && ':' in d.hostAddr &&
    ValidModuleSpec(d.modules) && LowerString(d.modules) == d.modules
  }

  /** `processConfig`: normalises the three endpoints and validates the module string,
      failing with the validator's error when the module string is refused. */
  function ProcessConfig(config: Config): (r: Result<Config, ConfigError>)
    ensures r.Ok? <==> ValidModuleSpec(config.turtleDexd.modules)
    ensures r.Err? ==> ProcessModules(config.turtleDexd.modules) == Err(r.error.cause)
    ensures r.Ok? ==> Processed(r.value)
    ensures r.Ok? ==>
      var (d, e) := (config.turtleDexd, r.value.turtleDexd);
      SameEndpoint(d.apiAddr, e.apiAddr) && SameEndpoint(d.rpcAddr, e.rpcAddr) &&
      SameEndpoint(d.hostAddr, e.hostAddr) && e.modules == LowerString(d.modules) &&
      e.authenticateAPI == d.authenticateAPI && e.allowAPIBind == d.allowAPIBind &&
      r.value.apiPassword == config.apiPassword
  {
    var d := config.turtleDexd;
    match ProcessModules(d.modules)
    case Err(e) => Err(InvalidModules(e))
    case Ok(m) =>
      ProcessModulesIdempotent(d.modules);
      Ok(config.(turtleDexd := d.(
        apiAddr := ProcessNetAddr(d.apiAddr),
        rpcAddr := ProcessNetAddr(d.rpcAddr),
        hostAddr := ProcessNetAddr(d.hostAddr),
        modules := m)))
  }

  /** A processed record is a fixed point of `processConfig`. */
  lemma ProcessedIsFixedPoint(config: Config)
    requires Processed(config)
    ensures ProcessConfig(config) == Ok(config)
  {
  }

  /** Processing twice is processing once. */
  lemma ProcessConfigIdempotent(config: Config)
    requires ProcessConfig(config).Ok?
    ensures ProcessConfig(ProcessConfig(config).value) == ProcessConfig(config)
  {
  }

  /** The endpoint rows of the table at daemon_test.go, lines 78-85 (the fourth column,
      the module string, is never assigned by the test, so `Modules` stays empty). */
  const ConfigInputs: seq<seq<string>> := [
    ["localhost:9980", "localhost:9981", "localhost:9982", "cghmrtwe"],
    ["localhost:9980", "localhost:9981", "localhost:9982", "CGHMRTWE"]
  ]
  const ConfigExpected: seq<seq<string>> := [
    ["localhost:9980", "localhost:9981", "localhost:9982", "cghmrtwe"],
    ["localhost:9980", "localhost:9981", "localhost:9982", "cghmrtwe"]
  ]

  /** The record the test builds for a row: the zero record with the three endpoints set. */
  function WithEndpoints(config: Config, row: seq<string>): (c: Config)
    requires |row| >= 3
  {
    config.(turtleDexd := config.turtleDexd.(apiAddr := row[0], rpcAddr := row[1], hostAddr := row[2]))
  }

  /** Each row is accepted and its endpoints come back unchanged. */
  lemma ProcessConfigTable()
    ensures forall i :: 0 <= i < |ConfigInputs| ==>
      var r := ProcessConfig(WithEndpoints(ZeroConfig, ConfigInputs[i]));
      r.Ok? &&
      r.value.turtleDexd.apiAddr == ConfigExpected[i][0] &&
      r.value.turtleDexd.rpcAddr == ConfigExpected[i][1] &&
      r.value.turtleDexd.hostAddr == ConfigExpected[i][2]
  {
  }

  /** After the loop, setting `Modules` to "z" makes `processConfig` fail
      (daemon_test.go, lines 108-113). */
  lemma ProcessConfigRefusesUnknownModule()
    ensures
      var c := WithEndpoints(ZeroConfig, ConfigInputs[1]);
      ProcessConfig(c.(turtleDexd := c.turtleDexd.(modules := "z"))).Err?
  {
    RefusesUnknownAt("z", 0);
  }

  /** Had the test assigned the fourth column, the module strings would be lower-cased. */
  lemma ProcessConfigTableWithModules()
    ensures forall i :: 0 <= i < |ConfigInputs| ==>
      var c := WithEndpoints(ZeroConfig, ConfigInputs[i]);
      var r := ProcessConfig(c.(turtleDexd := c.turtleDexd.(modules := ConfigInputs[i][3])));
      r.Ok? && r.value.turtleDexd.modules == ConfigExpected[i][3]
  {
    forall i | 0 <= i < |ConfigInputs|
      ensures
        var c := WithEndpoints(ZeroConfig, ConfigInputs[i]);
        var r := ProcessConfig(c.(turtleDexd := c.turtleDexd.(modules := ConfigInputs[i][3])));
        r.Ok? && r.value.turtleDexd.modules == ConfigExpected[i][3]
    {
      assert ConfigInputs[i][3] == ValidModuleCases[i].0 && ConfigExpected[i][3] == ValidModuleCases[i].1;
      AcceptedRow(i);
    }
  }
}
