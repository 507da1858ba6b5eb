/** `loadAPIPassword`: the API password bootstrap over a persisted secret. */
module APIPassword {
  import opened Wrappers
  import opened DaemonConfig

  /** One bootstrap step on values: the persisted secret before the call, the record
      passed in and the password the generator would produce give the persisted secret
      after the call and the record returned. */
  function Bootstrap(stored: Option<string>, config: Config, generated: string): (r: (Option<string>, Config))
    ensures r.1.turtleDexd == config.turtleDexd
    ensures !config.turtleDexd.authenticateAPI ==> r.0 == stored && r.1 == config
    ensures config.turtleDexd.authenticateAPI ==> r.0 == Some(r.1.apiPassword)
    ensures config.turtleDexd.authenticateAPI && stored.Some? ==> r.1.apiPassword == stored.value
    ensures config.turtleDexd.authenticateAPI && stored.None? ==> r.1.apiPassword == generated
  {
    if !config.turtleDexd.authenticateAPI then (stored, config)
    else
      var password := if stored.Some? then stored.value else generated;
      (Some(password), config.(apiPassword := password))
  }

  /** A persisted secret, when present, is never the empty password. */
  predicate StoreValid(stored: Option<string>) {
    stored.Some? ==> stored.value != ""
  }

  /** With authentication on, the password returned is never empty, and the store stays valid. */
  lemma BootstrapSetsPassword(stored: Option<string>, config: Config, generated: string)
    requires StoreValid(stored) && generated != ""
    ensures StoreValid(Bootstrap(stored, config, generated).0)
    ensures config.turtleDexd.authenticateAPI ==> Bootstrap(stored, config, generated).1.apiPassword != ""
  {
  }

  /** A later call from the same record returns the same password and leaves the store
      as the first call left it, whatever the generator would produce the second time. */
  lemma BootstrapReusesPassword(stored: Option<string>, config: Config, generated1: string, generated2: string)
    ensures
      var (stored1, config1) := Bootstrap(stored, config, generated1);
      Bootstrap(stored1, config, generated2) == (stored1, config1)
  {
  }

  /** The file-backed secret store, reduced to the secret it holds. */
  class SecretStore {
    var password: Option<string>

    ghost predicate Valid()
      reads this
    {
      StoreValid(password)
    }

    /** Opens a store whose persisted secret is `persisted` (None when no file exists yet). */
    constructor (persisted: Option<string>)
      requires StoreValid(persisted)
      ensures Valid() && password == persisted
    {
      password := persisted;
    }

    /** `loadAPIPassword`: with authentication off, returns the record as it is; with it
        on, reuses the persisted password or persists `generated` and returns the record
        carrying that password. */
    method LoadAPIPassword(config: Config, generated: string) returns (r: Config)
      requires Valid() && generated != ""
      modifies this
      ensures Valid()
      ensures (password, r) == Bootstrap(old(password), config, generated)
      ensures config.turtleDexd.authenticateAPI ==> r.apiPassword != ""
    {
      BootstrapSetsPassword(password, config, generated);
      var next := Bootstrap(password, config, generated);
      password := next.0;
      r := next.1;
    }
  }

  /** The scenario of daemon_test.go, lines 117-143, on a store that starts empty: no
      password without authentication, a non-empty one on the first authenticated call,
      and the same one again on the second call from the same record. */
  method LoadAPIPasswordScenario(generated1: string, generated2: string, generated3: string)
    returns (config1: Config, config2: Config, config3: Config)
    requires generated1 != "" && generated2 != "" && generated3 != ""
    ensures config1.apiPassword == ""
    ensures config2.apiPassword != ""
    ensures config3.apiPassword == config2.apiPassword
  {
    var store := new SecretStore(None);
    var config := ZeroConfig;
    config1 := store.LoadAPIPassword(config, generated1);
    config := config1.(turtleDexd := config1.turtleDexd.(authenticateAPI := true));
    config2 := store.LoadAPIPassword(config, generated2);
    config3 := store.LoadAPIPassword(config, generated3);
  }
}
