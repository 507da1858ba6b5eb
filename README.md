# turtledexd startup configuration, modelled in Dafny

This project models the logic the `turtledexd` daemon runs at startup, before it opens
any listener. It decides which modules to start, what addresses to bind, and whether
the resulting API exposure is safe:

- `processNetAddr` (module `NetAddress`) turns a bare port such as `9980` into `:9980`.
  It leaves an address that already has a port separator unchanged. The host/port split
  is syntactic: the host is what precedes the first `:`. A string without `:` is a bare
  port on a blank host.
- `processModules` (module `ModuleFlags`) validates the `-M`/`--modules` string. It
  lower-cases each character, refuses any character outside the eight codes
  `c g h m r t w e`, and refuses any repeated code. It returns the lower-cased input in
  its original order. It scans left to right with a set of codes already seen. It is
  proved equal to a declarative rule (`ValidModuleSpec`) in both directions.
- `processConfig` (module `DaemonConfig`) applies the two functions above to the API,
  RPC and host addresses and to the module string of the configuration record. It
  propagates the validator's error.
- `loadAPIPassword` (module `APIPassword`) is a class `SecretStore` whose field holds
  the persisted secret, if there is one. With `AuthenticateAPI` off, nothing is set.
  With it on, the stored password is reused, or the generated one is persisted and used.
  The generated password is a parameter, because random generation is outside the model.
- `verifyAPISecurity` (module `APISecurity`) is a pure accept/reject decision. It looks
  at the class of the API address (loopback `127.0.0.1`, blank host, or public), at
  `AllowAPIBind` and at `AuthenticateAPI`.

The model follows the behaviour that `cmd/turtledexd/daemon_test.go` asserts; each table
of that test has a lemma.

The security gate follows this rule: without `AllowAPIBind`, accept exactly the loopback
address; with it, accept exactly when `AuthenticateAPI` is on. This rule fits all five
cases of the test. It also fits the test's comment at lines 146-149, which says that the
bind opt-in cannot be used without an API password. Another reading of the gate, loopback
always accepted and a blank host always refused, differs on two cases the test does not
exercise:

- Loopback with `AllowAPIBind` on and `AuthenticateAPI` off: that reading accepts it.
  This model rejects it, following the test comment.
- Blank host with both flags on: that reading rejects it. This model accepts it.

No lemma states anything about these two cases on its own.

## Model

| member | source | states |
|---|---|---|
| NetAddress.ProcessNetAddr | cmd/turtledexd/daemon_test.go:13-21 | the result always has a port separator; an input with a `:` is returned unchanged; an input without one becomes `":" + input`; host and port are the same before and after, so a bare port becomes that port on a blank host |
| NetAddress.HostIsPrefix | cmd/turtledexd/daemon_test.go:13-14 | an address with a `:` starts with `host:` for exactly one colon-free `host`, and that is its host part |
| NetAddress.ProcessNetAddrIsJoinOfSplit | cmd/turtledexd/daemon_test.go:13-14 | for every input, normalising is joining the input's host and port with `:` |
| NetAddress.ProcessNetAddrIdempotent | cmd/turtledexd/daemon_test.go:13-14 | normalising an already normalised address changes nothing |
| NetAddress.ProcessNetAddrTable | cmd/turtledexd/daemon_test.go:9-21 | each of the five table inputs maps to its expected output (`9980` to `:9980`, the four `host:port` forms unchanged) |
| ModuleFlags.Scan | cmd/turtledexd/daemon_test.go:51-68 | the scan succeeds exactly when every lower-cased character is a code, none repeats and none was seen before; on success it returns the lower-cased input; an error names a lower-cased character of the input, unknown for an unknown code; for a duplicate it names a code that was seen before or occurs earlier in the input as well |
| ModuleFlags.ProcessModules | cmd/turtledexd/daemon_test.go:26-68 | accepts exactly the strings whose characters are all codes and pairwise distinct after lower-casing, and then returns the input lower-cased in the same order; an unknown-code error names a lower-cased input character that is not a code, a duplicate error names a code occurring at two positions |
| ModuleFlags.ProcessModulesAtMostEight | cmd/turtledexd/daemon_test.go:32-33 | an accepted module string is at most eight characters long |
| ModuleFlags.ProcessModulesIdempotent | cmd/turtledexd/daemon_test.go:32-33 | validating an accepted output again returns it unchanged |
| ModuleFlags.AcceptsSingle | cmd/turtledexd/daemon_test.go:34-49 | any single character whose lower-case form is a code is accepted and returned lower-cased |
| ModuleFlags.AcceptsAllEight | cmd/turtledexd/daemon_test.go:32-33 | any string that lower-cases to `cghmrtwe` is accepted and returns `cghmrtwe` |
| ModuleFlags.RefusesUnknownAt | cmd/turtledexd/daemon_test.go:62-68 | a character outside the eight codes anywhere in the input makes validation fail |
| ModuleFlags.RefusesDuplicateAt | cmd/turtledexd/daemon_test.go:62-68 | two positions with the same code, case-insensitively, make validation fail |
| ModuleFlags.AcceptedRow | cmd/turtledexd/daemon_test.go:28-50 | each row of the accepted table yields its expected lower-case output |
| ModuleFlags.RefusedRow | cmd/turtledexd/daemon_test.go:62 | each string of the refused list fails |
| ModuleFlags.ProcessModulesAcceptsTable | cmd/turtledexd/daemon_test.go:51-59 | all eighteen accepted rows succeed with their expected output |
| ModuleFlags.ProcessModulesRefusesTable | cmd/turtledexd/daemon_test.go:63-68 | all nine refused strings fail |
| DaemonConfig.ProcessConfig | cmd/turtledexd/daemon_test.go:87-113 | succeeds exactly when the module string is valid, and otherwise fails with the validator's error; on success the record is processed, each endpoint denotes the same host and port and is unchanged if it had a `:`, the modules are lower-cased, and the flags and password are untouched |
| DaemonConfig.ProcessedIsFixedPoint | cmd/turtledexd/daemon_test.go:96-104 | a record that is already processed comes back unchanged |
| DaemonConfig.ProcessConfigIdempotent | cmd/turtledexd/daemon_test.go:92-104 | processing the output of a successful processing returns it unchanged |
| DaemonConfig.ProcessConfigTable | cmd/turtledexd/daemon_test.go:74-105 | both rows, with the module string left empty as in the test, succeed with the three `localhost` endpoints unchanged |
| DaemonConfig.ProcessConfigRefusesUnknownModule | cmd/turtledexd/daemon_test.go:107-113 | the record with module string `z` is refused |
| DaemonConfig.ProcessConfigTableWithModules | cmd/turtledexd/daemon_test.go:78-85 | with the fourth column as module string, both rows succeed with modules `cghmrtwe` |
| APIPassword.Bootstrap | cmd/turtledexd/daemon_test.go:117-143 | without authentication, the store and record are unchanged; with it, the stored password is reused or the generated one is used, and the store afterwards holds exactly the password returned; the section's flags and addresses are untouched |
| APIPassword.BootstrapSetsPassword | cmd/turtledexd/daemon_test.go:127-135 | from a valid store and a non-empty generated password, an authenticated call returns a non-empty password and the store stays valid |
| APIPassword.BootstrapReusesPassword | cmd/turtledexd/daemon_test.go:136-143 | a second call from the same record returns the same record and leaves the store as it was, whatever would be generated |
| APIPassword.SecretStore.constructor | cmd/turtledexd/daemon_test.go:117-119 | a store opens holding the persisted secret, or nothing |
| APIPassword.SecretStore.LoadAPIPassword | cmd/turtledexd/daemon_test.go:117-143 | the new store and the returned record are one bootstrap step from the old store; the store stays valid; an authenticated call returns a non-empty password |
| APIPassword.LoadAPIPasswordScenario | cmd/turtledexd/daemon_test.go:117-143 | on an empty store: no password without authentication, a non-empty one on the first authenticated call, the same one on the second |
| APISecurity.ClassOf | cmd/turtledexd/daemon_test.go:151-173 | read off the address text: loopback exactly when it starts with `127.0.0.1:`, blank exactly when it is a bare port or starts with `:`, public otherwise |
| APISecurity.VerifyAPISecurity | cmd/turtledexd/daemon_test.go:146-194 | accepts exactly a loopback address without `AllowAPIBind`, or any address with both `AllowAPIBind` and `AuthenticateAPI`; a non-loopback address is never accepted without both flags; the blank-host error arises only for a blank host without `AllowAPIBind` |
| APISecurity.PublicNeedsBindAndAuthentication | cmd/turtledexd/daemon_test.go:167-194 | a public hostname is accepted exactly when both flags are on |
| APISecurity.WithoutBindOnlyLoopback | cmd/turtledexd/daemon_test.go:151-173 | without `AllowAPIBind`, exactly the loopback address is accepted |
| APISecurity.LoopbackAccepted | cmd/turtledexd/daemon_test.go:151-157 | `127.0.0.1:9980` with both flags off is accepted |
| APISecurity.BlankHostRejected | cmd/turtledexd/daemon_test.go:159-165 | `:9980` with both flags off is refused |
| APISecurity.PublicHostCases | cmd/turtledexd/daemon_test.go:167-194 | `turtledex.io:9980` is refused with no flags and with `AllowAPIBind` alone, and accepted with both flags |

## Left out

- The file-backed secret store: no disk reads or writes, and no store error path. The
  store is a field holding an optional password.
- Random password generation: the generated password is a non-empty parameter.
- Loading the configuration file, parsing flags, the HTTP/RPC servers, the module
  implementations and logging. None of them are part of this model.
- Real address resolution. Only the literal host `127.0.0.1` is loopback. `localhost`,
  other `127.x.x.x` addresses and `::1` are classed public, so the model refuses them
  without `AllowAPIBind`; a resolving implementation would treat them as loopback.
- Addresses with more than one `:`, such as bracketed IPv6 literals. The model splits
  host and port at the first `:` and returns any address containing `:` unchanged.
- ModuleFlags.ProcessModules: lower-cases ASCII letters only, where Go applies Unicode
  case mapping. No non-ASCII character lower-cases to one of the eight codes, so the
  accept/refuse verdict is not affected by this.
- APIPassword.SecretStore.constructor: requires the persisted secret, when present, to
  be non-empty. The non-empty-password guarantee of `LoadAPIPassword` rests on this
  assumption about the store's contents; an empty stored secret is not modelled.
- DaemonConfig.ProcessConfig: on failure the model returns only the error. The record
  Go returns beside an error is not modelled.
- The diagnostic texts of the errors: errors are modelled as kinds carrying the
  offending character or port.
- The startup pipeline that calls these functions in order is not part of this model.
