# Pull-policy and buildpack-package commands, modelled in Dafny

This project models two command handlers of the `pack` command-line tool, which packages buildpacks. Both handlers resolve what the user typed (positional arguments and flags) against the persisted user configuration. Each then returns an error, writes the configuration, or hands the work to an external packager.

- **`pull-policy [<policy>] [--unset]`** (`SetPullPolicy`). The tests build it as `ConfigPullPolicy`; it is the same command. With no argument it reports the persisted policy. With one argument it stores that argument, unless the argument equals the persisted string verbatim, in which case it only says "already set". With `--unset` it then clears the policy to `""`. After each change it writes the whole record through the configuration store.
- **`buildpack package <name>`** (`BuildpackPackage`). It checks the raw flags for `--publish` with `--pull-policy never`. It resolves the pull policy: the flag, else the persisted value, else `always`. It chooses the package definition: the built-in default, or the reader's result for `--config`. It then calls the packager with the assembled `PackageBuildpackOptions` and logs "created" or "published".

Files:

- `errors.dfy` (module `Errors`): the error values, their printed text (`context: cause` wrapping), and `RootCause`.
- `pull_policy.dfy` (module `PullPolicies`): the `PullPolicy` enumeration, `ParsePullPolicy` and `PolicyString`.
- `config.dfy` (module `Configs`): the configuration record and the `ConfigStore` class. The store holds the durable record and a log of writes. Writes fail on the attempts listed in its `faults` map.
- `config_pull_policy.dfy` (module `ConfigPullPolicy`): the command as a class.
  - `PullPolicyCommand.Execute` follows the handler step by step. It edits the captured record in place and writes through the store.
  - Its contract ties it to two pure functions. `Plan` gives the error the command stops with, or the effects it performs in order (log a line, write a record). `Perform` carries those effects out and stops at the first write that fails.
  - The properties are lemmas about `Plan` and `Perform`.
  - The test cases are client methods that build a store and a command and run them.
- `buildpack_package.dfy` (module `BuildpackPackage`): flag validation, the effective-policy rule, and `Execute`.
  - The reader and the packager are function parameters that may succeed or fail.
  - `Execute` returns the error, the trace of calls made to those two collaborators, and the logged lines.

## Model

| member | source | states |
|---|---|---|
| `Errors.Message` | internal/commands/config_pull_policy.go:28-54 | No contract; definition of the text an error prints. A wrapped error prints as `context: cause`, as `errors.Wrap` and `errors.Wrapf` make it, and a rejected policy prints as `invalid pull policy <s>`. |
| `Errors.RootCause` | internal/commands/config_pull_policy.go:28-31 | Wrapping only prepends context. The innermost error's text is therefore the tail of the whole message, so an error naming the bad policy still names it once wrapped. |
| `PullPolicies.ParsePullPolicy` | internal/commands/config_pull_policy_test.go:69-110 | Succeeds exactly on `""`, `always`, `never` and `if-not-present`. `""` gives Always. Any other string fails with `InvalidPullPolicy` carrying that string. |
| `PullPolicies.PolicyString` | internal/commands/config_pull_policy.go:32 | Each policy's name is non-empty and parses back to the same policy. |
| `PullPolicies.ParsedIsCanonical` | internal/commands/buildpack_package.go:98 | A non-empty string that parses is exactly that policy's canonical name. |
| `PullPolicies.InvalidNamesValue` | internal/commands/config_pull_policy_test.go:120-125 | A rejected string prints as `invalid pull policy <s>`. |
| `Configs.ConfigStore.Write` | internal/commands/config_pull_policy.go:45-47 | A write either makes the whole record durable and appends it to the log, or fails with the store's error and leaves both as they were. Either way it counts one attempt. |
| `ConfigPullPolicy.Plan` | internal/commands/config_pull_policy.go:23-57 | No contract; definition of the handler's decision. More than one argument is refused. With none, it reports the parsed persisted policy, or fails naming it. An argument equal to the persisted string only logs "already set" and returns. Otherwise it fails naming an invalid argument, or writes it and logs it. After the report or the set comes the `--unset` step. |
| `ConfigPullPolicy.Perform` | internal/commands/config_pull_policy.go:44-56 | No contract; definition of carrying the effects out in order. Each record is put in memory before it is written. A failed write returns `writing to config: <store error>` and stops the run, so no later line or write happens. |
| `ConfigPullPolicy.PullPolicyCommand.Execute` | internal/commands/config_pull_policy.go:26-58 | The error, the in-memory record, the logged lines and the store's new state are exactly `Perform(Plan(...))`. Every record it writes is the captured record with only a parseable policy changed. The durable policy stays unchanged or becomes parseable. |
| `ConfigPullPolicy.PullPolicyCommand.Save` | internal/commands/config_pull_policy.go:44-47 | The record is put in memory first, then written once. A failed write returns the store's error wrapped in "writing to config" and leaves the durable record and the write log as they were. A successful write makes the record durable and appends it to the log. The logged lines are untouched. |
| `ConfigPullPolicy.PlannedRun` | internal/commands/config_pull_policy.go:27-57 | Every outcome in closed form: report, already set, set, and unset after either. Each case also covers which of the at most two write attempts fail. |
| `ConfigPullPolicy.ReportRun` | internal/commands/config_pull_policy.go:27-32 | The report branch in closed form. It logs the report line, then under `--unset` clears and writes, and that write may fail. |
| `ConfigPullPolicy.SetRun` | internal/commands/config_pull_policy.go:40-56 | The set branch in closed form. It writes the argument and logs it, then under `--unset` writes `""`. Each write may fail and stop the run. |
| `ConfigPullPolicy.ReportWritesNothing` | internal/commands/config_pull_policy.go:27-32 | With no argument, the command reports `ParsePullPolicy` of the persisted value. Nothing is written unless `--unset` is given, and then only the cleared record. |
| `ConfigPullPolicy.InvalidPersistedStops` | internal/commands/config_pull_policy.go:28-31 | With no argument and an invalid persisted value, the command fails naming the value, with or without `--unset`. |
| `ConfigPullPolicy.AlreadySetIsNoOp` | internal/commands/config_pull_policy.go:36-39 | An argument equal to the persisted string logs "already set". It writes nothing and skips the unset step. |
| `ConfigPullPolicy.InvalidArgumentStops` | internal/commands/config_pull_policy.go:40-43 | An invalid new argument fails naming it, before any write. |
| `ConfigPullPolicy.ValidArgumentStored` | internal/commands/config_pull_policy.go:44-48 | A valid new argument is written verbatim in one write and reported by its parsed name. With `--unset` a second write clears it. |
| `ConfigPullPolicy.PlanWritesOnlyValidPolicies` | internal/commands/config_pull_policy.go:44-52 | At most two writes. Each write is the captured record with only the policy replaced, and that policy parses. |
| `ConfigPullPolicy.UnsetWritesEmptyLast` | internal/commands/config_pull_policy.go:50-56 | Once the unset step is reached, the last write clears the policy to `""`, whatever it was before. |
| `ConfigPullPolicy.PerformPrefix` | internal/commands/config_pull_policy.go:45-54 | What a run writes and logs is a prefix of what its effects would write and log. |
| `ConfigPullPolicy.PerformOutcome` | internal/commands/config_pull_policy.go:45-54 | A run succeeds exactly by performing every effect. Otherwise it fails at the first faulty attempt. |
| `ConfigPullPolicy.PerformLeavesLastAttempt` | internal/commands/config_pull_policy.go:44-51 | The record left in memory is the last one the run tried to write. It is changed even when that write failed. |
| `ConfigPullPolicy.PerformAppend` | internal/commands/config_pull_policy.go:49-56 | Performing two effect lists in sequence is performing the first and then, unless it failed, the second. |
| `ConfigPullPolicy.RunWithoutFaults` | internal/commands/config_pull_policy.go:45-56 | With no failing attempt in range, a run succeeds and performs every effect. |
| `ConfigPullPolicy.RunKeepsOtherSettings` | internal/commands/config_pull_policy.go:44-52 | On every outcome, durable and in-memory records differ from the captured record only in the policy, and every durable policy parses. |
| `ConfigPullPolicy.ReportDefault` | internal/commands/config_pull_policy_test.go:69-75 | An empty configuration reports `Pull policy is always` and writes nothing. |
| `ConfigPullPolicy.ReportPersisted` | internal/commands/config_pull_policy_test.go:77-99 | A persisted canonical name is reported as that policy. |
| `ConfigPullPolicy.ReportInvalidPersisted` | internal/commands/config_pull_policy_test.go:101-110 | A persisted `blah` fails with a message ending `invalid pull policy blah`. Nothing is written, even under `--unset`. |
| `ConfigPullPolicy.SetThenReport` | internal/commands/config_pull_policy_test.go:113-119 | Setting `never` succeeds and persists `never`. A later invocation built from the durable record also succeeds and reports `Pull policy is never`. |
| `ConfigPullPolicy.SetInvalid` | internal/commands/config_pull_policy_test.go:120-125 | The argument `invalid` fails with `invalid pull policy invalid`, and the store is untouched. |
| `ConfigPullPolicy.UnsetThenReport` | internal/commands/config_pull_policy_test.go:127-139 | `--unset` on a record holding `never` succeeds, persists `""` and keeps the other settings. A later report also succeeds and gives `always`. |
| `ConfigPullPolicy.SetAndUnset` | internal/commands/config_pull_policy.go:44-56 | A set with `--unset` writes twice: first the argument, then `""`. |
| `ConfigPullPolicy.SetWithFailingWrite` | internal/commands/config_pull_policy.go:45-47 | Starting from `always`, a failing first write returns `writing to config: <store error>`. Nothing is logged and the durable record stays `always`. Exactly one write is attempted and none is logged, so the unset step does not run. |
| `BuildpackPackage.ValidateFlags` | internal/commands/buildpack_package.go:104-110 | Fails if and only if `--publish` is set and the raw `--pull-policy` flag is `never`, with the conflict error. |
| `BuildpackPackage.EffectivePolicy` | internal/commands/buildpack_package.go:55-59 | The flag if non-empty, otherwise the persisted value, parsed. Always when neither is set. |
| `BuildpackPackage.Execute` | internal/commands/buildpack_package.go:48-90 | Exactly one argument. A flag conflict or parse failure stops the run before any call. An empty path uses the default definition with no reader call. A reader error stops it before the packager. The packager gets exactly `args[0]`, the format, the definition, the publish flag and the parsed policy. Its error is returned unmodified. Success logs "published" or "created" by the publish flag. |
| `BuildpackPackage.PublishWithPersistedNever` | internal/commands/buildpack_package.go:55-59 | `--publish` with no policy flag and a persisted `never` passes validation. The packager gets `Never` and the default definition, and the reader is not called. |
| `BuildpackPackage.PublishNeverRefused` | internal/commands/buildpack_package.go:49-51 | `--publish --pull-policy never` fails with the conflict message and calls neither collaborator. |
| `BuildpackPackage.RejectedConfigPath` | internal/commands/buildpack_package.go:64-72 | A path the reader rejects returns `reading config: <reader error>` after exactly one reader call and no packager call. |

## Left out

- Command construction in the command-line library: `Use`, `Short`, `Long`, `Example`, aliases, flag registration and the help flag. The `--unset` flag and the package flags arrive as parameters.
- The argument-count checks (at most one for pull-policy, exactly one for package) are modelled. Their error texts ("accepts at most 1 arg(s), received N") follow that library's validators, which are not part of this model.
- `NewBuildpackCommand` (internal/commands/buildpack.go) only wires subcommands together. The `Experimental` switch is carried through writes but drives nothing here.
- `logError` and logger formatting: logged lines are a sequence of strings. `style.Symbol` is omitted, so messages contain the bare value.
- Configuration file I/O (TOML encoding, `config.Read`, `config.Write`, the file at `cfgPath`): the store keeps the durable record in a field. Which write attempts fail is fixed when the store is built.
- `Configs.ConfigStore.Write` assumes a write is atomic: a failed write leaves the durable record as it was. `config.Write` is not part of this model, so a partly written file is not modelled. `SetWithFailingWrite`'s "durable record is unchanged" rests on this assumption.
- Package-definition parsing and artifact construction are external. The reader and the packager are function parameters whose results stand for theirs.
- `context.Context` is passed to the packager unchanged and is not modelled.
- `ParsePullPolicy` is not part of this model's source. It is pinned only by the tests and the flag help: `""` means always, the three canonical names parse, and anything else fails with `invalid pull policy <s>`. The pull-policy command calls `config.ParsePullPolicy` (internal/commands/config_pull_policy.go:28,40), and the package command calls `pubcfg.ParsePullPolicy` (internal/commands/buildpack_package.go:59). The model takes them to be the same function. The tests pin the first and the flag help pins the second.
- `DefaultConfig`: the built-in package definition is not part of this model. `DefaultConfig` is a fixed placeholder value. Only where it is used matters.
- The packaging options are not always free of Publish with the Never policy. The conflict check reads only the raw flag, so `--publish` with a persisted `never` reaches the packager with Never. The model follows the code (`PublishWithPersistedNever`).
- The model follows this revision: `--unset` after a successful set also runs (internal/commands/config_pull_policy.go:50-56), and the second write leaves `""`.
