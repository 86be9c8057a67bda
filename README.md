# glab-ctx: a Dafny model of context resolution and tool-config patching

`glab-ctx` switches the account that the GitLab CLI uses for one host. It keeps a
context store (`users.yml`): for each host key, the host name and an ordered list
of named contexts, each a (name, user, token) triple. Run as `app <host> <ctx>`,
it looks the host key up in the store, picks the first context with the given
name, checks that the context is complete, and then writes that context's user
and token into the `hosts.<host>` mapping of the CLI's own `config.yml`, leaving
the rest of that file as it was.

The model has four modules:

- `Failures` (failures.dfy): the reasons a run stops (`HostNotFound`,
  `InvalidContext`, `MissingKey`, `TargetNotMapping`) and a `Result` type. The
  program logs a fatal error and exits at each of these points; here each one
  is a returned value.
- `Contexts` (contexts.dfy): the store (`Context`, `HostEntry`, `Store`), the
  validity predicate `IsValid`, the selection loop `SelectContext` (a `while`
  loop that stops at the first match, as the `for ... range` loop with `break`
  does) and the resolution step `ResolveContext`. Both are proved against the
  specification functions `FirstMatch` and `Resolution`, and the properties of
  these functions are proved as lemmas.
- `ToolConfig` (tool_config.dfy): the tool config as an untyped value tree
  (`Str | Mapping | Other`, with a mapping at the top level, as the decoded
  `map[string]any` is) and the patch. `ApplyPatch` checks the structure and
  updates the nested maps step by step. It is proved against `Patched`, whose
  contract says that the result is field-scoped (`FieldScoped`).
- `Switch` (switch.dfy): one run, resolution then patch, as `Switched` and the
  method `SwitchContext`, with example runs.

The unchecked type assertion at main.go:82 panics when the host's entry exists
but is not a mapping. The model reports that case as its own error,
`TargetNotMapping`. It is not excluded by a precondition. For the three
checked conditions at lines 72-81 (no `hosts` key, `hosts` not a mapping, no
entry for the target host) the source logs the same fatal message, "config
hosts not found"; the model names that outcome `MissingKey`.

## Model

| member | source | states |
|---|---|---|
| `Contexts.IsValid` | main.go:115-117 | holds exactly when name, user and token are all non-empty, so the zero context is never valid |
| `Contexts.FirstMatch` | main.go:50-56 | the selected context is either the zero context or a context of the list with the requested name; with no context of that name it is the zero context |
| `Contexts.FirstMatchIsEarliest` | main.go:50-56 | first match wins: the selection is the context at the earliest position whose name matches, and later duplicates are ignored |
| `Contexts.FirstMatchSkipsOthers` | main.go:51-55 | contexts with other names placed before the list do not change the selection |
| `Contexts.FirstMatchIgnoresLater` | main.go:51-55 | once the list holds a match, contexts appended after it do not change the selection |
| `Contexts.SelectContext` | main.go:50-56 | the in-order scan that stops at the first name match returns the first-match context, or the zero context when nothing matches |
| `Contexts.Resolution` | main.go:45-60 | fails with host-not-found exactly when the key is absent from the store; on success the context is valid, carries the requested name, belongs to that host's list, and the host to patch is the entry's inner host field |
| `Contexts.ResolvedIsFirstValidMatch` | main.go:50-60 | resolution succeeds with a selection if and only if the key is present, the host is the entry's inner host, and the context is valid and at the earliest position with the requested name |
| `Contexts.InvalidContextCases` | main.go:57-60 | resolution fails with invalid-context if and only if the key is present and either no context has the name (the zero context is never valid) or the first one that has it is incomplete |
| `Contexts.IncompleteContextRejected` | main.go:115-117 | a first-match context with an empty name, user or token is refused with invalid-context |
| `Contexts.ResolveContext` | main.go:45-60 | the lookup, the selection loop and the validity check together compute `Resolution` |
| `ToolConfig.Patched` | main.go:72-86 | the patch succeeds exactly when `hosts` is a mapping with a mapping entry for the target; it fails with missing-key when `hosts` is absent, is not a mapping or lacks the target, and with `TargetNotMapping` when the entry is not a mapping; on success only `hosts[target].user` and `hosts[target].token` change, to the context's user and token |
| `ToolConfig.FieldScopedIsUnique` | main.go:82-86 | exactly one document differs from the input only in the target's user and token, so the field-scoped description fixes the patch result |
| `ToolConfig.PatchIsIdempotent` | main.go:83-86 | patching twice with the same context gives the same document as patching once |
| `ToolConfig.ApplyPatch` | main.go:72-86 | the step-by-step structure checks and nested map updates compute `Patched` |
| `Switch.Switched` | main.go:45-86 | a run succeeds exactly when the key is in the store, its first match is valid and the tool config is patchable at the entry's inner host; a resolution error is returned as is, otherwise the result (success, `MissingKey` or `TargetNotMapping`) is that of patching the inner host with the first-match context; a successful run changes nothing but that host's user and token |
| `Switch.PatchTargetsInnerHost` | main.go:79-85 | when the inner host differs from the lookup key, the tool config's entry for the lookup key is left unchanged |
| `Switch.ResolutionFailureSkipsPatch` | main.go:45-60 | when resolution fails, the run stops with that error whatever the tool config holds: no patch is attempted |
| `Switch.SwitchContext` | main.go:45-86 | resolving and then patching, as the program does, computes `Switched` |
| `Switch.SelectSecondContext` | main.go:50-86 | with contexts `work` and `personal` for `gitlab.com`, selecting `personal` sets that host's user and token to `bob` and `t2` and keeps the other field, the other host and the other top-level key |
| `Switch.MatchWithoutToken` | main.go:50-60 | a first match without a token stops the run with invalid-context, even when a later duplicate is complete |
| `Switch.ConfigWithoutHosts` | main.go:72-74 | a tool config without `hosts` stops the run with missing-key |

## Left out

- Argument-count checking (main.go:25-28): reading `os.Args` is process I/O. The host key and context name are parameters of the model.
- Home-directory paths and `os.MkdirAll` (main.go:14-20, 29-30): file-system set-up.
- Opening, creating, truncating and closing files (main.go:35-39, 62-66, 87-93): file I/O. A failed open stops the program before any change, so it is not a model state.
- YAML decoding and encoding with `gopkg.in/yaml.v3` (main.go:41-44, 68-71, 95-97): a foreign library. The model starts from the decoded store and the decoded document tree, and ends with the new tree. Parse and write errors are not modelled.
- Logging with zerolog and `log.Fatal` termination (main.go:23 and every error branch): each fatal stop is an `Error` value instead.
- Scalar and list values in the tool config: numbers, booleans, lists, null and mappings with non-string keys are all the one value `Other`, so the model does not tell such values apart. The patch never reads or writes them, so "left as it was" holds for them too, but the model cannot state it value by value.
- Key order and byte-for-byte output: a Go `map[string]any` has no order, and the emitted text is decided by the encoder. Maps in the model are unordered too.
- In-place mutation and aliasing of Go maps (main.go:82-86): the Go code changes the host's map inside `hosts` directly. The model rebuilds the nested maps as values and stores them back. The final document is the same, but sharing between decoded sub-maps is not modelled.
- The non-atomic truncate-then-write of the tool config (main.go:89-97): a durability concern of the file system.
