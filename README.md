# shellz: the Command builder and OutputCapture, modelled in Dafny

The package `shellz` wraps the go-sh library. Its two parts with their own logic are modelled here.

- **`Command`** (`command.dfy`, module `Shell`). This is a mutable configuration record. It holds
  the program, an append-only parameter list, environment overrides, a working directory, three
  stdio overrides and a log hook. Fluent setters change one field each and return the receiver.
  `toSH` resolves the record into a go-sh session by fixed rules. `Run`, `Output`, `MustRun` and
  `MustOutput` shape what the session returns.
- **`OutputCapture`** (`capture.dfy`, module `Fixtures`). This test helper takes over the
  process-wide standard output and standard error.
  - It saves the current handles and installs two pipes in their place.
  - `Close` is idempotent. On its first call it shuts the pipes, collects what they received
    and restores the saved handles.
  - Every accessor calls `Close` first.

How the model is built:

- `Command` is a Dafny class with the Go struct's fields. `State()` gives all of them as one
  `Config` value.
  - Each setter has a field frame (`modifies this`dir`) and ensures
    `State() == old(State()).(dir := d)`. So it changes exactly its own field and returns `this`.
  - `SetEnvMap` and the environment loop of `toSH` (the method `ApplyEnv`) range over a map. They visit keys in an order
    the model leaves open (`:|`) and write one key at a time.
  - A ghost sequence records the order the keys were visited in. The function `Overlay` describes
    the result for a given order. The lemma `OverlayIsUnion` proves that this result is the old
    map overridden by the visited entries of `m`. The lemma `OverlayOrderIndependent` proves
    that every order visiting all keys gives the same map, `old + m`.
- The go-sh session is abstract.
  - `sh.NewSession()` is the parameter `base: Session`.
  - Running or capturing the resolved `Invocation` is a function parameter
    (`Invocation -> Option<Error>` for `Run`, `Invocation -> Result<string>` for `Output`).
  - The log hook does not print. Each call is returned as a `LogCall(hook, cmd, params)` in the
    out-parameter `logged`.
- Errors are opaque. `errorz.Wrap` is the constructor `Wrapped(cause)`. The `Must*` variants
  return `Abortable`, which is either `Returned(v)` or `Aborted(e)`. `Aborted(e)` is the panic.
- For `OutputCapture`, the globals `os.Stdout`/`os.Stderr` are the two fields of a `Streams`
  object. An `*os.File` is a `File` with a byte sequence that writes append to while the file is
  open. Each pipe is one `File` that stands for both of its ends.
  - `Valid()` is the latch invariant.
    - **Active**: the pipes are open and nothing has been collected yet. `Valid()` does not say
      which files the slots hold, since other code may reassign them. The constructor says that
      the pipes are installed in both slots.
    - **Closed**: the pipes are shut, and `out`/`err` equal everything the pipes received.
  - `CaptureWindow` is a client of the capture. It runs one fixed sequence of calls and shows
    three things:
    - the accessors return exactly the bytes written to the slots while the capture was active,
      including on a repeat (for other orders this follows from the accessors' own contracts);
    - a later write goes to the original file;
    - a later write does not change the captured buffers.

`strings.TrimSpace` is modelled over characters. White space is Go's `unicode.IsSpace` set, listed
explicitly in `Shell.IsSpace`. `ToSH` also models `shl.ShowCMD = false` (command.go:130) as the
session field `showCmd`.

## Model

| member | source | states |
|---|---|---|
| `Shell.Command.constructor` | shellz/command.go:35-42 | `NewCommand` keeps `cmd` and `params` as given. The hook is `DefaultLogf`, the env map is empty, the dir is `""` and no stdio override is set. |
| `Shell.Command.AddParams` | shellz/command.go:45-48 | The new params are the old params followed by the given ones, in order. No other field changes. Returns the receiver. |
| `Shell.Command.AddParamsString` | shellz/command.go:51-56 | The loop appends one string at a time. The result is the old params followed by the strings as Go string values, in order. No other field changes. Returns the receiver. |
| `Shell.AddParamsStringAgrees` | shellz/command.go:45-56 | `AddParamsString(ps)` and `AddParams` with the same strings leave equal command states. |
| `Shell.Command.SetLogf` | shellz/command.go:59-62 | Only the hook changes. `None` (nil) turns logging off. Returns the receiver. |
| `Shell.Command.SetDir` | shellz/command.go:65-68 | Only `dir` changes. Returns the receiver. |
| `Shell.Command.SetStdin` | shellz/command.go:71-74 | Only `stdin` changes. Returns the receiver. |
| `Shell.Command.SetStdout` | shellz/command.go:77-80 | Only `stdout` changes. Returns the receiver. |
| `Shell.Command.SetStderr` | shellz/command.go:83-86 | Only `stderr` changes. Returns the receiver. |
| `Shell.Command.SetEnv` | shellz/command.go:89-92 | Afterwards `env[key] == value`. Every other key keeps its old value or stays absent. No other field changes. |
| `Shell.Command.SetEnvMap` | shellz/command.go:95-100 | Afterwards `env` is the old env overridden by `m`, whatever order the range visits the keys in. Keys not in `m` keep their previous value or stay absent. No other field changes. |
| `Shell.OverlayIsUnion` | shellz/command.go:96-98 | Writing the entries of `m` one key at a time, in any order and with any repeats, gives the starting map overridden by the visited entries of `m`. |
| `Shell.OverlayOrderIndependent` | shellz/command.go:96-98 | Two range loops that visit every key of `m` in different orders give the same map, `env + m`. |
| `Shell.SetEnvThenSetEnvMap` | shellz/command.go:89-100 | A key set by `SetEnv` survives a later `SetEnvMap` unless `m` has that key. The final env is `{key: value} + m`. |
| `Shell.ApplyEnv` | shellz/command.go:148-150 | The loop writes every entry of the command env into the session env, one key at a time and in an order left open. The session env ends as the old session env overridden by the command env. All other session fields are unchanged. |
| `Shell.Command.ToSH` | shellz/command.go:128-157 | The session dir is the command's dir iff that dir is non-empty; otherwise the session's default is kept. Each stdio handle is the command's override iff it is set; otherwise the session's default is kept. The session env is the default env overridden by every command env entry. `showCmd` is off. The command and params pass through unchanged. The hook is called exactly once, with `(cmd, params)`, iff it is non-nil; a nil hook means no call. |
| `Shell.Command.Run` | shellz/command.go:103-105 | Returns no error iff the process run succeeds. Otherwise it returns the failure wrapped around its cause. The hook calls are those of `toSH`. |
| `Shell.Command.MustRun` | shellz/command.go:108-110 | Aborts iff `Run` would return an error. The abort carries the wrapped error. |
| `Shell.Command.Output` | shellz/command.go:113-119 | On failure returns `""` and the wrapped cause. On success returns the raw output trimmed of white space at both ends, and no error. |
| `Shell.Command.MustOutput` | shellz/command.go:122-126 | Aborts iff `Output` would return an error. Otherwise it returns exactly what `Output` returns. |
| `Shell.MaybeWrap` | shellz/command.go:104 | A nil error stays nil. A non-nil error becomes a wrapper that keeps it as its cause. |
| `Shell.ShapeOutput` | shellz/command.go:114-118 | An error gives `("", wrapped error)`. Output gives the trimmed text and no error. |
| `Shell.Must` | shellz/command.go:109 | Aborts iff there is an error, with that error wrapped. Otherwise returns the value unchanged. |
| `Shell.TrimLeft` | shellz/command.go:118 | The result is a suffix of the input. Only white space precedes it, and it does not start with white space. |
| `Shell.TrimRight` | shellz/command.go:118 | The result is a prefix of the input. Only white space follows it, and it does not end with white space. |
| `Shell.TrimSpace` | shellz/command.go:118 | The result is a contiguous slice of the input with only white space before and after it. It neither starts nor ends with white space. |
| `Shell.TrimSpaceIdempotent` | shellz/command.go:118 | Trimming twice equals trimming once. A string is its own trim iff it has no white space at either end. |
| `Fixtures.ToString` | shellz/internal/fixtures/capture.go:50 | `string(b)` has one character per byte, with the same code. |
| `Fixtures.ToStringRoundTrip` | shellz/internal/fixtures/capture.go:50 | Converting bytes to a string and back yields the original bytes, so the string accessors lose nothing. |
| `Fixtures.File.Pipe` | shellz/internal/fixtures/capture.go:30 | A new pipe is open and empty. |
| `Fixtures.File.Write` | shellz/internal/fixtures/capture.go:32 | A write to an open file appends its bytes. A write to a closed file is refused and changes nothing. |
| `Fixtures.File.Close` | shellz/internal/fixtures/capture.go:77-80 | Closing a write end shuts it and keeps what it received. |
| `Fixtures.File.ReadAll` | shellz/internal/fixtures/capture.go:82-85 | Once the write end is closed (end of file), reading the read end returns everything the write end received. |
| `Fixtures.Streams.WriteStdout` | shellz/internal/fixtures/capture.go:32 | A write to the standard output slot goes to the file installed there. |
| `Fixtures.Streams.WriteStderr` | shellz/internal/fixtures/capture.go:36 | A write to the standard error slot goes to the file installed there. |
| `Fixtures.OutputCapture.CaptureOutput` | shellz/internal/fixtures/capture.go:22-39 | The saved originals are the slots as they were before the call. The slots now hold two fresh, distinct, empty pipes. The capture is Active (`closed` is false). |
| `Fixtures.OutputCapture.Close` | shellz/internal/fixtures/capture.go:66-86 | Afterwards the capture is closed. On an already-closed capture nothing changes: no buffer, slot, pipe or flag. On the first call `out`/`err` become exactly what the pipes received, and both slots are restored to the saved originals. |
| `Fixtures.OutputCapture.GetOut` | shellz/internal/fixtures/capture.go:42-45 | Closes first, leaving the capture closed. Returns the captured standard output, which is the first `Close`'s result on every call. |
| `Fixtures.OutputCapture.GetOutString` | shellz/internal/fixtures/capture.go:48-51 | Like `GetOut`, and returns the string form of the captured standard output. |
| `Fixtures.OutputCapture.GetErr` | shellz/internal/fixtures/capture.go:54-57 | Closes first, leaving the capture closed. Returns the captured standard error, which is the first `Close`'s result on every call. |
| `Fixtures.OutputCapture.GetErrString` | shellz/internal/fixtures/capture.go:60-63 | Like `GetErr`, and returns the string form of the captured standard error. |
| `Fixtures.CaptureWindow` | shellz/internal/fixtures/capture.go:71-85 | For one fixed sequence of calls (`GetErr`, `GetOut`, `Close`, the string accessors, a later write, `GetOut` again), bytes written to the slots while the capture is active are exactly what the accessors return, including on the repeat. A write after `Close` reaches the original file and leaves the captured buffers alone. Other orders are covered by each accessor's own contract. |

## Left out

- Process spawning and waiting (`sh.NewSession`, the session's `Run`/`Output`, `shl.Command`). The go-sh library is not part of this model. The new session is a parameter, and the outcome of running the resolved invocation is a function parameter.
- What go-sh does with a session: merging the session env into the process environment, and combining stdout and stderr in `Output`. These are not part of this model.
- The process-replacement (`Exec`) strategy. It does not appear in `shellz/command.go`, so it is not part of this model.
- `errorz` wrapping details (stack frames, `Skip()`, whether an already-wrapped error is wrapped again) and panic formatting. A wrap is the constructor `Wrapped(cause)`, and a panic is the `Aborted` outcome.
- `DefaultLogf`'s printing through `fmt.Println`. Only the hook calls and their arguments are recorded.
- `io.Reader`/`io.Writer` contents. The handles are opaque identities; only whether one is set matters.
- Aliasing of Go slices and maps. `NewCommand` keeps the caller's slice, and `append` may share its backing array. The model treats params and env as values.
- A `Command` built as a zero value (`&Command{}`) rather than by `NewCommand`. Its env map is nil, so `SetEnv` and `SetEnvMap` would panic on the map write (shellz/command.go:90, 97). The model has only `NewCommand`'s constructor, which always allocates the map.
- Fixtures.OutputCapture.GetOut: `GetOut` and `GetErr` return the capture's internal slice itself (shellz/internal/fixtures/capture.go:44, 56), so a caller that writes into it changes what later accessors return. The model returns the bytes as a value, and this aliasing is not modelled.
- UTF-8 decoding of the raw output before `TrimSpace`. In module `Shell` a Go string is a sequence of Unicode code points (the decoded runes), and white space is the explicit `unicode.IsSpace` set. In module `Fixtures` `string(bytes)` is one character per byte. The two encodings agree only on ASCII text.
- OS pipe and file semantics. These include failures of `os.Pipe`, `File.Close` and `ioutil.ReadAll`, the panics they cause, and the state a finalize panic leaves behind. A pipe's read and write ends are one `File`. Its buffer is unbounded, so a writer never blocks on a full pipe.
- Concurrent use of the process-wide slots, including two captures active at once.
- Writes to the slots by other code are modelled only as `Streams.WriteStdout`/`WriteStderr`.
