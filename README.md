# Child-launch policy and network addresses — a Dafny model

This project models two small pieces of the Teleport server.

- **Child-launch policy** (`lib/srv/reexec_linux.go`). The SSH server starts two kinds of child
  process: re-executions of itself and user commands. Before either starts, the server edits the
  child's command descriptor (`exec.Cmd`):
  - It makes sure the descriptor has an attribute block (`SysProcAttr`).
  - It sets the parent-death signal: SIGQUIT for a re-executed child, SIGKILL for a user command.
  - For a re-executed child only, it points `Path` at `/proc/self/exe`. It skips this when the
    process runs under qemu-user, where that link cannot be re-executed.

  Whether the process runs under qemu-user is probed once, during package initialisation, and
  kept in the write-once flag `procfsReexecOk`.
- **Network addresses** (`utils/addr.go`). A `NetAddr` is a network (`tcp` or `unix`) plus an
  address, written `network://addr`. `ParseAddr` reads one from a URL. Two command-line flag
  values are built on it: `NetAddrVal` holds one address and `NetAddrList` accumulates several
  into the caller's slice.

Files:
- `wrappers.dfy`: `Option` and `Result`.
- `reexec.dfy`: module `Reexec`, which holds the probe, the package flag, and the descriptor
  classes and tweaks.
- `strings.dfy`: module `Strings`, which holds Go's `strings.Join` and a splitter that undoes it.
- `addr.dfy`: module `Addr`.

Modelling choices:
- The probe's file operations are an input value. `OpenFailed` means the open failed.
  `Opened(StatFailed)` means the fstat failed. `Opened(StatOk(size))` means both succeeded.
- `url.Parse` is a parameter of type `UrlParser`, a total function from the input text to
  either an error or a `Url(scheme, host, path)`.
- Signals are Linux signal numbers, as in Go's `syscall.Signal`: 0 means unset, SIGQUIT is 3
  and SIGKILL is 9.
- The descriptor is a class `Cmd` with `path`, `args` and a nullable reference to a
  `SysProcAttr` object. That object has `pdeathsig` and three more fields (`setsid`, `setpgid`,
  `chroot`). These three stand for all the fields the tweaks must leave alone.
- Each tweak method is proved against a function on descriptor values (`ReexecTweaked`,
  `UserTweaked`). Those functions carry the decision table and the idempotence lemmas.
- Go converts the caller's `*NetAddr` into a `*NetAddrVal`, so both names point at one
  variable. The model therefore uses a single class `NetAddrVal`, and `NewNetAddrVal` returns
  the object it was given.
- The slice behind `NetAddrList` is a class `AddrSlice` holding a `seq<NetAddr>`.

Notes on the code:
- The probe counts any non-zero size as emulated (`Size() != 0`), including a negative size.
  It does not test for a positive size, and the model follows the code.
- The code has no separate path resolver that returns an "unresolved" result. When
  `procfsReexecOk` is false, `reexecCommandOSTweaks` leaves `Path` as the caller set it, and
  `ReexecPathDecision` states exactly that.

## Model

| member | source | states |
|---|---|---|
| `Reexec.RunningInQemuUser` | lib/srv/reexec_linux.go:30-47 | a failed open gives false; a failed fstat gives false; when both succeed the result is true exactly when the size is non-zero; true only for a successful open and fstat with a non-zero size |
| `Reexec.SrvPackage.constructor` | lib/srv/reexec_linux.go:56 | `procfsReexecOk` starts false, before `init` has run |
| `Reexec.SrvPackage.Init` | lib/srv/reexec_linux.go:58-60 | `init` may run only once; afterwards `procfsReexecOk` is the negation of the probe result; the tweak methods cannot write the flag because it is not in their frames |
| `Reexec.SysProcAttr.constructor` | lib/srv/reexec_linux.go:64 | `new(syscall.SysProcAttr)` has every field at its zero value, so no parent-death signal is set |
| `Reexec.ReexecTweaked` | lib/srv/reexec_linux.go:62-74 | the block is always present with signal SIGQUIT; an existing block keeps all its other fields; a missing block becomes the zero block with SIGQUIT; the path is `/proc/self/exe` if the flag holds and otherwise the caller's path; the arguments are unchanged |
| `Reexec.UserTweaked` | lib/srv/reexec_linux.go:76-85 | the block is always present with signal SIGKILL; the block's other fields, the path and the arguments are unchanged |
| `Reexec.ReexecTweakedIdempotent` | lib/srv/reexec_linux.go:62-74 | applying the re-exec tweak twice gives the same descriptor as applying it once |
| `Reexec.UserTweakedIdempotent` | lib/srv/reexec_linux.go:76-85 | applying the user-command tweak twice gives the same descriptor as applying it once |
| `Reexec.ReexecPathDecision` | lib/srv/reexec_linux.go:56-74 | from probe to path: a re-executed child keeps the caller's path exactly when open and fstat both succeed with a non-zero size; in every other case, failures included, its path is `/proc/self/exe` |
| `Reexec.ReexecCommandOSTweaks` | lib/srv/reexec_linux.go:62-74 | after the call the block exists and its signal is SIGQUIT; an existing block is the same object as before; a missing one is newly allocated; the path follows the flag; the arguments are untouched; the whole new descriptor is `ReexecTweaked` of the old one |
| `Reexec.UserCommandOSTweaks` | lib/srv/reexec_linux.go:76-85 | after the call the block exists and its signal is SIGKILL; an existing block is kept as the same object; the path and arguments are untouched; the whole new descriptor is `UserTweaked` of the old one |
| `Addr.FormatInjective` | utils/addr.go:14-16 | `network://addr` determines both fields when the network contains no colon |
| `Addr.ParseAddr` | utils/addr.go:18-31 | a URL-parser failure gives `ParseFailed` with that cause; scheme `tcp` gives the host as the address; scheme `unix` gives the path; any other scheme gives `UnsupportedScheme`; success happens exactly for a parsed URL whose scheme is `tcp` or `unix`, so a successful network is always `tcp` or `unix` |
| `Addr.ParsedAddrsFormatDistinctly` | utils/addr.go:14-31 | two successfully parsed addresses with the same text are the same address |
| `Addr.NewNetAddrVal` | utils/addr.go:33-36 | the target variable holds the default afterwards; the flag value returned is that same variable, so `Get` gives the default |
| `Addr.NetAddrVal.Set` | utils/addr.go:41-49 | on a successful parse there is no error and both fields hold the parsed address; on a failed parse the error is returned and both fields are unchanged |
| `Addr.NetAddrVal.String` | utils/addr.go:51-53 | the current value as `network://addr` |
| `Addr.NetAddrVal.Get` | utils/addr.go:55-57 | returns the current address and network as a `NetAddr` |
| `Addr.NetAddrList.constructor` | utils/addr.go:63-65 | the list refers to the caller's slice variable |
| `Addr.NewNetAddrList` | utils/addr.go:59-61 | returns a new list bound to the given slice variable |
| `Addr.NetAddrList.Set` | utils/addr.go:67-74 | on success there is no error and exactly the parsed address is appended at the end, with earlier entries kept in order; on failure the error is returned and the slice is unchanged |
| `Addr.FormatAll` | utils/addr.go:78-80 | the loop's list of texts has one entry per address, in list order, and each entry is that address's `network://addr` |
| `Addr.NetAddrList.String` | utils/addr.go:76-82 | the entries' texts in list order, joined by single spaces; an empty list gives "" |
| `Addr.ListStringAfterAppend` | utils/addr.go:67-82 | after a successful `Set`, the list's text is the old text, then a space, then the new entry's text; if the list was empty, it is just the new entry's text |
| `Addr.ListStringSplits` | utils/addr.go:76-82 | splitting a non-empty list's text at spaces gives back every entry's text in order, provided no entry's text contains a space |
| `Strings.JoinAppend` | utils/addr.go:81 | `strings.Join` of a non-empty list with one more part is the old join, then the separator, then that part |
| `Strings.SplitJoin` | utils/addr.go:81 | joining at least one part with a one-character separator that no part contains can be undone by splitting at that character |

## Left out

- Calls to the filesystem: `os.Open`, `Stat` and the deferred `Close` on `/proc/self/stat` are not modelled. Their outcomes are the probe's input, and the result of `Close` is ignored, as in the code.
- Concurrency of initialisation is not modelled. The Go runtime runs `init` once before `main`, and `SrvPackage.Init` requires that it has not run before.
- Process creation and the kernel's handling of the parent-death signal (prctl) are not modelled. Only the fields the tweaks touch, plus three fields standing for the rest, are modelled.
- `exec.Cmd` fields other than `Path`, `Args` and `SysProcAttr` are not modelled, because the tweaks do not read or write them.
- The internals of `url.Parse` are not modelled; the parser is a parameter. The exact text of the `fmt.Errorf` messages is also not modelled. The errors keep the values those messages are built from.
- `NetAddrVal.Get` returns the `NetAddr` itself, not Go's `interface{}` boxing of it.
- Nil receivers and nil pointers (a nil `cmd`, a nil `addrs` pointer) make Go panic. The model's references are non-null, so those panics are not modelled.
- Go's `append` may share the slice's backing array with other slices. The model treats the slice as a value stored in the caller's variable, so that sharing is not modelled.
