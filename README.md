# CephFS client configuration files

A model of the part of the ceph-csi CephFS driver that materialises a Ceph
client's configuration on the host (`pkg/cephfs/cephconf.go`). Four fixed
templates are rendered from plain records:

- the cluster configuration `ceph.conf` (a `[global]` section naming the
  monitors, requiring cephx authentication, and setting one fuse workaround);
- the restricted keyring `ceph.client.<userId>.keyring` (mds access scoped to
  a root path, read-only mon access, osd access optionally scoped to a pool
  and a namespace);
- the full-capability keyring, which shares the restricted keyring's file name;
- the secret `ceph.client.<userId>.secret`, which holds the bare key.

Each file is written below the root `/etc/ceph` by one routine: create the
root (and `/etc`) with mode 0755, create the file exclusively with its mode
(0640 for the configuration, 0600 for the credentials), treat "already
exists" as success, and render the template into the new file.

The model has three modules:

- `Lines` (`lines.dfy`): `TextOf` (lines each followed by a newline, the
  shape of every multi-line template) and `SplitLines`, an independent
  splitter at newlines, with the round trip `SplitTextOf`. The layout lemmas
  state what each rendered file reads as, line by line, through it.
- `CephConf` (`cephconf.dfy`): the records, the templates as functions from a
  record to a string, the file names, `path.Join` against the root, a
  `BaseName` that splits a path at its final slash (the partner of the join),
  and the three path accessors.
- `CephWrite` (`cephwrite.dfy`): an abstract filesystem (directories with
  modes, regular files with mode and content), kept tree-shaped near the
  root by `WellFormed`: no path is both a file and a directory, `/etc/ceph`
  exists only inside `/etc`, and nothing exists below `/etc/ceph` without
  it. `TemplateWrite` is the pure transition of one call of
  `writeCephTemplate`: `MkdirRoot` (the `MkdirAll` step), then
  `CreateTarget` (the exclusive create and the render). The class
  `FileSystem` holds the same state in fields, and its methods update it
  step by step as the Go routine does. Each method's postcondition equates
  the new state and the returned error with the pure function of the old
  state. Operating system answers are an `OsOutcome` argument: whether
  `MkdirAll` fails, whether the exclusive create fails for a reason other
  than existence, and how much of the text reaches the file before an I/O
  error cuts rendering off (a count of characters, see "Left out").

Two consequences of the source that the lemmas make explicit:

- A file whose rendering was interrupted keeps its partial content for
  good. Every later write sees the file exist and reports success
  (`PartialFileIsKept`).
- The osd capability cannot tell a pool named `p namespace=n` from pool `p`
  with namespace `n` (`OsdCapsClausesOverlap`).

The secret file holds exactly the key, with no trailing newline: the secret
template at `pkg/cephfs/cephconf.go:50` is the key placeholder alone.

## Model

| member | source | states |
|---|---|---|
| CephConf.OsdCaps | pkg/cephfs/cephconf.go:40 | the osd capability is "allow rw", then " pool=<pool>" exactly when a pool is given, then " namespace=<namespace>" exactly when a namespace is given; the pool clause sits at offset 8, the namespace clause at the end, so pool always precedes namespace |
| CephConf.OsdCapsClausesOverlap | pkg/cephfs/cephconf.go:40 | a pool name containing " namespace=<n>" with no namespace renders the same capability as the shorter pool with namespace n |
| CephConf.RenderConfig | pkg/cephfs/cephconf.go:26-34 | for every record the configuration is a fixed head, the monitor list verbatim, and a fixed tail |
| CephConf.MonitorsRoundTrip | pkg/cephfs/cephconf.go:26-34 | the monitor list is recovered from the rendered configuration, so distinct records give distinct configurations |
| CephConf.ConfigLayout | pkg/cephfs/cephconf.go:26-34 | split at newlines, the configuration is the eight template lines with `mon_host = <monitors>` second and every other line fixed, then the empty rest after the final newline |
| CephConf.KeyringLayout | pkg/cephfs/cephconf.go:36-41 | split at newlines, the restricted keyring is `[client.<userId>]`, `key = <key>`, the mds capability scoped to the root path, `caps mon = "allow r"`, and `caps osd = "<OsdCaps>"` |
| CephConf.FullCapsKeyringLayout | pkg/cephfs/cephconf.go:43-48 | split at newlines, the full-capability keyring is the section header, the key and the unscoped mds, mon and osd capabilities |
| CephConf.RenderKeyring | pkg/cephfs/cephconf.go:36-41 | renders the restricted keyring; it has no contract of its own, and its text is stated line by line by `KeyringLayout` |
| CephConf.RenderFullCapsKeyring | pkg/cephfs/cephconf.go:43-48 | renders the full-capability keyring; it has no contract of its own, and its text is stated line by line by `FullCapsKeyringLayout` |
| CephConf.RenderSecret | pkg/cephfs/cephconf.go:50 | the secret is the key alone: a key without a newline gives one line with no line terminator |
| CephConf.TemplateExamples | pkg/cephfs/cephconf.go:40-50 | with no pool and no namespace the osd capability is exactly "allow rw"; the secret of key "AQA==" is "AQA==" |
| CephConf.KeyringFileName | pkg/cephfs/cephconf.go:55 | the keyring file name is a single path element exactly when the user id holds no slash |
| CephConf.SecretFileName | pkg/cephfs/cephconf.go:56 | the secret file name is a single path element exactly when the user id holds no slash |
| CephConf.JoinRoot | pkg/cephfs/cephconf.go:96 | joining a plain name to the root gives a path whose final slash separates the root directory from exactly that name |
| CephConf.GetCephSecretPath | pkg/cephfs/cephconf.go:139-141 | the path's directory is the root and its last element is the secret file name |
| CephConf.GetCephKeyringPath | pkg/cephfs/cephconf.go:143-145 | the path's directory is the root and its last element is the keyring file name |
| CephConf.GetCephConfPath | pkg/cephfs/cephconf.go:147-149 | the path's directory is the root and its last element is `ceph.conf` |
| CephConf.PathsInjective | pkg/cephfs/cephconf.go:139-145 | two users share a keyring path, or a secret path, exactly when they are the same user |
| CephConf.PathsDistinct | pkg/cephfs/cephconf.go:52-57 | no keyring path equals any secret path, and the configuration path equals neither |
| CephWrite.MkdirRoot | pkg/cephfs/cephconf.go:92-94 | creating the root fails exactly when it is missing and either the operating system fails or a regular file sits at `/etc` or `/etc/ceph`; an existing root is left alone; otherwise the root and any missing parent are added with mode 0755 and no other directory changes |
| CephWrite.CreateTarget | pkg/cephfs/cephconf.go:96-106 | the exclusive create and the render change no directory and no file but the target; its outcomes are stated on `TemplateWrite` |
| CephWrite.TemplateWrite | pkg/cephfs/cephconf.go:91-107 | the root-creation error is returned exactly when the root is missing and cannot be made, and then nothing changes; otherwise the directories afterwards are exactly those `MkdirRoot` creates, so the root exists even when the create or the render then fails; with the root available and a new target, the create fault gives `CreateFailed` and no new file, an interrupted render gives `ExecuteFailed` and the prefix written so far, otherwise success with exactly the text at the given mode; only the target file may change; an existing file never changes; in a well-formed state an existing target gives success with no change; directories are only added (root and parent, mode 0755); well-formedness is kept |
| CephWrite.WriteIsIdempotent | pkg/cephfs/cephconf.go:96-100 | after a write that succeeded or left a partial file, any second write to the same name, with any text, mode or OS outcome, returns success and changes nothing |
| CephWrite.PartialFileIsKept | pkg/cephfs/cephconf.go:104-106 | a file whose rendering was interrupted differs from the text and stays as it is through every later write, which reports success |
| CephWrite.ConfigWrite | pkg/cephfs/cephconf.go:109-111 | changes no file but `GetCephConfPath()`; with no fault and a fresh target it succeeds and stores the rendered configuration there with mode 0640 |
| CephWrite.KeyringWrite | pkg/cephfs/cephconf.go:119-121 | changes no file but the user's `GetCephKeyringPath`; with no fault and a fresh target it succeeds and stores the rendered restricted keyring there with mode 0600 |
| CephWrite.FullCapsKeyringWrite | pkg/cephfs/cephconf.go:127-129 | changes no file but the user's `GetCephKeyringPath`; with no fault and a fresh target it succeeds and stores the rendered full-capability keyring there with mode 0600 |
| CephWrite.SecretWrite | pkg/cephfs/cephconf.go:135-137 | changes no file but the user's `GetCephSecretPath`; with no fault and a fresh target it succeeds and stores the bare key there with mode 0600 |
| CephWrite.SecretWriteKeepsOtherFiles | pkg/cephfs/cephconf.go:135-137 | writing a secret leaves every user's keyring and the configuration as they were, present or absent |
| CephWrite.KeyringWriteKeepsOtherFiles | pkg/cephfs/cephconf.go:119-121 | writing a restricted keyring leaves every user's secret and the configuration as they were, present or absent |
| CephWrite.FullCapsKeyringWriteKeepsOtherFiles | pkg/cephfs/cephconf.go:127-129 | writing a full-capability keyring leaves every user's secret and the configuration as they were, present or absent |
| CephWrite.KeyringKindsShareFile | pkg/cephfs/cephconf.go:119-129 | once either keyring kind has been written for a user, writing the other kind for that user succeeds and changes nothing |
| CephWrite.FileSystem.MkdirAll | pkg/cephfs/cephconf.go:92-94 | the directories afterwards are those `MkdirRoot` gives for the old state, and on failure nothing changes; no file changes |
| CephWrite.FileSystem.CreateAndRender | pkg/cephfs/cephconf.go:96-106 | the new state and the returned error are those of `CreateTarget` on the old state |
| CephWrite.FileSystem.WriteCephTemplate | pkg/cephfs/cephconf.go:91-107 | the new state and the returned error are those of `TemplateWrite` on the old state; the tree-shaped invariant `Valid` is kept |
| CephWrite.FileSystem.WriteConfig | pkg/cephfs/cephconf.go:109-111 | writes the rendered configuration as `ceph.conf` with mode 0640 |
| CephWrite.FileSystem.WriteKeyring | pkg/cephfs/cephconf.go:119-121 | writes the rendered restricted keyring under the keyring file name with mode 0600 |
| CephWrite.FileSystem.WriteFullCapsKeyring | pkg/cephfs/cephconf.go:127-129 | writes the rendered full-capability keyring under the keyring file name with mode 0600 |
| CephWrite.FileSystem.WriteSecret | pkg/cephfs/cephconf.go:135-137 | writes the key under the secret file name with mode 0600 |

## Left out

- The `text/template` engine and the `template.Must` setup in `init`: each template is an explicit string function instead. Rendering is total, since every field is a string.
- The `perms` template function: it is registered but no template uses it.
- The `cephConfigWriter` interface: it only dispatches to the four writers, which are modelled one by one.
- Real operating-system calls: `MkdirAll`, `OpenFile` and the writes are replaced by the abstract state. Their failures come from an `OsOutcome` argument, except two that the state decides: a regular file at `/etc` or `/etc/ceph` makes `MkdirAll` fail.
- A failed `MkdirAll` may already have created `/etc` in reality; the model leaves the directories unchanged on that error.
- The error of the deferred `Close` is discarded by the source and is not modelled.
- The umask, permission enforcement, symbolic links and races between processes on the exclusive create are operating-system behaviour and concurrency. They are not modelled.
- Which error value is returned is modelled only as its kind (`MkdirFailed`, `CreateFailed`, `ExecuteFailed`).
- CephConf.GetCephSecretPath: requires a user id without a slash, because the lexical cleaning of `path.Join` (`..`, repeated slashes) is not modelled.
- CephConf.GetCephKeyringPath: requires a user id without a slash, for the same reason.
- CephWrite.FileSystem.WriteKeyring: requires a user id without a slash, for the same reason.
- CephWrite.FileSystem.WriteFullCapsKeyring: requires a user id without a slash, for the same reason.
- CephWrite.FileSystem.WriteSecret: requires a user id without a slash, for the same reason.
- CephWrite.KeyringWrite: requires a user id without a slash, for the same reason.
- CephWrite.FullCapsKeyringWrite: requires a user id without a slash, for the same reason.
- CephWrite.SecretWrite: requires a user id without a slash, for the same reason.
- CephConf.RenderSecret: states the single-line reading only for keys without a newline; for every key the body is the key itself.
- CephWrite.CreateTarget: its own contract states only what it may change. The outcome of each fault is stated on `TemplateWrite`, which is the function the writers and the methods are tied to.
- Strings are sequences of characters, while Go strings are bytes. Field values that are not valid UTF-8 cannot be expressed. The prefix an interrupted render leaves is a prefix counted in characters, whereas the real file keeps a byte prefix that may end inside a multi-byte character.
- CephConf.ConfigLayout: states the line layout only for monitor lists without a newline (a newline in a field adds lines); the contract of `RenderConfig` covers every input.
- CephConf.KeyringLayout: states the line layout only for fields without a newline, for the same reason.
- CephConf.FullCapsKeyringLayout: states the line layout only for a user id and key without a newline, for the same reason.
