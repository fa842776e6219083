# vault-init, modelled in Dafny

vault-init initializes a HashiCorp Vault server and keeps the result of the initialization (the
unseal or recovery key shares and the root token) safe. It does three things:

- it polls the server's init status and initializes it once;
- it rotates the unseal or recovery keys and the root token;
- it persists the init response through a save method (a file, a Vault KV secret, a
  Kubernetes secret).

The repository holds:

- a Go implementation: the `sealops` package, the older `main.go` program, the `save`
  package and the environment helpers of `util`;
- a Rust rewrite: `src/main.rs` and the Kubernetes-secret save method.

This project models that orchestration and proves what it guarantees.

## How the outside world is modelled

- **The remote parties.** The Vault server, the configured save method and the
  Kubernetes-secret saver of `main.go` are one oracle, `Remote.Server`:
  - every call is appended to a trace `seq<Event>`;
  - it is answered by a fixed function of the trace so far.

  The server can therefore answer anything, including errors and changes over time, and
  each property holds for every such answer.
- **Operations and their specifications.** Each operation is an imperative method that
  drives the oracle. It is proved equal to a specification function of the history before
  the call. The ordering guarantees are lemmas about those functions. Examples:
  - init only when uninitialized;
  - save before revoking the old root token;
  - no key submitted after completion.
- **Files, KV secrets and cluster secrets.** These are maps:
  - files: `FileSystem.Disk`;
  - KV secrets: `VaultKvSave.KvStore`;
  - cluster secrets: `KubeSecret.Cluster`, keyed by namespace and name, with a
    resource-version counter.

  Each store has its own refusal sets, for permission errors.
- **The process environment.** It is a map: `Env.Environment`. The order in which
  `os.Environ` or a Go `range` lists a map is returned as a sequence. Every property holds
  for any such order.
- **JSON.** It is abstract (`Codec.Text`). `Encoded(doc)` stands for every text that
  decodes to `doc`: its encoding, but also Go's `null` or `{}`, which decode to the zero
  document. `Raw(s)` is a text that does not decode at all. Decoding the encoding gives the
  document back.
- **Panics.** A nil pointer dereference becomes the outcome `Crash`.
- **Base64.** The standard alphabet without padding (section 4 and section 3.2 of
  RFC 4648) is modelled concretely, with Go's non-strict behaviour: line breaks are
  skipped and trailing bits are ignored.
- **Wall-clock timeouts.** They become a number of polls.
- **`log.Fatal`.** It becomes a terminal `Fatal` exit.

## Model

| member | source | states |
|---|---|---|
| Codec.Marshal | internal/pkg/save/save_file.go:36-40 | encoding a document gives a text that stands for that document |
| Codec.Unmarshal | internal/pkg/save/save_file.go:63-67 | decoding succeeds exactly on an encoded document, and what it returns re-encodes to the same text |
| Base64.RoundTrip | internal/pkg/sealops/vaultinit.go:387 | RawStdEncoding decoding undoes encoding for every byte string |
| Base64.QuantumRoundTrip | internal/pkg/sealops/vaultinit.go:387 | the four sextets of any three bytes decode back to those three bytes |
| Base64.LoneCharacterRejected | internal/pkg/sealops/vaultinit.go:387-390 | a single character left over after the full four-character groups is a decoding error |
| Base64.RawLoneCharacterRejected | internal/pkg/sealops/vaultinit.go:387-390 | the decoder DecodeRoot calls fails when the input without line breaks leaves one character after the groups of four |
| Base64.RawPaddingRejected | internal/pkg/sealops/vaultinit.go:387-390 | the decoder DecodeRoot calls fails on a '=' anywhere in the input, since stripping line breaks keeps it |
| Base64.PaddingRejected | internal/pkg/sealops/vaultinit.go:387-390 | the pad character '=' anywhere in the input makes the raw (unpadded) decoder fail |
| Base64.SextetOfCharOf | internal/pkg/sealops/vaultinit.go:387 | the alphabet lookup and its inverse agree on every 6-bit value |
| Base64.StripNewlinesNoop | internal/pkg/sealops/vaultinit.go:387 | the encoder's output has no line breaks, so the decoder's skipping of them leaves it unchanged |
| Remote.Server.Call | internal/pkg/sealops/vaultinit.go:92 | a call is appended to the trace and answered from the trace including it |
| Remote.AsProgress | internal/pkg/sealops/vaultinit.go:172-182 | an update reply is read as progress when it carries one, and as an error otherwise |
| Remote.AsFlag | internal/pkg/sealops/vaultinit.go:92-97 | an init-status reply is read as the flag when it carries one, and as an error otherwise |
| Remote.AsProcess | internal/pkg/sealops/vaultinit.go:141-148 | a status reply of a rekey or generate-root process is read as that status, and as an error otherwise |
| Remote.AsResponse | internal/pkg/sealops/vaultinit.go:103-116 | an init reply is read as the init response when it carries one, and as an error otherwise |
| Remote.AsLoaded | internal/pkg/sealops/vaultinit.go:150-154 | a load reply is its error, a response, or, for a nil response with no error, no response and no error |
| Remote.AsOutcome | internal/pkg/sealops/vaultinit.go:175-178 | a reply without payload is success or its error |
| Remote.AsText | internal/pkg/sealops/vaultinit.go:121-127 | a save reply is read as the location when it carries one, and as an error otherwise |
| KeySubmission.SubmitKeys | internal/pkg/sealops/vaultinit.go:170-189 | the for-loop with break and early return makes exactly the calls of KeyLoop and ends as it does |
| KeySubmission.KeyLoopTrace | internal/pkg/sealops/vaultinit.go:170-189 | the loop submits a prefix of the keys in order, all against the one nonce, followed by one cancel exactly when it aborted; an incomplete end sent every key |
| KeySubmission.KeyLoopReplies | internal/pkg/sealops/vaultinit.go:172-188 | every update before the last was answered incomplete; the last one completed the process (Completed and its payload), failed (Aborted) or was incomplete too (Exhausted) |
| KeySubmission.NoUpdateAfterCompletion | internal/pkg/sealops/vaultinit.go:182-188 | no key is submitted after a reply that reports the process complete |
| KeySubmission.CancelOnlyOnAbort | internal/pkg/sealops/vaultinit.go:173-181 | a cancel is made exactly when an update failed, and it is the loop's last call |
| KeySubmission.Updates | internal/pkg/sealops/vaultinit.go:170-172 | the i-th update sends the i-th key with the process nonce |
| SealOps.VaultInitializer.constructor | internal/pkg/sealops/vaultinit.go:73-85 | the options are applied in order to the zero settings |
| SealOps.VaultInitializer.Init | internal/pkg/sealops/vaultinit.go:89-131 | the polling loop with continue and early returns makes exactly the calls of InitAttempts and returns what it returns |
| SealOps.AttemptShape | internal/pkg/sealops/vaultinit.go:90-128 | one poll retries after a status error or an init error, returns nil right after a status saying initialized, and otherwise returns right after its one save, which saves the init call's reply, with the save's result |
| SealOps.AttemptParts | internal/pkg/sealops/vaultinit.go:90-128 | every poll reads the status exactly once; a retry saves nothing; a stop either returns nil right after a status saying initialized, without saving, or ends with its one save, of the reply of the init call just before it, and returns that save's result |
| SealOps.InitPollsBounded | internal/pkg/sealops/vaultinit.go:90 | Init only extends the history and reads the status at most once per allowed poll |
| SealOps.InitAlreadyInitialized | internal/pkg/sealops/vaultinit.go:97-100 | a first status read saying initialized makes Init return nil after that one call |
| SealOps.InitWithoutSave | internal/pkg/sealops/vaultinit.go:89-131 | a run that never saved ended on a status saying initialized (nil) or used every poll (the timeout error); status and init errors are never returned |
| SealOps.InitOnlyWhenUninitialized | internal/pkg/sealops/vaultinit.go:97-112 | every init call comes right after a status read reporting the server not initialized |
| SealOps.InitSavesOnceLast | internal/pkg/sealops/vaultinit.go:119-127 | a run that saved did so once, as its last call, saving the reply of the init call just before it, and returns that save's result; a failed save is not retried |
| SealOps.VaultInitializer.RekeyKeys | internal/pkg/sealops/vaultinit.go:135-308 | Rekey and RekeyRecoveryKey, which differ only in the key set, make exactly the calls of RekeySpec |
| SealOps.VaultInitializer.Rekey | internal/pkg/sealops/vaultinit.go:135-219 | Rekey is RekeySpec for the unseal keys |
| SealOps.VaultInitializer.RekeyRecoveryKey | internal/pkg/sealops/vaultinit.go:224-308 | RekeyRecoveryKey is RekeySpec for the recovery keys |
| SealOps.RekeyOpening | internal/pkg/sealops/vaultinit.go:136-168 | verification with PGP keys fails before any call; otherwise the status is read first, a started process is refused, the load comes only after a status saying not started, and the start call, with the kind's parameters, only after a successful load |
| SealOps.RekeyNilLoad | internal/pkg/sealops/vaultinit.go:150-170 | a panicking load crashes the rekey at once; a nil response with no error lets the start call go out, and the rekey then fails with its error or crashes at the key loop |
| SealOps.CheckAndLoadShape | internal/pkg/sealops/vaultinit.go:141-154 | the process status is read first; the load follows only a status saying not started, and a started process fails with the busy message; a load error stops the operation, a panicking load crashes it, and a nil response with no error is passed on |
| SealOps.OpenRekeyShape | internal/pkg/sealops/vaultinit.go:136-168 | a rekey that stops before its key loop never saves and does not succeed; blocked PGP verification fails before any call; the start call follows a successful load and carries the kind's request; it crashes only on a panicking load, or on a nil response once the start call succeeded |
| SealOps.RekeyClosing | internal/pkg/sealops/vaultinit.go:170-218 | updates submit the stored shares in order against the nonce; an aborted loop returns without saving; otherwise the (rekeyed or unchanged) response is saved once, right after the loop; nil only after a successful save |
| SealOps.RekeyVerifiesSavedRecoveryKeys | internal/pkg/sealops/vaultinit.go:198-216 | the verification updates submit the saved response's recovery keys in order, for both kinds |
| SealOps.Rekeyed | internal/pkg/sealops/vaultinit.go:182-188 | a completed rekey replaces the rotated key set, in both spellings, with the new one, and leaves the other fields; any other end leaves the response as loaded |
| SealOps.VaultInitializer.RotateRoot | internal/pkg/sealops/vaultinit.go:312-384 | makes exactly the calls of RotateRootSpec and returns what it returns |
| SealOps.RotateRootOpening | internal/pkg/sealops/vaultinit.go:313-339 | the status is read first, a started process is refused, the load follows a status saying not started, the pad is made after a successful load, and the start call carries that pad and the configured PGP key |
| SealOps.RotateNilLoad | internal/pkg/sealops/vaultinit.go:322-341 | a panicking load crashes the rotation at once; a nil response with no error lets the pad and the start call go out, and the rotation then fails with the first of their errors or crashes when the keys are chosen |
| SealOps.OpenRotateShape | internal/pkg/sealops/vaultinit.go:313-339 | a rotation that stops before its key loop neither saves nor revokes and does not succeed, crashing only on a panicking load or on a nil response once the start call succeeded; the status, load, pad (26 characters) and start calls come in that order, each only after the previous one succeeded |
| SealOps.RotateRootClosing | internal/pkg/sealops/vaultinit.go:341-375 | updates submit the unseal keys, or the recovery keys when there are none; an abort or an undecodable token returns before any save; otherwise the next call saves the response, with the decoded token on completion |
| SealOps.RotateRootSavesBeforeRevoke | internal/pkg/sealops/vaultinit.go:370-383 | a run fails or crashes with neither save nor revocation, or with its only save failed, or revokes the current token right after its only, successful save and returns that result |
| SealOps.FinishRotateSavesBeforeRevoke | internal/pkg/sealops/vaultinit.go:347-383 | from the key loop on, the token is revoked only right after the one successful save |
| SealOps.DecodeRoot | internal/pkg/sealops/vaultinit.go:386-399 | a base64 error or an xor error is returned; otherwise the token is the xor result as a string |
| SealOps.DecodeRootRoundTrip | internal/pkg/sealops/vaultinit.go:386-399 | a token encoded as decodeRoot expects is recovered as the xor helper's result |
| SealOps.ByteString | internal/pkg/sealops/vaultinit.go:396 | Go's string(bytes) keeps the length and each byte |
| SealOps.LoopCalls | internal/pkg/sealops/vaultinit.go:170-189 | a key loop neither saves nor revokes, and its k-th update submits the k-th key |
| FileSystem.Disk.WriteFile | store_file.go:22 | the file at the path is replaced by the content and no other file changes; a locked path is an error and changes nothing |
| FileSystem.Disk.ReadFile | internal/pkg/save/save_file.go:56-60 | the file's content, or the error for a locked or missing path |
| FileSystem.ReadSpec | internal/pkg/save/save_file.go:56-60 | reading succeeds exactly on readable existing paths, with the stored content |
| FileSave.FileSaveMethod.constructor | internal/pkg/save/save_file.go:20-29 | the path, then the options applied in order; it never fails |
| FileSave.FileSaveMethod.Save | internal/pkg/save/save_file.go:33-50 | the file at FilePath holds the JSON of the response and nothing else changed; the location is FilePath, or the write error |
| FileSave.SaveResult | internal/pkg/save/save_file.go:43-49 | Save returns the path exactly when the path is writable |
| FileSave.FileSaveMethod.Load | internal/pkg/save/save_file.go:53-71 | the read error, the decode error, or the decoded response |
| FileSave.LoadSpec | internal/pkg/save/save_file.go:53-71 | Load succeeds exactly when the file is readable and holds an encoding, and returns that document |
| FileSave.SaveLoadRoundTrip | internal/pkg/save/save_file.go:33-71 | a Save that succeeded is read back by Load as the same response |
| VaultKvSave.VaultKvSaveMethod.constructor | internal/pkg/save/save_vaultkv.go:32-60 | the secret path, the options in order, then each empty setting takes its default |
| VaultKvSave.WithDefaults | internal/pkg/save/save_vaultkv.go:49-57 | empty settings take "secret", "vault-init.json" and "root_token"; non-empty ones are kept |
| VaultKvSave.JoinPath | internal/pkg/save/save_vaultkv.go:74 | path.Join of slash-free elements is empty exactly when every element is; otherwise it is the non-empty elements joined by "/" and cleaned of "." and ".." |
| VaultKvSave.FullPathShape | internal/pkg/save/save_vaultkv.go:62-93 | under a mount path that is not empty, "." or "..", Save and Load address mountPath + "/data/" + secretPath for such a secret path, or mountPath + "/data" for an empty one |
| VaultKvSave.FullPathDots | internal/pkg/save/save_vaultkv.go:74 | Clean removes a secret path "." and lets ".." cancel "data"; a mount path "." is dropped and ".." kept in front |
| VaultKvSave.SaveBody | internal/pkg/save/save_vaultkv.go:75-80 | the body holds a "data" object with the JSON under the init key and the root token under the token key, the token winning when the keys are equal |
| VaultKvSave.VaultKvSaveMethod.Save | internal/pkg/save/save_vaultkv.go:64-87 | the store holds SaveBody at the full path, and the location is that path, or the write error with nothing written |
| VaultKvSave.KvStore.Write | internal/pkg/save/save_vaultkv.go:75 | a refused path is an error and changes nothing; otherwise only that entry is replaced |
| VaultKvSave.ReadSpec | internal/pkg/save/save_vaultkv.go:94 | a refused path gives an error and no secret; a missing one gives neither; otherwise the secret |
| VaultKvSave.KvStore.Read | internal/pkg/save/save_vaultkv.go:94 | a read returns exactly ReadSpec of the store |
| VaultKvSave.LoadFrom | internal/pkg/save/save_vaultkv.go:99-130 | a nil secret panics; a missing or wrong-shaped "data" or key gives no response and the read's error; a string holding an encoding gives that response and no error |
| VaultKvSave.VaultKvSaveMethod.Load | internal/pkg/save/save_vaultkv.go:90-131 | Load is LoadFrom of the read at the full path under the init-response key |
| VaultKvSave.SaveLoadRoundTrip | internal/pkg/save/save_vaultkv.go:64-131 | with distinct keys, a written secret loads back as the saved response |
| VaultKvSave.CollidingKeysLoseResponse | internal/pkg/save/save_vaultkv.go:76-79 | with equal keys the root token replaces the JSON, and Load of the written secret fails to decode |
| VaultKvSave.UnreadableSecretPanics | internal/pkg/save/save_vaultkv.go:94-99 | a refused or missing secret makes Load dereference nil: the read error is never returned |
| VaultKvSave.MissingKeyGivesNilNil | internal/pkg/save/save_vaultkv.go:110-114 | a secret read without error that lacks the key gives neither a response nor an error |
| Save.UnsetAndSetEnv | internal/pkg/save/save.go:21-35 | every unset name is removed, then the set entries are applied in the range order, stopping at the first failing Setenv with its error |
| Save.UnsetAndSetEffect | internal/pkg/save/save.go:21-35 | success exactly when Setenv accepts every set entry, and then the environment is the old one minus the unset names, overlaid with the set map; a name in neither map is untouched; a name in both ends with its set value unless a failure stopped the loop first |
| Save.SetAllAt | internal/pkg/save/save.go:28-33 | the set loop fails exactly when some entry is refused; names it does not set are untouched; a name it sets holds its value unless the loop stopped first |
| Env.Environment.Setenv | internal/pkg/util/env.go:15 | an empty name, or a '=' or NUL in the name, or a NUL in the value, is refused with an error and no change; otherwise that one variable is set |
| Env.Environment.Unsetenv | internal/pkg/util/env.go:16 | the variable is removed and nothing else changes |
| Env.ListMap | internal/pkg/util/env.go:9 | the listing holds every variable exactly once, with its value |
| Env.Environment.Environ | internal/pkg/util/env.go:9 | os.Environ lists every variable exactly once, with its value |
| Env.SetVar | internal/pkg/util/env.go:15 | an accepted name and value are set; a refused pair changes nothing; no other name is affected |
| Env.SplitEntryOfEntry | internal/pkg/util/env.go:11-13 | SplitN on "=" of a name=value entry gives the name and the whole value back, also when the value holds '=' |
| Env.SplitEntry | internal/pkg/util/env.go:11 | without '=' the text is the one part; otherwise the two parts rejoin with '=' to the text and the first has no '=' |
| Env.TrimPrefix | internal/pkg/util/env.go:27 | a present prefix is removed and a missing one leaves the text alone |
| Env.Environment.EnvBackup | internal/pkg/util/env.go:8-19 | over a listing of the environment taken at the start, the result is BackupSpec of that listing |
| Env.Environment.EnvRestore | internal/pkg/util/env.go:21-33 | over a listing taken at the start, the result is RestoreSpec of that listing |
| Env.Environment.EnvClear | internal/pkg/util/env.go:35-44 | over a listing taken at the start, the result is ClearSpec of that listing |
| Env.ClearRemovesExactly | internal/pkg/util/env.go:35-44 | EnvClear removes exactly the variables whose entry starts with the prefix; the others keep their values |
| Env.EmptyBackupPrefixClears | internal/pkg/util/env.go:15-16 | with an empty backup prefix EnvBackup deletes what it matches, as EnvClear with the filter prefix does |
| Env.MoveAllAt | internal/pkg/util/env.go:9-32 | when the moves are independent, a matched variable is gone, its value is under its new name, and every other name is as before |
| Env.BackupPointwise | internal/pkg/util/env.go:8-19 | a matched variable moves to backupPrefix + its name with its value, the others stay, and nothing else appears |
| Env.BackupRestoreRoundTrip | internal/pkg/util/env.go:8-33 | EnvBackup(b, f) then EnvRestore(b) gives back the original environment when b is non-empty, has no '=' or NUL, and no variable starts with b, whatever order the listings take |
| LegacyMain.LookupSaveFunc | main.go:92-95 | a save function exists exactly for "file" and "kube-secret" |
| LegacyMain.MainRotate | main.go:105-120 | with --rotate an empty VAULT_INIT_JSON and an undecodable one exit fatally at once; otherwise rekey runs first on the decoded response, a fatal rekey ends main, and rotateRoot then runs on the response as rekey left it and stored, submitting the rekeyed recovery keys |
| LegacyMain.MainOpening | main.go:92-123 | an unsupported --save value exits fatally before any call, and only then is nothing called; otherwise the client is created first, and without --rotate every later call belongs to initialize |
| LegacyMain.Program.Start | main.go:91-123 | main from the lookup on makes exactly the calls of MainSpec and exits as it does |
| LegacyMain.Program.SaveToFilePath | store_file.go:16-28 | the file at --file-path holds the JSON of the response and is the location, or the write error |
| LegacyMain.Program.CallSaveFunc | main.go:66-69 | the selected save function writes the file or makes the Kubernetes-secret save call |
| LegacyMain.Program.SaveWithFallback | main.go:154-162 | on a failed save --save becomes "file" and the file is written; a failed fallback exits fatally with the given message |
| LegacyMain.FallbackPersists | main.go:154-162 | the fallback finishes exactly when the configured save or the file write succeeded, and then the response is stored; other files are untouched |
| LegacyMain.Program.Initialize | main.go:128-167 | the polling loop makes exactly the calls of InitializeSpec and exits as it does |
| LegacyMain.InitializeOnlyInits | main.go:128-167 | initialize only polls, sends init requests with the recovery settings alone, and saves; it fails only by timeout or lost keys; it finishes only after a poll saying initialized or once the reply of its last init call is stored |
| LegacyMain.PollCalls | main.go:130-164 | one poll only adds the status call, init calls and a save; a fatal settle is the lost-keys exit; a finished settle follows a status saying initialized or has stored the reply of its init call |
| LegacyMain.Program.RekeyRecoveryKeys | main.go:171-222 | rekey makes exactly the calls of RekeySpec, and the shared response afterwards is the one it specifies |
| LegacyMain.LegacyRekeyStores | main.go:171-222 | rekey opens with the recovery rekey status, submits the stored recovery keys in order, never revokes, changes only the recovery keys, and when it finishes the response is stored |
| LegacyMain.FinishRekeyStores | main.go:191-221 | from the key loop on, updates submit the next recovery key, only the recovery keys change, and a finished run has stored the response |
| LegacyMain.Program.RotateRoot | main.go:226-283 | rotateRoot makes exactly the calls of RotateRootSpec, and the shared response afterwards is the one it specifies |
| LegacyMain.LegacyRotationRevokesAfterStoring | main.go:226-283 | rotateRoot opens with the generate-root status, submits the recovery keys in order, changes only the root token, and revokes only as its last call, after the response has been stored |
| LegacyMain.FinishRotationStores | main.go:246-282 | from the key loop on, updates submit the recovery keys in order, and the revocation is last and after storing |
| LegacyMain.SaveThenRevokeStores | main.go:268-281 | the response is stored before the revocation, which is the last call, and only saves and revokes are made |
| LegacyMain.OpenRotationCalls | main.go:227-244 | the status call comes first, then the pad, then the start call with the pad and an empty PGP key |
| LegacyMain.OpenRekeyCalls | main.go:172-189 | the status call comes first, then the start call with the recovery shares and threshold only |
| RustMain.ParseArgs | src/main.rs:11-60 | the address comes from the flag, else VAULT_ADDR, else the local default; shares and threshold default to 1; the other fields are as given |
| RustMain.FromArgs | src/main.rs:79-92 | the request copies the eight init fields of the arguments unchanged |
| RustMain.FromArgsCopiesInitFields | src/main.rs:79-92 | two argument sets give the same request exactly when they agree on all but the address |
| RustMain.Run | src/main.rs:138-168 | main makes exactly the calls of MainSpec and returns what it returns |
| RustMain.VaultClient.ReadInitStatus | src/main.rs:114-121 | the status call is recorded and its answer read as the initialized flag, or the error |
| RustMain.VaultClient.StartInit | src/main.rs:123-135 | the init call with the request is recorded and its answer read as the init response, or the error |
| RustMain.MainDecision | src/main.rs:147-167 | the status is read first; a failed read is returned and no init follows; an initialized server gets no init call; otherwise exactly one init call with the request from the arguments, and Ok |
| RustMain.InitAnswerIgnored | src/main.rs:161-167 | the init call's answer never changes main's calls or outcome |
| KubeSecret.Address | src/save/kube_secret.rs:37-46 | the configured namespace or the client's default, and the configured name or "vault-init", the same for save and load |
| KubeSecret.DataKey | src/save/kube_secret.rs:42 | the configured key or "init.json", the same for save and load |
| KubeSecret.KubeSecretMethod.SaveInit | src/save/kube_secret.rs:32-81 | save_init changes the cluster and returns exactly as SaveSpec says |
| KubeSecret.SaveSpec | src/save/kube_secret.rs:32-81 | without a client configuration the save fails with nothing changed; an existing readable secret without overwrite is refused; a failed save leaves the cluster unchanged; a successful one bumps the resource version and leaves the addressed secret present |
| KubeSecret.SaveWrites | src/save/kube_secret.rs:43-78 | a successful save writes only the addressed secret, at a fresh resource version, with exactly one data entry (the key and the JSON) and the configured labels and annotations; a failed one changes nothing |
| KubeSecret.SaveBranches | src/save/kube_secret.rs:58-78 | an existing readable secret without overwrite is an error with nothing written; with overwrite it is replaced carrying its resource version; any failed get leads to a create |
| KubeSecret.Cluster.Create | src/save/kube_secret.rs:75-77 | a create is refused for a denied or existing secret; otherwise only that secret is stored |
| KubeSecret.Cluster.Replace | src/save/kube_secret.rs:70-73 | a replace is refused when denied, missing, or at another resource version; otherwise only that secret is stored |
| KubeSecret.Cluster.Get | src/save/kube_secret.rs:58 | a get fails for a secret that may not be read or is absent, and otherwise returns it |
| KubeSecret.KubeSecretMethod.LoadInit | src/save/kube_secret.rs:86-110 | load_init returns exactly what LoadSpec says |
| KubeSecret.LoadSpec | src/save/kube_secret.rs:86-110 | load succeeds exactly when the client, the get, the data, the key, UTF-8 and the JSON all succeed, and it returns the document stored |
| KubeSecret.LoadErrors | src/save/kube_secret.rs:96-107 | each failing step of the load chain gives its own error: forbidden or not found, no data, the missing key, invalid UTF-8, or the JSON error |
| KubeSecret.SaveLoadRoundTrip | src/save/kube_secret.rs:32-110 | a successful save is loaded back as the same response under the same configuration |

## Left out

- HTTP transport: the Vault API client, reqwest, `error_for_status`, async. Each call
  becomes one oracle event whose reply is arbitrary.
- The Kubernetes client: `kube::Client::try_default` is a configured flag. The API server
  is a map with resource versions and refusal sets.
- The `saveKubeSecret` function of the older program: it is not part of this model. It is
  one remote save call whose reply decides success.
- Remote.Reply: only a Load can return nil with no error or panic. The model lets any
  call return those replies, and every operation other than a load reads them as an error.
- VaultKvSave.CollidingKeysLoseResponse: a root token is taken as a text that never
  decodes as an init response. A token that did, such as `{}`, would load as the zero
  response instead.
- Libraries:
  - JSON encoding and decoding are abstract;
  - `json.Marshal` of the init response cannot fail (strings only), so that error branch
    is not modelled;
  - Vault's xor helper is a parameter: its length behaviour is not visible;
  - `base62.Random` is a remote event `GenerateOtp(26)`.
- Logging, flag parsing, `--version` and log-level set-up. `log.Fatal` becomes a `Fatal`
  exit.
- Time: every `time.Now`, `time.Sleep` and timeout becomes a number of polls.
- Default Vault client construction (`vaultapi.NewClient`). The KV save method is always
  given a client, so its constructor's error branch is not modelled.
- `path.Join` cleaning: `VaultKvSave.JoinPath` models it, "." and ".." included, only
  for elements without slashes.
- KV version 2 metadata: the engine keeps the last body written at each path.
- Env: names that are empty or contain '=' are never set by these helpers, because Setenv
  refuses them. An inherited environment can still hold an entry such as "=v".
  `Env.BackupRestoreRoundTrip` therefore requires `EnvOk`: without it the round trip loses
  such an entry, since the backup's Setenv succeeds and the restore's Setenv("") fails.
- Env: an os.Environ entry without '=' makes `s[1]` panic in internal/pkg/util/env.go:13 and :26. The model's
  entries are always `name=value`, so it cannot represent that entry.
- The environment helpers ignore the errors of Setenv and Unsetenv. os.Unsetenv cannot
  fail on the platforms targeted, so `Save.UnsetAndSetEnv` has no unset-error branch.
- Env.Environment.Environ: os.Environ returns entries in the order the process keeps them.
  The model returns an arbitrary listing; every property holds for any listing.
- SealOps.ByteString: a byte string becomes a string of one character per byte; UTF-8
  decoding of the token is not modelled.
- The `SaveMethod` interface of `save.go` and the `Save`/`Load` traits of the Rust rewrite
  are not modelled as types: Dafny traits are not used. Each save method is its own class.
- The Rust configuration file (`src/config.rs`): there is no code that saves to or loads
  from both optional back-ends, so there is nothing to model.
- The Rust `File` back-end (`src/save/file.rs`): it has no save or load implementation.
- `src/k8s.rs`: an older create-only wrapper with no decisions of its own.
- RustMain.ParseArgs: clap's parsing errors (a malformed URL, a value above 255) are not
  modelled.
- The test helper `createTestVault`: it needs a real server.
