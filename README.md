# Habitat core, modelled in Dafny

This project models the core of Habitat, a system that packages, runs and supervises applications. The model covers:

- **Service configuration (Supervisor).** A service's configuration is layered: package defaults, then environment, then user, then gossip. Layers are merged recursively, key by key, with later layers winning and a depth limit on nested merges. The merged table is emitted as a sequence of entries: scalars first, then arrays, then tables, each group in ascending key order; turning that sequence into TOML text is left to the serializer. Configuration files are compiled only when their rendered text differs from what is on disk.
- **Manager (Supervisor).** The state directory's layout (data, composites, member id, lock and spec-file paths), the start-up removal of dirty `.tmp` and `.health` entries from the data directory, the process lock that keeps a second Supervisor out, and the text of the process and service status.
- **Locked environment variables.** The test helper that records a variable when its lock is taken and puts it back when the lock is dropped.
- **Service lifecycle (Supervisor).** Load, tick, start, stop, restart, reconfigure, reload, the hooks, the pid file (create, read, clean up), change of state, and the check for a process that has died.
- **Gossip rumor store.** Rumors are kept under one slot per key and member. Inserting into an occupied slot asks the rumor type's merge, a parameter of the store, whether to share the existing rumor, share a new one or stop sharing. The update counter wraps at the width of `usize`.
- **Protocol types.**
  - The protocol enums (election status, health check, process state, smoke check, start style, topology, update strategy) with their defaults; the display texts of election status, process state, start style, topology and update strategy, and the parsing of the last two; the service bind's display text.
  - The optional-field messages with getters and setters.
  - The exported-configuration walk of the protocol crate.
  - The build scripts that choose which protocol files are compiled.
- **Launcher client.** The spawn, terminate and restart messages, and the stop flag.
- **HTTP gateway.** The service routes and their status replies.
- **Stopping a process.**
  - On Unix: a SIGTERM, a polling wait, then a SIGKILL.
  - On Windows: a process-tree table, then the descendants are terminated children first.
- **Builder worker.** Its configuration (defaults, the TOML file, the job server addresses) and its server state machine (heartbeat, job dispatch, runner completion, feature flags).
- **Builder API prototype.** A bearer-guarded origin store, in the form of section 2.1 of RFC 6750.
- **Notification service.** Its messages, the notification category (default, text form, parsing) and the routing key of a create request.
- **Web app.** The Builder web app's route guards.
- **pcreate.** The script that creates one Builder project per core plan.

Code that works step by step is modelled as classes whose fields methods update, or as methods with loops. Each such method is proved against a specification function. Pure code is modelled as datatypes, functions and lemmas.

Inputs and oracles: the file system, the clock, the operating system's process calls, parsed TOML and JSON values, rendered templates and server responses. The model takes each of these as a parameter, or as a value of an input datatype such as `World` or `Env`.

## Model

| member | source | states |
|---|---|---|
| GeneratedTypes.OrElse | components/sup-protocol/src/generated/types.rs:125-130 | a getter returns the stored value when the field is set and the field's declared default when it is not |
| GeneratedTypes.SingularField.Clear | components/sup-protocol/src/generated/types.rs:98-100 | `clear_x` leaves the field unset |
| GeneratedTypes.SingularField.Set | components/sup-protocol/src/generated/types.rs:107-109 | `set_x` stores exactly the given value |
| GeneratedTypes.SingularField.Mut | components/sup-protocol/src/generated/types.rs:113-118 | `mut_x` of an unset field first sets it to the type's zero value; a set field is left as it is; the result is the field's value afterwards |
| GeneratedTypes.SingularField.Take | components/sup-protocol/src/generated/types.rs:121-123 | `take_x` returns the stored value, or the zero value when unset, and leaves the field unset |
| GeneratedTypes.AccessorRules | components/sup-protocol/src/generated/types.rs:97-130 | on `environment` (declared default "default"): set then get reads the value, clear makes get read "default", mut of an unset field makes get read "", take returns that value and unsets the field |
| GeneratedTypes.InstallSourceFromI32 | components/sup-protocol/src/generated/types.rs:3108-3114 | only 0 and 1 decode, each to the variant whose wire number it is |
| GeneratedTypes.ProcessStateFromI32 | components/sup-protocol/src/generated/types.rs:3157-3163 | only 0 and 1 decode, each to the variant whose wire number it is |
| GeneratedTypes.TopologyFromI32 | components/sup-protocol/src/generated/types.rs:3206-3212 | only 0 and 1 decode, each to the variant whose wire number it is |
| GeneratedTypes.UpdateStrategyFromI32 | components/sup-protocol/src/generated/types.rs:3256-3263 | only 0, 1 and 2 decode, each to the variant whose wire number it is |
| GeneratedTypes.BindingModeFromI32 | components/sup-protocol/src/generated/types.rs:3307-3313 | only 0 and 1 decode, each to the variant whose wire number it is |
| GeneratedTypes.CfgFormatFromI32 | components/sup-protocol/src/generated/types.rs:1458-1463 | only 0 decodes, to TOML |
| GeneratedTypes.EnumRoundTrips | components/sup-protocol/src/generated/types.rs:3104-3114 | for every enum, `from_i32(value(e)) == Some(e)` |
| GeneratedTypes.ServiceSpecDefaults | components/sup-protocol/src/generated/types.rs:1977-2384 | each unset field of a `ServiceSpec` reads as its declared default: group "default", channel "stable", bldr_url "https://bldr.habitat.sh", topology Standalone, update strategy None, binding mode Relaxed, desired state Up, config_from and composite "" |
| GeneratedTypes.OtherDefaults | components/sup-protocol/src/generated/types.rs:125-1602 | unset `environment` reads "default", unset `application` ""; an unset process status reads elapsed 0, pid 0 and state Down; an unset service-group `group` reads "default", and an unset nested group reads as the empty message |
| GeneratedTypes.ServiceSpecInitialized | components/sup-protocol/src/generated/types.rs:2396-2416 | a spec is initialized exactly when its ident is set, a set application environment names its application, and every bind has a name and an initialized service group |
| GeneratedTypes.ClearedInitialization | components/sup-protocol/src/generated/types.rs:142-1075 | the cleared application environment, service group, bind (no name, no service group) and spec, which have required fields, are not initialized; the cleared package ident, process status, service config and service status are |
| GeneratedTypes.AddBindKeepsInitialized | components/sup-protocol/src/generated/types.rs:2412-2416 | appending an initialized bind to an initialized spec keeps it initialized |
| GeneratedTypes.ServiceSpecMessage.Clear | components/sup-protocol/src/generated/types.rs:2686-2701 | `clear` unsets every field and empties the binds |
| GeneratedTypes.ServiceSpecMessage.SetIdent | components/sup-protocol/src/generated/types.rs:1918-1920 | sets `ident` and nothing else |
| GeneratedTypes.ServiceSpecMessage.TakeIdent | components/sup-protocol/src/generated/types.rs:1932-1934 | returns the ident (or an empty one) and unsets it, nothing else changes |
| GeneratedTypes.ServiceSpecMessage.SetBinds | components/sup-protocol/src/generated/types.rs:2182-2184 | replaces the binds and nothing else |
| GeneratedTypes.ServiceSpecMessage.TakeBinds | components/sup-protocol/src/generated/types.rs:2192-2194 | returns the binds and leaves an empty list in their place |
| GeneratedTypes.ServiceSpecMessage.ClearBinds | components/sup-protocol/src/generated/types.rs:2177-2179 | empties the binds and nothing else |
| GeneratedTypes.ClearedSpecReadsDefaults | components/sup-protocol/src/generated/types.rs:2686-2701 | after `clear` every getter of a spec reads its declared default |
| HttpGateway.DefaultListenAddr | components/sup/src/http_gateway.rs:48-54 | the default listen address is 0.0.0.0 port 9631 |
| HttpGateway.ListenAddrFromStr | components/sup/src/http_gateway.rs:73-87 | text that parses as a socket address is used as it is; an IP address alone gets the default port 9631; anything else is the IPFailed error, and only then is there an error |
| HttpGateway.FromStrKeepsPortOrDefaults | components/sup/src/http_gateway.rs:73-87 | every parsed address either keeps the given socket address's port or is the default address with only the IP replaced |
| HttpGateway.HealthStatusRule | components/sup/src/http_gateway.rs:260-268 | Ok and Warning map to 200, Critical to 503, Unknown to 500, and exactly Critical and Unknown give a 5xx status |
| HttpGateway.Render | components/sup/src/http_gateway.rs:177-193 | a successful result is a 200 with a JSON body of the data; an error is a bare 503 |
| HttpGateway.BuildServiceGroupDefaults | components/sup/src/http_gateway.rs:224-251 | an application environment that does not parse counts as absent; a missing `svc` or `group` counts as "" |
| HttpGateway.Lookup | components/sup/src/http_gateway.rs:238-248 | `find(key).unwrap_or("")`: the route parameter, or "" when it is missing |
| HttpGateway.ServiceGroupHandler | components/sup/src/http_gateway.rs:155-201 | for the config, health and service routes, a service group that cannot be built gives a bare 400; otherwise the manager's answer is rendered |
| HttpGateway.ServiceGroupStatuses | components/sup/src/http_gateway.rs:155-201 | the handlers answer only 400, 200 or 503; 200 exactly when the group builds and the manager answers; 400 exactly when the group does not build |
| HttpGateway.Doc | components/sup/src/http_gateway.rs:163-167 | the docs route answers 200 with an HTML content type and the API docs as the body |
| HttpGateway.Mutation | components/sup/src/http_gateway.rs:203-222 | the mutating routes, `services_mut` included, answer a bare 200 |
| LauncherClient.ReadOutcomeRule | components/launcher-client/src/client.rs:114-134 | an envelope that does not parse is a Deserialize error; a NetErr reply is a Protocol error carrying the decoded error; a Shutdown reply is a Shutdown error; any other reply is decoded as the expected type; only a Shutdown reply raises the stopping flag, and a successful read never does |
| LauncherClient.ReadMsg | components/launcher-client/src/client.rs:114-134 | `read_msg` returns what the dispatch rules give and sets the stopping flag exactly when the reply is a Shutdown, whether or not its body decodes |
| LauncherClient.BuildSpawn | components/launcher-client/src/client.rs:70-78 | the Spawn request carries id, binary, user, group and environment, and a password exactly when one is supplied |
| LauncherClient.RoundTripRule | components/launcher-client/src/client.rs:93-110 | a failed send is reported as it is and nothing is read; otherwise the received bytes are read as `read_msg` reads them |
| LauncherClient.LauncherCli.Send | components/launcher-client/src/client.rs:93-101 | a request is logged as sent exactly when serialization and the socket send succeed; the error is returned otherwise |
| LauncherClient.LauncherCli.WaitRecv | components/launcher-client/src/client.rs:104-110 | a failed receive returns its error and leaves buffer and flag alone; otherwise the buffer holds the received bytes and the result is `read_msg` of them |
| LauncherClient.LauncherCli.Spawn | components/launcher-client/src/client.rs:54-82 | sends the Spawn request, then returns the pid of the SpawnOk reply, or the first error |
| LauncherClient.LauncherCli.Restart | components/launcher-client/src/client.rs:45-51 | sends a Restart for the pid, then returns the pid of the SpawnOk reply, or the first error |
| LauncherClient.LauncherCli.Terminate | components/launcher-client/src/client.rs:84-90 | sends a Terminate for the pid, then returns the exit code of the TerminateOk reply, or the first error |
| LockedEnv.Environment.Var | components/common/src/locked_env_var.rs:71-75 | `env::var` is NotPresent exactly when the variable is absent, and Ok exactly with a Unicode value |
| LockedEnv.Recorded | components/common/src/locked_env_var.rs:70-80 | the lock records the current value, Unicode or not, and None exactly when the variable is absent |
| LockedEnv.Restore | components/common/src/locked_env_var.rs:96-106 | drop writes the recorded value back, or removes the variable when none was recorded, and touches no other variable |
| LockedEnv.ApplyOnlyTouchesName | components/common/src/locked_env_var.rs:83-93 | set and unset change only the locked variable |
| LockedEnv.LockSessionRestores | components/common/src/locked_env_var.rs:64-106 | any sequence of sets and unsets followed by drop leaves the whole environment as it was before the lock was taken |
| LockedEnv.IntoGuard | components/common/src/locked_env_var.rs:132-136 | a poisoned mutex still hands over the variable's name, as a healthy one does |
| LockedEnv.LockedEnvVar.constructor | components/common/src/locked_env_var.rs:70-80 | the new lock holds the variable's name and its recorded value |
| LockedEnv.LockedEnvVar.Set | components/common/src/locked_env_var.rs:83-88 | sets the locked variable to the value and nothing else |
| LockedEnv.LockedEnvVar.Unset | components/common/src/locked_env_var.rs:91-93 | removes the locked variable and nothing else |
| LockedEnv.LockedEnvVar.Drop | components/common/src/locked_env_var.rs:96-106 | writes back exactly what `Restore` describes |
| LockedEnv.LockedEnvVar.Run | components/common/src/locked_env_var.rs:83-93 | the holder's changes applied in order |
| LockedEnv.Session | components/common/src/locked_env_var.rs:125-138 | lock, any changes, drop: the environment afterwards equals the one before, whether the mutex was poisoned or not |
| LockedEnv.Examples | components/common/src/locked_env_var.rs:175-212 | the helper's examples: a variable once unset is unset after drop; "foo", "bar", "foobar" then unset leaves it absent inside the lock and restored after |
| Manager.Components | components/sup/src/manager/mod.rs:70-72 | the components of a path text never include an empty or "." component |
| Manager.Normal | components/sup/src/manager/mod.rs:70-72 | normalising path components drops empty and "." components and never lengthens the path |
| Manager.Join | components/sup/src/manager/mod.rs:415-424 | `Path::join` with an absolute argument replaces the path |
| Manager.JoinName | components/sup/src/manager/mod.rs:400-413 | joining a plain file name appends exactly that one component |
| Manager.StatePathChoice | components/sup/src/manager/mod.rs:415-788 | a custom state path wins over any name; otherwise the name, or "default", sits below `hab/sup` under the filesystem root; this covers the four state-path examples of the tests (default, named, custom, custom beats name) |
| Manager.FsCfgLayout | components/sup/src/manager/mod.rs:87-100 | data, composites, MEMBER_ID and LOCK are four distinct direct children of the Supervisor's state directory |
| Manager.LastDot | components/sup/src/manager/mod.rs:341-345 | the position found holds the last '.' of the name, and there is none when the name has no '.' |
| Manager.FileStem | components/sup/src/manager/mod.rs:341-345 | the stem of a non-empty file name other than ".." is never empty |
| Manager.CompositePathShape | components/sup/src/manager/mod.rs:341-345 | a package's composite file is a direct child of the composites directory with extension "spec"; for a name without '.', it is exactly `<name>.spec` |
| Manager.SpecFileIn | components/sup/src/manager/mod.rs:341-345 | setting the extension "spec" on a file name keeps its directory and yields the extension "spec" |
| Manager.SpecExtension | components/sup/src/manager/mod.rs:341-345 | `<stem>.spec` has the extension "spec" |
| Manager.DirtyPathsIff | components/sup/src/manager/mod.rs:351-375 | a path is deleted exactly when it is a direct child of the data directory named by a listed entry ending in ".tmp" or ".health" |
| Manager.CleanFrom | components/sup/src/manager/mod.rs:351-375 | only listed dirty entries are removed and every other path keeps its content; the clean succeeds exactly when no dirty entry's removal fails, and then all of them are gone; a failure is BadDataPath |
| Manager.CleanFromStopsAtFailure | components/sup/src/manager/mod.rs:351-375 | the clean stops at the first dirty entry whose removal fails: the dirty entries listed before it are removed and nothing else, and it succeeds exactly when there is no such entry |
| Manager.CleanRemovesExactlyDirty | components/sup/src/manager/mod.rs:351-375 | after a successful clean, an existing path is gone exactly when it was a dirty data entry |
| Manager.ReadLock | components/sup/src/manager/mod.rs:685-706 | the lock reads as a pid exactly when the file opens, its first line can be read, and that line parses as a signed integer in the pid range, and then the pid is that integer; ProcessLockIO exactly when the file cannot be opened, ProcessLockCorrupt otherwise |
| Manager.ReadLockLine | components/sup/src/manager/mod.rs:685-706 | a lock whose first line is a pid, ended by "\n" or "\r\n" and followed by anything, reads as that pid |
| Manager.ReadLockStrayCR | components/sup/src/manager/mod.rs:685-706 | a pid followed by a lone '\r' with no newline is a corrupt lock, since the line keeps the '\r' |
| Manager.WriteThenRead | components/sup/src/manager/mod.rs:714-742 | a lock freshly written with a pid reads back as that pid |
| Manager.ObtainOutcomes | components/sup/src/manager/mod.rs:663-683 | obtaining the lock either leaves this Supervisor's pid in it, or fails with ProcessLocked exactly when a live process holds a readable lock (leaving it alone), or fails exactly when the existing lock cannot be opened; no other path is touched; with no lock present it always succeeds |
| Manager.IsRunning | components/sup/src/manager/mod.rs:169-188 | a Supervisor runs exactly when the lock file reads as a pid that is alive; a corrupt or missing lock means not running |
| Manager.ObtainThenRunning | components/sup/src/manager/mod.rs:169-188 | once a live Supervisor has obtained the lock, `is_running` reports it |
| Manager.FileSystem.CleanDirtyState | components/sup/src/manager/mod.rs:351-375 | `clean_dirty_state` with its loop leaves the filesystem and result `Clean` describes; an unreadable data directory is BadDataPath |
| Manager.FileSystem.WriteProcessLock | components/sup/src/manager/mod.rs:714-742 | `create_new` fails with ProcessLockIO when anything is at the path, and otherwise writes the pid |
| Manager.FileSystem.ReleaseProcessLock | components/sup/src/manager/mod.rs:708-712 | the lock file is removed; a failure is only logged |
| Manager.FileSystem.ObtainProcessLock | components/sup/src/manager/mod.rs:663-683 | `obtain_process_lock` changes the filesystem and answers as `Obtain` describes |
| Manager.ProcessStatusText | components/sup/src/manager/mod.rs:585-600 | the status text starts with state and time, and ends with ", pid:<pid>" exactly when there is a pid |
| Manager.ServiceStatusStandalone | components/sup/src/manager/mod.rs:612-625 | a service outside any composite shows as "<ident> (standalone), " followed by its process status |
| NotifyMessage.CategoryFromI32 | components/builder-protocol/src/message/notifysrv.rs:600-606 | only 1 and 2 decode, each to the category whose wire number it is |
| NotifyMessage.CategoryRoundTrip | components/builder-protocol/src/message/notifysrv.rs:596-606 | `from_i32(value(c)) == Some(c)` for both categories |
| NotifyMessage.UnsetDefaults | components/builder-protocol/src/message/notifysrv.rs:261-390 | unset ids read 0, an unset category reads Info, unset data reads "" |
| NotifyMessage.CreateAlwaysInitialized | components/builder-protocol/src/message/notifysrv.rs:94-100 | a create request is initialized exactly when its notification is absent or initialized, and since a notification has no required field (400-402) it always is |
| NotifyMessage.NotificationMessage.SetId | components/builder-protocol/src/message/notifysrv.rs:257-259 | sets the id and nothing else; `has_id` then holds and `get_id` reads the value |
| NotifyMessage.NotificationMessage.ClearId | components/builder-protocol/src/message/notifysrv.rs:248-250 | unsets the id and nothing else; `get_id` then reads 0 |
| NotifyMessage.NotificationMessage.SetOriginId | components/builder-protocol/src/message/notifysrv.rs:284-286 | sets the origin id and nothing else |
| NotifyMessage.NotificationMessage.SetAccountId | components/builder-protocol/src/message/notifysrv.rs:311-313 | sets the account id and nothing else |
| NotifyMessage.NotificationMessage.SetCategory | components/builder-protocol/src/message/notifysrv.rs:338-340 | sets the category and nothing else |
| NotifyMessage.NotificationMessage.SetData | components/builder-protocol/src/message/notifysrv.rs:365-367 | sets the data and nothing else |
| NotifyMessage.NotificationMessage.TakeData | components/builder-protocol/src/message/notifysrv.rs:379-381 | returns the data, or "", and leaves the field unset |
| NotifyMessage.NotificationMessage.MutData | components/builder-protocol/src/message/notifysrv.rs:371-377 | unset data is first set to ""; set data is left as it is |
| NotifyMessage.NotificationMessage.Clear | components/builder-protocol/src/message/notifysrv.rs:566-575 | `clear` unsets all five fields |
| NotifyMessage.NotificationCreateMessage.SetNotification | components/builder-protocol/src/message/notifysrv.rs:62-64 | stores the notification |
| NotifyMessage.NotificationCreateMessage.TakeNotification | components/builder-protocol/src/message/notifysrv.rs:76-78 | returns the notification, or an empty one, and leaves the field unset |
| NotifyMessage.NotificationCreateMessage.Clear | components/builder-protocol/src/message/notifysrv.rs:196-201 | `clear` unsets the notification |
| NotifyMessage.AccessorRules | components/builder-protocol/src/message/notifysrv.rs:248-263 | set then get reads the id and `has_id` holds; clear makes `has_id` false; take returns the data and leaves "" behind |
| NotifySrv.SerializeCategory | components/builder-protocol/src/notifysrv.rs:53-64 | a category serializes to its display text, "info" for 1 and "error" for 2 |
| NotifySrv.CategoryFromStr | components/builder-protocol/src/notifysrv.rs:66-77 | parsing succeeds with the category whose text is the input's lower case, and fails with BadNotificationCategory exactly when the lower case is neither "info" nor "error" |
| NotifySrv.CategoryRoundTrip | components/builder-protocol/src/notifysrv.rs:66-87 | parsing a category's display text, or its upper case, gives the category back |
| NotifySrv.ParseExamples | components/builder-protocol/src/notifysrv.rs:69-76 | "INFO" parses as Info, "Error" as Error, "warn" fails |
| NotifySrv.RouteKey | components/builder-protocol/src/notifysrv.rs:89-95 | the routing key is always present: the notification's origin id, or 0 when the notification or its origin id is unset |
| NotifySrv.DefaultIsInfo | components/builder-protocol/src/notifysrv.rs:47-51 | the default category is Info, the same as an unset category's getter |
| PCreate.Run | pcreate/pcreate.rb:17-50 | the script with its loop over the listing produces exactly the log `ScriptEvents` describes |
| PCreate.ScriptPosts | pcreate/pcreate.rb:17-50 | with a wrong argument count the script only prints the usage line and sends nothing; with three arguments the requests sent are exactly one per visible directory holding `plan.sh`, in listing order, each to the projects URL with the bearer token and the rendered template |
| PCreate.WalkPosts | pcreate/pcreate.rb:33-50 | the requests of the walk are the requests for the qualifying entries, in order |
| PCreate.EntryPosts | pcreate/pcreate.rb:35-47 | an entry produces one request exactly when it is a visible directory holding `plan.sh`, and none otherwise |
| PCreate.PostsAppend | pcreate/pcreate.rb:34 | the requests of two logs one after the other are the requests of each, in order |
| PCreate.RequestCount | pcreate/pcreate.rb:39-44 | one request per qualifying entry |
| PCreate.MissingPlanWarns | pcreate/pcreate.rb:45-46 | a visible directory without `plan.sh` only produces the warning naming `<dir>/plan.sh` |
| ProtocolBuild.ProtocolFiles | components/butterfly/build.rs:25-38 | `protocol_files` with its loop returns exactly the paths `KeptPaths` describes, in listing order; components/sup-protocol/build.rs:20-33 makes the same selection |
| ProtocolBuild.KeptPathsRule | components/butterfly/build.rs:25-38 | a path is selected exactly when some entry not starting with '.' and being a regular file has it; never more paths than entries |
| ProtocolBuild.KeptPathsAppend | components/butterfly/build.rs:27-36 | the selection keeps listing order: selecting an extended listing extends the selection |
| ProtocolBuild.ProtocolIncludes | components/butterfly/build.rs:21-23 | the include path is the single directory "protocols"; components/sup-protocol/build.rs:35-37 says the same |
| ProtocolBuild.Examples | components/butterfly/build.rs:29-31 | a vim swap file and a directory are skipped; a proto file is kept as `protocols/<name>` |
| ProtocolConfig.EnvVarName | components/sup-protocol/src/config.rs:132-134 | the variable name is "HAB_" followed by the package name with letters upper-cased and '-' replaced by '_', character for character |
| ProtocolConfig.EnvVarNameShape | components/sup-protocol/src/config.rs:132-134 | the variable name has no '-' and no lower-case ASCII letter |
| ProtocolConfig.EnvVarNameExample | components/sup-protocol/src/config.rs:132-134 | "redis-server" is read from HAB_REDIS_SERVER |
| ProtocolConfig.Get | components/sup-protocol/src/config.rs:60 | `Value::get` finds a table's entry, and nothing in an array or a scalar |
| ProtocolConfig.WalkFoundIsLastSegment | components/sup-protocol/src/config.rs:59-67 | `found` after the walk reflects only whether the last segment resolved |
| ProtocolConfig.WalkSkipsMissingSegment | components/sup-protocol/src/config.rs:59-67 | a path whose middle segment is missing still resolves: "a.x.b" reaches a.b |
| ProtocolConfig.Cfg.constructor | components/sup-protocol/src/config.rs:19-31 | the default configuration has every layer absent and incarnation 0 |
| ProtocolConfig.Cfg.DerivedRecord | components/sup-protocol/src/config.rs:49 | the derived record has `gossip_incarnation` and exactly the layers that are present, and it cannot be formed (the `unwrap` panics) exactly when the incarnation exceeds the largest TOML integer |
| ProtocolConfig.Cfg.ToExported | components/sup-protocol/src/config.rs:47-74 | each export key is in the result exactly when the walk of its dotted path in the derived record ends on a resolved segment, with the value the walk reached; no other key is; the call fails exactly when the record cannot be formed |
| ProtocolConfig.Cfg.LoadDefault | components/sup-protocol/src/config.rs:76-103 | a missing or unreadable `default.toml` clears the default layer without error; a file that does not parse is a TomlParser error; otherwise the layer is the parsed table |
| ProtocolConfig.Cfg.LoadUser | components/sup-protocol/src/config.rs:105-129 | the same for `user.toml` under the service path |
| ProtocolConfig.Cfg.LoadEnvironment | components/sup-protocol/src/config.rs:131-164 | no variable: no layer, no error; otherwise the TOML reading, else the JSON reading, else no layer and BadEnvConfig naming the variable |
| ProtocolConfig.NewCfg | components/sup-protocol/src/config.rs:34-44 | the default layer comes from `config_from` or else the package path, then the user layer, then the environment layer; the record is built exactly when all three loads succeed, each layer is what its file or variable gives, and otherwise the error is the first failing load's; a fresh record has no gossip layer and incarnation 0 |
| ProtocolService.TopologyFromStr | components/sup/src/manager/service/mod.rs:950-972 | parsing succeeds only on a topology's display text, giving that topology; anything else is InvalidTopology carrying the input |
| ProtocolService.UpdateStrategyFromStr | components/sup/src/manager/service/mod.rs:1014-1036 | parsing succeeds only on a strategy's display text, giving that strategy; anything else is InvalidUpdateStrategy carrying the input |
| ProtocolService.TopologyRoundTrip | components/sup-protocol/src/service.rs:126-139 | parsing a topology's text gives it back, and exactly "leader" and "standalone" parse |
| ProtocolService.UpdateStrategyRoundTrip | components/sup-protocol/src/service.rs:154-168 | parsing a strategy's text gives it back, and exactly "none", "at-once" and "rolling" parse |
| ProtocolService.TextsDistinct | components/sup-protocol/src/service.rs:43-53 | each display mapping (election status here, and process state, start style, topology, update strategy) gives different variants different texts |
| ProtocolService.ElectionStatusTexts | components/sup-protocol/src/service.rs:43-53 | election statuses display as "in-progress", "no-quorum", "finished" and "none" |
| ProtocolService.ProcessStateTexts | components/sup-protocol/src/service.rs:75-83 | process states display as "down" and "up" |
| ProtocolService.StartStyleTexts | components/sup-protocol/src/service.rs:110-118 | start styles display as "persistent" and "transient" |
| ProtocolService.ServiceTextFields | components/sup-protocol/src/service.rs:248-252 | a service displays as its service group, then " [", the package ident and "]", so both parts can be read back at their positions |
| ProtocolService.Defaults | components/sup-protocol/src/service.rs:37-41 | the defaults: election status None, health Unknown (63-67), smoke check Pending (92-96), start style Transient (104-108), topology Standalone (141-145), update strategy None (170-174) |
| ProtocolService.ServiceBindText | components/sup-protocol/src/service.rs:260-264 | a bind displays as "name:service_group", and a name without ':' can be read back off that text |
| ProtocolService.DefaultServiceSpec | components/sup-protocol/src/service.rs:283-301 | the default spec: group "default", channel "stable", the public Builder URL, default topology, strategy and start style, desired state Up, no binds and no optional parts |
| Rumor.RumorKey.Key | components/butterfly/src/rumor/mod.rs:105-111 | the key text starts with the id; it is the id alone when the key is empty, and "id-key" otherwise |
| Rumor.DbKeySameKey | components/butterfly/src/rumor/mod.rs:205-207 | two members' rumors under the same key get different slots |
| Rumor.DbKeyInjective | components/butterfly/src/rumor/mod.rs:205-207 | when keys hold no ':', the slot text determines both the key and the member |
| Rumor.FirstColon | components/butterfly/src/rumor/mod.rs:205-207 | in a slot whose key holds no ':', the first ':' sits just after the key |
| Rumor.Increment | components/butterfly/src/rumor/mod.rs:459-461 | `fetch_add(1)` adds one, and wraps `usize::MAX` to 0 |
| Rumor.CounterWraps | components/butterfly/src/rumor/mod.rs:717-723 | the counter examples: `usize::MAX` increments to 0, and 0 to 1 (710-715) |
| Rumor.InsertInto | components/butterfly/src/rumor/mod.rs:258-306 | insert only ever adds the rumor's slot and leaves every other slot alone; the counter moves by exactly one increment when the result is true, and not at all otherwise |
| Rumor.InsertVacant | components/butterfly/src/rumor/mod.rs:725-731 | a rumor for an empty slot is stored, reported as an update, and bumps the counter |
| Rumor.InsertOccupied | components/butterfly/src/rumor/mod.rs:270-293 | on an occupied slot, StopSharing changes nothing and reports false; ShareExisting reports true and bumps the counter without storing; ShareNew stores the merged rumor, reports true and bumps the counter |
| Rumor.InsertTwiceStops | components/butterfly/src/rumor/mod.rs:785-792 | inserting the same rumor twice, when merging a rumor with itself stops sharing, reports true then false and the second insert changes nothing |
| Rumor.InsertTwoMembers | components/butterfly/src/rumor/mod.rs:733-783 | two members' rumors under one key both land in the store, each in its own slot, and the counter reads 2 |
| Rumor.RumorStore.constructor | components/butterfly/src/rumor/mod.rs:182-192 | a new store is empty with the counter preset to the given value |
| Rumor.RumorStore.Clear | components/butterfly/src/rumor/mod.rs:195-203 | clear empties the store, returns the previous counter and resets it to 0 |
| Rumor.RumorStore.GetUpdateCounter | components/butterfly/src/rumor/mod.rs:233-235 | reads the store's update counter as it stands |
| Rumor.CounterScenarios | components/butterfly/src/rumor/mod.rs:710-744 | one increment from 0 reads 1, an increment at `usize::MAX` wraps to 0, and two members' rumors inserted under one key read 2 |
| Rumor.RumorStore.Encode | components/butterfly/src/rumor/mod.rs:209-231 | the stored rumor's encoding, or NonExistentRumor carrying the member id and the slot text |
| Rumor.RumorStore.Insert | components/butterfly/src/rumor/mod.rs:258-306 | the store, counter and result after `insert` are exactly what `InsertInto` describes |
| Rumor.RumorStore.Remove | components/butterfly/src/rumor/mod.rs:324-335 | remove deletes exactly the slot of the key and member, and leaves the counter alone |
| Rumor.RumorStore.ContainsRumor | components/butterfly/src/rumor/mod.rs:440-456 | true exactly when the slot of the key and member holds a rumor |
| Rumor.RumorStore.IncrementUpdateCounter | components/butterfly/src/rumor/mod.rs:459-461 | the counter is incremented with wrap-around and nothing else changes |
| Rumor.RemoveKeepsOthers | components/butterfly/src/rumor/mod.rs:324-335 | removing one member's rumor keeps the other members' rumors under the same key |
| ServiceConfig.MergeTablesCorrect | components/sup/src/manager/service/config.rs:230-267 | the merge succeeds exactly when every recursive step stays within depth 30, and then its table is the key-wise deep merge: a key that is a table on both sides holds the merge of the two, any other key of `other` holds `other`'s value, the other keys of `me` keep theirs |
| ServiceConfig.MergeTablesWithin | components/sup/src/manager/service/config.rs:241-264 | within the depth limit, merging the keys in ascending order one by one gives exactly the order-free deep merge |
| ServiceConfig.MergeTablesOkWithin | components/sup/src/manager/service/config.rs:235-240 | a successful merge never reached a depth beyond 30 |
| ServiceConfig.MergeKeysWithin | components/sup/src/manager/service/config.rs:241-264 | merging a list of distinct keys one after another applies each key's merged value and nothing else |
| ServiceConfig.MergeKeysOkWithin | components/sup/src/manager/service/config.rs:251-260 | when the loop over the keys runs to the end, every nested table merge it started stayed within the limit |
| ServiceConfig.ApplyAllIsDeepMerge | components/sup/src/manager/service/config.rs:241-264 | applying every key of `other` is the deep merge |
| ServiceConfig.ApplyStep | components/sup/src/manager/service/config.rs:241-264 | merging one key first and then the others gives the same table as merging them all together, since a key's merge only looks at that key |
| ServiceConfig.DistinctTail | components/sup/src/manager/service/config.rs:241 | the keys after the first of a duplicate-free key list are duplicate-free and do not contain the first |
| ServiceConfig.SortedElems | components/sup/src/manager/service/config.rs:241 | the ascending key list the loop walks holds every key of the table exactly once |
| ServiceConfig.MergeEmptyOther | components/sup/src/manager/service/config.rs:311-324 | merging an empty table changes nothing and succeeds |
| ServiceConfig.MergeIntoEmpty | components/sup/src/manager/service/config.rs:296-309 | merging into an empty table yields the other table and succeeds |
| ServiceConfig.DeepMergeIntoEmpty | components/sup/src/manager/service/config.rs:296-309 | the deep merge into an empty table is the other table |
| ServiceConfig.MergeOtherWins | components/sup/src/manager/service/config.rs:326-380 | at a key that is not a table on both sides, the merged value is `other`'s, whatever type `me` had there |
| ServiceConfig.MergeRecursesIntoTables | components/sup/src/manager/service/config.rs:382-413 | at a key that is a table on both sides, the merged value is the nested merge of the two tables, which succeeds |
| ServiceConfig.MergeKeySet | components/sup/src/manager/service/config.rs:241-264 | a successful merge has exactly the keys of both tables |
| ServiceConfig.MergeKeepsOwnKeys | components/sup/src/manager/service/config.rs:241-264 | a key only `me` has keeps its value, even when the merge fails part way |
| ServiceConfig.MergeKeysKeepsOthers | components/sup/src/manager/service/config.rs:241-264 | the loop never touches a key it does not visit |
| ServiceConfig.ChainWithinDepth | components/sup/src/manager/service/config.rs:415-471 | two nestings `[a.b.c…]` of the same names stay within the depth limit exactly when the nesting, counted from the starting depth, is at most 30 deep |
| ServiceConfig.NestedMergeDepthLimit | components/sup/src/manager/service/config.rs:415-471 | merging two such nestings from depth 0 succeeds exactly when they are at most 30 tables deep, so the 32-deep nesting of the test fails |
| ServiceConfig.MergeRecurse | components/sup/src/manager/service/config.rs:230-267 | `toml_merge_recurse` with its loop over the keys computes the merge outcome, including the partially merged table on failure, and the only error is the depth-limit message with 30 in it |
| ServiceConfig.MergeKey | components/sup/src/manager/service/config.rs:242-263 | one loop iteration: a key that is a table on both sides is merged one level deeper, any other key takes `other`'s value; a failure of the nested merge ends the merge with the table as updated so far |
| ServiceConfig.MergeKeysStep | components/sup/src/manager/service/config.rs:242-263 | the step of the merge for the first key, written out |
| ServiceConfig.TomlMerge | components/sup/src/manager/service/config.rs:226-228 | `toml_merge` succeeds exactly when the merge from depth 0 stays within the limit, then yields the deep merge, and a key only `me` has always keeps its value |
| ServiceConfig.LayeredUnfold | components/sup/src/manager/service/config.rs:86-106 | the serialized table is default, then environment, then user, then gossip merged in turn into an empty table, each only when present and a table |
| ServiceConfig.LaterLayersWin | components/sup/src/manager/service/config.rs:86-106 | when no layer's merge exceeds the limit, a key whose values are never tables takes its value from the last layer holding it, so gossip overrides user, user overrides environment, environment overrides default |
| ServiceConfig.OfKind | components/sup/src/manager/service/config.rs:110-127 | one pass keeps exactly the keys of the given kind |
| ServiceConfig.OfKindSubsequence | components/sup/src/manager/service/config.rs:110-127 | each pass keeps the ascending key order of the table |
| ServiceConfig.OfKindDistinct | components/sup/src/manager/service/config.rs:110-127 | no key is emitted twice by one pass |
| ServiceConfig.GroupedConcat | components/sup/src/manager/service/config.rs:108-127 | three ascending passes of scalars, arrays and tables, one after the other, give the grouped order |
| ServiceConfig.EmissionGrouped | components/sup/src/manager/service/config.rs:108-127 | the emitted keys come as scalars, then arrays, then tables, each group in ascending order |
| ServiceConfig.EmissionOrderProperties | components/sup/src/manager/service/config.rs:108-127 | every key of the layered table is emitted exactly once, the count matches the map length announced to the serializer, and the emission is grouped |
| ServiceConfig.DistinctCard | components/sup/src/manager/service/config.rs:110 | a duplicate-free list of exactly the keys of a table is as long as the table |
| ServiceConfig.DistinctSeqCard | components/sup/src/manager/service/config.rs:110 | a duplicate-free list has as many distinct elements as positions |
| ServiceConfig.Serialize | components/sup/src/manager/service/config.rs:81-131 | `Serialize for Cfg` emits the layered table's entries, each key with its value, in the grouped order; a layer that fails to merge is only reported |
| ServiceConfig.LayerConfig | components/sup/src/manager/service/config.rs:86-106 | the four guarded `toml_merge` calls build the layered table |
| ServiceConfig.EmitEntries | components/sup/src/manager/service/config.rs:108-127 | the three passes emit the key/value pairs in the grouped order |
| ServiceConfig.EmitPass | components/sup/src/manager/service/config.rs:110-115 | one pass appends, in ascending key order, the pairs whose value is of its kind |
| ServiceConfig.EmitStep | components/sup/src/manager/service/config.rs:110-115 | one iteration of a pass appends the current pair exactly when it is of the pass's kind |
| ServiceConfig.Pairs | components/sup/src/manager/service/config.rs:111-114 | the pair emitted for a key is that key with its value in the table |
| ServiceConfig.PairsConcat | components/sup/src/manager/service/config.rs:108-127 | pairs of two key lists one after the other are the pairs of each |
| ServiceConfig.OfKindAppend | components/sup/src/manager/service/config.rs:110-115 | one more key at the end of a pass's input adds it to the output exactly when it is of the pass's kind |
| ServiceConfig.UpdateTwice | components/sup/src/manager/service/config.rs:52-65 | delivering the same census value twice: the second update reports no change, and the gossip layer and incarnation are what the first update left, with the other layers untouched |
| ServiceConfig.Update | components/sup/src/manager/service/config.rs:52-65 | `Cfg::update` takes the census value and its incarnation exactly when the census group has one with a strictly greater incarnation, reports whether it did, and touches no other layer |
| ServiceConfig.ConfigFiles.constructor | components/sup/src/manager/service/config.rs:171-222 | the configuration directory holds the given files |
| ServiceConfig.Compile | components/sup/src/manager/service/config.rs:171-222 | `compile` renders each template in order, writes its file when the file is missing, unhashable or has a different hash, reports whether anything was written, and stops at the first render or write error keeping earlier writes |
| ServiceConfig.CompileWritesStale | components/sup/src/manager/service/config.rs:171-222 | when every template renders and every write succeeds, the result is true exactly when some template's file was stale, and every file is either as before or a stale template's file now holding its rendering |
| ServiceConfig.DestInjective | components/sup/src/manager/service/config.rs:180 | two templates never share a destination file |
| ServiceConfig.OthersUnaffected | components/sup/src/manager/service/config.rs:180-190 | writing one template's file does not change whether another template's file needs writing |
| ServiceConfig.CompileIdempotent | components/sup/src/manager/service/config.rs:171-222 | compiling a second time after a successful compile writes nothing and reports no change, when no rendering hashes to the empty string |
| ServiceConfig.CompileUpToDate | components/sup/src/manager/service/config.rs:188-219 | a stale file ends holding the rendering of its template |
| ServiceConfig.CompileNoop | components/sup/src/manager/service/config.rs:200-207 | when every file's hash already matches its rendering, compiling changes nothing and reports false |
| Toml.StrLeReflexive | components/sup/src/manager/service/config.rs:241 | the key order the tables iterate in is reflexive |
| Toml.StrLeTotal | components/sup/src/manager/service/config.rs:241 | any two keys are ordered one way or the other |
| Toml.StrLeAntisymmetric | components/sup/src/manager/service/config.rs:241 | two keys ordered both ways are equal |
| Toml.StrLeTransitive | components/sup/src/manager/service/config.rs:241 | the key order is transitive |
| Toml.LeastExists | components/sup/src/manager/service/config.rs:241 | every non-empty set of keys has a least key |
| Toml.LeastUnique | components/sup/src/manager/service/config.rs:241 | the least key of a set is unique |
| Toml.Least | components/sup/src/manager/service/config.rs:241 | the key chosen first is in the set and at most every other key |
| Toml.SortedKeys | components/sup/src/manager/service/config.rs:241 | the iteration order of a table lists every key exactly once |
| Toml.SortedKeysAscending | components/sup/src/manager/service/config.rs:111 | the iteration order is strictly ascending |
| Toml.AscendingCons | components/sup/src/manager/service/config.rs:111 | a key smaller than every key of an ascending list can be put in front of it |
| Toml.AscendingHead | components/sup/src/manager/service/config.rs:111 | the tail of an ascending list is ascending and greater than its head |
| Toml.AscendingDistinct | components/sup/src/manager/service/config.rs:111 | an ascending list has no duplicates |
| Toml.SortedKeysDistinct | components/sup/src/manager/service/config.rs:241 | the iteration order has no duplicates |
| ServiceManager.ReadPid | components/sup/src/manager/service/mod.rs:907-931 | the pid file reads as a pid exactly when it opens, its first line can be read, and that line parses as a signed integer in the pid range, and then the pid is that integer; PidFileIO exactly when it cannot be opened, PidFileCorrupt otherwise |
| ServiceManager.ReadPidWritten | components/sup/src/manager/service/mod.rs:641-655 | the pid file `create_pidfile` writes (the decimal pid, no newline) reads back as that pid |
| ServiceManager.ReadPidLineEndings | components/sup/src/manager/service/mod.rs:907-931 | a pid line ended by "\n" or "\r\n" reads as that pid whatever follows; a pid followed by a lone '\r' is a corrupt pid file |
| ServiceManager.ChangeStateRule | components/sup/src/manager/service/mod.rs:553-559 | changing to the current state changes nothing; changing to another state records it with the time of the change |
| ServiceManager.StopRule | components/sup/src/manager/service/mod.rs:420-429 | without a pid stopping does nothing; with one the pid file is cleaned up and the service is down; nothing else changes |
| ServiceManager.CheckProcessRule | components/sup/src/manager/service/mod.rs:562-585 | the check is true exactly when the stored pid, or with none stored the pid file's, is alive; an unreadable pid file with no stored pid panics |
| ServiceManager.CheckProcessState | components/sup/src/manager/service/mod.rs:562-585 | after a true check the service is up with a live pid and its pid file kept; after a false one it is down with no pid and no pid file; no other field changes |
| ServiceManager.InitializeRule | components/sup/src/manager/service/mod.rs:710-719 | initialization runs once, and marks the service initialized with the init hook's answer, or true when there is no init hook |
| ServiceManager.StartRule | components/sup/src/manager/service/mod.rs:827-852 | a successful spawn records the pid, writes it to the pid file and marks the service up with no reload or reconfiguration pending; a failed spawn changes nothing |
| ServiceManager.ReloadRule | components/sup/src/manager/service/mod.rs:740-750 | reloading always clears the pending reload; it restarts the service when it is down or has no reload hook and otherwise runs only the hook |
| ServiceManager.ReconfigureRule | components/sup/src/manager/service/mod.rs:733-738 | reconfiguring clears the pending reconfiguration and nothing else |
| ServiceManager.UpdatePackageRule | components/sup/src/manager/service/mod.rs:519-547 | a package that loads replaces the hooks, stops a running service and leaves it waiting to be initialized again; a package that fails to load changes nothing |
| ServiceManager.LeaderRunsHooksOnlyWhenFinished | components/sup/src/manager/service/mod.rs:466-512 | under the leader topology a finished election without a leader panics; an unfinished election only records its status; hooks run only once the election is finished |
| ServiceManager.TickReportsConfigUpdate | components/sup/src/manager/service/mod.rs:457-515 | a tick that completes reports whether the gossiped configuration changed |
| ServiceManager.TickAsWrittenNeverStarts | components/sup/src/manager/service/mod.rs:450-455 | as written, an uninitialized service whose binds are all satisfied is left exactly as it was by every tick, any number of ticks, so it is never started |
| ServiceManager.NoBindsServiceStaysDown | components/sup/src/manager/service/mod.rs:450-455 | as written, a freshly loaded service with no binds at all is never initialized |
| ServiceManager.TickStartsReadyService | components/sup/src/manager/service/mod.rs:441-516 | with the bind guard as intended, a freshly loaded standalone service with no binds, no init hook and a successful spawn is initialized and up with the spawned pid after its first tick |
| ServiceManager.TickWaitsForBinds | components/sup/src/manager/service/mod.rs:450-455 | with the guard as intended, an uninitialized service with unmet binds waits, and one with met binds proceeds |
| ServiceManager.RootsRule | components/sup/src/manager/service/mod.rs:323-342 | the configuration and hook roots are "config" and "hooks" under `config_from` when given and under the package otherwise, and they differ |
| ServiceManager.AllBindsSatisfied | components/sup/src/manager/service/mod.rs:293-315 | true exactly when every bind's service group is in the census with at least one live member |
| ServiceManager.ServiceMgr.constructor | components/sup/src/manager/service/mod.rs:241-291 | a loaded service starts down, uninitialized, with no pid and nothing pending |
| ServiceManager.ServiceMgr.ChangeState | components/sup/src/manager/service/mod.rs:553-559 | the fields change as `ChangeState` describes |
| ServiceManager.ServiceMgr.CleanupPidfile | components/sup/src/manager/service/mod.rs:659-668 | the manager's pid file is recorded as removed and nothing else changes; a failed removal is only logged in the source, and the model does not capture one |
| ServiceManager.ServiceMgr.CreatePidfile | components/sup/src/manager/service/mod.rs:641-655 | with a pid, the pid file holds its decimal text; without one nothing changes |
| ServiceManager.ServiceMgr.Stop | components/sup/src/manager/service/mod.rs:420-429 | the fields change as `StopRule` states |
| ServiceManager.ServiceMgr.CheckProcess | components/sup/src/manager/service/mod.rs:562-585 | the fields and the answer are as `CheckProcessRule` and `CheckProcessState` state |
| ServiceManager.ServiceMgr.Initialize | components/sup/src/manager/service/mod.rs:710-719 | the fields change as `InitializeRule` states |
| ServiceManager.ServiceMgr.Start | components/sup/src/manager/service/mod.rs:827-852 | the fields change as `StartRule` states |
| ServiceManager.ServiceMgr.Restart | components/sup/src/manager/service/mod.rs:787-812 | with a pid, the launcher's restart gives the new pid and the service is up, or on failure the pid file is removed and the service is down with the error returned; without a pid the service is started |
| ServiceManager.ServiceMgr.Reload | components/sup/src/manager/service/mod.rs:740-750 | the fields change as `ReloadRule` states |
| ServiceManager.ServiceMgr.Reconfigure | components/sup/src/manager/service/mod.rs:733-738 | the pending reconfiguration is cleared |
| ServiceManager.ServiceMgr.ExecuteHooks | components/sup/src/manager/service/mod.rs:670-697 | after checking the process, an uninitialized service that is already running becomes initialized, else it is initialized and started when initialization succeeds; a due health check panics as unimplemented; an initialized service with a reload pending, down, or a reconfiguration pending is reloaded and reconfigured |
| ServiceManager.ServiceMgr.UpdateTemplates | components/sup/src/manager/service/mod.rs:872-888 | when the gossiped configuration or the census ring changed, the pending reload and reconfiguration become whether the hooks and the configuration recompiled to something new; the result is whether the configuration changed |
| ServiceManager.ServiceMgr.TickBody | components/sup/src/manager/service/mod.rs:457-515 | the tick after its bind guard, as the rules above state |
| ServiceManager.ServiceMgr.TickAsWritten | components/sup/src/manager/service/mod.rs:441-516 | the tick with the bind guard exactly as written |
| ServiceManager.ServiceMgr.Tick | components/sup/src/manager/service/mod.rs:441-516 | the tick with the bind guard the log message describes: waiting only while binds are unmet |
| ServiceManager.ServiceMgr.UpdatePackage | components/sup/src/manager/service/mod.rs:519-547 | the fields change as `UpdatePackageRule` states |
| ServiceManager.WriteCacheRule | components/sup/src/manager/service/mod.rs:362-414 | the cache write only reports true when the file now holds the new contents and no temporary file is left; an unchanged checksum changes nothing; only the file and its ".write" sibling are ever touched; with no step failing a changed file is written |
| ServiceManager.WriteCacheIdempotent | components/sup/src/manager/service/mod.rs:362-414 | after a successful cache write, writing the same contents again is a no-op that reports false |
| UnixService.Target | components/sup/src/sys/unix/service.rs:44-58 | the signals go to the negated pid, and so to the whole process group, exactly when the process leads its group; otherwise to the pid itself |
| UnixService.PollRule | components/sup/src/sys/unix/service.rs:69-91 | a pass that sees the process gone ends gracefully without KILL; KILL is sent only on a pass that still sees the process alive at or past the deadline, every earlier pass having seen it alive before the deadline; the result is Killed exactly when KILL was sent and went through, and never AlreadyExited |
| UnixService.KillRule | components/sup/src/sys/unix/service.rs:43-92 | TERM always goes first to the target; a TERM that cannot be sent means the process is taken to have exited and nothing else is sent; otherwise a process gone on the first pass ends gracefully, KILL follows TERM only after eight seconds of a live process, and the result is Killed exactly when that KILL went through |
| UnixService.Kill | components/sup/src/sys/unix/service.rs:43-92 | `Process::kill` with its polling loop sends exactly the signals and returns exactly the outcome `KillRule` describes |
| WindowsService.TableOfRule | components/sup/src/sys/windows/service.rs:145-152 | the table maps a pid to exactly the pids whose parent it is, in enumeration order, and has no key for a pid without children |
| WindowsService.EntryListed | components/sup/src/sys/windows/service.rs:145-152 | every enumerated process is listed under its parent |
| WindowsService.ChildrenContain | components/sup/src/sys/windows/service.rs:145-152 | every enumerated process is among its parent's children |
| WindowsService.BuildProcTable | components/sup/src/sys/windows/service.rs:115-160 | an invalid snapshot gives an empty table; otherwise the loop records each enumerated process under its parent, in order |
| WindowsService.VisitAllHasBlock | components/sup/src/sys/windows/service.rs:178-182 | each child's whole subtree is terminated as one uninterrupted block among its siblings' |
| WindowsService.ChildrenBeforeParent | components/sup/src/sys/windows/service.rs:177-196 | post-order: each child's whole subtree is terminated before the process itself, which, when it has a handle, is terminated last |
| WindowsService.LeafVisit | components/sup/src/sys/windows/service.rs:177-196 | a process with no children is only terminated itself, when it has a handle |
| WindowsService.TerminateProcessDescendants | components/sup/src/sys/windows/service.rs:177-196 | the recursion terminates exactly the pids in the post-order the rules above describe |
| WindowsService.StatusFromCode | components/sup/src/sys/windows/service.rs:104-111 | a read exit code gives a status exactly when it is not the still-active code 259, and then the status is that code; an unreadable code gives none |
| WindowsService.CurrentStatus | components/sup/src/sys/windows/service.rs:100-112 | a cached status always wins; otherwise the exit code read now decides |
| WindowsService.WaitsRule | components/sup/src/sys/windows/service.rs:87-97 | a failed ctrl-break always terminates the tree; the loop ends gracefully only when a status query before the deadline sees the process exited, and when none does the tree is terminated |
| WindowsService.KillRule | components/sup/src/sys/windows/service.rs:68-98 | a known status means AlreadyExited and nothing terminated; otherwise a failed ctrl-break or a missed deadline terminates the whole tree (Killed), and a graceful end has nothing terminated and an exit seen in time |
| WindowsService.Process.constructor | components/sup/src/sys/windows/service.rs:57-62 | a new process handle has no cached status |
| WindowsService.Process.Status | components/sup/src/sys/windows/service.rs:100-112 | answers as `CurrentStatus` and caches the status it answers |
| WindowsService.Process.Kill | components/sup/src/sys/windows/service.rs:68-98 | `Process::kill` with its waiting loop gives exactly the outcome, the terminated pids and the cached status `KillRule` describes |
| WindowsService.KillPid | components/sup/src/sys/windows/service.rs:35-46 | a pid without a resolvable handle is taken to have exited with nothing terminated; otherwise it is killed through a fresh process handle |
| WorkerConfig.DefaultJobSrv | components/builder-worker/src/config.rs:89-97 | the default job server is 127.0.0.1 on the protocol's default worker and log ports |
| WorkerConfig.DefaultConfig | components/builder-worker/src/config.rs:61-75 | the default configuration: empty auth token, auto-publish on, data and log paths "/tmp", channel "unstable", the default Builder URL, the default job server, no features enabled |
| WorkerConfig.TcpAddrRoundTrip | components/builder-worker/src/config.rs:52-58 | an address is "tcp://", the host, ':' and the port's decimal text, which reads back as the port |
| WorkerConfig.AddrsDiffer | components/builder-worker/src/config.rs:52-58 | the queue and log addresses share the host and are equal exactly when the two ports are |
| WorkerConfig.FromRawFields | components/builder-worker/src/config.rs:27-29 | with `serde(default)`, a field present in the file is taken as given and a missing one keeps its default, the job server's fields one by one too |
| WorkerConfig.ConfigFromFile | components/builder-worker/src/config.rs:103-124 | the example file gives the token, paths, features and port it names, and the log port keeps its default 9021 |
| WorkerServer.ListAmongStep | components/builder-worker/src/server.rs:229-234 | looking at one more entry finds "LIST" exactly when it was already found or that entry names it |
| WorkerServer.ScanForList | components/builder-worker/src/server.rs:226-234 | the loop over the ','-separated entries finds "LIST" exactly when some trimmed, upper-cased entry reads "LIST" |
| WorkerServer.Server.constructor | components/builder-worker/src/server.rs:75-96 | a new server is Ready, its heartbeat says Ready, and the first heartbeat is due one interval from now |
| WorkerServer.Server.SetState | components/builder-worker/src/server.rs:212-222 | the state and the heartbeat's state change together and nothing else changes |
| WorkerServer.Server.HandleMessage | components/builder-worker/src/server.rs:190-210 | a Ready worker forwards the job to the runner, relays the runner's acknowledgement and becomes Busy, or stops at a failed acknowledgement still Ready; a Busy worker sends the job back marked Rejected and stays Busy; the heartbeat always matches the state |
| WorkerServer.Server.RunnerComplete | components/builder-worker/src/server.rs:120-127 | a runner completion is relayed to the job server and the worker becomes Ready; a failed receive changes nothing and ends the loop with its error |
| WorkerServer.Server.HeartbeatTimeout | components/builder-worker/src/server.rs:149-163 | on a timeout the next heartbeat is scheduled one interval from now and the current heartbeat, carrying the state, is sent |
| WorkerServer.Server.WaitTimeout | components/builder-worker/src/server.rs:263-266 | the wait is never negative, reaches the next heartbeat exactly when that is still ahead, and is zero once it is due |
| WorkerServer.Server.EnableFeatures | components/builder-worker/src/server.rs:224-240 | the List feature is enabled exactly when some entry of `features_enabled` reads "LIST" after trimming and upper-casing; nothing else is enabled |
| WorkerServer.Server.Start | components/builder-worker/src/server.rs:98-106 | an empty auth token stops the worker with `NoAuthTokenError` before anything else; otherwise the configured features are enabled |
| WorkerServer.AcceptRejectComplete | components/builder-worker/src/server.rs:118-147 | a Ready worker takes a job, rejects a second one while Busy, and after the runner's completion is Ready again with a Ready heartbeat, having sent the acknowledgement, the rejection and the completion in that order |
| WorkerServer.ListVariant | components/builder-worker/src/server.rs:226-228 | the entry " list " enables the feature, since entries are trimmed and upper-cased |
| BuilderApi.IsValidIff | components/builder-api-v2/src/main.rs:22-25 | a header is valid exactly when it is the bearer credential "Bearer bobo" |
| BuilderApi.FromRequest | components/builder-api-v2/src/main.rs:30-44 | the guard admits a request exactly when it has one Authorization header and that header is valid, keeping the header as the key; every other request is Forbidden |
| BuilderApi.OriginDb.constructor | components/builder-api-v2/src/main.rs:126 | the origin map starts empty |
| BuilderApi.OriginDb.Show | components/builder-api-v2/src/main.rs:67-71 | an origin is shown exactly when its name is in the map, and it is the stored one |
| BuilderApi.OriginDb.Create | components/builder-api-v2/src/main.rs:74-95 | a new name gets a public origin with the random id, stored under the name and answered; a name already taken is answered with the "ID exists. Try put." error and the map is left alone |
| BuilderApi.OriginDb.Update | components/builder-api-v2/src/main.rs:97-113 | an existing origin gets the new visibility, keeping its id and name, and is answered; a missing name is answered with none and the map is left alone |
| BuilderApi.OriginDb.CreateRequest | components/builder-api-v2/src/main.rs:74-75 | the guard runs first: a refused request is Forbidden and changes nothing; an admitted one answers Created with the new public origin for a new name, or the "ID exists. Try put." error for a taken one, and stores as `Create` does |
| BuilderApi.OriginDb.UpdateRequest | components/builder-api-v2/src/main.rs:97-103 | the guard runs first: a refused request is Forbidden and changes nothing; an admitted one answers the origin with its new visibility and stores it for a present name, or answers None and changes nothing for a missing one |
| BuilderApi.CreateThenShow | components/builder-api-v2/src/main.rs:67-95 | an origin created under a fresh name is then shown as created, and creating it again is refused |
| BuilderApi.CreateRequiresAuth | components/builder-api-v2/src/main.rs:139-149 | a create without an Authorization header is Forbidden; one valid header is admitted; a wrong token or two headers are refused |
| UserGuard.FindCode | components/builder-web/app/shared/user/user.guard.ts:13 | the search from a position returns the first position at or after it where `[?&]code=` followed by a word character or '-' starts, and none when there is no such position |
| UserGuard.FindCodeIff | components/builder-web/app/shared/user/user.guard.ts:13 | the search succeeds exactly when the expression `[\?&]code=[\w-]+` matches the query string somewhere |
| UserGuard.GuardRules | components/builder-web/app/shared/user/user.guard.ts:11-41 | the logged-in guard admits exactly when there is a code or a non-empty token; the logged-out guard admits exactly when one of the two is missing |
| UserGuard.GuardsOverlap | components/builder-web/app/shared/user/user.guard.ts:16-35 | the logged-out guard refuses only users the logged-in guard admits, and both admit a user with a token and no code, while a user with neither is admitted only by the logged-out guard |
| UserGuard.CodeExamples | components/builder-web/app/shared/user/user.guard.ts:13 | "?code=abc" carries a code; "?state=x" and "?code=" do not |
| UserGuard.LoggedInCanActivate | components/builder-web/app/shared/user/user.guard.ts:11-22 | answers the logged-in decision; an admission leaves the location alone and a refusal sends the browser to the www URL |
| UserGuard.LoggedOutCanActivate | components/builder-web/app/shared/user/user.guard.ts:30-41 | answers the logged-out decision; an admission leaves the location alone and a refusal sends the browser to the www URL |
| ServiceConfig.ExportedFromLayers | components/sup-protocol/src/config.rs:46-74 | the evidently intended export: each export key is in the result exactly when its dotted path resolves segment by segment in the layered configuration, with the value it resolves to, and no other key is |
| ServiceConfig.WalkAgreesWhenResolved | components/sup-protocol/src/config.rs:59-67 | where every segment of a path resolves, the walk as written reaches the same value and reports it found |
| ServiceConfig.ExportMissesConfigKeys | components/sup-protocol/src/config.rs:49 | because the walk starts at the serialized record of the layers rather than the layered configuration, a configuration key such as "port" set in default.toml is never exported, although the intended export holds it |
| Text.Split | components/builder-api-v2/src/main.rs:23 | splitting gives at least one part and no part contains the separator |
| Text.JoinSplit | components/builder-api-v2/src/main.rs:23 | joining the parts with the separator gives the string back |
| Text.SplitJoin | components/builder-api-v2/src/main.rs:23 | splitting a join of separator-free parts gives the parts back |
| Text.TrimStart | components/builder-worker/src/server.rs:227 | trimming removes exactly a whitespace prefix, so what remains does not start with whitespace |
| Text.TrimEnd | components/builder-worker/src/server.rs:227 | trimming removes exactly a whitespace suffix, so what remains does not end with whitespace |
| Text.UpperStr | components/builder-worker/src/server.rs:227 | upper-casing maps every character by the ASCII case mapping and keeps the length |
| Text.NatToStringRoundTrip | components/builder-worker/src/config.rs:52-58 | the decimal text of a number reads back as that number |
| Text.ParseIntToString | components/sup/src/manager/service/mod.rs:907-931 | the decimal text of an integer parses back to it, so a pid written to the pid file reads back |
| Text.FirstLine | components/sup/src/manager/service/mod.rs:914 | the first line of `lines().next()`: none for empty text; the whole text when it has no '\n' (a trailing '\r' kept); otherwise the text before the first "\n" or "\r\n" terminator, holding no '\n' |
| Text.FirstLineTerminated | components/sup/src/manager/service/mod.rs:914 | a line ended by "\n" or "\r\n" is read back without its terminator, whatever follows it |
| Text.ParseStrayCR | components/sup/src/manager/service/mod.rs:916 | text ending in '\r' never parses as an integer |

## Left out

- LMDB transactions, cursors and `with_rumors` iteration in the rumor store are modelled as a map; a lookup error counts as a vacant slot on insert and as `false` in `contains_rumor`.
- Protobuf wire encoding and decoding (`merge_from`, `compute_size`, descriptors, `RumorEnvelope` encode/decode) is foreign generated code.
- TOML and JSON parsing, Handlebars rendering, cryptographic hashing and IP / socket-address parsing are foreign libraries; their results are inputs.
- Real file-system effects (`init_svc_fs`, `remove_symlink`, `copy_run`, permissions and ownership changes) are left out; the file system is a map from path to contents.
- Concurrency and inter-process plumbing (the launcher client's IPC channel, the terminator, the log forwarder, ZeroMQ polling, `RwLock`/`Arc`, the mutex around locked environment variables) is not modelled; sockets are modelled as logs of the messages sent.
- Clocks and operating-system calls (`is_alive`, `signal`, `getpgid`, the Win32 process APIs) are oracles given as parameters.
- Network clients (the GitHub API client and the HTTP clients) and the Iron, Rocket and Angular framework plumbing, including route matching and the 404 catcher, are left out.
- pcreate's template file read, `chdir` and URI parsing are left out; the server response is an oracle.
- The notification server's database services are left out.
- Methods that are `unimplemented!()` in the source are left out, except that the health-check branch is modelled as a panic outcome; `pkg-export-tar` and `each_alive` helpers are placeholders and are not modelled.
- Thin wrappers around the core (the Supervisor's and studio's `main`, `scheduler.rs`, `package.rs`, `ctl.rs`, the integration tests and the migrator's test support) are not part of this model.
- The web app's channel list component is presentation only and is not modelled.
- Logging (`outputln!`, `debug!`, `warn!`) is left out, except where a log line is the only visible effect.
- Unicode case mapping is reduced to ASCII case mapping; trimming uses the Unicode White_Space characters.
- The `unwrap`/`expect` panics of the build scripts on an unreadable directory are not modelled.
- `ServiceGroup::new` and the gateway's JSON serialization are foreign; the gateway takes their results as inputs.
- `FromStr` for topology and update strategy is not part of this model's source files; it is modelled from the expectations of the tests in `components/sup/src/manager/service/mod.rs`.
- UnixService.Kill: the unbounded polling loop takes a `bound` on its passes, by which the deadline has passed; the model does not state what happens to a process that outlives every pass.
- WindowsService.Process.Kill: the same `bound` on the polling of the process status.
- WindowsService.TerminateProcessDescendants: the recursion over the process table takes a `fuel` depth, because the source has no cycle guard; a table with a cycle is cut off at that depth.
- WorkerConfig.ConfigFromFile: does not state the job server host, because the display form of an IP address is foreign (the source test expects "1:1:1:1:1:1:1:1" from a file that sets "2.2.2.2").
- The Manager's service loading and unloading, the persisting of service specs and the writing of status files are not modelled.
- How a rumor type's merge compares incarnations is the merge parameter's business; the store only acts on the merge's answer.
- The notification server's message dispatch is not modelled.
- ServiceManager.ServiceMgr.CreatePidfile: does not model a failure to create or write the pid file (`File::create` or `write!` failing); writing it always succeeds.
- ServiceManager.ServiceMgr.CleanupPidfile: does not model a failing `remove_file`, after which the source keeps the pid file; the model always records it as removed. This carries into ServiceManager.ServiceMgr.Stop, into ServiceManager.ServiceMgr.CheckProcess when the process is gone, and into ServiceManager.ServiceMgr.Restart when the restart fails, so a stale pid file that a later `check_process` would read is not modelled.
- ServiceConfig.Compile: does not model a failing `write_all` of a rendered configuration file; the write always succeeds.
- Rumor.RumorStore.Encode: does not model an LMDB read error; a lookup either finds the rumor or finds none.
- Manager.FileSystem.WriteProcessLock: does not model a failing `write!` into the new lock file, and takes the pid as a parameter instead of reading `LAUNCHER_PID_ENV` (and panicking in `expect` when it is not a number) or asking for the current pid.
- Manager.FileSystem.ReleaseProcessLock: the source only logs a failed removal and leaves the lock in place; the model always removes the lock.
- WorkerServer.Server.HandleMessage: a failing send of the job to the runner is not told apart from a failing acknowledgement; the `ack` error input stands for both, and the job is recorded as sent.
- The `u32` to `pid_t` cast in the Unix `Process::new` is not modelled; a process's pid is an unbounded integer.
- UserGuard.LoggedOutCanActivate: modelled as written (it refuses only with both a code and a token); what it was meant to do cannot be told from the source.

## Findings

| source | as written | input that shows it | evidently intended | confidence | as-written member | corrected member |
|---|---|---|---|---|---|---|
| components/sup/src/manager/service/mod.rs:450-455 | an uninitialized service logs "Waiting for service binds..." and returns without starting when all its binds ARE satisfied | a freshly loaded service with no binds: its bind check holds vacuously, so every tick returns false and it never starts | wait only while some bind is unmet | not executed | ServiceManager.ServiceMgr.TickAsWritten | ServiceManager.ServiceMgr.Tick |
| components/sup-protocol/src/config.rs:49 | `to_exported` walks the serialized `Cfg` record, whose keys are `default`, `user`, `gossip`, `environment` and `gossip_incarnation` | `default = { port = v }` with the export `port` → `port`: the walk finds no `port` key and the export is missing from the result | walk the layered configuration, where `port` resolves to `v` | not executed | ProtocolConfig.Cfg.ToExported | ServiceConfig.ExportedFromLayers |

For the first row, ServiceManager.TickAsWrittenNeverStarts and ServiceManager.NoBindsServiceStaysDown exhibit the discrepancy. ServiceManager.TickStartsReadyService proves the corrected tick starts such a service. For the second row, ServiceConfig.ExportMissesConfigKeys exhibits the discrepancy. ServiceConfig.WalkAgreesWhenResolved proves what the corrected walk finds.
