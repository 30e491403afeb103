# go-sshd in Dafny

A model of the hand-written parts of go-sshd that carry invariants, and proofs about that model. The
SSH, PAM and system libraries around them are arbitrary: functions, relations or steps that may do
whatever their documentation allows.

| file | models |
|---|---|
| ServerProtocol, ServerSafety, ServerTheorems, ServerLiveness | `pkg/server/server.go` as a step system: Start, its server loop and shutdown, the reloading goroutine, one goroutine per listening server, and any number of Stop calls, in every interleaving. The swap of the four shared fields is one step per assignment under the mutex. |
| ServerPorts, ServerPortRuns | the same protocol with ports: what a reload does when old and new server want the same one |
| Server | the sections of those functions that run under the mutex, as methods of a class; their contracts tie them to the steps |
| Paths, FileTree, Confinement, Sftp, SftpEffects, SftpCommands, SftpSession, Listing | `pkg/handlers/sftp.go` over a file tree with directories, files by inode, and symbolic links followed by a budgeted lookup |
| AuthorizedKeys, OptionsRoundTrip, OptionsMeaning, KeyTypes, OptionsParser | the options language of authorized_keys, after "AUTHORIZED_KEYS FILE FORMAT" in sshd(8), as `pkg/handlers/authorization.go` reads it |
| Access, KeyScan | the access lists, and the search of the authorized_keys files |
| Displays, DisplayStrings, Decimal | the X11 display allocator and the parser of DISPLAY strings |
| Embedded | the lifecycle of the embedded server, in every interleaving of its calls |
| HostKeys | host keys loaded, or generated and saved |
| Config | directives that are checked or folded |
| Validation, ValidationReports, ValidationTable, Validator | the counters and the printing passes; what the nine validation passes report, what that means, and the table of every issue they can report; the passes |
| Text, Prelude | strings and an Option type |

`ServerTheorems`, `ServerLiveness`, `ServerPorts`, `ServerPortRuns`, `Sftp`, `SftpCommands`, `OptionsRoundTrip`,
`KeyTypes`, `Access`, `KeyScan`, `Displays`, `Embedded`, `HostKeys`, `ValidationReports` and `ValidationTable` hold the
main results. Code that updates fields or runs loops is a method whose `ensures` equates the new state with a function;
the lemmas are about that function, and say what it decides without naming it.

Where the code does not do what one might expect of it:

- "No server is left serving when `Start` returns" is false: `ServerTheorems.ShutdownCanLeaveServerServing`
  gives the schedule. It holds exactly when no reload installed a server after shutdown fetched the one it
  closes, or a Stop call closed the installed one:
  `ServerTheorems.ShutdownLeavesNoServerIffNoneInstalledSince`.
- "A reload that succeeds does not stop the server" is false: `ServerPortRuns.ReloadCanStopServer` gives the
  run. The new server asks for its port before the old one is closed. A rebuilt reload of a listening server
  can stop it if and only if the new configuration names the same port
  (`ServerPortRuns.ReloadStopsServerIffSamePort`), and if every reload changes the port, none ever does
  (`ServerPorts.PortChangesKeepServing`).
- A line of options and a key is not always read back, because the key type is searched for in the whole
  line. It is exactly when the key begins with a key type that the search knows and the option text holds none:
  `OptionsRoundTrip.LineRoundTrip`. An option that names a key type hides the key
  (`OptionsRoundTrip.CommandHidesKey`); in front of a FIDO key, whose type `sk-ssh-ed25519@openssh.com`
  contains another, the options are lost (`OptionsRoundTrip.SkKeyLosesRestriction`).
- A HostKey list that begins with the default triple loses it when more follows: `Config.HostKeysStored`,
  `Config.DefaultTripleIsLost`.
- A scan that accepts nobody may leave the options of a refused line in the context:
  `KeyScan.RefusedLineLeavesOptions`. It leaves an empty context empty exactly when no line carries the key:
  `KeyScan.RefusedScanLeavesNothingIff`.
- A DISPLAY string with a number above the range of int is refused: `DisplayStrings.PrintParseIff`.
- After a Configure that fails past its listener check, the old server is served on the new listener:
  `Embedded.FailedConfigureMovesListener`, `Embedded.ServedOnBuiltListenerIff`.

## Model

| member | source | states |
|---|---|---|
| ServerSafety.StepKeepsInv | pkg/server/server.go:256-446 | every step of every goroutine keeps the invariant: one generation in the fields, one message per channel, a superseded channel's server closed or about to be |
| ServerSafety.ReachableInv | pkg/server/server.go:256-446 | the invariant holds after every schedule, with any number of reloads |
| ServerTheorems.OneGenerationOutsideTheLock | pkg/server/server.go:421-432 | whenever the mutex is free, configuration, logger, server and channel belong to one generation, and the goroutine reporting on the channel runs that server |
| ServerTheorems.RecheckEndsStartIffInstalled | pkg/server/server.go:310-325 | a received message ends Start exactly when its sender is the installed server, and starts another round exactly when a reload has superseded the sender |
| ServerTheorems.SupersededServerNeverEndsStart | pkg/server/server.go:310-319 | once a reload has replaced a server, no message from it makes Start return, whatever happens later |
| ServerTheorems.StartReturnsWhatTheServerReported | pkg/server/server.go:310-338 | when Start returns because a server ended, it returns what that server's ListenAndServe reported |
| ServerTheorems.StartReturnsTheErrorServed | pkg/server/server.go:310-338 | on every schedule, an error that Start returns because a server ended is the very one with which ListenAndServe returned to the goroutine reporting on that channel |
| ServerTheorems.ShutdownOnlyWhenCancelledAndEnded | pkg/server/server.go:307-357 | Start returns from a shutdown only after cancellation, with the fetched server closed, and after the server it waited on has returned |
| ServerTheorems.StopClosesWhatItFetched | pkg/server/server.go:449-460 | the servers closed by Stop calls are those on which the schedule has such a Close; each was installed when a Stop call fetched it, after cancellation |
| ServerTheorems.SendNeverBlocks | pkg/server/server.go:331-338 | each channel is sent on at most once, and the sender never has to wait for room |
| ServerTheorems.NoWaitOnDeadChannel | pkg/server/server.go:302-353 | a captured channel that is stale has its server closed or the reload's Close still to come, and its message has not been consumed |
| ServerTheorems.FailedReloadChangesNothing | pkg/server/server.go:396-419 | from the start of a rebuild to its failure all four fields stay as they were, whatever the other goroutines do meanwhile; that the rebuild itself works on another object is Servers.Server.Reload |
| ServerTheorems.SwapIsOneReplacement | pkg/server/server.go:421-432 | the assignments under the mutex together put in exactly the new generation, whatever runs between them |
| ServerTheorems.ReachableExplained | pkg/server/server.go:341-460 | every closed server was closed by a reload, by a Stop call, or by handleShutdown |
| ServerTheorems.ShutdownLeavesNoServerIffInstalledClosed | pkg/server/server.go:341-357 | after shutdown, with no reload between its swap and its Close, every server ever started is closed if and only if the one that handleShutdown closed is the installed one, or a Stop call closed that one |
| ServerTheorems.ShutdownLeavesNoServerIffNoneInstalledSince | pkg/server/server.go:341-446 | the same on schedules: if and only if no reload installed a server after handleShutdown fetched the one it closes, or a Stop call closed the installed one |
| ServerTheorems.ShutdownCanLeaveServerServing | pkg/server/server.go:345-353 | a schedule on which shutdown closes the old server just before a reload installs a new one, and Start returns with that one serving |
| ServerLiveness.EveryWaitEnds | pkg/server/server.go:307-353 | in every fair run each wait of handleShutdown ends, and each wait of the loop on a stale channel or a closed server |
| ServerLiveness.CancelledSelectEnds | pkg/server/server.go:307-309 | in every fair run the select of the loop is left once the context is cancelled |
| ServerLiveness.StartReturns | pkg/server/server.go:256-385 | in every fair run with finitely many reload signals, Start returns once the context is cancelled, even if a rebuild never ends |
| ServerLiveness.NearerEventually | pkg/server/server.go:331-353 | in every fair run a wait ends or its message comes strictly nearer |
| ServerPorts.PortTakenIffOldServerInTheWay | pkg/server/server.go:436-443 | whenever the installed channel's server asks for its port, mutex held or not, the port is taken if and only if the reload that installed it has still to close the old server, that one listens, and both have the same port |
| ServerPorts.PortFreeAfterReload | pkg/server/server.go:436-443 | once the reload has closed the old server, the installed one can have its port |
| ServerPorts.RecheckEndsStartIffRefused | pkg/server/server.go:310-326 | before cancellation the re-read ends Start if and only if, earlier on the run, the sender was refused its port while a reload had still to close a server of the same port as the installed one, and it has not been replaced |
| ServerPorts.PortChangesKeepServing | pkg/server/server.go:299-446 | if every reload of the running server changes the port, no server is ever refused its port, and before cancellation Start does not return once it serves |
| ServerPortRuns.ReloadStopsServerIffSamePort | pkg/server/server.go:421-443 | from any reached net in which a listening server's reload has rebuilt, some continuation with neither cancellation nor further reload makes Start return if and only if both configurations name the same port; then with nobody left listening |
| ServerPortRuns.ReloadCanStopServer | pkg/server/server.go:421-443 | a run from the start on which a reload to the same port succeeds, and Start then returns the new server's failure with no server left |
| Servers.Server.constructor | pkg/server/server.go:73-78 | a new object has a configuration and a logger, and neither server nor channel |
| Servers.Server.InitializeSSHServer | pkg/server/server.go:98-117 | builds the server from this object's own configuration and logger, and on failure changes nothing |
| Servers.NewWithConfigFile | pkg/server/server.go:59-94 | a server exists if and only if every step succeeded, and then its fields are of one generation with no channel |
| Servers.Server.MakeFirstChannel | pkg/server/server.go:267-271 | the locked section of Start takes the step MakeChannel of the protocol |
| Servers.Server.CaptureChannel | pkg/server/server.go:303-305 | the locked read takes the step ReadChannel |
| Servers.Server.AfterMessage | pkg/server/server.go:310-325 | the loop ends exactly when the channel is still the installed one, which is the step Recheck |
| Servers.Server.Reload | pkg/server/server.go:395-446 | succeeds if and only if a file is named and every step of the rebuild succeeds; a failure, though it may have filled the throwaway builder, changes no field of the live server; success installs a server built from the new configuration and logger, and names the one to spawn and the one to close, which are those that the steps from Lock to Unlock come to, exactly when Start is running |
| Servers.Server.GetSSH | pkg/server/server.go:45-49 | takes the step with which handleShutdown, or a Stop call, fetches the server it will close |
| Paths.CleanAbs | pkg/handlers/sftp.go:325-326 | cleaning an absolute path gives a rendered list of names, and cleaning again changes nothing |
| Paths.ElementsOfAbs | pkg/handlers/sftp.go:325-326 | reading back the elements of a rendered path gives the same names |
| Paths.WithinTextIffPrefix | pkg/handlers/sftp.go:334 | for a clean root other than "/", the test "equal to root or starts with root and a slash" is exactly the prefix relation on element lists |
| Paths.ResolvedElements | pkg/handlers/sftp.go:325-326 | a request resolves to root's elements with the request's own applied in turn |
| Paths.RequestWithoutUp | pkg/handlers/sftp.go:324-336 | a request without ".." resolves to root's elements followed by its own without "." and empty ones, and passes the string test |
| Paths.UpElement | pkg/handlers/sftp.go:325-326 | a name followed by ".." drops out of a path, and ".." stays at "/" |
| Confinement.WalkStaysInside | pkg/handlers/sftp.go:338-347 | in a confined tree a lookup heading for root ends at or below root, however many links it follows |
| Confinement.LookupStaysInside | pkg/handlers/sftp.go:338-349 | every resolved path names a place at or below root |
| Confinement.MkdirAllKeeps | pkg/handlers/sftp.go:435-438 | creating missing parents keeps the tree confined and changes nothing outside root |
| Confinement.OpenWriteKeeps | pkg/handlers/sftp.go:408-414 | opening for writing does too, and the file it hands out has no name outside root |
| Confinement.SymlinkKeeps | pkg/handlers/sftp.go:520-521 | a link made with a resolved target keeps the link condition |
| Confinement.HardLinkKeeps | pkg/handlers/sftp.go:522-523 | a hard link between places at or below root shares no inode across the boundary |
| Confinement.RenameKeeps | pkg/handlers/sftp.go:512-513 | a rename of a whole subtree between places at or below root keeps the tree confined |
| Confinement.RemoveKeeps | pkg/handlers/sftp.go:514-519 | removal keeps the tree confined and changes nothing outside root |
| Confinement.SetAttrKeeps | pkg/handlers/sftp.go:554-587 | changing mode, owner or times keeps the tree confined and changes nothing outside root |
| Confinement.TruncateKeeps | pkg/handlers/sftp.go:572-577 | changing a size keeps the tree confined and changes nothing outside root |
| Sftp.ResolvedInside | pkg/handlers/sftp.go:324-350 | in any tree, what resolvePath returns is clean, absolute, and lexically at or below root |
| Sftp.EvaluatedPathIsInside | pkg/handlers/sftp.go:338-346 | in any tree, an accepted path that evaluates leads to a place at or below root |
| Sftp.RefusedLexicallyIffLeaving | pkg/handlers/sftp.go:325-336 | the lexical test passes exactly when the request's elements, applied from root, stay below root |
| Sftp.ConfinedTreeAccepts | pkg/handlers/sftp.go:324-359 | in a confined tree no request without ".." is refused, and the resolved path is known |
| SftpCommands.ResolvePathIs | pkg/handlers/sftp.go:324-350 | in any tree, what resolvePath returns, and when: the elements applied to root, refused if they leave it or if the path evaluates to a place outside |
| Sftp.SetstatKeeps | pkg/handlers/sftp.go:530-551 | the four attribute changes in order, up to the first failure, keep the tree confined |
| Sftp.WriteKeeps | pkg/handlers/sftp.go:391-415 | Filewrite keeps the tree confined and changes nothing outside root, accepted or refused |
| Sftp.CmdKeeps | pkg/handlers/sftp.go:442-527 | Filecmd keeps the tree confined and changes nothing outside root, for every method and target |
| Sftp.ServeKeeps | pkg/handlers/sftp.go:362-527 | so does every single request, and every write through a handle given out before |
| Sftp.SessionStaysInside | pkg/handlers/sftp.go:324-527 | any sequence of requests, under permissions that may change, keeps the link condition and changes no node and no content outside root |
| SftpEffects.WrittenFileIsReadBack | pkg/handlers/sftp.go:362-415 | in a confined tree, reading a path just written opens the very file that was written |
| SftpEffects.SymlinkHoldsResolvedPath | pkg/handlers/sftp.go:442-521 | a successful Symlink adds one link, at the resolved target, to the resolved path, and nothing else |
| SftpEffects.MkdirAddsOneDirectory | pkg/handlers/sftp.go:442-517 | Mkdir adds one directory if and only if allowed, permitted, and nothing is there; otherwise nothing changes |
| SftpEffects.RemoveTakesOneNode | pkg/handlers/sftp.go:442-519 | Remove and Rmdir take away one node, a directory only if empty, if and only if allowed and permitted; otherwise nothing changes |
| SftpEffects.LinkSharesNode | pkg/handlers/sftp.go:442-523 | a successful Link gives one file or link a second name, at the target, and changes nothing else |
| SftpEffects.SetstatUpdatesFile | pkg/handlers/sftp.go:554-587 | on a file, the changes asked for are made in order up to the first that is not permitted, and no other; success if and only if all are permitted and a size fits int64 |
| SftpEffects.RenameMovesWholeTree | pkg/handlers/sftp.go:512-513 | a rename to a free name moves all that is at or below the source, and nothing else |
| SftpCommands.FilecmdRename | pkg/handlers/sftp.go:442-513 | the command moves the request to the target if and only if neither goes up, both are allowed, the source is there, the target is free or may be replaced, and it is permitted; then what was at or below the source is at or below the target, nothing is left, all else stays; otherwise nothing changes |
| SftpCommands.FilecmdSymlink | pkg/handlers/sftp.go:442-521 | the command adds, at the target, one link to the resolved request, if and only if both are allowed and the target is free; otherwise nothing changes |
| SftpCommands.FilecmdLink | pkg/handlers/sftp.go:442-523 | the command gives the request's file or link a second name at the target, if and only if both are allowed, the source is no directory, and the target is free; otherwise nothing changes |
| SftpCommands.FilecmdSetstat | pkg/handlers/sftp.go:442-551 | the command on a file: accepted, it makes the permitted changes in order, and succeeds if and only if all are permitted and a size fits int64 |
| SftpCommands.FilecmdSetstatOther | pkg/handlers/sftp.go:442-551 | on anything else, an accepted command does what the four changes do there |
| SftpCommands.SetstatUpdatesDirectory | pkg/handlers/sftp.go:530-587 | on a directory, as on a file, but a size is always refused and nothing after it is done |
| SftpCommands.SetstatOnNothing | pkg/handlers/sftp.go:530-587 | where there is nothing, success if and only if nothing is asked for |
| FileTree.ResizeIs | pkg/handlers/sftp.go:572-577 | a new size keeps the bytes up to it and fills up with zero bytes |
| SftpCommands.OtherCommandsFail | pkg/handlers/sftp.go:500-527 | a command that is not known, or lacks its target, fails and changes nothing |
| SftpCommands.FilereadOpens | pkg/handlers/sftp.go:362-388 | in a confined tree Fileread opens a file if and only if the request does not go up, is allowed and permitted, and leads to that file |
| SftpCommands.FilewriteDoes | pkg/handlers/sftp.go:391-438 | a Filewrite that succeeds hands out the file its path leads to, emptied if new or to be truncated, makes nothing but directories on the way, and leaves every other node and file |
| SftpCommands.FilewriteSucceedsIff | pkg/handlers/sftp.go:391-415 | with the parent in place it succeeds if and only if the request does not go up, is allowed and permitted, and leads to a file that need not be new or to nothing and may create; otherwise nothing changes |
| SftpSessions.SecureHandlers.Fileread | pkg/handlers/sftp.go:362-388 | the handler's steps are the Read request, and keep the confinement |
| SftpSessions.SecureHandlers.Filewrite | pkg/handlers/sftp.go:391-415 | the handler's steps are the Write request, and keep the confinement and the outside |
| SftpSessions.SecureHandlers.Filecmd | pkg/handlers/sftp.go:442-504 | the handler's steps are the Command request, and keep the confinement and the outside |
| Listing.ListAt | pkg/handlers/sftp.go:662-672 | fills the buffer with the entries from the offset on, reports the end exactly when the buffer is not filled, and leaves the rest of the buffer alone |
| Listing.CollectsEveryEntryOnce | pkg/handlers/sftp.go:662-672 | reading on from the returned count until the end yields every entry once, in order, for any sizes of buffers |
| AuthorizedKeys.FindsLeftmost | pkg/handlers/authorization.go:290 | the search for a key type finds the leftmost match, or there is none |
| KeyTypes.SearchFindsMatch | pkg/handlers/authorization.go:290 | the search finds a position if and only if one of the four key types, spelled out, stands there between word boundaries, and none before |
| KeyTypes.LineIsWhole | pkg/handlers/authorization.go:295-321 | an empty line, a comment, or several fields with no key type are refused; a single field, or a first field with a key type, is the key as it stands |
| KeyTypes.LineIsCut | pkg/handlers/authorization.go:323-339 | any other line is cut at the first key type: options before it, the key from it on |
| KeyTypes.OptionsAndKeyAreRead | pkg/handlers/authorization.go:290-339 | for ssh-rsa, ssh-dss, ssh-ed25519 and every ecdsa-sha2- type, any printable options without a key type in front of type and blob are read back with exactly that key |
| AuthorizedKeys.JoinPieces | pkg/handlers/authorization.go:371-398 | joining the pieces with commas gives the text back, but for one trailing comma outside quotes |
| AuthorizedKeys.PiecesWellSplit | pkg/handlers/authorization.go:371-398 | no piece has a comma outside quotes, and every piece but the last has its quotes closed |
| AuthorizedKeys.PiecesOfJoin | pkg/handlers/authorization.go:371-398 | splitting undoes joining for every well-split list whose last piece is not empty |
| OptionsParser.ParseCommaSeparated | pkg/handlers/authorization.go:371-398 | the splitter's loop yields exactly those pieces |
| OptionsParser.OptionsRecord.ParseEnvironmentOption | pkg/handlers/authorization.go:442-446 | sets one variable, named before the first equals sign, or nothing |
| OptionsParser.OptionsRecord.ParseFromOption | pkg/handlers/authorization.go:450-455 | appends the trimmed hosts in order |
| OptionsParser.OptionsRecord.ParseFlagOption | pkg/handlers/authorization.go:458-477 | sets the one field of a known flag, and nothing for an unknown one |
| OptionsParser.OptionsRecord.ParseKeyValueOption | pkg/handlers/authorization.go:409-424 | updates the one field of a known key, and nothing for an unknown one |
| OptionsParser.OptionsRecord.ParseOption | pkg/handlers/authorization.go:401-406 | tells key=value options from flags |
| OptionsParser.ParseOptionsList | pkg/handlers/authorization.go:343-368 | the struct after the loop is the fold of the options over an empty one |
| OptionsMeaning.FlagPieceMeans | pkg/handlers/authorization.go:458-477 | a piece without an equals sign sets exactly the flag of its name, and any other sets none |
| OptionsMeaning.CommandPieceMeans | pkg/handlers/authorization.go:409-437 | a command, quoted or not, with any space around it, becomes the command |
| OptionsMeaning.EnvironmentPieceMeans | pkg/handlers/authorization.go:442-448 | an environment value sets the variable before its first equals sign, and without one says nothing |
| OptionsMeaning.FromPieceMeans | pkg/handlers/authorization.go:450-455 | a from value adds its hosts in order, trimmed, to those there are |
| OptionsMeaning.OtherPieceMeans | pkg/handlers/authorization.go:409-424 | any other key says nothing |
| OptionsRoundTrip.KeyValueOfQuoted | pkg/handlers/authorization.go:427-438 | a quoted option comes apart into its key and its value as it was |
| OptionsRoundTrip.ListRoundTrip | pkg/handlers/authorization.go:343-477 | reading a printed list, in any order and with repetitions, does what its items say in turn |
| OptionsRoundTrip.LineSplitsAt | pkg/handlers/authorization.go:324-330 | behind option text without a key type, the key begins at the first key type, and what is before it joins the options |
| OptionsRoundTrip.LineSplits | pkg/handlers/authorization.go:324-330 | option text without a key type is told from a key that begins with one |
| OptionsRoundTrip.KeyTypeElsewhereMisleads | pkg/handlers/authorization.go:309-330 | option text with a key type in it, or in front of a key that begins with none, is never told from the key |
| OptionsRoundTrip.LineRoundTrip | pkg/handlers/authorization.go:295-339 | a printed list before any key is read back, options and key, if and only if the key begins with a key type and the option text holds none |
| OptionsRoundTrip.BareKey | pkg/handlers/authorization.go:297-327 | a line that is just a key is read without options if and only if its first field is all of it or holds a key type, and it is no comment |
| OptionsRoundTrip.RecordRoundTrip | pkg/handlers/authorization.go:295-339 | a printed options record before any key is read back under the same condition; an empty one if and only if the key alone reads bare |
| OptionsRoundTrip.SkKeyLosesRestriction | pkg/handlers/authorization.go:290-330 | a restriction before a FIDO key is lost, and the key is read from its middle on |
| OptionsRoundTrip.CommandHidesKey | pkg/handlers/authorization.go:324-330 | a command that names a key type hides every key behind it |
| Access.UserDecision | pkg/handlers/authorization.go:56-105 | admitted if and only if no deny pattern matches and the allow list is empty or has a match |
| Access.GroupDecision | pkg/handlers/authorization.go:162-220 | the same for groups, over all memberships |
| Access.AuthorizedIff | pkg/handlers/auth.go:168-185 | authorized if and only if no deny pattern fits the user and the allow list is empty or fits, the same for every group of the user (with a failed lookup only if both lists are empty), and PermitRootLogin admits the method to root |
| Access.FitsIff | pkg/handlers/authorization.go:254-276 | a pattern without @ is for the user, one that begins with it for the host, any other for both, cut at the first @ |
| Access.HostIs | pkg/handlers/authorization.go:67-77 | the host of an address is what is before its last colon, or all of it |
| Access.MoreDenialsAdmitNobody | pkg/handlers/authorization.go:56-220 | adding deny patterns admits nobody new, for users, for groups and for a failed group lookup |
| Access.OrderDoesNotMatter | pkg/handlers/authorization.go:56-220 | reordering or repeating entries of any list changes no decision |
| Access.LongerAllowListsShutNobodyOut | pkg/handlers/authorization.go:90-220 | adding to an allow list that is not empty shuts nobody out, for users and for groups each on its own |
| Access.HostBeforePort | pkg/handlers/authorization.go:67-77 | the host of h + ":" + p is h, for every h, when p has no colon |
| KeyScan.ScanAppend | pkg/handlers/auth.go:331-335 | scanning one file after another is scanning their lines one after another |
| KeyScan.ScanFindsFirst | pkg/handlers/auth.go:365-420 | a scan accepts if and only if some line lets the client in, and leaves exactly the options of the first such line |
| KeyScan.LetsInIff | pkg/handlers/auth.go:390-546 | a line lets the client in if and only if it is no comment and not empty, parses to an option record and a key equal to the offered one, and its from list is empty, or the address is an IP and some pattern is a network holding it, an equal IP, or the host's own text |
| KeyScan.ScanIs | pkg/handlers/auth.go:365-546 | a scan accepts if and only if such a line exists, and leaves the options of the first, in those terms |
| KeyScan.AllLinesInTurn | pkg/handlers/auth.go:331-354 | files are scanned one after the other, and one that cannot be opened has no lines |
| KeyScan.RefusedScanLeavesLastMatch | pkg/handlers/auth.go:430-446 | a scan that accepts nobody leaves the options of the last line that carried the key, or the context as it was |
| KeyScan.RefusedLineLeavesOptions | pkg/handlers/auth.go:395-446 | for any libraries, any printed options in front of the offered key that refuse the address are left in the context |
| KeyScan.RefusedScanLeavesNothingIff | pkg/handlers/auth.go:365-446 | a scan that accepts nobody leaves an empty context empty if and only if no line carries the key |
| KeyScan.ValidateKeyOptions | pkg/handlers/auth.go:430-458 | always stores the options, and accepts if and only if the from list is empty or allows the address |
| KeyScan.ProcessLine | pkg/handlers/auth.go:395-420 | accepts if and only if the line parses, carries the key and passes its from list |
| KeyScan.ScanFile | pkg/handlers/auth.go:365-387 | the loop over the lines is the scan |
| KeyScan.ValidatePublicKey | pkg/handlers/auth.go:322-354 | true if and only if some line, in file order then line order, parses to the offered key and its from list admits the address; the context then holds the first such line's options |
| KeyScan.HandlePublicKey | pkg/handlers/auth.go:127-223 | accepted if and only if enabled, admitted by the user and group lists and PermitRootLogin, and a certificate is accepted or the user is known and the first line that lets the client in has a command where root needs one |
| Displays.X11Handler.IsDisplayInUse | pkg/handlers/x11.go:354-361 | true if and only if some session has the display |
| Displays.X11Handler.FindAvailableDisplay | pkg/handlers/x11.go:345-351 | ends, at the least free number at or above the offset, within as many steps as there are sessions |
| Displays.X11Handler.AllocateDisplay | pkg/handlers/x11.go:325-341 | records the least free number, in [offset, offset + n] for n live sessions, and keeps displays distinct for a new session |
| Displays.X11Handler.Cleanup | pkg/handlers/x11.go:364-370 | frees exactly the display of its session |
| Displays.RangeUsed | pkg/handlers/x11.go:345-351 | the pigeonhole bound of the search |
| Displays.RunKeepsDisplaysDistinct | pkg/handlers/x11.go:325-370 | over any run of allocations and releases, live sessions have different displays, and the next number is at most offset + n and the only one possible |
| DisplayStrings.PrintParse | pkg/handlers/x11.go:385-426 | parsing undoes printing for every host, dots and colons included, and every display and screen in the int range |
| DisplayStrings.PrintParseIff | pkg/handlers/x11.go:385-426 | a printed display is read back if and only if display and screen are in the int range, and otherwise refused |
| DisplayStrings.ParseIs | pkg/handlers/x11.go:385-426 | what any text is read as: the number behind the last colon before the screen, the host before it, the screen behind a final dot if a number is there; everything else is refused |
| Decimal.AtoiItoa | pkg/handlers/x11.go:403-422 | reading a printed number gives it back |
| Decimal.AtoiIs | pkg/handlers/x11.go:403-422 | a text is read as a number if and only if it is an optional sign and digits of that value, within the range of int |
| Embedded.StandardEmbeddedSSHServer.Configure | pkg/embedded/standard.go:73-189 | succeeds if and only if not started, some listener is there, and every step succeeds; each field's new value is stated, so a failed call leaves ssh, started and the once alone and may have changed listener, options and logger |
| Embedded.StandardEmbeddedSSHServer.BeginStart | pkg/embedded/standard.go:524-536 | sets started and hands out server and listener only when configured and not started, which is the step Start of the lifecycle |
| Embedded.StandardEmbeddedSSHServer.ServerToStop | pkg/embedded/standard.go:561-573 | the step Stop of the lifecycle: the server goes on to the once only when started and configured |
| Embedded.StandardEmbeddedSSHServer.EnterOnce | pkg/embedded/standard.go:553-555 | the step Once of the lifecycle: only the first Stop past its checks goes on to Close |
| Embedded.StandardEmbeddedSSHServer.Cleanup | pkg/embedded/standard.go:616-627 | the step Cleanup of the lifecycle, after which neither Start nor Stop is accepted |
| Embedded.OneServeOneCloseSameServer | pkg/embedded/standard.go:73-627 | over every interleaving Serve and Close are each called at most once, on the server of the last successful Configure, and the field is that server or nil |
| Embedded.ServedOnBuiltListenerIff | pkg/embedded/standard.go:77-118 | Serve always gets a listener, and gets the one its server was built for if and only if no later failed Configure brought another |
| Embedded.FailedConfigureMovesListener | pkg/embedded/standard.go:108-118 | a run on which it does not |
| Embedded.StartedServerIsSettled | pkg/embedded/standard.go:77-79 | from Start on, no later call changes the server last built or the one call of Serve |
| Embedded.EarlyStopKeepsShutdown | pkg/embedded/standard.go:546-573 | a Stop before Start changes nothing, and a Stop after it still gets the single shutdown |
| HostKeys.ExistingFilesStay | pkg/crypto/hostkey.go:51-133 | no call changes a file that exists, whether it succeeds or fails |
| HostKeys.SignersAreStored | pkg/crypto/hostkey.go:51-74 | success returns one signer per non-empty path in order, each the key its file holds, equal for repeated paths; exactly one if there is no such path |
| HostKeys.OnePath | pkg/crypto/hostkey.go:76-133 | one path: read if its file is there, otherwise generated and saved, and how each step's failure ends it and what it leaves |
| HostKeys.LoadKeysSucceedsIff | pkg/crypto/hostkey.go:51-133 | a call succeeds if and only if every non-empty path works, or with none an ephemeral key can be generated; then only the missing files are new, and each signer is what its file holds |
| HostKeys.SecondCallIsTheSame | pkg/crypto/hostkey.go:51-103 | a second call with some non-empty path returns the same signers and writes nothing |
| HostKeys.RetryReusesKeys | pkg/crypto/hostkey.go:51-133 | after a failure part way, a retry over the whole list writes nothing for the paths that were done, and if it succeeds its signers begin with their keys |
| HostKeys.HostKeyManager.LoadOrGenerateKeys | pkg/crypto/hostkey.go:51-74 | the loop is the function that these are about |
| Config.HostKeysStored | pkg/config/config.go:689-702 | the directives are stored without their leading default triples that something follows; so as they are if and only if they do not begin with one |
| Config.DefaultTripleIsLost | pkg/config/config.go:693-700 | directives that name the default triple and then another key store only that key |
| Config.ParserAndLoggerAgree | pkg/config/config.go:1021-1048 | the levels and facilities that are accepted are exactly those that the logging package accepts |
| Config.Config.constructor | pkg/config/config.go:543-564 | the defaults are the stated ones and well formed |
| Config.Config.ParsePort | pkg/config/config.go:667-677 | stores a number in 1..65535, refuses everything else and then changes nothing |
| Config.Config.ParseHostKey | pkg/config/config.go:689-702 | appends one path, after dropping the default triple |
| Config.Config.ParsePermitRootLogin | pkg/config/config.go:795-805 | stores a legal value in lower case, or changes nothing |
| Config.Config.ParseX11DisplayOffset | pkg/config/config.go:890-900 | stores a number that is not negative, or changes nothing |
| Config.Config.ParseLogLevel | pkg/config/config.go:934-944 | stores a legal level in upper case, or changes nothing |
| Config.Config.ParseSyslogFacility | pkg/config/config.go:947-957 | stores a legal facility in upper case, or changes nothing |
| Config.Config.ParseDirective | pkg/config/config.go:631-651 | accepts exactly the legal values, keeps the configuration well formed, changes only the directive's field, and nothing when it refuses |
| Config.Config.ParseConfigLine | pkg/config/config.go:608-628 | the same for a line: a blank one does nothing, one that cannot be split is refused |
| Config.Config.ParseConfigFile | pkg/config/config.go:581-625 | succeeds if and only if every line is accepted; then each scalar field has the value of its last directive, or the one before, and the HostKey list is the fold of its directives |
| Config.Load | pkg/config/config.go:519-540 | fails if and only if some line is refused; otherwise each scalar field is its last directive's or the default, and the HostKey list is the listed keys without leading default triples; every loaded configuration is well formed, with a level and facility that the logging package accepts |
| Validation.ValidationResult.AddIssue | pkg/config/config.go:64-82 | appends the issue, and keeps each counter equal to the number of issues at its level and valid equal to "no errors" |
| Validation.ValidationResult.PrintIssuesByLevel | internal/cli/cli.go:262-302 | the three count-guarded passes print every issue exactly once, in order within a level |
| Validation.GroupingLosesNothing | internal/cli/cli.go:262-302 | grouped by level, the issues are the same issues, each as often |
| Validator.ValidateListenAddresses | pkg/config/config.go:193-234 | the loop with its map of seen addresses reports what the lemmas below are about |
| ValidationReports.LaterOccurrencesAreDuplicates | pkg/config/config.go:193-215 | an address is reported as a duplicate once for every occurrence but the first |
| ValidationReports.LookedAtOnce | pkg/config/config.go:193-234 | each address is looked at exactly once, however often it is listed |
| ValidationReports.AddressErrors | pkg/config/config.go:193-234 | there is an address error if and only if some listed address is bad |
| ValidationReports.LaterKeysRepeatType | pkg/config/config.go:250-288 | a key type is reported once for every key of that type but the first |
| ValidationReports.EachKeyIsChecked | pkg/config/config.go:250-272 | a missing or unreadable key file is reported as often as it is listed |
| ValidationReports.WarningsAreEqualPairs | pkg/config/config.go:360-374 | the warnings about a user are as many as the pairs of an allowed and a denied entry that name it |
| ValidationReports.WalkOrderDoesNotMatter | pkg/config/config.go:425-450 | in whatever order the map of subsystems is walked, each issue is reported as often |
| ValidationReports.ErrorsAreWhatIsWrong | pkg/config/config.go:135-476 | the nine passes together report errors on exactly the directives that the settings get wrong |
| ValidationTable.EveryIssueCounted | pkg/config/config.go:135-476 | for every issue of every level, how often Validate reports it, as a table of conditions on the settings; so nothing else is ever reported |
| ValidationTable.KeyTypeIs | pkg/config/config.go:497-513 | a key file's type is the first of ed25519, ecdsa, rsa and dsa that its base name contains |
| Validator.Validate | pkg/config/config.go:135-166 | the result holds all nine passes in order, its counters count, and it is valid if and only if the settings get nothing wrong |
| Validator.LoadAndValidate | pkg/config/config.go:519-540 | a configuration read from a file, in full or up to a refused line, has no Port and no PermitRootLogin error |

## Left out

- The SSH library: ListenAndServe may return anything at any time. Only the liveness results assume that it
  returns on a closed server, and only `ServerPorts` and `ServerPortRuns` that a closed server holds no port.
  Both assumptions include a server on which Close was called before it began to listen.
- Start is called once; the metrics server matters only as the call in Start that may fail, and logging and
  the two fields that Start logs before it takes the mutex are not modelled.
- Stop calls are the set of servers they have fetched and may still close. Signals are steps that may happen
  at any time; the closing of the signal channels is the step that ends the reloading goroutine.
- ServerLiveness.StartReturns: assumes that only finitely many reload signals are taken; while they keep
  coming after cancellation, the selects may go on choosing them and the messages they cause.
- ServerTheorems.ShutdownLeavesNoServerIffInstalledClosed: says nothing while a reload is between its first
  assignment and its Close, because the code does not either.
- ServerPorts.PortChangesKeepServing: like the other results of ServerPorts and ServerPortRuns, takes a
  listening server to fail only by being closed, and ports to be contended for by servers of this process
  only; elsewhere a server may fail at any time.
- Sftp.SessionStaysInside: needs an absolute working directory, real directories above root, links at or
  below root with absolute targets at or below root, and no inode shared across the boundary. Root itself may
  be removed or replaced by requests. Relative links and changes by other processes are excluded.
- File permissions are arbitrary per call and path. Permission to search directories, atime, and opening a
  directory for reading are not modelled; neither is Filelist, apart from its listings.
- ValidateFileOperation's lists of paths are an arbitrary relation, and so is the choice of root.
- Strings are sequences of characters: invalid UTF-8, which the splitter would replace, is not modelled, and
  ToLower and ToUpper change ASCII letters only.
- RestrictAuth, which no option sets, has to be empty for the round trip.
- filepath.Match, net.ParseIP, CIDR matching and the parsing of keys are arbitrary functions. Certificates,
  PAM, the other authentication methods, and how a key file's path is resolved are left out.
- KeyScan.HandlePublicKey: takes it as given whether a certificate is accepted; that branch returns before the
  forced-command test.
- A read error in the middle of a key or configuration file: the lines are those the scanner delivers.
- Displays.X11Handler.AllocateDisplay: a second allocation for a live session overwrites its entry, so
  distinctness is only claimed for a session that has none. Numbers are not bounded.
- KeyScan.LetsInIff: which host an address names, and whether a text is an address or a network, is for the net
  package to say; keys are compared as the SSH library parses them.
- The timeout of the embedded server's shutdown, and its Close running on after it.
- HostKeys: key types, directories as such, and file modes. A failed write may leave anything at its path.
- Config.Config.ParseDirective: directives on fields that are not modelled accept or refuse arbitrarily.
- Config.Load: the tokens of a line are given; a file that cannot be opened is not modelled, and of one that
  does not exist only that the defaults are well formed.
- Validation: a message is the value it quotes, or nothing.
- Privileges, shells, forwarding, agents, metrics, network helpers, flags and service files would add only
  calls into libraries, or members that are easy.
