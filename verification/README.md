# slop-mcp: protocols and algorithms, verified

slop-mcp runs many MCP servers behind one process. This project models the parts whose
correctness is hard to see from one function body, and proves what they promise. Verify with
`dafny verify dfyconfig.toml`.

* **Connection registry** (`RegistryCore`, `RegistryObject`, `RegistryMachine`,
  `RegistryInvariants`, `RegistrySteps`, `RegistryTheorems`, `RegistryRetries`,
  `RegistryCalls`, and `ConfigIdentity` for the hash under which tools are cached). `RegistryCore` gives each
  critical section under `mu` as a function of the registry's fields; `RegistryObject` is the
  `Registry` object, whose methods update those fields in place and are proved to compute
  these functions; `RegistryMachine` interleaves the sections over any number of goroutines
  and names. Dialling, listing tools, closing a session, sleeping and writing the cache happen
  between steps and may fail at will. `RegistryTheorems` says what holds whatever
  interleaves, `RegistryCalls` what each call does when its steps follow one another. A restart keeps the cache file only. Session tracking and
  the like are history variables, used by the statements and read by no step.
* **Override store** (`OverrideBanks`, `OverrideFlush`, `OverrideStore`). Several processes
  edit in-memory banks and flush them by lock, re-read, merge and write; precedence over three
  scopes; export and import packs. Overrides and custom tools are the same code at two value
  types, so banks are generic in the value.
* **Configuration files** (`KdlReader`, `KdlText`, `KdlConfig`, `KdlLexing`, `KdlRoundTrip`,
  `KdlFile`). The KDL writer against a reference reader for the part of KDL 1.0 it uses.
* **Token refresh** (`TokenRefresh`). Goroutines in several processes refreshing OAuth tokens
  in one file against servers that rotate refresh tokens.
* **SLOP execution lock** (`SlopLock`). A lock taken by a handler and released by a worker that
  may outlive it.
* **Algorithms and printers** (`Similarity`, `Wrap`, `Dedent`, `SearchScore`, `Search`,
  `JsonReader`, `CanonicalJson`, `ShellReader`, `ShellQuoting`, on top of `Strings` and
  `Ordering`).

Conventions of the models:

* Go strings that the source measures or compares by byte are sequences of single-byte
  characters here; lower-casing is ASCII. For the KDL and JSON printers a string is a sequence
  of Unicode characters (valid UTF-8).
* Go map iteration has no order: a loop over a map picks keys arbitrarily, except where the
  source sorts them, and then `Ordering.SortedKeys` gives the order.
* A map, list or counter that a method mutates is a field the method reassigns; `int` is
  unbounded, which only matters for counters and never wraps in the source's ranges.
* Clocks, dials, tool listings, token endpoints, unreadable and unwritable files and lock
  failures are events or parameters with every outcome allowed (the lemmas `AnythingMayFail`,
  `AnyFlushMayFail` and `AnyCallMayStart` list them).
* SHA-256 is not modelled: `McpConfig.ConfigHash` and `CanonicalJson.HashInput` are the texts
  that are hashed.

## Model

| member | source | states |
|---|---|---|
| `RegistryTheorems.SessionConservation` | internal/registry/registry.go:776-896 | in every reachable state each session a dial opened is in exactly one place (one connections entry, one goroutine's hands, or closed) and has been closed at most once |
| `RegistryTheorems.NothingLeaks` | internal/registry/registry.go:1844-1868 | once Close has run and every goroutine is done, every session ever opened has been closed exactly once |
| `RegistryTheorems.IndexNeverStale` | internal/registry/registry.go:299-336 | in every reachable state the published index shows the current tools and overrides, or some goroutine still owes a rebuild or holds a snapshot of exactly those |
| `RegistryTheorems.IndexFreshAtRest` | internal/registry/registry.go:299-316 | when no goroutine is under way the lock-free index shows each MCP's current tools, each override in place of the description it overrides, and the custom tools |
| `RegistryTheorems.ConnectedMeansInstalled` | internal/registry/registry.go:806-831 | a name in state Connected has an installed connection, and the registry is not closed |
| `RegistryTheorems.OnlyTheHolderConnects` | internal/registry/registry.go:456-479 | the only step that makes a name Connected is the install section of the goroutine holding that name's semaphore, before Close |
| `RegistryTheorems.DemotionNeverHitsADial` | internal/registry/registry.go:1713-1728 | a failed-call or health-check demotion has no effect while another goroutine's dial of that name is under way |
| `RegistryTheorems.ClosedForGood` | internal/registry/registry.go:1844-1868 | after Close, whatever runs on, nothing is installed and no name is Connected again |
| `RegistryTheorems.NoConnectStorm` | internal/registry/registry.go:502-553 | after a failed dial or a demotion of n, no goroutine gets to dial n through EnsureConnected for 30 seconds, unless a session is installed, n is unregistered, a cache load of n takes effect, or the process restarts first |
| `RegistryCalls.EnsureConnectedWaits` | internal/registry/registry.go:502-527 | EnsureConnected goes for the semaphore exactly when the name is Cached, Configured, being connected, or in Error for 30 seconds or more |
| `RegistryCalls.EnsureConnectedDials` | internal/registry/registry.go:530-553 | under the semaphore, EnsureConnected's next two steps dial the name's own configuration with its counter carried over exactly when the name is Cached, Configured, or in Error for 30 seconds or more, and otherwise give the semaphore back |
| `RegistryCalls.EnsureConnectedRuns` | internal/registry/registry.go:520-553 | so a call that gets the semaphore dials exactly when the name is due, and changes nothing otherwise |
| `RegistryCalls.ConnectDials` | internal/registry/registry.go:680-713 | Connect dials the configuration it is given, marking the name Connecting |
| `RegistryCalls.ListingIsKept` | internal/registry/registry.go:1930-1948 | a tool list is kept as it was reported, each tool under its MCP's name |
| `RegistryCalls.ConnectInstalls` | internal/registry/registry.go:776-839 | a dial that comes through leaves the name Connected on its session with the listed tools, the replaced session closed, the index rebuilt and the semaphore free |
| `RegistryCalls.LazyConnectIsCached` | internal/registry/registry.go:545-629 | EnsureConnected and Reconnect then write the listed tools to the cache under the hash of what was dialled |
| `RegistryCalls.BackgroundSave` | internal/registry/registry.go:563-629 | a save after Connect writes the current tools of a connected, indexed name and nothing else |
| `RegistryCalls.FailedDialIsRecorded` | internal/registry/registry.go:710-721 | a failed dial leaves the name in Error or NeedsAuth with its time and the counter it began with, and the call ends |
| `RegistryCalls.TooLateIsClosed` | internal/registry/registry.go:782-791 | a session dialled across Close is closed and nothing is installed |
| `RegistryCalls.DisconnectDrops` | internal/registry/registry.go:850-896 | Disconnect takes the connection and its tools out, closes the session and rebuilds the index, keeping configuration and counter; without a connection it changes nothing |
| `RegistryCalls.ReconnectDials` | internal/registry/registry.go:938-978 | Reconnect drops what is connected and dials the name's own configuration; an unknown name is left alone |
| `RegistryCalls.UnregisterForgets` | internal/registry/registry.go:900-931 | Unregister removes connection, state and tools, closes the session and rebuilds the index; an unknown name is left alone |
| `RegistryCalls.DemotionDisconnects` | internal/registry/registry.go:1713-1736 | a failed call takes a Connected name to Error with its session closed and the index rebuilt, and does nothing to any other |
| `RegistryCalls.ProviderTakesEffect` | internal/registry/registry.go:319-337 | a new override provider is in force and in the index once the call is over |
| `RegistryCalls.LoadTurns` | internal/registry/registry.go:417-446 | one turn of a cache load makes a static name with an entry of equal hash and no live connection Cached with that entry's tools, and skips any other |
| `RegistryCalls.LoadBeginsAndEnds` | internal/registry/registry.go:402-452 | a cache load reads the file first and rebuilds the index at the end exactly if it changed something |
| `RegistryCalls.CloseDisconnects` | internal/registry/registry.go:1844-1868 | Close disconnects every connected name, closes each session, in map order, and leaves nothing installed |
| `RegistryCalls.ConfigureAdds` | internal/registry/registry.go:345-356 | a configuration is noted under its name unless the name is known |
| `RegistryCalls.RestartKeepsTheFile` | internal/registry/registry.go:284-292 | a new process knows nothing but the cache file |
| `RegistryCalls.CancelledCallEnds` | internal/registry/registry.go:471-479 | a call cancelled while it waits or sleeps ends and gives back what it holds |
| `RegistryTheorems.CacheHoldsReports` | internal/registry/registry.go:563-629 | every entry of the cache file was reported by a successful listing on a session of that very name, dialled with a configuration of that hash, across restarts |
| `RegistryTheorems.CachedToolsWereReported` | internal/registry/registry.go:385-452 | a name in state Cached offers exactly a list that some session dialled with an equally hashed configuration reported |
| `RegistryTheorems.RetriesAreCounted` | internal/registry/registry.go:982-1074 | a backoff loop that gives up has dialled exactly its budget, ends in Error, and left the counter at its start plus the budget unless a cache load replaced the state |
| `RegistryTheorems.AttemptsAreDials` | internal/registry/registry.go:1024-1050 | before the wait of attempt k the loop has dialled k-1 times and the counter shows its start plus k |
| `RegistryTheorems.RetrySucceeds` | internal/registry/registry.go:806-839 | a dial of the loop that comes through leaves the name Connected on that session with the counter at zero, within the budget |
| `RegistryTheorems.OneAutoReconnect` | internal/registry/registry.go:1329-1355 | a name's auto-reconnect flag is set exactly while one goroutine reconnects it, and never two |
| `RegistryTheorems.ScanReconnectsTheErrored` | internal/registry/registry.go:1329-1355 | a health tick leaves the flag set, and a goroutine reconnecting, for every name in Error that allows it, starts one for exactly those not claimed before, and for no other name |
| `RegistryTheorems.NobodyIsStuck` | internal/registry/registry.go:456-479 | whoever is under way can move, or waits for a lock whose holder, or the one that holder waits for, can move: the lifecycle locks never deadlock |
| `RegistryRetries.BackoffEndsOneOfTwoWays` | internal/registry/registry.go:982-1074 | one backoff call, whatever runs beside it, keeps the counter it read and its budget, and unless cancelled leaves its loop only by resetting the counter after a success or with exactly its budget dialled |
| `RegistryCalls.BackoffBegins` | internal/registry/registry.go:982-1022 | a backoff call with a budget marks the name Reconnecting and begins attempt one from the counter it read; any other ends at once |
| `RegistryCalls.RetryIsCounted` | internal/registry/registry.go:1025-1036 | each attempt raises the counter and sleeps 1, 2, 4, 8, 16, 32, then 60 seconds |
| `RegistryCalls.RetriesWait` | internal/registry/registry.go:1038-1043 | whatever runs meanwhile, a loop that is not cancelled stays asleep until that delay is over |
| `RegistryCalls.RetryDials` | internal/registry/registry.go:1045-1046 | then it dials the configuration the name has by now |
| `RegistryCalls.FailedRetryGoesOn` | internal/registry/registry.go:1046-1074 | a failed attempt leads to the next while there is budget, and otherwise leaves the name in Error |
| `RegistryCalls.BackoffEnds` | internal/registry/registry.go:1329-1355 | at the end of a backoff call the semaphore is free, and so is the auto-reconnect flag if it had one |
| `RegistryTheorems.NextKeeps` | internal/registry/registry.go:693-931 | every step of every goroutine, and every outside event, keeps the whole invariant (semaphores, sessions, index debt, cache provenance, retry accounting) |
| `RegistryTheorems.ReachableInv` | internal/registry/registry.go:280-292 | the invariant holds in every state any run from an empty registry reaches, over restarts |
| `RegistrySteps.CacheRoundTrip` | internal/registry/registry.go:402-452 | a tool list written to the cache and loaded again is the list that was reported |
| `ConfigIdentity.HashIsIdentity` | internal/cache/cache.go:77-132 | two configurations whose fields hold no separator characters have equal hash input if and only if type, command, arguments, URL, headers and environment agree, no argument and one empty argument being the same |
| `RegistryObject.CalculateBackoff` | internal/registry/registry.go:1084-1093 | the doubling loop returns 1, 2, 4, 8, 16, 32 and from then on 60 seconds |
| `RegistryObject.BackoffTotals` | internal/registry/registry.go:1084-1093 | waits never decrease and never pass a minute; the first k add up to 2^k - 1 seconds until the cap, one minute more each after it |
| `RegistryObject.BuildToolIndex` | internal/registry/index.go:92-130 | the copying loops show each tool with its own name and schema, its MCP's name where it has none, the override in place of the description (which is then kept as the source's) exactly where there is one, and the custom tools under _custom |
| `RegistryCore.ShownOnce` | internal/registry/index.go:92-130 | that determines the index: two indexes that show the same tools and overrides are equal |
| `RegistryObject.UpstreamSurvivesTheIndex` | internal/registry/registry.go:104-109 | the server's own description is recovered from an indexed tool if and only if it was not empty or no different override hides it |
| `RegistryObject.Registry.SetConfigured` | internal/registry/registry.go:345-356 | an unknown name becomes Configured; a known one keeps its state |
| `RegistryObject.Registry.BeginConnect` | internal/registry/registry.go:697-708 | a connect marks the name Connecting and carries its attempt counter over |
| `RegistryObject.Registry.FailConnect` | internal/registry/registry.go:710-721 | a failed connect records the failure time and keeps the counter |
| `RegistryObject.Registry.InstallConnection` | internal/registry/registry.go:776-831 | connection, state and tools change together; a session arriving after Close, or the one replaced, is handed back to be closed |
| `RegistryObject.Registry.TakeConnection` | internal/registry/registry.go:862-896 | a disconnect removes connection and tools together and hands back the session |
| `RegistryObject.Registry.Forget` | internal/registry/registry.go:900-931 | an unregister removes connection, state and tools together and hands back the session |
| `RegistryObject.Registry.MarkConnectionFailed` | internal/registry/registry.go:1713-1736 | only a Connected name is demoted; its connection and tools go and its session is handed back |
| `RegistryObject.Registry.SetCachedLocked` | internal/registry/registry.go:385-397 | a live connection is never overwritten by cached tools |
| `RegistryObject.Registry.LoadCache` | internal/registry/registry.go:402-452 | every configured MCP is visited once; exactly the static ones with an entry of equal hash and no live connection become Cached with the entry's tools, everything else stays, and the result is their number |
| `RegistryObject.LoadsTheHits` | internal/registry/registry.go:402-452 | a whole load, in whatever order the map is visited, amounts to that closed form |
| `RegistryObject.Registry.RebuildIndex` | internal/registry/registry.go:299-316 | snapshot, build and store leave the index right and everything else alone |
| `RegistryObject.Registry.SetOverrideProvider` | internal/registry/registry.go:319-337 | the provider is swapped and the index rebuilt with it |
| `RegistryObject.Registry.ClaimErrored` | internal/registry/registry.go:1329-1355 | a name is claimed if and only if it is in Error, allows reconnecting and was not claimed |
| `RegistryObject.Registry.Close` | internal/registry/registry.go:1844-1868 | every installed session is closed once, in map order, each connected name becomes Disconnected, and nothing stays installed |
| `RegistryCore.RetryBudget` | internal/registry/registry.go:1006-1019 | a positive argument is the budget, a negative one or a negative setting disables the loop, and otherwise the setting or its default applies; a budget is never zero |
| `OverrideFlush.FlushLosesNothing` | internal/overrides/store.go:349-424 | for processes touching disjoint keys of one parseable file, under any interleaving of edits, flushes and failures, the file ends with each owner's value or deletion at touched keys (or that owner's last flush failed) and the original elsewhere |
| `OverrideFlush.FileFollowsTheEdits` | internal/overrides/store.go:118-191 | so the file ends with what the last edit of each key in the run made of it, set or removed, unless a flush of its owner failed, and a key nobody edited is as it was |
| `OverrideFlush.SomeoneCanMove` | internal/overrides/store.go:349-424 | whoever is under way, or the holder of the file lock, always has a step to take |
| `OverrideFlush.RunKeeps` | internal/overrides/store.go:326-424 | every step of every process keeps the flush invariant: what the file misses, someone still owes, carries under the lock, or failed to save |
| `OverrideBanks.EffectiveIsFirst` | internal/overrides/scope.go:67-87 | the merged value is the entry of the highest-precedence scope that has one, and none exactly when no scope has |
| `OverrideBanks.OverlayLookup` | internal/overrides/store.go:380-410 | after a merge a touched key reads as memory has it, deletion included, and any other key as the file had it |
| `OverrideStore.PackIsEffective` | internal/overrides/pack.go:97-169 | an unfiltered export is sorted, free of duplicates, and holds exactly the values GetOverride returns |
| `OverrideStore.ImportIntoEmpty` | internal/overrides/pack.go:196-246 | importing into an empty store fills the target scope with exactly the pack and leaves the other scopes empty |
| `OverrideStore.ExportImportRestores` | internal/overrides/pack.go:97-246 | exporting and importing with overwrite into an empty store restores every effective value, at whichever scope |
| `OverrideStore.PoliteImportKeepsWinners` | internal/overrides/pack.go:196-212 | an import without overwrite never changes the effective value of a key won by the target scope or a stronger one |
| `OverrideStore.PoliteImportInScope` | internal/overrides/pack.go:196-212 | an entry the target scope already has is, after an import without overwrite, still there if that scope wins the key or the pack is silent on it, and the pack's last value for it otherwise |
| `OverrideStore.ShadowedEntriesAreOverwritten` | internal/overrides/pack.go:197-212 | an entry the target scope already has survives a whole import without overwrite if and only if that scope wins the key, or the pack does not mention it or ends on the same value |
| `OverrideStore.ImportOverwrites` | internal/overrides/pack.go:181-246 | an import with overwrite leaves the target scope with the pack's last value for each key it gives, and every other entry of every scope as it was |
| `OverrideStore.PoliteImportOfNewKey` | internal/overrides/pack.go:196-212 | an import without overwrite gives a key new to the target scope the pack's first value if that scope then wins the key and the last if a stronger scope hides it, and changes no other scope |
| `OverrideStore.SkipsTheWon` | internal/overrides/pack.go:197-203 | for packs without duplicates, what an import reports as skipped are exactly the pack's keys the target scope won, and nothing with overwrite |
| `OverrideStore.RemoveUncovers` | internal/overrides/store.go:167-191 | clearing the winning scope uncovers a weaker one or nothing, and changes no other key |
| `OverrideStore.Store.MarkTouched` | internal/overrides/store.go:328-334 | marking adds one key to one scope's touched set and nothing else |
| `OverrideStore.Store.SetMem` | internal/overrides/store.go:118-133 | an available scope gets the entry and the key is touched; an unavailable one is an error that changes nothing |
| `OverrideStore.Store.RemoveFrom` | internal/overrides/store.go:167-191 | every visited scope loses the key; those that had it are counted and touched |
| `OverrideStore.Store.RemoveMem` | internal/overrides/store.go:167-191 | a removal clears the given scope, or all, touches the key exactly where it was, and reports how many entries went |
| `OverrideStore.Store.Get` | internal/overrides/store.go:147-163 | a lookup returns the scope-winning entry |
| `OverrideStore.Store.WriteBank` | internal/overrides/store.go:349-424 | over a file that parses, a flush writes touched keys as memory has them and every other key as the file has it; over an unreadable one it writes memory; without the lock or the write it fails and the file stays |
| `OverrideStore.Store.MergeScopes` | internal/server/override_adapter.go:22-44 | the seen-map loop yields every key once, with the value of the highest scope |
| `OverrideStore.Store.Export` | internal/overrides/pack.go:97-169 | the scope loops followed by the sort return exactly that sorted pack of effective values |
| `OverrideStore.Store.ImportMem` | internal/overrides/pack.go:181-246 | an import applies the pack entry by entry, reports exactly the skipped keys in order, and fails only on an unavailable scope |
| `KdlText.QuoteReadsBack` | internal/config/kdl.go:535-549 | unescaping a quoted literal gives the original string, and the literal ends exactly at its closing quote, whatever follows |
| `KdlText.LiteralIsOneLine` | internal/config/kdl.go:535-549 | no newline, tab or return stands in a literal as it is, and a string without those, quotes and backslashes is written unchanged |
| `KdlText.DecimalReadsBack` | internal/config/kdl.go:576-578 | a printed integer is a bare word that reads back as that integer, sign included |
| `KdlLexing.NodesParse` | internal/config/kdl.go:551-610 | the tokens of any list of nodes, nested to any depth, parse back to that list with the rest unread |
| `KdlRoundTrip.BlockLexes` | internal/config/kdl.go:551-610 | the text of an mcp block yields exactly the tokens of its node |
| `KdlConfig.ChildrenReadBack` | internal/config/kdl.go:414-446 | every field written in a block is the field read, with an empty type read as "command" |
| `KdlConfig.FieldsHaveTheirNames` | internal/config/kdl.go:414-446 | a node named args, max_retries, dynamic, env or headers sets that field |
| `KdlFile.FileReads` | internal/config/kdl.go:512-533 | a written file is syntactically one mcp node per entry, in name order |
| `KdlFile.WrittenFileIsReadable` | internal/config/kdl.go:414-446 | any written file can be read again if and only if no entry is nameless and no two entries share a name |
| `KdlFile.WriteThenRead` | internal/config/kdl.go:414-533 | for entries filed under their own names, parsing the written file gives the same map up to source and empty type, exactly when no name is empty |
| `KdlFile.LoadedIsFiled` | internal/config/kdl.go:414-446 | whatever is loaded has every entry under its own non-empty name, with a type |
| `KdlFile.AddChangesOnlyTheNamed` | internal/config/kdl.go:477-491 | adding entries changes the named entries, to what was given under the name and with a type, and no other; the file stays readable if and only if no added name is empty |
| `KdlFile.RemoveChangesOnlyTheNamed` | internal/config/kdl.go:493-505 | removing an entry leaves a readable file with every other entry as it was |
| `KdlFile.FormatArgs` | internal/config/kdl.go:564-570 | the loop over arguments writes one line, or nothing for none |
| `KdlFile.FormatMap` | internal/config/kdl.go:592-606 | a map is written as a block in key order, or not at all when empty |
| `KdlFile.FormatMCPBlock` | internal/config/kdl.go:551-610 | the appending writer produces the block the round trip is proved for |
| `KdlFile.FormatFile` | internal/config/kdl.go:519-530 | the file is the blocks in name order |
| `KdlFile.ConfigFile.WriteConfigFile` | internal/config/kdl.go:512-533 | writing replaces the file's whole content, or fails and leaves it |
| `KdlFile.ConfigFile.AddMCPConfigsToFile` | internal/config/kdl.go:477-491 | adding reads, replaces the named entries with inferred types, and writes; a file that cannot be opened, parsed or written is an error that leaves it alone |
| `KdlFile.ConfigFile.RemoveMCPFromFile` | internal/config/kdl.go:493-505 | removing an unknown name, or a file that cannot be opened, parsed or written, is an error that leaves it alone |
| `McpConfig.InferType` | internal/config/config.go:135-146 | an explicit transport type is kept; otherwise a URL without a command means http, and anything else stdio |
| `TokenRefresh.StoredTokenIsSent` | internal/registry/registry.go:2480-2533 | with the lock granted and the file readable, every refresh sends the token stored at that moment, one already spent exactly when its exchange has put no other in the file |
| `TokenRefresh.NeverSpentTwice` | internal/registry/registry.go:2480-2533 | in any number of processes, when every exchange is answered with a new refresh token and saved, no refresh token value is sent twice |
| `TokenRefresh.ReturnedTokenIsGood` | internal/registry/registry.go:2480-2533 | every token a caller gets, in any run, was stored and good for another 300 seconds when it looked, or is what the server answered to it, field by field |
| `TokenRefresh.GoodTokensAreNotSent` | internal/registry/registry.go:2487-2520 | no token is sent for refresh while it is good for another 300 seconds |
| `TokenRefresh.SomeoneCanMove` | internal/registry/registry.go:2503-2531 | whoever is under way, or the holder of the file lock, always has a step to take |
| `TokenRefresh.OtherServersKept` | internal/auth/tokenstore.go:145-155 | in every run, with the lock or without, no stored token is ever dropped, and one whose server nobody asks for stays as it was, whatever fails |
| `TokenRefresh.SaveChangesOneServer` | internal/auth/tokenstore.go:145-155 | under the lock a save changes the refreshed server's token in the current file and no other, however many refreshes it overlaps |
| `TokenRefresh.WithoutTheLockItIsSpentTwice` | internal/registry/registry.go:2511-2513 | where the file lock cannot be had the code refreshes anyway: any expired token that can be refreshed is then sent twice by two goroutines |
| `TokenRefresh.SpentOnceWithoutTheLock` | internal/registry/registry.go:2503-2531 | were the lock optional, no refresh token value would be sent twice in runs that carry every exchange through if and only if no stored token has an expiry, a refresh token and an endpoint |
| `TokenRefresh.NextKeepsInv` | internal/registry/registry.go:2503-2531 | a step keeps the invariant that only the lock holder works on the stored token if and only if it is not a refresh begun without the lock, or with a token that is no longer the stored one because the file could not be read |
| `TokenRefresh.TokenStore.LoadFile` | internal/auth/tokenstore.go:84-109 | a missing file is an empty one; an unreadable file is an error |
| `TokenRefresh.TokenStore.GetToken` | internal/auth/tokenstore.go:135-141 | a lookup returns the server's stored token, if any |
| `TokenRefresh.TokenStore.SetToken` | internal/auth/tokenstore.go:145-155 | a save changes the entry under the token's own server and no other |
| `TokenRefresh.TokenStore.DeleteToken` | internal/auth/tokenstore.go:159-169 | a delete removes one server's entry |
| `TokenRefresh.TokenStore.GetValidToken` | internal/registry/registry.go:2480-2533 | a token good for 300 seconds more is returned untouched; an expired one is spent once if it can be refreshed, and what comes back, with the answer's access token, expiry and refresh token (or the old one), is returned and saved under its server with every other token kept |
| `SlopLock.ReleasedExactlyOnce` | internal/server/slop_runtime.go:86-107 | on every path the execution lock is released exactly once, never while it is not held, and is free when all jobs are done |
| `SlopLock.HeldUntilTheEnd` | internal/server/slop_runtime.go:80-120 | while a job's runtime is being built, parsed with or executed the lock is held by it alone and not yet released, even after its handler timed out |
| `SlopLock.CallerIsTheRunningScript` | internal/builtins/runtime.go:16-95 | from the moment a server job's runtime exists until its execution ends, the package-global pipeline caller is its own if and only if no RunScriptContext job has built a runtime in the same process since |
| `SlopLock.ALoneJobIsTheCaller` | internal/builtins/runtime.go:61-95 | a process that runs a single job, of whatever kind, has its pipeline callbacks answered by that job |
| `SlopLock.NextKeepsInv` | internal/server/handlers.go:362-387 | every step of handler and worker keeps the ownership of the lock |
| `SlopLock.StepsRunOut` | internal/server/slop_runtime.go:86-120 | every step of a job brings its end nearer and touches no other job |
| `SlopLock.SomeoneCanMove` | internal/server/slop_runtime.go:80-120 | while a job is not finished, it or the owner of the lock has a step to take |
| `SlopLock.ResultIsTheOutcome` | internal/server/slop_runtime.go:86-120 | a handler that gets a result gets what its own script ended with |
| `SlopLock.OwnerCanMove` | internal/server/custom_exec.go:132-161 | whenever the lock is held its owner has a step to take that waits for nobody |
| `Similarity.LcsIsTheMaximum` | internal/registry/registry.go:2363-2385 | the recurrence gives the greatest length of a common subsequence: it is reached and never exceeded |
| `Similarity.LcsIsReached` | internal/registry/registry.go:2363-2385 | a common subsequence of that length exists |
| `Similarity.LcsIsABound` | internal/registry/registry.go:2363-2385 | no common subsequence is longer |
| `Similarity.LcsIsSymmetric` | internal/registry/registry.go:2363-2385 | the length does not depend on the order of the names |
| `Similarity.LcsOfSubstring` | internal/registry/registry.go:2340-2351 | for a substring the length is the shorter name's |
| `Similarity.ShortcutAgrees` | internal/registry/registry.go:2335-2360 | the substring shortcut gives what the slow path would, for all non-empty names |
| `Similarity.ScoreIsAPercentage` | internal/registry/registry.go:2335-2360 | similarity is within 0..100, symmetric, and 100 exactly for equal non-empty names |
| `Similarity.ScoreIsTheShare` | internal/registry/registry.go:2335-2360 | similarity is the greatest length of a common subsequence in hundredths of the longer name, rounded down |
| `Similarity.LongestCommonSubsequence` | internal/registry/registry.go:2363-2385 | the table filled in place holds the recurrence, and its last cell is returned |
| `Similarity.ComputeSimilarity` | internal/registry/registry.go:2335-2360 | the branching code computes that percentage |
| `Similarity.BestMatch` | internal/registry/registry.go:2303-2318 | the suggestion is the first of the most similar expected names, compared without case, underscores and hyphens, and there is one exactly when some name is at least half alike |
| `Similarity.FindSimilarParams` | internal/registry/registry.go:2285-2322 | suggestions are made for exactly the provided names that are not expected and have a match, each the first of the best |
| `Wrap.WrapIsOptimal` | internal/builtins/template.go:706-729 | the wrapped lines hold the words in order, none is too long but for a single word, and no such breaking has fewer lines |
| `Wrap.WrappedTextIsShortest` | internal/builtins/template.go:691-729 | of all texts with the same words whose lines are no longer than the width, single words aside, the wrapped text has the fewest lines |
| `Wrap.WrapKeepsWords` | internal/builtins/template.go:706-729 | wrapped text has the same words, so wrapping again changes nothing |
| `Wrap.GreedyBreaks` | internal/builtins/template.go:714-726 | greedy lines fit and keep every word |
| `Wrap.GreedyIsShortest` | internal/builtins/template.go:714-726 | any other breaking of the same words needs at least as many lines |
| `Wrap.BuiltinWrap` | internal/builtins/template.go:691-729 | the loop over words builds that text; a width of zero or less returns the text unchanged |
| `Dedent.SharedIsLongest` | internal/builtins/template.go:633-655 | a string of blanks and tabs starts every non-blank line exactly when it is a prefix of the one found |
| `Dedent.CommonIsLongest` | internal/builtins/template.go:677-688 | a string is a prefix of both exactly when it is a prefix of the common prefix |
| `Dedent.DedentKeepsLines` | internal/builtins/template.go:657-673 | blank lines become empty and every other line is the shared indentation followed by its result |
| `Dedent.DedentIsIdempotent` | internal/builtins/template.go:621-675 | after dedenting no indentation is shared, so dedenting again changes no line |
| `Dedent.DedentTwice` | internal/builtins/template.go:621-675 | dedenting a text twice is dedenting it once |
| `Dedent.CommonPrefix` | internal/builtins/template.go:677-688 | the scan returns the common prefix |
| `Dedent.FindIndent` | internal/builtins/template.go:633-655 | the scan, early stop included, finds the shared indentation |
| `Dedent.BuiltinDedent` | internal/builtins/template.go:621-675 | the two loops compute the dedented text |
| `CanonicalJson.StringReadsBack` | internal/overrides/hash.go:67-71 | a JSON reader gets an escaped string back and stops at its closing quote |
| `CanonicalJson.ValueReadsBack` | internal/overrides/hash.go:22-54 | a JSON reader gets every canonically encoded value back, nested to any depth, and reads no further |
| `CanonicalJson.StrMapIsMap` | internal/overrides/hash.go:26-31 | a map of strings encodes as the general map holding the same strings |
| `CanonicalJson.EncodingIsInjective` | internal/overrides/hash.go:12-81 | two values have the same encoding if and only if a reader sees the same value, whatever order maps were iterated in |
| `CanonicalJson.EncodedMapIsHarmless` | internal/overrides/hash.go:56-81 | the encoding of a string map is one line without control characters, line separators or markup characters |
| `CanonicalJson.EscapesOfMarshal` | internal/overrides/hash.go:67-71 | the characters json.Marshal escapes, and how; every other character stands for itself |
| `CanonicalJson.HashInputIsInjective` | internal/overrides/hash.go:81-94 | the hashed text of two (description, parameters) pairs is equal if and only if both agree |
| `CanonicalJson.Buffer.EncodeCanonical` | internal/overrides/hash.go:22-54 | the recursive encoder appends exactly the encoding to the buffer |
| `CanonicalJson.Buffer.EncodeArray` | internal/overrides/hash.go:34-44 | the array loop writes the items in order with commas between |
| `CanonicalJson.Buffer.EncodeMap` | internal/overrides/hash.go:56-79 | the map loop writes the pairs in key order |
| `CanonicalJson.CopyStrings` | internal/overrides/hash.go:27-30 | the copy holds each string under its key |
| `CanonicalJson.ComputeHashInput` | internal/overrides/hash.go:83-93 | the text fed to the digest is the description, a newline and the canonical parameters |
| `ShellQuoting.QuotedScans` | internal/cli/executor.go:165-169 | a single-quoted argument reads as exactly that argument, with any quotes in it |
| `ShellQuoting.ArgScans` | internal/server/agnt_watch.go:193-210 | an argument left unquoted or quoted reads as exactly itself |
| `ShellQuoting.LeftBareOrQuoted` | internal/server/agnt_watch.go:193-210 | an argument is left as it is exactly when it is not empty and made of letters, digits and _.,/:=- only |
| `ShellQuoting.QuotedLiterally` | internal/cli/executor.go:165-169 | a quoted argument stands between single quotes, and a quote inside is written quote, backslash, quote, quote |
| `ShellQuoting.JoinReadsBack` | internal/server/agnt_watch.go:197-211 | tokenising the joined arguments gives exactly the arguments, for all lists |
| `ShellQuoting.ShellCommandReadsBack` | internal/cli/executor.go:51-58 | in shell mode the suffix adds exactly the argument words, which nothing expands, to any command line that ends outside quotes and comments, and leaves its own tokens as they were |
| `ShellQuoting.JoinShellArgs` | internal/server/agnt_watch.go:201-211 | the array-filling loop joins the quoted arguments |
| `ShellQuoting.BuildShellCommand` | internal/cli/executor.go:54-57 | the loop appends the quoted arguments to the command |
| `ShellReader.ScanOn` | internal/cli/executor.go:54-57 | a complete command line followed by a blank is read on from a clean start |
| `SearchScore.TermOccurs` | internal/registry/index.go:33-50 | every term of a query is non-empty and a stretch of the query |
| `SearchScore.TermsSplit` | internal/registry/index.go:33-50 | a query falls into terms at blanks, underscores, hyphens and dots |
| `SearchScore.OneTerm` | internal/registry/index.go:33-50 | and nowhere else: a stretch without those is one term, in lower case |
| `SearchScore.SubstringScores` | internal/registry/index.go:263-272 | a tool a substring scan of name or description would find scores above zero |
| `SearchScore.ZeroMeansNoMatch` | internal/registry/index.go:211-275 | a tool scores zero if and only if every strategy misses |
| `SearchScore.ScoreIsTheSum` | internal/registry/index.go:9-19 | what each strategy is worth, from 1000 for an exact name to 25 for a term in the description, and 10 for a fuzzy match when nothing else matches |
| `Strings.NormalizeFirst` | internal/registry/registry.go:2325-2332 | a normalized name is the name without underscores, hyphens and spaces, in lower case |
| `SearchScore.ExactNameScore` | internal/registry/index.go:219-259 | a tool named as the query gets at least 1650 + 50 per term, exactly that when nothing else matches |
| `SearchScore.OtherNameBound` | internal/registry/index.go:219-259 | a tool failing the exact-name test gets at most 1550 + 75 per term |
| `SearchScore.OtherNameReaches` | internal/registry/index.go:219-259 | a tool matching everywhere else gets exactly that |
| `SearchScore.ExactNameOutranks` | internal/registry/index.go:9-19 | for at most three terms a tool named as the query outranks every tool failing the exact-name test |
| `SearchScore.OutrankedFromFourTerms` | internal/registry/index.go:9-19 | against a tool matching everywhere else it wins if and only if there are fewer than four terms, and ties at four |
| `SearchScore.ExactNamesWinUpToThreeTerms` | internal/registry/index.go:9-19 | a tool named as the query outranks every tool failing the exact-name test, whatever the tools, if and only if the query has at most three terms |
| `Search.ContainsAllTerms` | internal/registry/index.go:53-61 | the loop decides whether every term occurs |
| `Search.CountMatchingTerms` | internal/registry/index.go:64-73 | the loop counts the terms that occur |
| `Search.ScoreTerms` | internal/registry/index.go:234-259 | the term strategies add up |
| `Search.ScoreTool` | internal/registry/index.go:211-275 | the accumulated score is the sum of the strategies, with the fuzzy fallback at zero |
| `Search.ScoreMcp` | internal/registry/index.go:168-177 | the tools of one MCP that score are collected in order |
| `Search.ScoreIndex` | internal/registry/index.go:160-178 | every MCP the filter lets through is collected once, in whatever order the map is visited |
| `Search.SearchIndex` | internal/registry/index.go:142-194 | the results are exactly the scoring tools, with multiplicity, the higher score first and then by MCP and tool name bytewise; for up to three terms every tool named as the query comes before every one that fails the exact-name test |
| `Ordering.LessByFirstDifference` | internal/registry/index.go:180-185 | string order is decided by the first byte that differs |
| `Search.RankRanks` | internal/registry/index.go:180-185 | sorting puts no tool before one that precedes it |
| `Search.CollectedSplits` | internal/registry/index.go:160-178 | what is collected does not depend on the order of the MCPs |
| `Search.CollectedHolds` | internal/registry/index.go:160-178 | a scored tool is collected if and only if an MCP the filter lets through lists it with that score |
| `Search.SubstringIsFound` | internal/registry/index.go:142-194 | a tool a substring scan would find is among the results, with and without the filter of its MCP |

## Left out

Where a property has a condition, this is why:

- RegistryTheorems.NoConnectStorm: the exceptions (a session installed, an unregister, a cache load that takes effect, a restart) replace the failure record in the code; Connect, Reconnect and the backoff loop ignore the window by design.
- RegistryCalls.EnsureConnectedRuns: like the other lemmas of RegistryCalls it follows one goroutine's own steps, from any state in which the semaphore, and where needed the rebuild lock, is free; what others may do between them is the business of the invariants.
- RegistryCalls.RetryDials: for a name without a connection, as it is in the loop; where there is one the drop comes first, as in RegistryCalls.ReconnectDials.
- RegistryTheorems.RetriesAreCounted: the counter claim excepts names whose state a cache load replaced during the loop, which resets the counter (internal/registry/registry.go:385-397).
- OverrideFlush.FlushLosesNothing: needs one owner per key, because a touched set is never cleared (internal/overrides/store.go:326-334) and two processes editing one key get whichever flushed last. It also needs a file that parses when a process starts; an unreadable one is replaced by memory.
- OverrideStore.ShadowedEntriesAreOverwritten: the doc comment of Import (internal/overrides/pack.go:175-176) says colliding keys are skipped, but the code, and the comment inside it (internal/overrides/pack.go:219-222), skip only a key that the target scope wins, so an entry a stronger scope shadows is overwritten; the lemma gives the exact condition.
- TokenRefresh.NeverSpentTwice: needs every exchange carried through, because an answer without a refresh token keeps the old one (internal/auth/auth.go:506-510), and a lost answer, failed save or crash leaves a spent token stored. Logins and logouts write the same file without the cross-process lock (internal/auth/auth.go:218, internal/auth/tokenstore.go:159-169) and are not among the goroutines modelled.
- RegistryRetries.BackoffEndsOneOfTwoWays: excepts a loop that is cancelled, and says what the loop can end in, not that it is scheduled until it ends.
- ConfigIdentity.HashIsIdentity: for fields without the separator characters; with a newline or a NUL inside a field, or a "=" inside a header or variable name, the hashed texts of different configurations can coincide. The hash keeps 64 bits of a digest that is not modelled.
- CanonicalJson.ValueReadsBack: fractions, exponents and structs are not values here; the encoder's one caller passes a map of strings (internal/overrides/hash.go:83-93).
- CanonicalJson.EncodingIsInjective: the same values are missing.
- CanonicalJson.Buffer.EncodeCanonical: the same values are missing from the encoder's default case.
- Search.SearchIndex: the exact-name law excepts the empty query, which scores nothing and lists every tool by name, and queries of more than three terms, for which SearchScore.ExactNamesWinUpToThreeTerms shows it fails.
- SlopLock.CallerIsTheRunningScript: RunScriptContext takes the lock after its caller has built the runtime (internal/builtins/runtime.go:61-65), so beside other jobs it would rebind their caller; the lemma says exactly when. The program runs it only in processes of one job, which ALoneJobIsTheCaller covers.
- ShellQuoting.ShellCommandReadsBack: a configured command that ends inside a quote or a comment is not followed by words at all; back-quotes, here-documents, and $( or ${ inside double quotes, which nest command lines of their own, are outside the tokenizer.

Not modelled:

- The comment on writeBank that it takes no file lock is out of date; the model follows the code, which takes one (internal/overrides/store.go:349-424).
- LoadCache visits its entries in one critical section; RegistryMachine lets other goroutines in between its turns, which only allows more interleavings.
- The override provider is a value that changes by a later SetOverrideProvider, as the server does after every edit (internal/server/customize_handler.go:656); reads of a store that changes under a rebuild are not modelled.
- SetCached as a public entry, AddToolsForTesting and MarkCachedForTesting have no callers outside tests. Health-check timestamps, lastReconnect and error texts are not state here.
- Cache files other than their entries (version, timestamps, corrupt files) and SetEntry's own load-modify-save across processes.
- Export's MCP, key and scope filters, pack versions and metadata fields; source hashes and staleness reports.
- KDL: comments between slashes and stars, slashdash, raw strings, type annotations, properties and floats; only what the writer emits and line comments are read. AddMCPToFile and AddMCPConfigToFile are the one-entry case of AddMCPConfigsToFile.
- JSON: fractions, exponents and structs, which override parameters never hold; strings that are not valid UTF-8, which encoding/json rewrites. The fallback of ComputeHash on an encoding error cannot happen for a map of strings.
- Search: Unicode case folding; sort.Slice is an insertion sort here, one of the orders it may produce among equal tools.
- The template package's other builtins, floating-point helpers and YAML output.
- Transports, subprocesses, HTTP, OAuth discovery, command-line parsing, the documentation site and the launchers.
