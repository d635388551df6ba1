# The wallet's persistence, invoice and network cores

A Dafny model of the parts of a browser Lightning wallet whose correctness is hardest to see by reading
them: the two-store backup of channel monitors and its restore, the BOLT 11 encoder, the internals of the
Esplora client, two event-driven state machines, and the payment URI and fee arithmetic.

`dafny verify dfyconfig.toml` checks everything.

## How it is built

**Backup.** `MonitorWrite` is one channel monitor's column of the two stores: the server's object, the
IndexedDB row, the cached version, the requests and replies on the wire, and the running
`persistWithRetry`. The loop body is cut at its awaits into a state machine; events are what the outside
does (serve a request at any later time, write from another device, fail, lose a reply) and the settling of
an awaited promise. An event that cannot happen changes nothing, so every sequence of events is a run and a
theorem over all sequences is a theorem over all runs. `MonitorSafety`, `MonitorRetry` and `MonitorQuiet` hold the theorems.
`Persister` is the source's loop, with its local variables, as a method of a class that owns the version
cache; it is proved to be that machine on every script of outside events. `WriteChain` is `handlePersist`'s
chain of promises on the microtask queue. `Manifest`, `ManifestProtocol`, `ManifestSolo` and
`ManifestWriter` do the same for the shared list of monitor keys, with any number of devices. `Recovery` is
the restore block, as a function of how each outside step answers and as methods of a class with the
block's variables. `Backup` puts the columns and the manifest together into sessions and lives of the
wallet.

**Invoice.** `JsInt` has the 32-bit operators of JavaScript. `Bits` and `Regroup` are the 5-to-8-bit
conversions, `Bolt11Fields`, `Bolt11Route`, `Bolt11Data` and `Bolt11Amount` the encoder, each beside a reader
written from sections "Human-Readable Part", "Data Part" and "Tagged Fields" of BOLT 11. `bech32.toWords` is
the regrouping with zero padding of BIP 173. `Scid` is `parseLsps2Scid`.

**Network.** `Lru`, `EsploraCache` and `Limiter` are the three pieces of the Esplora client; `SyncLoop` is the
on-chain sync loop and `LspsTable` the LSPS0 request table. Each has a class whose fields are the source's
variables; its methods only tie the source's form to a step function, and the theorems are about that
function's runs.

**Payments.** `Bip321` has the amounts, `PaymentUri` the classifier and the URI builder, `OpeningFee` the fee.

## What turned out not to hold

The model keeps the code as it is. Where a property one would expect is false, the exact condition is proved.

- A write that has used its five conflict retries and whose cached version is behind the server's sleeps and
  retries for ever; one lost reply followed by five failing re-reads gets it there with no other device
  involved (`SleepingReturnsIff`, `StuckReachable`).
- A conflict retry left is not always enough: puts that once timed out and land late cost one each. The write
  returns under every schedule exactly when they can cause no more conflicts than it has retries left
  (`ReturnsIff`, `LateOwnPut`).
- An earlier page's put, in flight at the server's version when a session starts without that version cached,
  can replace an update while it is being acknowledged (`SoloAckSafety`, `LatePutReplaces`).
- The shared manifest only grows exactly when no device may hold the server's current version without knowing
  its keys. Start-up that seeds the version from the server and the keys from IndexedDB allows it
  (`GrowsForeverIff`).
- A server manifest of more than 1000 keys cannot be parsed, so the first conflicting device replaces it by its
  own keys and drops those it does not know (`RetryKeepsIff`).
- Recovery alone leads to the orphan-monitor error exactly when the rollback's delete of the monitors fails and
  no ChannelManager stays behind (`StartupAfterRecovery`).
- The timestamp mask is -1 after truncation to 32 bits, so a timestamp survives exactly below 2^31 and in the
  last 2^31 seconds of the 35-bit range (`TimestampExact`); expiry and CLTV survive exactly below 2^31
  (`IntExact`).
- A cache of capacity 0 behaves like one of capacity 1 (`CachedIff`), and a cache miss hands out the very array
  that is cached (`CallerWritePoisons`).
- A throw of `getSignal` loses a permit, and two of them stop the client for good (`LeakedIff`, `DeadForever`).
- A request sent under an id that is still waiting loses the older promise (`ExactIff`).
- On a menu that is not ordered the first usable entry need not be the cheapest, and an entry that overflows
  hides the rest (`RightChoiceIff`, `UnorderedMenus`).
- A name whose user part begins like an invoice or an offer is taken for one (`NameIsRead`).
- Building a URI upper-cases the address, so a base58 address comes back changed (`AddressComesBack`), and
  `bip321.ts`'s own reader misses the amount in the upper-cased URI (`UpperLosesAmount`).

## Model

| member | source | states |
|---|---|---|
| Backup.LivesKeepEveryChannel | src/ldk/traits/persist.ts:88-291 | However many lives the wallet has (a session under any faults, loss of the device, recovery), each ending backed up, the monitor found for every outpoint is the last update LDK ever issued for it |
| Backup.LifeKeeps | src/ldk/init.ts:305-380 | One life: recovery rebuilds, channel by channel, exactly the last issued update, and the next session starts in a state from which all claims hold again |
| Backup.RestoreIsIdentity | src/ldk/init.ts:305-380 | Backup then restore is the identity: with every write acknowledged and the last manifest write accepted, recovery on an empty device yields the same monitor map, key list and ChannelManager, and every version is the server's |
| Backup.NextSessionInv | src/ldk/init.ts:456-459 | Seeding the version cache from recovery re-establishes the whole session invariant although requests of the lost device may still land |
| Backup.RunsKeep | src/ldk/traits/persist.ts:88-291 | Every event of a session keeps the invariant tying all channels' stores and versions to the manifest |
| Backup.RunsTrack | src/ldk/traits/persist.ts:245-291 | After any run each outpoint's column holds the last update issued for that very outpoint: no update lands in another channel's row |
| Backup.DoneSettled | src/ldk/traits/persist.ts:134-140 | When all writes are acknowledged and the last manifest write succeeded, VSS and IndexedDB agree on the latest bytes of every channel and the server lists exactly the device's keys |
| MonitorKey.KeyMatchesPattern | src/ldk/traits/persist.ts:14-20 | Every outpoint's key matches the manifest pattern |
| MonitorKey.PatternIff | src/ldk/traits/persist.ts:20-20 | A key is well-formed exactly if it is 64 lower-case hexadecimal digits, a colon and at least one decimal digit |
| MonitorKey.KeyInjective | src/ldk/traits/persist.ts:14-16 | Different outpoints never share a key |
| MonitorSafety.AckSafety | src/ldk/traits/persist.ts:151-214 | Under any failures, late requests and foreign writes, when the acknowledgement is about to be made IndexedDB holds exactly that update's bytes, and the server has taken them from this session or held them at some moment while this very write was under way |
| MonitorSafety.SoloAckSafety | src/ldk/traits/persist.ts:151-214 | Without other writers: at every acknowledgement of every session from here the server still holds those bytes at the cached version, if and only if no put of an earlier page is still on its way at the server's version or the session starts with that version cached |
| MonitorSafety.LatePutReplaces | src/ldk/init.ts:415-422 | Otherwise a concrete run loses the acknowledged bytes: no failure and no other device, only the late put and a cache that is behind |
| MonitorSafety.AckOrder | src/ldk/traits/persist.ts:245-270 | Acknowledgements are the issued updates' ids, in LDK's order, each at most once |
| MonitorSafety.IdbNeverGoesBack | src/ldk/traits/persist.ts:160-161 | At no later moment of any run does IndexedDB hold an older update |
| MonitorSafety.NoRollback | src/ldk/traits/persist.ts:154-158 | In every session without other writers, earlier pages' puts still in flight at up to the server's version included, the server's update never gets older, the cached version is at most the server's and no put of this session in flight exceeds it |
| MonitorSafety.QuietMeansSettled | src/ldk/traits/persist.ts:134-140 | Under the same exact condition, and only then, both stores hold the last update in every session whose issued updates are all acknowledged |
| MonitorRetry.RetryBounds | src/ldk/traits/persist.ts:44-47 | The n-th sleep is min(500*2^n, 60000) ms, attempts are at most sleeps + 6, "unavailable" fires once and exactly after the fifth sleep, "recovered" fires on return exactly if it had |
| MonitorRetry.ConflictIsReread | src/ldk/traits/persist.ts:170-236 | Counted on the run: a put that comes back as a conflict is looked into by a get as long as the write has sent fewer than five gets, and is slept on from then on |
| MonitorRetry.SixMoreAttempts | src/ldk/traits/persist.ts:44-47 | A run without other writers reaches the bound: six more attempts than sleeps |
| MonitorQuiet.ReturnsIff | src/ldk/traits/persist.ts:146-237 | From any reachable state, whatever faults and other devices did before: once faults and foreign writes stop, the write returns under every schedule of the puts still on the wire if and only if these can cause at most as many conflicts as it has conflict retries left |
| MonitorQuiet.SafeReturns | src/ldk/traits/persist.ts:146-237 | Then, with n such conflicts, it makes at most n + 1 more attempts and has returned when its turn has come 4n + 5 times, whatever is served in between |
| MonitorQuiet.QuietReturns | src/ldk/traits/persist.ts:146-237 | Without other writers one conflict retry left suffices: at most two more puts and eight turns under every schedule; with an earlier page's put possibly late, two retries, three puts and twelve turns |
| MonitorQuiet.LateOwnPut | src/ldk/traits/persist.ts:170-214 | A concrete run with one retry left from which, with no further fault or foreign write, a schedule keeps the write from returning for ever: a timed-out put of an update acknowledged long ago lands late |
| MonitorRetry.SleepingReturnsIff | src/ldk/traits/persist.ts:216-236 | A sleeping write of a session without other writers has some way to return if and only if a conflict retry is left or the cached version equals the server's |
| MonitorRetry.StuckForever | src/ldk/traits/persist.ts:216-218 | Otherwise no further event of the session ever makes it return |
| MonitorRetry.StuckReachable | src/ldk/traits/persist.ts:170-214 | A concrete run from an empty store, with no other device, reaches that state |
| Persister.Persister.PersistWithRetry | src/ldk/traits/persist.ts:141-238 | The loop with its local variables: for every script of outside events its stores, cached version, callbacks and progress are those of the state machine, and it returns exactly when the machine does |
| Persister.Persister.TryBoth | src/ldk/traits/persist.ts:152-168 | VSS first, then IndexedDB; which exception leads where, with the exact state the catch starts from |
| Persister.Persister.Resolve | src/ldk/traits/persist.ts:177-213 | The conflict branch: re-read, repair the cached version, finish on equal data, otherwise continue at the top; no other key's version is touched |
| WriteChain.ChannelOrder | src/ldk/traits/persist.ts:243-270 | Per channel, writes begin and are acknowledged strictly in turn whatever other channels do, at most one is active, and an idle microtask queue leaves no write waiting for nothing |
| Manifest.ParseMonitorManifest | src/ldk/traits/persist.ts:24-42 | The loop returns the distinct keys or the first failing check's error |
| Manifest.ParsePayload | src/ldk/traits/persist.ts:24-42 | A written key list parses back to itself, in order, if and only if it has 1 to 1000 distinct well-formed keys |
| Manifest.ParseSound | src/ldk/traits/persist.ts:34-41 | Whatever parses has exactly the text entries, well-formed, each once |
| ManifestProtocol.ManifestGrows | src/ldk/traits/persist.ts:85-132 | With any number of devices interleaving gets and compare-and-set puts, also late ones, no key once listed by the server is ever dropped |
| ManifestProtocol.StartedKeysListed | src/ldk/traits/persist.ts:82-132 | With any number of devices: a device never forgets a key it started with or opened, and whenever its last manifest write succeeded with none queued, the server lists all of them |
| ManifestProtocol.RecoveredKeysListed | src/ldk/init.ts:377-378 | The same for a device started by recovery, which knows all the server listed |
| ManifestProtocol.FirstWriteAfterRecovery | src/ldk/init.ts:456-459 | A recovered device's first manifest write is accepted without a conflict and adds exactly the new key |
| ManifestProtocol.BackfillLists | src/ldk/traits/persist.ts:334-338 | A wallet older than the manifest gets exactly its IndexedDB keys listed |
| ManifestProtocol.GrowsForeverIff | src/ldk/init.ts:402-430 | That holds if and only if no device starts with the server's current version and without one of its keys, also when it knows no key at all |
| ManifestProtocol.StepKeeps | src/ldk/traits/persist.ts:88-132 | Every step keeps the invariant that a list which may be put at a version covers what the server listed at that version |
| ManifestProtocol.RetryKeepsIff | src/ldk/traits/persist.ts:98-127 | A device behind the server's version merges and retries with no fault and no race: every key of the server's list is still an entry of it afterwards if and only if there were at most 1000 or the device knew them all |
| ManifestSolo.RunsSolo | src/ldk/traits/persist.ts:85-132 | With one device, after a successful last write the server's list is exactly the device's, at its cached version, and nothing in flight can change it |
| ManifestSolo.OwnStep | src/ldk/traits/persist.ts:104-107 | With one device a conflict merge never changes the key set, which grows only by opened channels |
| ManifestWriter.Writer.WriteManifest | src/ldk/traits/persist.ts:88-132 | The closure as written, with LDK opening channels during its awaits: it takes exactly the protocol's steps |
| ManifestWriter.Writer.MergeAndRetry | src/ldk/traits/persist.ts:99-127 | The conflict branch: take the server's version, merge its keys into the live set, put once more |
| Recovery.AllOrNothing | src/ldk/init.ts:305-400 | Wherever the block fails, also between chunks, the device ends with every listed monitor at its VSS value and version and the ChannelManager if every step worked, and empty otherwise, given working rollback deletes |
| Recovery.RestoresRows | src/ldk/init.ts:313-352 | A restorable recovery reproduces any rows and versions the server answers with |
| Recovery.StartupAfterRecovery | src/ldk/init.ts:597-605 | Recovery alone never leaves an unreadable monitor, and leads to the orphan error exactly under the stated failures of the rollback |
| Recovery.WrittenAll | src/ldk/init.ts:315-352 | The chunked download completes if and only if no chunk is late and every monitor is there, readable and writable |
| Recovery.FetchedBeforeWritten | src/ldk/init.ts:315-346 | Nothing of a chunk of ten is written before all of it has arrived in time |
| Recovery.Device.RecoverFromVss | src/ldk/init.ts:305-400 | The block with its variables ends in the state the specification gives, for every pattern of answers |
| Recovery.Device.Download | src/ldk/init.ts:313-352 | The chunk loop: a chunk is fetched in full before any of it is written, and the rows written are a prefix of the manifest |
| Regroup.WordsToBuffer | src/ldk/lsps2/bolt11-encoder.ts:175-192 | Although the accumulator is never masked and wraps at 32 bits, the result is ceil(5n/8) bytes whose bits are the words' bits and fewer than 8 zeros |
| Regroup.BufferOfWords | src/ldk/lsps2/bolt11-encoder.ts:169-192 | Bytes to words and back gives the bytes plus one zero byte unless their number is a multiple of 5 |
| Regroup.ToBytesToWords | src/ldk/lsps2/bolt11-encoder.ts:169-172 | A reader that drops padding gets every byte sequence back from its words |
| Bolt11Fields.IntToWords | src/ldk/lsps2/bolt11-encoder.ts:200-209 | The loop yields the shortest base-32 numeral of the number after JavaScript's 32-bit truncation |
| Bolt11Fields.IntExact | src/ldk/lsps2/bolt11-encoder.ts:200-209 | The number is encoded exactly if and only if it is below 2^31 |
| Bolt11Fields.BigintToBytes | src/ldk/lsps2/bolt11-encoder.ts:244-252 | Filling the array from its end gives the low bytes, most significant first |
| Bolt11Fields.ReadBigEndian | src/ldk/lsps2/bolt11-encoder.ts:244-252 | Reading them back gives the value modulo 2^(8n), for negative values too |
| Bolt11Route.EncodeRouteHint | src/ldk/lsps2/bolt11-encoder.ts:218-242 | The pushes of every hop are the words of its 51 packed bytes, in order |
| Bolt11Route.RouteRoundTrip | src/ldk/lsps2/bolt11-encoder.ts:218-242 | A reader of the packed bytes gets every hop back, numbers as 32-bit code cuts them |
| Bolt11Route.CarriedIff | src/ldk/lsps2/bolt11-encoder.ts:223-239 | A hop survives exactly if its channel id is a u64, its fees are below 2^32 and its delta below 2^16 |
| Bolt11Data.WordBuffer.AddTaggedField | src/ldk/lsps2/bolt11-encoder.ts:154-164 | Appends tag, two length words and data, or throws past 1023 words and changes nothing |
| Bolt11Data.BuildDataPart | src/ldk/lsps2/bolt11-encoder.ts:125-152 | The encoder's word array is the specified one, or it throws |
| Bolt11Data.FieldOrder | src/ldk/lsps2/bolt11-encoder.ts:134-149 | The fields carry the tags of "Tagged Fields" in the source's order, one r field for each route |
| Bolt11Data.ThrowsIff | src/ldk/lsps2/bolt11-encoder.ts:154-157 | It throws if and only if the description exceeds 639 bytes or a route exceeds 12 hops |
| Bolt11Data.DataRoundTrip | src/ldk/lsps2/bolt11-encoder.ts:125-164 | A BOLT 11 reader of the encoder's result returns every field, hashes, description bytes, payee, features, all route hops, and the numbers as encoded; and there is nothing to read exactly when the encoder throws |
| Bolt11Data.RoundTripIff | src/ldk/lsps2/bolt11-encoder.ts:125-164 | The reader gets exactly what was asked for if and only if the description has at most 639 bytes, every route at most 12 hops, the timestamp is in its range, expiry and CLTV are below 2^31 and every hop is in range |
| Bolt11Data.TimestampExact | src/ldk/lsps2/bolt11-encoder.ts:128-132 | The timestamp survives exactly below 2^31 or from 2^35 - 2^31 up to 2^35 |
| Bolt11Data.SignedRoundTrip | src/ldk/lsps2/bolt11-encoder.ts:81-88 | Whenever the encoder does not throw, a reader separates the 65 signature bytes from the fields and gets both back |
| Bolt11Data.ScidThroughInvoice | src/ldk/lsps2/bolt11-encoder.ts:257-268 | A channel id parsed from text and given to any hop of any route stands in the reader's invoice, at that hop, as the three numbers written |
| Bolt11Amount.AmountRoundTrip | src/ldk/lsps2/bolt11-encoder.ts:93-121 | The reader of the human-readable part gets every positive amount back exactly, and no amount otherwise |
| Bolt11Amount.AmountInjective | src/ldk/lsps2/bolt11-encoder.ts:93-121 | Distinct positive amounts have distinct prefixes |
| Bolt11Amount.LargestMultiplier | src/ldk/lsps2/bolt11-encoder.ts:106-120 | The multiplier is the largest of m, u, n, p that is exact, and a p amount ends in 0 |
| Scid.ParseShow | src/ldk/lsps2/bolt11-encoder.ts:257-268 | Printed ids parse to the packed value if and only if all parts are in range |
| Scid.ParseSpaced | src/ldk/lsps2/bolt11-encoder.ts:258-262 | White space around the three numbers does not matter |
| Scid.ParseSound | src/ldk/lsps2/bolt11-encoder.ts:257-268 | Any accepted text yields a u64 whose three fields are the numbers written |
| Lru.CachedIff | src/ldk/sync/esplora-client.ts:43-71 | After any gets and sets a key is cached if and only if it was touched and fewer than capacity other keys were touched since |
| Lru.CacheIsNewest | src/ldk/sync/esplora-client.ts:51-70 | The map's insertion order is the recency order of the most recently touched distinct keys |
| Lru.CachedValue | src/ldk/sync/esplora-client.ts:51-70 | What is cached is what the key was last set to |
| Lru.LruCache.Get | src/ldk/sync/esplora-client.ts:51-59 | The method on the map equals the specification's get, reordering included |
| Lru.LruCache.Set | src/ldk/sync/esplora-client.ts:61-70 | The method on the map equals the specification's set, eviction included |
| EsploraCache.HitsAreTrue | src/ldk/sync/esplora-client.ts:147-160 | With an honest source, however lookups, fetches and fills of any number of callers interleave, whoever gets bytes gets those an uncached fetch would have given |
| EsploraCache.DecodesIff | src/ldk/sync/esplora-client.ts:121-125 | Bytes come of a lookup exactly of a 64-digit hash, a 2xx status and a body that is those bytes in hexadecimal, at least one; any other status is a failed fetch |
| EsploraCache.FilledThenHit | src/ldk/sync/esplora-client.ts:157-159 | What a fetch brought is answered from the cache next time, without another fetch |
| EsploraCache.Client.GetBytes | src/ldk/sync/esplora-client.ts:147-160 | Header and transaction lookup: the answer or the error is the uncached one; a hit is a copy and a miss the very array cached |
| EsploraCache.CallerWritePoisons | src/ldk/sync/esplora-client.ts:155-159 | After a caller writes one byte into the array of a miss the next hit is right if and only if that byte was there already |
| Limiter.LimiterSafe | src/ldk/sync/esplora-client.ts:102-119 | Over every interleaving free, held and leaked permits are two, waiters exist only at count 0 and are served first-in first-out, and at most one unsettled fetch exists per URL |
| Limiter.CallersGetTheFetchs | src/ldk/sync/esplora-client.ts:102-119 | Every caller gets the promise of a fetch of the URL it asked for, and from it exactly the outcome with which that fetch ended in the script: its own settling, or an error if its signal threw |
| Limiter.ReadOffScript | src/ldk/sync/esplora-client.ts:106-117 | Over all runs, whether a fetch is under way, how it ended and whether it is off the table are those read off the script |
| Limiter.CallJoinsOrStarts | src/ldk/sync/esplora-client.ts:103-118 | A caller joins the fetch of its URL that is still on the table, or starts one, let through at once exactly when a permit is free |
| Limiter.JoinsUnsettled | src/ldk/sync/esplora-client.ts:103-104 | A caller of an unsettled URL gets that fetch's promise and takes no permit |
| Limiter.OutcomeForever | src/ldk/sync/esplora-client.ts:106-118 | A settled outcome never changes, so all callers sharing a promise get the same one |
| Limiter.LeakedIff | src/ldk/sync/esplora-client.ts:106-114 | Fewer than two permits are free or held by a request if and only if getSignal threw before the try |
| Limiter.DeadForever | src/ldk/sync/esplora-client.ts:27-40 | With no permit free and none held, no waiter is ever served again |
| Limiter.DeadReachable | src/ldk/sync/esplora-client.ts:106-114 | Two throwing signals reach that state, and it lasts |
| Limiter.Semaphore.AcquireFor | src/ldk/sync/esplora-client.ts:27-33 | Takes a permit at once or queues the caller last |
| Limiter.Semaphore.ReleaseOne | src/ldk/sync/esplora-client.ts:35-39 | Hands the permit to the longest waiter or puts it back |
| Limiter.Client.DedupFetch | src/ldk/sync/esplora-client.ts:102-119 | The method on the inflight map and the semaphore is the step of the interleaving model |
| SyncLoop.NeverDiesNeverDoubles | src/onchain/sync.ts:43-135 | Before stop exactly one of an armed timer and a running sync exists; afterwards no timer is armed |
| SyncLoop.SyncStartsIff | src/onchain/sync.ts:43-109 | After any script an event starts a sync, and exactly one, when the armed timer fires or syncNow is called while the script has not stopped the loop, last paused it or left a sync running, and in no other case; a due tick of a paused loop arms the next timer instead |
| SyncLoop.NoneWhilePaused | src/onchain/sync.ts:45-48 | From pause on no sync starts until resume, whatever fires or is called |
| SyncLoop.StopIsFinal | src/onchain/sync.ts:112-118 | After stop no new sync ever starts |
| SyncLoop.ThreeShortDelays | src/onchain/sync.ts:96-105 | After syncNow exactly the next three schedules use the short delay, unless it is called again |
| SyncLoop.LongUntilThen | src/onchain/sync.ts:96-105 | Until syncNow is called every schedule is a long one |
| SyncLoop.SyncHandle.SyncNowPlease | src/onchain/sync.ts:125-134 | The handler on the closure's variables and the timers is the machine's step |
| SyncLoop.SyncHandle.SyncEnded | src/onchain/sync.ts:86-94 | The finally block and the next schedule, success or failure |
| LspsTable.TableSafe | src/ldk/lsps2/message-handler.ts:56-162 | Every promise settles at most once and is resolved only by its own peer under its own id, no peer has more than 10 pending, and payloads are handed out exactly once in order |
| LspsTable.RequestFate | src/ldk/lsps2/message-handler.ts:56-215 | Along any script a waiting request is settled with exactly the first of: a response from its own peer under its id, its peer's disconnect, a reaper pass after more than 30 s, the end; until then it waits |
| LspsTable.AcceptedIff | src/ldk/lsps2/message-handler.ts:71-93 | A request is accepted exactly when its payload has an id and fewer than ten of its peer's requests wait; it then waits from now on and its payload is queued |
| LspsTable.ExactIff | src/ldk/lsps2/message-handler.ts:84-93 | Accepted requests are unsettled if and only if pending, exactly when no request was accepted under an id still waiting |
| LspsTable.LostForever | src/ldk/lsps2/message-handler.ts:88-88 | A promise that dropped out of the table is never settled |
| LspsTable.ReapExact | src/ldk/lsps2/message-handler.ts:61-69 | A reaper pass removes exactly the entries older than 30 s |
| LspsTable.Handler.SendRequest | src/ldk/lsps2/message-handler.ts:71-93 | The method on the map and the queue is the machine's step, cap and id overwriting included |
| LspsTable.Handler.HandleMessage | src/ldk/lsps2/message-handler.ts:97-131 | So is the response handler: only the id's own peer resolves |
| LspsTable.Handler.RejectWhere | src/ldk/lsps2/message-handler.ts:156-161 | Deleting while iterating rejects and removes exactly the selected entries |
| Bip321.ReadsFloor | src/onchain/bip321.ts:7-16 | Exactly decimal strings are read, each as floor(10^8 * value) |
| Bip321.SatsRoundTrip | src/onchain/bip321.ts:19-24 | Reading undoes printing for every amount |
| Bip321.EightPlaces | src/onchain/bip321.ts:19-24 | An amount is printed as its whole bitcoins and eight decimal places |
| PaymentUri.UriRoundTrip | src/ldk/payment-input.ts:60-67 | Classifying a built URI selects offer over invoice over address and returns the exact satoshis |
| PaymentUri.UpperUriRoundTrip | src/pages/Receive.tsx:364-364 | So does classifying it fully upper-cased, as shown in the QR code |
| PaymentUri.AddressComesBack | src/onchain/bip321.ts:34-34 | The address itself is returned if and only if it is a mainnet address without lower-case letters |
| PaymentUri.UpperAddressIsMainnet | src/ldk/payment-input.ts:247-251 | Every bech32 address is accepted after upper-casing |
| PaymentUri.OnChainIsMainnet | src/ldk/payment-input.ts:89-94 | Whatever the text, an on-chain result has the form of a mainnet address |
| PaymentUri.InvoiceText | src/ldk/payment-input.ts:74-77 | A text beginning lnbc or lntb in any letter case goes as it is to the invoice parser |
| PaymentUri.OfferText | src/ldk/payment-input.ts:79-82 | A text beginning lno1 in any letter case goes to the offer parser |
| PaymentUri.OuterSpace | src/ldk/payment-input.ts:61-61 | White space around a text does not matter |
| PaymentUri.LightningScheme | src/ldk/payment-input.ts:69-72 | Nor does lightning: before it, in any letter case and with white space on either side |
| PaymentUri.NameIsRead | src/ldk/payment-input.ts:74-87 | user@host.tld is read as a name, without the bitcoin sign; without the sign a user name that begins like an invoice or an offer is taken for that |
| PaymentUri.NameDecomposes | src/ldk/payment-input.ts:85-85 | Only such texts are read as names |
| PaymentUri.AddressIsRead | src/ldk/payment-input.ts:89-94 | A bare mainnet address is an on-chain payment without an amount |
| PaymentUri.Bech32Iff | src/ldk/payment-input.ts:15-15 | A segwit address is bc1 and 25 to 87 lower-case letters and digits |
| PaymentUri.LegacyIff | src/ldk/payment-input.ts:16-16 | A base58 address is 1 or 3 and 25 to 34 base58 characters |
| PaymentUri.ElseUnrecognized | src/ldk/payment-input.ts:96-96 | Any other text is refused |
| PaymentUri.ParseQuery | src/ldk/payment-input.ts:212-230 | The loop over the pairs fails if any pair is malformed and otherwise yields the last value of each key, in any letter case |
| PaymentUri.ParseBip321Uri | src/ldk/payment-input.ts:199-259 | The method is the specified reading: split, decode, preference, network check, amount |
| PaymentUri.MalformedIsRejected | src/ldk/payment-input.ts:220-225 | A pair that cannot be decoded spoils the whole URI, whatever else it offers |
| PaymentUri.BadAmountIgnored | src/ldk/payment-input.ts:253-259 | An amount that is no decimal number is ignored, not refused |
| PaymentUri.ReadInvoice | src/ldk/payment-input.ts:226-240 | Under the key lightning the classifier reads an invoice |
| PaymentUri.ReadOffer | src/ldk/payment-input.ts:226-236 | Under the key lno it reads an offer |
| PaymentUri.BuildBip321Uri | src/onchain/bip321.ts:33-46 | The pushes and the join give the specified URI |
| PaymentUri.BuiltInvoice | src/onchain/bip321.ts:39-41 | The builder writes an invoice under the key lightning |
| PaymentUri.BuiltOffer | src/onchain/bip321.ts:42-44 | It writes an offer under the key lno |
| PaymentUri.BuiltAmount | src/onchain/bip321.ts:36-38 | It writes an amount in bitcoin under the key amount |
| PaymentUri.ReadBack | src/onchain/bip321.ts:48-71 | The other reader, too, gets the address and the exact amount from a built URI |
| PaymentUri.UpperLosesAmount | src/onchain/bip321.ts:58-60 | From the upper-cased URI it gets the address and never the amount |
| OpeningFee.FeeIsSpecified | src/ldk/lsps2/types.ts:85-92 | The fee is the larger of the minimum and the rounded-up proportional part, and it throws exactly when the u64 sum overflows |
| OpeningFee.FeeMonotone | src/ldk/lsps2/types.ts:85-92 | A larger payment, minimum or rate never lowers the fee nor removes an overflow |
| OpeningFee.SelectsCheapest | src/ldk/lsps2/types.ts:94-107 | On an ordered menu an entry is found exactly when a usable one exists, it has the least fee of all usable ones, and the amount received after the fee is positive |
| OpeningFee.SelectCheapestParams | src/ldk/lsps2/types.ts:94-107 | The scan returns the specified entry or the first overflow before it |
| OpeningFee.RightChoiceIff | src/ldk/lsps2/types.ts:94-107 | On any menu the choice exists when it should and is the cheapest usable one if and only if the entry at which the scan stops neither overflows nor costs more than a usable one |
| OpeningFee.UnorderedMenus | src/ldk/lsps2/types.ts:103-104 | Two menus on which it is not |

## Left out

- `archive_persisted_channel`: its delete is not chained behind pending writes and a conflict merge can re-add the key, so no run-wide claim holds with it.
- Sessions that seed versions from the server and keys from IndexedDB: they are the failing side of `GrowsForeverIff` and are not part of the sessions of module Backup.
- Backup.RunsTrack: `update_persisted_channel` for an outpoint that was neither opened nor restored is ignored; LDK does not call it so, and the source would write a monitor that no manifest lists.
- Backup.RestoreIsIdentity: the recovery is one in which every step works and the servers answer from the state the session left; requests of the lost device stay on the wire and are served in the next session (`NextSessionInv`).
- Backup.LivesKeepEveryChannel: the ChannelManager blob is given per life; how it is written to VSS is not modelled beyond its presence and its 32-byte minimum.
- Recovery.AllOrNothing: a failed `idbPut` leaves no row, since it rejects only when its transaction has failed and was aborted (`src/storage/idb.ts:96-104`); module MonitorWrite, more cautiously, lets it fail either way. Known-peers rows in IndexedDB are not rolled back by the source and are not part of the claim; the step is one boolean.
- Recovery.Device.RecoverFromVss: progress callbacks and log calls are assumed not to throw, and the clock is a choice per chunk.
- Persister.Persister.PersistWithRetry: one key's events at a time; other keys' writes interleave only through module Backup. `onVssUnavailable` and `onVssRecovered` are counters and assumed not to throw.
- MonitorSafety.AckSafety: the chain monitor is assumed set when writes return; until then the source skips the call.
- MonitorQuiet.ReturnsIff: a schedule is quiet from the given state on until the write returns; requests still on the wire may also never be served, and the awaited one counts as a turn when it is.
- MonitorSafety.NoRollback: stated for sessions without other writers; with them a server value of this session can be replaced by theirs, as the conflict branch intends. Foreign deletes are a step of the machine, too.
- WriteChain.ChannelOrder: `persistWithRetry` is not assumed to return; a rejected write, which the loop never produces, is not modelled.
- ManifestWriter.Writer.WriteManifest: one link of the chain; that links run one after the other is the `queued` counter of module ManifestProtocol.
- ManifestProtocol.GrowsForeverIff: at most 1000 different well-formed keys over all devices, since beyond that `RetryKeepsIff` says when it fails; at least two, since with one there is nothing to drop; no archiving.
- Bolt11Data.RoundTripIff: non-negative whole numbers only; fractions, NaN and infinities are not modelled. The description is its UTF-8 bytes.
- Bolt11Data.SignedRoundTrip: the signature is any 65 bytes; hashing, signing and the bech32 checksum are foreign code.
- EsploraCache.Client.GetBytes: one lookup at a time (`HitsAreTrue` has them interleave); the fetch itself is module Limiter, and its body is a parameter. The merkle-proof cache has a block hash in its key but not in its URL and is not covered.
- Limiter.LimiterSafe: a fetch settles by an event; timeouts and aborts are ways to fail.
- SyncLoop.NeverDiesNeverDoubles: what a sync does with the wallet is one event, success or failure; `onBalanceUpdate` outside `tick` and error capture are assumed not to throw.
- LspsTable.TableSafe: message text is reduced to the id it carries, if any; payload bytes and the flush callback are not modelled. The order in which a pass over the table rejects is not modelled.
- PaymentUri.UriRoundTrip: the invoice, offer and name parsers are foreign code, so the classification stops at the text handed to them; parts of the request are free of `?`, `&`, `%` and white space. Letter case is ASCII only.
- PaymentUri.ReadBack: as UriRoundTrip; `URLSearchParams` decoding is a parameter that changes nothing without `%` and `+`.
- Bip321.SatsRoundTrip: amounts are non-negative; the source throws on a negative one, which `buildBip321Uri` never passes.
- OpeningFee.FeeIsSpecified: sizes and rates are non-negative, as the decoder of the menu ensures.
- React pages, hooks and routing; WASM calls into LDK and BDK; JSON, protobuf and HTTP text; encryption of VSS values; real IndexedDB: user interface, foreign code or plumbing.
- Serverless and worker proxies; broadcaster, sweep and funding-transaction cleanup; `chain-sync.ts`: plumbing, or no claim holds because failures are swallowed.
- Numpad reducer, formatting, msat rounding and fee clamps: easy members only.
