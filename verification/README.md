# Verified models of Couchbase server components

Dafny models of the parts of this source tree whose correctness is least obvious from reading one
function, and proofs about them. `dafny verify dfyconfig.toml` checks everything.

- **Bucket lifecycle** (`BucketModel`, `BucketLocal`, `BucketHandle`, `BucketInv`, `BucketTheorems`, `BucketEffects`):
  the concurrent protocol of `bucket_engine`, as a transition system. Each atomic operation and each
  unlocked access is a step of one of any number of threads, over any number of connections and
  buckets: connect, select, create, delete, calls into an engine, reserve, release, disconnect, the
  shutdown thread of each deleted bucket and the global `bucket_destroy`. An inductive invariant is
  kept by every step, and the theorems hold in every state of every run; `BucketEffects` says what each
  operation can bring about from the end of any run.
- **Rehashed hash table** (`Assoc`, `AssocTable`): moxi's hash table with two live tables during an
  expansion, as functions that refine a finite map, and as a class whose loops compute them in place.
- **JSON** (`JsonGrammar`, `CJson`, `CJsonText`, `CJsonPrint`, `CJsonParse`, `CJsonRoundTrip`): moxi's cJSON
  printer and parser, with the buffers the printer sizes before it fills them, proved against the
  grammar of RFC 8259, sections 2 to 7, written out byte by byte.
- **Generic hash and top keys** (`GenHash`, `TopKeys`, `TopKeysShard`): a map from key to a stack of
  values, and least-recently-used lists over it with a linked list and an index that must agree.
- **Reconfiguration** (`AgentConfig`, `AgentMain`, `AgentWorkers`): moxi's reconciliation of its proxy
  list with a configuration, and the worker threads' snapshots of a proxy.
- **Pipelines** (`Pump`, `GenSource`, `RestBuffer`): the two-thread batch handoff, the workload
  generator's ratio controller, and libconflate's chunked receiver.
- `Prelude` and `Sums` are helpers: options, and sums of weights over maps.

Inputs from outside are parameters: what an engine, a source or a sink answers, whether an allocation
succeeds, hash functions, the configuration's accepted buckets. Memory is sequentially consistent.

Where code and comments disagree the model follows the code: the comment on `refcount` in
`bucket_engine_internal.h` describes connections that are disconnected but kept for their
reservations, and `BucketTheorems.ConnectedUntilReleased` shows that there are none; an in-place
`genhash_update` keeps the length stored with the old value.

## Model

| member | source | states |
|---|---|---|
| `BucketTheorems.HeldIsAlive` | bucket_engine/bucket_engine.c:759-809 | in every reachable state a bucket that some thread got from get_engine_handle, try_get_engine_handle or a winning DELETE is RUNNING or STOPPING, its engine is not destroyed and its handle not freed |
| `BucketTheorems.NoLostShutdown` | bucket_engine/bucket_engine.c:744-751 | a STOPPING bucket always has a client inside or a thread between its last decrement and the compare-and-swap |
| `BucketTheorems.QuiescentNotStopping` | bucket_engine/bucket_engine.c:1462-1480 | with no operation in flight no bucket is left STOPPING |
| `BucketTheorems.RefcountIsExact` | bucket_engine/bucket_engine_internal.h:36-51 | at every step `refcount` is the table link plus the connections bound and connected plus reservations plus live temporaries, and `clients` is the number of threads between increment and decrement |
| `BucketTheorems.NoUseAfterFree` | bucket_engine/bucket_engine.c:522-574 | outside global shutdown no step of any thread touches a freed handle |
| `BucketTheorems.ZeroIsAbsorbing` | bucket_engine/bucket_engine.c:1397-1442 | an unlinked bucket whose reference count is zero stays so for the rest of the run |
| `BucketTheorems.ConnectedUntilReleased` | bucket_engine/bucket_engine.c:1060-1088 | the header comment's "disconnected but reserved" connection is never reached; a bound connection's handle is not freed outside global shutdown |
| `BucketTheorems.NoLostWakeup` | bucket_engine/bucket_engine.c:1412-1436 | a shutdown thread asleep on refcount_cond has references left to wait for or a releaser yet to broadcast, and global shutdown has not begun; a sleeping bucket_destroy has a counted shutdown thread to wait for |
| `BucketTheorems.GlobalBarrier` | bucket_engine/bucket_engine.c:1316-1333 | from the moment bucket_destroy is past its wait, in that and every later state of the run, it stays past it, the counter is zero and no counted shutdown thread runs |
| `BucketTheorems.DestroyedOnce` | bucket_engine/bucket_engine.c:1282-1294 | an engine is destroyed at most once by anyone, and exactly once for every bucket when bucket_destroy has finished |
| `BucketTheorems.DeleteCompletion` | bucket_engine/bucket_engine.c:2218-2252 | one DELETE wins and one shutdown thread starts at most; the winner's cookie and force flag are recorded before they are used; the winner is notified at most once and after the unlink |
| `BucketTheorems.UnlinksExactlyOne` | bucket_engine/bucket_engine.c:1387-1403 | the shutdown thread's genhash_delete_all removes its own handle and nothing else, so `upd == 1` holds |
| `BucketTheorems.StateMovesForward` | bucket_engine/bucket_engine.c:1462-1466 | over any run the state goes RUNNING, STOPPING, STOPPED, NULL only forward, the winner is not replaced and an unlinked bucket is not linked again |
| `BucketTheorems.AssertionsHold` | bucket_engine/bucket_engine.c:856-876 | every assert of the modelled functions holds before every step of every run, those on the counters after an increment included, and every pointer a step follows is allocated |
| `BucketTheorems.NoDeadlock` | bucket_engine/bucket_engine.c:1359-1451 | whenever a thread is neither idle, finished nor asleep on a condition variable, such a thread can take a step: no wake-up is needed for progress |
| `BucketEffects.DeleteWinsIff` | bucket_engine/bucket_engine.c:2218-2231 | over any run the compare-and-swap of a DELETE stops the bucket and puts the deleting thread, connection and force flag on record if and only if the bucket was RUNNING; otherwise it changes nothing |
| `BucketEffects.DeleteCanComplete` | bucket_engine/bucket_engine.c:2165-2252 | whatever the name, connection and force flag, some run from the initial state ends with the bucket NULL, unlinked, destroyed once, notified once and freed, with that DELETE on record |
| `BucketEffects.DeleteStops` | bucket_engine/bucket_engine.c:2212-2250 | from the end of any run in which a thread is idle and the mutexes are free, its DELETE of a RUNNING bucket with no client can be carried out: it stops the bucket, starts its shutdown thread and unbinds the connection, and changes nothing else but reference counts |
| `BucketEffects.DeleteWaits` | bucket_engine/bucket_engine.c:2212-2250 | likewise for a bucket with clients: it is left STOPPING with the DELETE on record |
| `BucketEffects.LastCallerStops` | bucket_engine/bucket_engine.c:1462-1480 | the last caller to leave a STOPPING bucket stops it and starts its shutdown thread |
| `BucketEffects.ShutdownUnlinks` | bucket_engine/bucket_engine.c:1359-1411 | a shutdown thread can go on until the engine is destroyed, the bucket unlinked and NULL, and the deleting connection notified |
| `BucketEffects.ShutdownFrees` | bucket_engine/bucket_engine.c:1428-1451 | with no reference left it can free the bucket and end |
| `BucketEffects.ShutdownSleeps` | bucket_engine/bucket_engine.c:1428-1436 | with one left it can go to sleep |
| `BucketEffects.CreateLinks` | bucket_engine/bucket_engine.c:662-735 | CREATE of a name not in use links a RUNNING bucket of that name, whose only reference in the end is the table's or another thread's |
| `BucketEffects.ConnectBinds` | bucket_engine/bucket_engine.c:1100-1133 | a new connection is bound to the default bucket, by name or by handle |
| `BucketEffects.ConnectUnbound` | bucket_engine/bucket_engine.c:1100-1133 | without a default it is bound to none |
| `BucketEffects.SelectBinds` | bucket_engine/bucket_engine.c:858-876 | SELECT binds the connection to the linked RUNNING bucket of the name |
| `BucketEffects.SelectUnbinds` | bucket_engine/bucket_engine.c:2323-2347 | SELECT of a bucket that cannot be found takes the connection from the one it was bound to |
| `BucketEffects.DeleteFindsNothing` | bucket_engine/bucket_engine.c:2212-2260 | DELETE of one that cannot be found changes nothing |
| `BucketEffects.CreateFails` | bucket_engine/bucket_engine.c:662-735 | CREATE of a name in use, or one that fails, changes nothing |
| `BucketEffects.AuthCreates` | bucket_engine/bucket_engine.c:1146-1162 | authentication creates a missing bucket when auto_create is set, and binds the connection to it |
| `BucketEffects.ConnectCreates` | bucket_engine/bucket_engine.c:1109-1133 | so does a new connection for the default name |
| `BucketEffects.CallEnters` | bucket_engine/bucket_engine.c:785-809 | a connection bound to a RUNNING bucket, or to none while the default is RUNNING, gets into that engine and is counted |
| `BucketEffects.CallLeaves` | bucket_engine/bucket_engine.c:744-751 | a caller that leaves a RUNNING bucket only decrements its clients |
| `BucketEffects.Reserves` | bucket_engine/bucket_engine.c:2494-2533 | an engine can reserve the connection it serves |
| `BucketEffects.ReserveRefused` | bucket_engine/bucket_engine.c:2514-2527 | of a bucket that is not RUNNING, or when memcached refuses, nothing changes |
| `BucketEffects.ReleaseWakes` | bucket_engine/bucket_engine.c:522-533 | dropping a reference goes on to wake the shutdown threads if and only if it was the last one |
| `BucketEffects.Releases` | bucket_engine/bucket_engine.c:2548-2575 | releasing takes one reservation away |
| `BucketEffects.DisconnectBound` | bucket_engine/bucket_engine.c:1040-1088 | a connection to a RUNNING bucket is forgotten when it goes unless it is reserved, and then stays as it was |
| `BucketEffects.DisconnectUnbound` | bucket_engine/bucket_engine.c:1033-1040 | a connection bound to no bucket is forgotten when it goes |
| `BucketEffects.DestroyFinishes` | bucket_engine/bucket_engine.c:1309-1345 | bucket_destroy, when no client and no shutdown thread runs, destroys every linked bucket's engine and empties the table |
| `BucketInv.InvNext` | bucket_engine/bucket_engine.c:744-837 | every step of every thread keeps the inductive invariant that the theorems rest on |
| `BucketInv.InitInv` | bucket_engine/bucket_engine.c:662-735 | the state after initialisation satisfies it |
| `BucketHandle.RefMove` | bucket_engine/bucket_engine.c:522-574 | what each step adds to a bucket's count is what it adds to the references that threads, connections and the table hold |
| `BucketHandle.HandleMove` | bucket_engine/bucket_engine.c:1462-1480 | how each step moves a bucket's state, counters and records, and the stepping thread's phase |
| `BucketHandle.StageMove` | bucket_engine/bucket_engine.c:1359-1451 | each step keeps what the stage of a deleting or shutdown thread says about its bucket |
| `BucketLocal.LocalNext` | bucket_engine/bucket_engine.c:1008-1133 | each step keeps the ownership of the mutexes and of the connections by their threads |
| `BucketInv.HandleAfter` | bucket_engine/bucket_engine.c:662-735 | a step keeps a bucket's counting, state and record invariant |
| `BucketInv.NamesAfter` | bucket_engine/bucket_engine.c:697-699 | no two linked handles ever have one name |
| `BucketInv.WaitAfter` | bucket_engine/bucket_engine.c:1412-1436 | a step keeps what sleeping threads wait for |
| `BucketInv.GlobalNext` | bucket_engine/bucket_engine.c:1316-1333 | a step keeps the count of running shutdown threads and the order of bucket_destroy |
| `Assoc.InsertRefines` | moxi/assoc.c:133-157 | inserting an absent key adds it to the map the table stands for; an expansion into twice the buckets starts if and only if none is under way, there are now more than 3/2 items a bucket and the allocation succeeds |
| `Assoc.MaskIs` | moxi/assoc.c:33-34 | the mask is the remainder by a power of two |
| `Assoc.DeleteRefines` | moxi/assoc.c:95-112 | deleting a present key removes it from the map and from the count |
| `Assoc.ExpandRefines` | moxi/assoc.c:115-130 | starting an expansion, or failing to allocate for it, changes no lookup |
| `Assoc.MigrateRefines` | moxi/assoc.c:195-216 | moving one old bucket changes no lookup, no count, and keeps every item in the chain its hash selects |
| `Assoc.MigrateSplits` | moxi/assoc.c:198-209 | old bucket b goes to new buckets b and b + 2^(hashpower-1) with no item lost, duplicated or misplaced; no other bucket changes |
| `Assoc.SpreadIs` | moxi/assoc.c:199-205 | a moved chain lands reversed in front of what each new bucket held |
| `Assoc.MaskSplit` | moxi/assoc.c:203 | one more mask bit keeps a hash in its bucket or moves it up by the old size |
| `Assoc.MigrateSomeRefines` | moxi/assoc.c:185-216 | a pass of the maintenance thread moves exactly the buckets asked for or finishes: the distance to completion falls by that many |
| `Assoc.StepRefines` | moxi/assoc.c:65-177 | find, insert, delete and migration give the caller what the finite map gives, failed assertions included |
| `Assoc.RunRefines` | moxi/assoc.c:65-216 | whatever sequence of operations and migration passes is run, every reply is the finite map's |
| `Assoc.EmptyRefines` | moxi/assoc.c:57-63 | the initial table is the empty map |
| `AssocTable.HashTable.constructor` | moxi/assoc.c:57-63 | an empty table of 2^hashpower chains |
| `AssocTable.HashTable.Find` | moxi/assoc.c:65-90 | the loop along the selected chain returns the map's entry |
| `AssocTable.HashTable.Insert` | moxi/assoc.c:133-157 | in place: the new table is Assoc.Insert of the old one, or nothing changes when the key is present |
| `AssocTable.HashTable.Delete` | moxi/assoc.c:159-177 | in place: the first item with the key is unlinked, or nothing changes when there is none |
| `AssocTable.HashTable.Expand` | moxi/assoc.c:115-130 | in place: the tables are swapped and the new one is empty |
| `AssocTable.HashTable.MigrateBucket` | moxi/assoc.c:198-216 | the loop over an old chain moves it as Assoc.Migrate does |
| `AssocTable.HashTable.MaintenancePass` | moxi/assoc.c:185-216 | a pass under the lock; it leaves the expansion running exactly when the distance exceeded the bulk |
| `AssocTable.RemoveFromAt` | moxi/assoc.c:95-112 | unlinking at the position found removes the first item with the key |
| `CJsonRoundTrip.RoundTrip` | moxi/cJSON.c:231-303 | parsing printed text gives the tree back without the control bytes that have no escape, formatted or not; exactly the printable trees come back unchanged |
| `CJsonRoundTrip.PrintIsJson` | moxi/cJSON.c:231-447 | the printed text is, byte by byte, a JSON text by the grammar of RFC 8259 for what survives of the value, formatted or not, in the layout that the printer chooses |
| `CJsonText.AcceptsExactly` | moxi/cJSON.c:245-257 | parse_value takes a text with a value, and stops where it does, if and only if the grammar of JsonGrammar (RFC 8259 widened by what this parser lets pass) has a text there with that value |
| `CJsonText.ParsesExactly` | moxi/cJSON.c:231-238 | the same for cJSON_Parse, after blanks |
| `CJsonText.JsonParses` | moxi/cJSON.c:231-238 | every JSON text of the subset, with blanks anywhere RFC 8259 allows them, is parsed to its value up to its end |
| `CJsonText.StrictIsLax` | moxi/cJSON.c:245-389 | what RFC 8259 allows the parser takes |
| `CJsonRoundTrip.ValueRoundTrip` | moxi/cJSON.c:245-278 | the same for any value at any depth, followed by any text that ends a number |
| `CJsonRoundTrip.ArrayRoundTrip` | moxi/cJSON.c:281-354 | arrays: separators and blanks are skipped and the elements come back in order |
| `CJsonRoundTrip.ObjectRoundTrip` | moxi/cJSON.c:357-447 | objects: names, values, indentation and line ends |
| `CJsonRoundTrip.StringRoundTrip` | moxi/cJSON.c:136-215 | a printed string parses to its bytes less the control bytes without an escape, up to exactly the closing quote |
| `CJsonRoundTrip.NumberRoundTrip` | moxi/cJSON.c:92-132 | every 32-bit integer comes back from its decimal text |
| `CJsonRoundTrip.StripKeeps` | moxi/cJSON.c:195-211 | a tree loses nothing in printing if and only if each of its strings and names is printable |
| `CJsonRoundTrip.StripPrintable` | moxi/cJSON.c:195-211 | what survives of a string is printable, and is the string exactly when that was |
| `CJsonPrint.BufferSuffices` | moxi/cJSON.c:184-447 | for every tree and depth the text and its NUL fit the size computed in the first pass |
| `CJsonPrint.NumberFits` | moxi/cJSON.c:115-122 | the decimal text of a 32-bit integer has at most 11 characters |
| `CJsonPrint.ValueNoNul` | moxi/cJSON.c:184-447 | printed text holds no NUL, so strlen and strcpy see all of it |
| `CJsonPrint.PrintStringPtr` | moxi/cJSON.c:184-215 | the two passes of print_string_ptr fill a buffer of len + 3 with the escaped string, within bounds |
| `CJsonPrint.PrintNumberText` | moxi/cJSON.c:115-122 | the number fits its 21 bytes |
| `CJsonPrint.PrintJson` | moxi/cJSON.c:260-276 | the text of a value |
| `CJsonPrint.PrintArray` | moxi/cJSON.c:306-354 | the entries are measured, then composed in a buffer of that size, within bounds |
| `CJsonPrint.PrintObject` | moxi/cJSON.c:392-447 | the same for names and values, with indentation |
| `CJsonPrint.CollectElems` | moxi/cJSON.c:319-327 | the first pass of print_array and the length it computes |
| `CJsonPrint.CollectMembers` | moxi/cJSON.c:407-415 | the first pass of print_object and the length it computes |
| `CJsonPrint.ComposedIs` | moxi/cJSON.c:428-447 | composing the printed names and values gives the object's text in the size the first pass computed |
| `CJsonPrint.PutElems` | moxi/cJSON.c:342-350 | the composing loop of print_array stays inside the buffer |
| `CJsonPrint.PutMembers` | moxi/cJSON.c:429-441 | the composing loop of print_object stays inside the buffer |
| `CJsonParse.SkipBlanks` | moxi/cJSON.c:228 | the position after the blanks |
| `CJsonParse.MeasureString` | moxi/cJSON.c:141 | the first pass of parse_string counts the decoded characters, or runs off only where the text is outside the grammar |
| `CJsonParse.FillString` | moxi/cJSON.c:143-181 | the second pass decodes into len + 1 bytes, within bounds |
| `CJsonParse.ParseStringText` | moxi/cJSON.c:136-181 | parse_string on a text at a position is ParseString on the rest of the text |
| `CJsonParse.ParseNumberText` | moxi/cJSON.c:92-112 | parse_number on integers |
| `CJsonParse.ParseJson` | moxi/cJSON.c:245-257 | parse_value, dispatching on the first byte |
| `CJsonParse.ParseArray` | moxi/cJSON.c:281-303 | parse_array agrees with CJson.ParseValue on the rest of the text |
| `CJsonParse.ParseElements` | moxi/cJSON.c:290-303 | the loop of parse_array builds the elements in order |
| `CJsonParse.ParseObject` | moxi/cJSON.c:357-389 | parse_object agrees with CJson.ParseValue on the rest of the text |
| `CJsonParse.ParseEntries` | moxi/cJSON.c:366-389 | the loop of parse_object builds the members in order |
| `CJsonParse.ParseText` | moxi/cJSON.c:231-238 | cJSON_Parse of a NUL-terminated text |
| `GenHash.HashTable.Store` | bucket_engine/genhash.c:104-126 | pushes on the key's stack, one dup, other keys untouched |
| `GenHash.HashTable.HomeIs` | bucket_engine/genhash.c:104-112 | the bucket of a key is the remainder of its hash by the size |
| `GenHash.HashTable.Find` | bucket_engine/genhash.c:128-156 | the top of the key's stack, if any |
| `GenHash.HashTable.Update` | bucket_engine/genhash.c:158-177 | replaces the top (keeping the stored length) or pushes; one dup, and one free when it replaces |
| `GenHash.HashTable.FunUpdate` | bucket_engine/genhash.c:179-208 | the same with a value computed from the old one or the default |
| `GenHash.HashTable.Delete` | bucket_engine/genhash.c:218-251 | pops at most one value and says how many, one free for it |
| `GenHash.HashTable.DeleteAll` | bucket_engine/genhash.c:253-261 | returns the height of the stack and empties it |
| `GenHash.HashTable.Iterate` | bucket_engine/genhash.c:263-278 | visits every entry once, each key's values top first |
| `GenHash.HashTable.Clear` | bucket_engine/genhash.c:280-297 | empties the table with as many frees as dups, and returns 0 |
| `GenHash.FlattenCells` | bucket_engine/genhash.c:271-277 | walking the buckets in order meets a key's values exactly as its chain holds them |
| `GenHash.ReplaceFirst` | bucket_engine/genhash.c:158-251 | replacing or unlinking the first entry of a key changes the top of its stack only |
| `TopKeys.KeysAreMostRecent` | bucket_engine/topkeys.c:107-125 | after any accesses the list is the max_keys most recently accessed distinct keys in recency order |
| `TopKeys.CountersExact` | bucket_engine/topkeys.h:24-38 | each counter is the number of matching operations since the access that created the item, whose time is the creation time |
| `TopKeys.ShardsAreMostRecent` | bucket_engine/topkeys.c:164-169 | shard s holds the most recent keys among those whose hash leaves remainder s by eight, and no others |
| `TopKeys.ShardOfIs` | bucket_engine/topkeys.c:164-169 | a key is in the shard that the remainder of its hash by eight numbers, and in no other |
| `TopKeys.SameShard` | bucket_engine/topkeys.c:164-169 | two keys share a shard if and only if eight divides the difference of their hashes |
| `TopKeys.RecentIs` | bucket_engine/topkeys.c:107-125 | the recent keys are distinct and are exactly the keys accessed |
| `TopKeys.RecentWithout` | bucket_engine/topkeys.c:107-125 | forgetting a key's accesses removes it and keeps the order of the others |
| `TopKeysShard.Unlink` | bucket_engine/topkeys.c:76-81 | dlist_remove on a circular list: both its assertions hold and the other links are kept |
| `TopKeysShard.InsertFront` | bucket_engine/topkeys.c:83-88 | dlist_insert_after the sentinel |
| `TopKeysShard.Shard.ItemDelete` | bucket_engine/topkeys.c:100-105 | the item leaves the index and the list together |
| `TopKeysShard.Shard.GetOrCreate` | bucket_engine/topkeys.c:107-125 | list, index and nkeys agree before and after; the list becomes TopKeys.Promote of the old one |
| `TopKeysShard.Shard.Touch` | bucket_engine/topkeys.h:24-38 | the TK macro: the list becomes TopKeys.Touch of the old one, so it is what TopKeys.Run gives for all accesses so far: the max_keys most recent distinct keys |
| `TopKeysShard.Shard.constructor` | bucket_engine/topkeys.c:35-63 | an empty shard |
| `AgentConfig.RoundReconciles` | moxi/agent_config.c:1189-1252 | for any configuration, names repeated or with outer blanks included: a round passes its assertions and keeps (name, port) unique if and only if the names fit the list, and then, proxy by proxy, effective buckets hold their content, the null bucket stays and all others are shut down; the new version is above all earlier ones |
| `AgentConfig.PlainNamesFit` | moxi/agent_config.c:506-538 | distinct names without outer blanks always fit |
| `AgentConfig.BlankBeforePlainFails` | moxi/agent_config.c:1463 | the buckets "a " and "a" on one port fail the assertion that the version is new |
| `AgentConfig.BlankNameLive` | moxi/agent_config.c:1333-1390 | the bucket "a " alone leaves a live proxy called "a", which no bucket names |
| `AgentConfig.RoundLiveIffAccepted` | moxi/agent_config.c:1268-1328 | after a round whose names fit every proxy but the null bucket has the new version and is live if and only if some bucket of its trimmed name and port was effective; no proxy is lost |
| `AgentConfig.RoundsSucceed` | moxi/agent_config.c:1189-1465 | for as many rounds as the version counter has left, no assertion fails and (name, port) stays unique if and only if the names of each round fit those known before it |
| `AgentConfig.NextVerAbove` | moxi/agent_config.c:1200-1217 | the new version is above every version in the list if and only if the largest is not 2^32 - 1 |
| `AgentConfig.UniqueKeptIff` | moxi/agent_config.c:1333-1390 | (name, port) stays unique if and only if the name is found, not created, or not taken once trimmed, since cproxy_create trims the name it stores |
| `AgentConfig.BlankNameDuplicates` | moxi/agent_config.c:1333-1390 | a bucket called "a " configured twice leaves two proxies called "a" |
| `AgentConfig.OnConfigPoolKeeps` | moxi/agent_config.c:1333-1465 | one bucket passes the assertions and keeps (name, port) unique if and only if it fits the list; then it changes its own proxy only |
| `AgentConfig.DuplicatesStay` | moxi/agent_config.c:1333-1465 | two proxies with one name and port stay two, whatever is configured later |
| `AgentConfig.ApplyAllIs` | moxi/agent_config.c:506-538 | all buckets of a configuration pass the assertions and keep (name, port) unique if and only if each fits the list and no two clash; then each effective one holds its content and every other proxy stays |
| `AgentConfig.CloseFromIs` | moxi/agent_config.c:1268-1328 | the walk shuts down exactly the proxies without the new version, the null bucket excepted |
| `AgentConfig.UpdateReplaces` | moxi/agent_config.c:1601-1655 | the two update functions leave the next content, trimmed, whatever was there |
| `AgentConfig.TrimIs` | moxi/cproxy_config.c:172-213 | a trimmed string is what is between the outer blanks, and starts and ends with no blank |
| `AgentMain.ProxyMain.OnConfigPool` | moxi/agent_config.c:1333-1465 | in place, as AgentConfig.OnConfigPool, or a failed assertion |
| `AgentMain.ProxyMain.CloseOutdated` | moxi/agent_config.c:1268-1328 | in place, as AgentConfig.CloseFrom |
| `AgentMain.ProxyMain.NewVersion` | moxi/agent_config.c:1200-1217 | the loop for the largest version |
| `AgentMain.ProxyMain.OnConfig` | moxi/agent_config.c:1189-1252 | in place, as AgentConfig.Round |
| `AgentMain.ProxyObject.UpdateConfig` | moxi/agent_config.c:1601-1622 | in place: a trimmed config becomes the next one, trimmed |
| `AgentMain.ProxyObject.UpdateBehaviors` | moxi/agent_config.c:1624-1655 | in place: the behaviors become the next ones |
| `AgentMain.ProxyObject.Reconfigure` | moxi/agent_config.c:1411-1466 | what happens to a proxy under its lock, or the failed assertion that its version is new |
| `AgentMain.ProxyObject.constructor` | moxi/cproxy.c:144-176 | a created proxy has the trimmed name and config |
| `AgentMain.ProxyThreadData.constructor` | moxi/cproxy.c:221-232 | a worker's first snapshot is the proxy's content |
| `AgentMain.ProxyThreadData.Update` | moxi/agent_config.c:1525-1558 | in place, as AgentWorkers.Updated |
| `AgentWorkers.SnapshotIsOneVersion` | moxi/agent_config.c:1525-1558 | in every reachable state a worker's snapshot is, whole, one version the proxy has had |
| `AgentWorkers.VersionsNeverDecrease` | moxi/agent_config.c:1540-1542 | the versions a worker sees never decrease |
| `AgentWorkers.DrainedIsCurrent` | moxi/agent_config.c:1500-1512 | once sent to and drained, a worker's snapshot is what the last reconfiguration asked for |
| `AgentWorkers.SharedIsConfigured` | moxi/agent_config.c:1411-1466 | the shared content is always what the last reconfiguration asked for, trimmed |
| `AgentWorkers.AllCanBeCurrent` | moxi/agent_config.c:1500-1558 | however far a run has come, it can go on until every worker has what the last reconfiguration asked for |
| `AgentWorkers.CanConfigure` | moxi/agent_config.c:1411-1466 | once a reconfiguration has been sent, any content can be configured next |
| `Pump.ExactlyOnceInOrder` | membase-cli/pump.py:309-374 | when Pump.run has returned 0 the sink has stored each provided batch once and in order, no batch was overwritten in the slot and no clear undid a later set |
| `Pump.TransferSucceeds` | membase-cli/pump.py:309-374 | for every sequence of batches some run stores them all and returns 0 |
| `Pump.ResultIs` | membase-cli/pump.py:309-374 | over any run Pump.run returns rv if and only if some step left its loop for rv: the source failed with rv, the sink reported rv for the last batch, the worker was found dead before a push, the stop flag was seen with a batch pushed; or, for 0, it was seen before any push or the source ended with everything stored |
| `Pump.StopReportsMissing` | membase-cli/pump.py:368-372 | the error for missing messages does not mean that any is missing: for every batch some run stores it and returns that error, since the stop flag was seen before the batch was awaited |
| `Pump.SinkErrorReturned` | membase-cli/pump.py:329-332 | for every error some run returns the one that the sink reports, after a retry |
| `Pump.DeadGetsNothing` | membase-cli/pump.py:535-538 | nothing is pushed to a worker found dead |
| `Pump.AlwaysAPrefix` | membase-cli/pump.py:535-559 | until an end that cannot return 0 the sink has gone through a prefix of the batches, at most one behind what was pushed |
| `Pump.ErrorExitOverwrites` | membase-cli/pump_mc.py:55-56 | for every batch and error some run from the initial state overwrites the batch in the slot, stores nothing and returns the error: the source fails before the worker has pulled |
| `Pump.OverwrittenIff` | membase-cli/pump.py:535-542 | in every run a step overwrites the slot if and only if it is the write of close() while a batch is in the slot; the end is then one that cannot return 0 |
| `Pump.ErasedIff` | membase-cli/pump.py:544-550 | in every run a step undoes a later set of go if and only if it is the worker clearing go after a set that its wait did not see; Pump.run has then returned an error |
| `Pump.StuckIff` | membase-cli/pump.py:605-607 | Pump.run awaits a future for ever if and only if that future is not done and the worker has seen the stop flag or was ended by an exception |
| `Pump.StuckForEver` | membase-cli/pump.py:605-607 | once Pump.run awaits a dead worker it does so in every later state |
| `Pump.StopStrands` | membase-cli/pump_mc.py:74-106 | for every batch some run is stuck: the stop flag is set while the batch is in the slot |
| `Pump.WaitingMoves` | membase-cli/pump_mc.py:74-106 | while Pump.run awaits, it or the worker can move if and only if it is not stuck |
| `Pump.WorkerEnds` | membase-cli/pump_mc.py:74-106 | before an end with an error a live worker ends exactly on the stop flag, an exception, a reported error or the wish to end |
| `Pump.RunInv` | membase-cli/pump_mc.py:74-106 | the invariant of the handoff holds in every state of every interleaving, retries and crashes of the worker included |
| `Pump.PendingKeeps` | membase-cli/pump_mc.py:74-106 | every worker step keeps the last batch on its way, unerased, and changes nothing but the handoff, the futures and what is consumed; no future becomes undone |
| `Pump.PumpKeeps` | membase-cli/pump.py:309-374 | every step of Pump.run keeps the invariant |
| `GenSource.RunBalanced` | membase-cli/pump_gen.py:101-115 | after n operations -ratio <= sets - ratio * n <= 1 - ratio, and items = min(sets, max-items) |
| `GenSource.StepBalanced` | membase-cli/pump_gen.py:101-115 | each operation keeps the bound, does not divide by zero, and names an existing item |
| `GenSource.GenerateBalanced` | membase-cli/pump_gen.py:97-115 | from balanced counters any number of operations succeed and name existing items only |
| `GenSource.GenerateChooses` | membase-cli/pump_gen.py:97-115 | every message is determined by those before it: a SET if and only if the SETs so far are at most the ratio of the messages so far, of the next new item while there is one and then of the items in turn, as a GET is of the items there are |
| `GenSource.QuotientTest` | membase-cli/pump_gen.py:101 | the test of the code, with its quotient, is the test on sums that the proofs use |
| `GenSource.FirstStepFails` | membase-cli/pump_gen.py:101-112 | for any ratio and max-items the first operation divides by zero if and only if the ratio is negative or max-items is not positive |
| `GenSource.RunFails` | membase-cli/pump_gen.py:101-115 | a generator that starts from zero divides by zero at its first operation or never |
| `GenSource.EstimateIs` | membase-cli/pump_gen.py:131-137 | the estimate is the largest number of operations whose share of SETs is at most max-items |
| `GenSource.TotalMsgs` | membase-cli/pump_gen.py:131-137 | the number of operations until the last item is at most two above the truncated estimate of total_msgs, and the estimate less than 1 / ratio above it |
| `GenSource.Generator.NextOperation` | membase-cli/pump_gen.py:101-115 | in place, as GenSource.Step, its divisions by zero included |
| `GenSource.Generator.ProvideBatch` | membase-cli/pump_gen.py:70-129 | for any counters and limits: a batch of the next operations in order, up to the size, the byte or the last-item limit; nothing; or a division by zero, which counters in balance exclude |
| `GenSource.Generator.constructor` | membase-cli/pump_gen.py:15-25 | any ratio, max-items and preset counters; the counters start in balance from zero |
| `RestBuffer.BytesConserved` | libconflate/rest.c:60-177 | delivered messages followed by the pending bytes are all bytes received |
| `RestBuffer.CutsAfterTerminators` | libconflate/rest.c:116-125 | messages are cut exactly after the chunks that end with the terminator |
| `RestBuffer.EndsWithIs` | libconflate/rest.c:116-125 | pattern_ends_with holds if and only if four newlines end the chunk |
| `RestBuffer.SharedTerminatorMissed` | libconflate/rest.c:116-125 | when the bytes received end with the terminator, all are delivered if and only if the last chunk has at least its four bytes: a terminator that chunks share is not seen |
| `RestBuffer.SplitTerminatorMissed` | libconflate/rest.c:116-125 | an example: the terminator in two halves delivers nothing |
| `RestBuffer.Receiver.WriteData` | libconflate/rest.c:60-82 | appends the chunk to the chain, all buffers but the last full, and terminates |
| `RestBuffer.Receiver.Measure` | libconflate/rest.c:89-96 | the first walk adds up the bytes of the chain |
| `RestBuffer.Receiver.Assemble` | libconflate/rest.c:84-114 | the two walks give the bytes of the chain in order, within the response buffer |
| `RestBuffer.Receiver.Process` | libconflate/rest.c:127-166 | delivers the chain and starts a new one |
| `RestBuffer.Receiver.HandleResponse` | libconflate/rest.c:168-177 | after any chunk what was delivered and what is held are those of RestBuffer.Cut |
| `RestBuffer.Receiver.constructor` | libconflate/rest.c:35-45 | one empty buffer |

## Left out

- Bucket engine: loading engines, engine call bodies, authentication data, logging, packet and configuration parsing, statistics, `abort` when a shutdown thread cannot be created.
- Creating a bucket is one step under `engines_mutex`, since no other thread can reach the new handle before the mutex is released; a creation that fails leaves nothing behind.
- `reserved` is kept as a flag and a count instead of one word with flag 0x1000; the two never overlap below 4096 reservations.
- The TAP shim that keeps a handle when the engine has no iterator (`bucket_engine/bucket_engine.c:1967-1980`) is not an operation of the model.
- Reserving a connection that has no bound bucket charges the default engine, while releasing it asserts a bound bucket; the model reserves bound connections only. 
- A connection is served by one thread at a time, and one that is reserved starts no SELECT and no DELETE of the name of its own bucket, as `set_engine_handle` asserts for its own bucket; the model also excludes the DELETE of a later bucket that has taken over that name.
- LIST, which holds a temporary reference to each bucket it lists (`bucket_engine/bucket_engine.c:1590-1628`).
- No client operation runs during the final table walk, as the comment before `bucket_shutdown_engine` demands of memcached.
- `BucketTheorems.NoUseAfterFree`: assumes that global shutdown has not begun; from then on a shutdown thread does not wait for the last reference before it frees its handle (`bucket_engine/bucket_engine.c:1412-1442`).
- Weak memory and liveness under fair scheduling; progress is stated as freedom from deadlock and from lost wakeups, and as what an operation can bring about when its thread runs alone.
- Integer widths are unbounded, except where a version counter or a 32-bit number matters.
- `Assoc` and `GenHash`: chains are sequences in array slots; the links from item to item are not modelled. `TopKeysShard` has a real linked list.
- `Assoc`: the hash function and the condition variable of the maintenance thread; a failed assertion is a reply after which the run ends.
- JSON: fractions, exponents, `\u` escapes, numbers beyond 32 bits and reading past the end of malformed text are one result, `Outside`; reference nodes and the editing functions are not modelled. `malloc(0)` is taken to succeed.
- `CJsonPrint.PrintNumberText`: `sprintf` is the function `PrintNumber`.
- `GenHash`: table sizing by `estimate_table_size`, and user equality other than key equality.
- Top keys: `ti_atime`, statistics output, and the string hash, which is a parameter.
- Reconfiguration: parsing of configurations, front caches and matchers, listening sockets, and the `changed` result of the update functions.
- `AgentConfig.RoundReconciles`: assumes a version counter that has not reached its end; at its end the new version is not above the others, as `AgentConfig.NextVerAbove` says.
- `AgentWorkers.DrainedIsCurrent`: versions only go up; after the counter wraps a worker may take an old version for the new one.
- Pump: progress reports, and totals shared with other pumps; the sink is MCSink.
- `GenSource`: ratios are reals, not floats; key prefixes and JSON bodies are a length function.
- `RestBuffer`: a message is delivered as its bytes; the callback sees it as a C string.
- Ring buffers, free lists, key-value lists, UUIDs, statistics emission, XMPP, SQLite, CSV and TAP endpoints would only add easy members.
