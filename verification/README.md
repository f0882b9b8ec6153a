# StreamHub agent: a verified model

This project models the parts of the StreamHub agent, its Python companions and
its app SDK whose correctness is hardest to see from the code, and proves what
their documentation and comments promise of them. Each component has a model in
the form of its source (classes and loops where the source updates state in
place, functions where it computes), and the promises are theorems about that
model: over every byte stream, every file, every sequence of runs, every
interleaving.

| component | files | main results |
|---|---|---|
| MQTT client | `MqttFraming`, `MqttClient` | any chunking of the stream gives the callbacks of a one-pass parser; the buffer reset fires exactly when a packet cannot fit; publishes arrive in order, none lost |
| HTTP dechunking | `HttpChunked` | dechunking inverts chunking; a cut transfer gives a prefix |
| Migrations runner | `Migrations` | over any runs with any failures the database is the in-order fold of the migrations up to its version |
| ONVIF sync | `OnvifSync`, `OnvifSyncProperties` | over any runs every live ingress is recorded once, and a recorded one is dead exactly after a delete without a create; re-running after success does nothing |
| ONVIF config reader | `OnvifYaml`, `OnvifYamlRoundTrip` | the indentation parser inverts every indented printing of a tree |
| Fleet config merge | `FleetYaml`, `FleetYamlLines`, `FleetYamlLens`, `FleetYamlLaws`, `FleetYamlUpdates`, `FleetYamlOutside` | the lens laws put-get and put-put on whole texts, comments and colliding updates included, put-get with its exact condition; what each condition on the text keeps out |
| Agent config file | `ConfigFile`, `ConfigValues`, `ConfigRoundTrip`, `ConfigRaw`, `ConfigSaveLoad`, `ConfigText`, `ConfigIntervals` | loading undoes saving; the raw blocks of any loaded file survive every later save |
| Recorder and relay | `Processes`, `Recorder`, `RecorderProperties`, `Relay`, `CameraRelay`, `CameraRelayProperties` | one ffmpeg at a time except after one step, whose consequences are proved; never two relays; streams end on time |
| Updates | `FleetOta`, `Updater`, `UpdaterThreads` | the old binary survives every failure and power cut; the watchdog never interferes with a swap |
| Storage and upload | `Storage`, `StorageProperties`, `Upload`, `UploadProperties` | cleanup deletes oldest first and never the last two minutes; each recording goes out at most once |
| Detection geometry | `Polygon`, `LineCounting` | the polygon test is invariant and additive; counts telescope, with the exact error of moves that touch the line |

`Bytes`, `Common`, `Text` and `CText` hold what several components share: bytes
and C strings, an option type, Python's `strip`, `splitlines` and the like, and
C's `str_trim`, `atoi` and `%d`.

## What the proofs found

Where a promise does not hold of the code, the model keeps the code, a lemma
shows the failure, and another gives the exact condition under which the
promise holds.

- A start command that reaches the recorder while a deferred start is pending
  starts a second ffmpeg; when the deferred tick fires, the first one is
  forgotten and nothing the agent does ends it or stops it pushing
  (`RecorderProperties.SetStreamKeepsExactly`, `RecorderProperties.OverlapLeavesOrphan`).
- A failing tee is switched off for thirty minutes; the comment beside it says
  five (`RecorderProperties.FailedTeeStaysOff`).
- `recorder_stop` keeps a pending start, so a later tick brings the recorder
  back (`RecorderProperties.StopIsFinalExactly`). The agent calls it only at
  shutdown.
- The web UI's start ignores the tee; the stop command then ends the tee only
  and the standalone relay runs on with no timer
  (`CameraRelayProperties.WebStartExcludesExactly`, `CameraRelayProperties.WebStartOutlivesStop`).
- The relay's comment gives its delays as 3, 6, 12, 24, 60; the code waits
  3, 6, 12, 24, 48, 60 (`Relay.DeathIsScheduled`). A restart that fails to
  spawn ends the supervision (`Relay.FailedRestartIsFinal`).
- With no binary in place, a stale `.bak` and a failing install, the fleet
  agent's rollback installs the stale bytes (`FleetOta.BinaryIsTrustedExactly`);
  a failing chmod reports "rolled back" with the new binary installed
  (`FleetOta.RolledBackExactly`).
- The updater loses the old binary when its backup rename fails and the install
  works, or when a stale `.bak` is then renamed over it (`Updater.OldSurvivesExactly`).
  Starts ordered over MQTT do not look at the update flag
  (`UpdaterThreads.OrderedStartCanOverlap`).
- A retention of 24856 days overflows a C int and a retention of zero days is
  no retention: recordings written a second ago are removed
  (`StorageProperties.RecentAreSafeExactly`). An unreadable free space counts as
  a full disk (`StorageProperties.UnreadableDiskKeepsDeleting`).
- An upload marker is written beside the recording only if the first thing in
  the path that looks like a date is the date directory; a recording in any other
  place can go out again and again (`UploadProperties.OnceExactly`).
- A second `onvif:` header empties the raw block but keeps the interval read
  before it, which the next save then loses
  (`ConfigIntervals.RepeatedHeaderLosesIntervalInFile`).
- A delete the ONVIF server refuses leaks an ingress
  (`OnvifSyncProperties.RefusedDeleteLeaks`), and "keep" does not mean live
  (`OnvifSyncProperties.KeptIngressMayBeDead`, `OnvifSyncProperties.DeadExactlyWhenStranded`).
- A merge gives a key the file does not set its last update, a key set once its
  first update, and leaves a key set twice at its old value
  (`FleetYamlLaws.ValueAfterMerge`). So put-get holds exactly when that is the last
  update's value for every key the file sets (`FleetYamlLaws.MergeIsPutExactly`). The
  difference shows when `agent.tz` and `tz`, two names for one key
  (`FleetYamlUpdates.BareAndDottedCollide`), are updated together: which one is lost
  depends on the file (`FleetYamlUpdates.LastUpdateWinsExactly`,
  `FleetYamlUpdates.SecondUpdateIsLost`, `FleetYamlUpdates.FirstUpdateIsLost`).
- The merge reads comments the parser cuts off. A comment at column 0 that ends in
  a colon (config.example.yml has two, where they do no harm) ends the section for
  it, and keys below are not updated (`FleetYamlOutside.CommentHidesKeyExactly`);
  a header with a comment behind it is overlooked, and an update can land in the
  section below (`FleetYamlOutside.CommentedHeaderMisdirects`). On all other lines the
  two agree (`FleetYamlLines.PlainExactly`).
- A key at column 0 is read but not updated (`FleetYamlOutside.KeyIsUpdatedExactly`);
  an indented line that looks like a section header attracts that section's new
  keys (`FleetYamlOutside.KeyIsAddedExactly`).
- A text value that needs no quotes but brings its own loses them
  (`FleetYamlLaws.ScalarRoundTrip`).
- A position exactly on a counting line loses the crossing
  (`LineCounting.MoveIsCountedExactly`, `LineCounting.StopOnLineLosesCrossing`); the
  net count is still the change of sides exactly when tracks leave the line to
  its positive side as often as they return (`LineCounting.NetCountIsDriftExactly`).
- A line without a name is counted nowhere, unless some line is named
  "unnamed" (`LineCounting.CrossingIsCountedExactly`, `LineCounting.NamelessLineIsNotCounted`).

## Model

| member | source | states |
|---|---|---|
| `MqttFraming.RemainingLengthRoundTrip` | streamhub-agent/src/mqtt_client.c:52-73 | every length below 2^28 is written in 1 to 4 bytes and read back as itself, whatever follows (section 2.2.3 of MQTT 3.1.1) |
| `MqttFraming.LengthIsMinimal` | streamhub-agent/src/mqtt_client.c:52-62 | a length takes at most k bytes exactly when it is below 128^k |
| `MqttFraming.JunkIsIrrelevant` | streamhub-agent/src/mqtt_client.c:278-321 | although the length field is decoded from up to three bytes past the valid ones, those bytes never change what is decided |
| `MqttFraming.NextExtends` | streamhub-agent/src/mqtt_client.c:278-321 | a decision other than "need more data" stays the same when more bytes arrive |
| `MqttFraming.RunInTwo` | streamhub-agent/src/mqtt_client.c:589-608 | parsing a prefix and going on with the rest is parsing the whole at once |
| `MqttFraming.PublishIsParsed` | streamhub-agent/src/mqtt_client.c:219-276 | what send_publish emits, any payload bytes included, is parsed back as one frame with the topic cut at 127 bytes and the payload cut at 1023 bytes and at its first NUL |
| `MqttFraming.TextArrivesWhole` | streamhub-agent/src/mqtt_client.c:254-276 | a payload without NUL bytes within those limits arrives as it was sent |
| `MqttFraming.PublishesAreDelivered` | streamhub-agent/src/mqtt_client.c:219-321 | concatenated publishes are delivered in order, none lost, nothing left over |
| `MqttFraming.UnparsedTailIsSmall` | streamhub-agent/src/mqtt_client.c:556-562 | on a stream that fits, the bytes still waited on never fill the buffer |
| `MqttClient.DecodeRemainingLength` | streamhub-agent/src/mqtt_client.c:64-73 | the decoding loop reads exactly the length field at the given place, of at most four bytes |
| `MqttClient.Examine` | streamhub-agent/src/mqtt_client.c:278-321 | process_packet decides as the framing step does on the valid bytes alone |
| `MqttClient.Client.Dispatch` | streamhub-agent/src/mqtt_client.c:296-321 | the callback and connection state change exactly as the packet kind demands |
| `MqttClient.Client.ParseLoop` | streamhub-agent/src/mqtt_client.c:589-600 | the loop performs the steps of the reference parser and stops where it stops |
| `MqttClient.Client.Drain` | streamhub-agent/src/mqtt_client.c:589-608 | after a read the callbacks made are those of the reference parser and the buffer holds its unparsed tail |
| `MqttClient.Client.Compact` | streamhub-agent/src/mqtt_client.c:602-608 | the unprocessed bytes move to the front unchanged |
| `MqttClient.Client.Receive` | streamhub-agent/src/mqtt_client.c:565-587 | bytes read land behind those held, which stay as they are |
| `MqttClient.Client.Process` | streamhub-agent/src/mqtt_client.c:551-611 | one read event: a full buffer is reset first, would-block leaves the rest alone, an error or end of stream closes, data is parsed as the reference does |
| `MqttClient.Client.ProcessAll` | streamhub-agent/src/mqtt_client.c:551-611 | any series of reads leaves in the buffer, and takes, what feeding the reads one by one to the reference does |
| `MqttClient.Client.Disconnect` | streamhub-agent/src/mqtt_client.c:410-420 | the connection is closed and the buffer emptied |
| `MqttClient.ChunkingIsIrrelevant` | streamhub-agent/src/mqtt_client.c:551-611 | for every stream whose headers announce packets that fit, any cutting into reads dispatches what one pass dispatches, in order, leaves exactly its unparsed tail in the buffer, and never triggers the reset |
| `MqttClient.ReceiveStream` | streamhub-agent/src/mqtt_client.c:551-611 | a client that reads a fitting stream in any pieces makes exactly the callbacks of the one-pass parser and holds exactly its unparsed tail |
| `MqttClient.ResetFiresExactlyWhenTooLong` | streamhub-agent/src/mqtt_client.c:556-562 | the buffer reset fires if and only if a header met by the parser announces more than 4096 bytes with 4096 bytes left |
| `MqttClient.PublishesSurviveChunking` | streamhub-agent/src/mqtt_client.c:219-321 | publishes reach the callback in order and none is lost, however the bytes arrive |
| `MqttClient.EncodeRemainingLength` | streamhub-agent/src/mqtt_client.c:52-62 | the loop writes exactly the encoded length behind the bytes already there |
| `MqttClient.SendPublish` | streamhub-agent/src/mqtt_client.c:219-238 | refuses exactly what would overflow the packet buffer, and otherwise emits the packet that is parsed back |
| `HttpChunked.DechunkBody` | streamhub-agent/src/http.c:321-350 | on any raw input the loop ends with the decoded body, no longer than the input and within its buffer |
| `HttpChunked.CopyChunk` | streamhub-agent/src/http.c:328-347 | one round appends one chunk and moves the read pointer strictly forward |
| `HttpChunked.DechunkInvertsChunking` | streamhub-agent/src/http.c:321-350 | every list of nonempty chunks with arbitrary bytes, CRLF inside data included, decodes to its content (section 7.1 of RFC 9112) |
| `HttpChunked.CutTransferGivesPrefix` | streamhub-agent/src/http.c:321-350 | a transfer cut at any byte decodes to a prefix of the content |
| `HttpChunked.DecodedIsNoLonger` | streamhub-agent/src/http.c:321-350 | decoding never produces more bytes than it was given |
| `HttpChunked.HexRoundTrip` | streamhub-agent/src/http.c:329-331 | every size written in hexadecimal is read back |
| `HttpChunked.LastChunkReadsAsZero` | streamhub-agent/src/http.c:330-331 | a last chunk of any number of zeros, with or without extension, ends the body |
| `HttpChunked.BodyArrives` | streamhub-agent/src/http.c:321-350 | data cut into any nonempty pieces, sent chunked and ended by a last chunk, arrives joined |
| `Migrations.DiscoverMigrations` | streamhub-app-sdk/streamhub_sdk/migrations.py:61-93 | whatever characters count as decimal digits: a missing directory gives none; version 0 or a duplicate refuses exactly then; otherwise exactly the migration files, once each, ascending |
| `Migrations.Database.Apply` | streamhub-app-sdk/streamhub_sdk/migrations.py:108-184 | one run: a newer-than-disk database is refused untouched; otherwise the state is that of the reference run, and a failure names the first migration that could not commit |
| `Migrations.Database.ApplyPending` | streamhub-app-sdk/streamhub_sdk/migrations.py:162-182 | the loop commits pending migrations in order and stops at the first failure |
| `Migrations.DatabaseIsFoldOfMigrations` | streamhub-app-sdk/streamhub_sdk/migrations.py:108-184 | over any runs with any failures the database is the in-order fold of all migrations up to user_version, each landed once, and each backup is the fold up to its own version |
| `Migrations.HistoryKeepsConsistency` | streamhub-app-sdk/streamhub_sdk/migrations.py:108-184 | user_version never decreases and no landed migration is undone or repeated |
| `Migrations.RunKeepsConsistency` | streamhub-app-sdk/streamhub_sdk/migrations.py:108-184 | one run, on any initial segment of the migrations, keeps the database a fold |
| `Migrations.LateMigrationNeverLands` | streamhub-app-sdk/streamhub_sdk/migrations.py:148-151 | a migration numbered at or below the current version is never applied |
| `Migrations.CleanRunReachesTop` | streamhub-app-sdk/streamhub_sdk/migrations.py:108-184 | a run without failures reaches the newest version, and running again changes nothing |
| `OnvifSync.PlanSync` | streamhub-agent/scripts/onvif.py:775-805 | the two loops plan exactly one action per scanned camera and one per recorded camera that is missing |
| `OnvifSync.PlanIsReady` | streamhub-agent/scripts/onvif.py:775-805 | planned actions concern different cameras and fit the state they were planned for |
| `OnvifSync.PerformKeepsOthers` | streamhub-agent/scripts/onvif.py:904-982 | performing an action leaves every other camera entry alone and never drops one |
| `OnvifSync.PerformActions` | streamhub-agent/scripts/onvif.py:904-982 | the loop performs the actions in order and counts exactly those that fail |
| `OnvifSync.Sync` | streamhub-agent/scripts/onvif.py:904-982 | one run from loaded state to saved state |
| `OnvifSyncProperties.PerformIsSound` | streamhub-agent/scripts/onvif.py:847-982 | each action, failing or not, keeps live ingresses recorded once |
| `OnvifSyncProperties.SyncAllIsSound` | streamhub-agent/scripts/onvif.py:904-982 | every history of runs keeps the records sound and drops no camera |
| `OnvifSyncProperties.IngressesAreRecordedOnce` | streamhub-agent/scripts/onvif.py:847-982 | after any runs from an empty state every live ingress is recorded under exactly one camera and each camera has at most one |
| `OnvifSyncProperties.RefusedDeleteLeaks` | streamhub-agent/scripts/onvif.py:847-879 | replacing a live ingress keeps the records sound unless the server refuses the delete and then creates; exactly then it leaks |
| `OnvifSyncProperties.KeptIngressMayBeDead` | streamhub-agent/scripts/onvif.py:775-805 | a delete whose create failed can leave a dead ingress that the next plan keeps |
| `OnvifSyncProperties.DeadExactlyWhenStranded` | streamhub-agent/scripts/onvif.py:847-982 | after any history a recorded ingress is dead exactly when the last answer that took effect for its camera was a delete whose create failed |
| `OnvifSyncProperties.FinalEntry` | streamhub-agent/scripts/onvif.py:904-982 | each camera ends up as if its action had been the only one of the run |
| `OnvifSyncProperties.NextPlan` | streamhub-agent/scripts/onvif.py:775-805 | an action that failed is planned again; one that succeeded leaves nothing to call |
| `OnvifSyncProperties.SecondRunIsQuiet` | streamhub-agent/scripts/onvif.py:775-982 | after an error-free run the same scan and settings plan no server call |
| `OnvifSyncProperties.SyncIsIdempotent` | streamhub-agent/scripts/onvif.py:904-982 | re-running after an error-free run leaves the server exactly as it is |
| `OnvifYaml.ReadYaml` | streamhub-agent/scripts/onvif.py:103-113 | keeps the nonblank, non-comment lines with their indentation and parses them |
| `OnvifYaml.ReadBlock` | streamhub-agent/scripts/onvif.py:132-156 | on every list of lines and every position it terminates with the value and the rest the reading function gives |
| `OnvifYaml.ReadMap` | streamhub-agent/scripts/onvif.py:138-156 | the map loop, nested blocks included, and how far it advances |
| `OnvifYaml.ReadList` | streamhub-agent/scripts/onvif.py:159-180 | the list loop and how far it advances |
| `OnvifYaml.ReadFields` | streamhub-agent/scripts/onvif.py:172-176 | every deeper line is a further field of the list item |
| `OnvifYamlRoundTrip.ScalarIsRead` | streamhub-agent/scripts/onvif.py:116-124 | a clean bare scalar and any quoted one are read as themselves |
| `OnvifYamlRoundTrip.FieldIsRead` | streamhub-agent/scripts/onvif.py:116-129 | a printed field splits into its key and value and is never taken for a list item |
| `OnvifYamlRoundTrip.ItemsAreRead` | streamhub-agent/scripts/onvif.py:159-180 | printed lists of scalars and flat maps are read back, up to the next shallower line |
| `OnvifYamlRoundTrip.TreeIsRead` | streamhub-agent/scripts/onvif.py:132-180 | a block printed below a key is read back as its tree, up to the next key |
| `OnvifYamlRoundTrip.KidsAreRead` | streamhub-agent/scripts/onvif.py:138-156 | the lines printed for a map enter exactly that map, whatever follows at the same column or shallower |
| `OnvifYamlRoundTrip.ParseInvertsPrinting` | streamhub-agent/scripts/onvif.py:103-180 | parsing the text of any printed tree, each node indented by its own step, gives the tree back |
| `OnvifYamlRoundTrip.EveryChildIsRecovered` | streamhub-agent/scripts/onvif.py:138-156 | under distinct keys the map read back holds exactly the children, each with its own value |
| `OnvifYamlRoundTrip.EveryFieldIsRecovered` | streamhub-agent/scripts/onvif.py:166-176 | under distinct keys the record read back for a list item holds exactly its fields, each with its own text |
| `FleetYaml.ParseMinYaml` | streamhub-agent/scripts/fleet_agent.py:81-114 | the reading loop collects exactly the sections and scalars of the text |
| `FleetYaml.MergeConfigYaml` | streamhub-agent/scripts/fleet_agent.py:432-494 | the rewriting loop and the insertion of missing keys produce the merged text |
| `FleetYamlLines.PlainExactly` | streamhub-agent/scripts/fleet_agent.py:88-98 | parser and merge agree on headers, and the parser finds nothing but headers at column 0, exactly for indented lines, bare headers, blank lines and comments that do not end in a colon |
| `FleetYamlLines.UncommentedEntry` | streamhub-agent/scripts/fleet_agent.py:455-458 | with and without its comment a line sets the same key, if the key has no # in it |
| `FleetYamlLens.RewriteInStep` | streamhub-agent/scripts/fleet_agent.py:448-469 | rewriting keeps reader and writer in step: the rewritten lines read as the document with the updated keys set, those the text sets twice excepted |
| `FleetYamlLens.InsertIsRead` | streamhub-agent/scripts/fleet_agent.py:486-494 | lines inserted under a header are read as that section gaining exactly these keys |
| `FleetYamlLens.MissingIsAdded` | streamhub-agent/scripts/fleet_agent.py:471-483 | adding the missing keys, section by section, adds exactly them to what is read, the last update of each |
| `FleetYamlLens.MergedLinesAreRead` | streamhub-agent/scripts/fleet_agent.py:432-494 | the merged lines read as the old document with, for every updated key the text does not set twice, the first update if the text sets it and the last if not |
| `FleetYamlLaws.ValueAfterMerge` | streamhub-agent/scripts/fleet_agent.py:432-494 | what is read for each key after the merge: old value if not updated or set twice, first update if set once, last update if not set |
| `FleetYamlLaws.PutGet` | streamhub-agent/scripts/fleet_agent.py:81-120 | put-get on texts: the merged file parses to the old document with exactly the updated keys changed to their last update, if and only if every updated key the old file sets is left with that value |
| `FleetYamlLaws.MergeIsPutExactly` | streamhub-agent/scripts/fleet_agent.py:432-494 | the same on lines, with the exact condition |
| `FleetYamlLaws.PutPut` | streamhub-agent/scripts/fleet_agent.py:432-494 | put-put on texts: merging the same updates again returns the same text |
| `FleetYamlLaws.MergeTwiceIsMergeOnce` | streamhub-agent/scripts/fleet_agent.py:432-494 | put-put on lines, keys set or updated twice included |
| `FleetYamlLaws.OtherLinesSurvive` | streamhub-agent/scripts/fleet_agent.py:448-483 | for every text and updates, every line that sets no updated key survives, in order, and only lines are added |
| `FleetYamlLaws.ScalarIsAdmissible` | streamhub-agent/scripts/fleet_agent.py:497-505 | a value free of # and line breaks is written as a scalar the laws admit |
| `FleetYamlLaws.ScalarRoundTrip` | streamhub-agent/scripts/fleet_agent.py:117-120 | a text value reads back as itself exactly when it is quoted by the writer or brings no quotes of its own |
| `FleetYamlLaws.RepeatedKeyKeepsOldValue` | streamhub-agent/scripts/fleet_agent.py:459-469 | whatever the updates, a key the text sets twice is read with its old value after the merge |
| `FleetYamlUpdates.UpdatesAreReadExactly` | streamhub-agent/scripts/fleet_agent.py:432-505 | for any updates, two for one key included: merge_config_yaml then parse_min_yaml gives every received key exactly the value it was last given and changes nothing else, if and only if every key takes it: an unset key any value that reads back, a key set once its first update, a key set twice nothing new |
| `FleetYamlUpdates.BareAndDottedCollide` | streamhub-agent/scripts/fleet_agent.py:440-446 | a bare key and the same key under agent are two updates for one pair |
| `FleetYamlUpdates.LastUpdateWinsExactly` | streamhub-agent/scripts/fleet_agent.py:459-483 | the last update for a key takes effect exactly when the text does not set the key, or what is left of it has that value anyway |
| `FleetYamlUpdates.SecondUpdateIsLost` | streamhub-agent/scripts/fleet_agent.py:459-472 | of two updates for a key the text sets the second makes no difference |
| `FleetYamlUpdates.FirstUpdateIsLost` | streamhub-agent/scripts/fleet_agent.py:471-483 | of the updates for a key the text does not set, the last is read |
| `FleetYamlOutside.CommentHidesKeyExactly` | streamhub-agent/scripts/fleet_agent.py:451-454 | a column-zero comment above a key keeps its update from being read exactly when it ends in a colon and the values differ |
| `FleetYamlOutside.CommentedHeaderMisdirects` | streamhub-agent/scripts/fleet_agent.py:451-465 | under a header with a comment behind it, an update for the section above rewrites the key of the section below |
| `FleetYamlOutside.KeyIsUpdatedExactly` | streamhub-agent/scripts/fleet_agent.py:457-465 | the key of a section is updated exactly when its line is indented, or has the new value already |
| `FleetYamlOutside.KeyIsAddedExactly` | streamhub-agent/scripts/fleet_agent.py:477-494 | a key is added to a section that has only its header exactly when that header is at column 0 |
| `ConfigFile.ConfigReader.Line` | streamhub-agent/src/config.c:87-180 | one line: comments, section headers, raw blocks, list items and key-value pairs |
| `ConfigFile.ConfigReader.Item` | streamhub-agent/src/config.c:143-180 | a list item opens a camera while there is room; an empty value may open its detect block |
| `ConfigFile.ConfigReader.AssignField` | streamhub-agent/src/config.c:180-368 | the switch over the section assigns exactly the field the key names |
| `ConfigFile.ConfigReader.ApplyToAll` | streamhub-agent/src/config.c:304-338 | the legacy section assigns to all cameras |
| `ConfigFile.ConfigReader.Open` | streamhub-agent/src/config.c:112-132 | a header selects the section and restarts its raw block |
| `ConfigFile.ConfigReader.KeepRawLine` | streamhub-agent/src/config.c:42-65 | a raw line is kept when it fits behind those before it |
| `ConfigFile.ConfigReader.LoadAll` | streamhub-agent/src/config.c:67-381 | the reading loop over all lines, and the final stripping of the broker scheme |
| `ConfigFile.SaveAll` | streamhub-agent/src/config.c:496-606 | the lines written, section by section and camera by camera |
| `ConfigValues.ValueIsRead` | streamhub-agent/src/config.c:26-37 | what is printed for a good value of any kind is read as that value |
| `ConfigValues.NamesAreRead` | streamhub-agent/src/config.c:287-300 | targets joined by commas are read back, in order |
| `ConfigValues.KeyIsDispatched` | streamhub-agent/src/config.c:182-302 | every key the writer uses is the one its reader assigns from |
| `ConfigRoundTrip.FieldLineIsRead` | streamhub-agent/src/config.c:141-180 | a printed field line assigns exactly its field |
| `ConfigRoundTrip.FieldsAreRead` | streamhub-agent/src/config.c:507-536 | reading what a section writes restores its fields and changes nothing else |
| `ConfigRoundTrip.CameraIsRead` | streamhub-agent/src/config.c:538-574 | reading what is written for a camera appends one camera that agrees with it |
| `ConfigRaw.LoadGivesRawsOk` | streamhub-agent/src/config.c:104-141 | whatever was loaded, a raw block is its header and indented lines that fit |
| `ConfigRaw.BlocksSurvive` | streamhub-agent/src/config.c:583-590 | saving and loading reproduces well-formed raw blocks line by line, whatever the other fields hold |
| `ConfigSaveLoad.LoadUndoesSave` | streamhub-agent/src/config.c:67-381 | loading saved lines restores every written non-float field, every camera in place, and both raw blocks |
| `ConfigText.TextIsRead` | streamhub-agent/src/config.c:85-92 | reading text in pieces of at most 1023 characters is reading its lines, lines of exactly 1023 included |
| `ConfigText.LoadTextUndoesSaveText` | streamhub-agent/src/config.c:496-606 | config_load undoes config_save on files |
| `ConfigText.LoadedBlocksSurvive` | streamhub-agent/src/config.c:42-65 | the raw blocks of any loaded file, oversized blocks and over-long lines included, survive any number of saves and loads verbatim |
| `ConfigIntervals.IntervalsComeFromBlocks` | streamhub-agent/src/config.c:349-362 | the two intervals after a save and a load are the last ones the kept raw blocks give, so they survive exactly when those are the values they had |
| `ConfigIntervals.LoadedIntervalsComeFromBlocks` | streamhub-agent/src/config.c:349-362 | whatever file was loaded, after any number of saves and loads the two intervals are the last ones its kept blocks give, so they survive exactly when those are the values that were loaded |
| `ConfigIntervals.RepeatedHeaderLosesInterval` | streamhub-agent/src/config.c:121-131 | a repeated header empties the block and keeps the interval; the next save loses it |
| `ConfigIntervals.RepeatedHeaderLosesIntervalInFile` | streamhub-agent/src/config.c:121-131 | the same as a file on disk |
| `CText.AtoiUndoesShown` | streamhub-agent/src/config.c:189-190 | %d and atoi are inverse on every int |
| `Recorder.Context.StartChild` | streamhub-agent/src/recorder.c:30-130 | a missing ffmpeg changes nothing, a failed spawn clears the handle, a started child is the new handle |
| `Recorder.Context.Begin` | streamhub-agent/src/recorder.c:190-214 | a restart forgets everything but the stream wish |
| `Recorder.Context.OnTick` | streamhub-agent/src/recorder.c:216-301 | one tick: deferred start, built-in recording, hung child, finished child; it reports a segment exactly when one is complete |
| `Recorder.Context.JudgeSegment` | streamhub-agent/src/recorder.c:258-300 | a small segment schedules a retry with capped delay and disables the tee; a good one schedules the next |
| `Recorder.Context.OnStop` | streamhub-agent/src/recorder.c:303-317 | the child is gone and the flags cleared; a pending start stays |
| `Recorder.Context.OnSetStream` | streamhub-agent/src/recorder.c:324-356 | the wish is recorded; a child starts now only if none runs |
| `Recorder.Context.OnClearStream` | streamhub-agent/src/recorder.c:358-379 | a running tee is ended and replaced by a plain recording |
| `Recorder.Context.ProcAlive` | streamhub-agent/src/platform_posix.c:123-135 | tells whether the handle names a live child and marks a dead one |
| `Recorder.Context.EndChild` | streamhub-agent/src/platform_posix.c:168-184 | afterwards the child is gone and the handle says so |
| `RecorderProperties.TickKeeps` | streamhub-agent/src/recorder.c:216-301 | a tick keeps at most one child, none while a start is pending, and no push without a wanted tee |
| `RecorderProperties.SetStreamKeepsExactly` | streamhub-agent/src/recorder.c:324-356 | set_stream keeps that invariant exactly when it does not start a child under a pending start |
| `RecorderProperties.ClearStreamKeeps` | streamhub-agent/src/recorder.c:358-379 | clear_stream keeps it and leaves nothing pushing |
| `RecorderProperties.StopKeeps` | streamhub-agent/src/recorder.c:303-317 | stop keeps it and leaves no child |
| `RecorderProperties.RestartKeepsExactly` | streamhub-agent/src/recorder.c:190-214 | a second start keeps it exactly when no child is alive |
| `RecorderProperties.OneChildAtATime` | streamhub-agent/src/recorder.c:190-379 | from boot, every run without the excepted step has at most one live ffmpeg and none while a start is pending |
| `RecorderProperties.DeferredTickOrphansExactly` | streamhub-agent/src/recorder.c:228-236 | after the excepted step a later tick lets go of the first child exactly when the deferred start is due and ffmpeg is there, spawned or not; if it spawns, two children run |
| `RecorderProperties.OverlapLeavesOrphan` | streamhub-agent/src/recorder.c:216-379 | whatever calls follow, stop and clear included, that first child keeps running and pushing until it exits by itself |
| `RecorderProperties.OrphanSurvives` | streamhub-agent/src/recorder.c:216-379 | no call of the recorder ever ends a child its handle no longer names |
| `RecorderProperties.StopIsFinalExactly` | streamhub-agent/src/recorder.c:303-317 | no later step starts a child after stop, exactly when no start was pending |
| `RecorderProperties.NextStartIsNear` | streamhub-agent/src/recorder.c:273-300 | however often recording failed, the next attempt is at most thirty seconds ahead |
| `RecorderProperties.FailedTeeStaysOff` | streamhub-agent/src/recorder.c:264-273 | after a tee segment that is too small nothing streams or pushes for thirty minutes, whatever start commands follow |
| `RecorderProperties.CoolingEndsExactly` | streamhub-agent/src/recorder.c:332-338 | while the tee cools down a start is taken up exactly from the end of the thirty minutes on |
| `RecorderProperties.HungChildIsEnded` | streamhub-agent/src/recorder.c:247-255 | after any tick a live child is at most two minutes over its segment time |
| `RecorderProperties.LostChildIsReplaced` | streamhub-agent/src/recorder.c:216-301 | a lost child is replaced by the second tick, whatever number of attempts failed before |
| `Relay.Context.Begin` | streamhub-agent/src/stream.c:78-133 | only the failure count and delay survive a start |
| `Relay.Context.OnStop` | streamhub-agent/src/stream.c:135-146 | the child is gone and the relay down |
| `Relay.Context.OnTick` | streamhub-agent/src/stream.c:151-204 | one supervision tick: restart when due, reset after a stable minute, back off or give up on death |
| `Relay.BackoffIsCappedDoubling` | streamhub-agent/src/stream.c:201-203 | the delay after n failures is the smaller of 3*2^n and 60 |
| `Relay.RunKeeps` | streamhub-agent/src/stream.c:78-204 | every run has at most one child, none while down or waiting, and a delay determined by the failure count |
| `Relay.DeathIsScheduled` | streamhub-agent/src/stream.c:183-203 | a death is followed by a restart after min(3*2^k, 60) seconds, the tenth in a row by giving up |
| `Relay.FailedRestartIsFinal` | streamhub-agent/src/stream.c:157-165 | a due restart leaves the relay running exactly when it works; otherwise no tick brings it back |
| `Relay.GivesUpAtTheTenthDeath` | streamhub-agent/src/stream.c:151-204 | a crashing camera is restarted nine times and then left alone |
| `CameraRelay.CameraContext.Start` | streamhub-agent/src/main.c:159-187 | the start command: tee if recording, standalone otherwise, nothing if already streaming, and the timer refilled |
| `CameraRelay.CameraContext.Stop` | streamhub-agent/src/main.c:188-202 | ends the tee or the standalone relay and clears the timer |
| `CameraRelay.CameraContext.Heartbeat` | streamhub-agent/src/main.c:975-991 | drains the timer of a streaming camera and ends the stream when it runs out |
| `CameraRelay.CameraContext.Check` | streamhub-agent/src/main.c:995-1007 | ticks the recorder, and the standalone relay when the tee is idle |
| `CameraRelay.CameraContext.ReapUpload` | streamhub-agent/src/main.c:1097-1128 | counts failures and ends the stream when going offline |
| `CameraRelayProperties.NeverBothRelays` | streamhub-agent/src/main.c:159-202 | in every run without web UI starts a camera is never on both relays and streaming implies a positive timer |
| `CameraRelayProperties.EndStreamLeavesNeither` | streamhub-agent/src/main.c:188-202 | stop leaves the camera on neither relay |
| `CameraRelayProperties.ExpiryLeavesNeither` | streamhub-agent/src/main.c:982-990 | an expired timer leaves the camera on neither relay |
| `CameraRelayProperties.ReapKeepsExclusive` | streamhub-agent/src/main.c:1104-1128 | going offline leaves the camera on neither relay |
| `CameraRelayProperties.StreamEndsInTime` | streamhub-agent/src/main.c:975-991 | without a new start a stream ends within ceil(timeout / 60) heartbeats |
| `CameraRelayProperties.ProcessesFollowFlags` | streamhub-agent/src/main.c:159-202 | from boot, recorded or not, if no start lands inside a pending start, no process pushes for a camera that is not streaming and the two relays never push together |
| `CameraRelayProperties.RelayIsChosenAtBoot` | streamhub-agent/src/main.c:785-795 | without the web UI a camera recorded at boot is never relayed standalone, and any other never by the tee |
| `CameraRelayProperties.UnrecordedCameraIsRelayed` | streamhub-agent/src/main.c:159-187 | a start on an unrecorded camera that can be spawned runs the standalone relay |
| `CameraRelayProperties.WebStartExcludesExactly` | streamhub-agent/src/webui.c:2134-2143 | the web UI start keeps the exclusion exactly when the tee is idle or nothing is started |
| `CameraRelayProperties.StopEndsBothExactly` | streamhub-agent/src/main.c:193-198 | a stop leaves neither relay exactly when the camera was not on both |
| `CameraRelayProperties.WebStartOutlivesStop` | streamhub-agent/src/webui.c:2134-2143 | a relay started from the web UI beside a tee survives the stop, and then every heartbeat |
| `FleetOta.Files.HandleOta` | streamhub-agent/scripts/fleet_agent.py:508-556 | the outcome and every state of the disk on the way |
| `FleetOta.Files.Install` | streamhub-agent/scripts/fleet_agent.py:538-553 | the swap with rollback |
| `FleetOta.Files.Download` | streamhub-agent/scripts/fleet_agent.py:531-532 | downloading touches only the staged file |
| `FleetOta.OldBytesSurvive` | streamhub-agent/scripts/fleet_agent.py:508-556 | at every point, whatever fails, the old bytes are in the binary or in .bak |
| `FleetOta.BinaryIsTrustedExactly` | streamhub-agent/scripts/fleet_agent.py:508-556 | at every point of every run the binary holds old or digest-matching bytes, exactly when there was a binary, or no .bak, or a matching .bak |
| `FleetOta.StaleBackupIsInstalled` | streamhub-agent/scripts/fleet_agent.py:544-551 | otherwise a failing install puts the stale backup in place |
| `FleetOta.AnswerIsHonest` | streamhub-agent/scripts/fleet_agent.py:533-556 | success means the verified bytes are in and the old ones backed up; a refusal or mismatch moved neither |
| `FleetOta.RolledBackExactly` | streamhub-agent/scripts/fleet_agent.py:543-553 | the answer "rolled back" is true exactly when the backup failed, or the install failed and the restore worked |
| `Updater.Worker.Run` | streamhub-agent/src/updater_main.c:259-430 | the verdict and every state of the disk on the way |
| `Updater.Worker.SwapBinaries` | streamhub-agent/src/updater_main.c:336-367 | backup, install, and the rollback of a failed install |
| `Updater.Worker.Settle` | streamhub-agent/src/updater_main.c:379-425 | the wait for the agent, and the rollback or the removal of the backup |
| `Updater.Worker.AwaitAgent` | streamhub-agent/src/updater_main.c:379-387 | true exactly when one of the first fifteen polls finds the agent running |
| `Updater.OldSurvivesExactly` | streamhub-agent/src/updater_main.c:306-430 | the old bytes survive until the new agent was seen running exactly when the backup rename works, or nothing is installed and no stale .bak is renamed over them |
| `Updater.FailedStartRollsBack` | streamhub-agent/src/updater_main.c:389-412 | with working renames an agent that never comes up leaves the old binary in place |
| `UpdaterThreads.WatchdogNeverOverlapsSwap` | streamhub-agent/src/updater_main.c:688-722 | in no interleaving does the watchdog start the agent while an update is under way |
| `UpdaterThreads.OneWorkerAtATime` | streamhub-agent/src/updater_main.c:668-686 | in no interleaving is a worker started beside another |
| `UpdaterThreads.OrderedStartOverlapsExactly` | streamhub-agent/src/updater_main.c:473-485 | a start ordered over MQTT overlaps an update exactly when the flag its handler does not read is up |
| `UpdaterThreads.OrderedStartCanOverlap` | streamhub-agent/src/updater_main.c:479-485 | an interleaving in which the agent is started between the two renames |
| `Storage.OldestIsOldest` | streamhub-agent/src/storage.c:117-152 | the scan picks a finished recording of a configured camera no other is older than, and nothing only if there is none |
| `Storage.Recordings.RemoveOldest` | streamhub-agent/src/storage.c:117-158 | removes exactly the recording the scan picks, if the removal works |
| `Storage.Recordings.RemoveOldFiles` | streamhub-agent/src/util.c:111-142 | removes exactly the old enough mp4 files it can unlink |
| `Storage.Recordings.Relieve` | streamhub-agent/src/storage.c:221-239 | the loop under disk pressure |
| `Storage.Recordings.RotateAll` | streamhub-agent/src/storage.c:160-265 | one rotation: retention, pressure, emergency; it answers the number removed |
| `StorageProperties.RotateConserves` | streamhub-agent/src/storage.c:160-265 | the files left and the files removed are together the files there were |
| `StorageProperties.PressureIsOldestFirst` | streamhub-agent/src/storage.c:221-239 | pressure cleanup takes a prefix in age order: no surviving recording is older than a removed one |
| `StorageProperties.PressureStops` | streamhub-agent/src/storage.c:230-235 | it stops only at 85% use or less, at 500 removals, or when nothing is removable |
| `StorageProperties.UnreadableDiskKeepsDeleting` | streamhub-agent/src/storage.c:230-235 | with free space unreadable only the quota or an empty list stops it |
| `StorageProperties.RetentionIsEnforced` | streamhub-agent/src/storage.c:160-219 | after a rotation an enabled camera has no recording beyond its retention left, unless its unlink failed |
| `StorageProperties.RecentAreSafeExactly` | streamhub-agent/src/storage.c:160-265 | no phase of any rotation removes a recording of the last 120 seconds, exactly when on flash or with a positive 32-bit retention in seconds |
| `StorageProperties.SafeRetentions` | streamhub-agent/src/storage.c:172-183 | every retention of 1 to 24855 days is safe; 24856 overflows; none is not safe |
| `Upload.ScanPending` | streamhub-agent/src/storage.c:272-322 | the first ten unmarked, finished, large enough recordings, in directory order |
| `Upload.Uploader.UploadPending` | streamhub-agent/src/main.c:414-522 | uploads, markers, log and deletions of one round, and its counts |
| `Upload.MarkersAgreeExactly` | streamhub-agent/src/sync.c:20-67 | the marker written is the marker scanned for exactly when the date read from the path is the date directory |
| `Upload.DateDirectoryIsFound` | streamhub-agent/src/main.c:430-443 | a ten-character date directory is read back when no earlier part of the path looks like a date |
| `UploadProperties.ScanIsSound` | streamhub-agent/src/storage.c:272-322 | a scan lists unmarked recordings, each once, at most ten |
| `UploadProperties.AtMostOnce` | streamhub-agent/src/main.c:414-522 | across all rounds and cameras each recording is uploaded successfully at most once, and deleted only after that |
| `UploadProperties.OnceExactly` | streamhub-agent/src/main.c:430-447 | over all rounds of the camera, on any days, with any other recordings listed and any uploads failing, an eligible recording goes out at most once exactly when the first date in its path is its date directory |
| `Polygon.PointInPolygon` | streamhub-agent/scripts/detect.py:95-109 | the toggling loop computes the parity of crossed edges |
| `Polygon.CrossedIsSymmetric` | streamhub-agent/scripts/detect.py:103-107 | whether an edge is crossed does not depend on its direction |
| `Polygon.InsideRotated` | streamhub-agent/scripts/detect.py:95-109 | rotating the vertex list changes nothing |
| `Polygon.InsideReversed` | streamhub-agent/scripts/detect.py:95-109 | reversing the vertex list changes nothing |
| `Polygon.InsideSplit` | streamhub-agent/scripts/detect.py:95-109 | cutting along any chord: inside the whole exactly when inside one of the two parts |
| `LineCounting.MoveIsCountedExactly` | streamhub-agent/scripts/detect.py:112-139 | a move is counted as its change of side exactly when it does not touch the line from the positive side |
| `LineCounting.Tracker.Observe` | streamhub-agent/scripts/detect.py:266-285 | counts are those of the full stream: truncating a history never changes one |
| `LineCounting.Tracker.CountMove` | streamhub-agent/scripts/detect.py:276-285 | one move is counted on every enabled line under its name |
| `LineCounting.NetCount` | streamhub-agent/scripts/detect.py:266-285 | for any interleaving of tracks, entries minus exits is the sum of final side minus initial side, less the moves off the line to its positive side, plus the moves back |
| `LineCounting.NetCountIsDriftExactly` | streamhub-agent/scripts/detect.py:266-285 | so it is the change of sides exactly when those two kinds of move are equally many |
| `LineCounting.NetCountIsDrift` | streamhub-agent/scripts/detect.py:266-285 | in particular when no track touches the line |
| `LineCounting.CrossingsAlternate` | streamhub-agent/scripts/detect.py:112-139 | crossings of a track that is never on the line alternate |
| `LineCounting.StopOnLineLosesCrossing` | streamhub-agent/scripts/detect.py:112-139 | a stop exactly on the line loses the crossing |
| `LineCounting.CrossingIsCountedExactly` | streamhub-agent/scripts/detect.py:276-285 | at any point of any run a crossing of an enabled line is counted exactly when the line has a name or some line is named unnamed |
| `LineCounting.NamelessLineIsNotCounted` | streamhub-agent/scripts/detect.py:192-194 | over every run, a line with neither is counted as if it were disabled |

## Left out

- MQTT: connecting, subscribing, keepalive timing and the poll loop used while connecting, which parses with the same step; sockets and TLS.
- HTTP: everything but the chunked decoding; `unsigned long` is 64 bits wide.
- Migrations: SQLite itself. A script is a partial function on the database and a transaction is atomic; the 32-bit range of `user_version` is not modelled.
- ONVIF: discovery, SOAP and credentials; the metadata copied into an entry, the dry run and the printed summary. Per-camera overrides are looked up by camera key.
- OnvifSyncProperties.IngressesAreRecordedOnce: assumes unique server ids, effective deletes, distinct keys per scan and a state file saved at the end of each run, as the design does.
- OnvifYamlRoundTrip.ParseInvertsPrinting: keys are nonempty, without colon, leading dash or hash; bare scalars are trimmed, unquoted and without " #"; list scalars have no colon; nested maps and lists are nonempty, since an empty one prints like an empty value.
- FleetYamlLaws.PutGet: for texts on whose headers parser and merge agree, with nothing but headers and comments at column 0, whose updated sections have no indented line that looks like their header; and for updates outside `cameras` with values free of `#` and line breaks. `FleetYamlOutside` has a text and its exact condition for each of these limits on the text.
- Fleet agent: MQTT commands, telemetry and system calls; number formatting of non-text update values.
- ConfigSaveLoad.LoadUndoesSave: strings are trimmed, on one line, within their buffers and do not start with a quote; fields with a default are nonempty; the web UI port is not zero; the host has no scheme. Floating-point fields are not compared, and tracker thresholds are not written.
- Config file: secrets, zones, factory reset and path resolution; NUL bytes in the file.
- Recorder: file names, directories, ffmpeg arguments and the pickup of built-in recordings. One call sees one clock reading; process ids are not reused; terminating and waiting for a child is one step that ends it.
- Main loop: the loops over cameras act on each camera by itself and are modelled for one; workers, snapshots, telemetry and detection are left out.
- FleetOta.Files.HandleOta: a download is the series of contents of the staged file; SHA-256 is an arbitrary function; stripping and lower-casing of arguments is the caller's.
- Updater: publishing of status messages and the platform's way of starting and stopping the agent; the Windows branches, which unlink before renaming.
- UpdaterThreads: each thread step is atomic; the watchdog's reading of its two flags is one step, since no other thread raises the update flag.
- Storage: directories are listed as one sequence of files per rotation, and no file is written while a rotation runs; removal of empty directories; a failing `stat`.
- Upload: thumbnails, S3 and the backend call; paths longer than their buffers. Marker files can always be created.
- LineCounting: pruning of idle tracks, zones and the tracker itself; coordinates are real numbers, so rounding is not modelled. Polygon coordinates likewise.
- The Go server, the web UI, the adaptor and the plugins are not part of this model.
