# A verified model of oci-torrent

oci-torrent distributes container images over BitTorrent. A seeder pulls an image's layers and
seeds each one; a leecher downloads layers through its BitTorrent engine, stores them in an OCI
image layout on disk, and publishes the image by a reference. This project models the two stateful
cores and the code that drives them, and proves what they keep over every run:

* the **engine** (`bt/engine.go`): two linked maps behind a lock, a hold counter, starter goroutines
  that run without the lock, torrent and data files, and the scan after a restart;
* the **store** (`oci/`): blobs and references written to a temporary file and renamed into place,
  by any number of writers that may die at any step, down to names, inodes and hard links;
* the **daemon** (`daemon/`): the order in which layers, config, manifest and reference are
  published, and which holds of the engine are taken and given back.

## How it is organised

| file | content |
|---|---|
| `Hex`, `Strings`, `Paths`, `Layouts`, `Wrappers` | info hashes in base 16, splitting, blob and reference paths, shared types |
| `EngineModel` | one function per locked operation and per starter; `Do` is one atomic step, `Run` any interleaving |
| `EngineLinks`, `EngineCounts`, `EngineRestarts`, `EngineRecovery` | the maps, the counter, stopping and restarting, the files |
| `BtEngine` | the engine's methods over records updated in place, each tied to its step |
| `Store`, `StoreProofs` | the disk, its steps, and what every interleaving keeps, with and without hard links |
| `HardLinks`, `Waiting` | the leecher's and the seeder's hard-link branches, when the first is safe, and when the wait for the data ends |
| `References`, `DirLayout`, `Opening` | the layout's methods, sequential references, `initialize` |
| `Manifests`, `Downloads`, `Closure`, `Overlaps`, `Resuming`, `Attempts`, `Seeding`, `Daemon` | manifests, downloads as processes, what they guarantee, the daemon's loops |
| `Holds`, `Stopping`, `Ledger`, `SharedLayers`, `TidyHistories`, `OverlappingHolds` | what a stop leaves, and the holds that downloads take and stops give back, over whole histories and in the engine's own count |
| `Refinement` | what readers see of interleaved writers on disk is what the downloads publish |

State machines are total: an event that cannot happen changes nothing, so "every run" is "every
sequence of events". What the outside decides (I/O failures, the torrent data a seeder sends, what
is read of a file while it is being written) is an argument of the step. SHA-256 and JSON are
functions passed in. "Decoding undoes encoding" is an assumption of the lemmas that need it, and so is
that the hash tells apart the contents that the run at hand stores or publishes; no lemma assumes a
hash without collisions.

## What falls short, and exactly when

* Ids and torrents correspond one to one throughout a run if and only if every launch finds its
  hash its own (`RunLinkedIff`); two ids with one hash leave the second stuck for good (`SharedHashSticks`, `StuckForever`).
* `Count` is the holds minus one. It refines a plain reference count if and only if no stop that can drop the
  torrent meets a second hold, or a count that failed stops took below zero (`RefinesCountIff`, `StopVerdict`, `StartsThenStops`).
* A stop is final if and only if no starter of its hash is still to run (`StopIsFinalIff`).
* Records keep the library's current objects throughout a run if and only if no launch meets a record whose object
  was dropped (`RunCurrentIff`, `RestartIsStale`).
* A restart brings back the ids that StartSeed put on disk and no delete took off; ids that were only leeched are forgotten, even
  when seeded later by joining (`RestartRecovers`, `LeechedIsForgotten`, `LeechedThenSeeded`).
* A torrent file cut short by a failed write stays if and only if no delete reaches its removal, and as long as it is
  there StartSeed cannot launch the id; leeching, stopping and deleting the id is a way out (`PartialStaysIff`, `GoodSeedIff`, `LeechingRepairs`).
* A layout is lost for ever if and only if the caller that builds it dies or returns with an error between the first
  inner mkdir and the layout file (`StepDeadIff`, `LostIff`, `DeadForever`).
* A stored reference stays what it is if and only if no live download has looked for it too early and is about to
  write another one (`WriteOnceIff`, `LaterReferenceWins`).
* With hard links every blob is named by its content at every step if and only if every link was made to a matching
  data file and no write or truncation of a linked one changed that (`RunAddressedIff`). A leecher's link is safe if
  and only if StartLeecher waits, which it does not when it joins a download or has no progress, and the data of the
  torrent that the seeder sent is the layer, which nobody checks (`LinkIsSafeIff`).
* That wait can end if and only if the launch met no record whose object was dropped, or the dropped object was
  complete; after a restart of a stopped id it otherwise never returns (`WaitEndsIff`).
* The holds taken and not given back are those that the active images ask for, throughout a history, if and only if
  every operation in it is balanced: a download that completes finds no layer stored or repeated, a leecher's that does
  not starts no missing layer, and a stop finds every layer started, with holds to spare or a torrent that can be
  stopped (`HoldsConservedIff`, `StopsAllIff`, `TakesNothingIff`). First downloads of images that share no layer with an
  active one, stopped after their starters, are (`TidyIsBalanced`). A layer held for two images is let go by the first
  stop of either (`SecondHoldIsLost`, `SharedLayerDroppedEarly`).

Where the repository's documentation and its code disagree the model follows the code. The
repository's README (lines 37-53) shows a seeder that stores config and manifest and answers
`status`; `startSeederDownload` writes neither, nor a reference, so `status` and `stop` of an image fail
there. The comment on `Open` (oci/layout.go:95-97) promises an error for a missing path, which
`initialize` creates instead. `Run` reports success when it cannot make its directories.

## Model

| member | source | states |
|---|---|---|
| Hex.HashRoundTrip | bt/engine.go:586-596 | str2ih gives back any 20-byte hash from its printed form |
| Hex.Str2ihOutcome | bt/engine.go:586-596 | str2ih accepts exactly 40 hex digits of either case, the result printing as their lower case; 42 or more digits overrun the buffer |
| EngineModel.RunWellFormed | bt/engine.go:514-540 | in every run each record sits under its own printed hash, so getTorrent finds the record addTorrent stored |
| EngineLinks.LaunchLinkedIff | bt/engine.go:285-335 | a start keeps ids and torrents in one-to-one correspondence exactly when the id keeps a hash of its own |
| EngineLinks.RunLinkedIff | bt/engine.go:285-453 | the correspondence holds throughout a run exactly when all its launches are of that kind |
| EngineLinks.RunLive | bt/engine.go:319-327 | through such a run every started id has a started torrent or a starter still to run |
| EngineLinks.EngineStaysLinked | bt/engine.go:285-453 | both hold in every interleaving from a fresh engine whose launches follow an injective assignment of hashes to the ids they start |
| EngineCounts.RunCounts | bt/engine.go:293-297 | in every run Count is one less than the starts minus stops since the last launch, failed stops included |
| EngineCounts.StopVerdict | bt/engine.go:345-361 | a stop drops the torrent exactly when at most one hold is left and it can be stopped; it departs from a plain reference count exactly at two holds or at a last stop that fails |
| EngineCounts.StartsThenStops | bt/engine.go:345-376 | after any run with n holds, stops drop the torrent at stop number max(1, n - 1) |
| EngineCounts.RefinesCountIff | bt/engine.go:293-376 | throughout a run the holds behind Count are starts minus stops exactly if no torrent is dropped at two holds or below zero |
| EngineCounts.StopTimesExactly | bt/engine.go:337-362 | a started id with Count c is stopped by exactly max(1, c) calls, and what each of them changes |
| EngineCounts.DrainableIff | bt/engine.go:337-362 | some number of stops stops a started id exactly when its torrent is there and not dropped |
| EngineCounts.DrainAndDelete | bt/engine.go:337-453 | with no starter pending, max(1, Count) stops and a delete remove the id from both maps, the client and, failures apart, its two files; every other id, torrent and file stays |
| EngineCounts.StopOutcome | bt/engine.go:337-362 | when StopTorrent returns nil, and which error it returns otherwise |
| EngineCounts.DeleteOutcome | bt/engine.go:419-453 | DeleteTorrent returns nil exactly if afterwards the id is unknown and the files of an id it knew are gone; and which error otherwise |
| EngineRestarts.StopIsFinalIff | bt/engine.go:355-360 | after a real stop no later step but a new launch starts the torrent, exactly when all its starters ran before |
| EngineRestarts.LateStarterRevives | bt/engine.go:543-556 | a starter that runs after the stop puts the torrent back to Started while its id is stopped |
| EngineRestarts.ExtraStarterIsHarmless | bt/engine.go:543-556 | a starter of a started or missing torrent changes nothing else |
| EngineRestarts.StuckForever | bt/engine.go:559-571 | a started id whose torrent is dropped or gone stays started and undeletable in every run without a launch of its hash |
| EngineRestarts.SharedHashSticks | bt/engine.go:337-453 | two ids with one hash: stopping one leaves the other in that state |
| EngineRestarts.LaunchCurrentIff | bt/engine.go:514-528 | after a launch records hold the client's objects exactly when the hash had no record or still had its object |
| EngineRestarts.RunCurrentIff | bt/engine.go:514-584 | records hold the current objects throughout a run exactly when no launch meets a record whose object was dropped |
| EngineRestarts.RunCurrent | bt/engine.go:514-584 | they do over every run with injectively assigned hashes in which a stopped id is deleted before it is started again |
| EngineRestarts.AssignedRunExists | bt/engine.go:285-453 | such runs start, stop, delete and start an id again, with another id in between |
| EngineRestarts.RestartIsStale | bt/engine.go:313-318 | start, stop, start leaves the record with the dropped object |
| EngineRecovery.ScanIdIff | bt/engine.go:136-147 | the id read off a file name undoes GetFilePath exactly on ids without a dot |
| EngineRecovery.ScanRecoversExactly | bt/engine.go:131-155 | after the scan the ids are exactly the dot-free ones with both files whose StartSeed succeeds, each with Count 0 |
| EngineRecovery.RunOutcome | bt/engine.go:96-158 | Run on a new engine: when it returns nil, when it runs, and that its ids are exactly the recovered ones with Count 0, none after an early return |
| EngineRecovery.RestartRecovers | bt/engine.go:96-158 | after any run over any disk, failures and leechers included, a restart knows exactly the dot-free ids that StartSeed put on disk, or that were there, and no delete took off |
| EngineRecovery.RunRecovers | bt/engine.go:96-158 | Run itself, over the disk that any earlier run left, knows exactly those ids |
| EngineRecovery.LeechedIsForgotten | bt/engine.go:289-311 | an id that no StartSeed launches anew has no torrent file after any run, and is not brought back |
| EngineRecovery.LeechedThenSeeded | bt/engine.go:293-297 | an id leeched and then seeded by joining is held twice and not brought back |
| EngineRecovery.WriteFailureBreaks | bt/engine.go:468-477 | a failed write leaves a partial torrent file |
| EngineRecovery.PartialStaysIff | bt/engine.go:419-453 | a partial torrent file stays throughout a run exactly when no delete reaches its removal |
| EngineRecovery.GoodSeedIff | bt/engine.go:299-316 | a seeding in which nothing else fails succeeds exactly if the id is started or has no partial torrent file |
| EngineRecovery.SeedOutcome | bt/engine.go:285-335 | when StartSeed returns nil, and which error otherwise, by the id's files and the answers |
| EngineRecovery.LeechOutcome | bt/engine.go:364-409 | the same of StartLeecher |
| EngineRecovery.LeechingRepairs | bt/engine.go:369-453 | leeching, stopping and deleting the id removes the partial file, after which seeding succeeds |
| BtEngine.BtEngine.StartSeed | bt/engine.go:285-335 | the method over mutable records makes exactly the modelled step, every branch and error |
| BtEngine.BtEngine.StartLeecher | bt/engine.go:364-417 | the same, and the call goes on to wait for the data exactly if it launched the torrent and has a progress to report to |
| BtEngine.BtEngine.StopTorrent | bt/engine.go:337-362 | the same, the count staying down when the stop fails |
| BtEngine.BtEngine.DeleteTorrent | bt/engine.go:419-453 | the same, with the files that a failed removal leaves |
| BtEngine.BtEngine.RunStarter | bt/engine.go:543-556 | the starter goroutine's step |
| BtEngine.BtEngine.AddTorrent | bt/engine.go:514-528 | an existing record is kept, object and state |
| BtEngine.BtEngine.ForgetTorrent | bt/engine.go:573-584 | the record and the client's object of that very hash go, and no other |
| BtEngine.BtEngine.CreateTorrent | bt/engine.go:455-481 | the torrent file after each way the creation can end |
| BtEngine.BtEngine.Run | bt/engine.go:96-158 | the scan loop over the data directory, and the early returns |
| StoreProofs.RunSound | oci/dir.go:87-121 | at every step of any writers and crashes each blob is named by the hash of its whole content, references are whole, and no inode has two names |
| StoreProofs.NoSharingInCopyMode | daemon/daemon.go:207-225 | in copy mode no blob shares an inode with a data file or an open writer |
| StoreProofs.StepVisible | oci/dir.go:113-118 | readers see blobs and references change only at a rename, by one whole entry, and at deletions |
| StoreProofs.ReceiptIsTrue | oci/dir.go:107-120 | PutBlob returns the digest and the length of the content that is now stored |
| StoreProofs.RemovalRemoves | oci/dir.go:204-231 | a removal takes away that name, and nothing else |
| StoreProofs.RunKept | oci/dir.go:87-121 | hard links or not, in every run writers stay private, references whole, and only blobs and data files share inodes |
| StoreProofs.RunAddressedIff | daemon/daemon.go:195-225 | with hard links, content addressing holds throughout a run exactly if every link matched and no write or truncation of a linked data file changed its name |
| HardLinks.LinkIsSafeIff | daemon/daemon.go:337-356 | the leecher's link keeps every blob named by its content, whatever the library does meanwhile, exactly if StartLeecher launched the torrent, had a progress, and the torrent's data has the layer's digest |
| HardLinks.LinkingDaemon.WaitComplete | bt/btprogress.go:29-37 | the polling loop ends at the first complete content of the data file |
| Waiting.WaitEndsIff | bt/engine.go:386-415 | after a launch the wait can end exactly if the hash had no record whose object was dropped, or that object was complete |
| Waiting.GoneForever | bt/engine.go:559-571 | a dropped object completes nothing more in any run |
| HardLinks.LinkingDaemon.StartLeechingLayer | daemon/daemon.go:322-356 | the hard-link branch: each way it ends by an exact condition on what it was called with, and after success the blob is the very data file |
| HardLinks.LinkingDaemon.StartSeedingLayer | daemon/daemon.go:195-205 | the hard-link branch: nil exactly if the blob is there and the data file is not, and then what is served is the very file of the blob |
| Refinement.DiskRunShows | oci/dir.go:84-231 | in copy mode readers of any interleaving of writers and deletions see exactly its publications and removals, whole and in order |
| Refinement.SystemRunShows | daemon/daemon.go:239-320 | the same of any interleaving of downloads |
| Refinement.DiskIsClosed | oci/dir.go:87-167 | references are closed on disk at every step of every interleaving of writers whose renames are publications of downloads |
| DirLayout.DirLayout.PutBlob | oci/dir.go:87-121 | digest and size of all that was read, the blob stored, readers unaffected by a failure |
| DirLayout.ConcatAppends | oci/dir.go:100-104 | what is read is the chunks one after the other |
| DirLayout.DirLayout.Close | oci/dir.go:296-298 | the temporary files of the layout are gone, and every other file stays |
| DirLayout.DirLayout.PutReference | oci/dir.go:128-167 | on the file that the cleaned name leads to: nil, ErrClobber or an I/O error of reading or writing, as References.Apply has it, by temporary file and rename |
| DirLayout.DirLayout.GetReference | oci/dir.go:181-199 | what readers see of the file that the cleaned name leads to, the error of a failed read, and never a file that does not parse |
| DirLayout.DirLayout.DeleteReference | oci/dir.go:220-231 | nil exactly if the reference is then gone; untouched by a failure |
| DirLayout.DirLayout.Exist | oci/dir.go:276-292 | for a well-formed digest, whether its blob is visible; an error exactly for digests without a path |
| DirLayout.DirLayout.DeleteBlob | oci/dir.go:204-215 | nil exactly if that blob is then not in the store; nothing changes otherwise |
| DirLayout.DirLayout.ListBlobs | oci/dir.go:234-253 | exactly the well-formed digests that exist, each once |
| References.PutOutcome | oci/dir.go:123-167 | nil exactly if the reference then reads as the descriptor; nil on a free name with good I/O; an error changes nothing, nor does any call another name |
| References.DeleteOutcome | oci/dir.go:217-231 | nil exactly if the reference is then gone; an error changes nothing |
| References.WriteOnce | oci/dir.go:128-138 | over every sequence of calls a stored reference stays, another descriptor is refused, an equal one accepted |
| References.NilMeansStored | oci/dir.go:123-138 | from the call that returned nil on, over every sequence without a deletion |
| Overlaps.WriteOnceIff | oci/dir.go:128-167 | a stored reference stays in every continuation without its deletion exactly if no live download is about to write another one |
| Overlaps.LaterReferenceWins | oci/dir.go:130-164 | two downloads of one tag that overlap both succeed, and the later replaces the reference of the first |
| Paths.BlobPathIff | oci/layout.go:104-118 | a digest leads to the blob file of its own name exactly when the name is one plain component |
| Paths.BlobPathOfDigest | oci/layout.go:104-118 | on well-formed digests blobPath is injective and the file name gives the digest back |
| Paths.BlobPathOutcome | oci/layout.go:104-118 | a digest has a path exactly after "sha256:", and which error it is otherwise |
| Paths.EmptyHashIsTheDirectory | oci/layout.go:104-118 | a digest without a hash leads to the blob directory itself, which exists |
| Paths.RefPathIff | oci/layout.go:120-124 | a reference name leads to the file of its own name exactly when it is one plain component |
| Opening.MarkerMeansComplete | oci/dir.go:36-82 | for any callers and crashes the layout file means that all directories exist |
| Opening.StepDeadIff | oci/dir.go:55-69 | a step loses a layout exactly if by it the caller between its first inner mkdir and the layout file dies or fails |
| Opening.LostIff | oci/dir.go:36-82 | over any run a layout is lost exactly if some step was of that kind |
| Opening.DeadForever | oci/dir.go:46-61 | once lost, no later Open succeeds in any interleaving |
| Opening.Layout.Initialize | oci/dir.go:36-82 | one caller succeeds exactly if the layout file exists or the blob directory does not, and leaves a complete layout alone |
| Manifests.Create | daemon/oci.go:94-126 | createOciManifest with its loop computes the modelled conversion |
| Manifests.ConversionKeepsContent | daemon/oci.go:94-126 | converting is idempotent and changes media types only |
| Manifests.CreateOutcome | daemon/oci.go:94-126 | which manifests convert, by their headers, and with what error each other kind is refused |
| Manifests.Schema2Becomes | daemon/oci.go:106-117 | a Docker schema 2 manifest gets OCI's media type for itself, its config and each layer, everything else staying |
| Closure.RunClosed | daemon/daemon.go:239-320 | at every step and crash point of any downloads a reference that resolves has its manifest, layers and config stored, if the hash tells apart what the run publishes |
| Closure.ReferencesAreClosed | daemon/oci.go:128-159 | the same from an empty store, for any reference, with the size the descriptor says |
| Attempts.CrashAndRerun | daemon/daemon.go:267-317 | after any number of attempts that died at any step and of anything, one over complete data ends with the references of an uninterrupted download and every blob of it |
| Attempts.DriveStores | daemon/daemon.go:104-317 | a download of either role, however it fares, loses no image that is stored, and has stored its own when it completes |
| Attempts.FailureHasReason | daemon/daemon.go:104-374 | a download of either role fails only where, and for the reason that, its error names |
| Resuming.SmoothRerun | daemon/daemon.go:267-317 | if nothing failed before the death, with exactly its blobs |
| Resuming.LayersReadBack | daemon/oci.go:161-195 | getOciImageLayers returns the source manifest's layers, in order, exactly when it decodes |
| Resuming.LayersOutcome | daemon/oci.go:161-195 | when the layers are read back, and what is missing when they are not |
| Resuming.SuccessStores | daemon/daemon.go:266-320 | a download with complete data succeeds and stores exactly its missing layers, config, manifest and reference |
| Seeding.SeederSucceeds | daemon/daemon.go:137-237 | a seeder's good download succeeds, stores every layer, has the data file of each that was missing hold the blob, and starts it if seeding works; a failed seeding fails nothing else |
| Seeding.FailedCopyLeaves | daemon/daemon.go:207-225 | what a failed copy leaves in the data directory, and that nothing is seeded |
| Holds.DownloadTakes | daemon/daemon.go:267-285 | wherever it ends, a leecher has taken holds of a prefix of the layers not stored, each once; of all of them if it succeeds |
| Holds.StopReleases | daemon/daemon.go:376-424 | a stop goes over the image's layers and gives back a hold of each that it finds started; it returns the ids in order if none fails |
| Holds.FoundAllIff | daemon/daemon.go:398-417 | over distinct layers a stop that succeeds finds all started exactly if all were started before it |
| Holds.StopsAllIff | daemon/daemon.go:398-417 | from the state before it, over linked maps and distinct layers: a stop succeeds and gives back every hold exactly if each layer is started with holds to spare or a torrent that can be stopped |
| Holds.NoColonFails | daemon/daemon.go:400-401 | a stop goes through only if every digest has a colon, where taking its hex part does not panic |
| Holds.StopLayersHeld | bt/engine.go:337-362 | a stop that succeeds takes one from a layer held three times or more, and lets go of any other |
| Stopping.StopLeaves | daemon/daemon.go:398-418 | with clean, a layer's id, torrent and files go exactly if at most two holds were left; without, nothing goes; what is not of the image is left alone |
| Stopping.StopDownloadLeaves | daemon/daemon.go:376-424 | the same of StopDownload on a stored image |
| Holds.TakesNothingIff | daemon/daemon.go:267-285 | a leecher's download takes nothing exactly if the engine starts none of the layers missing when it begins |
| Holds.StartStopConservesIff | daemon/daemon.go:267-424 | start and stop leave the engine's holds as they were exactly if the stop finds what the start took; when all layers are started, exactly if no layer repeats and none was stored |
| Holds.UnfinishedCannotBeStopped | daemon/daemon.go:104-166 | after a failed download, or any on a seeder, StopDownload finds no layers and gives nothing back |
| Holds.StoredLayersStartNothing | daemon/daemon.go:137-148 | a download over stored layers starts nothing, so a seeder never seeds a layer it stored and died over |
| Holds.SeederServesTheBlob | daemon/daemon.go:195-237 | the data file that is seeded is the stored blob, of the layer's digest |
| Ledger.HoldsConservedIff | daemon/daemon.go:104-424 | over every history of downloads, stops and engine steps the holds are throughout those the active images ask for exactly if every operation is balanced |
| TidyHistories.TidyIsBalanced | daemon/daemon.go:267-424 | histories of first downloads that share no layer with an active image, stopped after their starters, are balanced, and every stop in them succeeds |
| TidyHistories.TidyFromNew | daemon/daemon.go:267-424 | from a new world the engine then holds each layer once for the one active image that has it |
| TidyHistories.CycleIsTidy | daemon/daemon.go:267-424 | a download, its starter and a stop that deletes are such a history |
| OverlappingHolds.RunNet | daemon/daemon.go:267-424 | with downloads overlapping each other, stops and starters in any way, the holds are what downloads took less what stops found started |
| OverlappingHolds.TookByBound | daemon/daemon.go:267-285 | whatever goes on around it, a leecher's download takes each layer at most as often as the image lists it |
| Ledger.CountIsDemand | bt/engine.go:285-376 | after a balanced history the engine's holds were starts minus stops at every step exactly if no drop was uneven, and then Count stands for exactly the active images that have the layer |
| Ledger.SecondHoldIsLost | bt/engine.go:345-353 | in every history, a stop of an image lets go of a layer that the engine counts twice while another active image asks for it |
| SharedLayers.SharedLayerDroppedEarly | bt/engine.go:345-353 | two images of different repositories that share a layer: a balanced history in which the first stop drops the torrent that the other image holds |
| Daemon.Daemon.StartLeecherDownload | daemon/daemon.go:239-320 | the method with its loop takes exactly the modelled steps |
| Daemon.Daemon.StartLeechingLayer | daemon/daemon.go:322-374 | the two steps of one layer in copy mode, every error return |
| Daemon.Daemon.StartSeederDownload | daemon/daemon.go:104-166 | the same for a seeder |
| Daemon.Daemon.CopyAndSeedLayer | daemon/daemon.go:168-237 | copyLayer and startSeedingLayer of one layer in copy mode, with what a failed copy leaves in the data directory |
| Daemon.Daemon.PutManifest | daemon/oci.go:128-159 | blob before reference, and the outcome of the reference |
| Daemon.Daemon.GetOciImageLayers | daemon/oci.go:161-195 | the layers that the stored manifest names, or the error of either read |
| Daemon.Daemon.StopDownload | daemon/daemon.go:376-424 | the loop that stops, and on request deletes, and collects ids; nothing changes if the manifest cannot be read |

## Left out

- The gRPC server, remote dialling, the CLI, image-name parsing, credentials and the registry: an image is given with its layer infos, config and manifest.
- The insides of the BitTorrent library: it is a map from info hash to its live object. Whether data is complete is what a read returns.
- Reporting fields of a torrent (size, rates, percent) that `Update` fills in: no decision reads them.
- `GetStatus`, `GetAllStatus`, rate limits, magnets: they change none of the modelled state.
- An engine without trackers: `createTorrent` would panic on the empty list.
- Memory-model races: a starter goroutine's body is one atomic step.
- Temporary names never repeat: they are numbered.
- DirLayout.DirLayout.Exist, DeleteBlob: on digests that are not well-formed the path may lead elsewhere in the layout; what is there is an argument (Exist) or not modelled (DeleteBlob).
- Daemon: holds the reader's view of the store and the engine's state as values, not DirLayout and BtEngine objects; those objects are proved to make exactly these changes.
- Daemon.Daemon.StartLeechingLayer: copy mode only; the hard-link branch is HardLinks.LinkingDaemon.StartLeechingLayer, over the disk rather than the readers' view.
- Daemon.Daemon.CopyAndSeedLayer: copy mode only; the hard-link branch of startSeedingLayer is HardLinks.LinkingDaemon.StartSeedingLayer.
- DirLayout.DirLayout.PutReference: what it does for a name whose cleaned path is not a file of `refs` (Paths.RefName) is not modelled. Image tags are plain.
- DirLayout.DirLayout.DeleteReference: the same.
- DirLayout.DirLayout.GetReference: what such a name leads to is an argument.
- HardLinks.LinkingDaemon.WaitComplete: the object's count of completed bytes is taken to be that of the data file, which holds as long as the object is live; Waiting has the other case.
- OverlappingHolds.RunNet: says what is taken and given back, not when that is balanced; Ledger does, for operations one after the other.
- Downloads start after the layout is open; opening it is modelled by itself in Opening.
