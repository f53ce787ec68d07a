# transferit chunk-handoff service, modelled in Dafny

The service in `app/service/service.go` hands file chunks from an uploader to a
downloader. It keeps a table from transfer IDs (UUIDs) to a `CurrentSegment`
record. Each record is a one-chunk slot with three fields:

- `Number`: the pending chunk number, or `nullCurrentSegmentID` (−1) when the slot is empty.
- `LastNumber`: the number of the last confirmed chunk.
- `Data`: the payload bytes.

There are five RPC operations: `InitUpload`, `UploadChunk`, `DownloadChunk`,
`ConfirmChunkDownloaded` and `GetCurrentSegmentNumber`. There is also the
helper `setNullCurrentSegment`. Every operation holds one lock for its whole
body, so each one is modelled as a single atomic step.

The project has three modules:

- `Service` (`service.dfy`) holds the data model and the slot rules over one
  segment (`IsNull`, `Serves`, `Nulled`). It gives each operation as a pure
  step function (`...Step`) and as a method of the class `Service`, whose
  `data` field is the table. The methods update `data` in place as the Go
  methods do, and each one is proved equal to its step function.
  Go's `segment, ok := m[id]` is `Lookup`. For a missing key it yields
  `ZeroSegment`, whose `Number` is 0.
- `Protocol` (`protocol.dfy`) holds sequences of calls and what they can do
  to the table. As written, no call ever adds an entry. So every state
  reachable from `New` has an empty table, and every upload, download and
  query made in such a state is refused.
- `Intended` (`intended.dfy`) holds the corrected `InitUpload` and
  `UploadChunk` described under Findings, with the handoff properties
  proved about them.

The model follows the code where it departs from the intended protocol:

- In the intended protocol an upload for an unknown transfer is rejected. The
  code rejects an upload for a known one.
- In the intended protocol an initialised transfer is registered. The code
  registers nothing.
- The intended protocol also asks for strict +1 sequencing of chunk numbers,
  a maximum chunk size and non-negative chunk numbers. The code checks none
  of these, so the model does not either.

## Model

| member | source | states |
|---|---|---|
| Service.Nulled | app/service/service.go:35-37 | after confirmation the slot is null, holds no payload, serves no chunk number, and `LastNumber` is the old `Number` |
| Service.Lookup | app/service/service.go:79 | the two-valued map index: `ok` iff the ID is present; a present ID yields its entry; an absent ID yields the zero segment, whose number is 0 and which is therefore not a null slot (the same lookup is at lines 30, 107, 137 and 162) |
| Service.SetNullCurrentSegmentStep | app/service/service.go:29-41 | succeeds exactly when the ID is present, and otherwise fails with "transfer not running"; empties that entry's slot; keeps the key set and every other entry |
| Service.Service.SetNullCurrentSegment | app/service/service.go:29-41 | the in-place update of `data` equals `SetNullCurrentSegmentStep` on the old table |
| Service.NewData | app/service/service.go:43-51 | a new service has no entries |
| Service.Service.constructor | app/service/service.go:43-51 | `New` yields a service whose `data` is `NewData()`, the empty table |
| Service.InitUploadStep | app/service/service.go:58-64 | always succeeds, the response carries the generated ID, and the table is unchanged |
| Service.Service.InitUpload | app/service/service.go:58-64 | the method's response, error and table equal `InitUploadStep` |
| Service.UploadChunkStep | app/service/service.go:75-90 | never succeeds and never changes the table; a present ID gets the "was not found" error, an absent ID gets "not yet downloaded" |
| Service.Service.UploadChunk | app/service/service.go:75-90 | the method's response, error and new `data` equal `UploadChunkStep` on the old table |
| Service.DownloadChunkStep | app/service/service.go:103-123 | succeeds iff the ID is present, its slot is not null and its number equals the requested one; each failing guard gives its own error (not found, not uploaded yet, not available with the pending number); on success returns that number and that entry's payload and keeps the response's `TransferID`; on error the response is untouched; the table never changes |
| Service.Service.DownloadChunk | app/service/service.go:103-123 | the method's response, error and table equal `DownloadChunkStep` |
| Service.ConfirmChunkDownloadedStep | app/service/service.go:133-148 | always returns nil; an unknown ID changes nothing; a known ID has its slot emptied by `Nulled`; every other entry and the key set stay |
| Service.Service.ConfirmChunkDownloaded | app/service/service.go:133-148 | the method's error and new `data` equal `ConfirmChunkDownloadedStep` on the old table |
| Service.GetCurrentSegmentNumberStep | app/service/service.go:158-173 | errors iff the ID is absent ("does not exist") or its slot is null ("not initialized yet"); otherwise returns the pending number; the table never changes |
| Service.Service.GetCurrentSegmentNumber | app/service/service.go:158-173 | the method's response, error and table equal `GetCurrentSegmentNumberStep` |
| Protocol.Apply | app/service/service.go:58-173 | one call of any operation keeps the key set and either keeps an entry or replaces it by `Nulled` of itself |
| Protocol.RunKeepsKeys | app/service/service.go:58-173 | no sequence of calls adds or removes a transfer |
| Protocol.RunOnlyEmptiesSlots | app/service/service.go:35-39 | after any calls, an entry is unchanged or is a null slot without payload, so a pending chunk is never replaced |
| Protocol.ReachableIsEmpty | app/service/service.go:43-90 | every table reachable from `New` is empty |
| Protocol.UploadAlwaysRefused | app/service/service.go:79-86 | in every reachable state an upload is refused with "segment was not yet downloaded" |
| Protocol.DownloadAlwaysRefused | app/service/service.go:107-110 | in every reachable state a download is refused because the transfer is not found |
| Protocol.QueryAlwaysRefused | app/service/service.go:162-165 | in every reachable state a query of the pending number is refused because the transfer does not exist |
| Protocol.InitRegistersNothing | app/service/service.go:58-64 | a query of the ID just issued by `InitUpload` reports that the transfer does not exist |
| Protocol.InitThenUploadFails | app/service/service.go:75-90 | uploading chunk 0 right after `InitUpload` fails |
| Protocol.ConfirmIgnoresChunkNumber | app/service/service.go:133-148 | the outcome of a confirmation does not depend on the requested chunk number |
| Protocol.ConfirmTwice | app/service/service.go:35-37 | a second confirmation keeps the slot null and without payload, but sets `LastNumber` to −1; it changes the table exactly when the first emptied a full slot |
| Protocol.DownloadIsPeek | app/service/service.go:103-123 | repeating a download gives the same response and error and the same table |
| Intended.InitUploadFixed | app/service/service.go:58-64 | corrected: registers the generated ID with a null slot without payload and keeps every other entry |
| Intended.UploadChunkFixed | app/service/service.go:75-90 | corrected: succeeds iff the ID is present and its slot is null; an unknown ID is refused with the "not found" error and a full slot with "not yet downloaded"; on success stores the chunk as line 88 does |
| Intended.UploadThenDownload | app/service/service.go:88 | an accepted chunk is served back byte for byte to a download of its number, unless the number is −1 |
| Intended.SlotHoldsOneChunk | app/service/service.go:84-86 | after an accepted upload numbered other than −1, a second upload to the same transfer is refused |
| Intended.NullNumberedUploadIsOverwritten | app/service/service.go:84-88 | an accepted upload numbered −1 leaves a null slot, so the next upload is accepted and overwrites its payload |
| Intended.ConfirmFreesSlot | app/service/service.go:35-39 | after a confirmation on a registered transfer, the next upload is accepted |
| Intended.HandoffScenario | app/service/service.go:58-173 | the full init, upload, refused upload, download, confirm, upload, download round succeeds with the right payloads; queries of an unknown ID and of an empty slot are refused |
| Intended.ApplyFixed | app/service/service.go:58-173 | one corrected call never removes a transfer |
| Intended.RunFixedKeepsNoStrayPayload | app/service/service.go:35-39 | from any state where no null slot holds a payload, the corrected operations with uploads numbered other than −1 keep it so |
| Intended.ReachableFixedHasNoStrayPayload | app/service/service.go:43-51 | from `New`, the same holds in every reachable state |

## Left out

- The `sync.Mutex` (app/service/service.go:45, :59-60 and each method) is left out. Each method body is one atomic step, so concurrency is not modelled.
- `uuid.New()` (app/service/service.go:61) is a parameter `generated`. Its randomness and freshness are not modelled. `TransferID` is an opaque type with equality.
- The `log.Printf` in `ConfirmChunkDownloaded` (app/service/service.go:139) is logging only, and is left out.
- Error messages are constructors of `Error`, one per `fmt.Errorf` site. They carry the values the message formats, not the formatted text.
- A nil `[]byte` and an empty one are both `[]`. The model does not tell them apart.
- Go `int` is 64 bits. The service only stores and compares chunk numbers and never does arithmetic on them, so they are unbounded `int`.
- `InitUploadRequest.NumOfChunks` is carried but, as in the source, never read.
- Service.Service.UploadChunk: the unreachable store at app/service/service.go:88 goes to a local copy of the table, which is then written back to `data` on every path. This does not change the resulting state.
- The client (app/client), the command line (app/cmd, app/run), the server and RPC registration (app/server) and the vendored authentication packages are not part of this model.

## Findings

| source | as written | input that shows it | evidently intended | confidence | as-written member | corrected member |
|---|---|---|---|---|---|---|
| app/service/service.go:79-82 | `if ok` rejects an upload whose transfer IS registered, with the message "transfer id was not found"; for an unregistered one the zero-valued segment has `Number` 0, so lines 84-86 reject too and the store at :88 is dead | `InitUpload` issues A; `UploadChunk(A, 0, "hello")` fails with "segment was not yet downloaded" | `if !ok`: reject unknown transfers, accept into a null slot | high (message text and guard disagree); not executed | Protocol.InitThenUploadFails | Intended.UploadChunkFixed |
| app/service/service.go:58-64 | `InitUpload` returns a new ID but never inserts it into `data`, so no transfer ever exists | `InitUpload` issues A; `GetCurrentSegmentNumber(A)` fails with "does not exist" | insert the ID with a null slot (`Number` −1) | medium (the exact initial `LastNumber` is a guess); not executed | Protocol.InitRegistersNothing | Intended.InitUploadFixed |
