/** The two operations whose code defeats the handoff protocol, corrected:
    `InitUpload` registers the identifier it issues with an empty slot, and
    `UploadChunk` rejects an identifier that is NOT registered. The other
    operations are reused unchanged from `Service`. */
module Intended {
  import opened Service
  import Protocol

  /** The slot of a transfer that has not yet received a chunk. */
  const EmptySegment: CurrentSegment := CurrentSegment(NullCurrentSegmentID, NullCurrentSegmentID, [])

  /** `InitUpload`, registering the generated identifier. */
  function InitUploadFixed(data: Table, request: InitUploadRequest, response: InitUploadResponse,
                           generated: TransferID): (r: Step<InitUploadResponse>)
    ensures r.err == None && r.response.transferID == generated
    ensures r.data.Keys == data.Keys + {generated}
    ensures IsNull(r.data[generated]) && r.data[generated].data == []
    ensures forall k :: k in data && k != generated ==> r.data[k] == data[k]
  {
    Step(response.(transferID := generated), None, data[generated := EmptySegment])
  }

  /** `UploadChunk` with the found/not-found test the right way round; the
      store is the one the source writes. */
  function UploadChunkFixed(data: Table, request: UploadChunkRequest, response: UploadChunkResponse)
    : (r: Step<UploadChunkResponse>)
    ensures r.response == response
    ensures r.err == None <==> request.transferID in data && IsNull(data[request.transferID])
    ensures request.transferID !in data ==> r.err == Some(TransferIDWasNotFound(request))
    ensures request.transferID in data && !IsNull(data[request.transferID]) ==> r.err == Some(SegmentNotYetDownloaded)
    ensures r.err == None ==> r.data == data[request.transferID := CurrentSegment(request.chunkNumber, 0, request.content)]
    ensures r.err != None ==> r.data == data
  {
    var (segment, ok) := Lookup(data, request.transferID);
    if !ok then Step(response, Some(TransferIDWasNotFound(request)), data)
    else if segment.number != NullCurrentSegmentID then Step(response, Some(SegmentNotYetDownloaded), data)
    else Step(response, None,
              data[request.transferID := CurrentSegment(request.chunkNumber, 0, request.content)])
  }

  /** An accepted upload is served back byte for byte to a download of the
      same number, unless that number is the null number itself. */
  lemma UploadThenDownload(data: Table, request: UploadChunkRequest, response: UploadChunkResponse,
                           download: DownloadChunkResponse)
    requires UploadChunkFixed(data, request, response).err == None
    ensures var got := DownloadChunkStep(UploadChunkFixed(data, request, response).data,
                                         DownloadChunkRequest(request.transferID, request.chunkNumber), download);
            && (got.err == None <==> request.chunkNumber != NullCurrentSegmentID)
            && (got.err == None ==> got.response.data == request.content)
  {
  }

  /** The slot holds at most one chunk: once an upload numbered other than
      the null number is accepted, every further upload to the transfer is
      refused until a confirmation. */
  lemma SlotHoldsOneChunk(data: Table, first: UploadChunkRequest, second: UploadChunkRequest,
                          response: UploadChunkResponse)
    requires UploadChunkFixed(data, first, response).err == None
    requires first.chunkNumber != NullCurrentSegmentID
    requires second.transferID == first.transferID
    ensures UploadChunkFixed(UploadChunkFixed(data, first, response).data, second, response).err
            == Some(SegmentNotYetDownloaded)
  {
  }

  /** An upload numbered with the null number leaves a slot that still looks
      empty, so the next upload is accepted and overwrites its payload. */
  lemma NullNumberedUploadIsOverwritten(data: Table, first: UploadChunkRequest, second: UploadChunkRequest,
                                        response: UploadChunkResponse)
    requires UploadChunkFixed(data, first, response).err == None
    requires first.chunkNumber == NullCurrentSegmentID
    requires second.transferID == first.transferID
    ensures var after := UploadChunkFixed(UploadChunkFixed(data, first, response).data, second, response);
            after.err == None && after.data[first.transferID].data == second.content
  {
  }

  /** Confirmation frees the slot of a registered transfer for the next upload. */
  lemma ConfirmFreesSlot(data: Table, confirm: ConfirmChunkDownloadedRequest,
                         confirmResponse: ConfirmChunkDownloadedResponse,
                         next: UploadChunkRequest, response: UploadChunkResponse)
    requires confirm.transferID in data
    requires next.transferID == confirm.transferID
    ensures UploadChunkFixed(ConfirmChunkDownloadedStep(data, confirm, confirmResponse).data, next, response).err == None
  {
  }

  /** A full transfer round: initialise A; upload chunk 0; a second upload is
      refused; download chunk 0; confirm; upload chunk 1; download chunk 1.
      A query of an unknown B and of A before any upload are refused. */
  lemma HandoffScenario(a: TransferID, b: TransferID, hello: Bytes, world: Bytes,
                        initRequest: InitUploadRequest, initResponse: InitUploadResponse,
                        up: UploadChunkResponse, down: DownloadChunkResponse,
                        ack: ConfirmChunkDownloadedResponse, query: GetCurrentSegmentNumberResponse)
    requires a != b
    ensures var s0 := InitUploadFixed(NewData(), initRequest, initResponse, a).data;
            && GetCurrentSegmentNumberStep(s0, GetCurrentSegmentNumberRequest(b), query).err
               == Some(TransferDoesNotExist(b))
            && GetCurrentSegmentNumberStep(s0, GetCurrentSegmentNumberRequest(a), query).err
               == Some(TransferNotInitialized)
            && var u0 := UploadChunkFixed(s0, UploadChunkRequest(a, 0, hello), up);
            && u0.err == None
            && UploadChunkFixed(u0.data, UploadChunkRequest(a, 1, world), up).err == Some(SegmentNotYetDownloaded)
            && var d0 := DownloadChunkStep(u0.data, DownloadChunkRequest(a, 0), down);
            && d0.err == None && d0.response.data == hello
            && var c0 := ConfirmChunkDownloadedStep(d0.data, ConfirmChunkDownloadedRequest(a, 0), ack);
            && c0.err == None
            && var u1 := UploadChunkFixed(c0.data, UploadChunkRequest(a, 1, world), up);
            && u1.err == None
            && var d1 := DownloadChunkStep(u1.data, DownloadChunkRequest(a, 1), down);
            && d1.err == None && d1.response.data == world
  {
  }

  /** The table after one call of the corrected service. */
  function ApplyFixed(data: Table, call: Protocol.Call): (r: Table)
    ensures data.Keys <= r.Keys
  {
    match call
    case InitUpload(request, response, generated) => InitUploadFixed(data, request, response, generated).data
    case UploadChunk(request, response) => UploadChunkFixed(data, request, response).data
    case DownloadChunk(request, response) => DownloadChunkStep(data, request, response).data
    case ConfirmChunkDownloaded(request, response) => ConfirmChunkDownloadedStep(data, request, response).data
    case GetCurrentSegmentNumber(request, response) => GetCurrentSegmentNumberStep(data, request, response).data
  }

  function RunFixed(data: Table, calls: seq<Protocol.Call>): Table
    decreases |calls|
  {
    if calls == [] then data else RunFixed(ApplyFixed(data, calls[0]), calls[1..])
  }

  /** An empty slot carries no payload. */
  predicate NoStrayPayload(data: Table) {
    forall id :: id in data && IsNull(data[id]) ==> data[id].data == []
  }

  /** No upload uses the null number as its chunk number. */
  predicate UploadsNumbered(calls: seq<Protocol.Call>) {
    forall i :: 0 <= i < |calls| && calls[i].UploadChunk? ==>
      calls[i].uploadRequest.chunkNumber != NullCurrentSegmentID
  }

  /** As long as uploads are numbered other than the null number, no call
      makes an empty slot hold a payload. */
  lemma {:induction false} RunFixedKeepsNoStrayPayload(data: Table, calls: seq<Protocol.Call>)
    requires NoStrayPayload(data) && UploadsNumbered(calls)
    ensures NoStrayPayload(RunFixed(data, calls))
    decreases |calls|
  {
    if calls != [] {
      var next := ApplyFixed(data, calls[0]);
      assert UploadsNumbered(calls[1..]) by {
        forall i | 0 <= i < |calls[1..]| && calls[1..][i].UploadChunk?
          ensures calls[1..][i].uploadRequest.chunkNumber != NullCurrentSegmentID
        {
          assert calls[1..][i] == calls[i + 1];
        }
      }
      RunFixedKeepsNoStrayPayload(next, calls[1..]);
    }
  }

  /** From `New`, as long as uploads are numbered, no empty slot ever holds
      a payload. */
  lemma ReachableFixedHasNoStrayPayload(calls: seq<Protocol.Call>)
    requires UploadsNumbered(calls)
    ensures NoStrayPayload(RunFixed(NewData(), calls))
  {
    RunFixedKeepsNoStrayPayload(NewData(), calls);
  }
}
