/** Sequences of calls on one service, and what they can and cannot do to
    the table. */
module Protocol {
  import opened Service

  /** One RPC call with its arguments; `generated` stands for the value
      `uuid.New()` returns inside `InitUpload`. */
  datatype Call =
    | InitUpload(initRequest: InitUploadRequest, initResponse: InitUploadResponse, generated: TransferID)
    | UploadChunk(uploadRequest: UploadChunkRequest, uploadResponse: UploadChunkResponse)
    | DownloadChunk(downloadRequest: DownloadChunkRequest, downloadResponse: DownloadChunkResponse)
    | ConfirmChunkDownloaded(confirmRequest: ConfirmChunkDownloadedRequest,
                             confirmResponse: ConfirmChunkDownloadedResponse)
    | GetCurrentSegmentNumber(getRequest: GetCurrentSegmentNumberRequest,
                              getResponse: GetCurrentSegmentNumberResponse)

  /** The table after one call. No call adds or removes a key, and the only
      change to an entry is emptying its slot. */
  function Apply(data: Table, call: Call): (r: Table)
    ensures r.Keys == data.Keys
    ensures forall id :: id in data ==> r[id] == data[id] || r[id] == Nulled(data[id])
  {
    match call
    case InitUpload(request, response, generated) => InitUploadStep(data, request, response, generated).data
    case UploadChunk(request, response) => UploadChunkStep(data, request, response).data
    case DownloadChunk(request, response) => DownloadChunkStep(data, request, response).data
    case ConfirmChunkDownloaded(request, response) => ConfirmChunkDownloadedStep(data, request, response).data
    case GetCurrentSegmentNumber(request, response) => GetCurrentSegmentNumberStep(data, request, response).data
  }

  /** The table after the calls, one at a time, in order. */
  function Run(data: Table, calls: seq<Call>): Table
    decreases |calls|
  {
    if calls == [] then data else Run(Apply(data, calls[0]), calls[1..])
  }

  /** No sequence of calls registers or forgets a transfer. */
  lemma {:induction false} RunKeepsKeys(data: Table, calls: seq<Call>)
    ensures Run(data, calls).Keys == data.Keys
    decreases |calls|
  {
    if calls != [] {
      RunKeepsKeys(Apply(data, calls[0]), calls[1..]);
    }
  }

  /** A pending chunk is never replaced: after any calls, an entry is either
      exactly what it was or an empty slot without payload. */
  lemma {:induction false} RunOnlyEmptiesSlots(data: Table, calls: seq<Call>, id: TransferID)
    requires id in data
    ensures id in Run(data, calls)
    ensures var s := Run(data, calls)[id]; s == data[id] || (IsNull(s) && s.data == [])
    decreases |calls|
  {
    if calls != [] {
      var next := Apply(data, calls[0]);
      RunOnlyEmptiesSlots(next, calls[1..], id);
    }
  }

  /** Every state reachable from `New` has an empty table. */
  lemma {:induction false} ReachableIsEmpty(calls: seq<Call>)
    ensures Run(NewData(), calls) == map[]
  {
    RunKeepsKeys(NewData(), calls);
  }

  /** Hence, whatever happened before, an upload is refused because the
      zero-valued segment of a missing key is not null ... */
  lemma {:induction false} UploadAlwaysRefused(calls: seq<Call>, request: UploadChunkRequest, response: UploadChunkResponse)
    ensures UploadChunkStep(Run(NewData(), calls), request, response).err == Some(SegmentNotYetDownloaded)
  {
    ReachableIsEmpty(calls);
  }

  /** ... a download finds no transfer ... */
  lemma {:induction false} DownloadAlwaysRefused(calls: seq<Call>, request: DownloadChunkRequest, response: DownloadChunkResponse)
    ensures DownloadChunkStep(Run(NewData(), calls), request, response).err
            == Some(CannotFindTransfer(request.transferID))
  {
    ReachableIsEmpty(calls);
  }

  /** ... and neither does a query of the pending number. */
  lemma {:induction false} QueryAlwaysRefused(calls: seq<Call>, request: GetCurrentSegmentNumberRequest,
                           response: GetCurrentSegmentNumberResponse)
    ensures GetCurrentSegmentNumberStep(Run(NewData(), calls), request, response).err
            == Some(TransferDoesNotExist(request.transferID))
  {
    ReachableIsEmpty(calls);
  }

  /** The identifier `InitUpload` hands out is not registered: a query of it
      right afterwards reports that the transfer does not exist. */
  lemma InitRegistersNothing(data: Table, request: InitUploadRequest, response: InitUploadResponse,
                             generated: TransferID, query: GetCurrentSegmentNumberResponse)
    requires generated !in data
    ensures var init := InitUploadStep(data, request, response, generated);
            GetCurrentSegmentNumberStep(init.data, GetCurrentSegmentNumberRequest(init.response.transferID), query).err
            == Some(TransferDoesNotExist(generated))
  {
  }

  /** Uploading the first chunk of a transfer just initialised fails. */
  lemma InitThenUploadFails(request: InitUploadRequest, response: InitUploadResponse, a: TransferID,
                            content: Bytes, uploadResponse: UploadChunkResponse)
    ensures var init := InitUploadStep(NewData(), request, response, a);
            UploadChunkStep(init.data, UploadChunkRequest(init.response.transferID, 0, content), uploadResponse).err
            == Some(SegmentNotYetDownloaded)
  {
  }

  /** Confirmation ignores the chunk number it is given. */
  lemma ConfirmIgnoresChunkNumber(data: Table, request: ConfirmChunkDownloadedRequest, n: int,
                                  response: ConfirmChunkDownloadedResponse)
    ensures ConfirmChunkDownloadedStep(data, request, response)
            == ConfirmChunkDownloadedStep(data, request.(chunkNumber := n), response)
  {
  }

  /** A second confirmation leaves the slot empty and without payload, but
      overwrites `lastNumber` with the null number; so it changes the table
      exactly when the first one emptied a full slot. */
  lemma ConfirmTwice(data: Table, request: ConfirmChunkDownloadedRequest, response: ConfirmChunkDownloadedResponse)
    ensures var once := ConfirmChunkDownloadedStep(data, request, response).data;
            var twice := ConfirmChunkDownloadedStep(once, request, response).data;
            && twice.Keys == data.Keys
            && (request.transferID in data ==>
                  && IsNull(twice[request.transferID]) && twice[request.transferID].data == []
                  && twice[request.transferID].lastNumber == NullCurrentSegmentID)
            && (twice == once <==> request.transferID !in data || IsNull(data[request.transferID]))
  {
  }

  /** Downloading is a peek: repeating it gives the same answer. */
  lemma DownloadIsPeek(data: Table, request: DownloadChunkRequest, response: DownloadChunkResponse)
    ensures var first := DownloadChunkStep(data, request, response);
            DownloadChunkStep(first.data, request, response) == first
  {
  }
}
