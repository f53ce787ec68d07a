/** The chunk-handoff service of app/service/service.go: a table from transfer
    identifiers to a single-slot `CurrentSegment`, and the five RPC operations
    that read and update it. Each operation runs under one coarse lock in the
    source, so each is modelled here as one atomic step.

    Every operation is given twice: as a pure step function (`...Step`) that
    states what the call returns and what the table becomes, and as a method
    of the class `Service`, which updates its `data` field in place the way
    the Go methods do and is proved equal to the step function. */
module Service {

  /** A 128-bit UUID in the source; here an opaque value compared for equality. */
  type TransferID(==)

  type Bytes = seq<bv8>

  datatype Option<T> = None | Some(value: T)

  /** One transfer's slot. `number` is the pending chunk, or
      `NullCurrentSegmentID` when the slot is empty. A Go nil slice is `[]`. */
  datatype CurrentSegment = CurrentSegment(number: int, lastNumber: int, data: Bytes)

  const NullCurrentSegmentID: int := -1

  /** The Go zero value of `CurrentSegment`, which a map lookup yields for a
      missing key: its `number` is 0, not `NullCurrentSegmentID`. */
  const ZeroSegment: CurrentSegment := CurrentSegment(0, 0, [])

  type Table = map<TransferID, CurrentSegment>

  datatype InitUploadRequest = InitUploadRequest(numOfChunks: int)
  datatype InitUploadResponse = InitUploadResponse(transferID: TransferID)
  datatype UploadChunkRequest = UploadChunkRequest(transferID: TransferID, chunkNumber: int, content: Bytes)
  datatype UploadChunkResponse = UploadChunkResponse
  datatype DownloadChunkRequest = DownloadChunkRequest(transferID: TransferID, chunkNumber: int)
  datatype DownloadChunkResponse = DownloadChunkResponse(transferID: TransferID, chunkNumber: int, data: Bytes)
  datatype ConfirmChunkDownloadedRequest = ConfirmChunkDownloadedRequest(transferID: TransferID, chunkNumber: int)
  datatype ConfirmChunkDownloadedResponse = ConfirmChunkDownloadedResponse
  datatype GetCurrentSegmentNumberRequest = GetCurrentSegmentNumberRequest(transferID: TransferID)
  datatype GetCurrentSegmentNumberResponse = GetCurrentSegmentNumberResponse(chunkNumber: int)

  /** The errors the service returns, one constructor per `fmt.Errorf` site. */
  datatype Error =
    | TransferNotRunning(id: TransferID)
    | TransferIDWasNotFound(upload: UploadChunkRequest)
    | SegmentNotYetDownloaded
    | CannotFindTransfer(id: TransferID)
    | SegmentNotUploadedYet(download: DownloadChunkRequest)
    | SegmentNotAvailable(number: int)
    | CannotSetNullCurrentSegment(cause: Error)
    | TransferDoesNotExist(id: TransferID)
    | TransferNotInitialized

  /** What one call does: the response as the caller sees it after the call
      (fields the service does not write keep the caller's values), the
      returned error (`None` for Go's nil) and the table afterwards. */
  datatype Step<R> = Step(response: R, err: Option<Error>, data: Table)

  // ---------------------------------------------------------------------
  // Slot rules over one CurrentSegment

  /** The slot holds no chunk. */
  predicate IsNull(segment: CurrentSegment) {
    segment.number == NullCurrentSegmentID
  }

  /** The slot holds chunk `chunkNumber`, so a download of it is served. */
  predicate Serves(segment: CurrentSegment, chunkNumber: int) {
    !IsNull(segment) && segment.number == chunkNumber
  }

  /** The slot after a confirmation: the pending number moves to
      `lastNumber`, and the slot is emptied. */
  function Nulled(segment: CurrentSegment): (r: CurrentSegment)
    ensures IsNull(r) && r.data == []
    ensures forall n :: !Serves(r, n)
    ensures r.lastNumber == segment.number
  {
    CurrentSegment(NullCurrentSegmentID, segment.number, [])
  }

  /** Go's two-valued map index `segment, ok := m[id]`. A missing key yields
      the zero segment, which is not a null slot. */
  function Lookup(data: Table, id: TransferID): (r: (CurrentSegment, bool))
    ensures r.1 <==> id in data
    ensures r.1 ==> r.0 == data[id]
    ensures !r.1 ==> r.0.number == 0 && !IsNull(r.0)
  {
    if id in data then (data[id], true) else (ZeroSegment, false)
  }

  // ---------------------------------------------------------------------
  // The operations as step functions

  /** `setNullCurrentSegment`: empties the slot of a known transfer. */
  function SetNullCurrentSegmentStep(data: Table, id: TransferID): (r: (Option<Error>, Table))
    ensures r.0 == None <==> id in data
    ensures id !in data ==> r.0 == Some(TransferNotRunning(id))
    ensures r.1.Keys == data.Keys
    ensures id in data ==> r.1[id] == Nulled(data[id])
    ensures forall k :: k in data && k != id ==> r.1[k] == data[k]
  {
    var (segment, ok) := Lookup(data, id);
    if !ok then (Some(TransferNotRunning(id)), data)
    else (None, data[id := Nulled(segment)])
  }

  /** `New`: the service starts with an empty table. */
  function NewData(): (r: Table)
    ensures forall id :: id !in r
  {
    map[]
  }

  /** `InitUpload`: reports the freshly generated identifier and registers
      nothing. */
  function InitUploadStep(data: Table, request: InitUploadRequest, response: InitUploadResponse,
                          generated: TransferID): (r: Step<InitUploadResponse>)
    ensures r.err == None
    ensures r.response.transferID == generated
    ensures r.data == data
  {
    Step(response.(transferID := generated), None, data)
  }

  /** `UploadChunk` as written: rejects a known identifier, and for an
      unknown one the zero-valued segment is not null, so it rejects again.
      The store of the last branch is never reached. */
  function UploadChunkStep(data: Table, request: UploadChunkRequest, response: UploadChunkResponse)
    : (r: Step<UploadChunkResponse>)
    ensures r.err.Some? && r.data == data
    ensures request.transferID in data ==> r.err == Some(TransferIDWasNotFound(request))
    ensures request.transferID !in data ==> r.err == Some(SegmentNotYetDownloaded)
  {
    var (segment, ok) := Lookup(data, request.transferID);
    if ok then Step(response, Some(TransferIDWasNotFound(request)), data)
    else if segment.number != NullCurrentSegmentID then Step(response, Some(SegmentNotYetDownloaded), data)
    else Step(response, None,
              data[request.transferID := CurrentSegment(request.chunkNumber, 0, request.content)])
  }

  /** `DownloadChunk`: a peek at the slot, served only for the pending number. */
  function DownloadChunkStep(data: Table, request: DownloadChunkRequest, response: DownloadChunkResponse)
    : (r: Step<DownloadChunkResponse>)
    ensures r.data == data
    ensures r.err == None <==> request.transferID in data && Serves(data[request.transferID], request.chunkNumber)
    ensures r.err == None ==>
      && r.response.chunkNumber == request.chunkNumber
      && r.response.data == data[request.transferID].data
      && r.response.transferID == response.transferID
    ensures r.err != None ==> r.response == response
    ensures request.transferID !in data ==> r.err == Some(CannotFindTransfer(request.transferID))
    ensures request.transferID in data && IsNull(data[request.transferID]) ==>
      r.err == Some(SegmentNotUploadedYet(request))
    ensures request.transferID in data && !IsNull(data[request.transferID])
            && data[request.transferID].number != request.chunkNumber ==>
      r.err == Some(SegmentNotAvailable(data[request.transferID].number))
  {
    var (segment, ok) := Lookup(data, request.transferID);
    if !ok then Step(response, Some(CannotFindTransfer(request.transferID)), data)
    else if segment.number == NullCurrentSegmentID then Step(response, Some(SegmentNotUploadedYet(request)), data)
    else if segment.number != request.chunkNumber then Step(response, Some(SegmentNotAvailable(segment.number)), data)
    else Step(response.(chunkNumber := segment.number, data := segment.data), None, data)
  }

  /** `ConfirmChunkDownloaded`: always succeeds; empties the slot of a known
      transfer, ignores the requested chunk number, changes nothing else. */
  function ConfirmChunkDownloadedStep(data: Table, request: ConfirmChunkDownloadedRequest,
                                      response: ConfirmChunkDownloadedResponse)
    : (r: Step<ConfirmChunkDownloadedResponse>)
    ensures r.err == None && r.response == response
    ensures r.data.Keys == data.Keys
    ensures request.transferID in data ==> r.data[request.transferID] == Nulled(data[request.transferID])
    ensures forall k :: k in data && k != request.transferID ==> r.data[k] == data[k]
  {
    var (_, ok) := Lookup(data, request.transferID);
    if !ok then Step(response, None, data)
    else
      var (e, data') := SetNullCurrentSegmentStep(data, request.transferID);
      match e
      case Some(cause) => Step(response, Some(CannotSetNullCurrentSegment(cause)), data')
      case None => Step(response, None, data')
  }

  /** `GetCurrentSegmentNumber`: reports the pending chunk number. */
  function GetCurrentSegmentNumberStep(data: Table, request: GetCurrentSegmentNumberRequest,
                                       response: GetCurrentSegmentNumberResponse)
    : (r: Step<GetCurrentSegmentNumberResponse>)
    ensures r.data == data
    ensures r.err != None <==> request.transferID !in data || IsNull(data[request.transferID])
    ensures r.err == None ==> r.response.chunkNumber == data[request.transferID].number
    ensures r.err != None ==> r.response == response
    ensures request.transferID !in data ==> r.err == Some(TransferDoesNotExist(request.transferID))
    ensures request.transferID in data && IsNull(data[request.transferID]) ==> r.err == Some(TransferNotInitialized)
  {
    var (segment, ok) := Lookup(data, request.transferID);
    if !ok then Step(response, Some(TransferDoesNotExist(request.transferID)), data)
    else if segment.number == NullCurrentSegmentID then Step(response, Some(TransferNotInitialized), data)
    else Step(response.(chunkNumber := segment.number), None, data)
  }

  // ---------------------------------------------------------------------
  // The service object

  class Service {
    var data: Table

    /** `New`. */
    constructor ()
      ensures data == NewData()
    {
      data := map[];
    }

    method SetNullCurrentSegment(transferID: TransferID) returns (err: Option<Error>)
      modifies this
      ensures (err, data) == SetNullCurrentSegmentStep(old(data), transferID)
    {
      var (segment, ok) := Lookup(data, transferID);
      if !ok {
        return Some(TransferNotRunning(transferID));
      }
      segment := segment.(lastNumber := segment.number);
      segment := segment.(number := NullCurrentSegmentID);
      segment := segment.(data := []);
      data := data[transferID := segment];
      err := None;
    }

    method InitUpload(request: InitUploadRequest, response: InitUploadResponse, generated: TransferID)
      returns (response': InitUploadResponse, err: Option<Error>)
      ensures Step(response', err, data) == InitUploadStep(data, request, response, generated)
    {
      response' := response.(transferID := generated);
      err := None;
    }

    method UploadChunk(request: UploadChunkRequest, response: UploadChunkResponse)
      returns (response': UploadChunkResponse, err: Option<Error>)
      modifies this
      ensures Step(response', err, data) == UploadChunkStep(old(data), request, response)
    {
      response' := response;
      var table := data;
      var (segment, ok) := Lookup(table, request.transferID);
      if ok {
        err := Some(TransferIDWasNotFound(request));
      } else if segment.number != NullCurrentSegmentID {
        err := Some(SegmentNotYetDownloaded);
      } else {
        // Never reached: `ok` is false here, so `segment` is ZeroSegment.
        table := table[request.transferID := CurrentSegment(request.chunkNumber, 0, request.content)];
        err := None;
      }
      data := table;
    }

    method DownloadChunk(request: DownloadChunkRequest, response: DownloadChunkResponse)
      returns (response': DownloadChunkResponse, err: Option<Error>)
      ensures Step(response', err, data) == DownloadChunkStep(data, request, response)
    {
      response' := response;
      var (segment, ok) := Lookup(data, request.transferID);
      if !ok {
        return response', Some(CannotFindTransfer(request.transferID));
      }
      if segment.number == NullCurrentSegmentID {
        return response', Some(SegmentNotUploadedYet(request));
      }
      if segment.number != request.chunkNumber {
        return response', Some(SegmentNotAvailable(segment.number));
      }
      response' := response'.(chunkNumber := segment.number);
      response' := response'.(data := segment.data);
      err := None;
    }

    method ConfirmChunkDownloaded(request: ConfirmChunkDownloadedRequest, response: ConfirmChunkDownloadedResponse)
      returns (err: Option<Error>)
      modifies this
      ensures Step(response, err, data) == ConfirmChunkDownloadedStep(old(data), request, response)
    {
      var (_, ok) := Lookup(data, request.transferID);
      if !ok {
        return None;
      }
      var e := SetNullCurrentSegment(request.transferID);
      match e {
        case Some(cause) =>
          err := Some(CannotSetNullCurrentSegment(cause));
        case None =>
          err := None;
      }
    }

    method GetCurrentSegmentNumber(request: GetCurrentSegmentNumberRequest, response: GetCurrentSegmentNumberResponse)
      returns (response': GetCurrentSegmentNumberResponse, err: Option<Error>)
      ensures Step(response', err, data) == GetCurrentSegmentNumberStep(data, request, response)
    {
      response' := response;
      var (segment, ok) := Lookup(data, request.transferID);
      if !ok {
        return response', Some(TransferDoesNotExist(request.transferID));
      }
      if segment.number == NullCurrentSegmentID {
        return response', Some(TransferNotInitialized);
      }
      response' := response'.(chunkNumber := segment.number);
      err := None;
    }
  }
}
