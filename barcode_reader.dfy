/**
 * `BarcodeReader`: single-shot decoding through a far-side reader object.
 * Each decode is one far-side round trip, followed by two more that fetch the
 * source's dimensions into `SourceWidth`/`SourceHeight`; the engine settings
 * are read and written as an opaque string. The reader reference may be null:
 * `DecodeCanvas`, `GetParameters` and `SetParameters` guard against that,
 * `DecodeBase64` does not.
 */
module Reader {
  import opened Interop
  import opened Results

  /** The image a decode call is given. */
  datatype ImageSource = Base64Image(data: string) | Canvas(canvas: JsObject)

  /** The far-side calls a reader issues. */
  datatype ReaderCall =
    | InvokeDecode(source: ImageSource)
    | InvokeGetSourceWidth
    | InvokeGetSourceHeight
    | InvokeOutputRuntimeSettings
    | InvokeInitRuntimeSettings(parameters: string)

  /**
   * The calls one decode issues: `decode`, then `getSourceWidth` once `decode`
   * has returned, then `getSourceHeight` once that has returned.
   */
  function DecodeCalls(source: ImageSource, decoded: bool, widthRead: bool): (calls: seq<ReaderCall>)
    ensures 1 <= |calls| <= 3 && calls[0] == InvokeDecode(source)
    ensures |calls| == 1 + (if decoded then 1 else 0) + (if decoded && widthRead then 1 else 0)
  {
    [InvokeDecode(source)]
    + (if decoded then [InvokeGetSourceWidth] else [])
    + (if decoded && widthRead then [InvokeGetSourceHeight] else [])
  }

  class BarcodeReader {
    const jsModule: JsObject
    /** The far-side reader; `None` when the reader was created with a null reference. */
    const jsReader: Option<JsObject>

    var sourceWidth: int32
    var sourceHeight: int32

    /** Far-side calls issued so far, oldest first. */
    var farCalls: seq<ReaderCall>

    constructor (jsModule: JsObject, jsReader: Option<JsObject>)
      ensures this.jsModule == jsModule && this.jsReader == jsReader
      ensures sourceWidth == 0 && sourceHeight == 0 && farCalls == []
    {
      this.jsModule := jsModule;
      this.jsReader := jsReader;
      sourceWidth, sourceHeight := 0, 0;
      farCalls := [];
    }

    /**
     * The three round trips both decode operations share. Each dimension is
     * overwritten as soon as its call returns; an exception ends the decode
     * and leaves the later fields as they were.
     */
    method Decode(source: ImageSource, decodeReply: Reply<Json>, widthReply: Reply<int32>,
                  heightReply: Reply<int32>, wrapResult: Json -> seq<BarcodeResult>)
      returns (r: Result<seq<BarcodeResult>>)
      requires jsReader.Some?
      modifies this`sourceWidth, this`sourceHeight, this`farCalls
      ensures farCalls == old(farCalls) + DecodeCalls(source, decodeReply.Returned?, widthReply.Returned?)
      ensures sourceWidth == if decodeReply.Returned? && widthReply.Returned? then widthReply.value else old(sourceWidth)
      ensures sourceHeight == if decodeReply.Returned? && widthReply.Returned? && heightReply.Returned?
        then heightReply.value else old(sourceHeight)
      ensures r.Ok? <==> decodeReply.Returned? && widthReply.Returned? && heightReply.Returned?
      ensures r.Ok? ==> r.value == wrapResult(decodeReply.value)
      ensures r.Fault? ==> r.error == FarSideFailure
    {
      farCalls := farCalls + [InvokeDecode(source)];
      if decodeReply.Threw? {
        return Fault(FarSideFailure);
      }
      farCalls := farCalls + [InvokeGetSourceWidth];
      if widthReply.Threw? {
        return Fault(FarSideFailure);
      }
      sourceWidth := widthReply.value;
      farCalls := farCalls + [InvokeGetSourceHeight];
      if heightReply.Threw? {
        return Fault(FarSideFailure);
      }
      sourceHeight := heightReply.value;
      r := Ok(wrapResult(decodeReply.value));
    }

    /**
     * Decodes a base64-encoded image. There is no null guard: with no reader the
     * first far-side call is made through a null reference, which the invocation
     * helper rejects with an exception.
     */
    method DecodeBase64(base64: string, decodeReply: Reply<Json>, widthReply: Reply<int32>,
                        heightReply: Reply<int32>, wrapResult: Json -> seq<BarcodeResult>)
      returns (r: Result<seq<BarcodeResult>>)
      modifies this`sourceWidth, this`sourceHeight, this`farCalls
      ensures jsReader.None? ==> r == Fault(NullArgument) && unchanged(this)
      ensures jsReader.Some? ==>
        && farCalls == old(farCalls) + DecodeCalls(Base64Image(base64), decodeReply.Returned?, widthReply.Returned?)
        && sourceWidth == (if decodeReply.Returned? && widthReply.Returned? then widthReply.value else old(sourceWidth))
        && sourceHeight == (if decodeReply.Returned? && widthReply.Returned? && heightReply.Returned?
             then heightReply.value else old(sourceHeight))
        && (r.Ok? <==> decodeReply.Returned? && widthReply.Returned? && heightReply.Returned?)
        && (r.Ok? ==> r.value == wrapResult(decodeReply.value))
        && (r.Fault? ==> r.error == FarSideFailure)
    {
      if jsReader.None? {
        return Fault(NullArgument);
      }
      r := Decode(Base64Image(base64), decodeReply, widthReply, heightReply, wrapResult);
    }

    /** Decodes a canvas; with no reader it returns an empty list at once. */
    method DecodeCanvas(canvas: JsObject, decodeReply: Reply<Json>, widthReply: Reply<int32>,
                        heightReply: Reply<int32>, wrapResult: Json -> seq<BarcodeResult>)
      returns (r: Result<seq<BarcodeResult>>)
      modifies this`sourceWidth, this`sourceHeight, this`farCalls
      ensures jsReader.None? ==> r == Ok([]) && unchanged(this)
      ensures jsReader.Some? ==>
        && farCalls == old(farCalls) + DecodeCalls(Canvas(canvas), decodeReply.Returned?, widthReply.Returned?)
        && sourceWidth == (if decodeReply.Returned? && widthReply.Returned? then widthReply.value else old(sourceWidth))
        && sourceHeight == (if decodeReply.Returned? && widthReply.Returned? && heightReply.Returned?
             then heightReply.value else old(sourceHeight))
        && (r.Ok? <==> decodeReply.Returned? && widthReply.Returned? && heightReply.Returned?)
        && (r.Ok? ==> r.value == wrapResult(decodeReply.value))
        && (r.Fault? ==> r.error == FarSideFailure)
    {
      if jsReader.None? {
        return Ok([]);
      }
      r := Decode(Canvas(canvas), decodeReply, widthReply, heightReply, wrapResult);
    }

    /** The engine settings as a string: "" with no reader, else the far side's answer unchanged. */
    method GetParameters(reply: Reply<string>) returns (r: Result<string>)
      modifies this`farCalls
      ensures jsReader.None? ==> r == Ok("") && farCalls == old(farCalls)
      ensures jsReader.Some? ==> farCalls == old(farCalls) + [InvokeOutputRuntimeSettings]
      ensures jsReader.Some? ==> r == if reply.Returned? then Ok(reply.value) else Fault(FarSideFailure)
    {
      if jsReader.None? {
        return Ok("");
      }
      farCalls := farCalls + [InvokeOutputRuntimeSettings];
      r := if reply.Returned? then Ok(reply.value) else Fault(FarSideFailure);
    }

    /**
     * Hands a settings string to the far side and reports 0 on success and -1
     * when there is no reader or the far side rejects it; it never throws.
     */
    method SetParameters(parameters: string, reply: Reply<()>) returns (status: int)
      modifies this`farCalls
      ensures status == 0 || status == -1
      ensures status == 0 <==> jsReader.Some? && reply.Returned?
      ensures farCalls == old(farCalls) + if jsReader.Some? then [InvokeInitRuntimeSettings(parameters)] else []
    {
      if jsReader.None? {
        return -1;
      }
      farCalls := farCalls + [InvokeInitRuntimeSettings(parameters)];
      match reply
      case Threw =>
        status := -1;
      case Returned(_) =>
        status := 0;
    }
  }
}
