/**
 * `BarcodeScanner`: a continuous-scan session on the host. It keeps the
 * cameras the far side has listed (appending on every `GetCameras`), the one
 * registered result callback, the dimensions of the video source and a
 * disposed flag. The far side reaches it through `OnResultReady` and
 * `OnSizeChanged`.
 */
module Scanner {
  import opened Interop
  import opened Results

  /**
   * A capture device; both fields are "" unless the far side supplies a string.
   * `labelText` is the C# `Label` (`label` is a reserved word in Dafny).
   */
  datatype Camera = Camera(deviceId: string, labelText: string)

  /** A host object implementing `ICallback`, known by its identity. */
  datatype CallbackRef = CallbackRef(id: nat)

  /** One `OnCallback(results)` call made into a registered callback. */
  datatype Delivery = Delivery(target: CallbackRef, results: seq<BarcodeResult>)

  /** The far-side calls a scanner issues through its module. */
  datatype ScannerCall =
    | InvokeSetVideoElement(videoId: string)
    | InvokeOpenCamera(camera: Camera, notifyMethod: string)
    | InvokeCloseCamera
    | InvokeGetCameras
    | InvokeRegisterCallback(notifyMethod: string)

  /** True when property `name` of an object is absent, null or a string. */
  predicate NullOrString(fields: map<string, Json>, name: string) {
    name in fields ==> fields[name].JNull? || fields[name].JString?
  }

  /** The string held in property `name`, or "" when there is none. */
  function StringOrEmpty(fields: map<string, Json>, name: string): string {
    if name in fields && fields[name].JString? then fields[name].s else ""
  }

  /**
   * `item.TryGetProperty(name, out v)` and then `v.GetString()`: absent and null
   * give no string; `TryGetProperty` throws on an element that is not an object,
   * and `GetString` on a value that is neither null nor a string.
   */
  function StringProperty(item: Json, name: string): (r: Result<Option<string>>)
    ensures r.Ok? <==> item.JObject? && NullOrString(item.fields, name)
    ensures r.Fault? ==> r.error == InvalidOperation
    ensures r.Ok? ==> (r.value.Some? <==> name in item.fields && item.fields[name].JString?)
    ensures r.Ok? && r.value.Some? ==> r.value.value == StringOrEmpty(item.fields, name)
  {
    match item
    case JObject(fields) =>
      if name !in fields then Ok(None)
      else (
        match fields[name]
        case JNull => Ok(None)
        case JString(s) => Ok(Some(s))
        case _ => Fault(InvalidOperation))
    case _ => Fault(InvalidOperation)
  }

  /**
   * The body of the `foreach` in `GetCameras`: a fresh `Camera` whose fields are
   * overwritten by the `deviceId` and `label` strings when present and non-null.
   */
  function CameraFrom(item: Json): (r: Result<Camera>)
    ensures r.Ok? <==> item.JObject? && NullOrString(item.fields, "deviceId") && NullOrString(item.fields, "label")
    ensures r.Fault? ==> r.error == InvalidOperation
    ensures r.Ok? ==> r.value.deviceId == StringOrEmpty(item.fields, "deviceId")
    ensures r.Ok? ==> r.value.labelText == StringOrEmpty(item.fields, "label")
  {
    var camera := Camera("", "");
    var deviceId :- StringProperty(item, "deviceId");
    var camera := if deviceId.Some? then camera.(deviceId := deviceId.value) else camera;
    var labelValue :- StringProperty(item, "label");
    var camera := if labelValue.Some? then camera.(labelText := labelValue.value) else camera;
    Ok(camera)
  }

  predicate Readable(item: Json) {
    CameraFrom(item).Ok?
  }

  /** How many leading elements of `items` can be read as cameras. */
  function ReadablePrefix(items: seq<Json>): (n: nat)
    ensures n <= |items|
    ensures forall j :: 0 <= j < n ==> Readable(items[j])
    ensures n < |items| ==> !Readable(items[n])
    decreases |items|
  {
    if items == [] || !Readable(items[0]) then 0 else 1 + ReadablePrefix(items[1..])
  }

  /** One camera per element, in order. */
  function CamerasOf(items: seq<Json>): seq<Camera>
    requires forall j :: 0 <= j < |items| ==> Readable(items[j])
  {
    seq(|items|, j requires 0 <= j < |items| && Readable(items[j]) => CameraFrom(items[j]).value)
  }

  /** What one `GetCameras` pass appends for a response. */
  function Appended(response: Json): seq<Camera> {
    if response.JArray? then CamerasOf(response.items[..ReadablePrefix(response.items)]) else []
  }

  /** True when `GetCameras` gets through a response without an exception. */
  predicate FullyReadable(response: Json) {
    response.JArray? ==> ReadablePrefix(response.items) == |response.items|
  }

  /** The camera list after `GetCameras` answered with `response`, starting from `held`. */
  function AfterGetCameras(held: seq<Camera>, response: Json): seq<Camera> {
    held + Appended(response)
  }

  /**
   * An array of readable elements appends exactly one camera per element, in
   * array order, after the cameras already held.
   */
  lemma ArrayAppendsOnePerElement(held: seq<Camera>, items: seq<Json>)
    requires forall j :: 0 <= j < |items| ==> Readable(items[j])
    ensures |AfterGetCameras(held, JArray(items))| == |held| + |items|
    ensures AfterGetCameras(held, JArray(items))[..|held|] == held
    ensures forall j :: 0 <= j < |items| ==> AfterGetCameras(held, JArray(items))[|held| + j] == CameraFrom(items[j]).value
  {
    assert ReadablePrefix(items) == |items|;
    assert items[..|items|] == items;
  }

  /** A response that is not an array leaves the list as it was. */
  lemma NonArrayAppendsNothing(held: seq<Camera>, response: Json)
    requires !response.JArray?
    ensures AfterGetCameras(held, response) == held && FullyReadable(response)
  {
  }

  /**
   * An element that cannot be read stops the pass: the cameras of the elements
   * before it stay appended, none after it are.
   */
  lemma UnreadableElementStopsAppending(held: seq<Camera>, items: seq<Json>, k: nat)
    requires k < |items| && !Readable(items[k])
    requires forall j :: 0 <= j < k ==> Readable(items[j])
    ensures !FullyReadable(JArray(items))
    ensures AfterGetCameras(held, JArray(items)) == held + CamerasOf(items[..k])
  {
    assert ReadablePrefix(items) == k;
  }

  /**
   * Two passes accumulate: nothing is cleared, the first response's cameras
   * follow the ones held, and the second's follow those.
   */
  lemma {:induction false} GetCamerasAccumulates(held: seq<Camera>, first: seq<Json>, second: seq<Json>)
    requires forall j :: 0 <= j < |first| ==> Readable(first[j])
    requires forall j :: 0 <= j < |second| ==> Readable(second[j])
    ensures var after := AfterGetCameras(AfterGetCameras(held, JArray(first)), JArray(second));
      && |after| == |held| + |first| + |second|
      && after[..|held|] == held
      && after == held + CamerasOf(first) + CamerasOf(second)
  {
    ArrayAppendsOnePerElement(held, first);
    ArrayAppendsOnePerElement(AfterGetCameras(held, JArray(first)), second);
    assert first[..ReadablePrefix(first)] == first;
    assert second[..ReadablePrefix(second)] == second;
  }

  class BarcodeScanner {
    /** The far-side module and the far-side scanner object this instance drives. */
    const jsModule: JsObject
    const jsScanner: JsObject

    var cameras: seq<Camera>
    var callback: Option<CallbackRef>
    var disposed: bool
    var sourceWidth: int32
    var sourceHeight: int32

    /** Far-side calls issued so far, oldest first. */
    var farCalls: seq<ScannerCall>
    /** Calls made into registered callbacks so far, oldest first. */
    var deliveries: seq<Delivery>
    /** How often the `DotNetObjectReference` to this scanner has been disposed. */
    var selfReferenceDisposals: nat

    /**
     * The self-reference is disposed exactly when the scanner is, and at most once.
     * `Dispose` and `Finalize` keep it; every other method's `modifies` frame
     * leaves both `disposed` and `selfReferenceDisposals` alone, so it keeps it too.
     */
    ghost predicate Valid()
      reads this
    {
      selfReferenceDisposals == if disposed then 1 else 0
    }

    constructor (jsModule: JsObject, jsScanner: JsObject)
      ensures Valid() && this.jsModule == jsModule && this.jsScanner == jsScanner
      ensures cameras == [] && callback == None && !disposed
      ensures sourceWidth == 0 && sourceHeight == 0
      ensures farCalls == [] && deliveries == []
    {
      this.jsModule := jsModule;
      this.jsScanner := jsScanner;
      cameras := [];
      callback := None;
      disposed := false;
      sourceWidth, sourceHeight := 0, 0;
      farCalls, deliveries := [], [];
      selfReferenceDisposals := 0;
    }

    method SetVideoElement(videoId: string, reply: Reply<()>) returns (r: Result<()>)
      modifies this`farCalls
      ensures farCalls == old(farCalls) + [InvokeSetVideoElement(videoId)]
      ensures r == if reply.Returned? then Ok(()) else Fault(FarSideFailure)
    {
      farCalls := farCalls + [InvokeSetVideoElement(videoId)];
      r := if reply.Returned? then Ok(()) else Fault(FarSideFailure);
    }

    /** Opens `camera`, naming `OnSizeChanged` as the far side's size notification. */
    method OpenCamera(camera: Camera, reply: Reply<()>) returns (r: Result<()>)
      modifies this`farCalls
      ensures farCalls == old(farCalls) + [InvokeOpenCamera(camera, "OnSizeChanged")]
      ensures r == if reply.Returned? then Ok(()) else Fault(FarSideFailure)
    {
      farCalls := farCalls + [InvokeOpenCamera(camera, "OnSizeChanged")];
      r := if reply.Returned? then Ok(()) else Fault(FarSideFailure);
    }

    method CloseCamera(reply: Reply<()>) returns (r: Result<()>)
      modifies this`farCalls
      ensures farCalls == old(farCalls) + [InvokeCloseCamera]
      ensures r == if reply.Returned? then Ok(()) else Fault(FarSideFailure)
    {
      farCalls := farCalls + [InvokeCloseCamera];
      r := if reply.Returned? then Ok(()) else Fault(FarSideFailure);
    }

    /**
     * Asks the far side for its cameras and appends one `Camera` per element of
     * an array answer to the list it keeps, which it returns. An element that
     * cannot be read throws after the cameras before it were appended.
     */
    method GetCameras(reply: Reply<Json>) returns (r: Result<seq<Camera>>)
      modifies this`cameras, this`farCalls
      ensures farCalls == old(farCalls) + [InvokeGetCameras]
      ensures cameras == if reply.Returned? then AfterGetCameras(old(cameras), reply.value) else old(cameras)
      ensures r.Ok? <==> reply.Returned? && FullyReadable(reply.value)
      ensures r.Ok? ==> r.value == cameras
      ensures r.Fault? ==> r.error == if reply.Threw? then FarSideFailure else InvalidOperation
    {
      farCalls := farCalls + [InvokeGetCameras];
      if reply.Threw? {
        return Fault(FarSideFailure);
      }
      var element := reply.value;
      if element.JArray? {
        var items := element.items;
        var i := 0;
        while i < |items|
          invariant 0 <= i <= |items|
          invariant forall j :: 0 <= j < i ==> Readable(items[j])
          invariant cameras == old(cameras) + CamerasOf(items[..i])
          invariant farCalls == old(farCalls) + [InvokeGetCameras]
        {
          var camera := CameraFrom(items[i]);
          if camera.Fault? {
            assert ReadablePrefix(items) == i;
            assert Appended(element) == CamerasOf(items[..i]);
            return Fault(camera.error);
          }
          assert items[..i + 1] == items[..i] + [items[i]];
          cameras := cameras + [camera.value];
          i := i + 1;
        }
        assert items[..|items|] == items;
        assert ReadablePrefix(items) == |items|;
      }
      r := Ok(cameras);
    }

    /**
     * Called by the far side with raw scan results: they are wrapped by
     * `wrapResult` and handed to the registered callback, if there is one.
     */
    method OnResultReady(message: Json, wrapResult: Json -> seq<BarcodeResult>)
      modifies this`deliveries
      ensures deliveries == old(deliveries)
        + if callback.Some? then [Delivery(callback.value, wrapResult(message))] else []
    {
      var results := wrapResult(message);
      if callback.Some? {
        deliveries := deliveries + [Delivery(callback.value, results)];
      }
    }

    /** Called by the far side when the video source changes size. */
    method OnSizeChanged(width: int32, height: int32)
      modifies this`sourceWidth, this`sourceHeight
      ensures sourceWidth == width && sourceHeight == height
    {
      sourceWidth := width;
      sourceHeight := height;
    }

    /** Stores `target` in place of any earlier callback, then has the far side report results. */
    method RegisterCallback(target: CallbackRef, reply: Reply<()>) returns (r: Result<()>)
      modifies this`callback, this`farCalls
      ensures callback == Some(target)
      ensures farCalls == old(farCalls) + [InvokeRegisterCallback("OnResultReady")]
      ensures r == if reply.Returned? then Ok(()) else Fault(FarSideFailure)
    {
      callback := Some(target);
      farCalls := farCalls + [InvokeRegisterCallback("OnResultReady")];
      r := if reply.Returned? then Ok(()) else Fault(FarSideFailure);
    }

    method Dispose()
      requires Valid()
      modifies this`disposed, this`selfReferenceDisposals
      ensures Valid() && disposed
      ensures selfReferenceDisposals == old(selfReferenceDisposals) + if old(disposed) then 0 else 1
    {
      if !disposed {
        selfReferenceDisposals := selfReferenceDisposals + 1;
        disposed := true;
      }
    }

    /** The finalizer: disposes only a scanner not disposed yet. */
    method Finalize()
      requires Valid()
      modifies this`disposed, this`selfReferenceDisposals
      ensures Valid() && disposed
      ensures selfReferenceDisposals == old(selfReferenceDisposals) + if old(disposed) then 0 else 1
    {
      if !disposed {
        Dispose();
      }
    }
  }

  /**
   * Re-registration replaces: after registering `first` and then `second`, a
   * result event reaches `second` alone.
   */
  method OnlyLatestCallbackReceives(s: BarcodeScanner, first: CallbackRef, second: CallbackRef,
                                    message: Json, wrapResult: Json -> seq<BarcodeResult>)
    modifies s
    ensures s.callback == Some(second)
    ensures s.deliveries == old(s.deliveries) + [Delivery(second, wrapResult(message))]
  {
    var _ := s.RegisterCallback(first, Returned(()));
    var _ := s.RegisterCallback(second, Returned(()));
    s.OnResultReady(message, wrapResult);
  }
}
