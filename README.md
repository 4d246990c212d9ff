# Razor Barcode Library — a Dafny model of the host-side bridge

RazorBarcodeLibrary is a Blazor component library. Its C# half drives a
browser-side barcode engine through far-side (JavaScript) calls. This project
models that C# half:

- `BarcodeJsInterop`, which imports the far-side module lazily, once, and keeps
  the outcome of that import for later calls.
- `BarcodeReader`, which decodes one image or canvas per call, records the
  source dimensions, and reads and writes the engine settings as a string.
- `BarcodeScanner`, a continuous-scan session. It keeps the camera list the far
  side reports, one result callback, the video dimensions and a disposed flag.
  The far side calls back into it through `OnResultReady` and `OnSizeChanged`.
- `BarcodeResult`, one decoded barcode, with its `ToJson` dictionary and its
  `ToString` line.

The far side is not modelled; the model only sees what it answers. Every awaited
far-side call becomes a parameter of type `Reply<T>`, either `Returned(value)` or
`Threw`. Every class keeps `farCalls`, the log of the far-side calls it has
issued, so contracts can state which calls are made and in what order. A C#
exception becomes the `Fault` case of `Result<T>`.

Files:

- `interop.dfy`: the shared values: `int32`, `Option`, the `Json` element kinds
  the bridge inspects, far-side object references, `Reply` and `Result`.
- `formatting.dfy`: the decimal rendering of an `int` and its inverse, and
  `string.Join`.
- `barcode_result.dfy`: the `BarcodeResult` record and its two projections.
- `barcode_scanner.dfy`: `Camera`, camera-list parsing and `BarcodeScanner`.
- `barcode_reader.dfy`: `BarcodeReader`.
- `barcode_js_interop.dfy`: `BarcodeJsInterop`.

## Model

| member | source | states |
|---|---|---|
| Formatting.DecimalRoundTrip | RazorBarcodeLibrary/BarcodeResult.cs:22 | The decimal text an interpolated coordinate renders as reads back as the same integer, negatives included. |
| Results.Default | RazorBarcodeLibrary/BarcodeResult.cs:5-17 | A freshly constructed result has null Text, Format and FullInfo and all eight coordinates 0. |
| Results.ToJson | RazorBarcodeLibrary/BarcodeResult.cs:25-38 | No `Add` repeats a key, so the method never throws; the dictionary holds exactly the ten keys Text, Format, X1 to Y4. |
| Results.ToJsonStrings | RazorBarcodeLibrary/BarcodeResult.cs:28-29 | "Text" and "Format" hold the result's text and format, with a null string stored as "". |
| Results.ToJsonCoordinates | RazorBarcodeLibrary/BarcodeResult.cs:30-37 | Each of X1 to Y4 is stored unchanged under its own name. |
| Results.ToJsonRoundTrip | RazorBarcodeLibrary/BarcodeResult.cs:25-38 | Reading the dictionary back gives the original result, with null strings turned into "" and FullInfo dropped; nothing else is lost. |
| Results.ToString | RazorBarcodeLibrary/BarcodeResult.cs:20-23 | `ToString` joins the ten fields with ", " in the fixed order Text, Format, X1 to Y4; each field reads "Name: value", a null string renders as empty, and each coordinate renders in decimal. |
| Results.InterpolationIsJoin | RazorBarcodeLibrary/BarcodeResult.cs:22 | For any rendered field values, the interpolation pattern equals the ", "-join of the ten "Name: value" entries. |
| Results.FullInfoNotProjected | RazorBarcodeLibrary/BarcodeResult.cs:8-38 | Changing FullInfo changes neither `ToJson` nor `ToString`. |
| Results.DefaultToJson | RazorBarcodeLibrary/BarcodeResult.cs:5-38 | A freshly constructed result, with null strings and zero coordinates, projects to Text "" and Format "" and every coordinate 0. |
| Results.DefaultToString | RazorBarcodeLibrary/BarcodeResult.cs:5-23 | A freshly constructed result renders as "Text: , Format: , X1: 0, …, Y4: 0". |
| Scanner.StringProperty | RazorBarcodeLibrary/BarcodeScanner.cs:93-104 | Reading one property succeeds exactly when the element is an object and the property is absent, null or a string. It gives a string exactly when the property holds one, and then that string. Otherwise `TryGetProperty` or `GetString` throws an invalid-operation error. |
| Scanner.CameraFrom | RazorBarcodeLibrary/BarcodeScanner.cs:92-109 | An element yields a camera exactly when it is an object whose "deviceId" and "label" are each absent, null or a string. Each field is that string, or "" otherwise. Any other element throws an invalid-operation error. |
| Scanner.ReadablePrefix | RazorBarcodeLibrary/BarcodeScanner.cs:90-111 | The loop gets through exactly the leading run of readable elements and stops at the first unreadable one. |
| Scanner.ArrayAppendsOnePerElement | RazorBarcodeLibrary/BarcodeScanner.cs:88-111 | An array of readable elements appends one camera per element, in array order, after the cameras already held, which stay unchanged. |
| Scanner.NonArrayAppendsNothing | RazorBarcodeLibrary/BarcodeScanner.cs:84-115 | A response that is not an array leaves the list unchanged and does not throw. |
| Scanner.UnreadableElementStopsAppending | RazorBarcodeLibrary/BarcodeScanner.cs:90-111 | The first unreadable element makes the call throw; the cameras of the elements before it stay appended, and none after it are added. |
| Scanner.GetCamerasAccumulates | RazorBarcodeLibrary/BarcodeScanner.cs:80-116 | Two calls accumulate: the list is never cleared, and each response's cameras follow those already held. |
| Scanner.BarcodeScanner.constructor | RazorBarcodeLibrary/BarcodeScanner.cs:43-48 | A new scanner holds its two far-side references, no cameras, no callback, zero dimensions, and is not disposed; nothing is called. |
| Scanner.BarcodeScanner.SetVideoElement | RazorBarcodeLibrary/BarcodeScanner.cs:54-57 | Issues one `setVideoElement` call and propagates its exception. |
| Scanner.BarcodeScanner.OpenCamera | RazorBarcodeLibrary/BarcodeScanner.cs:63-66 | Issues one `openCamera` call naming "OnSizeChanged" as the notification method, and propagates its exception. |
| Scanner.BarcodeScanner.CloseCamera | RazorBarcodeLibrary/BarcodeScanner.cs:71-74 | Issues one `closeCamera` call and propagates its exception. |
| Scanner.BarcodeScanner.GetCameras | RazorBarcodeLibrary/BarcodeScanner.cs:80-116 | Issues one `getCameras` call, then appends the readable prefix of an array answer to the held list. It succeeds exactly when the call returned and every element was readable, and then returns the whole accumulated list. A far-side failure leaves the list unchanged. |
| Scanner.BarcodeScanner.OnResultReady | RazorBarcodeLibrary/BarcodeScanner.cs:131-140 | The wrapped results are delivered once to the registered callback, or to no one when none is registered. |
| Scanner.BarcodeScanner.OnSizeChanged | RazorBarcodeLibrary/BarcodeScanner.cs:148-154 | The source dimensions become exactly the reported width and height. |
| Scanner.BarcodeScanner.RegisterCallback | RazorBarcodeLibrary/BarcodeScanner.cs:160-164 | The new callback replaces any earlier one before the far-side call. The call names "OnResultReady", and the replacement holds even when the call throws. |
| Scanner.BarcodeScanner.Dispose | RazorBarcodeLibrary/BarcodeScanner.cs:169-176 | After the call the scanner is disposed; the self-reference is disposed on the first call only, so never twice. |
| Scanner.BarcodeScanner.Finalize | RazorBarcodeLibrary/BarcodeScanner.cs:181-185 | The finalizer disposes only a scanner not yet disposed, which keeps the self-reference disposed at most once. |
| Scanner.OnlyLatestCallbackReceives | RazorBarcodeLibrary/BarcodeScanner.cs:131-164 | After registering one callback and then a second, a result event reaches only the second. |
| Reader.DecodeCalls | RazorBarcodeLibrary/BarcodeReader.cs:30-32 | A decode issues `decode`, then `getSourceWidth` only if `decode` returned, then `getSourceHeight` only if that returned too. |
| Reader.BarcodeReader.constructor | RazorBarcodeLibrary/BarcodeReader.cs:21-25 | A new reader holds its references, possibly a null reader, with zero dimensions, and makes no call. |
| Reader.BarcodeReader.Decode | RazorBarcodeLibrary/BarcodeReader.cs:30-33 | The shared decode: each dimension is overwritten once its call returns, and an exception leaves the later dimensions as they were. It succeeds exactly when all three calls return, and then yields the wrapped decode answer. |
| Reader.BarcodeReader.DecodeBase64 | RazorBarcodeLibrary/BarcodeReader.cs:27-34 | With no reader it has no guard and fails on the null reference without changing state. Otherwise it behaves as the shared decode. |
| Reader.BarcodeReader.DecodeCanvas | RazorBarcodeLibrary/BarcodeReader.cs:36-44 | With no reader it returns an empty list at once, with no call and no change. Otherwise it behaves as the shared decode. |
| Reader.BarcodeReader.GetParameters | RazorBarcodeLibrary/BarcodeReader.cs:46-51 | With no reader it returns "" with no call. Otherwise it issues one call and returns its string unchanged, or its exception. |
| Reader.BarcodeReader.SetParameters | RazorBarcodeLibrary/BarcodeReader.cs:53-68 | Never throws. The status is 0 or -1, and it is 0 exactly when a reader exists and the far side accepted the settings. The settings call is made only when a reader exists. |
| JsInterop.BarcodeJsInterop.constructor | RazorBarcodeLibrary/BarcodeJsInterop.cs:16-20 | Construction creates no module and issues no call. |
| JsInterop.BarcodeJsInterop.ModuleValue | RazorBarcodeLibrary/BarcodeJsInterop.cs:14-19 | The first access imports the module from the fixed script path. Every later access returns the kept outcome, a failure included, without a new call. |
| JsInterop.BarcodeJsInterop.InitializeAsync | RazorBarcodeLibrary/BarcodeJsInterop.cs:22-26 | Imports on first use, then calls `init` on the imported module. A failed import fails the call without calling `init`. |
| JsInterop.BarcodeJsInterop.GetVersion | RazorBarcodeLibrary/BarcodeJsInterop.cs:28-32 | Imports on first use, then returns the module's version string unchanged; it fails when the import or the call fails. |
| JsInterop.BarcodeJsInterop.DisposeAsync | RazorBarcodeLibrary/BarcodeJsInterop.cs:34-41 | Does nothing when the module was never requested, rethrows a failed import's exception, and otherwise disposes the imported module. It never imports. |
| JsInterop.ImportsOnce | RazorBarcodeLibrary/BarcodeJsInterop.cs:14-32 | `InitializeAsync` followed by `GetVersion` imports once, and both calls go to the module that import produced. |

The `Valid()` invariants carry the lifecycle promises across calls:

- Scanner: the self-reference is disposed exactly when the scanner is, and at
  most once.
- Interop bridge: no far-side call happens before the module is requested; the
  import is the first call and is never repeated; every later call targets the
  imported module.

## Left out

- The far-side script (`barcodeJsInterop.js`) and the engine behind it are not
  part of this model. Their answers are the `Reply` parameters.
- `BarcodeResult.WrapResult` is not part of this model. Decoding and
  `OnResultReady` take it as the parameter `wrapResult`, so no property of
  parsing a decode answer into results is stated.
- Scanner.BarcodeScanner.OnResultReady: the cast `(JsonElement)message` is
  assumed to succeed; a message of another type is not modelled.
- Scanner.BarcodeScanner.OnResultReady: the task `OnCallback` returns is not
  awaited in the library, and whatever the callback does, its failures
  included, is not modelled. A delivery is recorded as the call only.
- Concurrency is not modelled: `Lazy` thread safety, interleaving of
  unawaited tasks, and when the garbage collector runs the finalizer. Each
  operation runs to completion before the next starts.
- JsInterop.BarcodeJsInterop.ModuleValue: an import that throws synchronously,
  before a task exists, is not modelled. `Lazy` would not mark its value as
  created then. Every import failure is modelled as a faulted task, which is
  kept.
- The `Console.WriteLine` in `SetParameters` is output only and is left out.
- Exceptions are reduced to three kinds: a null receiver, a JSON accessor used
  on the wrong element kind, and a far-side failure. Their messages and exact
  types are not modelled.
- JSON numbers, booleans and `undefined` are one kind, `JOther`. An object is a
  map, so an object with two properties of the same name is not represented.
- Scanner.BarcodeScanner.GetCameras returns the list as a value. In C# it returns
  the scanner's own `List<Camera>`, so a caller's list also sees later appends.
  `Camera` objects are mutable in C# and are values here.
- Use of a disposed scanner, a disposed self-reference or a disposed module is
  not modelled. The library checks nothing there, and what happens is decided
  outside it.
- JsInterop.BarcodeJsInterop.DisposeAsync: a second call disposes the module
  reference again. Whether that is harmless is decided by the runtime and is
  not modelled.
- `ToString` renders integers as the invariant culture does: an ASCII minus
  sign and decimal digits. Other cultures are not modelled.
- The dimension fields of the reader and the scanner are public and callers may
  write them; only the library's own writes are modelled.
- Scanner.BarcodeScanner.GetCameras appends to `_cameras` and never clears it
  (BarcodeScanner.cs:110), so repeated calls accumulate duplicates; the model
  appends as the code does (`Scanner.GetCamerasAccumulates`).
- An element that `TryGetProperty` or `GetString` cannot read throws out of
  `GetCameras` (BarcodeScanner.cs:93-104), and `Lazy` keeps a faulted import
  task, so a failed import is never retried (BarcodeJsInterop.cs:14-19); the
  model does both.
