/**
 * `BarcodeJsInterop`: the lazily imported far-side module. The import is
 * started on the first access to the lazy value, by `InitializeAsync` or
 * `GetVersion`, and its task is kept: later accesses await the same task and
 * never import again, also when that task failed. Disposal touches the module
 * only when the lazy value was created.
 */
module JsInterop {
  import opened Interop

  /** The script the far side imports as the module. */
  const ModulePath: string := "./_content/RazorBarcodeLibrary/barcodeJsInterop.js"

  /** The far-side calls the bridge issues. */
  datatype InteropCall =
    | InvokeImport(path: string)
    | InvokeInit(target: JsObject)
    | InvokeGetVersion(target: JsObject)
    | DisposeModule(target: JsObject)

  class BarcodeJsInterop {
    /**
     * The lazy value: `None` until first accessed, then the outcome of the one
     * import, kept for good.
     */
    var moduleTask: Option<Reply<JsObject>>

    /** Far-side calls issued so far, oldest first. */
    var farCalls: seq<InteropCall>

    /**
     * Nothing is called before the lazy value exists; the import is the first
     * call and is never repeated, and every later call goes to the module it
     * produced.
     */
    ghost predicate Valid()
      reads this
    {
      && (moduleTask.None? <==> farCalls == [])
      && (farCalls != [] ==> farCalls[0] == InvokeImport(ModulePath))
      && forall i :: 0 < i < |farCalls| ==>
           !farCalls[i].InvokeImport? && moduleTask == Some(Returned(farCalls[i].target))
    }

    /** Construction only records how to import; nothing is called yet. */
    constructor ()
      ensures Valid() && moduleTask == None && farCalls == []
    {
      moduleTask := None;
      farCalls := [];
    }

    /** `moduleTask.Value`: starts the import on first access, then returns the kept outcome. */
    method ModuleValue(importReply: Reply<JsObject>) returns (loaded: Reply<JsObject>)
      requires Valid()
      modifies this
      ensures Valid()
      ensures old(moduleTask).Some? ==> loaded == old(moduleTask).value && unchanged(this)
      ensures old(moduleTask).None? ==>
        loaded == importReply && farCalls == old(farCalls) + [InvokeImport(ModulePath)]
      ensures moduleTask == Some(loaded)
    {
      if moduleTask.None? {
        moduleTask := Some(importReply);
        farCalls := farCalls + [InvokeImport(ModulePath)];
      }
      loaded := moduleTask.value;
    }

    /** Obtains the module, importing it on first use, and calls `init` on it. */
    method InitializeAsync(importReply: Reply<JsObject>, initReply: Reply<()>) returns (r: Result<()>)
      requires Valid()
      modifies this
      ensures Valid()
      ensures moduleTask == if old(moduleTask).None? then Some(importReply) else old(moduleTask)
      ensures farCalls == old(farCalls)
        + (if old(moduleTask).None? then [InvokeImport(ModulePath)] else [])
        + (if moduleTask.value.Returned? then [InvokeInit(moduleTask.value.value)] else [])
      ensures r.Ok? <==> moduleTask.value.Returned? && initReply.Returned?
      ensures r.Fault? ==> r.error == FarSideFailure
    {
      var loaded := ModuleValue(importReply);
      if loaded.Threw? {
        return Fault(FarSideFailure);
      }
      farCalls := farCalls + [InvokeInit(loaded.value)];
      r := if initReply.Returned? then Ok(()) else Fault(FarSideFailure);
    }

    /** Obtains the module, importing it on first use, and asks it for the engine version. */
    method GetVersion(importReply: Reply<JsObject>, versionReply: Reply<string>) returns (r: Result<string>)
      requires Valid()
      modifies this
      ensures Valid()
      ensures moduleTask == if old(moduleTask).None? then Some(importReply) else old(moduleTask)
      ensures farCalls == old(farCalls)
        + (if old(moduleTask).None? then [InvokeImport(ModulePath)] else [])
        + (if moduleTask.value.Returned? then [InvokeGetVersion(moduleTask.value.value)] else [])
      ensures r.Ok? <==> moduleTask.value.Returned? && versionReply.Returned?
      ensures r.Ok? ==> r.value == versionReply.value
      ensures r.Fault? ==> r.error == FarSideFailure
    {
      var loaded := ModuleValue(importReply);
      if loaded.Threw? {
        return Fault(FarSideFailure);
      }
      farCalls := farCalls + [InvokeGetVersion(loaded.value)];
      r := if versionReply.Returned? then Ok(versionReply.value) else Fault(FarSideFailure);
    }

    /**
     * Disposes the module if the lazy value was created: a no-op when it never
     * was, a rethrow of the import's exception when the import failed.
     */
    method DisposeAsync(disposeReply: Reply<()>) returns (r: Result<()>)
      requires Valid()
      modifies this
      ensures Valid() && moduleTask == old(moduleTask)
      ensures moduleTask.None? ==> r == Ok(()) && farCalls == old(farCalls)
      ensures moduleTask == Some(Threw) ==> r == Fault(FarSideFailure) && farCalls == old(farCalls)
      ensures moduleTask.Some? && moduleTask.value.Returned? ==>
        && farCalls == old(farCalls) + [DisposeModule(moduleTask.value.value)]
        && r == if disposeReply.Returned? then Ok(()) else Fault(FarSideFailure)
    {
      r := Ok(());
      if moduleTask.Some? {
        var loaded := moduleTask.value;
        if loaded.Threw? {
          return Fault(FarSideFailure);
        }
        farCalls := farCalls + [DisposeModule(loaded.value)];
        r := if disposeReply.Returned? then Ok(()) else Fault(FarSideFailure);
      }
    }
  }

  /**
   * Two uses of one bridge import once: the second reuses the module the first
   * imported, whatever import outcome it is offered.
   */
  method ImportsOnce(bridge: BarcodeJsInterop, imported: JsObject, otherImport: Reply<JsObject>,
                     version: string)
    returns (reported: Result<string>)
    requires bridge.Valid() && bridge.moduleTask == None
    modifies bridge
    ensures bridge.Valid() && bridge.moduleTask == Some(Returned(imported))
    ensures bridge.farCalls == [InvokeImport(ModulePath), InvokeInit(imported), InvokeGetVersion(imported)]
    ensures reported == Ok(version)
  {
    var _ := bridge.InitializeAsync(Returned(imported), Returned(()));
    reported := bridge.GetVersion(otherImport, Returned(version));
  }
}
