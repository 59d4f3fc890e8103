/**
 * The scripting-side registry of engine resources: every native resource that has
 * been exposed to managed scripts has one script wrapper, found by the resource's UUID.
 *
 * Wrappers, managed instances and the builtin-type table are opaque values here;
 * what is modelled is the table itself and how each operation changes it.
 */
module ScriptResources {
  import opened Wrappers

  /** The two exceptions the registry raises. */
  datatype Exception = InvalidParametersException | InvalidStateException

  /** A handle to a native resource: its UUID (possibly empty) and the RTTI id of its type. */
  datatype ResourceHandle = ResourceHandle(uuid: string, rttiId: nat)

  /** An opaque managed-runtime object. */
  datatype MonoObject = MonoObject(address: nat)

  /** What the assembly manager knows about a builtin resource type: the wrapper type its callback builds. */
  datatype BuiltinResourceInfo = BuiltinResourceInfo(wrapperType: string)

  datatype WrapperKind = ManagedWrapper | BuiltinWrapper(info: BuiltinResourceInfo)

  /** A script wrapper: which kind of wrapper, the resource it wraps and its managed instance. */
  datatype ScriptResource = ScriptResource(kind: WrapperKind, resource: ResourceHandle, instance: Option<MonoObject>)

  class ScriptResourceManager {
    /** Whether the debug-build checks for an empty or duplicate UUID are compiled in. */
    const debugChecks: bool
    /** UUID -> script wrapper of that resource. */
    var scriptResources: map<string, ScriptResource>
    /** Wrappers that have been told, in order, that their native resource was destroyed. */
    var notified: seq<ScriptResource>

    /**
     * Every entry is filed under the UUID of the resource it wraps, and with the
     * checks enabled no entry is filed under the empty UUID.
     */
    ghost predicate Valid()
      reads this
    {
      && (forall uuid | uuid in scriptResources :: scriptResources[uuid].resource.uuid == uuid)
      && (debugChecks ==> "" !in scriptResources)
    }

    constructor (debugChecks: bool)
      ensures Valid()
      ensures this.debugChecks == debugChecks
      ensures scriptResources == map[] && notified == []
    {
      this.debugChecks := debugChecks;
      scriptResources := map[];
      notified := [];
    }

    /** The exception a create raises for `uuid`, if any: empty UUIDs are invalid, known UUIDs are duplicates. */
    method ThrowExceptionIfInvalidOrDuplicate(uuid: string) returns (thrown: Option<Exception>)
      ensures thrown == Some(InvalidParametersException) <==> uuid == ""
      ensures thrown == Some(InvalidStateException) <==> uuid != "" && uuid in scriptResources
      ensures thrown == None <==> uuid != "" && uuid !in scriptResources
    {
      if uuid == "" {
        return Some(InvalidParametersException);
      }
      if uuid in scriptResources {
        return Some(InvalidStateException);
      }
      return None;
    }

    /** Wraps a managed (script-defined) resource and files the wrapper under the resource's UUID. */
    method CreateManagedScriptResource(resource: ResourceHandle, instance: MonoObject)
      returns (r: Result<ScriptResource, Exception>)
      requires Valid()
      modifies this
      ensures Valid()
      ensures notified == old(notified)
      ensures debugChecks && resource.uuid == "" ==> r == Failure(InvalidParametersException)
      ensures debugChecks && resource.uuid != "" && resource.uuid in old(scriptResources) ==>
                r == Failure(InvalidStateException)
      ensures r.Success? <==> !debugChecks || (resource.uuid != "" && resource.uuid !in old(scriptResources))
      ensures r.Failure? ==> scriptResources == old(scriptResources)
      ensures r.Success? ==> && r.value == ScriptResource(ManagedWrapper, resource, Some(instance))
                             && scriptResources == old(scriptResources)[resource.uuid := r.value]
    {
      var uuid := resource.uuid;
      if debugChecks {
        var thrown := ThrowExceptionIfInvalidOrDuplicate(uuid);
        if thrown.Some? {
          return Failure(thrown.value);
        }
      }
      var scriptResource := ScriptResource(ManagedWrapper, resource, Some(instance));
      scriptResources := scriptResources[uuid := scriptResource];
      return Success(scriptResource);
    }

    /**
     * Wraps a builtin resource using the callback registered for its RTTI id.
     * Without a registration nothing is created and the result is null.
     */
    method CreateBuiltinScriptResource(resource: ResourceHandle, instance: Option<MonoObject>,
                                       builtinInfo: map<nat, BuiltinResourceInfo>)
      returns (r: Result<Option<ScriptResource>, Exception>)
      requires Valid()
      modifies this
      ensures Valid()
      ensures notified == old(notified)
      ensures debugChecks && resource.uuid == "" ==> r == Failure(InvalidParametersException)
      ensures debugChecks && resource.uuid != "" && resource.uuid in old(scriptResources) ==>
                r == Failure(InvalidStateException)
      ensures r.Success? <==> !debugChecks || (resource.uuid != "" && resource.uuid !in old(scriptResources))
      ensures r.Success? && resource.rttiId !in builtinInfo ==> r.value == None
      ensures r.Success? && resource.rttiId in builtinInfo ==>
                r.value == Some(ScriptResource(BuiltinWrapper(builtinInfo[resource.rttiId]), resource, instance))
      ensures r.Success? && r.value.Some? ==> scriptResources == old(scriptResources)[resource.uuid := r.value.value]
      ensures r.Failure? || r.value.None? ==> scriptResources == old(scriptResources)
    {
      var uuid := resource.uuid;
      if debugChecks {
        var thrown := ThrowExceptionIfInvalidOrDuplicate(uuid);
        if thrown.Some? {
          return Failure(thrown.value);
        }
      }
      if resource.rttiId !in builtinInfo {
        return Success(None);
      }
      var scriptResource := ScriptResource(BuiltinWrapper(builtinInfo[resource.rttiId]), resource, instance);
      scriptResources := scriptResources[uuid := scriptResource];
      return Success(Some(scriptResource));
    }

    /** Looks a wrapper up by UUID; the empty UUID and unknown UUIDs give null. */
    method GetScriptResourceByUuid(uuid: string) returns (r: Option<ScriptResource>)
      requires Valid()
      ensures r.Some? <==> uuid != "" && uuid in scriptResources
      ensures r.Some? ==> r.value == scriptResources[uuid] && r.value.resource.uuid == uuid
    {
      if uuid == "" {
        return None;
      }
      if uuid in scriptResources {
        return Some(scriptResources[uuid]);
      }
      return None;
    }

    /**
     * Looks up the wrapper of `resource`; when there is none and `create` is set,
     * creates a builtin wrapper for it (with no managed instance supplied).
     * This path never raises: the create only runs for a non-empty, unknown UUID.
     */
    method GetScriptResource(resource: ResourceHandle, create: bool, builtinInfo: map<nat, BuiltinResourceInfo>)
      returns (r: Option<ScriptResource>)
      requires Valid()
      modifies this
      ensures Valid()
      ensures notified == old(notified)
      ensures resource.uuid == "" ==> r == None && scriptResources == old(scriptResources)
      ensures resource.uuid != "" && resource.uuid in old(scriptResources) ==>
                r == Some(old(scriptResources)[resource.uuid]) && scriptResources == old(scriptResources)
      ensures resource.uuid != "" && resource.uuid !in old(scriptResources) && (!create || resource.rttiId !in builtinInfo) ==>
                r == None && scriptResources == old(scriptResources)
      ensures resource.uuid != "" && resource.uuid !in old(scriptResources) && create && resource.rttiId in builtinInfo ==>
                && r == Some(ScriptResource(BuiltinWrapper(builtinInfo[resource.rttiId]), resource, None))
                    && scriptResources == old(scriptResources)[resource.uuid := r.value]
    {
      var uuid := resource.uuid;
      if uuid == "" {
        return None;
      }
      var output := GetScriptResourceByUuid(uuid);
      if output.None? && create {
        var created := CreateBuiltinScriptResource(resource, None, builtinInfo);
        return created.value;
      }
      return output;
    }

    /** Destroys a wrapper and removes the entry filed under its resource's UUID, which must not be empty. */
    method DestroyScriptResource(scriptResource: ScriptResource) returns (thrown: Option<Exception>)
      requires Valid()
      modifies this
      ensures Valid()
      ensures notified == old(notified)
      ensures thrown.Some? <==> scriptResource.resource.uuid == ""
      ensures thrown.Some? ==> thrown.value == InvalidParametersException && scriptResources == old(scriptResources)
      ensures thrown.None? ==> scriptResources == old(scriptResources) - {scriptResource.resource.uuid}
    {
      var uuid := scriptResource.resource.uuid;
      if uuid == "" {
        return Some(InvalidParametersException);
      }
      scriptResources := scriptResources - {uuid};
      return None;
    }

    /** Called when the native resource `uuid` is destroyed: notifies and drops its wrapper, if there is one. */
    method OnResourceDestroyed(uuid: string)
      requires Valid()
      modifies this
      ensures Valid()
      ensures scriptResources == old(scriptResources) - {uuid}
      ensures uuid in old(scriptResources) ==> notified == old(notified) + [old(scriptResources)[uuid]]
      ensures uuid !in old(scriptResources) ==> notified == old(notified)
    {
      if uuid in scriptResources {
        notified := notified + [scriptResources[uuid]];
        scriptResources := scriptResources - {uuid};
      }
    }
  }

  /** Delivering the same destruction notice twice has the effect of delivering it once. */
  method OnResourceDestroyedTwice(manager: ScriptResourceManager, uuid: string)
    requires manager.Valid()
    modifies manager
    ensures manager.Valid()
    ensures manager.scriptResources == old(manager.scriptResources) - {uuid}
    ensures manager.notified == old(manager.notified)
              + (if uuid in old(manager.scriptResources) then [old(manager.scriptResources)[uuid]] else [])
  {
    manager.OnResourceDestroyed(uuid);
    manager.OnResourceDestroyed(uuid);
  }
}
