# Banshee IBL filtering and script-resource registry, modelled in Dafny

This project models two pieces of the Banshee engine's own logic.

**Script resource registry** (`ScriptResourceManager`). The scripting layer keeps one script wrapper per native resource that has been exposed to managed code, keyed by the resource's UUID. The class `ScriptResources.ScriptResourceManager` holds that table as a `map<string, ScriptResource>` field, updated in place:
- creating a managed or builtin wrapper (debug builds reject an empty or already-registered UUID);
- looking a wrapper up by UUID, or by resource with optional creation;
- destroying a wrapper explicitly;
- dropping it when the engine reports that the native resource was destroyed.

The debug-build switch is the constant field `debugChecks`. The object invariant `Valid()` says two things:
- every entry is filed under the UUID of the resource it wraps;
- with the checks on, no entry is filed under the empty UUID.

**Image-based-lighting filtering** (`IBLUtility`). This prepares environment cube maps for lighting:
- a box-filtered scratch mip chain, then importance sampling into each mip level (specular);
- spherical-harmonic projection, reduction and reconstruction (irradiance);
- rescaling between cube-map sizes.

The GPU is opaque. A `Gpu.Device` records the textures and buffers it creates, and appends every copy, draw or dispatch to a trace of `Pass` values. A pass says which face and mip level it reads and writes. The modules are:
- `IBLSchedule` states each operation's pass schedule as a function and proves its properties:
  - every downsample reads a level already written;
  - each (mip, face) is importance-sampled exactly once, after all box filtering;
  - the scale chain ends one level above the destination size;
  - the reduce pass consumes exactly the coefficient sets the compute passes produce.
- `IBLUtility` holds the loops themselves, as methods proved to append exactly those schedules.
- `IBLMath` holds the integer arithmetic: dispatch sizes, buffer sizes, powers of two and their logarithms.

A texture has `numMips + 1` levels, as in the engine: `numMips` counts the levels below the base. `filterCubemapForSpecular` runs its loops for `1 <= mip < numMips`, so the smallest level `numMips` of the cube map is neither box-filtered nor importance-sampled. `IBLSchedule.SpecularWritten` states this as the code does it. `scaleCubemap` compares the base widths of the two textures and ignores `srcMip` and `dstMip`; the model does the same.

## Model

| member | source | states |
|---|---|---|
| `ScriptResources.ScriptResourceManager.constructor` | Source/SBansheeEngine/Source/BsScriptResourceManager.cpp:17-20 | a new registry has an empty table and satisfies the invariant |
| `ScriptResources.ScriptResourceManager.ThrowExceptionIfInvalidOrDuplicate` | Source/SBansheeEngine/Source/BsScriptResourceManager.cpp:110-121 | InvalidParametersException exactly for the empty UUID, InvalidStateException exactly for a registered non-empty UUID, no exception otherwise |
| `ScriptResources.ScriptResourceManager.CreateManagedScriptResource` | Source/SBansheeEngine/Source/BsScriptResourceManager.cpp:27-38 | with checks on, an empty UUID fails with InvalidParametersException and a registered one with InvalidStateException, table unchanged; on success the table maps the UUID to the returned wrapper of that resource and instance and every other entry is unchanged; invariant kept |
| `ScriptResources.ScriptResourceManager.CreateBuiltinScriptResource` | Source/SBansheeEngine/Source/BsScriptResourceManager.cpp:40-57 | same checks and failures; with no builtin info for the RTTI id returns null and leaves the table unchanged; otherwise inserts the callback's wrapper under the UUID and returns it |
| `ScriptResources.ScriptResourceManager.GetScriptResourceByUuid` | Source/SBansheeEngine/Source/BsScriptResourceManager.cpp:74-84 | null for the empty UUID and for unknown UUIDs, otherwise the mapped wrapper, which wraps that UUID's resource; reads only |
| `ScriptResources.ScriptResourceManager.GetScriptResource` | Source/SBansheeEngine/Source/BsScriptResourceManager.cpp:59-72 | null and no change for an empty UUID; an existing entry is returned without creating; creates (and never raises) only when the entry is missing and `create` is set, and only if builtin info exists |
| `ScriptResources.ScriptResourceManager.DestroyScriptResource` | Source/SBansheeEngine/Source/BsScriptResourceManager.cpp:86-98 | raises InvalidParametersException exactly for an empty UUID, table unchanged; otherwise removes exactly that UUID's entry and keeps all others |
| `ScriptResources.ScriptResourceManager.OnResourceDestroyed` | Source/SBansheeEngine/Source/BsScriptResourceManager.cpp:100-108 | if the UUID is registered its wrapper is notified and its entry removed; otherwise nothing changes |
| `ScriptResources.OnResourceDestroyedTwice` | Source/SBansheeEngine/Source/BsScriptResourceManager.cpp:100-108 | delivering the same destruction notice twice has the effect of delivering it once |
| `IBLMath.DivideAndRoundUp` | Source/BansheeEngine/Source/BsIBLUtility.cpp:143-144 | the result's blocks cover n and the last block is not spare: r*d >= n > (r-1)*d |
| `IBLMath.DispatchSize` | Source/BansheeEngine/Source/BsIBLUtility.cpp:106-108 | per axis, dispatch*32 (tile 8 times 4 pixels per thread) covers the face with no spare tile row |
| `IBLMath.CoeffSetsCoverCube` | Source/BansheeEngine/Source/BsIBLUtility.cpp:167-171 | the coefficient sets' thread groups span at least every pixel of the six faces |
| `IBLMath.CoeffSetCountFitsUint32` | Source/BansheeEngine/Source/BsIBLUtility.cpp:171 | for faces up to 65536 pixels the count dx*dy*6 fits the 32-bit counter |
| `IBLMath.Log2Floor` | Source/BansheeEngine/Source/BsIBLUtility.cpp:382-383 | the truncated log2 of a width: 2^r <= n < 2^(r+1) |
| `IBLMath.Log2FloorOfPow2` | Source/BansheeEngine/Source/BsIBLUtility.cpp:382-383 | on a power-of-two width the log2 is exact |
| `IBLMath.MipWidthOfPow2` | Source/BansheeEngine/Source/BsIBLUtility.cpp:391-399 | level m of a 2^k-wide texture is 2^(k-m) wide |
| `IBLSchedule.ImportanceSamplePass` | Source/BansheeEngine/Source/BsIBLUtility.cpp:80-86 | the shader's mip count admits exactly the source's levels: level m exists iff m < count (count = numMips + 1) |
| `IBLSchedule.ComputeSHPass` | Source/BansheeEngine/Source/BsIBLUtility.cpp:136-157 | requires a square face; the dispatch covers the face on both axes with no spare tile row |
| `IBLSchedule.DownsampleCubemapShape` | Source/BansheeEngine/Source/BsIBLUtility.cpp:421-436 | exactly six passes; pass f writes face f of dst at dstMip and reads all six faces of src at srcMip |
| `IBLSchedule.MipChainShape` | Source/BansheeEngine/Source/BsIBLUtility.cpp:314-319 | pass k of the chain renders face k mod 6 of level k/6 + 1 from level k/6: levels are filled in increasing order |
| `IBLSchedule.MipChainWritten` | Source/BansheeEngine/Source/BsIBLUtility.cpp:314-319 | a chain of n steps writes exactly the six faces of levels 1..n |
| `IBLSchedule.MipChainReady` | Source/BansheeEngine/Source/BsIBLUtility.cpp:314-319 | once level 0 is present, every downsample reads a level already written |
| `IBLSchedule.ImportanceLevelsShape` | Source/BansheeEngine/Source/BsIBLUtility.cpp:321-336 | pass k importance-samples face k mod 6 of level k/6 + 1, mip by mip and face by face |
| `IBLSchedule.ImportanceLevelsWritten` | Source/BansheeEngine/Source/BsIBLUtility.cpp:321-336 | the importance passes write exactly the six faces of levels 1..n of the target |
| `IBLSchedule.ImportanceLevelsCount` | Source/BansheeEngine/Source/BsIBLUtility.cpp:321-336 | each face of each level 1..n is importance-sampled exactly once, and no other surface is |
| `IBLSchedule.SpecularReadsReady` | Source/BansheeEngine/Source/BsIBLUtility.cpp:310-319 | starting from level 0 of the cube map, every copy and downsample reads a surface already written |
| `IBLSchedule.SpecularPrefilterWritten` | Source/BansheeEngine/Source/BsIBLUtility.cpp:310-319 | before importance sampling, every face of scratch levels 0..max(numMips-1, 0) is written, and nothing else (level 0 is always copied) |
| `IBLSchedule.SpecularSamplesUnfilteredLevels` | Source/BansheeEngine/Source/BsIBLUtility.cpp:86 | when numMips >= 1, every importance pass tells the shader the scratch has scratch.numMips + 1 levels, yet no scratch level numMips or above is written by the box-filter phase |
| `IBLSchedule.SpecularWritten` | Source/BansheeEngine/Source/BsIBLUtility.cpp:310-336 | the schedule writes exactly scratch levels 0..max(numMips-1, 0) and cube-map levels 1..numMips-1; with a distinct scratch, cube-map level 0 and level numMips are never written |
| `IBLSchedule.SpecularImportanceOnce` | Source/BansheeEngine/Source/BsIBLUtility.cpp:321-336 | each (face < 6, 1 <= mip < numMips) of the cube map is importance-sampled exactly once; nothing else is |
| `IBLSchedule.SpecularOrder` | Source/BansheeEngine/Source/BsIBLUtility.cpp:310-339 | first the six level-0 copies, every importance pass after every copy and downsample, the render target unbound last; 6(1 + 2n) + 1 passes with n = max(numMips - 1, 0) |
| `IBLSchedule.ScaleChainEndsAboveDestination` | Source/BansheeEngine/Source/BsIBLUtility.cpp:382-408 | when shrinking by more than a level, the chain's last level is 2^(dstLog2+1) wide, one level above the destination size |
| `IBLSchedule.ScaleWritten` | Source/BansheeEngine/Source/BsIBLUtility.cpp:389-418 | writes all six faces of dst at dstMip, plus (when shrinking by more than a level) every face of every level the scratch has, and nothing else |
| `IBLSchedule.ScaleReadsReady` | Source/BansheeEngine/Source/BsIBLUtility.cpp:389-418 | starting from source level srcMip, every copy and downsample reads a surface already written |
| `IBLSchedule.ScalePassCount` | Source/BansheeEngine/Source/BsIBLUtility.cpp:389-418 | 6*diff passes when shrinking by diff > 1 levels, six passes (copy or single downsample) otherwise |
| `IBLSchedule.ComputeGroupsMatchCoeffSets` | Source/BansheeEngine/Source/BsIBLUtility.cpp:161-171 | the six compute passes dispatch exactly as many thread groups as the buffer has coefficient sets |
| `IBLSchedule.IrradianceSchedule` | Source/BansheeEngine/Source/BsIBLUtility.cpp:342-363 | six SH compute passes into one buffer, one reduce of exactly their sets into entry 0 of a second buffer, six projections writing face f at mip 0; nothing else written |
| `IBLSchedule.IrradianceToBufferSchedule` | Source/BansheeEngine/Source/BsIBLUtility.cpp:365-374 | six order-3 compute passes, then one reduce of exactly their sets into `output` at `outputIdx`; no texture written |
| `IBLUtility.CreateCoeffSetBuffer` | Source/BansheeEngine/Source/BsIBLUtility.cpp:160-185 | the returned set count is dx*dy*6 and equals the new buffer's element count; element layout follows ORDER |
| `IBLUtility.CreateReducedBuffer` | Source/BansheeEngine/Source/BsIBLUtility.cpp:227-242 | a new buffer of `numEntries` elements whose layout follows ORDER |
| `IBLUtility.DownsampleCubemap` | Source/BansheeEngine/Source/BsIBLUtility.cpp:421-436 | appends exactly the six-pass downsample schedule |
| `IBLUtility.FilterCubemapForSpecular` | Source/BansheeEngine/Source/BsIBLUtility.cpp:281-340 | creates a scratch cube map (distinct from the input) only when none is given, and appends exactly the specular schedule |
| `IBLUtility.ImportanceSampleLevels` | Source/BansheeEngine/Source/BsIBLUtility.cpp:321-336 | appends the importance passes for levels 1..numMips-1, level by level |
| `IBLUtility.FilterCubemapForIrradiance` | Source/BansheeEngine/Source/BsIBLUtility.cpp:342-363 | creates the coefficient-set and one-entry buffers and appends exactly the irradiance schedule |
| `IBLUtility.FilterCubemapForIrradianceToBuffer` | Source/BansheeEngine/Source/BsIBLUtility.cpp:365-374 | creates the coefficient-set buffer, with an id distinct from `output`, and appends exactly the compute-and-reduce schedule |
| `IBLUtility.ScaleCubemap` | Source/BansheeEngine/Source/BsIBLUtility.cpp:376-419 | creates the scratch chain only when shrinking by more than a level, with an id distinct from both src and dst, and appends exactly the scale schedule |

## Left out

- Mono runtime: managed objects are opaque `MonoObject` values. Nothing about the runtime is modelled.
- `ScriptResources.ScriptResourceManager.DestroyScriptResource`: does not model running the wrapper's destructor or freeing its memory (lines 94-95). Wrappers are values, not objects, so two wrappers of the same resource and instance are indistinguishable.
- The signal connection and disconnection in the registry's constructor and destructor are left out. `OnResourceDestroyed` is called directly.
- `ScriptAssemblyManager::getBuiltinResourceInfo` and the builtin `createCallback` are not part of this model. They are a parameter mapping RTTI ids to builtin info, and the callback is taken to wrap the resource it is given.
- The `BS_DEBUG_MODE` preprocessor switch is the constant field `debugChecks`.
- GPU work is not modelled: the render API, shaders, pixel data, render-texture views, parameter blocks, material constructors, `_initDefines`, and `startUp`/`shutDown`. Each pass is only a trace entry.
- The float `mipFactor` (line 93) and `NUM_SAMPLES` are left out: floating point.
- The float `log2`/`exp2` of `scaleCubemap` are replaced by an integer floor-log2 and powers of two. These agree for power-of-two widths below 2^24. Non-power-of-two widths where the float `log2` rounds up are not modelled.
- `PixelUtil::getMaxMipmaps` is not part of this model. `FilterCubemapForSpecular` takes its result as the parameter `maxMips`.
- Texture formats, usage flags and the constant buffer settings are not modelled (structured, unknown format, GPU-writable).
- The cube-map size constants `REFLECTION_CUBEMAP_SIZE` and `IRRADIANCE_CUBEMAP_SIZE` are left out: nothing in these operations uses them.
- `IBLMath.DivideAndRoundUp`: does not model a 32-bit overflow of `n + d - 1` for `n` within `d` of 2^32. Widths are unbounded integers.
- The square-face `assert` of the SH materials (lines 140, 165) is a debug assertion in the engine. Here it is a precondition.
- `Gpu.SurfaceReads`: records only the surfaces that a copy or a downsample names. Importance-sample and SH passes bind whole textures or buffers. What importance sampling can read is stated separately by `IBLSchedule.SpecularPrefilterWritten`.
- Whether a caller-supplied scratch cube map has enough levels is not checked by the engine, and is not modelled.
