/**
 * The broker's hardware catalog (HARDWARE_SPECS in server.js) and the
 * capability subset an application is told about when it pairs.
 */
module Catalog {
  import opened Wrappers

  datatype Capabilities = Capabilities(
    textDisplay: bool,
    imageDisplay: bool,
    camera: bool,
    microphone: bool,
    speaker: bool)

  datatype Spec = Spec(name: string, capabilities: Capabilities)

  /** What the `connected` event reports: the display-relevant subset only. */
  datatype SdkCaps = SdkCaps(camera: bool, display: bool)

  const HardwareSpecs: map<string, Spec> := map[
    "demo-all" := Spec("Demo Glasses (All Features)", Capabilities(true, true, true, true, true)),
    "even-g1" := Spec("Even Realities G1", Capabilities(true, true, false, true, true)),
    "mentra-live" := Spec("Mentra Live", Capabilities(false, false, true, true, true)),
    "mentra-mach1" := Spec("Mentra Mach 1", Capabilities(true, false, false, false, false)),
    "vuzix-z100" := Spec("Vuzix Z100", Capabilities(true, false, false, false, false))
  ]

  /** The entry used when the selected model is not in the catalog. */
  const FallbackModel: string := "even-g1"

  /**
   * Property names every plain JavaScript object inherits from
   * Object.prototype; `HARDWARE_SPECS[name]` yields a truthy non-spec value
   * for each of them.
   */
  const InheritedNames: set<string> := {
    "constructor", "__proto__", "hasOwnProperty", "isPrototypeOf",
    "propertyIsEnumerable", "toString", "valueOf", "toLocaleString",
    "__defineGetter__", "__defineSetter__", "__lookupGetter__", "__lookupSetter__"
  }

  lemma CatalogKeysAreOwn()
    ensures HardwareSpecs.Keys !! InheritedNames
    ensures FallbackModel in HardwareSpecs
  {
  }

  /**
   * `HARDWARE_SPECS[model] || HARDWARE_SPECS['even-g1']` followed by the read
   * of `.capabilities`, as written: None stands for the TypeError that read
   * throws when the lookup hit an inherited property instead of an entry.
   */
  function ModelSpecAsWritten(model: string): (r: Option<Spec>)
    ensures r.None? <==> model in InheritedNames
    ensures r.Some? ==> r.value in HardwareSpecs.Values
    ensures model in HardwareSpecs ==> r == Some(HardwareSpecs[model])
  {
    CatalogKeysAreOwn();
    if model in HardwareSpecs then Some(HardwareSpecs[model])
    else if model in InheritedNames then None
    else Some(HardwareSpecs[FallbackModel])
  }

  /** An inherited name such as "constructor" defeats the fallback. */
  lemma InheritedNameDefeatsFallback()
    ensures "constructor" !in HardwareSpecs
    ensures ModelSpecAsWritten("constructor") == None
  {
  }

  /**
   * The lookup with its evident intent: a catalog entry for a known model and
   * the even-g1 entry for every other name. It agrees with the lookup as
   * written wherever that one does not throw.
   */
  function SpecFor(model: string): (spec: Spec)
    ensures spec in HardwareSpecs.Values
    ensures ModelSpecAsWritten(model).Some? ==> spec == ModelSpecAsWritten(model).value
    ensures model !in HardwareSpecs ==> spec == HardwareSpecs[FallbackModel]
  {
    CatalogKeysAreOwn();
    if model in HardwareSpecs then HardwareSpecs[model] else HardwareSpecs[FallbackModel]
  }

  /** camera as is, display = textDisplay || imageDisplay. */
  function Project(c: Capabilities): (r: SdkCaps)
    ensures r.camera == c.camera
    ensures r.display <==> c.textDisplay || c.imageDisplay
  {
    SdkCaps(c.camera, c.textDisplay || c.imageDisplay)
  }

  /** The capabilities reported to an application for the selected model. */
  function CapabilitiesFor(model: string): SdkCaps {
    Project(SpecFor(model).capabilities)
  }

  /**
   * What an application is told, for every model name: only "demo-all" and
   * "mentra-live" report a camera, and every model except "mentra-live"
   * reports a display (unknown names get the even-g1 answer).
   */
  lemma ReportedCapabilities(model: string)
    ensures CapabilitiesFor(model).camera <==> (model == "demo-all" || model == "mentra-live")
    ensures CapabilitiesFor(model).display <==> model != "mentra-live"
    ensures model !in HardwareSpecs ==> CapabilitiesFor(model) == SdkCaps(false, true)
  {
  }
}
