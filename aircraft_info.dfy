/** Variant selection of the aircraft information panel (`QmlAircraftInfo`). An
    on-disk aircraft is a primary item with a list of variant items; the panel numbers
    its variants with the primary item as 0, so panel variant v > 0 is the item's
    variant v - 1, while the cache numbers the variants from 0 without the primary. */
module AircraftInfo {
  import opened AircraftStates

  /** An on-disk aircraft as the local cache describes it. */
  datatype AircraftItem = AircraftItem(path: string, variants: seq<AircraftItem>)

  /** A catalogue package, reduced to its variant identifiers (the primary included). */
  datatype PackageInfo = PackageInfo(variantIds: seq<string>)

  /** `resolveItem` for an on-disk aircraft with panel variant `variant`; `None` is the
      `std::out_of_range` that `variants.at` throws past the last variant. */
  function ResolveVariant(item: AircraftItem, variant: int): (r: Option<AircraftItem>)
    ensures variant <= 0 ==> r == Some(item)
    ensures 0 < variant <= |item.variants| ==> r == Some(item.variants[variant - 1])
    ensures r.None? <==> variant > |item.variants|
  {
    if variant > 0 then
      if variant - 1 < |item.variants| then Some(item.variants[variant - 1]) else None
    else Some(item)
  }

  /** The offset `setUri` applies to the cache's variant index (-1 when the URI names
      the primary item). */
  function PanelVariantOfCacheIndex(vindex: int): (v: int)
    ensures v >= 0
    ensures vindex >= -1 ==> v == vindex + 1
  {
    if vindex >= 0 then vindex + 1 else 0
  }

  /** The two numbering schemes agree: selecting a variant by its cache index and
      resolving it gives back that very variant, or the primary item for -1. */
  lemma CacheIndexRoundTrip(item: AircraftItem, vindex: int)
    requires -1 <= vindex < |item.variants|
    ensures 0 <= PanelVariantOfCacheIndex(vindex) < |item.variants| + 1
    ensures vindex >= 0 ==> ResolveVariant(item, PanelVariantOfCacheIndex(vindex)) == Some(item.variants[vindex])
    ensures vindex == -1 ==> ResolveVariant(item, PanelVariantOfCacheIndex(vindex)) == Some(item)
  {
  }

  /** Every panel variant below `numVariants` resolves, and the resolved items are
      pairwise the ones at distinct positions: variant 0 the primary, v > 0 the v-th
      variant. */
  lemma InRangeVariantsResolve(item: AircraftItem, v: int)
    requires 0 <= v < |item.variants| + 1
    ensures ResolveVariant(item, v).Some?
    ensures v == 0 ==> ResolveVariant(item, v).value == item
    ensures v > 0 ==> ResolveVariant(item, v).value == item.variants[v - 1]
  {
  }

  class QmlAircraftInfo {
    var item: Option<AircraftItem>
    var package: Option<PackageInfo>
    var variant: int
    var statesModel: StatesModel?

    /** A selected on-disk aircraft always has a variant that `numVariants` admits. */
    ghost predicate Valid()
      reads this
    {
      item.Some? ==> 0 <= variant < NumVariants()
    }

    constructor ()
      ensures item == None && package == None && variant == 0 && statesModel == null
      ensures Valid()
    {
      item := None;
      package := None;
      variant := 0;
      statesModel := null;
    }

    /** On disk the primary item is not among `variants`, so it is added; a package
        counts its primary; with neither there are none. */
    function NumVariants(): (n: int)
      reads this
      ensures n >= 0
      ensures item.Some? ==>
        && (forall v :: 0 <= v < n ==> ResolveVariant(item.value, v).Some?)
        && ResolveVariant(item.value, n).None?
      ensures item.None? && package.Some? ==> n == |package.value.variantIds|
      ensures item.None? && package.None? ==> n == 0
    {
      if item.Some? then |item.value.variants| + 1
      else if package.Some? then |package.value.variantIds|
      else 0
    }

    /** Only called with an on-disk aircraft selected. */
    function ResolveItem(): (r: Option<AircraftItem>)
      reads this
      requires item.Some?
      ensures Valid() ==> r.Some?
      ensures variant <= 0 ==> r == item
    {
      ResolveVariant(item.value, variant)
    }

    /** The local-file branch of `setUri`: the previous selection and states are
        dropped, the cache's item for the URI (if the scan has found it) is selected, and
        the cache's variant index is shifted by one. */
    method SelectLocalFile(found: Option<AircraftItem>, vindex: int,
                           pathOnDisk: string, statesOnDisk: seq<StateInfo>)
      requires AtMostOneAuto(statesOnDisk)
      modifies this
      ensures package == None && item == found
      ensures found.None? ==> variant == old(variant) && statesModel == null
      ensures found.Some? ==> variant == PanelVariantOfCacheIndex(vindex)
      ensures found.Some? && (pathOnDisk == "" || statesOnDisk == []) ==> statesModel == null
      ensures found.Some? && pathOnDisk != "" && statesOnDisk != [] ==>
        statesModel != null && fresh(statesModel) && statesModel.Valid() && statesModel.states == statesOnDisk
      ensures found.Some? && -1 <= vindex < |found.value.variants| ==> Valid()
      ensures found.None? ==> Valid()
    {
      item := None;
      package := None;
      statesModel := null;

      item := found;
      if item.None? {
        // scan still active or aircraft not found: the caller tries again
        return;
      }
      variant := if vindex >= 0 then vindex + 1 else 0;

      CheckForStates(pathOnDisk, statesOnDisk);
    }

    /** `setVariant`: ignored with nothing selected, for an index outside
        [0, numVariants) and for the current index; otherwise the variant changes and
        `variantChanged` is emitted. */
    method SetVariant(v: int, pathOnDisk: string, statesOnDisk: seq<StateInfo>) returns (notified: bool)
      requires Valid()
      requires AtMostOneAuto(statesOnDisk)
      modifies this`variant, this`statesModel
      ensures Valid()
      ensures (item.None? && package.None?) || v < 0 || v >= NumVariants() ==>
        variant == old(variant) && !notified
      ensures !((item.None? && package.None?) || v < 0 || v >= NumVariants()) ==>
        variant == v && (notified <==> v != old(variant))
      ensures !notified ==> statesModel == old(statesModel)
      ensures notified && (pathOnDisk == "" || statesOnDisk == []) ==> statesModel == null
      ensures notified && pathOnDisk != "" && statesOnDisk != [] ==>
        statesModel != null && fresh(statesModel) && statesModel.Valid() && statesModel.states == statesOnDisk
    {
      notified := false;
      if item.None? && package.None? {
        return;
      }
      if v < 0 || v >= NumVariants() {
        // out of range: the source logs a warning
        return;
      }
      if variant == v {
        return;
      }
      variant := v;
      CheckForStates(pathOnDisk, statesOnDisk);
      notified := true;
    }

    /** `checkForStates`, with the aircraft's path on disk and the states read from it
        as parameters: no states model without a path or without states, otherwise a
        new model of exactly those states. This is what makes the model's non-empty
        precondition hold. */
    method CheckForStates(pathOnDisk: string, statesOnDisk: seq<StateInfo>)
      requires AtMostOneAuto(statesOnDisk)
      modifies this`statesModel
      ensures pathOnDisk == "" || statesOnDisk == [] ==> statesModel == null
      ensures pathOnDisk != "" && statesOnDisk != [] ==>
        statesModel != null && fresh(statesModel) && statesModel.Valid() && statesModel.states == statesOnDisk
    {
      if pathOnDisk == "" {
        statesModel := null;
        return;
      }
      if statesOnDisk == [] {
        statesModel := null;
        return;
      }
      statesModel := new StatesModel(statesOnDisk);
    }
  }

  /** On a valid panel the selected on-disk variant always resolves. */
  lemma SelectedVariantResolves(info: QmlAircraftInfo)
    requires info.Valid()
    requires info.item.Some?
    ensures info.ResolveItem().Some?
    ensures info.variant == 0 ==> info.ResolveItem() == info.item
  {
  }
}
