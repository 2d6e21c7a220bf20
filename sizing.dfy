/**
 * The virtual-machine sizing of the agent: three C# switch expressions
 * (SKU, size label, monthly cost) over the same (cores, memory in GB) bands,
 * tried top-down with the first band whose two thresholds both hold winning.
 */
module Sizing {
  import opened Wrappers
  import CSharpInt
  import opened Models

  /** The four outcomes of the switches. */
  datatype VmTier = D8sV5 | D4sV5 | D2sV5 | B2s

  /** A band: its tier applies when cores >= minCores and memory in GB >= minMemoryGB. */
  datatype Band = Band(minCores: int, minMemoryGB: int, tier: VmTier)

  /** The bands in the order the switches try them; B2s is the default when none applies. */
  const BANDS: seq<Band> := [Band(8, 32, D8sV5), Band(4, 16, D4sV5), Band(2, 8, D2sV5)]
  const DEFAULT_TIER: VmTier := B2s

  /** `memoryMB / 1024` with C#'s truncating division. */
  function MemoryGB(memoryMB: int): int {
    CSharpInt.Div(memoryMB, 1024)
  }

  predicate Admits(band: Band, cores: int, memoryGB: int) {
    cores >= band.minCores && memoryGB >= band.minMemoryGB
  }

  /** The position of the first band that admits (cores, memoryGB), if any. */
  function FirstAdmitting(bands: seq<Band>, cores: int, memoryGB: int): (r: Option<nat>)
    ensures r.Some? ==> r.value < |bands| && Admits(bands[r.value], cores, memoryGB)
    ensures r.Some? ==> forall j :: 0 <= j < r.value ==> !Admits(bands[j], cores, memoryGB)
    ensures r.None? ==> forall j :: 0 <= j < |bands| ==> !Admits(bands[j], cores, memoryGB)
  {
    if bands == [] then None
    else if Admits(bands[0], cores, memoryGB) then Some(0)
    else
      match FirstAdmitting(bands[1..], cores, memoryGB)
      case None => None
      case Some(i) => Some(i + 1)
  }

  /** The tier of the first admitting band, or the default tier. */
  function Classify(cores: int, memoryMB: int): VmTier {
    match FirstAdmitting(BANDS, cores, MemoryGB(memoryMB))
    case None => DEFAULT_TIER
    case Some(i) => BANDS[i].tier
  }

  function SkuName(t: VmTier): string {
    match t
    case D8sV5 => "Standard_D8s_v5"
    case D4sV5 => "Standard_D4s_v5"
    case D2sV5 => "Standard_D2s_v5"
    case B2s => "Standard_B2s"
  }

  function SizeLabel(t: VmTier): string {
    match t
    case D8sV5 => "8 vCPUs, 32 GB RAM"
    case D4sV5 => "4 vCPUs, 16 GB RAM"
    case D2sV5 => "2 vCPUs, 8 GB RAM"
    case B2s => "2 vCPUs, 4 GB RAM"
  }

  function MonthlyCost(t: VmTier): Cents {
    match t
    case D8sV5 => 35000
    case D4sV5 => 17500
    case D2sV5 => 8750
    case B2s => 4375
  }

  /** DetermineVMSKU: the SKU of the first admitting band. */
  function DetermineVMSKU(cores: int, memoryMB: int): (sku: string)
    ensures sku == SkuName(Classify(cores, memoryMB))
  {
    ClassifyFirstMatch(cores, memoryMB);
    var memoryGB := MemoryGB(memoryMB);
    if cores >= 8 && memoryGB >= 32 then "Standard_D8s_v5"
    else if cores >= 4 && memoryGB >= 16 then "Standard_D4s_v5"
    else if cores >= 2 && memoryGB >= 8 then "Standard_D2s_v5"
    else "Standard_B2s"
  }

  /** DetermineVMSize: the size label of the first admitting band. */
  function DetermineVMSize(cores: int, memoryMB: int): (size: string)
    ensures size == SizeLabel(Classify(cores, memoryMB))
  {
    ClassifyFirstMatch(cores, memoryMB);
    var memoryGB := MemoryGB(memoryMB);
    if cores >= 8 && memoryGB >= 32 then "8 vCPUs, 32 GB RAM"
    else if cores >= 4 && memoryGB >= 16 then "4 vCPUs, 16 GB RAM"
    else if cores >= 2 && memoryGB >= 8 then "2 vCPUs, 8 GB RAM"
    else "2 vCPUs, 4 GB RAM"
  }

  /** EstimateVMCost: the monthly cost, in cents, of the first admitting band. */
  function EstimateVMCost(cores: int, memoryMB: int): (cost: Cents)
    ensures cost == MonthlyCost(Classify(cores, memoryMB))
  {
    ClassifyFirstMatch(cores, memoryMB);
    var memoryGB := MemoryGB(memoryMB);
    if cores >= 8 && memoryGB >= 32 then 35000
    else if cores >= 4 && memoryGB >= 16 then 17500
    else if cores >= 2 && memoryGB >= 8 then 8750
    else 4375
  }

  /** The tier is the first band top-down whose two thresholds hold, else the default. */
  lemma ClassifyFirstMatch(cores: int, memoryMB: int)
    ensures var gb := MemoryGB(memoryMB);
      Classify(cores, memoryMB) ==
        if cores >= 8 && gb >= 32 then D8sV5
        else if cores >= 4 && gb >= 16 then D4sV5
        else if cores >= 2 && gb >= 8 then D2sV5
        else B2s
  {
    var gb := MemoryGB(memoryMB);
    var r := FirstAdmitting(BANDS, cores, gb);
    if r.None? {
      assert !Admits(BANDS[0], cores, gb) && !Admits(BANDS[1], cores, gb) && !Admits(BANDS[2], cores, gb);
    } else if r.value == 1 {
      assert !Admits(BANDS[0], cores, gb);
    } else if r.value == 2 {
      assert !Admits(BANDS[0], cores, gb) && !Admits(BANDS[1], cores, gb);
    }
  }

  /**
   * SKU, size label and cost always come from the same band: for any two inputs,
   * equal SKUs, equal size labels and equal costs go together.
   */
  lemma LockStep(c1: int, m1: int, c2: int, m2: int)
    ensures DetermineVMSKU(c1, m1) == DetermineVMSKU(c2, m2)
        <==> DetermineVMSize(c1, m1) == DetermineVMSize(c2, m2)
    ensures DetermineVMSKU(c1, m1) == DetermineVMSKU(c2, m2)
        <==> EstimateVMCost(c1, m1) == EstimateVMCost(c2, m2)
  {
  }

  /** More cores and more memory never give a cheaper machine. */
  lemma CostMonotone(c1: int, m1: int, c2: int, m2: int)
    requires c1 <= c2 && m1 <= m2
    ensures EstimateVMCost(c1, m1) <= EstimateVMCost(c2, m2)
  {
  }

  /** 8 cores with 16 GB fails the first band on memory and lands in the second. */
  lemma EightCoresSixteenGB()
    ensures DetermineVMSKU(8, 16384) == "Standard_D4s_v5"
    ensures DetermineVMSize(8, 16384) == "4 vCPUs, 16 GB RAM"
    ensures EstimateVMCost(8, 16384) == 17500
  {
  }
}
