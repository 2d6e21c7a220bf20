/**
 * The recommendation builder of the migration agent: the current-state part of
 * ParseRecommendationAsync and PopulateRecommendationFromResponseAsync. The
 * language-model replies are parameters that these steps never read.
 */
module MigrationAgent {
  import opened Wrappers
  import opened CSharpInt
  import opened IntParse
  import Text
  import opened Aggregation
  import opened Models
  import opened Sizing

  /** The exception a checked LINQ Sum throws when a running total leaves the int range. */
  datatype AgentError = OverflowException

  // ---------------------------------------------------------------------------
  // Current state

  /** `$"{s.City}"`: a null city interpolates as the empty string. */
  function CityText(city: Option<string>): string {
    match city
    case Some(c) => c
    case None => ""
  }

  /** The ServerSpecs of one server: its three numbers parsed, 0 where parsing fails. */
  function SpecsOf(s: MalServer): (specs: ServerSpecs)
    ensures InInt32(specs.cores) && InInt32(specs.memoryMB) && InInt32(specs.diskGB)
    ensures TryParse(s.cpusCores) == Some(specs.cores)
         || (TryParse(s.cpusCores).None? && specs.cores == 0)
    ensures TryParse(s.memorySizeMb) == Some(specs.memoryMB)
         || (TryParse(s.memorySizeMb).None? && specs.memoryMB == 0)
    ensures TryParse(s.diskSizeGb) == Some(specs.diskGB)
         || (TryParse(s.diskSizeGb).None? && specs.diskGB == 0)
    ensures specs.serverName == s.serverName && specs.environment == s.environmentAssociation
    ensures specs.operatingSystem == s.operatingSystem
    ensures specs.location == CityText(s.city) + ", " + s.state
  {
    ServerSpecs(
      s.serverName,
      s.environmentAssociation,
      ParseIntOr0(s.cpusCores),
      ParseIntOr0(s.memorySizeMb),
      ParseIntOr0(s.diskSizeGb),
      s.operatingSystem,
      CityText(s.city) + ", " + s.state)
  }

  /** `MalServers.Select(...).ToList()`: one entry per server, in the same order. */
  function ServerSpecifications(servers: seq<MalServer>): (specs: seq<ServerSpecs>)
    ensures |specs| == |servers|
    ensures forall i :: 0 <= i < |servers| ==> specs[i] == SpecsOf(servers[i])
  {
    seq(|servers|, i requires 0 <= i < |servers| => SpecsOf(servers[i]))
  }

  /**
   * The CurrentStateArchitecture of an application: the declared server counts
   * parsed (not recounted from the server list), the language list split on ','
   * with empty entries dropped, and the per-server specifications.
   */
  function CurrentStateOf(appData: ApplicationData): (cs: CurrentStateArchitecture)
    ensures InInt32(cs.totalServers) && InInt32(cs.productionServers) && InInt32(cs.nonProductionServers)
    ensures TryParse(appData.inUseServerAssociations) == Some(cs.totalServers)
         || (TryParse(appData.inUseServerAssociations) == None && cs.totalServers == 0)
    ensures TryParse(appData.inUseProdServers) == Some(cs.productionServers)
         || (TryParse(appData.inUseProdServers) == None && cs.productionServers == 0)
    ensures TryParse(appData.inUseNonProdServers) == Some(cs.nonProductionServers)
         || (TryParse(appData.inUseNonProdServers) == None && cs.nonProductionServers == 0)
    ensures |cs.serverSpecifications| == |appData.malServers|
    ensures cs.serverSpecifications == ServerSpecifications(appData.malServers)
    ensures forall i :: 0 <= i < |cs.technologies| ==> cs.technologies[i] != [] && ',' !in cs.technologies[i]
    ensures Text.Concat(cs.technologies) == Text.Concat(Text.Split(appData.languages, ','))
    ensures cs.technologies == Text.SplitRemoveEmpty(appData.languages, ',')
    ensures cs.hostingModel == appData.applicationHostingModel
    ensures cs.businessCriticality == appData.criticality
  {
    CurrentStateArchitecture(
      ParseIntOr0(appData.inUseServerAssociations),
      ParseIntOr0(appData.inUseProdServers),
      ParseIntOr0(appData.inUseNonProdServers),
      ServerSpecifications(appData.malServers),
      appData.applicationHostingModel,
      Text.SplitRemoveEmpty(appData.languages, ','),
      appData.criticality)
  }

  // ---------------------------------------------------------------------------
  // Aggregates

  function CoresOf(s: MalServer): int { ParseIntOr0(s.cpusCores) }
  function MemoryOf(s: MalServer): int { ParseIntOr0(s.memorySizeMb) }
  function DiskOf(s: MalServer): int { ParseIntOr0(s.diskSizeGb) }

  datatype Totals = Totals(cores: int, memoryMB: int, diskGB: int)

  /**
   * The three checked sums over the servers (cores, memory in MB, disk in GB).
   * None when one of them throws because a running total leaves the int range.
   */
  function ServerTotals(servers: seq<MalServer>): (r: Option<Totals>)
    ensures r.Some? <==>
      PrefixSumsFit(servers, CoresOf) && PrefixSumsFit(servers, MemoryOf) && PrefixSumsFit(servers, DiskOf)
    ensures r.Some? ==> r.value.cores == Sum(servers, CoresOf)
    ensures r.Some? ==> r.value.memoryMB == Sum(servers, MemoryOf)
    ensures r.Some? ==> r.value.diskGB == Sum(servers, DiskOf)
    ensures r.Some? ==> InInt32(r.value.cores) && InInt32(r.value.memoryMB) && InInt32(r.value.diskGB)
  {
    var cores, memory, disk := CheckedSum(servers, CoresOf), CheckedSum(servers, MemoryOf), CheckedSum(servers, DiskOf);
    assert servers[..|servers|] == servers;
    if cores.Some? && memory.Some? && disk.Some?
    then Some(Totals(cores.value, memory.value, disk.value))
    else None
  }

  function SpecCores(sp: ServerSpecs): int { sp.cores }
  function SpecMemory(sp: ServerSpecs): int { sp.memoryMB }
  function SpecDisk(sp: ServerSpecs): int { sp.diskGB }

  /** The totals are the sums of the per-server values recorded in the current state. */
  lemma TotalsAreSumsOfSpecifications(servers: seq<MalServer>)
    ensures Sum(servers, CoresOf) == Sum(ServerSpecifications(servers), SpecCores)
    ensures Sum(servers, MemoryOf) == Sum(ServerSpecifications(servers), SpecMemory)
    ensures Sum(servers, DiskOf) == Sum(ServerSpecifications(servers), SpecDisk)
  {
    var specs := ServerSpecifications(servers);
    SumPointwise(servers, specs, CoresOf, SpecCores);
    SumPointwise(servers, specs, MemoryOf, SpecMemory);
    SumPointwise(servers, specs, DiskOf, SpecDisk);
  }

  /** A server whose core count does not parse adds nothing: the total is that of the other servers. */
  lemma UnparsedCoresContributeNothing(servers: seq<MalServer>, i: nat)
    requires i < |servers| && TryParse(servers[i].cpusCores).None?
    ensures Sum(servers, CoresOf) == Sum(servers[..i] + servers[i + 1..], CoresOf)
  {
    SumRemove(servers, i, CoresOf);
  }

  /** Reordering the servers does not change the totals, when neither order overflows. */
  lemma TotalsOrderIndependent(servers: seq<MalServer>, reordered: seq<MalServer>)
    requires multiset(servers) == multiset(reordered)
    requires ServerTotals(servers).Some? && ServerTotals(reordered).Some?
    ensures ServerTotals(servers) == ServerTotals(reordered)
  {
    SumPermutation(servers, reordered, CoresOf);
    SumPermutation(servers, reordered, MemoryOf);
    SumPermutation(servers, reordered, DiskOf);
  }

  // ---------------------------------------------------------------------------
  // Services

  const APP_SERVICE_TYPE := "App Service"
  const APP_SERVICE_NAME := "Azure App Service"
  const APP_SERVICE_SKU := "P2V3"
  const APP_SERVICE_SIZE := "Premium P2V3"
  const APP_SERVICE_STORAGE_GB := 250
  const APP_SERVICE_TIER := "Premium"
  const APP_SERVICE_JUSTIFICATION :=
    "Recommended for C# applications with moderate to high traffic. Provides auto-scaling, deployment slots, and integrated monitoring."
  const APP_SERVICE_COST: Cents := 29200

  const VM_TYPE := "Virtual Machine"
  const VM_NAME := "Azure Virtual Machine"
  const VM_TIER := "Standard"
  const VM_JUSTIFICATION := "Lift-and-shift option maintaining current architecture with minimal changes."

  /** The language marker that brings in App Service. */
  const CSHARP_MARKER := "C#"

  /** The App Service entry: sized from the totals but never below 2 cores and 8 GB. */
  function AppServiceFor(t: Totals): (s: AzureService)
    ensures s.serviceType == APP_SERVICE_TYPE && s.sku == APP_SERVICE_SKU && s.tier == APP_SERVICE_TIER
    ensures s.recommendedCores >= 2 && s.recommendedCores >= Div(t.cores, 2)
    ensures s.recommendedCores == 2 || s.recommendedCores == Div(t.cores, 2)
    ensures s.recommendedMemoryGB >= 8 && s.recommendedMemoryGB >= MemoryGB(t.memoryMB)
    ensures s.recommendedMemoryGB == 8 || s.recommendedMemoryGB == MemoryGB(t.memoryMB)
    ensures s.recommendedStorageGB == APP_SERVICE_STORAGE_GB
    ensures s.estimatedMonthlyCostUSD == APP_SERVICE_COST
  {
    AzureService(
      APP_SERVICE_TYPE,
      APP_SERVICE_NAME,
      APP_SERVICE_SKU,
      APP_SERVICE_SIZE,
      Max(2, Div(t.cores, 2)),
      Max(8, Div(t.memoryMB, 1024)),
      APP_SERVICE_STORAGE_GB,
      APP_SERVICE_TIER,
      APP_SERVICE_JUSTIFICATION,
      APP_SERVICE_COST)
  }

  /** The lift-and-shift VM entry: the raw totals, and SKU, size and cost of one and the same band. */
  function VmServiceFor(t: Totals): (s: AzureService)
    ensures s.serviceType == VM_TYPE && s.tier == VM_TIER
    ensures s.recommendedCores == t.cores
    ensures s.recommendedMemoryGB == MemoryGB(t.memoryMB)
    ensures s.recommendedStorageGB == t.diskGB
    ensures var tier := Classify(t.cores, t.memoryMB);
      s.sku == SkuName(tier) && s.size == SizeLabel(tier) && s.estimatedMonthlyCostUSD == MonthlyCost(tier)
  {
    AzureService(
      VM_TYPE,
      VM_NAME,
      DetermineVMSKU(t.cores, t.memoryMB),
      DetermineVMSize(t.cores, t.memoryMB),
      t.cores,
      Div(t.memoryMB, 1024),
      t.diskGB,
      VM_TIER,
      VM_JUSTIFICATION,
      EstimateVMCost(t.cores, t.memoryMB))
  }

  /**
   * The services the builder appends: the App Service entry first, only when the
   * language text contains "C#" (ordinal, case-sensitive), then always the VM entry.
   */
  function ServicesFor(languages: string, t: Totals): (services: seq<AzureService>)
    ensures |services| == 2 <==> Text.Contains(languages, CSHARP_MARKER)
    ensures |services| == 1 <==> !Text.Contains(languages, CSHARP_MARKER)
    ensures services[|services| - 1] == VmServiceFor(t)
    ensures |services| == 2 ==> services[0] == AppServiceFor(t)
  {
    if Text.Contains(languages, CSHARP_MARKER) then [AppServiceFor(t), VmServiceFor(t)] else [VmServiceFor(t)]
  }

  /** The marker test is case-sensitive: "c#" alone does not bring in App Service. */
  lemma LowerCaseMarkerIgnored(t: Totals)
    ensures |ServicesFor("c#", t)| == 1
    ensures |ServicesFor("C#", t)| == 2
  {
    forall i | 0 <= i <= 0
      ensures !Text.OccursAt("c#", "C#", i)
    {
      assert "c#"[i..i + 2][0] == 'c';
    }
    assert Text.OccursAt("C#", "C#", 0);
  }

  // ---------------------------------------------------------------------------
  // Region

  const WEST_US_2 := "West US 2"
  const EAST_US := "East US"

  /** `MalServers.FirstOrDefault()?.City?.ToLower()`: the first server's city, lower-cased, if there is one. */
  function PrimaryLocation(servers: seq<MalServer>): Option<string> {
    if servers == [] then None
    else
      match servers[0].city
      case Some(c) => Some(Text.ToLower(c))
      case None => None
  }

  /** The target region: West US 2 for a first server in Denver or Broomfield (any case), East US otherwise. */
  function ResolveRegion(servers: seq<MalServer>): (region: string)
    ensures region == WEST_US_2 <==>
      |servers| > 0 && servers[0].city.Some? && Text.ToLower(servers[0].city.value) in {"denver", "broomfield"}
    ensures region == WEST_US_2 || region == EAST_US
  {
    match PrimaryLocation(servers)
    case Some(city) =>
      if city == "denver" then WEST_US_2
      else if city == "broomfield" then WEST_US_2
      else EAST_US
    case None => EAST_US
  }

  /** Only the first server's city is consulted. */
  lemma RegionFromFirstServerOnly(first: MalServer, rest: seq<MalServer>, other: seq<MalServer>)
    ensures ResolveRegion([first] + rest) == ResolveRegion([first] + other)
  {
  }

  /** "Denver" in any mix of cases resolves to West US 2. */
  lemma DenverInAnyCase(servers: seq<MalServer>)
    requires |servers| > 0 && servers[0].city.Some?
    requires |servers[0].city.value| == 6
    requires forall i :: 0 <= i < 6 ==> Text.LowerChar(servers[0].city.value[i]) == "denver"[i]
    ensures ResolveRegion(servers) == WEST_US_2
  {
  }

  // ---------------------------------------------------------------------------
  // Key recommendations, complexity, costs and the fixed lists

  /** The six key recommendations that are the same for every input. */
  const FIXED_KEY_RECOMMENDATIONS: seq<string> := [
    "Consider Azure App Service for the C# application to reduce operational overhead",
    "Implement Azure SQL Database instead of on-premises databases for better scalability",
    "Use Azure Application Gateway for load balancing and SSL termination",
    "Implement Azure Key Vault for secure credential management",
    "Set up Azure Monitor and Application Insights for comprehensive monitoring",
    "Consider Azure DevOps for CI/CD pipeline automation"
  ]
  const DEPLOY_PREFIX := "Deploy in "
  const DEPLOY_SUFFIX := " region for optimal performance"

  /** The seven key recommendations; only the last depends on the input, by naming the region. */
  function KeyRecommendationsFor(region: string): (keys: seq<string>)
    ensures |keys| == 7
    ensures keys[..6] == FIXED_KEY_RECOMMENDATIONS
    ensures keys[6] == DEPLOY_PREFIX + region + DEPLOY_SUFFIX
  {
    FIXED_KEY_RECOMMENDATIONS + [DEPLOY_PREFIX + region + DEPLOY_SUFFIX]
  }

  /** Different regions give different key recommendations: the region can be read back from the last one. */
  lemma KeyRecommendationsNameRegion(r1: string, r2: string)
    ensures KeyRecommendationsFor(r1) == KeyRecommendationsFor(r2) <==> r1 == r2
  {
    if KeyRecommendationsFor(r1) == KeyRecommendationsFor(r2) {
      var k1, k2 := KeyRecommendationsFor(r1)[6], KeyRecommendationsFor(r2)[6];
      var n := |DEPLOY_PREFIX|;
      assert k1[n..n + |r1|] == r1;
      assert k2[n..n + |r2|] == r2;
      assert |r1| == |r2|;
    }
  }

  const MEDIUM := "Medium"
  const HIGH := "High"
  const NON_CRITICAL := "Non-Critical"
  const TIMEFRAME := "3-6 months"
  const LANGUAGES_PREFIX := "Application uses "
  const LANGUAGES_SUFFIX := " - Azure native support available"
  const HOSTING_PREFIX := "Current hosting model: "
  const ENVIRONMENTS_PREFIX := "Multiple environments: "
  const PROD_SUFFIX := " Prod, "
  const NON_PROD_SUFFIX := " Non-Prod"
  const NO_DR_FACTOR := "No disaster recovery plan currently in place"

  const PREREQUISITES: seq<string> := [
    "Azure subscription and governance setup",
    "Network connectivity planning (ExpressRoute or VPN)",
    "Security and compliance review",
    "Application dependency mapping",
    "Performance baseline establishment"
  ]

  /**
   * The complexity assessment: Medium exactly for the criticality "Non-Critical",
   * High for every other value; a fixed timeframe; four factors, of which the
   * first three interpolate the languages, the hosting model and the two
   * environment counts.
   */
  function ComplexityFor(criticality: string, languages: string, hostingModel: string, prod: int, nonProd: int)
    : (c: MigrationComplexity)
    ensures c.overallComplexity == MEDIUM <==> criticality == NON_CRITICAL
    ensures c.overallComplexity == HIGH <==> criticality != NON_CRITICAL
    ensures c.estimatedTimeframe == TIMEFRAME
    ensures |c.complexityFactors| == 4
    ensures c.complexityFactors[0] == LANGUAGES_PREFIX + languages + LANGUAGES_SUFFIX
    ensures c.complexityFactors[1] == HOSTING_PREFIX + hostingModel
    ensures c.complexityFactors[2] == ENVIRONMENTS_PREFIX + FormatInt(prod) + PROD_SUFFIX + FormatInt(nonProd) + NON_PROD_SUFFIX
    ensures c.complexityFactors[3] == NO_DR_FACTOR
    ensures c.prerequisites == PREREQUISITES
  {
    MigrationComplexity(
      if criticality == NON_CRITICAL then MEDIUM else HIGH,
      [
        LANGUAGES_PREFIX + languages + LANGUAGES_SUFFIX,
        HOSTING_PREFIX + hostingModel,
        ENVIRONMENTS_PREFIX + FormatInt(prod) + PROD_SUFFIX + FormatInt(nonProd) + NON_PROD_SUFFIX,
        NO_DR_FACTOR
      ],
      TIMEFRAME,
      PREREQUISITES)
  }

  const MONTHLY_STORAGE_COST: Cents := 5000
  const MONTHLY_NETWORKING_COST: Cents := 2500
  const MONTHLY_OVERHEAD: Cents := 7500
  const MIGRATION_COST: Cents := 1500000
  const COST_OPTIMIZATION_TIPS := "Use Azure Hybrid Benefit for Windows licenses, implement auto-scaling, consider Reserved Instances for predictable workloads"

  function ServiceCost(s: AzureService): Cents { s.estimatedMonthlyCostUSD }

  /**
   * The cost breakdown of a service list: compute is the sum of the service
   * costs, the monthly total adds the fixed overhead (equal to storage plus
   * networking), the annual cost is twelve months, the migration cost is fixed.
   */
  function CostsFor(services: seq<AzureService>): (c: EstimatedCosts)
    ensures c.monthlyComputeCost == Sum(services, ServiceCost)
    ensures c.monthlyStorageCost == 5000 && c.monthlyNetworkingCost == 2500
    ensures c.totalMonthlyCost == c.monthlyComputeCost + c.monthlyStorageCost + c.monthlyNetworkingCost
    ensures c.annualCost == 12 * c.totalMonthlyCost
    ensures c.migrationCost == 1500000
  {
    EstimatedCosts(
      Sum(services, ServiceCost),
      MONTHLY_STORAGE_COST,
      MONTHLY_NETWORKING_COST,
      Sum(services, ServiceCost) + MONTHLY_OVERHEAD,
      (Sum(services, ServiceCost) + MONTHLY_OVERHEAD) * 12,
      MIGRATION_COST,
      COST_OPTIMIZATION_TIPS)
  }

  /** The cost breakdown does not depend on the order of the services. */
  lemma CostsOrderIndependent(services: seq<AzureService>, reordered: seq<AzureService>)
    requires multiset(services) == multiset(reordered)
    ensures CostsFor(services) == CostsFor(reordered)
  {
    SumPermutation(services, reordered, ServiceCost);
  }

  /** For the services of one build: compute is the App Service price when "C#" is present, plus the VM band's price. */
  lemma ComputeCostOfServices(languages: string, t: Totals)
    ensures CostsFor(ServicesFor(languages, t)).monthlyComputeCost ==
      (if Text.Contains(languages, CSHARP_MARKER) then APP_SERVICE_COST else 0) + EstimateVMCost(t.cores, t.memoryMB)
    ensures 4375 + 7500 <= CostsFor(ServicesFor(languages, t)).totalMonthlyCost <= 29200 + 35000 + 7500
  {
    var services := ServicesFor(languages, t);
    var vm := VmServiceFor(t);
    if |services| == 2 {
      var app := AppServiceFor(t);
      assert services == [app, vm];
      assert services[..1] == [app] && [app][..0] == [];
      assert Sum(services, ServiceCost) == Sum([app], ServiceCost) + ServiceCost(vm);
      assert Sum([app], ServiceCost) == ServiceCost(app);
    } else {
      assert services == [vm] && services[..0] == [];
      assert Sum(services, ServiceCost) == ServiceCost(vm);
    }
    var tier := Classify(t.cores, t.memoryMB);
    assert 4375 <= MonthlyCost(tier) <= 35000;
  }

  /**
   * A C# application whose servers total 12 cores and 40 GB: App Service
   * sized 6 cores / 40 GB, a D8s_v5 VM, and 717.00 a month, 8604.00 a year.
   */
  lemma CSharpEstimateFromTotals()
    ensures var services := ServicesFor("C#", Totals(12, 40960, 600));
      && |services| == 2
      && services[0].recommendedCores == 6 && services[0].recommendedMemoryGB == 40
      && services[1].sku == "Standard_D8s_v5" && services[1].recommendedMemoryGB == 40
      && CostsFor(services).totalMonthlyCost == 71700
      && CostsFor(services).annualCost == 860400
  {
    var t := Totals(12, 40960, 600);
    assert Text.OccursAt("C#", CSHARP_MARKER, 0);
    ComputeCostOfServices("C#", t);
    assert MemoryGB(40960) == 40;
    assert Classify(12, 40960) == D8sV5 by {
      ClassifyFirstMatch(12, 40960);
    }
  }

  /** An inventory server in Denver (city written in capitals) whose numbers are written as `int.ToString()` writes them. */
  function DenverServer(cores: int, memoryMB: int, diskGB: int): MalServer {
    MalServer("", "", "", "", "", "", FormatInt(cores), "", "", FormatInt(memoryMB), FormatInt(diskGB),
              "", Some("DENVER"), "CO", "", "")
  }

  /**
   * Two Denver servers with 8 cores / 32768 MB / 400 GB and
   * 4 cores / 8192 MB / 200 GB: the totals are 12 cores, 40960 MB and 600 GB,
   * the region is West US 2, and a C# application on them gets App Service and
   * a D8s_v5 VM for 717.00 a month. Separately, the criticality "Critical"
   * gives High complexity.
   */
  lemma TwoServerCSharpEstimate(a: MalServer, b: MalServer)
    requires a == DenverServer(8, 32768, 400) && b == DenverServer(4, 8192, 200)
    ensures var totals := ServerTotals([a, b]);
      && totals == Some(Totals(12, 40960, 600))
      && ResolveRegion([a, b]) == WEST_US_2
      && ComplexityFor("Critical", "C#", "", 1, 1).overallComplexity == HIGH
      && |ServicesFor("C#", totals.value)| == 2
      && ServicesFor("C#", totals.value)[1].sku == "Standard_D8s_v5"
      && CostsFor(ServicesFor("C#", totals.value)).totalMonthlyCost == 71700
  {
    TwoServerTotals(a, b);
    TwoServerRegion(a, b);
    CSharpEstimateFromTotals();
    assert "Critical" != NON_CRITICAL by {
      assert |"Critical"| != |NON_CRITICAL|;
    }
  }

  /** The first example server is in Denver, so the region is West US 2. */
  lemma TwoServerRegion(a: MalServer, b: MalServer)
    requires a == DenverServer(8, 32768, 400)
    ensures ResolveRegion([a, b]) == WEST_US_2
  {
  }

  /** The checked totals over the two example servers. */
  lemma TwoServerTotals(a: MalServer, b: MalServer)
    requires a == DenverServer(8, 32768, 400) && b == DenverServer(4, 8192, 200)
    ensures ServerTotals([a, b]) == Some(Totals(12, 40960, 600))
  {
    FormatParseRoundTrip(8);
    FormatParseRoundTrip(32768);
    FormatParseRoundTrip(400);
    FormatParseRoundTrip(4);
    FormatParseRoundTrip(8192);
    FormatParseRoundTrip(200);
    TwoSums(a, b, CoresOf);
    TwoSums(a, b, MemoryOf);
    TwoSums(a, b, DiskOf);
  }

  /** The checked sum of two small values is their sum. */
  lemma TwoSums<T>(a: T, b: T, f: T -> int)
    requires 0 <= f(a) <= 65536 && 0 <= f(b) <= 65536
    ensures CheckedSum([a, b], f) == Some(f(a) + f(b))
  {
  }

  const SECURITY := SecurityRecommendations(
    [
      "Implement Azure Active Directory integration",
      "Enable multi-factor authentication (MFA)",
      "Use managed identities for Azure resource access"
    ],
    [
      "Deploy within Azure Virtual Network with appropriate subnets",
      "Configure Network Security Groups (NSGs)",
      "Implement Azure Firewall or Application Gateway WAF"
    ],
    [
      "Enable encryption at rest for all storage",
      "Use Azure Key Vault for certificate and secret management",
      "Implement Azure Backup for data protection"
    ],
    [])

  const RISKS: seq<string> := [
    "Application dependency on specific on-premises systems may require additional integration work",
    "Data migration requires careful planning to minimize downtime",
    "Legacy .NET Framework applications may need modernization",
    "Current lack of DR plan requires immediate attention post-migration",
    "User training may be required for new Azure-based workflows"
  ]

  // ---------------------------------------------------------------------------
  // The builder

  /**
   * What the builder leaves in a recommendation, given the services it held
   * before, the current state it read and the server totals.
   */
  ghost predicate PopulatedFrom(
    rec: AzureRecommendation, appData: ApplicationData,
    priorServices: seq<AzureService>, currentState: CurrentStateArchitecture, t: Totals)
    reads rec, rec.targetState
  {
    && rec.targetState.recommendedServices == priorServices + ServicesFor(appData.languages, t)
    && rec.targetState.region == ResolveRegion(appData.malServers)
    && rec.keyRecommendations == KeyRecommendationsFor(rec.targetState.region)
    && rec.complexity == ComplexityFor(appData.criticality, appData.languages, appData.applicationHostingModel,
                                       currentState.productionServers, currentState.nonProductionServers)
    && rec.estimatedCosts == CostsFor(rec.targetState.recommendedServices)
    && rec.targetState.security == SECURITY
    && rec.risksAndConsiderations == RISKS
  }

  /** The builder's writes to the target state: services, region and security. */
  method WriteTargetState(target: TargetStateArchitecture, services: seq<AzureService>, region: string)
    modifies target
    ensures target.recommendedServices == services
    ensures target.region == region
    ensures target.security == SECURITY
    ensures target.availabilityZone == old(target.availabilityZone)
    ensures target.networking == old(target.networking)
  {
    target.recommendedServices := services;
    target.region := region;
    target.security := SECURITY;
  }

  /** The builder's writes to the recommendation itself. */
  method WriteRecommendation(rec: AzureRecommendation, keys: seq<string>,
                             complexity: MigrationComplexity, costs: EstimatedCosts)
    modifies rec
    ensures rec.keyRecommendations == keys
    ensures rec.complexity == complexity
    ensures rec.estimatedCosts == costs
    ensures rec.risksAndConsiderations == RISKS
    ensures rec.applicationName == old(rec.applicationName)
    ensures rec.applicationId == old(rec.applicationId)
    ensures rec.currentState == old(rec.currentState)
    ensures rec.targetState == old(rec.targetState)
  {
    rec.keyRecommendations := keys;
    rec.complexity := complexity;
    rec.estimatedCosts := costs;
    rec.risksAndConsiderations := RISKS;
  }

  /**
   * PopulateRecommendationFromResponseAsync. The totals are computed first; when
   * one of the checked sums throws, nothing has been changed. Otherwise the
   * services are appended to the existing list, then the region, the key
   * recommendations, the complexity (from the recommendation's current state),
   * the costs (over the whole service list), security and risks are set.
   */
  method PopulateRecommendationFromResponse(recommendation: AzureRecommendation, response: string, appData: ApplicationData)
    returns (outcome: Outcome<AgentError>)
    modifies recommendation, recommendation.targetState
    ensures recommendation.targetState == old(recommendation.targetState)
    ensures outcome.Fail? <==> ServerTotals(appData.malServers).None?
    ensures outcome.Fail? ==> outcome.error == OverflowException
    ensures outcome.Fail? ==> unchanged(recommendation) && unchanged(recommendation.targetState)
    ensures outcome.Pass? ==>
      PopulatedFrom(recommendation, appData, old(recommendation.targetState.recommendedServices),
                    old(recommendation.currentState), ServerTotals(appData.malServers).value)
    ensures recommendation.applicationName == old(recommendation.applicationName)
    ensures recommendation.applicationId == old(recommendation.applicationId)
    ensures recommendation.currentState == old(recommendation.currentState)
    ensures recommendation.targetState.availabilityZone == old(recommendation.targetState.availabilityZone)
    ensures recommendation.targetState.networking == old(recommendation.targetState.networking)
  {
    var totals := ServerTotals(appData.malServers);
    if totals.None? {
      return Fail(OverflowException);
    }
    var t := totals.value;
    var target := recommendation.targetState;
    var current := recommendation.currentState;

    // Everything the builder writes is a function of the application data, the
    // current state and the service list it started from.
    var services := target.recommendedServices;
    if Text.Contains(appData.languages, CSHARP_MARKER) {
      services := services + [AppServiceFor(t)];
    }
    services := services + [VmServiceFor(t)];
    assert services == target.recommendedServices + ServicesFor(appData.languages, t);
    var region := ResolveRegion(appData.malServers);
    var keys := KeyRecommendationsFor(region);
    var complexity := ComplexityFor(
      appData.criticality, appData.languages, appData.applicationHostingModel,
      current.productionServers, current.nonProductionServers);
    var costs := CostsFor(services);

    WriteTargetState(target, services, region);
    WriteRecommendation(recommendation, keys, complexity, costs);
    return Pass;
  }

  /**
   * ParseRecommendationAsync without its language-model call: a new
   * recommendation with the application's identity and current state, then
   * populated. An overflow in the server totals propagates as the call's failure.
   */
  method ParseRecommendation(response: string, structuredResponse: string, appData: ApplicationData)
    returns (result: Result<AzureRecommendation, AgentError>)
    ensures result.Failure? <==> ServerTotals(appData.malServers).None?
    ensures result.Failure? ==> result.error == OverflowException
    ensures result.Success? ==>
      var rec := result.value;
      && fresh(rec) && fresh(rec.targetState)
      && rec.applicationName == appData.applicationName
      && rec.applicationId == appData.applicationId
      && rec.currentState == CurrentStateOf(appData)
      && rec.targetState.availabilityZone == ""
      && rec.targetState.networking == EMPTY_NETWORKING
      && PopulatedFrom(rec, appData, [], rec.currentState, ServerTotals(appData.malServers).value)
  {
    var recommendation := new AzureRecommendation(appData.applicationName, appData.applicationId);
    recommendation.currentState := CurrentStateOf(appData);
    var outcome := PopulateRecommendationFromResponse(recommendation, structuredResponse, appData);
    if outcome.Fail? {
      return Failure(outcome.error);
    }
    return Success(recommendation);
  }
}
