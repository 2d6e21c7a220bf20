/**
 * The records the agent reads (the application inventory) and fills in (the
 * recommendation). Records that the agent builds whole are datatypes; the two
 * objects whose properties it sets one after another are classes.
 */
module Models {
  import opened Wrappers

  /** A C# decimal amount with two places, held exactly as a whole number of cents. */
  type Cents = int

  /** One on-premises server of the inventory; the numbers are free text. The city is the one field taken to be possibly null. */
  datatype MalServer = MalServer(
    serverName: string,
    environmentAssociation: string,
    serverStatus: string,
    operatingSystem: string,
    cpusPhysical: string,
    cpuDescription: string,
    cpusCores: string,
    cpusHwThreads: string,
    cpuSpeedMhz: string,
    memorySizeMb: string,
    diskSizeGb: string,
    tcpIpAddress: string,
    city: Option<string>,
    state: string,
    address: string,
    locationCode: string)

  /** One application under migration. The three server counts are free text, independent of malServers. */
  datatype ApplicationData = ApplicationData(
    applicationId: string,
    applicationName: string,
    applicationAcronym: string,
    assignment: string,
    targetDisposition: string,
    criticality: string,
    hostPlatform: string,
    languages: string,
    region: string,
    inUseServerAssociations: string,
    inUseProdServers: string,
    inUseNonProdServers: string,
    applicationHostingModel: string,
    malServers: seq<MalServer>,
    description: string,
    businessImpact: string)

  datatype ServerSpecs = ServerSpecs(
    serverName: string,
    environment: string,
    cores: int,
    memoryMB: int,
    diskGB: int,
    operatingSystem: string,
    location: string)

  datatype CurrentStateArchitecture = CurrentStateArchitecture(
    totalServers: int,
    productionServers: int,
    nonProductionServers: int,
    serverSpecifications: seq<ServerSpecs>,
    hostingModel: string,
    technologies: seq<string>,
    businessCriticality: string)

  datatype AzureService = AzureService(
    serviceType: string,
    serviceName: string,
    sku: string,
    size: string,
    recommendedCores: int,
    recommendedMemoryGB: int,
    recommendedStorageGB: int,
    tier: string,
    justification: string,
    estimatedMonthlyCostUSD: Cents)

  datatype SecurityRecommendations = SecurityRecommendations(
    identityAndAccess: seq<string>,
    networkSecurity: seq<string>,
    dataProtection: seq<string>,
    compliance: seq<string>)

  datatype NetworkingRecommendations = NetworkingRecommendations(
    vnetConfiguration: string,
    subnetDesign: seq<string>,
    loadBalancing: string,
    dnsStrategy: string)

  datatype MigrationComplexity = MigrationComplexity(
    overallComplexity: string,
    complexityFactors: seq<string>,
    estimatedTimeframe: string,
    prerequisites: seq<string>)

  datatype EstimatedCosts = EstimatedCosts(
    monthlyComputeCost: Cents,
    monthlyStorageCost: Cents,
    monthlyNetworkingCost: Cents,
    totalMonthlyCost: Cents,
    annualCost: Cents,
    migrationCost: Cents,
    costOptimizationTips: string)

  /** The initial values of a freshly constructed record (`new()`): zeros, empty strings, empty lists. */
  const EMPTY_CURRENT_STATE := CurrentStateArchitecture(0, 0, 0, [], "", [], "")
  const EMPTY_SECURITY := SecurityRecommendations([], [], [], [])
  const EMPTY_NETWORKING := NetworkingRecommendations("", [], "", "")
  const EMPTY_COMPLEXITY := MigrationComplexity("", [], "", [])
  const EMPTY_COSTS := EstimatedCosts(0, 0, 0, 0, 0, 0, "")

  /** The target architecture; the agent appends to its service list and sets its region in place. */
  class TargetStateArchitecture {
    var recommendedServices: seq<AzureService>
    var region: string
    var availabilityZone: string
    var security: SecurityRecommendations
    var networking: NetworkingRecommendations

    constructor ()
      ensures recommendedServices == [] && region == "" && availabilityZone == ""
      ensures security == EMPTY_SECURITY && networking == EMPTY_NETWORKING
    {
      recommendedServices := [];
      region := "";
      availabilityZone := "";
      security := EMPTY_SECURITY;
      networking := EMPTY_NETWORKING;
    }
  }

  /** The recommendation the agent builds up property by property. */
  class AzureRecommendation {
    var applicationName: string
    var applicationId: string
    var currentState: CurrentStateArchitecture
    var targetState: TargetStateArchitecture
    var keyRecommendations: seq<string>
    var complexity: MigrationComplexity
    var estimatedCosts: EstimatedCosts
    var risksAndConsiderations: seq<string>

    /** `new AzureRecommendation { ApplicationName = …, ApplicationId = … }`: every other property at its initial value. */
    constructor (applicationName: string, applicationId: string)
      ensures this.applicationName == applicationName && this.applicationId == applicationId
      ensures currentState == EMPTY_CURRENT_STATE
      ensures fresh(targetState)
      ensures targetState.recommendedServices == [] && targetState.region == ""
      ensures targetState.availabilityZone == ""
      ensures targetState.security == EMPTY_SECURITY && targetState.networking == EMPTY_NETWORKING
      ensures keyRecommendations == [] && complexity == EMPTY_COMPLEXITY
      ensures estimatedCosts == EMPTY_COSTS && risksAndConsiderations == []
    {
      this.applicationName := applicationName;
      this.applicationId := applicationId;
      currentState := EMPTY_CURRENT_STATE;
      targetState := new TargetStateArchitecture();
      keyRecommendations := [];
      complexity := EMPTY_COMPLEXITY;
      estimatedCosts := EMPTY_COSTS;
      risksAndConsiderations := [];
    }
  }
}
