# Azure migration agent: the recommendation builder

This project models the deterministic part of the Azure migration agent. That part
turns an application's inventory record (an `ApplicationData` with its list of
`MalServer`s) into an `AzureRecommendation`, in these steps:

- **Current state.** Build the current-state architecture. Declared server counts
  and per-server cores, memory and disk are read with `int.TryParse`, and 0 is used
  wherever that fails. The language list is split on `,` with empty entries dropped.
- **Totals.** Sum cores, memory (MB) and disk (GB) over all servers. The sums are
  LINQ `Sum` over `int`, which is checked.
- **VM band.** Pick one from `(cores, memoryMB / 1024)` using three first-match
  switches: SKU, size label and monthly cost.
- **Services.** Append an App Service entry when the language text contains
  `"C#"`, then always a VM entry.
- **The rest.** Set the region from the first server's city, then the key
  recommendations, the complexity assessment, the cost breakdown, the security
  lists and the risks.

Modules:

- `Wrappers` holds `Option`, `Result` and `Outcome`.
- `CSharpInt` has the C# `int` range, truncating `/` and `Math.Max`.
- `IntParse` is `int.TryParse`, modelled as a grammar over characters, plus `int.ToString()`.
- `Text` has ordinal `Contains`, `ToLower` and `Split`.
- `Aggregation` has the plain and the checked LINQ `Sum`.
- `Models` holds the records. The two objects the builder changes in place are
  classes: `AzureRecommendation` and `TargetStateArchitecture`. Everything it builds
  whole is a datatype.
- `Sizing` is the three VM switches.
- `MigrationAgent` has the builder itself:
  - `PopulateRecommendationFromResponse` changes a recommendation in place;
  - `ParseRecommendation` creates and fills a new one.

Money is C# `decimal` with two places. Here it is integer cents: 350.00 is
`35000`, and so on. These are the calls into code outside the model:
- The two language-model calls. Their replies are parameters that the builder
  never reads.
- `async`/`Task`. Both methods complete synchronously.

A field that fails to parse counts as 0 and never aborts the build. The totals,
however, are `Enumerable.Sum` over `int`, which is checked: it throws
`OverflowException` when a running total leaves the `int` range, rather than
wrapping around. The model returns `Fail(OverflowException)` in that case, and the
recommendation is left untouched.

## Model

| member | source | states |
|---|---|---|
| IntParse.ParseIntOr0 | AzureMigrationAgent/Services/AzureMigrationAgent.cs:152-154 | `int.TryParse(s, out v) ? v : 0` always gives a value in the `int` range |
| IntParse.TryParse | AzureMigrationAgent/Services/AzureMigrationAgent.cs:152-154 | `int.TryParse` with the default number style succeeds only with an `int`-range value; what it accepts and with which value is fixed by `TryParseAccepts`, `TryParseRejectsOverflow` and `TryParseSound` |
| IntParse.TryParseAccepts | AzureMigrationAgent/Services/AzureMigrationAgent.cs:152-154 | white space, an optional sign, one or more digits and white space parse to the signed value whenever that value fits in an `int` |
| IntParse.TryParseRejectsOverflow | AzureMigrationAgent/Services/AzureMigrationAgent.cs:162-164 | a well-formed numeral whose value does not fit in an `int` fails, so the field counts as 0 |
| IntParse.TryParseSound | AzureMigrationAgent/Services/AzureMigrationAgent.cs:162-164 | whatever parses has that form (lead white, sign, digits, trail white), and the result is its value |
| IntParse.ForeignCharGivesZero | AzureMigrationAgent/Services/AzureMigrationAgent.cs:162-164 | a character that is not white space, a sign or a digit makes parsing fail and the field 0 |
| IntParse.NoDigitGivesZero | AzureMigrationAgent/Services/AzureMigrationAgent.cs:152-154 | an empty, blank or digit-free field fails to parse and counts as 0 |
| IntParse.NatDigits | AzureMigrationAgent/Services/AzureMigrationAgent.cs:267 | `int.ToString()` writes the shortest decimal digits: only digits, "0" exactly for 0, and no leading zero otherwise |
| IntParse.FormatInt | AzureMigrationAgent/Services/AzureMigrationAgent.cs:267 | the text starts with `-` exactly for a negative value, followed by the digits of its magnitude |
| IntParse.FormatParseRoundTrip | AzureMigrationAgent/Services/AzureMigrationAgent.cs:267 | formatting an `int` as the interpolation does and parsing it back gives the same `int` |
| CSharpInt.Div | AzureMigrationAgent/Services/AzureMigrationAgent.cs:331 | C# `/`: the remainder has the sign of the dividend and is smaller than the divisor in absolute value (truncation toward zero) |
| CSharpInt.Max | AzureMigrationAgent/Services/AzureMigrationAgent.cs:214 | `Math.Max` is at least both arguments and is one of them |
| CSharpInt.DivMonotone | AzureMigrationAgent/Services/AzureMigrationAgent.cs:331 | truncating division is monotone in the dividend, for negative dividends too |
| CSharpInt.DivInRange | AzureMigrationAgent/Services/AzureMigrationAgent.cs:231 | `totalMemoryMB / 1024` of an `int` stays in the `int` range |
| Text.Contains | AzureMigrationAgent/Services/AzureMigrationAgent.cs:206 | ordinal `Contains` is true exactly when the substring occurs at some position |
| Text.ToLower | AzureMigrationAgent/Services/AzureMigrationAgent.cs:239 | `ToLower` keeps the length and lower-cases each character on its own |
| Text.Split | AzureMigrationAgent/Services/AzureMigrationAgent.cs:156 | `Split(',')` gives at least one piece, no piece holds the separator, and joining the pieces with the separator gives the text back |
| Text.SplitJoin | AzureMigrationAgent/Services/AzureMigrationAgent.cs:156 | splitting a join of separator-free pieces gives back those pieces, so `Split` and `Join` are inverses |
| Text.RemoveEmpty | AzureMigrationAgent/Services/AzureMigrationAgent.cs:156 | `RemoveEmptyEntries` keeps exactly the non-empty pieces and loses no character; with no empty piece it changes nothing |
| Text.RemoveEmptyIsFilter | AzureMigrationAgent/Services/AzureMigrationAgent.cs:156 | dropping empty entries is the order-preserving filter: it distributes over concatenation and keeps a single piece exactly when it is non-empty, so order and repetitions are kept |
| Text.SplitRemoveEmpty | AzureMigrationAgent/Services/AzureMigrationAgent.cs:156 | `Split(',', RemoveEmptyEntries)` gives non-empty, separator-free pieces holding every non-separator character in order, untrimmed |
| Text.SplitRemoveEmptyOfJoin | AzureMigrationAgent/Services/AzureMigrationAgent.cs:156 | for any comma-free pieces, `Split(',', RemoveEmptyEntries)` of their comma-join is exactly the non-empty pieces in order: the entries break at the separators and nowhere else |
| Text.SplitRemoveEmptyJoin | AzureMigrationAgent/Services/AzureMigrationAgent.cs:156 | when no piece of the split is empty, the kept pieces joined with `,` are the text again |
| Aggregation.CheckedSum | AzureMigrationAgent/Services/AzureMigrationAgent.cs:201-203 | checked LINQ `Sum` throws exactly when some left-to-right running total leaves the `int` range, and otherwise returns the sum |
| Aggregation.SumAppend | AzureMigrationAgent/Services/AzureMigrationAgent.cs:201-203 | the sum of a concatenation is the sum of the sums |
| Aggregation.SumPermutation | AzureMigrationAgent/Services/AzureMigrationAgent.cs:201-203 | the sum does not depend on the order of the elements |
| Aggregation.SumRemove | AzureMigrationAgent/Services/AzureMigrationAgent.cs:201-203 | dropping one element lowers the sum by exactly that element's value |
| Aggregation.SumPointwise | AzureMigrationAgent/Services/AzureMigrationAgent.cs:201-203 | two lists whose elements contribute equal values position by position have equal sums |
| Aggregation.CheckedSumPermutation | AzureMigrationAgent/Services/AzureMigrationAgent.cs:201-203 | two orderings that both avoid overflow give equal checked sums |
| Aggregation.CheckedSumOrderMatters | AzureMigrationAgent/Services/AzureMigrationAgent.cs:201-203 | whether the checked sum throws depends on the order (`[MAX, 1, -1]` throws, `[MAX, -1, 1]` does not) |
| Sizing.FirstAdmitting | AzureMigrationAgent/Services/AzureMigrationAgent.cs:333-339 | finds the first band, top-down, whose two thresholds hold, or reports that none does |
| Sizing.DetermineVMSKU | AzureMigrationAgent/Services/AzureMigrationAgent.cs:329-340 | the SKU is that of the first admitting band, or `Standard_B2s` |
| Sizing.DetermineVMSize | AzureMigrationAgent/Services/AzureMigrationAgent.cs:342-353 | the size label is that of the first admitting band, or the default label |
| Sizing.EstimateVMCost | AzureMigrationAgent/Services/AzureMigrationAgent.cs:355-366 | the cost is that of the first admitting band, or 43.75 |
| Sizing.ClassifyFirstMatch | AzureMigrationAgent/Services/AzureMigrationAgent.cs:333-339 | the band is (>=8, >=32 GB), then (>=4, >=16 GB), then (>=2, >=8 GB), else the default, on `memoryMB / 1024` truncated |
| Sizing.LockStep | AzureMigrationAgent/Services/AzureMigrationAgent.cs:329-366 | for any two inputs, equal SKUs, equal size labels and equal costs go together: the three switches pick the same band |
| Sizing.CostMonotone | AzureMigrationAgent/Services/AzureMigrationAgent.cs:355-366 | more cores and more memory never give a cheaper VM |
| Sizing.EightCoresSixteenGB | AzureMigrationAgent/Services/AzureMigrationAgent.cs:335-336 | 8 cores with 16 GB fails the first band on memory and gets `Standard_D4s_v5`, "4 vCPUs, 16 GB RAM", 175.00 |
| MigrationAgent.SpecsOf | AzureMigrationAgent/Services/AzureMigrationAgent.cs:158-167 | cores, memory and disk are each the parsed value when `int.TryParse` succeeds and 0 when it fails; name, environment and operating system are copied; the location is "city, state", with a null city written as empty |
| MigrationAgent.ServerSpecifications | AzureMigrationAgent/Services/AzureMigrationAgent.cs:158-167 | one specification per server, in the same order |
| MigrationAgent.CurrentStateOf | AzureMigrationAgent/Services/AzureMigrationAgent.cs:150-168 | the counts are the declared strings parsed (0 on failure), not recounts; the specifications are those of the servers, one per server in order; technologies are the language text split on `,` with empty entries dropped; hosting model and criticality are copied |
| MigrationAgent.ServerTotals | AzureMigrationAgent/Services/AzureMigrationAgent.cs:201-203 | the totals exist exactly when none of the three checked sums overflows, and are then the sums of the parsed per-server values |
| MigrationAgent.TotalsAreSumsOfSpecifications | AzureMigrationAgent/Services/AzureMigrationAgent.cs:201-203 | the sums equal the sums of the numbers recorded in the current state's server specifications |
| MigrationAgent.UnparsedCoresContributeNothing | AzureMigrationAgent/Services/AzureMigrationAgent.cs:201 | a server whose core count does not parse adds nothing to the total |
| MigrationAgent.TotalsOrderIndependent | AzureMigrationAgent/Services/AzureMigrationAgent.cs:201-203 | reordering the servers does not change the totals |
| MigrationAgent.AppServiceFor | AzureMigrationAgent/Services/AzureMigrationAgent.cs:208-220 | the App Service entry has at least 2 cores and 8 GB, equal to the floor or to half the cores and memory / 1024; 250 GB; 292.00 |
| MigrationAgent.VmServiceFor | AzureMigrationAgent/Services/AzureMigrationAgent.cs:224-236 | the VM entry carries the raw totals (memory in GB truncated), with SKU, size and cost all from the same band |
| MigrationAgent.ServicesFor | AzureMigrationAgent/Services/AzureMigrationAgent.cs:206-236 | two entries (App Service, then the VM) exactly when the languages contain "C#", otherwise the VM alone; never empty |
| MigrationAgent.LowerCaseMarkerIgnored | AzureMigrationAgent/Services/AzureMigrationAgent.cs:206 | the test is case-sensitive: "c#" gives one entry, "C#" two |
| MigrationAgent.ResolveRegion | AzureMigrationAgent/Services/AzureMigrationAgent.cs:239-245 | "West US 2" exactly when the first server has a city that lower-cases to "denver" or "broomfield"; "East US" in every other case, including no server or a null city |
| MigrationAgent.RegionFromFirstServerOnly | AzureMigrationAgent/Services/AzureMigrationAgent.cs:239 | the servers after the first do not affect the region |
| MigrationAgent.DenverInAnyCase | AzureMigrationAgent/Services/AzureMigrationAgent.cs:239-243 | "Denver" in any mix of cases gives "West US 2" |
| MigrationAgent.KeyRecommendationsFor | AzureMigrationAgent/Services/AzureMigrationAgent.cs:248-257 | seven key recommendations: the six fixed ones, then "Deploy in <region> region for optimal performance" |
| MigrationAgent.KeyRecommendationsNameRegion | AzureMigrationAgent/Services/AzureMigrationAgent.cs:256 | two regions give the same key recommendations exactly when they are equal |
| MigrationAgent.ComplexityFor | AzureMigrationAgent/Services/AzureMigrationAgent.cs:260-279 | "Medium" exactly for criticality "Non-Critical", else "High"; timeframe "3-6 months"; four factors naming the languages, the hosting model and the two declared counts; five fixed prerequisites |
| MigrationAgent.CostsFor | AzureMigrationAgent/Services/AzureMigrationAgent.cs:282-291 | compute is the sum of the service costs; total is compute + storage 50.00 + networking 25.00; annual is 12 × total; migration is 15000.00 |
| MigrationAgent.CostsOrderIndependent | AzureMigrationAgent/Services/AzureMigrationAgent.cs:284 | the cost breakdown does not depend on the order of the services |
| MigrationAgent.ComputeCostOfServices | AzureMigrationAgent/Services/AzureMigrationAgent.cs:282-289 | for one build's services, compute is 292.00 when "C#" is present plus the VM band's cost; the total lies between 118.75 and 717.00 |
| MigrationAgent.CSharpEstimateFromTotals | AzureMigrationAgent/Services/AzureMigrationAgent.cs:206-289 | totals of 12 cores and 40 GB with "C#": App Service at 6 cores and 40 GB, a `Standard_D8s_v5` VM, 717.00 a month, 8604.00 a year |
| MigrationAgent.TwoServerCSharpEstimate | AzureMigrationAgent/Services/AzureMigrationAgent.cs:140-289 | two Denver servers with 8 cores / 32768 MB / 400 GB and 4 cores / 8192 MB / 200 GB total 12 cores, 40960 MB and 600 GB; the region is West US 2, and with "C#" the VM is `Standard_D8s_v5` and the month costs 717.00 (the lemma also states, on its own literal arguments, that criticality "Critical" gives High) |
| MigrationAgent.PopulateRecommendationFromResponse | AzureMigrationAgent/Services/AzureMigrationAgent.cs:198-327 | fails with an overflow, changing nothing, exactly when a total overflows; otherwise appends the services and sets region, key recommendations, complexity (from the current state's counts), costs over the whole service list, security and risks; name, id, current state, availability zone and networking are unchanged |
| MigrationAgent.ParseRecommendation | AzureMigrationAgent/Services/AzureMigrationAgent.cs:140-196 | a new recommendation with the application's name and id, the current state built from the inventory, and then populated from an empty service list; an overflow in the totals is the call's failure |

## Left out

- The language-model interaction. This is the analysis chat call
  (`AnalyzeApplicationAsync`), the system and analysis prompts with their JSON
  serialisation, and the structuring chat call. These are network calls whose
  replies never feed a field; the builder takes the replies as strings it does not read.
- `AzureMigrationAgent/Program.cs`: configuration, console and file I/O.
- The web project: its startup wiring and `ChatController`. The controller does
  HTTP, sessions and display formatting. `AzureMigrationAgent.Web/Program.cs` and
  `ChatController.cs` are not part of this model.
- `async`/`Task`: both methods return synchronously. No await point changes the state.
- Null strings: only a server's `City` is optional in the model, because of the `?.`
  at line 239. Every other string is taken as non-null. The source tolerates a null
  in most of them:
  - a null count, or a null cores, memory or disk field, fails `int.TryParse` and
    gives 0, the same as `""` (lines 152-154 and 162-164);
  - a null `State` interpolates as the empty string (line 166);
  - a null `Criticality` is not "Non-Critical" and gives "High" (line 262);
  - a null name, environment, operating system or hosting model is copied as null.

  Only these throw: a null `Languages` (`Split` at line 156, `Contains` at line 206),
  a null `MalServers` (`Select` at line 158 throws `ArgumentNullException`), or a
  null server in the list. The model does not represent any of these nulls.
- Text.ToLower: lower-cases ASCII letters only. The source uses the current
  culture, so non-ASCII letters and culture rules such as the Turkish dotted i are
  not modelled.
- IntParse.TryParse: trailing NUL characters and culture-specific sign strings
  are not modelled. Invariant-culture `int` parsing of white space, an ASCII sign and
  ASCII digits is. `FormatInt` likewise writes the invariant-culture `-`.
- Order of the writes: PopulateRecommendationFromResponse computes every new
  value first and then stores them. The source stores each one as it goes. The
  only values read back from the object are the service list (for the costs), the
  region (for the last key recommendation) and `CurrentState` (for the two server
  counts in the complexity factors). The service list and the region are the values
  just computed, and `CurrentState` is never written by this method, so the final
  state is the same.
- Aliasing of the lists: `RecommendedServices`, the key recommendations and the
  other lists are values (`seq`). A `List` shared with another object, and so
  changed through it, is not modelled.
- `decimal` range: the cost sums are unbounded integers. The decimal range is
  never approached by a few services at a few hundred units each.
- The fixed template texts (key recommendations, prerequisites, security, risks)
  are copied verbatim. Beyond their lengths and positions, nothing is proved about their wording.
