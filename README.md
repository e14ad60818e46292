# fluids: a verified model of the pipe-network core

The fluids library describes a steady-state pipe network as a directed graph.
Each vertex holds a `Liquid`: its speed, static pressure, height, density and
viscosity, plus the dynamic, potential and Bernoulli pressures, which are
recomputed each time they are read. Each edge holds a component:

- a `Pipes` edge, with diameter, length and roughness, whose pressure drop
  follows from the Reynolds number, the Haaland friction factor and the
  Darcy-Weisbach law written in terms of volumetric flow;
- a `TransportEdge`, which loses no pressure and keeps its volumetric flow as a
  stored value.

The `System` keeps four lists of pointers to node quantities: known and unknown
speeds, and known and unknown static pressures. `Set_Known` moves a quantity
from the unknown list to the known list, comparing by pointer. The solver
functor writes a candidate solution vector back into the unknown cells.

Every quantity in the library is a separately allocated
`shared_ptr<quantity<...>>`. The model keeps this, because it is what makes
sharing and identity observable:

- `Units.Cell<D>` is a heap cell holding a `real`. The type parameter `D` tags
  its dimension, so cells of different dimensions are distinct.
- `Liquid`, `Component` and `System` are classes whose fields refer to cells.
  Setters rebind those fields.
- Copy constructors and assignment allocate fresh cells.
- The known and unknown lists are `seq<Cell<...>>`, and membership means
  identity.

The files follow the structure of the source:

| file | models |
|---|---|
| `units.dfy` | cells, dimension tags, the constants g, pi/4 and micrometre, the 2^64 `size_t` modulus, and the C math functions as a parameter |
| `physics.dfy` | the closed-form formulas, as pure functions, and the lemmas about them |
| `liquids.dfy` | `Liquid` |
| `components.dfy` | `FluidComponents`, `Pipes` and `TransportEdge` |
| `unknowns.dfy` | `in_vector` and `Set_Known` |
| `network.dfy` | `System` |
| `solving.dfy` | `Functor` and `System_Functor_Base` |

Some design decisions:

- **One class for all edges.** `Component` stands for the whole edge class
  hierarchy. Its constant `kind` (`PipeEdge` or `TransportEdge`) selects the
  override that runs.
- **Undefined results become `None`.** The model returns `None` or `ok == false`
  for division by zero, for the logarithm of a negative number, and for the
  logarithm of exactly 1. In double arithmetic these leave the finite numbers.
  Reals have a single zero, so results the double arithmetic derives from a
  negative zero are not tracked (see "## Left out").
- **The C math functions are a parameter.** `sqrt`, `log10` and `pow` are
  fields of a `MathLib` value. Only the laws stated in `SqrtLaw` and `PowLaw`
  are assumed, and only by the members that require them.
- **Integers wrap.** `size_t` wrap-around is written out explicitly, as
  subtraction modulo 2^64.

The pressure drop is even in the flow Q only when the friction factor is
fixed. That factor is computed from the signed Reynolds number. Reversing the
upstream speed therefore negates `Re` (`Physics.ReversedFlowReynolds`) and
changes B = 6.9/Re in the Haaland formula. The model keeps this asymmetry as
the source has it.

## Model

| member | source | states |
|---|---|---|
| Physics.DynamicPressure | src/Liquid.cpp:82-85 | the dynamic pressure is +1/2 rho v^2 for forward flow and -1/2 rho v^2 for reversed flow |
| Physics.DynamicPressureIsOdd | src/Liquid.cpp:83 | negating the speed negates the dynamic pressure, and zero speed gives zero |
| Physics.PotentialPressure | src/Liquid.cpp:87-90 | the potential pressure g h rho vanishes at zero height or zero density and is non-negative when both are non-negative |
| Physics.BernoulliTotal | src/Liquid.cpp:92-95 | at rest and zero height the Bernoulli total is the static pressure, and with non-negative density, speed and height it is at least the static pressure |
| Physics.BernoulliAtRest | src/Liquid.cpp:92-95 | at rest the Bernoulli total is static plus potential pressure, and at rest and zero height it is the static pressure |
| Physics.WaterFigures | test/src/test_main.cpp:34-50 | standard water gives 500 Pa dynamic pressure at 1 m/s, 98066.5 Pa potential pressure at 10 m, and Bernoulli totals of 1e5, 100500 and 198566.5 Pa |
| Physics.CircleArea | src/Pipes.cpp:92-95 | the cross-section pi/4 D^2 is never negative |
| Physics.CircleAreaPositive | src/Pipes.cpp:93 | only a zero diameter gives a zero cross-section |
| Physics.CircleAreaIsEven | src/Pipes.cpp:93 | a diameter and its negation give the same cross-section |
| Physics.CrossSectionRoundTrip | src/Pipes.cpp:97-100 | for a non-negative area a, the diameter sqrt(a/(pi/4)) that Set_CrossSection writes gives back the cross-section a |
| Physics.DiameterOf | src/Pipes.cpp:97-100 | with a lawful sqrt and a non-negative area, the diameter is non-negative and its square is area / (pi/4) |
| Physics.RelativeRoughness | src/Pipes.cpp:126-129 | relative roughness is defined exactly when the diameter is non-zero, and then it times the diameter is the roughness |
| Physics.Reynolds | src/Pipes.cpp:131-136 | Re is defined exactly when the viscosity is non-zero, and then Re times viscosity is speed times diameter times density |
| Physics.ReversedFlowReynolds | src/Pipes.cpp:135 | reversing the speed negates the Reynolds number |
| Physics.HaalandSum | src/Pipes.cpp:140-141 | with a non-negative pow, Re > 0 and non-negative relative roughness, the argument A + B of log10 is positive |
| Physics.Haaland | src/Pipes.cpp:138-145 | the friction factor is never negative; for a positive A + B it is the f with f (1.8 log10(A + B))^2 = 1; for Re > 0, rr >= 0 and a non-negative pow it is undefined exactly when log10(A + B) = 0 |
| Physics.PipeLoss | src/Pipes.cpp:85-88 | the loss is defined exactly when D != 0, and then loss times D^5 is 0.81056946914 f L Q^2 rho |
| Physics.PipeLossEvenInFlow | src/Pipes.cpp:86 | the loss depends on the flow only through Q^2 |
| Physics.PipeLossVanishes | src/Pipes.cpp:86 | zero length or zero flow gives zero loss |
| Physics.PipeLossNonNegative | src/Pipes.cpp:85-88 | with non-negative factor, length and density and a positive diameter the loss is defined and non-negative |
| Physics.LossCoefficientDerivation | src/Pipes.cpp:86 | the classical f (L/D) rho v^2/2, with v = Q/(pi/4 D^2), is the flow form with coefficient 1/(2 (pi/4)^2), and the literal 0.81056946914 agrees with that coefficient within 1e-10 |
| Physics.FrictionLoss | src/Pipes.cpp:79-90 | a defined pipe loss needs a non-zero diameter and a non-zero viscosity, and a zero length gives zero loss |
| Physics.ZeroSpeedNoLoss | src/Pipes.cpp:79-90 | a pipe whose upstream liquid is at rest loses nothing, for a positive diameter and viscosity and a non-negative density and roughness |
| Physics.PipeFigures | test/src/test_main.cpp:68-93 | a 0.2 m pipe has cross-section 0.0314159 within 1e-6 and relative roughness 0.00023 for 46 um roughness; at 10 m/s it carries 0.314159 m^3/s and 314.159 kg/s, and Re = 1739130.434783 within 1e-6 |
| Liquids.Liquid.constructor | src/Liquid.cpp:31-40 | a new liquid is standard water (speed 0, static pressure 1e5 Pa, height 0, density 1000, viscosity 1.15e-3, caches 0), with every quantity in a fresh cell |
| Liquids.Liquid.Copy | src/Liquid.cpp:42-51 | a copy holds equal values in eight freshly allocated cells |
| Liquids.Liquid.Assign | src/Liquid.cpp:53-64 | after assignment the values equal the other liquid's; self-assignment changes nothing; otherwise every cell is fresh |
| Liquids.Liquid.SetSpeed | include/fluids/Liquid.h:51 | rebinds the speed pointer and leaves every other pointer as it was |
| Liquids.Liquid.SetStaticPressure | include/fluids/Liquid.h:54 | rebinds the static-pressure pointer and leaves every other pointer as it was |
| Liquids.Liquid.SetDensity | src/Liquid.cpp:70-72 | rebinds the density pointer and leaves every other pointer as it was |
| Liquids.Liquid.SetHeight | src/Liquid.cpp:78-80 | rebinds the height pointer and leaves every other pointer as it was |
| Liquids.Liquid.SetDynamicViscosity | src/Liquid.cpp:101-103 | rebinds the viscosity pointer and leaves every other pointer as it was |
| Liquids.Liquid.GetDynamicPressure | src/Liquid.cpp:82-85 | the returned cache cell holds 1/2 rho abs(v) v of the current density and speed |
| Liquids.Liquid.GetPotentialPressure | src/Liquid.cpp:87-90 | the returned cache cell holds g h rho of the current height and density |
| Liquids.Liquid.GetBernoulli | src/Liquid.cpp:92-95 | the returned cell holds static + dynamic + potential pressure, and the two other caches are refreshed on the way |
| Liquids.StandardWaterScenario | test/src/test_main.cpp:34-50 | standard water gives totals of 1e5 Pa at rest, 100500 Pa at 1 m/s (dynamic pressure 500 Pa), and 198566.5 Pa raised by 10 m |
| Liquids.CopyIsIndependent | test/src/test_main.cpp:52-58 | writing a copy's density leaves the original's density as it was, and the original reports the density it had before |
| Components.Component.Transport | src/TransportEdge.cpp:28-30 | a default transport edge has zero flows in fresh cells, and a liquid of its own holding standard water in eight fresh cells |
| Components.Component.TransportBetween | src/TransportEdge.cpp:32-35 | a transport edge built on a liquid shares that liquid |
| Components.Component.TransportCopy | src/TransportEdge.cpp:36-38 | copying from any edge copies its flow values into fresh cells, and its liquid into a fresh liquid with eight fresh cells, so the copy shares no node state with the original |
| Components.Component.Pipe | src/Pipes.cpp:32-39 | a default pipe has zero flows and zero geometry in fresh cells, on a liquid of its own holding standard water in eight fresh cells |
| Components.Component.PipeBetween | src/Pipes.cpp:41-48 | a pipe built on a liquid shares that liquid; flows and geometry are zero, and diameter, length and roughness are three separate cells |
| Components.Component.PipeCopy | src/Pipes.cpp:50-57 | a copied pipe has equal flows, geometry and liquid values, all in fresh cells, the liquid being a fresh object with eight fresh cells |
| Components.Component.PipeSized | src/Pipes.cpp:59-66 | the sized constructor stores exactly the given diameter, length and roughness, with relative roughness 0 and zero flows, every cell fresh, on a liquid of its own holding standard water in eight fresh cells |
| Components.Component.AssignBase | src/FluidComponents.cpp:54-63 | assignment copies the flows into fresh cells and the liquid into a fresh liquid with eight fresh cells, leaves the geometry pointers alone, and is a no-op on self-assignment |
| Components.Component.AssignPipe | src/Pipes.cpp:68-77 | pipe assignment copies flows and geometry into fresh cells and the liquid into a fresh liquid with eight fresh cells; self-assignment is a no-op |
| Components.Component.SetLiquid | src/FluidComponents.cpp:82-84 | binds the edge to the given liquid by reference and leaves every cell pointer alone |
| Components.Component.GetCrossSection | src/Pipes.cpp:92-95 | a pipe writes pi/4 D^2 of its current diameter into the cross-section cell; a transport edge leaves the cell as it is |
| Components.Component.SetCrossSection | src/Pipes.cpp:97-100 | binds the area cell; a pipe first sets its diameter to sqrt(a/(pi/4)), a transport edge leaves it |
| Components.Component.GetVolumetricFlow | src/FluidComponents.cpp:90-93 | a pipe writes cross-section times upstream speed; a transport edge returns its stored flow untouched |
| Components.Component.GetMassFlow | src/FluidComponents.cpp:65-68 | the mass flow is the flow a read yields, whichever kind of edge, times the upstream density; a pipe also refreshes its cross-section to pi/4 D^2, a transport edge leaves it |
| Components.Component.GetRelativeRoughness | src/Pipes.cpp:126-129 | the cache is written with roughness / diameter exactly when the diameter is non-zero |
| Components.Component.GetDeltaPressure | src/Pipes.cpp:79-90 | a pipe writes the friction loss of its upstream liquid into the pressure-drop cell, and succeeds exactly when that loss is defined, the cell keeping its value otherwise; on the way it refreshes the cross-section to pi/4 D^2 and, for a non-zero diameter, the relative roughness to roughness / diameter; a transport edge returns its stored drop and changes nothing |
| Components.Component.IsTransportEdge | src/TransportEdge.cpp:44-46 | true exactly for a transport edge, whose flow and pressure-drop reads then return the stored cells unchanged |
| Components.Component.SetDiameter | src/Pipes.cpp:106-108 | rebinds the diameter pointer only |
| Components.Component.SetLength | src/Pipes.cpp:114-116 | rebinds the length pointer only |
| Components.Component.SetRoughness | src/Pipes.cpp:122-124 | rebinds the roughness pointer only |
| Components.PipeGeometryScenario | test/src/test_main.cpp:68-76 | the test pipe has cross-section 0.0314159 within 1e-6 and relative roughness 0.00023 |
| Components.PipeFlowScenario | test/src/test_main.cpp:77-79 | at 10 m/s the test pipe carries 0.314159 m^3/s within 1e-6 and 314.159 kg/s within 1e-3 |
| Components.PipeCopyScenario | test/src/test_main.cpp:95-101 | a copied pipe has the same length in a cell of its own |
| Unknowns.Find | include/fluids/System.h:79 | the index of the first occurrence of the value, or the length of the list when there is none |
| Unknowns.InVector | include/fluids/System.h:77-80 | true exactly when the value occurs in the list |
| Unknowns.EraseRemove | include/fluids/System.h:92 | the single pass keeps exactly the elements that differ from the value, in order |
| Unknowns.RemoveAllCounts | include/fluids/System.h:92 | the erase-remove takes out every copy of the value and keeps every other element's count |
| Unknowns.RemoveAllAbsent | include/fluids/System.h:92 | removing an absent value leaves the list as it is |
| Unknowns.RemoveAllDistinct | include/fluids/System.h:92 | removal keeps a duplicate-free list duplicate-free |
| Unknowns.RemoveAllAppend | include/fluids/System.h:92 | removal distributes over concatenation |
| Unknowns.RemoveAll | include/fluids/System.h:92 | the erase-remove result is no longer than the list, holds no copy of the value, and holds only elements of the list |
| Unknowns.Reclassified | include/fluids/System.h:87-93 | p is appended to the known list at most once, keeping the old known list as a prefix; afterwards p is known and not unknown, and the unknown list does not grow |
| Unknowns.SetKnown | include/fluids/System.h:82-94 | writes the value into the cell; the new lists are the reclassification of the old ones |
| Unknowns.ReclassifiedMoves | include/fluids/System.h:88-93 | afterwards p is known and not unknown, and every other element is known, respectively unknown, exactly when it was before |
| Unknowns.ReclassifiedIsUnguardedRemoval | include/fluids/System.h:91-93 | the membership guard on the erase changes nothing |
| Unknowns.ReclassifiedIdempotent | include/fluids/System.h:83-94 | a second identical call leaves both lists unchanged |
| Unknowns.ReclassifiedDistinct | include/fluids/System.h:88-93 | neither list gains a duplicate |
| Unknowns.ReclassifiedDisjoint | include/fluids/System.h:83-94 | known and unknown stay disjoint |
| Unknowns.ReclassifiedKeepsTotal | include/fluids/System.h:88-93 | when p was unknown once and not known, the total number of entries is kept |
| Network.FirstEdge | src/System.cpp:65 | the position of the first edge from u to v |
| Network.SizeMinus | src/System.cpp:84 | size_t subtraction: the difference when it is non-negative, otherwise 2^64 minus the shortfall |
| Network.System.constructor | src/System.cpp:30-32 | an empty network with empty lists |
| Network.System.Uniform | src/System.cpp:34-41 | n vertices, each a fresh copy of the liquid: eight fresh cells of its own holding the liquid's values, valid, and sharing no cell with any other vertex; the unknown lists hold exactly their speed and pressure cells in vertex order, and the known lists are empty |
| Network.System.AddFluidComponent | src/System.cpp:43-53 | one more edge u to v carrying c, c bound to vertex u's liquid by reference with every one of its cell pointers kept, vertices and lists unchanged |
| Network.System.GetLiquid | src/System.cpp:55-58 | the liquid of vertex u |
| Network.System.GetComponent | src/System.cpp:60-67 | the component on the first edge from u to v, which must exist |
| Network.System.SetKnownSpeed | src/System.cpp:69-74 | vertex u's speed becomes s and the speed lists are reclassified; the pressure lists stay |
| Network.System.SetKnownStaticPressure | src/System.cpp:76-81 | vertex u's static pressure becomes p and the pressure lists are reclassified; the speed lists stay |
| Network.System.NUnknowns | src/System.cpp:83-85 | the number of unknowns minus 2, wrapping to 2^64 - 2 + sum below 2 |
| Network.ReclassifyPair | include/fluids/System.h:83-94 | two different unknowns made known in turn end up known in that order, with nothing unknown |
| Network.KnowBothSpeeds | test/src/test_main.cpp:146-147 | making both speeds of a two-node network known writes the speed into both cells and moves both cells to the known list |
| Network.KnowBothStaticPressures | test/src/test_main.cpp:148-149 | making both static pressures known writes each node's pressure into its cell and moves both cells to the known list |
| Network.TwoWaterNodes | test/src/test_main.cpp:140-141 | two vertices holding standard water, with all four quantities unknown |
| Network.JoinByPipe | test/src/test_main.cpp:142-145 | the pipe of diameter 0.2 m, length 10 m and roughness 46 um joins vertex 0 to vertex 1 and reads vertex 0's liquid |
| Network.SimpleSystemScenario | test/src/test_main.cpp:139-151 | once all four quantities are known, nothing is unknown and the count of unknowns wraps to 2^64 - 2 |
| Solving.Functor.Default | src/Functor.h:52 | inputs() and values() return Eigen::Dynamic |
| Solving.Functor.Sized | src/Functor.h:53-56 | inputs() and values() return the counts given |
| Solving.SystemFunctor.Default | src/Functor.h:61 | a functor over a fresh empty network |
| Solving.SystemFunctor.Over | src/Functor.h:62 | a functor over the given network, shared and not copied |
| Solving.SystemFunctor.SetSystem | src/Functor.h:67-69 | rebinds the network |
| Solving.WrittenPressureIndex | src/Functor.h:82 | the index n_speed - j in size_t arithmetic: 0 in the first round, 2^64 - (j - n_speed) afterwards |
| Solving.WrittenIndexInBounds | src/Functor.h:81-83 | every written pressure index is in range exactly when there is at most one unknown pressure |
| Solving.SecondPressureOutOfRange | src/Functor.h:82 | with three unknown speeds the second pressure round writes at index 2^64 - 1 |
| Solving.SystemFunctor.EvaluateAsWritten | src/Functor.h:71-87 | as written, and defined for at most one unknown pressure: speed i receives x[i], the pressure receives x[n_speed], the result is 0 |
| Solving.SystemFunctor.Evaluate | src/Functor.h:71-87 | with the corrected index, speed i receives x[i] and pressure i receives x[n_speed + i]; the lists are untouched and the result is 0 |

## Left out

- Floating point: all arithmetic is over `real`, so rounding, NaN and infinities are not modelled. The tests' tolerances are replaced by exact or bounded real statements.
- Physics.PipeFigures: omits the Haaland value 0.01461541811037 and the pressure drop 73077.09 of the tests, because `log10` and `pow` are parameters with no numeric behaviour.
- Physics.Reynolds: a zero viscosity gives `None`. The double division gives plus or minus infinity, or NaN for a zero numerator, and Haaland can turn an infinite Re into a finite factor.
- Components.Component.GetDeltaPressure: where the model's loss is undefined, the pressure-drop cell keeps its value. The source writes into it instead:
  - for a zero diameter, NaN or infinity;
  - for a zero viscosity at non-zero speed, a finite loss: Re is infinite, 6.9 / Re is 0, so log10 and the Haaland factor stay finite;
  - for a zero viscosity at zero speed, NaN, because Re is 0 / 0.
- Components.Component.GetRelativeRoughness: for a zero diameter the cache cell keeps its value and `ok` is false. The source writes NaN or infinity into it.
- The `State` base class of `Liquid` (src/Liquid.cpp:32,43,56) is not part of this model. Its speed and static-pressure cells are fields of `Liquid`, defaulting to 0 and 1e5 Pa as the tests expect, and copy and assignment copy them deeply like the other cells.
- The two-liquid interface (liquid_u, liquid_v) of src/Pipes.cpp:41-42 and src/TransportEdge.cpp:32-33 keeps only the u side. Every formula reads only the u side, and the header declares a single liquid.
- The one-liquid `Pipes(liquid)` constructor of include/fluids/Pipes.h:33 has no definition in the source and is left out.
- Getters that only return a pointer (`Get_Density`, `Get_Height`, `Get_Speed`, `Get_Diameter`, `Get_Length`, `Get_Roughness`, `Get_Liquid` of an edge, `Get_System`, the four list getters) are field reads in the model.
- Physics.Haaland / Physics.ZeroSpeedNoLoss: a zero Reynolds number is taken as +0, so 6.9 / Re is +infinity and the factor is 0. The source's Re is -0.0 when the speed is 0 and an odd number of diameter, density and viscosity are negative, or when the speed is -0.0. Then 6.9 / Re is -infinity, log10 gives NaN, and the source writes a NaN loss where the model's `Haaland` and `FrictionLoss` give 0. ZeroSpeedNoLoss therefore requires the signs under which Re is +0.
- Components.Component.IsTransportEdge: a pipe's answer false has no counterpart in the source; only TransportEdge defines isTransportEdge.
- Liquids.Liquid.GetBernoulli: fixes the evaluation order. The static pressure is read before the caches are rewritten, which only matters when the static-pressure cell aliases a cache cell.
- Boost Graph internals: vertices are a sequence of liquids, and edges a sequence of (source, target, component) records.
- The solver (src/Solver.cpp), Eigen's `NumericalDiff` and the Jacobian: none contains logic beyond sizing a vector.
- `Initialize()`, the residual vector and `dvec` have no definition in the source.
- The C math functions `sqrt`, `log10` and `pow` are a parameter. Only sqrt(x)^2 = x with sqrt(x) >= 0 for x >= 0, and pow(x, y) >= 0 for x >= 0, are assumed, and only where a member requires them.

## Findings

| source | as written | input that shows it | evidently intended | confidence | as-written member | corrected member |
|---|---|---|---|---|---|---|
| src/Functor.h:81-83 | the pressure loop writes `pressure[n_speed - j]` for j from n_speed upwards, in size_t arithmetic | two unknown pressures: the second round has j = n_speed + 1 and writes index 2^64 - 1, far past the end of the list | `pressure[j - n_speed]`, so that pressure i receives x[n_speed + i] | not executed | Solving.WrittenIndexInBounds | Solving.SystemFunctor.Evaluate |
