# Beaker mixing engine — a Dafny model

This project models the mixing engine of the DLab WebXR chemistry prototype.
The engine is `updateBeakerChemistry` in `app.js`. Each pour event names a
beaker, a chemical identifier and an amount. The engine keeps a registry of
per-beaker states, each with a `volume` and a `components` object. From the
components it derives a pH estimate and a liquid colour, and it builds the
reaction-monitor summary.

The model is functional. The module-level registry `beakerStates` becomes an
explicit `map<string, VesselState>` that each pour takes and returns.

- `Composition`: the `components` object as a `map<string, int>`. An absent
  identifier reads as 0, as `(components[k] || 0)` does. JavaScript truthiness
  of an amount is "not 0".
- `Readout`: the pH heuristic and the colour rules. The three colour rules
  are evaluated front to back and each match overwrites the colour, as in the
  source. This is proved equal to "the last matching rule wins" and to an
  explicit priority list.
- `Beakers`: vessel state, the pour, the monitor summary, and the whole engine
  step `UpdateBeakerChemistry`. A JavaScript object's key order is carried
  explicitly: `order` lists the keys of `components` in insertion order.
- `History`: sequences of pour events replayed through the engine. It proves
  conservation of volume over any history, per-chemical totals, the
  first-pour key order, and that the pour order does not change the final
  composition, pH or colour.
- `Scenarios`: concrete histories worked through end to end.

Amounts are unbounded integers, because the only caller pours 1 unit at a
time (app.js:32). pH is an exact `real`. Amounts are not constrained to be
positive, because the source does not check them. Conservation and the other
accumulation properties hold for any integer amount.

Points where the code fixes a behaviour that a reader might expect otherwise:

- The precipitate rule tests the literal key `silver`. A pour of `agno3`
  never turns the liquid gray.
- When both `hcl` and `naoh` are nonzero, the green rule is evaluated last.
  It therefore overrides both pink and gray, whatever the other rules say
  (`Scenarios.EveryRuleEvaluatedScenario`).
- The source builds a summary only right after a pour into that beaker. A
  summary of a beaker with no state therefore never arises, and none is
  modelled.

## Model

| member | source | states |
|---|---|---|
| `Composition.Add` | app.js:61 | a pour raises the poured chemical by exactly `amount`, creating it from 0 when absent, and leaves every other chemical's amount unchanged |
| `Composition.SumOverAdd` | app.js:60-61 | adding to one chemical raises the total over a list of distinct chemicals by exactly that amount if the chemical is listed, and not at all otherwise |
| `Readout.PHOf` | app.js:63-67 | pH always lies in [0.5, 13.5]; it is exactly 7 iff acid equals base (both 0 included), below 7 iff acid exceeds base, above 7 iff base exceeds acid |
| `Readout.PHAcidSide` | app.js:66 | with more acid, pH is 7 - (acid-base)/5 while the imbalance is at most 32 and stays above 0.5; it is exactly 0.5 from an imbalance of 33 on |
| `Readout.PHBaseSide` | app.js:67 | with more base, pH is 7 + (base-acid)/5 while the imbalance is at most 32 and stays below 13.5; it is exactly 13.5 from an imbalance of 33 on |
| `Readout.PHSymmetric` | app.js:65-67 | exchanging acid and base reflects the pH about 7 (the two values sum to 14) |
| `Readout.PHShift` | app.js:63-67 | adding equal amounts of acid and base leaves the pH unchanged; only the imbalance counts |
| `Readout.PHMonotone` | app.js:63-67 | more acid or less base never raises the pH |
| `Readout.PHExamples` | app.js:66-67 | an acid excess of 25 gives pH 2, an excess of 1000 clamps to 0.5, a base excess of 1000 clamps to 13.5, no acid and no base gives 7 |
| `Readout.OverwriteIsLastMatch` | app.js:69-72 | evaluating every rule in order, with each match overwriting the colour, gives the colour of the last matching rule (or the default when none matches) |
| `Readout.ColorIsLastMatch` | app.js:69-72 | the engine's colour for any composition is the colour of the last of its three rules that matches, or the default blue when none does |
| `Readout.HexDistinct` | app.js:69-72 | the four colour tokens written to the liquid are pairwise distinct, so the token determines the colour rule that chose it |
| `Readout.ColorOf` | app.js:69-72 | pale green iff hcl and naoh are both nonzero; otherwise gray iff silver is nonzero and salt is positive; otherwise pink iff phenolph is nonzero and base exceeds acid; otherwise the default blue |
| `Readout.PinkMeansNoAcid` | app.js:70-72 | when the liquid is pink and the acid amount is not negative, it holds base and no acid at all |
| `Beakers.PourInto` | app.js:59-61 | a pour raises volume and the poured chemical by exactly `amount` and leaves every other chemical's amount unchanged; a chemical seen before keeps its key position, and a new one is appended last |
| `Beakers.PourIntoPreservesValid` | app.js:58-61 | a pour preserves the vessel invariant: keys listed once each, and volume equal to the sum of all component amounts |
| `Beakers.Pour` | app.js:57-61 | a beaker's state is created on its first pour, giving volume `amount` and components `{chem: amount}` with key order `[chem]`; every other beaker's state is unchanged |
| `Beakers.PourPreservesAllValid` | app.js:55-61 | a pour keeps the conservation invariant for every beaker in the registry |
| `Beakers.Summarize` | app.js:78 | the summary reports the state's volume and the pH of its components (in [0.5, 13.5], 7 iff acid equals base); it lists one `key:amount` entry per key, in key insertion order, each with that key's amount |
| `Beakers.SummaryListsEachKeyOnce` | app.js:78 | for a valid state the summary lists every component exactly once, each with its amount |
| `Beakers.SummaryAddsUp` | app.js:60-61 | for a valid state the amounts the summary lists add up to the volume it reports |
| `Beakers.PouredSummaryIsFaithful` | app.js:58-61 | after a pour into a valid state, the summary lists the poured chemical, and its amounts add up to the old volume plus `amount` |
| `Beakers.UpdateBeakerChemistry` | app.js:56-80 | one engine step: the registry after the pour; the colour is that of the updated components; the summary is the updated vessel's, listing its keys in insertion order with their amounts; its volume is the old volume plus `amount` and its pH lies in [0.5, 13.5]; for a valid vessel the summary lists the poured chemical and its amounts add up to the volume |
| `History.ReplayPreservesAllValid` | app.js:55-61 | every beaker keeps the conservation invariant along any pour history |
| `History.ReplayKeepsValid` | app.js:58-61 | a single beaker's invariant survives any pour history, whichever beakers the pours go to |
| `History.ReplayVolume` | app.js:60 | after any history, a beaker's volume is its initial volume plus the sum of the amounts poured into it |
| `History.ReplayAmount` | app.js:61 | after any history, each chemical's amount is its initial amount plus the sum of the amounts of that chemical poured into that beaker |
| `History.ReplayKeys` | app.js:58-61 | after any history, a beaker's keys are its initial keys plus every chemical poured into it, whatever the amounts |
| `History.PourIntoOrder` | app.js:61 | one pour extends the first-occurrence key order by the poured chemical |
| `History.ReplayOrder` | app.js:61 | starting from a beaker with no state, the key order lists each chemical poured into it exactly once, ordered by its first pour |
| `History.RepeatPourKeepsOrder` | app.js:61 | a later pour of a chemical already present does not move it in the key order |
| `History.PouredOfPermutation` | app.js:61 | the total poured of a chemical into a beaker does not depend on the order of the pours |
| `History.PourOrderComponents` | app.js:58-61 | two histories with the same pours in any order leave each beaker with the same components, keys and amounts alike |
| `History.PourOrderIrrelevant` | app.js:63-72 | two histories with the same pours in any order give each beaker the same summary volume, pH and colour |
| `History.PourOrderVolume` | app.js:60 | two histories with the same pours in any order give each beaker the same volume |
| `Scenarios.NeutralizationScenario` | app.js:56-80 | hcl 10 then naoh 10 into one beaker: volume 20, components `{hcl: 10, naoh: 10}`, pH 7, pale green, summary lists hcl then naoh |
| `Scenarios.EveryRuleEvaluatedScenario` | app.js:69-72 | hcl 5, naoh 10, phenolph 1, agno3 1, salt 1: pink's condition holds but green wins; agno3 does not trigger the precipitate rule; pH 8, volume 18 |
| `Scenarios.PrecipitateScenario` | app.js:71 | silver and salt with no acid or base turn the liquid gray |
| `Scenarios.IndicatorScenario` | app.js:70 | phenolph then naoh 2 turn the liquid pink at pH 7.4 |

## Left out

- The `pourable` component's `init` and `tick` (app.js:3-37) are left out. They handle grab events, tilt measured in degrees, world-position distances and a 120 ms throttle: floating-point geometry and host-runtime callbacks. Their only effect on the engine is a call with amount 1, and any integer amount is allowed here.
- `pourInto`'s liquid height and position update (app.js:38-46) is left out. It is DOM attribute parsing with floating-point scale factors; the height is capped at 0.2.
- The DOM side effects of `updateBeakerChemistry` are left out: `setAttribute` of the colour and of the monitor text (app.js:74-75, 77, 79). The model returns the colour and the summary instead. `Readout.Hex` gives the colour strings the source writes.
- Summarize: the summary is a structured record, not text. The `toFixed(1)` and `toFixed(2)` rendering of volume and pH (app.js:78) is left out as float-to-decimal formatting.
- Summarize: the key order is pure insertion order. JavaScript's `Object.keys` lists array-index keys such as `"0"` or `"42"` first, in ascending numeric order. Chemical identifiers are names, not numbers, so this is not modelled.
- Identifiers that name an `Object.prototype` property are not modelled: `__proto__`, `constructor`, `toString`, `valueOf`, `hasOwnProperty` and the like. In JavaScript, `components[chem] || 0` (app.js:61) reads the inherited value for such a name on its first pour. For `__proto__` the read yields `Object.prototype`, so the value assigned is the string `"[object Object]1"`; the inherited `__proto__` setter ignores a value that is not an object or null, so the assignment is silently dropped: no key is added and only the volume grows. For the others it stores a string such as `"function toString() { [native code] }1"`, and volume no longer equals the sum of the components. The model treats every identifier as an ordinary key that starts at 0.
- Numbers are exact. The source uses IEEE doubles. Volumes stay exact for integer amounts below 2^53, but the pH values computed by `/5` are rounded in JavaScript (for example 7 - 1/5). The model uses exact rationals.
- Negative and zero amounts are accepted without rejection, as in the source; no rejection behaviour is invented.
- `spawnInstrument` and the `DOMContentLoaded` bindings (app.js:83-116) are left out: they only create entities and wire UI events.
