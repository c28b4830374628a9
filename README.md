# WorldLore landing page — verified model of its behaviour

WorldLore's landing page is a React front end. Most of it is layout and
animation, but eight pieces of it carry logic of their own. This project
models those eight in Dafny and proves what they promise:

- the scripted chat demo of the investment page (`ChatSequencer`);
- the category round-robin of the scenario simulator card (`ScenarioSimulator`);
- the phase stepper, the GeoJSON sampling with its fallback sphere, and the
  map link of the educational section (`EducationalSection`);
- the route and metrics ticker of the mobility dashboard (`MobilityDashboard`);
- the case rotation and the derived figures of the cause-effect chains card
  (`CauseEffectChains`);
- the "Enter" link resolver and the rotating tagline of the hero banner (`Hero`);
- the `useIntersectionObserver` hook with its "seen once" latch
  (`IntersectionObserver`);
- the continent particle expansion, the background sphere, the mouse-driven
  rotation and the render guard of the particle globe (`ParticleGlobe`).

Three shared modules support them. `GeoJson` holds the parsed GeoJSON shapes
and a symbolic point. `UrlText` strips a trailing slash. `Numeric` holds
floor, round, clamp and a few facts of modular arithmetic.

How the browser is represented:

- Every timer callback (`setTimeout`, `setInterval`) is one step: a `Tick` or
  `Next`.
- `Math.random()` is a parameter in [0, 1). Where a loop draws many numbers it
  is a stream `rand: nat -> real`, and the model tracks which draw each number
  uses.
- Trigonometry is not evaluated. A point on a sphere is a symbolic `Vertex`
  (a geographic coordinate, a Fibonacci point or a Marsaglia point). A
  `Float32Array` of positions is a sequence of `Component(vertex, axis, offset)`
  values, so counts, order and jitter bounds can be stated exactly.
- Numbers are exact reals and integers. `Math.round(x)` is `floor(x + 1/2)`.

Where code that mutates state is modelled, the model keeps that form:

- Classes whose methods update fields: `ChatDemo`, `CategoryRotation`,
  `PhraseRotator`, `Dashboard`, `ChainsCard`, `Observer`, `GlobeRotation`.
- Loops with invariants: grouping the pairs, `processGeoData`, the fallback
  sphere, `continentPositions`, `spherePositions`.

Each of these is proved against a pure specification function, and the
properties are proved about that function.

Two behaviours of the code are worth knowing:

- In the educational section, `processGeoData` reads `coordinates[0]` of a
  Polygon, and `polygon[0]` of each polygon of a MultiPolygon. When that ring
  is missing, its `forEach` throws inside the promise chain. The `.catch` then
  installs the 6000-point fallback sphere. The model keeps this path
  (`Emitted` is `None`) rather than assuming well-formed data.
- The mobility dashboard starts with the "Visa" row amber although its status
  "Required" is red in the colour table. The first remap makes every colour
  agree with its status (`ColorsConsistentAfterRemap`).

## Model

| member | source | states |
|---|---|---|
| ChatSequencer.AppendUnlessLast | src/components/InvestmentAI.tsx:79-85 | the transcript ends with `m` afterwards; it is unchanged exactly when it already ended with `m`, and otherwise `m` is appended |
| ChatSequencer.Scheduled | src/components/InvestmentAI.tsx:130-136 | a typing cycle is scheduled exactly when the demo is not complete, the index is in range and the entry is a user line; the restart is scheduled exactly when the demo is complete |
| ChatSequencer.InitialInv | src/components/InvestmentAI.tsx:11-14 | the first render (the greeting alone, index 0) is a reachable state of the chain |
| ChatSequencer.Next | src/components/InvestmentAI.tsx:55-136 | one callback keeps the chain invariant and either leaves the transcript alone, appends one message or resets it to the greeting |
| ChatSequencer.Run | src/components/InvestmentAI.tsx:55-159 | any number of callbacks keeps the chain invariant |
| ChatSequencer.Inputs | src/components/InvestmentAI.tsx:67-73 | the input value after each of n callbacks, one per callback |
| ChatSequencer.RunAdditive | src/components/InvestmentAI.tsx:55-159 | running a + b callbacks is running a, then b |
| ChatSequencer.RestartResets | src/components/InvestmentAI.tsx:146-153 | the restart brings back exactly the first state: the greeting alone, index 0, demo not complete, first typing scheduled |
| ChatSequencer.TypingFromChar | src/components/InvestmentAI.tsx:67-76 | from character k on, the input shows the prefixes of length k, k+1, ... up to the whole line, and then the send is scheduled with the whole line in the input |
| ChatSequencer.TypingShowsPrefixes | src/components/InvestmentAI.tsx:55-76 | a typing cycle shows every prefix of the user line, of lengths 0 to its length, in that order, before the send |
| ChatSequencer.ConversationFlowWellFormed | src/components/InvestmentAI.tsx:16-23 | the script alternates user questions and AI answers and has even length |
| ChatSequencer.SendAppendsQuestion | src/components/InvestmentAI.tsx:76-89 | sending question i appends it to the transcript, empties the input, clears `userTyping`, sets `isTyping` and schedules the reply |
| ChatSequencer.ReplyAppendsAnswer | src/components/InvestmentAI.tsx:92-114 | the reply appends answer i + 1, clears `isTyping`, and either schedules index i + 2 or marks the demo complete when the script is exhausted |
| ChatSequencer.ToAnswered | src/components/InvestmentAI.tsx:55-114 | typing, sending and answering question i takes exactly its length + 4 callbacks and leaves the transcript as the greeting plus the script up to answer i + 1 |
| ChatSequencer.Exchange | src/components/InvestmentAI.tsx:55-153 | one question and answer lead to the start of question i + 2, or back to the greeting after the last answer |
| ChatSequencer.LoopFrom | src/components/InvestmentAI.tsx:55-159 | from the start of any question the demo comes back to its first state |
| ChatSequencer.LoopReturnsToGreeting | src/components/InvestmentAI.tsx:11-159 | the first state is the start of question 0, and one whole loop returns to it |
| ChatSequencer.LoopsReturnToGreeting | src/components/InvestmentAI.tsx:11-159 | after any number of whole loops the demo shows the greeting alone again |
| ChatSequencer.ChatDemo.constructor | src/components/InvestmentAI.tsx:11-31 | mounting gives the first state over the given script with the real greeting |
| ChatSequencer.ChatDemo.Tick | src/components/InvestmentAI.tsx:55-159 | the pending callback updates the component's fields exactly as `Next` says |
| ScenarioSimulator.Filter | src/components/ScenarioSimulator.tsx:56-60 | a category's group is never longer than the pairs it is taken from |
| ScenarioSimulator.FilterAppend | src/components/ScenarioSimulator.tsx:57-60 | one more pair extends the group of its own category at the end and no other group |
| ScenarioSimulator.FilterSound | src/components/ScenarioSimulator.tsx:56-60 | a group holds only pairs of its category, all from the input |
| ScenarioSimulator.FilterComplete | src/components/ScenarioSimulator.tsx:56-60 | no pair is lost: each pair is in the group of its category |
| ScenarioSimulator.FilterAbsent | src/components/ScenarioSimulator.tsx:58 | a category that does not occur has an empty group |
| ScenarioSimulator.CategoryHasPairs | src/components/ScenarioSimulator.tsx:58-59 | a category that occurs has a non-empty group |
| ScenarioSimulator.BuildGroups | src/components/ScenarioSimulator.tsx:56-60 | the dictionary has one key per category occurring in the pairs, and each entry is that category's pairs in their original order |
| ScenarioSimulator.VisitAdvances | src/components/ScenarioSimulator.tsx:73-80 | a category's offset is its number of visits modulo its group size, and one visit keeps it so |
| ScenarioSimulator.StartOffsetsFollow | src/components/ScenarioSimulator.tsx:63-64 | every category of the order starts at offset 0 with no visits, which keeps each offset equal to its visits modulo its group size |
| ScenarioSimulator.CategoryRotation.constructor | src/components/ScenarioSimulator.tsx:50-84 | with no pairs nothing runs and both messages stay empty; otherwise the groups are built, the index starts at Social, the simulated line is empty, and the first visit has been made: when Social has pairs its offset is `1 mod size`, its visit count 1, the baseline of its first pair is shown and that pair's simulated line is pending, every other category of the order being at 0; when Social has none every offset is 0 and nothing is shown |
| ScenarioSimulator.CategoryRotation.ShowFirstCategory | src/components/ScenarioSimulator.tsx:84 | from all offsets at 0, the immediate visit of Social shows its first pair and moves only Social's offset and visit count, to `1 mod size` and 1; with no Social pairs nothing changes |
| ScenarioSimulator.CategoryRotation.ShowPairForCategory | src/components/ScenarioSimulator.tsx:70-81 | a category with no group changes no message and no offset; otherwise its pair at `offset mod size` is shown, baseline now and simulated line pending from the same pair, and only that category's offset moves to `(idx + 1) mod size` and its visit count by one |
| ScenarioSimulator.CategoryRotation.Tick | src/components/ScenarioSimulator.tsx:86-89 | the index moves to `(i + 1) mod 5` and that category is visited as `ShowPairForCategory` says; a category with no pairs leaves the messages, the pending reply and the offsets as they were; the groups, the simulated line and the running flag never change; nothing moves when the effect did not start |
| ScenarioSimulator.CategoryRotation.DeliverReply | src/components/ScenarioSimulator.tsx:76-78 | the reply timer shows the simulated line of the pair last shown |
| EducationalSection.HandleNext | src/components/EducationalSection.tsx:288-290 | the phase goes up by one and never past 3 |
| EducationalSection.HandleBack | src/components/EducationalSection.tsx:292-294 | the phase goes down by one and never below 0 |
| EducationalSection.BackNextInverse | src/components/EducationalSection.tsx:286-294 | Back undoes Next below the last phase, and Next undoes Back above the first |
| EducationalSection.EndsAreFixed | src/components/EducationalSection.tsx:286-294 | Next stays at phase 3 and Back stays at phase 0 |
| EducationalSection.PhaseAfter | src/components/EducationalSection.tsx:285-294 | any sequence of clicks from phase 0 stays within phases 0 to 3 |
| EducationalSection.NextClicksReachPhase | src/components/EducationalSection.tsx:285-290 | k clicks on Next reach phase min(k, 3) |
| EducationalSection.ControlsFor | src/components/EducationalSection.tsx:443-466 | Back is disabled exactly on phase 0; Next is shown exactly below phase 3, otherwise the map link with the resolved URL |
| EducationalSection.LinkOnlyOnLastPhase | src/components/EducationalSection.tsx:443-466 | on every phase reachable by clicking, the map link is offered exactly on the last phase |
| EducationalSection.PhaseConfig | src/components/EducationalSection.tsx:23-37 | phases 0 to 3 cap at 18000 + 2000 × phase points with their colours; any other phase gets the phase-0 configuration |
| EducationalSection.Flat | src/components/EducationalSection.tsx:51-60 | each coordinate becomes three numbers on the 2.23 sphere |
| EducationalSection.FlatAppend | src/components/EducationalSection.tsx:48-60 | the numbers of two coordinate runs are those of each run, one after the other |
| EducationalSection.Cap | src/components/EducationalSection.tsx:45-49 | the kept coordinates are a prefix of the input, as long as the room allows and no longer |
| EducationalSection.CapAppend | src/components/EducationalSection.tsx:45-49 | capping two runs caps the first, then the second with the room left |
| EducationalSection.ConcatSnoc | src/components/EducationalSection.tsx:68-70 | the rings walked for one more polygon follow those already walked |
| EducationalSection.FirstRings | src/components/EducationalSection.tsx:68-70 | when every polygon has a first ring, there is one per polygon |
| EducationalSection.FirstRingsMeaning | src/components/EducationalSection.tsx:68-70 | `polygon[0]` fails exactly when some polygon has no ring; otherwise the k-th ring walked is the first ring of polygon k |
| EducationalSection.Emitted | src/components/EducationalSection.tsx:39-75 | the coordinates emitted never exceed the cap |
| EducationalSection.PrependNothing | src/components/EducationalSection.tsx:40-44 | nothing taken before leaves the result as it is |
| EducationalSection.PrependTwice | src/components/EducationalSection.tsx:44-72 | two batches taken one after the other are one batch |
| EducationalSection.EmittedStep | src/components/EducationalSection.tsx:44-72 | a feature met with room left throws when its ring is missing, and otherwise adds its first rings, capped, before the rest |
| EducationalSection.EmittedIsCappedPrefix | src/components/EducationalSection.tsx:39-75 | when no feature is malformed, the points are exactly the first maxPoints outer-ring coordinates of the features, in file order |
| EducationalSection.FailureNeedsMalformed | src/components/EducationalSection.tsx:65-71 | processing throws only when some feature lacks the ring it reads |
| EducationalSection.ProcessCoordinates | src/components/EducationalSection.tsx:47-63 | the loop pushes the numbers of the coordinates the room allows, in order, and the count never passes the cap |
| EducationalSection.ProcessMultiPolygon | src/components/EducationalSection.tsx:67-71 | it succeeds exactly when every polygon has a first ring, and then pushes those rings, capped, in order |
| EducationalSection.ProcessFeature | src/components/EducationalSection.tsx:44-71 | a feature succeeds exactly when its geometry is walkable; a Polygon pushes its outer ring and a MultiPolygon its polygons' outer rings, capped; other types push nothing |
| EducationalSection.ProcessGeoData | src/components/EducationalSection.tsx:39-75 | the positions are those of the emitted coordinates for the phase's cap, or failure when a feature throws; there are at most 3 × maxPoints numbers |
| EducationalSection.EmittedFull | src/components/EducationalSection.tsx:45 | a feature met when the cap is reached adds nothing |
| EducationalSection.EmittedAdvance | src/components/EducationalSection.tsx:44-72 | the loop's running result moves past one feature: failure for a malformed one, otherwise its capped rings are taken |
| EducationalSection.EmittedDone | src/components/EducationalSection.tsx:72-74 | after the last feature the result is what was taken |
| EducationalSection.FibonacciSphere | src/components/EducationalSection.tsx:78-91 | n Fibonacci points give 3n numbers, each of a point with index below n |
| EducationalSection.FibonacciPointAt | src/components/EducationalSection.tsx:81-88 | point i sits at numbers 3i to 3i + 2 |
| EducationalSection.GenerateFallbackParticles | src/components/EducationalSection.tsx:78-91 | the loop produces `count` Fibonacci points in order |
| EducationalSection.LoadParticles | src/components/EducationalSection.tsx:93-112 | the particles are never empty: the processed points when the file loads and yields some, otherwise the 6000-point fallback |
| EducationalSection.MapUrl | src/components/EducationalSection.tsx:274-279 | a set base loses one trailing slash and gains "/map"; otherwise port 5174 gives the app on localhost:5173, and anything else gives "/map" |
| MobilityDashboard.NextRoute | src/components/MobilityHeroSection.tsx:97-98 | the route index advances by one and wraps from 3 to 0 |
| MobilityDashboard.RouteCycle | src/components/MobilityHeroSection.tsx:36-98 | four ticks bring back the same route |
| MobilityDashboard.ColorOf | src/components/MobilityHeroSection.tsx:102-116 | a status in the table gets its colour, any other status amber |
| MobilityDashboard.Remap | src/components/MobilityHeroSection.tsx:109-117 | a row keeps its type, takes the route's status for that type or keeps its old status, and is coloured from its new status |
| MobilityDashboard.RemapAll | src/components/MobilityHeroSection.tsx:101-118 | the rows keep their number and order, each remapped |
| MobilityDashboard.RemapIdempotent | src/components/MobilityHeroSection.tsx:101-118 | remapping twice under one route is remapping once |
| MobilityDashboard.ColorsConsistentAfterRemap | src/components/MobilityHeroSection.tsx:88-118 | after a remap every colour agrees with its status, which the initial "Visa" row does not |
| MobilityDashboard.StepCountries | src/components/MobilityHeroSection.tsx:124 | the count never exceeds 195, stays or grows by one, and never drops when in range |
| MobilityDashboard.CountriesStayAtMax | src/components/MobilityHeroSection.tsx:124 | starting at 195 the count never moves |
| MobilityDashboard.StepDataPoints | src/components/MobilityHeroSection.tsx:125 | each tick adds between 5 and 19 data points |
| MobilityDashboard.StepAccuracy | src/components/MobilityHeroSection.tsx:126-129 | the rate moves a tenth up or down, stays within [95, 99] and has one decimal |
| MobilityDashboard.DecimalString | src/components/MobilityHeroSection.tsx:136 | a number is written with at least one decimal digit |
| MobilityDashboard.DecimalRoundTrip | src/components/MobilityHeroSection.tsx:136 | the digits read back to the number they were written from |
| MobilityDashboard.StepTrend | src/components/MobilityHeroSection.tsx:132-142 | the bar keeps its name, colour and base; its value is the rounded, clamped base plus fluctuation, within [20, 95] and within 2 of an in-range base |
| MobilityDashboard.TrendLabelMeaning | src/components/MobilityHeroSection.tsx:135-141 | the label starts with "+" exactly when the bar rose above the value shown before, ends in "%", and its number is at most 2 |
| MobilityDashboard.StepTrends | src/components/MobilityHeroSection.tsx:132-143 | every bar is stepped with its own draw, in order |
| MobilityDashboard.Dashboard.constructor | src/components/MobilityHeroSection.tsx:23-93 | the dashboard starts at route 0 with 195 countries, 2847 data points, 97.3% and the initial bars and rows |
| MobilityDashboard.Dashboard.Tick | src/components/MobilityHeroSection.tsx:95-146 | one tick moves to the next route, remaps the rows under it, and steps every metric by its rule |
| CauseEffectChains.Variants | src/components/CauseEffectChains.tsx:17-87 | every scenario has three variants |
| CauseEffectChains.Cases | src/components/CauseEffectChains.tsx:105-114 | there are exactly three cards, agri, rates and shipping in that order, each on variant `cycleIndex mod 3` |
| CauseEffectChains.Find | src/components/CauseEffectChains.tsx:217-218 | the result is the first card with the id (no earlier card has it), and there is none exactly when no card has it |
| CauseEffectChains.ActiveCaseAlwaysFound | src/components/CauseEffectChains.tsx:216-222 | the reasoning box always finds the selected card, so its null branch never runs |
| CauseEffectChains.ChainsCard.constructor | src/components/CauseEffectChains.tsx:90-102 | the counter starts at 0 and the selector at agri |
| CauseEffectChains.ChainsCard.Tick | src/components/CauseEffectChains.tsx:91-102 | the counter goes up by one and the selector jumps to `order[cycleIndex mod 3]`, overriding any click |
| CauseEffectChains.ChainsCard.Select | src/components/CauseEffectChains.tsx:138 | a click selects the scenario and leaves the counter alone |
| CauseEffectChains.ChainsCard.ActiveCase | src/components/CauseEffectChains.tsx:217-218 | the reasoning box explains the selected scenario's current variant |
| CauseEffectChains.RotationShowsDiagonal | src/components/CauseEffectChains.tsx:99-114 | without clicks the box explains variant k of the k-th scenario, and the selection repeats every three ticks |
| CauseEffectChains.SeqMin | src/components/CauseEffectChains.tsx:158 | the minimum is a value of the series, no greater than any other |
| CauseEffectChains.SeqMax | src/components/CauseEffectChains.tsx:159 | the maximum is a value of the series, no smaller than any other |
| CauseEffectChains.ChangePct | src/components/CauseEffectChains.tsx:160-162 | the change is non-negative exactly when the last value is at least the first, and zero exactly when they are equal |
| CauseEffectChains.ChangeFromHundred | src/components/CauseEffectChains.tsx:162 | on an index starting at 100 the change is the last value minus 100 |
| CauseEffectChains.VariantSeriesShape | src/components/CauseEffectChains.tsx:17-87 | every series has seven points and starts at 100 |
| CauseEffectChains.SparkX | src/components/CauseEffectChains.tsx:165 | x lies in [0, 100], the first point at 0 and the last at 100 |
| CauseEffectChains.SparkXEqualSteps | src/components/CauseEffectChains.tsx:165 | consecutive points are evenly spaced, 100 / (n - 1) apart |
| CauseEffectChains.SparkXIncreasing | src/components/CauseEffectChains.tsx:165 | later points lie further right |
| CauseEffectChains.SparkY | src/components/CauseEffectChains.tsx:166 | y lies in [2, 22], the minimum at 22 and, when not flat, the maximum at 2; a flat series sits at 22 |
| CauseEffectChains.SparkYMonotone | src/components/CauseEffectChains.tsx:166 | higher values are drawn higher up |
| CauseEffectChains.Sparkline | src/components/CauseEffectChains.tsx:163-169 | one point per value, each at its x and y |
| CauseEffectChains.SparklineSpansHeight | src/components/CauseEffectChains.tsx:158-169 | a series that is not flat touches both 22 and 2 |
| CauseEffectChains.Confidence | src/components/CauseEffectChains.tsx:222 | the confidence lies in [65, 90]: 90 for changes of 25% or more, 65 for no change |
| CauseEffectChains.ConfidenceMonotone | src/components/CauseEffectChains.tsx:222 | a larger change never lowers the confidence |
| Hero.MapUrl | src/components/Hero.tsx:5-28 | the link always ends in "/map"; a set base wins and loses one trailing slash; with no base it is "/map" outside development and also in development on any port but 5174 and any host but localhost and 127.0.0.1 |
| Hero.BaseUrlTakesPriority | src/components/Hero.tsx:7-8 | with a base set, nothing the browser reports changes the link |
| Hero.DevPortPointsAtApp | src/components/Hero.tsx:11-17 | in development on port 5174 the link is the app on localhost:5173 |
| Hero.DevLocalHostKeepsHost | src/components/Hero.tsx:19-23 | in development on a local host and another port the link keeps protocol and host with port 5173 |
| Hero.NextIndex | src/components/Hero.tsx:51 | the phrase index advances by one and wraps to 0 after the last |
| Hero.Advance | src/components/Hero.tsx:51 | any number of advances stays in range |
| Hero.AdvanceIsModular | src/components/Hero.tsx:51 | k advances add k modulo the number of phrases |
| Hero.RotationReturns | src/components/Hero.tsx:36-51 | after as many advances as there are phrases the index is back where it started |
| Hero.PhraseRotator.constructor | src/components/Hero.tsx:34 | the tagline starts on the first phrase, index 0, fully visible, not rotating |
| Hero.PhraseRotator.Start | src/components/Hero.tsx:61-69 | the rotation is installed exactly when reduced motion is not requested |
| Hero.PhraseRotator.Tick | src/components/Hero.tsx:43-58 | with the paragraph present the index advances and the new phrase is shown at full opacity; nothing happens without the paragraph or the rotation |
| IntersectionObserver.Resolve | src/hooks/useIntersectionObserver.ts:17 | each option given is kept; a missing one defaults to 0.1, "50px" and true |
| IntersectionObserver.ResolveDefaults | src/hooks/useIntersectionObserver.ts:17 | an empty options object gives exactly the defaults |
| IntersectionObserver.Replay | src/hooks/useIntersectionObserver.ts:24-31 | both flags start false, and `isIntersecting` is the latest report |
| IntersectionObserver.LatchMeansSeenOnce | src/hooks/useIntersectionObserver.ts:28-31 | the latch is set exactly when some report said intersecting |
| IntersectionObserver.LatchIsMonotone | src/hooks/useIntersectionObserver.ts:28-31 | once set, the latch stays set whatever is reported next |
| IntersectionObserver.Observer.constructor | src/hooks/useIntersectionObserver.ts:12-21 | the options are resolved and both flags start false |
| IntersectionObserver.Observer.Report | src/hooks/useIntersectionObserver.ts:19-31 | an attached observer records the report and keeps the flags equal to the replay; without an element nothing changes; the latch is written at most once |
| IntersectionObserver.Observer.HasIntersected | src/hooks/useIntersectionObserver.ts:40-44 | with `triggerOnce` it says whether the element was ever seen, otherwise whether it is seen now |
| ParticleGlobe.Kept | src/components/ParticleGlobe.tsx:95-97 | a ring keeps at most its own coordinates |
| ParticleGlobe.KeptLength | src/components/ParticleGlobe.tsx:95-97 | a ring of n coordinates keeps (n + 1) / 2 of them |
| ParticleGlobe.KeptIsEvenIndexed | src/components/ParticleGlobe.tsx:95-97 | the kept coordinates are exactly those at indices 0, 2, 4, ... |
| ParticleGlobe.Jitter | src/components/ParticleGlobe.tsx:113-119 | a jitter lies in [-0.0025, 0.0025) |
| ParticleGlobe.Triple | src/components/ParticleGlobe.tsx:115-125 | one jittered copy is three numbers |
| ParticleGlobe.Jitters | src/components/ParticleGlobe.tsx:114-126 | n jittered copies are 3n numbers |
| ParticleGlobe.Cluster | src/components/ParticleGlobe.tsx:106-126 | a kept coordinate yields twelve numbers: its base point and three jittered copies |
| ParticleGlobe.Expand | src/components/ParticleGlobe.tsx:91-167 | the positions number 12 per kept coordinate |
| ParticleGlobe.ExpandSnoc | src/components/ParticleGlobe.tsx:95-126 | one more kept coordinate adds its cluster, drawn from the next nine random numbers |
| ParticleGlobe.ExpandAppend | src/components/ParticleGlobe.tsx:91-167 | the positions of two runs are those of each run, the second drawing where the first stopped |
| ParticleGlobe.ExpandSingle | src/components/ParticleGlobe.tsx:106-126 | a single kept coordinate gives exactly its cluster |
| ParticleGlobe.OffsetsBounded | src/components/ParticleGlobe.tsx:106-126 | every number of the continent positions is moved by less than 0.0025 either way from its point |
| ParticleGlobe.JittersBounded | src/components/ParticleGlobe.tsx:113-119 | every jittered offset lies in [-0.0025, 0.0025) |
| ParticleGlobe.PushCluster | src/components/ParticleGlobe.tsx:106-126 | the loop pushes the base point then three jittered copies, using nine draws |
| ParticleGlobe.ProcessRing | src/components/ParticleGlobe.tsx:95-127 | a ring pushes the clusters of its even-indexed coordinates, in order |
| ParticleGlobe.ProcessRings | src/components/ParticleGlobe.tsx:93-128 | a polygon pushes the clusters of all its rings, in order |
| ParticleGlobe.ProcessPolygons | src/components/ParticleGlobe.tsx:130-165 | a MultiPolygon pushes the clusters of every ring of every polygon, in order |
| ParticleGlobe.ProcessFeature | src/components/ParticleGlobe.tsx:92-166 | a feature pushes the clusters its geometry keeps; other types push nothing |
| ParticleGlobe.ContinentPositions | src/components/ParticleGlobe.tsx:84-170 | no data gives no positions; otherwise the clusters of every kept coordinate in file order, 12 numbers each |
| ParticleGlobe.RenderGuard | src/components/ParticleGlobe.tsx:230-232 | nothing renders before the data loads, and afterwards the globe renders exactly when some coordinate is kept |
| ParticleGlobe.MarsagliaSphere | src/components/ParticleGlobe.tsx:66-78 | n points give 3n numbers, all Marsaglia points with no offset |
| ParticleGlobe.SpherePointAt | src/components/ParticleGlobe.tsx:68-77 | point i uses exactly draws 2i and 2i + 1 |
| ParticleGlobe.SpherePositions | src/components/ParticleGlobe.tsx:61-81 | the background sphere has 2000 points, 6000 numbers |
| ParticleGlobe.GlobeRotation.constructor | src/components/ParticleGlobe.tsx:40-41 | mouse, target and current rotation start at zero |
| ParticleGlobe.GlobeRotation.MouseMove | src/components/ParticleGlobe.tsx:205-221 | the mouse position is rescaled so that the window spans [-1, 1], and the target is clamped to ±π/4 vertically and ±π/2 horizontally |
| ParticleGlobe.GlobeRotation.Frame | src/components/ParticleGlobe.tsx:179-181 | the current rotation moves the fraction `lerpFactor` toward the target and never ends further from it |
| ParticleGlobe.Between | src/components/ParticleGlobe.tsx:180-181 | an interpolation step lands between its ends, no further from the target |
| ParticleGlobe.MouseLimits | src/components/ParticleGlobe.tsx:207-220 | inside the window the horizontal target is never clamped, while the vertical one saturates at the edges |
| UrlText.StripTrailingSlash | src/components/Hero.tsx:8 | at most one character goes, and it goes exactly when the string ends with "/" |
| UrlText.StripRemovesOneSlash | src/components/Hero.tsx:8 | a base ending in "//" keeps one slash |
| UrlText.MapSuffix | src/components/Hero.tsx:8 | appending the map path gives a link ending in "/map" |

## Left out

- Timer delays and cleanup are not modelled: 50 ms, 1000 ms, 2000 ms, 2500 ms, 3000 ms, 4000 ms and 5200 ms, `clearTimeout`/`clearInterval`, and the stale-timer cleanup of the chat effect. Each callback is one step, taken in the order the chain schedules it.
- React rendering, re-running effects when options change, StrictMode double effects, and `useFrame` scheduling are left out. The components are modelled from one mount on.
- `fetch('/world.geo.json')` and JSON parsing are left out. The parsed file is an input, and a failed fetch or parse is `None`. `console.error` is left out.
- The browser `IntersectionObserver` object is left out. Its reports are the input sequence.
- Trigonometric values are left out (spherical to Cartesian conversion, `Math.acos`, `Math.sqrt`, Fibonacci and Marsaglia placement), as are `Float32Array` rounding and floating-point error. Points are symbolic and numbers are exact.
- `GlobeRotation.Frame` takes the interpolation factor as a parameter in [0, 1]. `1 - Math.pow(0.85, delta * 60)` is not computed.
- The automatic rotation in the frame loop is left out: `time * 0.03` and the `Math.sin` sway of both globes. The per-phase rotation of the educational globe is left out too.
- String formatting for display is left out: `toFixed(1)` of the change percentage, the sparkline's "x,y" string, `toLocaleString`. `toFixed(0)` of the trend distance is modelled as rounding.
- `EducationalSection.ProcessCoordinates`: takes the sampling rate as 1, the value every phase configuration has. The `index % samplingRate` test is therefore always false.
- `CauseEffectChains.ChangePct` requires a positive first value, and `CauseEffectChains.SparkX` requires a series of at least two points. Every series in the data meets both; the division by zero and NaN of other series are not modelled.
- `ParticleGlobe.GlobeRotation.MouseMove` requires a window of positive size. A zero-sized window would divide by zero.
- A feature whose `geometry` is null is not modelled: a `GeoJson.Feature` always holds a geometry. On the page `feature.geometry.type` then throws. In the educational section the throw is inside the `.then` (src/components/EducationalSection.tsx:44-65), so the `.catch` installs the fallback sphere; `EducationalSection.Emitted` and `EducationalSection.ProcessGeoData` do not take that path for it. In the particle globe the throw is inside `useMemo` (src/components/ParticleGlobe.tsx:91-92), a render error that `ParticleGlobe.ContinentPositions` does not model.
- Malformed coordinates are not modelled: a coordinate that is not a pair of numbers, NaN or Infinity. A coordinate is a pair of reals.
- The input field's no-op change handler and its `disabled` attribute are left out (src/components/InvestmentAI.tsx:499-500). No operation in the model writes the input except the typing chain.
- `CategoryRotation` keeps a single pending reply, which the next visit overwrites. The page keeps one timer per visit; since the 900 ms reply fires before the next 5200 ms tick, a single slot holds every reply that can be pending.
- The chat lemmas about whole exchanges and loops need an AI greeting (`greeting.sender == Ai`). The page's greeting is one; the lemmas take it as a parameter so that the long greeting text stays out of the proofs.
- The scroll listener, auto-scroll and other DOM effects of the investment page are left out. The counters of the platform and robotics sections are left out too; each is a `(i + 1) % n` rotation like `Hero.AdvanceIsModular`.
