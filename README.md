# Human Design calculator — a verified model of its symbolic core

This project models, in Dafny, the deterministic part of a Human Design
chart calculator and the scripts that embed its gene-keys CSV into the web
page. It covers:

- **The mandala.** An ecliptic longitude becomes a gate (1–64, in the mandala
  order that starts at gate 41) and a line (1–6). A longitude becomes a
  zodiac sign, and a speed becomes a dignity arrow.
- **Motion.** A body's speed is sampled at ±0.001 days, and the ±180°
  correction is applied either before or after the division.
- **The design date.** A clamped Newton search looks back for the moment
  the Sun stood 88° behind its birth longitude. The search makes at most 200
  iterations and falls back to the first estimate when it overshoots the birth.
- **The planet lists.** Thirteen bodies are read at birth (Personality) and
  at the design date (Design). Earth and the South Node are derived by
  opposition. When the ephemeris fails, seeded fallback lists replace the
  readings.
- **The simulated centers.** Three to seven of the nine centers are defined
  by a seeded probe, and all of them are cleared for 5% of the seeds.
- **The classifications.** These are the type and strategy, the inner
  authority, the not-self theme, the profile, the channels both of whose
  gates are activated, and the decision mode. The decision mode counts the
  connected components of the defined centers, found with a depth-first
  search.
- **The two serverless entry points.** The full `calculate_human_design`
  returns the whole report. The minimal edition returns type, strategy and
  authority, behind `lambda_handler`'s HTTP checks.
- **The embed scripts.** They escape the CSV for a JavaScript template
  literal, then splice it into `const EMBEDDED_CSV_DATA = `…`;` with Python's
  `re.sub` and a replacement *template*. The model follows Python's template
  parser, which handles `\\`, `\1`–`\99`, octal escapes and the error
  cases.

The ephemeris, the MD5 digests of the seed strings, and the JSON decoder are
parameters of the model. Longitudes are exact `real`s.

| file | module | models |
|---|---|---|
| wrappers.dfy | Wrappers | `Option`, `Result` |
| text.dfy | Text | `int()` on strings (Unicode digits and spaces included), f-strings of integers, `in` on strings, `split`/`join` |
| mandala.dfy | Mandala | `%`, `int()` on floats, `degrees_to_gate_line`, `longitude_to_zodiac`, `get_dignity_arrow` |
| motion.dfy | Motion | the sampled speed and its ±180° correction |
| design_date.dfy | DesignSearch | `calculate_design_date` as functions of the ephemeris |
| design_date.dfy | Solver | the Newton loop and `calculate_design_date` as methods |
| chart.dfy | Chart | `get_planet_position_and_speed`, `get_planet_positions`, `generate_planet_gate_line` and the fallback lists |
| centers.dfy | Centers | the nine centers, `simulate_gate_activations` |
| channels.dfy | Channels | `HUMAN_DESIGN_CHANNELS`, `calculate_defined_channels_from_gates` |
| classify.dfy | Classify | `determine_type`, `determine_authority`, `get_not_self_theme`, `calculate_profile` |
| decision.dfy | Decision | `calculate_decision_mode` and its `dfs` |
| orchestration.dfy | Orchestration | the birth-minute parsing and the Netlify `calculate_human_design` |
| handler.dfy | Handler | the minimal `calculate_human_design` and `lambda_handler` |
| escape.dfy | Escape | the escape chain, the template literal read back |
| template.dfy | Template | Python's `re` replacement-template parser and expansion |
| splice.dfy | Splice | `re.sub` with a lazy `(open).*?(close)` pattern under DOTALL |
| embed.dfy | Embed | the seven embed scripts |

## Model

| member | source | states |
|---|---|---|
| Text.NatToStringDigits | app.py:654 | the f-string of a natural number is a non-empty digit string, without a leading zero, whose value is the number |
| Text.PyIntOfIntToString | app.py:1174 | `int()` reads the f-string of any integer that `str()` writes (at most 4300 digits) back as that integer |
| Text.IntToStringChars | app.py:654 | the f-string of an integer holds only '-' and digits |
| Text.PyIntUnsigned | netlify/functions/calculate_hd/__init__.py:306-309 | `int()` accepts an unpadded, unsigned digit string with its value |
| Text.PyIntNegative | netlify/functions/calculate_hd/__init__.py:306-309 | `int()` of '-' followed by a digit string is the negated value |
| Text.StripLeft | netlify/functions/calculate_hd/__init__.py:307 | the leading-whitespace strip that `int()` applies leaves a suffix starting with a non-space |
| Text.StripRight | netlify/functions/calculate_hd/__init__.py:307 | the trailing strip leaves a prefix ending with a non-space |
| Text.PyIntDigitLimit | netlify/functions/calculate_hd/__init__.py:306-317 | a digit string is read with its value exactly when it has at most 4300 digits, leading zeros included; a longer one is refused |
| Text.SmallFits | app.py:654 | every integer of magnitude below 4300 is short enough for `str()` |
| Text.ScriptDigits | netlify/functions/calculate_hd/__init__.py:307-309 | the ten digits of each of the 67 decimal scripts have the values 0 to 9 |
| Text.WideSpaceNotDigit | netlify/functions/calculate_hd/__init__.py:307-309 | no Unicode space is a decimal digit |
| Text.PyIntOtherScript | netlify/functions/calculate_hd/__init__.py:307-309 | a numeral written in the digits of any script has the value of its ASCII twin |
| Text.PyIntPadded | netlify/functions/calculate_hd/__init__.py:307-309 | ASCII or Unicode whitespace around a text does not change what `int()` reads |
| Text.PyIntNoBreakSpaceInput | netlify/functions/calculate_hd/__init__.py:307 | `int("\xa05")` is 5 |
| Text.PyIntIdeographicSpaceInput | netlify/functions/calculate_hd/__init__.py:307 | `int("\u30005")` is 5 |
| Text.PyIntFullwidthInput | netlify/functions/calculate_hd/__init__.py:307 | `int("１２")` is 12, like `int("12")` |
| Text.ContainsFromIff | app.py:1136-1146 | the substring scan finds `sub` exactly when it occurs at some position |
| Text.AbsentChar | app.py:1136-1146 | a string lacking one character of `sub` does not contain `sub` |
| Text.ContainsAt | app.py:1136-1146 | an occurrence at a position is found |
| Text.FirstIndex | app.py:1174 | the first separator: none before it, and it is one unless it is the end |
| Text.SplitPair | app.py:1174 | two separator-free strings joined by the separator split back into exactly those two |
| Text.JoinSplit | app.py:1174 | joining the parts of `split` gives the string back, and no part holds the separator |
| Mandala.Mod360 | app.py:173-175 | Python's float `% 360.0` lies in [0, 360) and differs from the input by whole turns |
| Mandala.ModGate | app.py:238 | `% GATE_DEGREE` lies in [0, 5.625) and differs from the input by whole gates |
| Mandala.Trunc | app.py:229 | `int()` on a float truncates toward zero |
| Mandala.Mod360Shift | app.py:173-175 | adding whole turns does not change `% 360.0` |
| Mandala.Mod360Congruent | app.py:173-175 | values a whole number of turns apart have the same residue |
| Mandala.MandalaGateInverse | app.py:134-143 | every slice of the mandala holds a gate in 1..64, and the inverse table finds the slice again |
| Mandala.MandalaPositionInverse | app.py:141-143 | every gate 1..64 lies in exactly one slice: the sequence is a permutation of 1..64 |
| Mandala.DegreesToGateLine | app.py:186-250 | the gate is in 1..64 and the line in 1..6 |
| Mandala.GateLinePeriodic | app.py:186-250 | the gate and line depend only on the longitude modulo 360 |
| Mandala.AdjustedToGateLine | app.py:226-248 | a mandala offset in slice `index` and line `line` gives that index and that line |
| Mandala.GateLineArc | app.py:186-250 | every point of the 0.9375° arc starting at a line's start longitude maps to that gate and line |
| Mandala.AnchorZero | app.py:193-196 | 0° is in gate 25 |
| Mandala.AnchorHalfTurn | app.py:193-196 | 180° is in gate 46 |
| Mandala.AnchorGate41 | app.py:193-196 | 302° is line 1 of gate 41 |
| Mandala.ZodiacBands | app.py:146-159 | the twelve signs are consecutive 30° bands from 0° |
| Mandala.LongitudeToZodiac | app.py:162-183 | the sign found by the scan is the sign of band ⌊(longitude mod 360)/30⌋ |
| Mandala.ZodiacBand | app.py:176-183 | the first band holding a reduced longitude is band ⌊longitude/30⌋ |
| Mandala.GetDignityArrow | app.py:492-519 | ▼ exactly when the speed is below −0.001; ▲ exactly when it is above 0.001 on lines 4–6; nothing otherwise |
| Motion.Wrap180Range | app.py:320-323 | the ±180° correction changes a value by at most one turn, keeps [−180, 180], and brings (−360, 360) into [−180, 180] |
| Motion.WrapThenDivideMeasuresMovement | app.py:340-347 | correcting the difference before dividing gives the true movement over 0.002 days, across the 0° seam too |
| Motion.DivideThenWrapAtSeam | app.py:466-471 | dividing before correcting turns a 0.002° step across 0° into −179639°/day |
| Motion.OrdersAgreeOffSeam | app.py:466-471 | for a movement of at most 0.36° the two orders give the same speed |
| DesignSearch.DaysEstimate | app.py:303 | 88 / 0.9856 lies between 89 and 90 days |
| DesignSearch.TargetLongitude | app.py:294-298 | the target longitude lies in [0, 360) |
| DesignSearch.TargetIsArcBehind | app.py:294-298 | the target plus 88° is the birth Sun longitude, modulo 360 |
| DesignSearch.OffsetIsShortestArc | app.py:318-323 | the corrected offset of two longitudes in [0, 360) lies in [−180, 180] |
| DesignSearch.StepRate | app.py:340-351 | the rate used to divide is never smaller than 0.001 in magnitude |
| DesignSearch.Step | app.py:356-361 | one Newton step moves at most 10 days |
| DesignSearch.SearchBounds | app.py:309-363 | the search ends within 200 iterations, moves at most 10 days per step, and reports convergence only within the 0.00001° tolerance |
| DesignSearch.SearchStep | app.py:312-363 | an iteration that misses the tolerance continues from the stepped date |
| DesignSearch.DesignDateOfSearch | app.py:366-371 | the design date is the search result, or the first estimate when the result lies after the birth |
| DesignSearch.DesignDateProperties | app.py:253-371 | the design date is never after the birth, lies within 2000 days of the estimate, and is the converged date whenever that one is not after the birth |
| Solver.NewtonSearch | app.py:309-363 | the loop computes exactly the search function's date |
| Solver.CalculateDesignDate | app.py:253-371 | the method returns the design date, which is never after the birth |
| Chart.KnownNames | app.py:374-458 | a position is computed exactly for the thirteen known names; any other name is an error |
| Chart.OppositeFacts | app.py:408-456 | a derived body is 180° from its source, moves at the negated speed, and lies in the gate and line of source + 180° |
| Chart.DerivedBodies | app.py:406-456 | Earth is the Sun's opposite and the South Node the True Node's; Sun and North Node are read directly |
| Chart.GateSignNamed | app.py:92-104 | every gate 1..64 has a name in the table, so the `卦{gate}` default is never used |
| Chart.ReadingFacts | app.py:645-659 | a reading keeps the body and longitude, has the gate and line of the longitude and the gate's name, and its "gate.line" label splits back into the gate and the line |
| Chart.LabelSplits | app.py:654 | "gate.line" splits at '.' into the two numbers, which `int()` reads back |
| Chart.Observe | app.py:645-659 | one observation is the reading of that body at that instant |
| Chart.GetPlanetPositions | app.py:589-678 | both lists hold the readings of all thirteen bodies in order: the Personality list at the birth, the Design list at the design date |
| Chart.SunFirst | app.py:74-88 | the Sun is the first body and appears only once |
| Chart.FallbackRange | app.py:682-719 | a seeded gate is in 1..64 and its line in 1..6, and the two have the same parity |
| Chart.FallbackReachable | app.py:705-708 | every gate and line of the same parity is produced by some seed |
| Chart.FallbackList | app.py:722-753 | a fallback list has one entry per body |
| Centers.CenterIndex | app.py:64-67 | every center has its own index in the center list |
| Centers.CentersEnumerated | app.py:64-67 | the center list and the indices agree, and center names are distinct |
| Centers.DefinedListFacts | app.py:1010 | the defined-center list holds exactly the defined centers, each once, and has as many entries as there are defined centers |
| Centers.FreeIndex | app.py:787-788 | while fewer than nine indices are taken, some index is free |
| Centers.ProbeFinds | app.py:786-788 | the linear probe stops at a free index |
| Centers.ProbeAdds | app.py:786-790 | one round adds an index below nine that was not yet taken, so the taken set grows by exactly one |
| Centers.StartsFacts | app.py:786 | round i starts its probe at (seed + 37 i) % 9 |
| Centers.TakenFacts | app.py:784-790 | probing from up to nine starts below nine takes one new index each time, all below nine |
| Centers.ChosenFacts | app.py:784-790 | after n probes, n distinct indices below nine are taken |
| Centers.SimulatedCount | app.py:756-798 | every center has a state; 3 + seed % 5 centers are defined, or none when seed % 100 < 5 |
| Centers.ProbeFree | app.py:786-788 | the probe loop returns the probe function's free index |
| Centers.SimulateGateActivations | app.py:756-798 | the loops compute exactly the simulated center state |
| Channels.Normalize | app.py:975 | the key is the channel's two gates with the smaller one first |
| Channels.DefinedChannelsCorrect | app.py:946-979 | a channel is listed exactly when both of its gates are activated (non-zero) in either list; it is listed once, smaller gate first |
| Channels.DefinedPrefixMembers | app.py:970-977 | the scan lists exactly the keys of the rows whose two gates are activated |
| Channels.DefinedPrefixDistinct | app.py:976-977 | the scan lists no key twice |
| Channels.CollectActivatedGates | app.py:962-967 | the loop collects the non-zero gates of the two lists |
| Channels.ScanChannels | app.py:970-977 | the loop computes the scan function |
| Channels.CalculateDefinedChannelsFromGates | app.py:946-979 | the method returns the defined channels of the activated gates |
| Channels.ChannelMapSound | app.py:1022-1026 | every key of the channel map comes from a table row with those centers |
| Channels.ChannelMapComplete | app.py:1022-1026 | every table row's key is in the channel map |
| Classify.TypeClassification | app.py:801-851 | Reflector exactly when no center is defined; otherwise the Sacral center and a Throat tied to a defined motor decide between Manifesting Generator, Generator, Manifestor and Projector, each in both directions |
| Classify.AnyDefinedCount | app.py:826 | some center is defined exactly when the defined count is positive |
| Classify.MotorScan | app.py:832-837 | the loop finds a defined motor center exactly when there is one |
| Classify.DetermineType | app.py:801-851 | the method returns the name and the strategy of the classified type, in the edition's labels |
| Classify.FirstDefined | app.py:1096-1116 | the first defined center of an order is defined and in the order; there is none exactly when no center of the order is defined |
| Classify.AuthorityIsFirstDefined | app.py:1077-1116 | the authority is named after the first defined center of Solar Plexus, Sacral, Spleen, Ego, G, and is environmental exactly when none of them is defined |
| Classify.ReflectorIsEnvironmental | app.py:1116 | a Reflector always has the environmental authority |
| Classify.NotSelfTheme | app.py:1119-1146 | the theme is one of the five texts |
| Classify.NotSelfOfType | app.py:1119-1146 | every type name of both editions (the Netlify names are those tested at netlify/functions/calculate_hd.py:597-608) gets its type's theme; the Manifesting Generator name, which contains 生產者, does not pass the Manifestor test |
| Classify.ProfileRoundTrip | app.py:854-868 | the profile "X/Y" splits at its one '/' into the two lines, which `int()` reads back |
| Decision.Link | app.py:1035-1038 | linking two centers keeps the graph's nodes |
| Decision.LinkEdges | app.py:1035-1038 | after linking, two centers are adjacent exactly when they were before or are the linked pair |
| Decision.GraphEdges | app.py:1019-1038 | two centers are adjacent in the graph exactly when both are defined and some defined channel's table row joins them |
| Decision.ClosedReach | app.py:1044-1050 | everything connected to a member of an edge-closed set is in the set |
| Decision.Dfs | app.py:1044-1050 | the search adds the start and only centers connected to it, leaves no added center with an unvisited neighbour, and grows the component by exactly the added centers |
| Decision.CountComponents | app.py:1053-1058 | the loop counts the defined centers not connected to an earlier one: the connected components |
| Decision.RootCountPositive | app.py:1053-1061 | a non-empty list of defined centers has at least one component |
| Decision.SingleComponent | app.py:1053-1066 | there is one component exactly when every defined center is connected to the first |
| Decision.NoEdgesCount | app.py:1053-1061 | without edges, each of the distinct defined centers is its own component |
| Decision.ModeLabelDistinct | app.py:1063-1074 | two counts get the same label exactly when they agree after capping at four |
| Decision.ComponentCountBounds | app.py:1010-1014 | there are at most as many components as defined centers, and none exactly when no center is defined |
| Decision.SingleDefinition | app.py:982-1074 | the mode is 單一定義 exactly when some center is defined and every defined center is connected to the first one through defined channels |
| Decision.NoChannelsCount | netlify/functions/calculate_hd.py:663 | with no channels, every defined center is its own component |
| Decision.BuildChannelMap | app.py:1022-1026 | the loop builds the channel map |
| Decision.BuildAdjacency | app.py:1019-1038 | the loop builds the adjacency graph |
| Decision.CalculateDecisionMode | app.py:982-1074 | the mode is the label of the component count, for the given channels or for those computed from the lists |
| Orchestration.DaysInMonth | app.py:1182 | every month has 28 to 31 days |
| Orchestration.ParseAllSpec | app.py:1174 | `map(int, parts)` succeeds exactly when every part parses, and yields their values in order |
| Orchestration.MinuteFromSpec | app.py:1172-1187 | the birth minute is accepted exactly when the time has two parts, both integers, hour 0..23, minute 0..59, on a valid date, and then holds those values |
| Orchestration.ParseBirthMinuteRoundTrip | app.py:1172-1187 | a valid minute written as "H:M" is parsed back to itself |
| Orchestration.SunLine | netlify/functions/calculate_hd.py:666-667 | a Sun line is found exactly when some entry is the Sun |
| Orchestration.SunLineFirst | netlify/functions/calculate_hd.py:666-667 | a list starting with the Sun yields that entry's line |
| Orchestration.ProfileFromFirst | netlify/functions/calculate_hd.py:669-673 | with a Sun first in both lists, the profile is the profile of their two lines |
| Orchestration.CalculateHumanDesign | netlify/functions/calculate_hd.py:611-701 | a refused birth minute gives its error; otherwise the report is the chart, the simulated centers and every classification read off them |
| Orchestration.BuildChart | netlify/functions/calculate_hd.py:648-659 | the lists from the ephemeris, or the fallback lists when it fails |
| Orchestration.ClassifyChart | netlify/functions/calculate_hd.py:662-699 | the report fields as the function combines them |
| Orchestration.ChartStartsWithSun | netlify/functions/calculate_hd.py:285-314 | both lists have thirteen entries and start with the Sun |
| Orchestration.NetlifyProfile | netlify/functions/calculate_hd.py:666-673 | the profile is read off the first entry of each list and is never "N/A" |
| Orchestration.NetlifyType | netlify/functions/calculate_hd.py:662-685 | the seed makes a Reflector exactly when it clears every center; the theme matches the type and a Reflector's authority is environmental |
| Orchestration.NetlifyDecisionMode | netlify/functions/calculate_hd.py:662-682 | with no channels, the mode is 無定義 for a cleared seed, 三分定義 for three defined centers and 四分定義 otherwise |
| Handler.CalculateHumanDesign | netlify/functions/calculate_hd/__init__.py:171-219 | a refused birth minute gives its error; otherwise the summary of the simulated centers |
| Handler.SummaryFacts | netlify/functions/calculate_hd/__init__.py:202-217 | the summary is a Reflector, with the environmental authority, exactly when the seed clears every center; otherwise three to seven centers are defined |
| Handler.TypeNamesDistinct | netlify/functions/calculate_hd/__init__.py:70-126 | only the Reflector is named as the Reflector |
| Handler.MissingFieldsOfObject | netlify/functions/calculate_hd/__init__.py:286-287 | for an object, the missing names are exactly the absent keys, in the required order |
| Handler.Absent | netlify/functions/calculate_hd/__init__.py:287 | a name is missing exactly when it is required and not a key |
| Handler.MethodChecks | netlify/functions/calculate_hd/__init__.py:247-263 | OPTIONS is answered 200, and every method other than POST 405 |
| Handler.MissingFieldsRefused | netlify/functions/calculate_hd/__init__.py:286-297 | an object lacking required fields gets 400 naming them in the order year, month, day, time |
| Handler.FieldChecks | netlify/functions/calculate_hd/__init__.py:300-353 | with all fields present, a non-integer date part gets 400, then a time without ':' gets 400, then a refused minute 400 with its error, otherwise 200 with the summary |
| Handler.OverlongYearRefused | netlify/functions/calculate_hd/__init__.py:306-317 | a year of more than 4300 digits, whatever its value, gets 400 "年份、月份、日期必須是數字" |
| Handler.StatusCodes | netlify/functions/calculate_hd/__init__.py:224-364 | every answer is 200, 400, 405 or 500, and 200 carries exactly the OK message or a summary |
| Escape.ReplaceCharAppend | run_embed.py:19 | replacing a one-character pattern distributes over concatenation |
| Escape.FirstReplacement | run_embed.py:19 | the first `replace` doubles every backslash |
| Escape.SecondReplacement | run_embed.py:19 | the second `replace` then puts a backslash before every backtick |
| Escape.ThirdReplacement | run_embed.py:19 | the third `replace` then puts a backslash before every "${" of the CSV |
| Escape.EscapeCsvIsEscaped | run_embed.py:19 | the chain of three replacements is the character-by-character escape |
| Escape.DecodeEscaped | run_embed.py:18-19 | the escaped text is a template-literal body with no bare backtick or "${", and reads back as exactly the CSV |
| Escape.EscapeRoundTrip | do_embed_final.py:18-20 | the escape chain of the scripts round-trips through the template literal |
| Escape.EscapedLength | run_embed.py:21 | the escaped text is longer by one per backslash, backtick and "${" |
| Escape.EscapeCsvLength | update_embed.py:18-19 | the two printed lengths differ by exactly the added backslashes |
| Template.Parse | run_embed.py:34-37 | a parsed template refers only to groups the pattern has |
| Template.ExpandAppend | run_embed.py:37 | expanding a concatenation of pieces is the concatenation of the expansions |
| Template.ParseGroup | run_embed.py:34 | `\k` with no digit after it is group k, or an error when the pattern has fewer groups |
| Template.ParseTwoDigitGroup | run_embed.py:34 | two digits after a backslash, not forming an octal escape, are one group reference |
| Template.ParseOctal | run_embed.py:34 | three octal digits after a backslash are one character, or an error above 0o377 |
| Template.ParseEscaped | run_embed.py:34 | the escaped CSV reads as the literal pieces of the written body |
| Template.WrittenPiecesLiteral | run_embed.py:34-37 | those pieces refer to no group and expand to the written body |
| Template.WrittenBodyKeepsEscape | run_embed.py:34-37 | the written body is the escaped CSV exactly when the CSV holds no backslash |
| Template.WrittenBodyLength | run_embed.py:34-37 | the written body is longer than the CSV by one per backtick and per "${" only |
| Splice.FindCloseSpec | run_embed.py:31 | the lazy `.*?` stops at the first closing text |
| Splice.SearchSpec | run_embed.py:31-37 | the search finds the leftmost match, and finds none only when nothing matches |
| Splice.Matches | run_embed.py:37 | the matches are ordered, do not overlap, and lie inside the page |
| Splice.SpliceOverAgree | run_embed.py:37 | splicing with two replacements that agree on every body gives the same page |
| Splice.ReSubReplacesBodies | run_embed.py:34-37 | a template made of group 1, literals and the closing group replaces every body with the written literal |
| Splice.NoMatchUnchanged | run_embed.py:40-41 | a page without the opening text is written unchanged |
| Splice.NoMatchesFrom | run_embed.py:37 | with no opening text after a position, nothing matches from there |
| Splice.FirstMatch | run_embed.py:31 | the first opening text and the first closing text after it form the first match |
| Splice.LastMatch | run_embed.py:37 | a match with no opening text after it is the only remaining one |
| Splice.OneMatch | run_embed.py:31-37 | a page with one declaration has exactly one match, over its body |
| Splice.ReplaceOne | run_embed.py:31-37 | in such a page only that body is replaced |
| Splice.ReplaceEmpty | embed_csv.py:18-19 | an empty declaration gets the body between its delimiters |
| Splice.ReSubOne | run_embed.py:31-37 | in a page with one declaration, `re.sub` writes the template's expansion for that match and keeps the rest |
| Splice.ExpandDelimited | run_embed.py:34 | the delimited template expands to the opening text, the literal and the closing text |
| Embed.TemplateReads | run_embed.py:34 | for a CSV not starting with a digit, `\1` + escaped + `\k` reads as group 1, the written pieces and group k |
| Embed.EmbedWritesBody | run_embed.py:31-37 | every declaration's body is replaced with the written body of the CSV |
| Embed.DelimitedTemplateWrites | update_embedded_csv.py:21-24 | with any number of groups, a `\1`…`\k` template closing on the last group replaces every body |
| Embed.UpdateAgreesWithEmbed | update_embedded_csv.py:21-24 | the three-group script writes the same page as the two-group scripts |
| Embed.NoDeclarationWarns | run_embed.py:40-41 | without a declaration the page is unchanged and the warning is printed |
| Embed.CurrentBodyWarns | run_embed.py:40-41 | the warning is also printed when the declaration already holds the written body |
| Embed.RunEmbedReports | run_embed.py:40-43 | success is reported exactly when the written page differs from the one read |
| Embed.EmbedDropsBackslashes | run_embed.py:19-37 | in a page with one declaration the body becomes the written body, which is the escaped CSV exactly when the CSV holds no backslash |
| Embed.BackslashCollapsed | do_embed.py:15-24 | the CSV `\n` is escaped to `\\n` but written as `\n`, which the literal reads as a newline instead of the CSV |
| Embed.BacktickClosesLiteral | run_embed.py:19-37 | the CSV `` \` `` is written as `` \\` ``: the literal reads one backslash and then meets a bare backtick, so it ends there and the rest of the page is broken |
| Embed.InterpolationOpened | run_embed.py:19-37 | the CSV `\${` is written as `\\${`: after one backslash the literal opens an interpolation |
| Embed.DigitFirstTemplate | final_update.py:8-17 | for a CSV starting with a digit, the template fails or starts with a character instead of group 1 |
| Embed.DigitFirstFails | final_update.py:8-17 | the CSV "5" makes the template refer to group 15, and no page is written |
| Embed.DigitFirstRewrites | final_update.py:8-17 | the CSV "12" turns `\112` into 'J': the opening text and the CSV are lost |
| Embed.ExactEmbedRoundTrip | do_embed_final.py:18-35 | the corrected splice writes the escaped CSV into the one declaration, and it reads back as the CSV |
| Embed.EmbedAgreesWithExact | do_embed_final.py:31-35 | without backslashes or a leading digit, the scripts write what the corrected splice writes |
| Embed.SnippetIsExactDeclaration | embed_csv.py:17-19 | the snippet is the declaration the corrected splice writes into an empty one, and reads back as the CSV |

## Left out

- The ephemeris (`swe.calc_ut`) is a function parameter. Julian days and the `pytz`/`swe.julday` conversion of the birth minute are left out: the birth Julian day is a parameter. Coordinates, which only reach that conversion, are left out too.
- The MD5 digests of the `strftime` seed strings are parameters (`Digests`). The seed strings are not built.
- Floating point: longitudes, speeds and days are exact reals, so rounding is not modelled.
- File reading and writing, and every `print` (the progress messages and lengths), are left out. The warning/success choice of `run_embed` is modelled as a boolean.
- Python exception texts are left out. A refused birth minute is a `TimeError` kind instead of the formatted message. The 500 answer carries no message text. CORS headers are left out.
- `input_date` (the `strftime` of the minute) is the `Minute` record itself.
- Dictionary order is modelled as the order of the `CENTERS` list.
- `GATE_TO_CENTER` is left out: no modelled function reads it.
- The Netlify `handler` (netlify/functions/calculate_hd.py:706 onwards) and the Flask routes and CSV loader of app.py (1217 onwards) are left out: they are I/O wrappers.
- app.py's `calculate_human_design` (1149-1213) is left out as a separate member. It makes the same calls as `Orchestration.ChartOf`, but with app.py's solver order (`WrapThenDivide`, a parameter of `Chart.GetPlanetPositions` and `Solver.CalculateDesignDate`), and it returns only the minute and the two lists.
- `json.loads` is the parameter `decode`. JSON `NaN`/`Infinity` are not distinguished.
- The replacement-template parser does not model `\g<name>` references: they are an error kind (`NamedGroup`).
- Text.PyInt: the decimal-digit and whitespace classes are those of Unicode 15.0, as in Python 3.12; other Python versions ship other tables. The 4300-digit limit is the default of `sys.int_max_str_digits`; a changed setting is not modelled.
- Text.IntToString: `str()` of an integer of more than 4300 digits raises ValueError in Python 3.12; the model writes it anyway, and the round-trip lemmas (Text.PyIntOfIntToString, Chart.LabelSplits, Classify.ProfileRoundTrip) require `FitsStrDigits`.
- Escape.Decode: JavaScript escapes other than `\\`, `` \` ``, `\$` and `\n` are not given a meaning (None).
- Solver.CalculateDesignDate: states that the result is not after the birth (`<=`). The source's comment promises "before"; the guard `design_jd > birth_jd` lets an equal date through.
- Chart.GetPlanetPositions: the speed of every body uses the divide-then-correct order of the source (see Findings). The model does not correct it there.

## Findings

| source | as written | input that shows it | evidently intended | confidence | as-written member | corrected member |
|---|---|---|---|---|---|---|
| app.py:466-471 | the speed is divided by 0.002 days before the ±180° correction, so the correction fires but adds 360 to a rate in °/day, which cannot repair a crossing of 0° | samples 359.999° and 0.001°: speed −179639°/day instead of 1°/day | correct the difference first, as the solver does at app.py:340-347 | not executed | Motion.DivideThenWrapAtSeam | Motion.WrapThenDivideMeasuresMovement |
| run_embed.py:34-37 | the escaped CSV is put into an `re.sub` replacement template, whose parser turns each `\\` back into `\` | the CSV `\n` is written as `\n`, which the page's literal reads as a newline; a CSV backslash before a backtick or before `${` is written so that the literal ends early or opens an interpolation, which breaks the page's script | write the escaped text as it is (a replacement function) | not executed | Embed.EmbedDropsBackslashes, Embed.BackslashCollapsed, Embed.BacktickClosesLiteral, Embed.InterpolationOpened | Embed.ExactEmbedRoundTrip |
| final_update.py:15-17 | `r"\1" + escaped` fuses `\1` with a leading digit of the CSV | the CSV "5" raises an invalid group reference 15; the CSV "12" writes 'J' in place of the declaration | separate the group reference (`\g<1>`) or use a replacement function | not executed | Embed.DigitFirstTemplate, Embed.DigitFirstFails, Embed.DigitFirstRewrites | Embed.ExactEmbedRoundTrip |
