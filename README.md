# pipeflow core in Dafny

A model of the execution core of pipeflow, a PHP engine that runs a
pipeline of stages over a shared context of named parameters.

- **Pipeline.** `Pipeline` keeps an ordered list of stages and the history of every context the run has produced. Its `execute` threads the current context through the stages and appends each stage's output to the history.
- **Control-flow stages.**
  - `IfStage` evaluates one of ten operators under PHP's loose comparison, then runs its `then` or its `else` block.
  - `IfStageFactory` rejects unknown operators before the stage exists.
  - `ForStage` is a counted loop that writes its index parameter before each pass of its `do` block.
  - `ForEachStage` runs its `do` block once per collection element, with `currentItem` and `currentItem_index` set.
- **Leaf stages.**
  - `SetValueStage` writes one parameter.
  - `SumOperationStage` adds numbers, concatenates strings, merges arrays or pushes a scalar onto an array.
  - `ArrayCountStage` stores the size of an array parameter.
- **PlaceholderProcessor.** It rewrites `%{NAME}%` and `%{NAME[i]}%` markers with context values, and repeats until a re-scan finds no marker.
- **PipelineXMLConfigurator.**
  - It turns each `<param>` of a `<stage>` into a literal, a literal array or a reference setting.
  - It builds each stage through the factory and appends the stages to a pipeline in document order.

Modules:

- `Common`: `Option`, `Result` and the error cases. Each error case stands for one exception the source throws.
- `Values`: the PHP values a context holds: null, bool, int, string and list.
  - PHP 8 loose comparison (`==`, `<`, …) as a total three-way `Compare`.
  - `trim`, `str_contains`, `strtolower`, `(string)` casts and decimal integer strings.
- `StageSettings`: stage settings (a literal, or a reference to a context parameter), `addSetting`, and reading a setting against a context (`getSettingValue`).
- `Stages`: the stage tree and its semantics.
  - `Run`, `RunBlock` and `RunPasses` are the reference semantics.
  - One function per stage decides its settings and error checks.
- `StageExecution`: the stages' `execute` methods as the source writes them, with `foreach`/`for` loops reassigning the context. Each is proved equal to the reference semantics.
- `StageFactories`: `IfStageFactory::instantiate` and the lookup of a stage by type name.
- `PipelineCore`: the `Pipeline` class, together with the trace of a run that `execute` appends to the history.
  - `src/Core/Pipeline.php` and `src/Pipeflow/Core/Pipeline.php` are the same class under two namespaces.
  - The second copy's constructor, `addStage`, `execute`, `getCurrentContext` and `clearContext` are at lines 35-42, 50-52, 60-67, 74-76 and 83-85.
  - The rows below cite the first copy.
- `Placeholders`: the marker scanner, the per-marker value, `str_replace`, and the `process` loop (bounded by fuel).
- `XmlConfigurator`: parameter classification, configuration building, and the `Configurator` class whose methods append to a `Pipeline`.

Four collaborators are not part of this model. Each is given a concrete definition, and that definition is an assumption about code outside the model, not behaviour read from the source:

- `StageConfiguration::getSettingValue` (`StageSettings.GetSettingValue`): a literal yields its value; a reference yields the named context parameter, with null meaning absent.
- `StageConfiguration::addSetting` (`StageSettings.StageConfiguration.AddSetting`): a setting replaces any earlier setting of the same name. This is "last write wins", chosen to keep the design's invariant that setting names are unique within one stage configuration.
- `PipelineContext::getParameter` (`Values.Lookup`): an absent name yields null.
- `InputParser::extractElements` (`Placeholders.ExtractElements`): the marker scanner described under "Left out".

## Model

| member | source | states |
|---|---|---|
| PipelineCore.Pipeline.constructor | src/Core/Pipeline.php:32-39 | A new pipeline has one history entry, the given context or an empty one when none is given, and no stages. |
| PipelineCore.Pipeline.AddStage | src/Core/Pipeline.php:47-49 | The stage goes at the end; the earlier stages keep their places and order; the history is untouched. |
| PipelineCore.Pipeline.Execute | src/Core/Pipeline.php:57-64 | The result is the block semantics of the stages on the current context. The history grows by the trace's outputs, one per completed stage. On success it grows by exactly one entry per stage and the result is the new current context. The stages are unchanged. |
| PipelineCore.Pipeline.ClearContext | src/Core/Pipeline.php:80-82 | The history becomes exactly one empty context; the stages are unchanged. |
| PipelineCore.TraceSteps | src/Pipeflow/Core/Pipeline.php:60-67 | Stages run strictly left to right: stage i maps history entry i to entry i+1. When a stage fails, it is the stage right after the last recorded output. |
| PipelineCore.TraceMatchesRunBlock | src/Pipeflow/Core/Pipeline.php:62-66 | The recorded trace agrees with the block semantics. It fails exactly when the run fails, with the same error. On success there is one output per stage and the last output is the returned context. |
| StageExecution.ExecuteStage | src/Interfaces/AbstractPipelineStage.php:1-19 | Dispatching `execute` on a stage computes that stage's reference semantics. |
| StageExecution.ExecuteBlock | src/Stages/If/IfStage.php:68-71 | The `foreach` over a block, reassigning the context, equals running the block: stages in order, each on the previous one's output, stopping at the first error. |
| StageExecution.ExecuteIf | src/Stages/If/IfStage.php:19-84 | IfStage::execute equals the reference semantics of an If stage. |
| StageExecution.ExecuteFor | src/Stages/For/ForStage.php:19-57 | ForStage::execute equals the reference semantics of a For stage. |
| StageExecution.ForPasses | src/Stages/For/ForStage.php:46-54 | The `for` statement runs one pass per index in `ForIndices(from, to, step)`. Each pass writes the index parameter and then runs the block. |
| StageExecution.ExecuteForEach | src/Stages/ForEach/ForEachStage.php:19-45 | ForEachStage::execute equals the reference semantics of a ForEach stage. |
| Stages.FirstMatch | src/Stages/If/IfStage.php:28-60 | The switch picks a case loosely equal to the operator value, and every case before it fails that comparison: it is the first match. No match means no case is loosely equal. |
| Stages.EvalCondition | src/Stages/If/IfStage.php:29-58 | An operator fails exactly when it is one of the four text operators and an operand is an array (PHP's TypeError). Comparisons never fail. |
| Stages.IfCondition | src/Stages/If/IfStage.php:22-60 | The invalid-operator error is raised only when the operator resolves to a value that matches none of the ten cases. |
| Stages.IfConditionMissing | src/Stages/If/IfStage.php:22-24 | `leftOperand`, `operator` and `rightOperand` are required. The first missing one is reported, before any block runs. |
| Stages.IfConditionEvaluates | src/Stages/If/IfStage.php:28-60 | With the three settings present, an unmatched operator is an invalid-operator error; otherwise the condition is the matched operator applied to the operands. |
| Stages.ComplementaryOperators | src/Stages/If/IfStage.php:29-52 | `equal`/`notEqual` always succeed and give opposite results. `contains`/`notContains` fail together and otherwise give opposite results. |
| Stages.CaseInsensitiveOperators | src/Stages/If/IfStage.php:53-58 | `caseInsensitiveContains` and its negation fail together and otherwise give opposite results. The result is substring search on both operands lower-cased. |
| Stages.ContainsOperator | src/Stages/If/IfStage.php:47-52 | On two non-array operands, `contains` is substring search of the right operand's string form in the left's, and `notContains` is its negation. |
| Stages.CaseInsensitiveContainsOperator | src/Stages/If/IfStage.php:53-58 | On two non-array operands, `caseInsensitiveContains` searches the lower-cased right string form in the lower-cased left one, and `caseInsensitiveNotContains` is its negation. |
| Stages.CaseInsensitiveIgnoresCase | src/Stages/If/IfStage.php:53-58 | Changing the ASCII case of either string operand never changes the result of the case-insensitive pair. |
| Stages.ConverseOperators | src/Stages/If/IfStage.php:35-46 | `greater` is `less` with the operands swapped, `greaterOrEqual` is `lessOrEqual` swapped, and `equal` is symmetric. |
| Stages.IntegerOperators | src/Stages/If/IfStage.php:29-46 | On integer operands the six comparison operators agree with integer order and equality. |
| Stages.DecimalStringOperators | src/Stages/If/IfStage.php:29-40 | A decimal integer string compares with an integer as the number it spells. |
| Stages.EqualIsReflexive | src/Stages/If/IfStage.php:29-31 | Every value is loosely equal to itself. |
| Stages.IfFalseWithoutElse | src/Stages/If/IfStage.php:73-83 | A false condition with no `else` stages returns the input context unchanged. |
| Stages.AsInteger | src/Stages/For/ForStage.php:22-24 | A loop bound is an integer or a decimal integer string, read as that integer; anything else is a type error. |
| Stages.ForSettings | src/Stages/For/ForStage.php:22-35 | `from` and `to` are required and reported in that order. An empty `do` block is an error checked next. With both present and a non-empty block, the zero-step error is raised exactly when the step (1 when absent) loosely equals 0, before the bounds are examined. Otherwise a bound or step that is not an integer is a type error naming it. On success the loop's `to` is the integer the `to` setting denotes. Its step is the integer the `step` setting denotes, or 1 when `step` is absent. Its index name is the string form of `indexParameterName`, or `currentIndex` when absent. |
| Stages.ZeroStepBeforeBounds | src/Stages/For/ForStage.php:33-35 | A step reading as 0 is refused as a zero step whatever the bounds are, including bounds that are not integers. |
| Stages.WrongDirectionMeansNoPass | src/Stages/For/ForStage.php:38-46 | The wrong-direction test (`step > 0 && from >= to`, or `step < 0 && from <= to`) holds exactly when the loop makes no pass. |
| Stages.ForIndexAt | src/Stages/For/ForStage.php:46 | Pass k uses index `from + k*step`, and that index is in range. |
| Stages.ForIndicesEnd | src/Stages/For/ForStage.php:46 | The index after the last pass is out of range, so the loop stops at the first out-of-range index. |
| Stages.ForPassCount | src/Stages/For/ForStage.php:46 | With `step > 0` and `from < to` the loop makes `ceil((to - from) / step)` passes. |
| Stages.ForPassCountDown | src/Stages/For/ForStage.php:46 | With `step < 0` and `from > to` the loop makes `ceil((from - to) / -step)` passes. |
| Stages.ForStagePasses | src/Stages/For/ForStage.php:46-53 | In a completed For stage there is one pass per index. Before pass 0 the index parameter holds the `from` value as given, which loosely equals `from`. Before pass k > 0 it holds `from + k*step`. |
| Stages.IndexedPasses | src/Stages/For/ForStage.php:48 | In any completed counted loop, the input of each pass holds the index written for that pass. |
| Stages.AsIntegerLooselyEqual | src/Stages/For/ForStage.php:38-46 | A bound accepted as an integer loosely equals that integer, so the integer guards decide what PHP's loose comparisons decide. |
| Stages.IntegerOperandsCompare | src/Stages/For/ForStage.php:38-46 | Two bounds accepted as integers compare as those integers. |
| Stages.ForEachItems | src/Stages/ForEach/ForEachStage.php:22-31 | `collection` is required and must be an array; that is checked before the `do` block, which must be non-empty. On success the items are the collection. |
| Stages.ForEachStagePasses | src/Stages/ForEach/ForEachStage.php:33-41 | There is one pass per element, in order. Before pass k, `currentItem` holds element k and `currentItem_index` holds k. |
| Stages.ForEachEmptyCollection | src/Stages/ForEach/ForEachStage.php:33-44 | An empty collection with a non-empty `do` block returns the context unchanged. |
| Stages.PassInputsComplete | src/Stages/ForEach/ForEachStage.php:33-42 | In a loop that completes, every pass runs. The parameters a pass writes are present in that pass's input, because the block changes the context only between passes. |
| Stages.RunBlockAppend | src/Stages/If/IfStage.php:68-71 | Running two blocks one after the other is running their concatenation. |
| Stages.RunSetValue | src/Stages/SetValue/SetValueStage.php:20-25 | `parameterName` and `parameterValue` are both required. On success the named parameter holds the value and every other parameter is unchanged. |
| Stages.RunArrayCount | src/Pipeflow/Stages/ArrayCount/ArrayCountStage.php:22-32 | Both settings are required, and the named parameter must hold an array (else a not-an-array error). On success `resultTo` holds the array's size and nothing else changes. |
| Stages.RunSumOperation | src/Stages/SumOperation/SumOperationStage.php:18-58 | Both operands are required. The result goes to `resultTo`, which defaults to `SUM_RESULT`. Only that parameter changes. |
| Stages.NumericLikeCases | src/Stages/SumOperation/SumOperationStage.php:64-77 | Integers are numeric-like. Non-strings other than integers are not. Strings that are empty after trimming are not. |
| Stages.NumericLikeString | src/Stages/SumOperation/SumOperationStage.php:72-76 | A trimmed string that parses as an integer is numeric-like with that value. |
| Stages.DecimalIsNumericLike | src/Stages/SumOperation/SumOperationStage.php:64-77 | The decimal spelling of any integer is numeric-like and denotes that integer. |
| Stages.SumOfNumericLike | src/Stages/SumOperation/SumOperationStage.php:28-34 | Two numeric-like operands store the sum of their values. |
| Stages.SumOfIntegers | src/Stages/SumOperation/SumOperationStage.php:28-34 | Two integers store their sum. |
| Stages.SumOfDecimals | src/Stages/SumOperation/SumOperationStage.php:28-34 | Two decimal strings store the sum of the numbers they spell. |
| Stages.SumShapes | src/Stages/SumOperation/SumOperationStage.php:35-54 | Array with array merges A then B. Array with scalar appends the scalar, whichever side the array is on. Two scalars that are not both numeric-like concatenate A then B. |
| Stages.DecimalIsTrimmed | src/Stages/SumOperation/SumOperationStage.php:72 | Trimming the decimal spelling of an integer leaves it as it is. |
| StageFactories.InstantiateIf | src/Stages/If/IfStageFactory.php:36-56 | The operator is required, read against an empty context. It is accepted exactly when it loosely equals one of the ten operator names. Otherwise the result is a configuration error naming it. On success the stage is an If stage holding the same configuration. |
| StageFactories.InstantiateStageOfType | src/Utils/PipelineXMLConfigurator.php:107 | Known type names build a stage of that type holding the configuration; If goes through its factory. Any other name is an unknown-type error. |
| StageFactories.FactoryAcceptsTheTenNames | src/Stages/If/IfStageFactory.php:39-53 | A literal string operator is accepted exactly when it is one of the ten names. |
| StageFactories.AcceptedOperatorIsNeverInvalid | src/Stages/If/IfStageFactory.php:39-51 | For a literal operator the factory accepted, IfStage::execute never takes its invalid-operator branch, in any context. |
| StageFactories.ReferenceOperatorRejected | src/Stages/If/IfStageFactory.php:38 | A reference operator resolves against the empty context, finds nothing, and fails as a missing setting. |
| StageFactories.TrueIsTheEqualOperator | src/Stages/If/IfStage.php:28-31 | The boolean true loosely equals "equal", so it selects that case. |
| StageFactories.StringOperatorMatches | src/Stages/If/IfStageFactory.php:39-51 | A string matches an operator case exactly when it is that case's name. |
| StageFactories.OperatorNamesDistinct | src/Stages/If/IfStage.php:28-58 | The ten case names are distinct. |
| StageFactories.OperatorsComplete | src/Stages/If/IfStageFactory.php:39-49 | Every operator of IfStage's switch is accepted by the factory's switch. |
| StageFactories.OperatorNameNotNumeric | src/Stages/If/IfStageFactory.php:39-49 | No operator name is a numeric string, so loose comparison against it is string equality. |
| StageSettings.StageConfiguration.AddSetting | src/Utils/PipelineXMLConfigurator.php:86-101 | `addSetting` stores the setting under its name, replacing any earlier one (an assumption, see above), and keeps every other setting. |
| StageSettings.GetSettingValue | src/Stages/For/ForStage.php:22-25 | A setting that resolves yields its value. A missing required setting is an error naming it. A missing optional setting yields the default. |
| StageSettings.Resolve | src/Utils/PipelineXMLConfigurator.php:83-101 | A literal yields its value in any context. A missing setting yields nothing. A value from a reference is never null. |
| StageSettings.LiteralIgnoresContext | src/Stages/If/IfStageFactory.php:38 | A literal setting reads the same in every context. |
| Values.CompareAntisymmetric | src/Stages/If/IfStage.php:35-46 | Loose comparison is antisymmetric. |
| Values.CompareReflexive | src/Stages/If/IfStage.php:29-30 | Loose comparison of a value with itself is equality. |
| Values.NonNumericStringEquality | src/Utils/PipelineXMLConfigurator.php:141 | Against a non-numeric string, loose string equality is exact equality. |
| Values.NumericStringComparesAsInteger | src/Stages/If/IfStage.php:35-46 | A decimal integer string compares with an integer as the number it spells, in both argument orders. |
| Values.StrCompareZero | src/Stages/If/IfStage.php:29-30 | Character-wise string comparison is zero exactly on equal strings. |
| Values.ContainsTextAt | src/Stages/If/IfStage.php:47-52 | `str_contains` holds exactly when the needle occurs at some position of the haystack. |
| Values.LowerChangesOnlyCapitals | src/Stages/If/IfStage.php:53-58 | Lower-casing changes exactly the ASCII capitals, each to its small letter, and leaves no capital in the result. |
| Values.LowerIdempotent | src/Stages/If/IfStage.php:53-58 | Lower-casing a lower-cased string changes nothing. |
| Values.Trim | src/Utils/PipelineXMLConfigurator.php:87-101 | The trimmed text is an infix of the input, and every character cut off on either side is one trim strips. It starts and ends outside those characters, and a text with none of them is unchanged. |
| Values.StripIsInfix | src/Utils/PipelineXMLConfigurator.php:87-101 | Stripping both ends of a text leaves an infix of it and cuts only characters of the given set. |
| Values.IntToStringRoundTrip | src/Stages/SumOperation/SumOperationStage.php:30-34 | The decimal spelling of an integer parses back to it. |
| Placeholders.ValueForPlaceholder | src/Utils/PlaceholderProcessor.php:38-56 | A plain marker gives the parameter's string form. An indexed marker on a non-array gives "". An in-range index gives that element's string form. Any other index gives "". |
| Placeholders.Process | src/Utils/PlaceholderProcessor.php:22-36 | `process` computes the fixed-point rewrite: scan, replace, re-scan until no marker is found. It runs within the given number of passes. |
| Placeholders.ProcessLoop | src/Utils/PlaceholderProcessor.php:25-33 | The do-while loop equals the recursive rewrite it unrolls, for any scanner. |
| Placeholders.Substitute | src/Utils/PlaceholderProcessor.php:26-31 | The `foreach` replaces each placeholder element's full match by its value, in order. |
| Placeholders.ProcessFixedPoint | src/Utils/PlaceholderProcessor.php:32-35 | Whenever `process` returns, a scan of its result finds no element. |
| Placeholders.ProcessFuelMonotone | src/Utils/PlaceholderProcessor.php:25-33 | More passes never change a result already reached. |
| Placeholders.ProcessWithoutMarkers | src/Utils/PlaceholderProcessor.php:24-35 | Text in which the scanner finds nothing is returned unchanged. |
| Placeholders.SubstituteSkipsOthers | src/Utils/PlaceholderProcessor.php:27 | Elements that are not placeholders are never substituted. |
| Placeholders.ReplaceWithoutOccurrence | src/Utils/PlaceholderProcessor.php:29 | `str_replace` leaves a text without the search string unchanged. |
| Placeholders.ReplaceBySelf | src/Utils/PlaceholderProcessor.php:29 | Replacing a string by itself changes nothing. |
| Placeholders.ReplaceWhole | src/Utils/PlaceholderProcessor.php:29 | A text that is exactly the search string becomes the replacement. |
| Placeholders.MarkerAt | src/Utils/Parser/ParsedElement.php:7 | A marker found at a position is well formed there: `%{NAME}%` or `%{NAME[i]}%` spelled at that position, with the name and index it reports. |
| Placeholders.ExtractFrom | src/Utils/Parser/ParsedElement.php:33 | Every element found is a placeholder whose full match occurs in the text. |
| Placeholders.PlainMarkerAt | src/Utils/Parser/ParsedElement.php:7 | `%{NAME}%` reads back as a plain placeholder named NAME whose full match is the marker. |
| Placeholders.IndexedMarkerAt | src/Utils/Parser/ParsedElement.php:7 | `%{NAME[i]}%` reads back as an indexed placeholder with name NAME and index i, negative indices included. |
| Placeholders.MarkerIsExtracted | src/Utils/Parser/ParsedElement.php:33 | A text that is exactly one marker scans to exactly that element. |
| Placeholders.WholeTextMarker | src/Utils/Parser/ParsedElement.php:33 | A text read whole as one marker scans to that single element. |
| Placeholders.ExpandsPlainMarker | src/Utils/PlaceholderProcessor.php:40-41 | A lone plain marker expands to the parameter's string form when that string holds no marker. |
| Placeholders.SelfReferenceNeverSettles | src/Utils/PlaceholderProcessor.php:25-33 | A parameter whose value is its own marker makes the loop run forever: no number of passes reaches a result. |
| Placeholders.OtherElementNeverSettles | src/Utils/PlaceholderProcessor.php:25-33 | An element that is not a placeholder is never replaced, so a scanner that keeps finding it keeps the loop running: no number of passes reaches a result. |
| XmlConfigurator.ReferenceKindFromAttribute | src/Utils/PipelineXMLConfigurator.php:139-147 | The kind is the enum case whose value equals the attribute, and `plain` when none does. |
| XmlConfigurator.KindValueRoundTrip | src/Utils/PipelineXMLConfigurator.php:140-143 | Each kind's own value maps back to that kind. |
| XmlConfigurator.UnknownKindIsPlain | src/Utils/PipelineXMLConfigurator.php:146 | An attribute that is no kind's value gives `plain`. |
| XmlConfigurator.ClassifyParam | src/Utils/PipelineXMLConfigurator.php:72-103 | A param fails exactly when its `contextReference` is truthy and it has items, and the error names the param. Otherwise the setting keeps the param's name and is a reference exactly when `contextReference` is truthy. |
| XmlConfigurator.ReferenceParamKind | src/Utils/PipelineXMLConfigurator.php:83-88 | A reference param becomes a reference with the resolved kind, the param name, its trimmed text and its `keypath`. |
| XmlConfigurator.TrimmedItems | src/Utils/PipelineXMLConfigurator.php:94-97 | The array holds the trimmed item texts in document order. |
| XmlConfigurator.ClassifiedParamResolves | src/Utils/PipelineXMLConfigurator.php:83-101 | The stored setting reads as one of three things. A param without items reads as its trimmed text. A param with items reads as the trimmed item list. A reference reads as the context parameter its trimmed text names. |
| XmlConfigurator.BuildFails | src/Utils/PipelineXMLConfigurator.php:71-81 | Building fails exactly when some param fails, and it reports the first failing param's error. |
| XmlConfigurator.BuildSettings | src/Utils/PipelineXMLConfigurator.php:71-104 | After a successful build, the settings are the earlier ones plus exactly the param names, and the earlier settings no param names are kept. |
| XmlConfigurator.BuildKeys | src/Utils/PipelineXMLConfigurator.php:71-104 | The names set by a successful build are the earlier ones plus the name of every param. |
| XmlConfigurator.BuildKeeps | src/Utils/PipelineXMLConfigurator.php:71-104 | A setting that no param names is still present after the build, with its old value. |
| XmlConfigurator.BuildLastWins | src/Utils/PipelineXMLConfigurator.php:86-101 | For a repeated name, the last param with that name decides the setting, given the assumed `addSetting`. |
| XmlConfigurator.ParamsConfiguration | src/Utils/PipelineXMLConfigurator.php:64-104 | A stage's configuration holds exactly its param names, each set by the last param of that name, given the assumed `addSetting`. |
| XmlConfigurator.StageFromNode | src/Utils/PipelineXMLConfigurator.php:62-108 | A param error stops the stage. Otherwise the stage is the factory's result for the `type` attribute and the built configuration. |
| XmlConfigurator.LoopStagesFromDocumentFail | src/Utils/PipelineXMLConfigurator.php:106-108 | No sub-blocks are attached, so a For or ForEach stage built from a document fails whenever it runs. |
| XmlConfigurator.IfStageFromDocumentHasNoThen | src/Utils/PipelineXMLConfigurator.php:106-108 | An If stage built from a document fails with a missing `then` block whenever its condition is true. |
| XmlConfigurator.BuildStagesInOrder | src/Utils/PipelineXMLConfigurator.php:43-47 | Stages are built in document order. When building stops, the node after the last built stage is the one that failed. |
| XmlConfigurator.Configurator.constructor | src/Utils/PipelineXMLConfigurator.php:25-27 | The configurator holds the given pipeline. |
| XmlConfigurator.Configurator.ProcessStage | src/Utils/PipelineXMLConfigurator.php:62-109 | The `foreach` over params builds the node's stage. On success the pipeline gains that stage at the end; on error it is unchanged. The history is untouched. |
| XmlConfigurator.Configurator.Configure | src/Utils/PipelineXMLConfigurator.php:34-55 | An invalid document returns false and adds no stage. A valid one appends the built stages in document order. It then returns true, or the first error with the stages before it kept. |

## Left out

- Floats and exponent notation are not modelled: numbers are integers, so `isNumericLike` and the numeric-string test recognise decimal integer strings only, with an optional `+` or `-` sign and surrounding whitespace. PHP's integer overflow to float is not modelled either.
- Values.StrCompare: strings are sequences of characters, so non-numeric strings are ordered character by character. PHP orders them byte by byte, and for non-ASCII text the two orders can differ. Equality is unaffected.
- Associative arrays are not modelled: a list is indexed by position, so `currentItem_index` is the position k.
- Aliasing is not captured. The context is a value, whereas PHP contexts are mutable objects and history entries alias one another. `setParameter` is modelled as a map update producing a new context.
- The leaf stages (SetValue, SumOperation, ArrayCount) are therefore functions returning the updated context, not in-place updates.
- Stages.AsInteger: a For loop decides its direction test and its loop test on integers. A `from`, `to` or `step` that is neither an integer nor a decimal integer string is a type error, where PHP would compare it loosely. The first pass writes the `from` value as given (for example the string "2"); later passes write integers.
- Stages.AsInteger: this also hides behaviour of the source. With `from` = "0", `to` = "abc" and the default step, PHP 8 compares the index with "abc" as strings. A decimal spelling always sorts before "abc", so src/Stages/For/ForStage.php:46 never stops. With `to` = "" the direction test at lines 38-39 holds, and the stage returns its input without a pass. The model gives a type error in both cases. Every counted loop terminates in the model only because such bounds are excluded.
- StageSettings.Resolve: the keypath descent of keypath references is not modelled; such a reference reads the named parameter like a plain one.
- StageSettings.GetSettingValue: the expansion of placeholders inside literal settings is not modelled. The class is not part of this model, so its reading rule is a concrete assumption: a literal, or the named context parameter with null meaning absent.
- Placeholders.ExtractElements: `InputParser` is not part of this model. The scanner reads `%{NAME}%` and `%{NAME[i]}%`, with NAME made of ASCII letters, digits and `_`, and an optionally negative decimal index. The scanner's character set is an assumption.
- Placeholders.Process: the source loop may run forever. The model takes a bound on the number of passes and returns None when the bound runs out. Placeholders.SelfReferenceNeverSettles shows a context for which every bound runs out, and Placeholders.OtherElementNeverSettles shows the same for a scanner that keeps reporting a non-placeholder element.
- Casting an array element to string inside an indexed marker follows `Stringify`, which gives "Array" for a nested array as PHP does. Only PHP's "Array to string conversion" warning is left out.
- XML reading is not modelled. DOM/XPath parsing, XSD validation, libxml error collection and the printing of validation errors are abstracted away. A document is its validity flag and its top-level stage nodes; a param is its name, `contextReference`, `keypath`, text and item texts.
- XmlConfigurator.Configurator.Configure: the configuration exception that PHP throws out of `configure` is returned as an error result. Stages added before the failing node stay in the pipeline, as in the source.
- XmlConfigurator.ReferenceKindFromAttribute: the enum `ReferenceStageSettingType` is not part of this model. Its cases are assumed to be `plain` then `keypath`, with those string values.
- StageFactories.InstantiateStageOfType: the `StageFactory` registry is not part of this model. Only the six stage types modelled here are known to it. src/PipeFlow.php:12-23 registers no factory for the For stage, so in the source a document stage of type For may be an unknown type; the model builds it.
- The JSON, Random, Delay and ArrayPath stages, and the other stage factories and their descriptors, are not modelled. They wrap `json_*`, `rand`, `usleep` or code not part of this model.
- `Pipeline::setupWithXML` is not modelled; it is `Configurator.Configure` on a freshly parsed document.
- Pipeline.getCurrentContext is modelled as a function with no contract of its own. What it returns (the last history entry) is stated in `PipelineCore.Pipeline.Execute`'s postcondition.
- Stages.SumOfDecimals and its companions cover numeric-like operands in general. The mixed case of an integer plus a decimal string is covered by SumOfNumericLike with DecimalIsNumericLike; it has no lemma of its own.
