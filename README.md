# NUnit3XmlOutputWriter, modelled in Dafny

NUnitLite's `NUnit3XmlOutputWriter` writes two kinds of documents to a
`TextWriter`:

- `WriteTestFile` writes the XML of a test.
- `WriteResultFile` writes the result of a test run in NUnit 3 format:
  - the XML declaration;
  - a `test-run` root element with identity and summary attributes;
  - an `environment` element describing the host;
  - the result's own XML;
  - then it closes everything.

This project models what the class sends to its `XmlWriter`, call by call
and in order, and proves what those documents look like.

The project has three modules:

- **`XmlEvents`** (`xml_events.dfy`) covers the writer calls.
  - Each call is an `Event`: `StartDoc`, `StartEl`, `Attr`, `EndEl`, `EndDoc`, `Flush`, `Close`.
  - A well-formed writer is a pure state machine. `Step` says which call is legal in which state, and `Run` folds it over a sequence of events.
  - A state holds the phase of the document, the stack of open elements, and whether a start tag is still open for attributes.
  - `Balanced` is what a node's `WriteTo` may replay: element content whose elements all get closed again.
  - The lemmas here show how `Run` composes. `RunShift` and `BalancedRun` show that a balanced subtree written inside open elements leaves the stack as it found it.
- **`XmlWriterModel`** (`xml_writer.dfy`) covers the two library objects.
  - `TextWriter`'s text is the event log it has received.
  - `XmlWriter` is a class over a `TextWriter`. Its fields hold the state of the machine above. Each method appends its event to the output, and its contract says how the state changes.
  - `Valid()` ties the state to the ghost log of everything the writer wrote: replaying the log with `Run` gives the current state.
  - `WriteEndDocument` and `Close` close every element still open, one `WriteEndElement` at a time.
  - `Close` on a closed writer does nothing. So the `using` block's `Dispose` after `TerminateXmlFile` adds nothing.
- **`NUnit3Xml`** (`nunit3_output.dfy`) is the output writer itself.
  - The pure functions `ResultDocument` and `TestDocument` say which events each document consists of. `HeaderAttributes` and `EnvironmentAttributes` follow the groups of calls in the C# code.
  - The lemmas state what the format promises:
    - the attribute order;
    - the counters;
    - the label rule;
    - the platform rules for the environment;
    - the well-formedness of the whole document;
    - the place of the environment element and of the result subtree.
  - The class `NUnit3XmlOutputWriter` keeps the `xmlWriter` field and has one method per C# method, making the same calls in the same order. Each method is proved to append exactly its part of the document.
  - The `if` on the label and the `#if !NETCORE` and `#if !NETCF` blocks each have their own method: `WriteOutcomeAttributes`, `WriteRuntimeAttributes` and `WriteLocationAttributes`. Their callers make the same calls in the same order as the C# methods, in straight-line code.

The conditional-compilation symbols `NETCORE`, `NETCF` and `SILVERLIGHT` are a `Platform` value fixed when the writer is constructed.

The host facts are a `Host` value passed in by the caller: assembly version, CLR and OS version, current directory, machine and user names, and cultures. `Randomizer.InitialSeed` is a parameter too.

Three details of the output as the code writes it:

- `WriteStartDocument(false)` is `StartDoc(false)`; .NET renders it with `standalone="no"`.
- `id` is the literal `"2"` written at line 95, which the code marks TODO.
- The version attribute is `nunit-version`; outside NETCORE the code also writes `clr-version`, `os-version` and `platform`.

The counters, the test case count and the seed are C# `int`s (`Int32`), and `total` is their unchecked 32-bit sum (`Wrap32`), as C# computes it.

## Model

| member | source | states |
|---|---|---|
| NUnit3Xml.HeaderOrder | src/NUnitFramework/nunitlite.runner/Runner/OutputWriters/NUnit3XmlOutputWriter.cs:95-115 | every `test-run` attribute is an attribute event, and their names are exactly `HeaderNames(label not empty)` in order; the first is `id` = "2", the last is `random-seed` = the supplied seed |
| NUnit3Xml.HeaderNamesListed | src/NUnitFramework/nunitlite.runner/Runner/OutputWriters/NUnit3XmlOutputWriter.cs:95-115 | the header name order spelled out: id, name, fullname, testcasecount, result, [label], start-time, end-time, duration, total, passed, failed, inconclusive, skipped, asserts, random-seed |
| NUnit3Xml.IdentityValues | src/NUnitFramework/nunitlite.runner/Runner/OutputWriters/NUnit3XmlOutputWriter.cs:95-98 | `id` = "2", `name`, `fullname` and `testcasecount` are written with the result's name, full name and the test's case count, and each is the only attribute of its name |
| NUnit3Xml.OutcomeValue | src/NUnitFramework/nunitlite.runner/Runner/OutputWriters/NUnit3XmlOutputWriter.cs:100 | `result` is written with the name of the result state's status, and is the only attribute of that name |
| NUnit3Xml.LabelIffNonEmpty | src/NUnitFramework/nunitlite.runner/Runner/OutputWriters/NUnit3XmlOutputWriter.cs:101-102 | a `label` attribute is written exactly when the label is not the empty string, and then its value is the label |
| NUnit3Xml.TimeValues | src/NUnitFramework/nunitlite.runner/Runner/OutputWriters/NUnit3XmlOutputWriter.cs:104-106 | `start-time`, `end-time` and `duration` are written with the result's (already formatted) values, each the only attribute of its name |
| NUnit3Xml.CountValues | src/NUnitFramework/nunitlite.runner/Runner/OutputWriters/NUnit3XmlOutputWriter.cs:108-115 | `total` is passed + failed + skipped + inconclusive in 32-bit `int` arithmetic, the exact sum whenever it fits; `passed`, `failed`, `inconclusive`, `skipped`, `asserts` and `random-seed` carry their own counter or the seed; each is the only attribute of its name |
| NUnit3Xml.TotalWraps | src/NUnitFramework/nunitlite.runner/Runner/OutputWriters/NUnit3XmlOutputWriter.cs:108 | with `PassCount` = 2147483647 and `FailCount` = 1 (others 0) the header carries `total` = -2147483648 |
| NUnit3Xml.HeaderNamesDistinct | src/NUnitFramework/nunitlite.runner/Runner/OutputWriters/NUnit3XmlOutputWriter.cs:95-115 | no `test-run` attribute name is written twice, with or without a label |
| NUnit3Xml.HeaderCarries | src/NUnitFramework/nunitlite.runner/Runner/OutputWriters/NUnit3XmlOutputWriter.cs:95-115 | any attribute written on `test-run` is the only one of its name |
| NUnit3Xml.EnvironmentNamesDistinct | src/NUnitFramework/nunitlite.runner/Runner/OutputWriters/NUnit3XmlOutputWriter.cs:130-152 | no environment attribute name is written twice, on any platform |
| NUnit3Xml.EnvironmentCarries | src/NUnitFramework/nunitlite.runner/Runner/OutputWriters/NUnit3XmlOutputWriter.cs:130-152 | any attribute written on `environment` is the only one of its name |
| NUnit3Xml.Wrap32 | src/NUnitFramework/nunitlite.runner/Runner/OutputWriters/NUnit3XmlOutputWriter.cs:108 | the 32-bit two's-complement value of an integer: congruent to it modulo 2^32, and equal to it when it fits in an `int` |
| NUnit3Xml.StatusName | src/NUnitFramework/nunitlite.runner/Runner/OutputWriters/NUnit3XmlOutputWriter.cs:100 | definition: `TestStatus.ToString()`; property in `OutcomeValue` |
| NUnit3Xml.Total | src/NUnitFramework/nunitlite.runner/Runner/OutputWriters/NUnit3XmlOutputWriter.cs:108 | definition (the wrapped sum of the four counters); properties in `CountValues`, `TotalWraps` |
| NUnit3Xml.HeaderAttributes | src/NUnitFramework/nunitlite.runner/Runner/OutputWriters/NUnit3XmlOutputWriter.cs:95-115 | definition of the `test-run` attributes in call order; properties in `HeaderOrder`, `HeaderNamesListed`, the value lemmas |
| NUnit3Xml.IdentityAttributes | src/NUnitFramework/nunitlite.runner/Runner/OutputWriters/NUnit3XmlOutputWriter.cs:95-98 | definition; properties in `HeaderOrder`, `IdentityValues` |
| NUnit3Xml.OutcomeAttributes | src/NUnitFramework/nunitlite.runner/Runner/OutputWriters/NUnit3XmlOutputWriter.cs:100-102 | definition (the `if` on the label); properties in `LabelIffNonEmpty`, `OutcomeValue` |
| NUnit3Xml.TimeAttributes | src/NUnitFramework/nunitlite.runner/Runner/OutputWriters/NUnit3XmlOutputWriter.cs:104-106 | definition; properties in `TimeValues` |
| NUnit3Xml.CountAttributes | src/NUnitFramework/nunitlite.runner/Runner/OutputWriters/NUnit3XmlOutputWriter.cs:108-113 | definition; properties in `CountValues` |
| NUnit3Xml.EnvironmentAttributes | src/NUnitFramework/nunitlite.runner/Runner/OutputWriters/NUnit3XmlOutputWriter.cs:130-152 | definition of the environment attributes in call order; properties in `EnvironmentOrder`, `EnvironmentFlags`, `EnvironmentValues` |
| NUnit3Xml.RuntimeAttributes | src/NUnitFramework/nunitlite.runner/Runner/OutputWriters/NUnit3XmlOutputWriter.cs:132-136 | definition (`#if !NETCORE`); properties in `RuntimeOrder` |
| NUnit3Xml.LocationAttributes | src/NUnitFramework/nunitlite.runner/Runner/OutputWriters/NUnit3XmlOutputWriter.cs:137-150 | definition (`#if !NETCF`); properties in `LocationOrder` |
| NUnit3Xml.MachineAttributes | src/NUnitFramework/nunitlite.runner/Runner/OutputWriters/NUnit3XmlOutputWriter.cs:145-149 | definition (`#if !SILVERLIGHT && !NETCORE`); properties in `LocationOrder`, `EnvironmentFlags` |
| NUnit3Xml.EnvironmentElement | src/NUnitFramework/nunitlite.runner/Runner/OutputWriters/NUnit3XmlOutputWriter.cs:122-154 | definition; properties in `EnvironmentBalanced`, `EnvironmentFirstChild` |
| NUnit3Xml.Prologue | src/NUnitFramework/nunitlite.runner/Runner/OutputWriters/NUnit3XmlOutputWriter.cs:86-118 | definition of all InitializeXmlFile writes; properties in `PrologueRun`, `EnvironmentFirstChild` |
| NUnit3Xml.Epilogue | src/NUnitFramework/nunitlite.runner/Runner/OutputWriters/NUnit3XmlOutputWriter.cs:157-167 | definition of all TerminateXmlFile writes; properties in `EpilogueRun` |
| NUnit3Xml.ResultDocument | src/NUnitFramework/nunitlite.runner/Runner/OutputWriters/NUnit3XmlOutputWriter.cs:64-84 | definition of the result document; properties in `ResultDocumentWellFormed`, `SubtreeContiguous` |
| NUnit3Xml.TestDocument | src/NUnitFramework/nunitlite.runner/Runner/OutputWriters/NUnit3XmlOutputWriter.cs:48-57 | definition of the test document; properties in `TestDocumentWellFormed` |
| NUnit3Xml.NUnit3XmlOutputWriter.constructor | src/NUnitFramework/nunitlite.runner/Runner/OutputWriters/NUnit3XmlOutputWriter.cs:39-41 | the writer starts with no `xmlWriter`, and its `platform` fixes the `#if` symbols for all later calls |
| XmlWriterModel.TextWriter.constructor | src/NUnitFramework/nunitlite.runner/Runner/OutputWriters/NUnit3XmlOutputWriter.cs:64 | the caller's `TextWriter`, here starting with no text |
| NUnit3Xml.EnvironmentOrder | src/NUnitFramework/nunitlite.runner/Runner/OutputWriters/NUnit3XmlOutputWriter.cs:130-152 | the environment attributes are attribute events whose names are exactly `EnvironmentNames(platform)`, in order |
| NUnit3Xml.RuntimeOrder | src/NUnitFramework/nunitlite.runner/Runner/OutputWriters/NUnit3XmlOutputWriter.cs:132-136 | `clr-version`, `os-version`, `platform` in that order, unless NETCORE, and nothing otherwise |
| NUnit3Xml.LocationOrder | src/NUnitFramework/nunitlite.runner/Runner/OutputWriters/NUnit3XmlOutputWriter.cs:137-150 | `cwd` unless NETCF, then `machine-name`, `user`, `user-domain` unless SILVERLIGHT or NETCORE as well |
| NUnit3Xml.EnvironmentFlags | src/NUnitFramework/nunitlite.runner/Runner/OutputWriters/NUnit3XmlOutputWriter.cs:130-152 | `nunit-version`, `culture`, `uiculture` always appear; `clr-version`, `os-version`, `platform` appear iff not NETCORE; `cwd` iff not NETCF; `machine-name`, `user`, `user-domain` iff none of NETCF, SILVERLIGHT, NETCORE |
| NUnit3Xml.EnvironmentValues | src/NUnitFramework/nunitlite.runner/Runner/OutputWriters/NUnit3XmlOutputWriter.cs:130-152 | every environment attribute the platform writes carries the corresponding host fact, and is the only attribute of that name |
| NUnit3Xml.EnvironmentBalanced | src/NUnitFramework/nunitlite.runner/Runner/OutputWriters/NUnit3XmlOutputWriter.cs:122-154 | the environment element is opened, given only attributes and closed again: a balanced subtree |
| NUnit3Xml.EnvironmentFirstChild | src/NUnitFramework/nunitlite.runner/Runner/OutputWriters/NUnit3XmlOutputWriter.cs:88-154 | the prologue is: the declaration `StartDoc(false)`, `test-run` start, only `test-run`'s attributes, then the whole environment element (starting with `environment`, ending with its EndEl) and nothing after it |
| NUnit3Xml.PrologueRun | src/NUnitFramework/nunitlite.runner/Runner/OutputWriters/NUnit3XmlOutputWriter.cs:86-118 | the writer accepts every call InitializeXmlFile makes, and is left inside `test-run` with its start tag shut |
| NUnit3Xml.BodyRun | src/NUnitFramework/nunitlite.runner/Runner/OutputWriters/NUnit3XmlOutputWriter.cs:79-81 | after the prologue and a balanced result subtree the writer is again inside `test-run` and nothing else is open |
| NUnit3Xml.SubtreeContiguous | src/NUnitFramework/nunitlite.runner/Runner/OutputWriters/NUnit3XmlOutputWriter.cs:79-83 | the document is the prologue, then the result subtree unchanged and in one piece, directly after the environment's EndEl and directly before the EndEl that closes `test-run`; the writer is inside `test-run` on both sides of it |
| NUnit3Xml.EpilogueRun | src/NUnitFramework/nunitlite.runner/Runner/OutputWriters/NUnit3XmlOutputWriter.cs:157-167 | inside `test-run`, the first EndEl returns to the top level and EndEl, EndDoc, Flush, Close are all accepted and leave the writer closed |
| NUnit3Xml.ResultDocumentWellFormed | src/NUnitFramework/nunitlite.runner/Runner/OutputWriters/NUnit3XmlOutputWriter.cs:86-167 | for a balanced subtree the result document starts with StartDoc, ends with EndEl, EndDoc, Flush, Close, has every element closed before EndDoc, and every call in it is accepted, ending in the closed state |
| NUnit3Xml.TestDocumentWellFormed | src/NUnitFramework/nunitlite.runner/Runner/OutputWriters/NUnit3XmlOutputWriter.cs:48-57 | the test document is the test's own subtree followed by Close and nothing else: no declaration, no `test-run`, no environment, no summary; the writer accepts all of it |
| NUnit3Xml.NUnit3XmlOutputWriter.WriteTestFile | src/NUnitFramework/nunitlite.runner/Runner/OutputWriters/NUnit3XmlOutputWriter.cs:48-57 | the `TextWriter` receives exactly `TestDocument(test)` |
| NUnit3Xml.NUnit3XmlOutputWriter.WriteResultFile | src/NUnitFramework/nunitlite.runner/Runner/OutputWriters/NUnit3XmlOutputWriter.cs:64-73 | the `TextWriter` receives exactly `ResultDocument(result, seed, host, platform)`; the Dispose at the end of the `using` block adds nothing |
| NUnit3Xml.NUnit3XmlOutputWriter.WriteXmlResultOutput | src/NUnitFramework/nunitlite.runner/Runner/OutputWriters/NUnit3XmlOutputWriter.cs:75-84 | stores the writer in `xmlWriter`, appends the whole result document and leaves the writer closed |
| NUnit3Xml.NUnit3XmlOutputWriter.InitializeXmlFile | src/NUnitFramework/nunitlite.runner/Runner/OutputWriters/NUnit3XmlOutputWriter.cs:86-118 | from a fresh writer, appends exactly `Prologue(...)` and leaves the writer inside `test-run` |
| NUnit3Xml.NUnit3XmlOutputWriter.WriteOutcomeAttributes | src/NUnitFramework/nunitlite.runner/Runner/OutputWriters/NUnit3XmlOutputWriter.cs:100-102 | appends `result` and, for a non-empty label, `label`, that is `OutcomeAttributes(result)`; state unchanged |
| NUnit3Xml.NUnit3XmlOutputWriter.WriteEnvironmentElement | src/NUnitFramework/nunitlite.runner/Runner/OutputWriters/NUnit3XmlOutputWriter.cs:120-155 | appends exactly `EnvironmentElement(host, platform)`; the open-element stack is as before and no start tag is left open |
| NUnit3Xml.NUnit3XmlOutputWriter.WriteRuntimeAttributes | src/NUnitFramework/nunitlite.runner/Runner/OutputWriters/NUnit3XmlOutputWriter.cs:132-136 | appends `RuntimeAttributes(host, platform)`; state unchanged |
| NUnit3Xml.NUnit3XmlOutputWriter.WriteLocationAttributes | src/NUnitFramework/nunitlite.runner/Runner/OutputWriters/NUnit3XmlOutputWriter.cs:137-150 | appends `LocationAttributes(host, platform)`; state unchanged |
| NUnit3Xml.NUnit3XmlOutputWriter.TerminateXmlFile | src/NUnitFramework/nunitlite.runner/Runner/OutputWriters/NUnit3XmlOutputWriter.cs:157-167 | inside `test-run`, appends EndEl, EndDoc, Flush, Close and leaves the writer closed |
| XmlWriterModel.XmlWriter.Create | src/NUnitFramework/nunitlite.runner/Runner/OutputWriters/NUnit3XmlOutputWriter.cs:69 | `XmlWriter.Create` gives a fresh, valid writer over the given `TextWriter` that has written nothing |
| XmlWriterModel.XmlWriter.WriteStartDocument | src/NUnitFramework/nunitlite.runner/Runner/OutputWriters/NUnit3XmlOutputWriter.cs:88 | only in the initial state (nothing but `Flush` written yet); appends the declaration and starts the document |
| XmlWriterModel.XmlWriter.WriteStartElement | src/NUnitFramework/nunitlite.runner/Runner/OutputWriters/NUnit3XmlOutputWriter.cs:93 | pushes the element on the open stack and opens its start tag |
| XmlWriterModel.XmlWriter.WriteAttributeString | src/NUnitFramework/nunitlite.runner/Runner/OutputWriters/NUnit3XmlOutputWriter.cs:95-115 | only while a start tag is open; appends the attribute and changes no state |
| XmlWriterModel.XmlWriter.WriteEndElement | src/NUnitFramework/nunitlite.runner/Runner/OutputWriters/NUnit3XmlOutputWriter.cs:154 | only with an element open; pops it and shuts the start tag |
| XmlWriterModel.XmlWriter.WriteEndDocument | src/NUnitFramework/nunitlite.runner/Runner/OutputWriters/NUnit3XmlOutputWriter.cs:160 | closes every element still open, then ends the document |
| XmlWriterModel.XmlWriter.Flush | src/NUnitFramework/nunitlite.runner/Runner/OutputWriters/NUnit3XmlOutputWriter.cs:161 | appends Flush on an open writer; state unchanged |
| XmlWriterModel.XmlWriter.Close | src/NUnitFramework/nunitlite.runner/Runner/OutputWriters/NUnit3XmlOutputWriter.cs:162-166 | closes every open element and then the writer; on a closed writer it adds nothing |
| XmlWriterModel.XmlWriter.WriteNode | src/NUnitFramework/nunitlite.runner/Runner/OutputWriters/NUnit3XmlOutputWriter.cs:81 | `ToXml(true).WriteTo(writer)` appends the balanced subtree as it is and leaves the stack as it was |
| XmlEvents.BalancedRun | src/NUnitFramework/nunitlite.runner/Runner/OutputWriters/NUnit3XmlOutputWriter.cs:81 | a non-empty balanced subtree written below any stack of open elements ends with that same stack and its start tag shut |
| XmlEvents.RunShift | src/NUnitFramework/nunitlite.runner/Runner/OutputWriters/NUnit3XmlOutputWriter.cs:81 | element content behaves the same whatever elements are open below it |

## Left out

- Rendering: indentation (`settings.Indent`), escaping, encoding and the text of the XML declaration. The text is kept as the event log it was rendered from.
- The declaration that .NET's `XmlWriter` itself adds when `WriteTestFile` writes an element without `WriteStartDocument`. That text comes from the library, and the model records only the calls the class makes.
- `ITest.ToXml` and `ITestResult.ToXml` are not part of this model. Their output is an opaque `seq<Event>` that the callers of `WriteTestFile` and `WriteResultFile` must supply balanced.
- `XmlEvents.Balanced` is weaker than "one XML node": `Event` has no text, CDATA or comment events, so a subtree holds only elements and attributes. `Balanced` also accepts several top-level elements in a row, or none, where `ToXml(true)` returns exactly one node.
- Formatting of `StartTime` and `EndTime` with "u" and of `Duration` with "0.000000" (a date-time library call and floating point). The values arrive as strings.
- `TestStatus` (`Inconclusive | Skipped | Passed | Failed`) and its `ToString()` are not part of this model's source file; the four values and their names are taken as NUnit declares them.
- `ToString()` of the integer counters and of the seed. Attribute values are `Num(n)`, so no number is converted to text. The 32-bit width of those values is modelled (`Int32`, `Wrap32`).
- The host queries: `Assembly`, `AssemblyHelper.GetAssemblyName`, `Environment.*`, `Directory.GetCurrentDirectory()`, `CultureInfo`. They are foreign calls, and their results are fields of a `Host` value. The `FEATURE_LEGACY_REFLECTION` choice of how to find the assembly only changes how the version is obtained, so it is not modelled.
- The host queries cannot fail in the model. In the code, `Environment.MachineName`, `UserName`, `UserDomainName` and `OSVersion` can throw, and the exception leaves `WriteResultFile` with a document that stops part way. Whether an attribute is written depends only on the compilation symbols: the code never leaves out a fact because the host cannot supply it, and neither does the model.
- `Randomizer.InitialSeed` is global process state; it is a parameter.
- `TextWriter` I/O and its failure paths; the exception paths of the `using` blocks. Events cannot fail to be written.
- `XmlWriter.Dispose` under NETCORE is modelled as `Close`: both end the writer the same way in this model.
- `XmlWriter` document conformance beyond nesting: `Step` does not reject a second root element or a repeated attribute name. The class never makes either call.
- `XmlWriterModel.XmlWriter.Flush`: the model does not say what flushing does to the underlying text. It only records that the call was made.
