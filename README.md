# protoc-gen-gokitmux generator core, modelled in Dafny

protoc-gen-gokitmux is a protoc plugin. From annotated gRPC service descriptors it generates go-kit HTTP transport code routed through gorilla/mux. This project models the part of the plugin that decides *what* gets generated. The templates only decide how that output is spelled. The model covers:

- **Plugin parameters** (`Plugin`). The request parameter is split on "," and each item is cut at its first "=". An item is either a flag setting or, when its name starts with "M", a proto-file-to-Go-package mapping. The generated package name is the last "/" component of the module path.
- **Binding helpers** (`Bindings`). These are the per-binding queries the templates call:
  - the body field path, or the "*" wildcard, and its camel-cased struct name;
  - whether query parameters must be parsed;
  - the consumed field paths handed to the double-array filter;
  - whether an enum or repeated-enum path parameter exists;
  - the enum lookup;
  - the single FieldMask field;
  - the stable rendering of the filter's encoding table.
- **Descriptor graph and registry** (`Descriptor`). Files, services, methods and messages are objects whose `name` fields the generator overwrites in place. The registry holds the package alias table. Reserving an alias fails only when the alias is already bound to another path.
- **Template inputs** (`Templates`):
  - which services are targets, kept in original order;
  - the in-place camel-casing of message, service and method names;
  - the import list each header receives;
  - the "no target service" signal;
  - the run-time panic of the service template's file-name slicing.
- **Import de-duplication** (`Imports`, `Generator`). Import candidates are walked file by file, then service, method, binding and parameter, against the shared `pkgSeen` set. A candidate is dropped when its path was already seen or when it is the generated file's own package.
- **The generator** (`Generator`):
  - construction, which reserves an alias for each of the eleven base imports, retrying `name_0`, `name_1`, … on a collision, and parses the `paths=` option;
  - the `getFilePath` case analysis;
  - `Generate`'s rules: which files it skips and which errors abort, how each output is named, and the order of the outputs.

Template execution, `format.Source`, `casing.Camel` and reading `go.mod` are collaborators outside the model. They are fields of `Templates.Env`: `render`, `format`, `camel` and `moduleName`. Each may return anything, `render` and `format` may fail, and `moduleName` is an error when go.mod cannot be opened or its first line cannot be read (where `readModuleName` panics). Every property below therefore holds for every behaviour of these collaborators.

Three details of the code that the model keeps:

- The alias retry loop in `New` is correct as written. It moves to the next candidate while a reservation fails and stops at the first one that succeeds. `Generator.ReserveBaseImport` proves that the alias chosen is the first free candidate.
- A method without bindings contributes no import at all. The enum-import walk iterates over the method's bindings, so a method with none adds nothing (`Imports.NoBindingsNoCandidates`).
- Names are camel-cased only after the per-file header template has been executed. If that execution fails, nothing is renamed (`Templates.ApplyTemplate`).

## Model

| member | source | states |
|---|---|---|
| Plugin.ClassifyItem | main.go:61-75 | An item without "=" sets the flag of that name to "". An item with "=" is cut at its first "=" only: the action reproduces the item exactly as key "=" value, so the value may itself contain "=". A key starting with "M" becomes a package mapping of the rest of the key; any other key sets a flag. |
| Plugin.ClassifyItemText | main.go:61-75 | Every action an item can produce comes back from classifying that action's own item text, so the classifier loses nothing. |
| Plugin.ParameterActions | main.go:59 | An absent parameter yields no actions. |
| Plugin.ProcessParameter | main.go:59-77 | The loop yields one action per ","-separated item, in the items' order, each the classification of its item, so it equals `ParameterActions`. An absent parameter yields none. |
| Plugin.ParameterRoundTrip | main.go:60-75 | A parameter written from producible, comma-free actions reads back as exactly those actions, in order. |
| Plugin.ParameterItems | main.go:60 | No item of a parameter contains ",", and joining the items with "," gives back the parameter. |
| Plugin.PackageName | main.go:111-112 | The package name is the last element of splitting the module path on "/". It contains no "/", ends the module path, and is either the whole path or follows a "/". |
| Text.IndexOf | main.go:61 | Returns the position of the first separator, with none before it, or -1 when there is none. |
| Text.LastIndexOf | internal/gengateway/template.go:253 | Returns the position of the last separator, with none after it, or -1 when there is none. |
| Text.Split | main.go:60 | `strings.Split` always yields at least one piece. |
| Text.SplitPiecesLackSeparator | main.go:60 | No piece of a split contains the separator. |
| Text.JoinSplit | main.go:60 | Joining the pieces of a split with the separator gives back the string. |
| Text.SplitJoin | main.go:60 | Splitting a join of separator-free pieces gives back the pieces. |
| Text.LastComponent | internal/gengateway/generator.go:112-113 | The last "/" component has no "/", is a suffix of the string, and is the whole string or follows a "/". |
| Text.SplitLastIsLastComponent | internal/gengateway/generator.go:95-96 | The last element of `strings.Split` on a character is the longest separator-free suffix. |
| Text.TrimTrailingSlashes | internal/gengateway/generator.go:191 | The result is a prefix of the input that does not end in "/", and everything cut off is "/". |
| Text.Ext | internal/gengateway/generator.go:114-115 | The extension is empty or starts with a "." and holds no other "." and no "/", and it is a suffix of the name, so trimming it removes exactly the extension. It is empty exactly when every "." of the name is followed by a "/". |
| Text.PathBase | internal/gengateway/generator.go:57 | `path.Base`: "." for the empty path and "/" for a path of slashes only. Otherwise, with the trailing slashes trimmed, the result is the non-empty, slash-free suffix that is the whole path or follows a "/". |
| Text.DecimalRoundTrip | internal/gengateway/generator.go:61 | The decimal text of a counter reads back as the counter. |
| Text.NatToStringInjective | internal/gengateway/generator.go:61 | Distinct counters have distinct decimal texts. |
| Descriptor.Registry.Reserve | internal/gengateway/generator.go:59-62 | Reservation succeeds exactly when the alias is free or already bound to the same path. On success the alias is bound to the path; on failure the table is unchanged. |
| Bindings.BodyFieldPathIsStarIff | internal/gengateway/template.go:49-54 | The contract of `GetBodyFieldPath`: it is "*" exactly when the body is absent or has an empty field path. Otherwise splitting it on "." gives the body's field path. |
| Bindings.SplitFieldPath | internal/gengateway/template.go:88-91 | The dotted string of a field path splits on "." back into its components. |
| Bindings.NestedPathIsNotItsHead | internal/gengateway/template.go:76-81 | A nested path "a.b" differs from its head "a". Removing it therefore leaves the top-level field "a" in place. |
| Bindings.GetBodyFieldStructName | internal/gengateway/template.go:57-62 | Returns an error exactly when the body path would be "*". Otherwise it returns the camel-cased body path. |
| Bindings.HasQueryParam | internal/gengateway/template.go:68-83 | False for the wildcard body. Otherwise true exactly when some top-level request field name is neither the body path nor any path-parameter path. |
| Bindings.FieldNameMap | internal/gengateway/template.go:72-75 | The map's keys are exactly the request's field names. |
| Bindings.RemovePathParams | internal/gengateway/template.go:79-81 | The keys left are the old keys minus every path-parameter path. |
| Bindings.FreeFieldNamesExample | internal/gengateway/template.go:64-83 | With fields a, b and c, body a and path parameter b, only c is free. |
| Bindings.QueryParamFilter | internal/gengateway/template.go:85-94 | The filter is built from one split path per consumed path: the body's first when it is present, then one per path parameter, in order. The count is (body ? 1 : 0) + the number of path parameters. |
| Bindings.HasEnumPathParamWith | internal/gengateway/template.go:111-118 | True exactly when some path parameter is an enum whose repeated flag equals the argument. |
| Bindings.HasEnumPathParam | internal/gengateway/template.go:98-100 | True exactly when some path parameter is a non-repeated enum. |
| Bindings.HasRepeatedEnumPathParam | internal/gengateway/template.go:104-106 | True exactly when some path parameter is a repeated enum. |
| Bindings.LookupEnum | internal/gengateway/template.go:121-127 | Returns None exactly when the registry lacks the parameter's type name, and otherwise that enum. |
| Bindings.FieldMaskIndices | internal/gengateway/template.go:133-134 | Every listed index points at a FieldMask field. |
| Bindings.FieldMaskIndicesExact | internal/gengateway/template.go:133-134 | The index list is increasing and holds exactly the positions of the FieldMask fields. |
| Bindings.FieldMaskField | internal/gengateway/template.go:131-146 | Returns the camel-cased name of the FieldMask field when exactly one exists, and "" when there are none or two or more. |
| Bindings.DenseEncodingIsOnto | internal/gengateway/template.go:154-156 | An encoding numbered 0..n-1 without repeats fills every slot of the n-slot entry slice. |
| Bindings.EntriesDetermined | internal/gengateway/template.go:154-158 | Under such an encoding, any two entry slices that put each key's entry at its index are equal, so the rendered text is fully determined. |
| Bindings.String | internal/gengateway/template.go:153-160 | Each encoding key's entry sits at that key's index, and every slot is some key's, so the entries come out in ascending index order. The text is the Go literal built from those entries and the Base and Check arrays. |
| Bindings.IntSliceLiteral | internal/gengateway/template.go:159 | A nil Base or Check array prints as `[]int(nil)`, and only a nil one does. A present one prints as `[]int{` … `}`. |
| Imports.DedupAppend | internal/gengateway/generator.go:208-219 | Offering two candidate lists in turn is offering their concatenation, so the shared seen set carries over between methods. |
| Imports.DedupPrefix | internal/gengateway/generator.go:204-210 | The imports gathered so far stay in front, untouched, and do not affect what is added after them. |
| Imports.DedupShape | internal/gengateway/generator.go:208-219 | The old imports are kept as a prefix. The added imports have pairwise distinct paths, and the seen set grows by exactly their paths. |
| Imports.DedupOrigin | internal/gengateway/generator.go:211-217 | Each added import was not seen before and comes from a candidate other than the file's own package. Every candidate is either the file's own package or has its path in the final seen set. |
| Imports.DedupDistinct | internal/gengateway/generator.go:202-219 | Starting from distinct base imports, the whole list has distinct paths, and the seen set is exactly their paths. |
| Imports.NoBindingsNoCandidates | internal/gengateway/generator.go:210-215 | A method without bindings offers no candidate at all, neither an enum package nor its request package. |
| Imports.FileCandsHome | internal/gengateway/generator.go:210-211 | Every candidate of a file is compared against that file's own package. |
| Imports.ParamCandsResolved | internal/gengateway/generator.go:314-319 | Every enum candidate is the package of an enum that the lookup found for one of the path parameters. Lookup misses offer nothing. |
| Templates.KitImports | internal/gengateway/template.go:174-184 | The per-file header imports are reset to exactly the go-kit HTTP transport aliased `httptransport`, followed by the metrics package (unaliased) exactly when it is non-empty: one entry or two. |
| Templates.TargetServicesMembers | internal/gengateway/template.go:196-211 | The contract of `TargetServices`: a service is a target exactly when it is one of the services and some method of it has a binding. |
| Templates.TargetServicesAppend | internal/gengateway/template.go:208-210 | Targets are selected service by service, so the order of the services is kept. |
| Templates.TargetServicesEmpty | internal/gengateway/template.go:212-214 | There are no targets exactly when no service has a bound method. |
| Templates.AssumeColonVerb | internal/gengateway/template.go:216-219 | Path templates assume a trailing ":verb" when there is no registry, and otherwise exactly when the registry does not allow colons in final segments. |
| Templates.KitOutcome | internal/gengateway/template.go:187-214 | The result is "no target service" exactly when the header renders and no service has a bound method. A success implies some service has one. |
| Templates.RenameMessages | internal/gengateway/template.go:192-195 | Every message's name becomes the camel case of its old name. |
| Templates.RenameService | internal/gengateway/template.go:197-207 | The service's name and each of its methods' names become camel-cased. The result tells whether some method has a binding. |
| Templates.RenameServices | internal/gengateway/template.go:196-211 | Every service and method name is camel-cased. The returned targets are the services with a bound method, in order. |
| Templates.RenameFile | internal/gengateway/template.go:192-211 | The file's messages, services and methods are all camel-cased, and its target services are returned. |
| Templates.ApplyTemplate | internal/gengateway/template.go:172-232 | The result is the per-file outcome. After a header failure nothing is renamed. Otherwise every message, service and method name is camel-cased, on the "no target service" path too. |
| Templates.ServiceImportIsModuleDirectory | internal/gengateway/template.go:252-258 | The contract of `ServiceImport`: the service import path is the module name joined with the directory of the service's file. The package name kept with it is a prefix of "/" plus the file's base name. |
| Templates.ServiceFileNamePanicsIff | internal/gengateway/template.go:252-257 | The contract of `ServiceFileNamePanics`: slicing a service's file name panics exactly when the name has no "/" or its last component has no ".". |
| Templates.ServiceImports | internal/gengateway/template.go:247-258 | There is one import per service, in service order, each the import of that service's file. |
| Templates.ServiceOutcome | internal/gengateway/template.go:234-298 | An unreadable go.mod is a crash before anything else. The service generation crashes exactly when go.mod is unreadable or some service's file name cannot be sliced. It reports "no target service" exactly when there is no crash and no service across the files has a bound method. |
| Templates.RenderServiceFile | internal/gengateway/template.go:276-297 | The only failure left after target selection is a template execution error. |
| Templates.CollectServiceImports | internal/gengateway/template.go:247-258 | Succeeds exactly when no service's file name panics, and then yields the per-service imports. |
| Templates.RenameFiles | internal/gengateway/template.go:240-271 | Every message, service and method name across all files is camel-cased, and the targets over all files are returned. |
| Templates.ApplyServiceTemplate | internal/gengateway/template.go:234-298 | The result is the service outcome. When go.mod is unreadable no name changes. Unless that happens or a file name panics, every message, service and method name across the files is camel-cased. |
| Templates.RenameAndRenderServices | internal/gengateway/template.go:240-297 | With the service imports computed, the renaming and the rendering give the service outcome, and every name across the files is camel-cased. |
| Templates.ApplyRoutesTemplate | internal/gengateway/template.go:300-319 | Succeeds exactly when the header, whose only import is gorilla/mux, and the routes body both render. Every failure is a template error. |
| Templates.ApplyEndpointsTemplate | internal/gengateway/template.go:321-348 | Succeeds exactly when the header, whose imports are context, go-kit endpoint and net/http, and the endpoints body both render. Every failure is a template error. |
| Generator.ParsePathType | internal/gengateway/generator.go:72-80 | "" and "import" give the import path type, "source_relative" gives the source-relative one, and anything else is rejected. |
| Generator.ParsePathTypeRoundTrip | internal/gengateway/generator.go:72-80 | Each path type is accepted under its own name, and only "" and those names are accepted. |
| Generator.AliasCandidateInjective | internal/gengateway/generator.go:61 | The contract of `AliasCandidate`: distinct retry counters give distinct `name_i` aliases. |
| Generator.FirstFreeFrom | internal/gengateway/generator.go:60-67 | The retry loop from counter i ends: it finds a reservable `name_r` with r at least i and every earlier candidate taken. |
| Generator.FirstFreeUnique | internal/gengateway/generator.go:60-67 | The first reservable candidate is unique: a free counter with every smaller one taken is the one the loop finds. |
| Generator.CandidatesTaken | internal/gengateway/generator.go:60-64 | If the first n candidates all fail, then at least n aliases are already bound, so the retry loop ends. |
| Generator.ReserveFallbackAlias | internal/gengateway/generator.go:60-67 | Returns the first candidate `name_i` that can be reserved, having failed on every earlier one, and binds it to the path. |
| Generator.ReserveBaseImport | internal/gengateway/generator.go:55-69 | The import is named by `path.Base` of its path. It keeps an empty alias when that name can be reserved; otherwise it takes the first reservable `name_i`. Its effective alias ends up bound to its path. The import and the new table are the one-step reservation `ReserveOne`. |
| Generator.ReserveNextKeeps | internal/gengateway/generator.go:59-69 | Reserving the next base import keeps every earlier import's binding and every earlier alias of the registry. |
| Generator.EffectiveAliasesDistinct | internal/gengateway/generator.go:42-69 | No two base imports are known by the same name in generated code. |
| Generator.New | internal/gengateway/generator.go:40-91 | The base imports and the alias table are exactly those of reserving the eleven paths one after another (`ReserveAll`). All are reserved in the listed order, each named by `path.Base`, and the registry keeps its earlier aliases. Construction fails exactly when the path type is unknown, and otherwise copies the options through. |
| Generator.ReserveAllReserved | internal/gengateway/generator.go:42-70 | Reserving distinct paths one after another yields one import per path, in order, each named by `path.Base` and bound under its effective alias, and keeps every earlier binding. |
| Generator.GetFilePath | internal/gengateway/generator.go:180-199 | A module prefix combined with a non-import path type is an error. A Go path outside the module prefix is an error. Without a module prefix, source-relative paths or an empty Go path keep the file name. |
| Generator.GetFilePathUnderPackage | internal/gengateway/generator.go:186-194 | With import paths the output is the base name under the Go package path. With a module prefix it is that path relative to the module, and the base name alone when the package is the module itself. |
| Generator.ModuleRelativeJoin | internal/gengateway/generator.go:187-191 | Cutting the module prefix off a package path and joining the base name puts the prefix back. |
| Generator.JoinPath | internal/gengateway/generator.go:191 | `filepath.Join` as modelled: an empty directory gives the element. Otherwise the result is the directory without its trailing slashes, one "/", and the element. |
| Generator.SeedImports | internal/gengateway/generator.go:202-207 | Every import walk starts from the base imports, in order, with exactly their paths seen. |
| Generator.AddParamImports | internal/gengateway/generator.go:314-325 | The loop over path parameters offers each resolved enum's package, as the de-duplication specifies. |
| Generator.AddEnumPathParamImports | internal/gengateway/generator.go:311-328 | The enum imports of a method are the de-duplicated candidates of all its bindings, starting from an empty list and the shared seen set. |
| Generator.AddMethodImports | internal/gengateway/generator.go:210-217 | A method first adds its enum imports, then its request package if it has bindings. Together this is the de-duplication of the method's candidates. |
| Generator.AddServiceImports | internal/gengateway/generator.go:209-218 | Walking a service's methods is the de-duplication of their candidates in order. |
| Generator.AddFileImports | internal/gengateway/generator.go:208-219 | Walking a file's services is the de-duplication of their candidates in order. |
| Generator.FileImports | internal/gengateway/generator.go:201-219 | The per-file import list is the de-duplication of the file's candidates after the base imports. |
| Generator.ServiceFilesImports | internal/gengateway/generator.go:234-254 | The service import list is the de-duplication of all files' candidates, in file order, after the base imports. |
| Generator.FileImportsProps | internal/gengateway/generator.go:201-219 | The list starts with the base imports in order and has pairwise distinct paths. No added import is the file's own package or a base import's path. |
| Generator.OutputPackageName | internal/gengateway/generator.go:95-96 | The package name is the last element of splitting the output path on "/". It has no "/" and is a suffix of the output path. |
| Generator.FileSettings | internal/gengateway/generator.go:220-230 | The per-file settings copy the generator's request-context, suffix and patch options and the parameters' metrics package and error encoder. The output path is the run's, and the package name is the last element of the output path. |
| Generator.SharedSettings | internal/gengateway/generator.go:256-265 | The settings of the service, routes and endpoints units are the per-file settings without an error encoder, with the package name from the output path. |
| Generator.OutputNameIsBaseWithoutExt | internal/gengateway/generator.go:112-116 | The contract of `OutputName`: a file's output is the output path, "/", the last component of the file name without its extension, and ".gm.go". |
| Generator.Formatted | internal/gengateway/generator.go:104-111 | A generation error passes through unchanged, before formatting is attempted. |
| Generator.FileKind | internal/gengateway/generator.go:99-116 | A file is skipped exactly when its generation reports no target service. A failure carries any other generation error or the formatting error. A produced file is the formatted code under the file's output name. |
| Generator.FileKinds | internal/gengateway/generator.go:97 | There is one step per target file. |
| Generator.FirstFail | internal/gengateway/generator.go:97-111 | The position of the first failing file, or the number of files when none fails: every earlier step succeeds and the step at that position fails. |
| Generator.FoldStepsFirstFail | internal/gengateway/generator.go:97-122 | The per-file stage fails exactly when some file fails, and then with the error of the first failing file. |
| Generator.FilesOutcomeFail | internal/gengateway/generator.go:104-111 | A failure after an all-successful prefix is the first failure, and its error is the whole per-file outcome; the files handled by then are those up to and including the failing one. |
| Generator.FilesOutcomeAllRender | internal/gengateway/generator.go:97-122 | When every file succeeds, no step fails and every file's header renders, so every file was renamed. |
| Generator.FoldStepsErr | internal/gengateway/generator.go:97-122 | The per-file stage fails exactly when some file fails, and then with the error of the first failing file. |
| Generator.FoldStepsOk | internal/gengateway/generator.go:97-122 | When the per-file stage succeeds, no file failed. Its outputs are exactly the produced files' outputs, in target order. |
| Generator.FilesOutcomeSnoc | internal/gengateway/generator.go:97-122 | Processing one more target extends the per-file outcome by that file's step. |
| Generator.FilesOutcomeErrSticks | internal/gengateway/generator.go:104-111 | Once a file has failed, later files do not change the outcome. |
| Generator.AssembleShape | internal/gengateway/generator.go:124-177 | A per-file error is the whole result. After per-file success, the first of the service (when requested), routes and endpoints units whose generation or formatting fails ends the run with that error, errNoTargetService of the service unit included. On success the per-file outputs come first, then service.gm.go if requested, then routes.gm.go and endpoints.gm.go, each holding its unit's formatted code. |
| Generator.AssembleOutputs | internal/gengateway/generator.go:97-177 | A successful assembly emits the outputs of the produced steps in order, followed by the fixed-name units. |
| Generator.GenerateAbortsAtFirstFailure | internal/gengateway/generator.go:104-111 | Generate returns the error of the first target file whose generation or formatting fails, and no files. |
| Generator.GenerateOutputs | internal/gengateway/generator.go:93-178 | A successful run emits exactly the non-skipped files' outputs in target order. Then come service.gm.go when requested, then routes.gm.go and endpoints.gm.go. |
| Generator.GenerateFile | internal/gengateway/generator.go:201-232 | `generate` yields the per-file template outcome. The file's names are camel-cased exactly when its header renders, and are otherwise unchanged. |
| Generator.GenerateService | internal/gengateway/generator.go:234-267 | `generateService` yields the service template outcome over all targets. When go.mod is unreadable no name changes. When neither that nor a file-name panic happens, every name across the files is camel-cased. |
| Generator.GenerateRouter | internal/gengateway/generator.go:269-288 | `generateRouter` yields the routes template outcome. |
| Generator.GenerateEndpoints | internal/gengateway/generator.go:290-308 | `generateEndpoints` yields the endpoints template outcome. |
| Generator.FileStep | internal/gengateway/generator.go:98-121 | One pass of the per-file loop gives that file's step. Afterwards the files up to and including it whose headers render are camel-cased, and the others keep their names. |
| Generator.GenerateFiles | internal/gengateway/generator.go:97-122 | The per-file loop computes the per-file outcome: skip, abort and naming as in `Generator.FileKind`. The files up to and including the first failing one are camel-cased where their headers render, and the later ones are untouched. On success every file is camel-cased. |
| Generator.EmitUnit | internal/gengateway/generator.go:124-175 | A fixed-name unit is formatted and appended under the output path, or its error ends the run. |
| Generator.GenerateUnits | internal/gengateway/generator.go:124-177 | After the per-file outputs come service.gm.go when requested, then routes.gm.go and endpoints.gm.go, as assembled. Only the service unit renames. Without it, or when go.mod is unreadable, no name changes. With it and no file-name panic, every name is cased once more. |
| Generator.GenerateSharedUnits | internal/gengateway/generator.go:143-175 | routes.gm.go and then endpoints.gm.go are appended, and the first failure ends the run. |
| Generator.Generate | internal/gengateway/generator.go:93-178 | Generate computes the assembled outcome. Skip, abort and ordering are as stated by `Generator.GenerateAbortsAtFirstFailure` and `Generator.GenerateOutputs`. After a per-file failure, the files up to and including the failing one are camel-cased where their headers render. After a per-file success every name is camel-cased once, and a second time when the service unit runs, go.mod is readable and no file name panics. |

## Left out

- Template text, `format.Source` and `casing.Camel` are not interpreted. They are the `render`, `format` and `camel` collaborators, and every property holds for any behaviour of them. Whether camel-casing is idempotent, given that names can be cased twice, belongs to the casing package and is not part of this model.
- `readModuleName` reads go.mod from disk, so the module name is the `moduleName` input: the first line without its "module " prefix, or an error where the code panics. The model returns that panic as a `Crash` error.
- Templates receive the descriptor objects themselves. The model identifies a rendering by the objects handed over, not by the text the template would print from their names.
- The `%q` quoting and `%#v` formatting of the filter's entries are simplified: keys are quoted without escaping, and integers are printed in decimal.
- `utilities.NewDoubleArray` is a collaborator. `String` assumes its encoding numbers the keys 0..n-1 without repeats, which is how that builder numbers them. The trie arrays themselves are not modelled.
- Generator.GetFilePath: `filepath.Join` is modelled for clean inputs only (it drops trailing slashes and joins with one "/"). Its path cleaning of "." and ".." is not modelled.
- Templates.ApplyServiceTemplate: a Go panic while slicing a service's file name ends the process. The model returns it as a `Crash` error, computed before any renaming. The names camel-cased before the panicking service are not stated.
- Generator.GenerateService: the names after a file-name panic are not stated, for the same reason.
- Generator.Generate: the names after a file-name panic in the service unit are not stated, for the same reason.
- A service's `fileName` is a field of its own, not tied to the name of the `File` that declares it. The code reads the declaring file's name, and the model assumes the two agree.
- The import lists built by `generate` and `generateService` are replaced by `applyTemplate` and `applyServiceTemplate` before any template sees them. They are modelled and proved anyway, but they do not reach `render`.
- The two nested service and method loops of `generateService` are written as one walk per file, in the same order.
- A method's link to its service is a field of the method object. The descriptor package's own types are not part of this model.
- The routes and endpoints templates receive no files, because `generateRouter` and `generateEndpoints` pass none.
- From main.go, only the parameter classifier and the package name are modelled:
  - `flag.CommandLine.Set` and `reg.AddPkgMap` are recorded as actions, in order, and not executed;
  - a failing flag setting (`glog.Fatalf`) is not modelled;
  - reading the request, looking up files, loading YAML and writing the response are I/O;
  - glog logging has no effect on the results.
- Generator.New: after an unknown path type, `glog.Fatalf` ends the process. The model returns None after the aliases have been reserved, as they are in the code.
- Registry internals are abstract. The alias table fails a reservation only when the alias is bound to another path. Enum lookup is a map from type names to enums.
- `internal/generator/generator.go` holds only type declarations, and `Params` there has no output path. The output path is an extra input of `Generate`.
