# bundeck core, modelled in Dafny

bundeck is a small Go server. It keeps TypeScript "plugins" in SQLite, runs them
with `bun`, and serves a web deck of buttons from a tray application. This
project models the parts of it that decide things, and proves properties of
them:

- **The HTTP handlers** (`internal/api/handlers.go`), over already-decoded requests:
  - how store and runner outcomes become status codes and bodies;
  - the `image/` content-type check on uploads;
  - the data URLs of the plugin list;
  - the template catalogue;
  - `CreatePluginFromTemplate`. It renders each JSON variable as a JavaScript literal, rewrites every `const NAME = …;` declaration of the template source, names the plugin, and stores it. The regular expression `(const\s+NAME\s*=\s*)([^;]+)(;)` is written out as a scanner with RE2's leftmost-first choices, and is proved equal to a declarative description of a declaration. The replacement is proved to be a splice that changes only the declarations' bodies (`ApiRewriteSplice`).
- **The plugin store and the schema migrations** (`internal/db/db.go`). The store is a class over an abstract table (`map<int, Plugin>` and the last id handed out). The migration runner is a class holding the version table and the created tables. Engine failures and the clock are inputs.
- **The runner** (`internal/plugin/plugin.go`). This is a script file's life cycle over an object standing for the file system and the processes started. The exit of `bun` is a function of the script it reads.
- **The settings file** (`internal/settings/settings.go`). This is a decision over what the file system and `json.Unmarshal` make of `settings.json`, plus a class for the file, which is always rewritten.
- **The browser command of the tray** (`tray.go`). This covers the command and arguments for each system, the blank argument put in at index 1, and the WSL check.

The model also specifies the few Go library functions the code relies on, each with a round trip or a characterisation:
- `strconv.Itoa`/`Atoi` (`Decimal`);
- `%q` quoting (`GoQuote`);
- standard base64 from section 4 of RFC 4648 (`Base64`);
- `strings.Contains`/`ToLower` (`Text`).

As the source does, `GetAllPlugins` answers JSON `null` rather than `[]` when the store holds no rows, because it appends to a nil slice (`ApiHandlers.PluginsReply`).

`GetAll` never checks `rows.Err()` after its `rows.Next()` loop (`internal/db/db.go:156-169`). An iteration that stops on an error therefore answers the rows read so far with no error, and the handler replies 200 with that prefix (`Db.ListFault.NextStops`).

The store follows the `PluginStore` interface of `internal/api/handlers.go:28-38`. That interface has seven `UpdateCode` arguments and the `run_continuously`/`interval_seconds` fields. `internal/db/db.go` lacks both (`internal/db/db.go:101-110,188`). `Db.Plugin` carries the two fields, and `UpdateCode` stores them.

## Model

| member | source | states |
|---|---|---|
| Text.ContainsIff | tray.go:102 | `strings.Contains` holds exactly when the pattern occurs at some index |
| Text.ToLower | tray.go:102 | lower-casing keeps the length and maps each ASCII capital to its small letter, leaving all else alone |
| Decimal.Atoi | internal/api/handlers.go:189-194 | the parsed value is always a Go `int`, and a syntax error gives 0 |
| Decimal.NatDigitsValue | internal/api/handlers.go:519-520 | the decimal digits printed for a number denote that number |
| Decimal.AtoiItoa | internal/api/handlers.go:189-194 | `Atoi(Itoa(n))` gives back `n` with no error for every Go `int` |
| Decimal.ItoaInjective | internal/api/handlers.go:519-520 | distinct integers print differently |
| Decimal.AtoiSyntax | internal/api/handlers.go:189-194 | `Atoi` reports a syntax error exactly when the text is not an optional sign followed by digits read before any overflow |
| GoQuote.QuoteRoundTrip | internal/api/handlers.go:545-547 | reading a `%q` quoted string back gives the original string and leaves the rest of the text untouched |
| Base64.Index | internal/api/handlers.go:158 | an alphabet symbol's value maps back to the symbol |
| Base64.Encode | internal/api/handlers.go:158 | an encoding has 4 symbols per started group of 3 bytes |
| Base64.EncodeSymbols | internal/api/handlers.go:158 | an encoding holds only alphabet symbols and `=` |
| Base64.DecodeEncode | internal/api/handlers.go:158 | decoding an encoding gives back the bytes |
| Base64.EncodeInjective | internal/api/handlers.go:158 | different images have different encodings |
| ApiRender.FormatBool | internal/api/handlers.go:542-544 | a boolean prints as `true` or `false` |
| ApiRender.ItemText | internal/api/handlers.go:494-537 | an array element has no text exactly when the array is bool-led and the element is not a bool, or number-led and the element is not a number |
| ApiRender.RenderValue | internal/api/handlers.go:484-559 | the rendering loop fills the items slice by index, stops at the first mismatched element, and equals the rendering function |
| ApiRender.RenderRoundTrip | internal/api/handlers.go:489-555 | every successful rendering except `null` is a JavaScript literal that reads back as the value (quoted string, `true`/`false`, integer digits, `[a, b]`) |
| ApiRender.RenderFails | internal/api/handlers.go:495-516 | rendering fails exactly for a bool-led or number-led array holding an element of another type, and the message names the variable |
| ApiRender.FormatFloatShort | internal/api/handlers.go:528-533 | `%v` of a whole number (a non-string element of a string-led array) below a million is its decimal digits |
| ApiRender.FormatFloatLong | internal/api/handlers.go:528-533 | `%v` of a whole number of a million or more is `[-]d[.ddd]e+XX`: the shortest digits (leading digit non-zero, no trailing zero) and an exponent of at least two digits, whose value d.ddd × 10^XX is the number |
| ApiRender.RenderNoDollar | internal/api/handlers.go:569 | a rendering holds no `$` unless one of the value's strings does |
| ApiRewrite.FirstMatch | internal/api/handlers.go:562-564 | the match found is the leftmost one: no declaration starts before it |
| ApiRewrite.MatchAtComplete | internal/api/handlers.go:562 | every declaration `const`, spaces, NAME, spaces, `=`, spaces, non-`;` body, `;` is matched at its start |
| ApiRewrite.MatchAtSound | internal/api/handlers.go:562 | every match is such a declaration, with the body ending at the first `;` |
| ApiRewrite.MatchStringIff | internal/api/handlers.go:564 | `MatchString` holds exactly when the text contains a declaration of NAME |
| ApiRewrite.NoMatchUnchanged | internal/api/handlers.go:569 | rewriting a text without a declaration leaves it unchanged |
| ApiRewrite.FirstRewritten | internal/api/handlers.go:569 | the text before the first declaration and its `const NAME =` part are kept, then come the value and `;` |
| ApiRewrite.EachRewritten | internal/api/handlers.go:569 | every declaration found is rewritten to its own `const NAME =` part, the value and `;` |
| ApiRewrite.ContainsRewrittenDecl | internal/api/handlers.go:569 | the rewritten code contains the first declaration's head followed by the value and `;` |
| ApiRewriteSplice.MatchesChain | internal/api/handlers.go:569 | the matches `ReplaceAllString` rewrites come in text order without overlapping, each ending at its `;` |
| ApiRewriteSplice.SpliceOriginal | internal/api/handlers.go:569 | splicing each match's own body back in gives the text itself, so a splice keeps everything outside the bodies |
| ApiRewriteSplice.ReplaceFromSplice | internal/api/handlers.go:569 | from any point on, the replacement is the splice of the matches found there with the value as every body |
| ApiRewriteSplice.ReplaceAllSplice | internal/api/handlers.go:562-569 | the rewritten code is the template with the body (group 2) of every matched declaration replaced by the value, while the same splice with the original bodies is the template: each `const NAME =` part, each `;` and all text between and after the declarations stay in place |
| ApiTemplates.FlattenTemplates | internal/api/handlers.go:400-409 | the nested loops collect exactly the flattened list of every category's `plugins` objects |
| ApiTemplates.FlattenMembers | internal/api/handlers.go:400-409 | a template is listed exactly when it is an object entry of some category's `plugins` array |
| ApiTemplates.AppendObjects | internal/api/handlers.go:403-407 | the inner loop appends exactly the object entries of one `plugins` array, in order, after the templates already collected |
| ApiTemplates.ScanCategory | internal/api/handlers.go:450-458 | the inner search reports a match exactly when one category holds an object with the id, and selects the first such object |
| ApiTemplates.FirstWithId | internal/api/handlers.go:450-456 | a template found has the id and is listed; none found means no listed template has it |
| ApiTemplates.LookupTemplate | internal/api/handlers.go:445-463 | the flag-and-break search finds a template exactly when the catalogue lists one with the id, and picks the first |
| ApiTemplates.FindTemplateIff | internal/api/handlers.go:445-469 | lookup succeeds exactly when some listed template has the requested id |
| ApiTemplates.FoundTemplateName | internal/api/handlers.go:585-597 | a found template is named by its `title`, else its `name`, else its id, and never by the fixed fallback |
| Db.ApplyOrders | internal/db/db.go:213-237 | applying order updates keeps the set of rows |
| Db.ApplyOrdersEffect | internal/db/db.go:222-233 | after a batch each row has the `order_num` of the last entry naming it, or its own, and no other field but `updated_at` changes |
| Db.PluginStore.constructor | internal/db/db.go:112-118 | a new store is empty |
| Db.PluginStore.Create | internal/db/db.go:120-146 | both timestamps are set to now; the row is stored under a fresh id that is written into the struct; a failed insert stores nothing |
| Db.PluginStore.GetByID | internal/db/db.go:172-186 | the row with the id, `ErrNoRows` when there is none, or the engine's error |
| Db.PluginStore.GetAll | internal/db/db.go:148-170 | every row exactly once, unchanged, in ascending `order_num` order; a failed query is an engine error; an iteration that stops early (its `rows.Err()` is never checked) answers `Ok` with the prefix of that list read so far |
| Db.PluginStore.UpdateCode | internal/db/db.go:188-211 | only the row with the id changes, with its fields replaced; `ErrNoRows` when no row matched |
| Db.PluginStore.UpdateOrder | internal/db/db.go:213-237 | all or nothing: success applies the whole batch; a failed begin, entry or commit leaves the table as it was; an unknown id is no error |
| Db.PluginStore.Delete | internal/db/db.go:239-254 | the row is removed and nothing else; `ErrNoRows` when there was none |
| Db.InsertByOrder | internal/db/db.go:148-169 | inserting a row into an `order_num`-sorted list keeps it sorted |
| Db.InsertedIds | internal/db/db.go:148-169 | inserting a row with a new id adds exactly that id and keeps ids distinct |
| Db.MaxVersion | internal/db/db.go:39 | `COALESCE(MAX(version), 0)`: 0 for no versions, else a recorded version at least as large as every other |
| Db.Span | internal/db/db.go:54 | the versions `lo` to `hi - 1`, ascending |
| Db.FirstFailing | internal/db/db.go:54-85 | the first version whose transaction fails, every earlier one succeeding |
| Db.MigrationError | internal/db/db.go:58-82 | a migration error names its version and the engine's message |
| Db.MaxAfterSpan | internal/db/db.go:54-85 | recording the versions after the current one makes the last of them current |
| Db.MigratedIsCurrent | internal/db/db.go:48-54 | once all pending migrations are recorded the maximum version is at least the number of migrations, so a second run applies none |
| Db.RecordSpan | internal/db/db.go:54-77 | recording the versions above the current maximum keeps the versions positive and distinct |
| Db.Database.constructor | internal/db/db.go:11-15 | a new database has no version table, versions or tables |
| Db.Database.InitDB | internal/db/db.go:32-99 | applies the migrations after the current version in ascending order, each with its table and version record committed together, stopping at the first failure with its message; earlier ones stay; an up-to-date database is unchanged |
| Db.Database.Migrate | internal/db/db.go:54-85 | from the current version on, the versions recorded and the tables created are exactly those of the migrations before the first failing one; the error is that failure's, and none when all are applied |
| ApiHandlers.ParseId | internal/api/handlers.go:189-194 | an id is accepted exactly when `Atoi` reports no error, and it is a Go `int` |
| ApiHandlers.ParseIdItoa | internal/api/handlers.go:189-194 | every printed Go `int` is accepted as that id |
| ApiHandlers.RunPlugin | internal/api/handlers.go:350-378 | a bad id is 400, a missing plugin 404, a store or runner error 500 with its message, and otherwise 200 with exactly the runner's output |
| ApiHandlers.RunPluginOk | internal/api/handlers.go:350-378 | the reply is 200 exactly when the id parses, the row exists and the run succeeds |
| ApiHandlers.GetPluginImage | internal/api/handlers.go:188-220 | 200 with the stored bytes and type, or `application/octet-stream`, exactly when the plugin exists and has an image; no image is 404 |
| ApiHandlers.DataUrlRoundTrip | internal/api/handlers.go:158-159 | a `data:<type>;base64,<data>` URL reads back as its type and image, for a type without `;` |
| ApiHandlers.ShapeRow | internal/api/handlers.go:156-182 | a response copies the row's id, name, code, order and run fields; it has an image and type exactly when the row has image bytes, and then they are the base64 data URL of the bytes under the stored type, and that type |
| ApiHandlers.ShapedImage | internal/api/handlers.go:157-169 | a row's image and type come back out of its response |
| ApiHandlers.PluginsReply | internal/api/handlers.go:153-184 | one response per row in the store's order, each the shaped row; a row with image bytes but no type panics; no rows is `null` |
| ApiHandlers.ShapePlugins | internal/api/handlers.go:153-184 | the append loop builds exactly that reply |
| ApiHandlers.GetAllPlugins | internal/api/handlers.go:146-185 | a store error is 500 with its message; otherwise the reply shapes every row once, in `order_num` order; an iteration that stops early answers 200 with the rows read so far |
| ApiHandlers.DeletePlugin | internal/api/handlers.go:328-348 | a bad id is 400; the row is removed; 200 when it existed, 404 when not, 500 on an engine error |
| ApiHandlers.UpdatePluginOrder | internal/api/handlers.go:308-326 | a body that does not decode is 400; 200 applies the batch; any failure is 500 and changes nothing |
| ApiHandlers.ParseBool | internal/api/handlers.go:84-86 | the form flag is true exactly for `strconv.ParseBool`'s true spellings |
| ApiHandlers.AtoiOrZero | internal/api/handlers.go:88-91 | the interval read from a form is a Go `int` |
| ApiHandlers.ImageOf | internal/api/handlers.go:96-125 | an upload whose content type lacks the `image/` prefix is 400 before it is read; an accepted image's type has the prefix; no upload gives no bytes and an empty type |
| ApiHandlers.StoredImageType | internal/api/handlers.go:261-284 | the image type passed to the store is empty or starts with `image/`, and bytes come only from an upload |
| ApiHandlers.CreatePlugin | internal/api/handlers.go:68-144 | a missing field panics; a rejected upload changes nothing; otherwise the new row holds the form's fields, the upload and the timestamps, and the reply is 201 with it; a store failure is 500 with the engine's message, with nothing stored when the insert fails and the row stored when only reading its id fails |
| ApiHandlers.UpdatePluginData | internal/api/handlers.go:222-306 | bad id or form is 400; otherwise only that row's fields are replaced, the image cleared when none is sent; a missing row is 404 and a successful update replies with the row read back; a store failure is 500 with its message, leaving the rows unchanged when the update itself fails and holding the update when only reading the result fails |
| ApiInstantiate.GetPluginTemplates | internal/api/handlers.go:381-412 | read and parse failures are 500; otherwise 200 with the flattened catalogue |
| ApiInstantiate.Substitute | internal/api/handlers.go:484-569 | one variable fails with a message naming it, or succeeds only when it renders and the source declares it |
| ApiInstantiate.Instantiate | internal/api/handlers.go:484-570 | applying the variables fails only with a message naming one of them |
| ApiInstantiate.SubstituteRewrites | internal/api/handlers.go:562-569 | a substituted variable's first declaration keeps its `const NAME =` head and is followed by the rendering and `;`, and the rendering reads back as the value |
| ApiInstantiate.InstantiateUndeclared | internal/api/handlers.go:564-568 | a variable the source does not declare fails with `Variable NAME not found in template` |
| ApiInstantiate.InstantiateNone | internal/api/handlers.go:481-484 | without variables the source is the code |
| ApiInstantiate.HeaderInterval | internal/api/handlers.go:578-580 | the interval header's value when `Atoi` accepts it, else 0 |
| ApiInstantiate.HeaderIntervalItoa | internal/api/handlers.go:578-580 | a printed Go `int` header is that interval |
| ApiInstantiate.Outcome | internal/api/handlers.go:415-602 | a plugin to create has `OrderNum` -1, no image, run flag `header == "true"` and the header interval; every refusal is 400, 404 or 500, or a panic |
| ApiInstantiate.UnknownTemplate | internal/api/handlers.go:445-469 | the reply is 404 `Template not found` exactly when no listed template has the id |
| ApiInstantiate.CreatedFromTemplate | internal/api/handlers.go:585-599 | a created plugin comes from a listed template with that id; it is named title, else name, else the id; its code is the instantiated source |
| ApiInstantiate.VariableFailure | internal/api/handlers.go:498-504 | a 400 from a variable names one of the request's variables |
| ApiInstantiate.ApplyVariables | internal/api/handlers.go:484-570 | the loop reassigning `content` per variable computes the instantiation |
| ApiInstantiate.Prepare | internal/api/handlers.go:421-602 | the steps before the store call compute the outcome |
| ApiInstantiate.CreatePluginFromTemplate | internal/api/handlers.go:415-611 | any refusal stores nothing; otherwise the plugin is stored under a fresh id and the reply is 201 with it, or 500 on an engine error |
| PluginRunner.Os.constructor | internal/plugin/plugin.go:14-16 | a file system with the given files and directories, no process started |
| PluginRunner.TempPath | internal/plugin/plugin.go:27 | the script file is `<dir>/<id>.ts` |
| PluginRunner.TempPathInjective | internal/plugin/plugin.go:27 | distinct plugins get distinct script files |
| PluginRunner.NewRunner | internal/plugin/plugin.go:14-23 | the runner's directory `<temp>/bundeck-plugins` exists afterwards, and an existing one is left alone; a failure is `failed to create temp directory: …` |
| PluginRunner.AfterFailedWrite | internal/plugin/plugin.go:28-30 | a failed open leaves the files as they were; a write or close that fails after the open leaves `<id>.ts` holding the part of the code written, and no other file changes |
| PluginRunner.Run | internal/plugin/plugin.go:25-41 | a write failure starts nothing and removes nothing, so a file the failed write created stays on disk; otherwise exactly one `bun run <file>` starts on exactly the code, the file is gone afterwards, and the result is the output or `failed to run plugin: <err>\nOutput: <output>` |
| Settings.Default | internal/settings/settings.go:54-57 | the default port is 3004 |
| Settings.Unmarshal | internal/settings/settings.go:34-37 | `null` leaves the pointer nil, and only an object fills settings |
| Settings.Marshal | internal/settings/settings.go:44-52 | a nil pointer writes `null` |
| Settings.UnmarshalMarshal | internal/settings/settings.go:44-52 | what is written decodes to the same settings |
| Settings.LoadedAsWritten | internal/settings/settings.go:13-42 | the source's result is nil exactly for a readable file holding `null` |
| Settings.NullLoadsNil | internal/settings/settings.go:34-41 | a `null` file loads as a nil pointer |
| Settings.Loaded | internal/settings/settings.go:13-42 | the settings agree with the source's wherever it returns a value, and are the defaults where it returns nil |
| Settings.LoadedPort | internal/settings/settings.go:14-41 | a readable object's Go `int` port is used; a missing, non-regular, unopenable or unreadable file, or one that does not decode, gives 3004 |
| Settings.SettingsFile.constructor | internal/settings/settings.go:14 | the file in the given state |
| Settings.SettingsFile.WriteSettings | internal/settings/settings.go:44-52 | the file is replaced by the settings' document on success; a failed open (or a path that is not a regular file) leaves it as it was; a write or close that fails after the truncating open leaves the whole document or a part that does not decode |
| Settings.PartlyWritten | internal/settings/settings.go:50 | a part of the document cut short does not decode; a whole one is the document |
| Settings.TruncatedWriteLosesPort | internal/settings/settings.go:50 | after a write cut short, the next start-up falls back to the defaults; after a close failure with the whole document written, it loads the settings written |
| Settings.SettingsFile.DefaultSettings | internal/settings/settings.go:54-62 | returns port 3004 whether or not the write works; the file afterwards is as `WriteSettings` leaves it for each kind of failure |
| Settings.SettingsFile.LoadSettings | internal/settings/settings.go:13-42 | returns the loaded settings whatever the write does; the file is rewritten with them, left as it was on a failed open, and left whole or cut short when the write fails after the open |
| Settings.LoadIdempotent | internal/settings/settings.go:39 | loading the rewritten file gives the same settings again |
| Tray.BrowserCommand | tray.go:70-88 | windows is `cmd /c start url`, darwin is `open url` |
| Tray.InsertBlank | tray.go:89-92 | with more than one argument, `""` goes in at index 1, the rest keep their order and the length grows by one; one argument is left alone |
| Tray.OpenUrlCommands | tray.go:66-94 | windows `cmd ["/c", "", "start", url]`, darwin `open [url]`, WSL `cmd.exe ["/c", "", "start", url]`, otherwise `xdg-open [url]` |
| Tray.IsWslAnyCase | tray.go:97-103 | `microsoft` in any mix of ASCII cases in the `uname -r` output counts as WSL |
| Tray.IsWslWitness | tray.go:97-103 | a positive check has `microsoft`, in some case, in the output |

## Left out

- HTTP plumbing is left out: Fiber routing, multipart and JSON body decoding, and JSON encoding of replies. Handlers take decoded inputs (`None` where decoding fails) and return a `Response` value.
- Engine behaviour is left out: SQLite, SQL text, pragmas and row scanning. The store is an abstract table whose failures are inputs. Timestamps are an input `now`, not `time.Now`.
- The WAL-checkpoint goroutine of `InitDB` (`internal/db/db.go:87-96`) is left out, because it is concurrency and timing. The `Applied migration` line it prints is output only.
- Running `bun` is an oracle from the script's contents to its exit, so hangs and the lack of a timeout are not modelled. Concurrent `Run` calls on one id, which race on one file, are not modelled either.
- The tray, network and window code are left out: `systray`, `GetOutboundIP`, `url.PathEscape`, starting the browser command, and the QR window. `runtime.GOOS` and the result of `uname -r` are inputs.
- The client-side timer that re-runs plugins continuously is not among these files and is not modelled.
- The test doubles of the handler tests are not modelled. Their `UpdateOrder` rejects unknown ids; the real store, which is modelled, does not.
- ApiRewrite.ReplaceAll: requires a value without `$`. `ReplaceAllString` would read `$` as a group reference, and that expansion is not modelled. Variable values must be free of `$` (`ApiInstantiate.DollarFree`).
- ApiRender.Render: numbers are whole `float64` values of magnitude at most 2^53, as unbounded integers, so negative zero (`-0`, which a string-led array prints as `-0`) is not represented. The `%g` branch for fractions and the float-to-int conversion are not modelled. Neither are JSON objects as variable values.
- GoQuote.EscapeChar: code points above 0x7F are kept as they are. Go's `%q` escapes the non-printable ones as `\u`/`\U`.
- Text.ToLower: only ASCII letters are lower-cased. Go's `strings.ToLower` folds all of Unicode.
- ApiInstantiate.Instantiate: the variables are applied in the order of the sequence given. Go's map iteration order is arbitrary, and any order is one of its orders.
- ApiTemplates.FindTemplate: the categories are searched in the order of the sequence given. Go iterates the category map in an arbitrary order, so with duplicate ids it may find any of them.
- PluginRunner.Run: assumes the deferred removal of the script file succeeds. The source ignores that removal's error.
- PluginRunner.Join: `filepath.Join` is modelled for a clean directory path only, without its path cleaning.
- Settings.Unmarshal: the JSON text of `settings.json` is modelled by the document it decodes to. Case-insensitive key matching and duplicate keys are covered by that abstraction. Lexical syntax is not modelled.
- The `PluginResult` type of `internal/plugin/plugin.go:43-45` is unused by the modelled code.

## Findings

| source | as written | input that shows it | evidently intended | confidence | as-written member | corrected member |
|---|---|---|---|---|---|---|
| internal/settings/settings.go:34-41 | `json.Unmarshal` of the document `null` into a nil `*Settings` succeeds and leaves it nil. `LoadSettings` then rewrites the file with `null` and returns nil, and `main.go:92` reads `settings.Port` through it. | a regular, readable `settings.json` whose contents are `null` | fall back to the defaults (port 3004), as for every other unusable file | not executed | Settings.LoadedAsWritten, Settings.NullLoadsNil | Settings.Loaded, Settings.SettingsFile.LoadSettings |
