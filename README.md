# UI plugins: registry, routes and scaffolding

A Dafny model of two cooperating pieces of a PocketBase fork that lets admin-UI
plugins be registered and served.

- **The host registry** (`apis/ui_plugins.go`). A process-wide, append-only, ordered list of
  `UiPlugin` descriptors (`UiPlugins.Registry`).
  - `RegisterUIPlugin` validates the whole batch, then appends it.
  - The `GET /ui-plugins` endpoint encodes every registered descriptor. As written, it reports
    name, base and icon plus a fourth key `"_"` holding the `IgnoreRoute` flag (`Respond`).
  - The route planner mounts one `GET /<base>/{path...}` static route for every descriptor
    whose `IgnoreRoute` flag is off, in registry order.
- **The scaffolding command** (`plugins/uiplugin/uiplugin.go`).
  - `Register` defaults the plugins directory to `ui-plugins`.
  - The creation handler rejects an empty name, asks for confirmation, and creates
    `<Dir>/<snake>/`, `<Dir>/<snake>/dist/`, `plugin.go` and `dist/index.html`.
  - The two files are filled from positional `%s` templates (`PluginTemplates`).

How the model is built:

- `wrappers.dfy` holds `Option` and substring containment.
- The panic of `RegisterUIPlugin` is modelled as a returned `Violation`. This records
  which check failed first, and `Register` proves that the registry is then unchanged.
  The model does not make the panic a precondition, so a bad batch remains a callable,
  specified case.
- The host filesystem is a `Disk` object: a set of directory paths plus a map from file
  path to contents.
- Which steps the operating system refuses is an input: the map `faults`. A `Fault`
  holds the error text and, for a write, what the file holds after the refused write
  (`os.WriteFile` may already have created or truncated it), or nothing when the file
  was left alone. The user's answer to the prompt (`confirmed`) and the name
  normaliser `snakecase` are inputs too.
- The creation protocol is specified twice, by two definitions that are proved equal
  (`MaterializeStepwise`):
  - `Materialize` runs a five-step `Plan`;
  - `Stepwise` mirrors the handler's chain of early returns.

The listing's doc comment (apis/ui_plugins.go:56-67) documents each entry as exactly
`name`, `base` and `icon`. The field tag at apis/ui_plugins.go:23 is `json:"_"`, and
`encoding/json` treats `_` as an ordinary key, so the endpoint also emits the route
flag. The model follows the code: the route handler `Respond` encodes with the tag as
written, and the documented behaviour is proved for the tag `"-"` (see Findings).

## Model

| member | source | states |
|---|---|---|
| `UiPlugins.Check` | apis/ui_plugins.go:43-51 | the three checks in source order; no violation iff the name and base are non-empty and the asset tree is non-nil |
| `UiPlugins.PanicMessage` | apis/ui_plugins.go:44-50 | the text each violation panics with; its link to the checks is `PanicNamesFailedCheck` |
| `UiPlugins.FirstInvalid` | apis/ui_plugins.go:42-52 | the position of the first descriptor that fails a check (or the batch length); every earlier descriptor passes |
| `UiPlugins.FirstViolation` | apis/ui_plugins.go:42-52 | a batch provokes no panic iff every descriptor in it is well formed |
| `UiPlugins.Validate` | apis/ui_plugins.go:42-52 | the validation loop returns the first failing check of the first bad descriptor, and nothing iff the whole batch is well formed |
| `UiPlugins.Registry.constructor` | apis/ui_plugins.go:26 | the registry starts as an empty list and satisfies the invariant that every entry is well formed |
| `UiPlugins.Registry.Register` | apis/ui_plugins.go:41-54 | keeps the invariant; a bad batch reports its first violation and adds nothing; a good batch is appended exactly, in argument order, with no de-duplication by name or base |
| `UiPlugins.RegisterCallsCompose` | apis/ui_plugins.go:42-52 | the panic of a concatenated batch is the first batch's panic if it has one, and otherwise the second batch's panic, so the first bad descriptor in argument order decides |
| `UiPlugins.FirstInvalidAppend` | apis/ui_plugins.go:42-52 | the first bad position in a concatenation is the first bad position of the first part, or the length of the first part plus the first bad position of the second |
| `UiPlugins.PanicNamesFailedCheck` | apis/ui_plugins.go:43-51 | the panic message of a bad batch is the empty-name text iff the first bad descriptor's name is empty; else the empty-base text iff its base is empty; else the nil-fs text iff its tree is nil |
| `UiPlugins.Listing` | apis/ui_plugins.go:56-67 | the projection documented in the doc comment: one entry per registered descriptor, in order, each its name, base and icon. Each entry the code emits at lines 72-74 is this projection followed by `"_"` and the route flag (`ListingResponseAsWritten`) |
| `UiPlugins.ListingAppend` | apis/ui_plugins.go:56-67 | the projection of a concatenation is the concatenation of the projections, so registration order is the order of the entries |
| `UiPlugins.ProjectionIgnoresAssetsAndRouteFlag` | apis/ui_plugins.go:56-67 | registries that agree on names, bases and icons have the same documented projection, whatever their asset trees and route flags |
| `UiPlugins.ResponseShowsRouteFlag` | apis/ui_plugins.go:23 | flipping one descriptor's route flag leaves the documented projection unchanged but changes the response the listing route gives as written |
| `UiPlugins.EncodeField` | apis/ui_plugins.go:15-23 | encoding/json on one field with a plain tag: `"-"` drops it, any other tag is its key; its properties are `IgnoreRouteLeaksAsWritten` and `IntendedEncodingIsInfo` |
| `UiPlugins.EncodePlugin` | apis/ui_plugins.go:13-24 | one descriptor as encoding/json emits it: keys name, base, icon, FS dropped by its `"-"` tag, then IgnoreRoute under the given tag; its properties are the two lemmas below |
| `UiPlugins.IgnoreRouteLeaksAsWritten` | apis/ui_plugins.go:23 | with the tag as written, every encoded descriptor carries a fourth key "_" holding its IgnoreRoute flag |
| `UiPlugins.IntendedEncodingIsInfo` | apis/ui_plugins.go:56-67 | with the tag "-", a descriptor encodes to exactly the documented name, base and icon keys |
| `UiPlugins.EncodeAll` | apis/ui_plugins.go:72-74 | one encoded object per registered descriptor, in registry order, each encoded with the given tag for `IgnoreRoute` |
| `UiPlugins.HandleListPlugins` | apis/ui_plugins.go:71-75 | the handler answers status 200 with the encoded registry under `plugins`; its properties are `ListingResponseAsWritten` and `ListingResponseIsListing` |
| `UiPlugins.ListingResponseAsWritten` | apis/ui_plugins.go:71-75 | with the tag as written, the response has status 200, one entry per descriptor in order, and entry i is the documented name, base and icon of descriptor i followed by `"_"` and its IgnoreRoute flag |
| `UiPlugins.ListingResponseIsListing` | apis/ui_plugins.go:56-75 | with the corrected tag "-", the response has status 200 and holds exactly the documented projection (`Listing`), in order; an empty registry gives an empty list |
| `UiPlugins.Respond` | apis/ui_plugins.go:71-75 | the GET /ui-plugins handler answers with the listing response encoded with the tag as written; a static route answers from its asset tree |
| `UiPlugins.ListingRouteAnswersRegistry` | apis/ui_plugins.go:69-76 | the installed listing route answers 200 with one entry per registered descriptor, in order: its name, base and icon, then `"_"` and its IgnoreRoute flag |
| `UiPlugins.Mounted` | apis/ui_plugins.go:79-80 | the mounted positions are strictly increasing, each has IgnoreRoute off, and every position with IgnoreRoute off is among them |
| `UiPlugins.ServePattern` | apis/ui_plugins.go:81 | the pattern `"/" + base + "/{path...}"` that `fmt.Sprintf` builds; its property is `ServeRoutesFollowRegistry` |
| `UiPlugins.RouteFor` | apis/ui_plugins.go:81 | the GET route at that pattern serving the descriptor's asset tree; its property is `ServeRoutesFollowRegistry` |
| `UiPlugins.ServeRoutes` | apis/ui_plugins.go:79-83 | one `GET` route per descriptor with IgnoreRoute off, in registry order; its properties are the three lemmas below |
| `UiPlugins.ServeRoutesFollowRegistry` | apis/ui_plugins.go:79-83 | the k-th installed route is `GET "/" + base + "/{path...}"` serving the asset tree of the k-th mounted descriptor |
| `UiPlugins.ServeRoutesCount` | apis/ui_plugins.go:79-83 | there are never more routes than descriptors, and exactly as many iff no descriptor sets IgnoreRoute |
| `UiPlugins.ServeRoutesAppend` | apis/ui_plugins.go:79-83 | the routes of later registrations come after those of earlier ones |
| `UiPlugins.BindListingApi` | apis/ui_plugins.go:69-76 | installs exactly one route: GET "/ui-plugins", whose handler answers as `ListingRouteAnswersRegistry` states |
| `UiPlugins.BindServeRoutes` | apis/ui_plugins.go:78-85 | the loop appends to the router group exactly the routes of the registry, in order |
| `PluginTemplates.Interpolate` | plugins/uiplugin/uiplugin.go:203 | `fmt.Sprintf` with only `%s` verbs, as the template's chunks between the verbs interleaved with the arguments |
| `PluginTemplates.GeneratePluginGo` | plugins/uiplugin/uiplugin.go:177-204 | the plugin.go text; its properties are the three PluginGo lemmas below |
| `PluginTemplates.GenerateIndexHtml` | plugins/uiplugin/uiplugin.go:206-265 | the index.html text; its properties are the four IndexHtml lemmas below |
| `PluginTemplates.InterpolateShowsArg` | plugins/uiplugin/uiplugin.go:203 | positional filling puts every argument between the end of the chunk before it and the start of the chunk after it |
| `PluginTemplates.PluginGoLayout` | plugins/uiplugin/uiplugin.go:177-204 | plugin.go is the template with its four verbs filled by (normalised, normalised, name, normalised) |
| `PluginTemplates.PluginGoDeclaresPackage` | plugins/uiplugin/uiplugin.go:178-179 | plugin.go contains `// Package <normalised> handles ...` and the clause `package <normalised>` |
| `PluginTemplates.PluginGoRegistersDescriptor` | plugins/uiplugin/uiplugin.go:194-199 | plugin.go registers a descriptor with `Name: "<name>"`, `Base: "<normalised>"` and `Icon: "ri-plug-line"` |
| `PluginTemplates.IndexHtmlLayout` | plugins/uiplugin/uiplugin.go:206-265 | index.html is the template with its three verbs filled by (name, name, snakecase(name)) |
| `PluginTemplates.IndexHtmlShowsTitle` | plugins/uiplugin/uiplugin.go:210 | index.html contains `<title><name></title>`, and so contains the raw name |
| `PluginTemplates.IndexHtmlShowsGreeting` | plugins/uiplugin/uiplugin.go:242 | index.html contains `<h1>Welcome to <name></h1>`, and so contains "Welcome to" |
| `PluginTemplates.IndexHtmlShowsBase` | plugins/uiplugin/uiplugin.go:248-264 | index.html shows snakecase(name) inside `<span class="code">` |
| `PluginScaffold.EffectiveDir` | plugins/uiplugin/uiplugin.go:49-51 | the configured directory is never empty: an empty Dir becomes "ui-plugins" and a non-empty one is kept |
| `PluginScaffold.Plugin.Register` | plugins/uiplugin/uiplugin.go:46-51 | builds a fresh plugin whose Dir has been defaulted in place |
| `PluginScaffold.Join` | plugins/uiplugin/uiplugin.go:110 | an empty side is dropped; otherwise the parts are kept whole, with one separator between them |
| `PluginScaffold.AddDir` | plugins/uiplugin/uiplugin.go:121 | creating a directory adds exactly that path and leaves the files alone |
| `PluginScaffold.PutFile` | plugins/uiplugin/uiplugin.go:143 | writing a file makes it hold exactly the content, adds only that path, and leaves all other files and directories alone |
| `PluginScaffold.PluginDir` | plugins/uiplugin/uiplugin.go:110 | `<Dir>/<snake>`, the directory the handler returns; its properties are `Plan`, `PathsDistinct` and `CreateSucceeds` |
| `PluginScaffold.DistDir` | plugins/uiplugin/uiplugin.go:131 | `<plugin dir>/dist`; its properties are `Plan` and `CreateSucceeds` |
| `PluginScaffold.PluginGoPath` | plugins/uiplugin/uiplugin.go:142 | `<plugin dir>/plugin.go`; its properties are `PathsDistinct` and `CreateSucceeds` |
| `PluginScaffold.IndexHtmlPath` | plugins/uiplugin/uiplugin.go:153 | `<dist dir>/index.html`; its properties are `PathsDistinct` and `CreateSucceeds` |
| `PluginScaffold.Plan` | plugins/uiplugin/uiplugin.go:120-156 | the protocol has five filesystem steps, in the fixed step order |
| `PluginScaffold.Residue` | plugins/uiplugin/uiplugin.go:143-145 | a refused write leaves the directories alone, makes its path hold the fault's residue when there is one, and changes no other file |
| `PluginScaffold.Run` | plugins/uiplugin/uiplugin.go:120-156 | a reported failure is always a step that the host refused |
| `PluginScaffold.FirstFault` | plugins/uiplugin/uiplugin.go:120-156 | the position of the first refused step, or the plan length; no earlier step is refused |
| `PluginScaffold.RunPrefix` | plugins/uiplugin/uiplugin.go:120-156 | running a plan performs exactly the steps before the first refused one, then leaves that step's residue and reports it |
| `PluginScaffold.StepContext` | plugins/uiplugin/uiplugin.go:122-155 | the error context of each of the five steps |
| `PluginScaffold.ErrorText` | plugins/uiplugin/uiplugin.go:103-155 | the text of an error: "missing plugin name", or a step's context, ": " and the host's error, as `%w` wraps it |
| `PluginScaffold.Materialize` | plugins/uiplugin/uiplugin.go:120-169 | the filesystem part as a run of the five-step plan; its properties are the Materialize lemmas below |
| `PluginScaffold.Stepwise` | plugins/uiplugin/uiplugin.go:120-169 | the filesystem part as the handler's chain of early returns |
| `PluginScaffold.Create` | plugins/uiplugin/uiplugin.go:101-170 | the whole protocol: empty name, declined prompt, then the filesystem part with both generated files; its properties are the Create lemmas below |
| `PluginScaffold.MaterializeStepwise` | plugins/uiplugin/uiplugin.go:120-156 | the plan-based protocol equals the step-by-step chain of early returns |
| `PluginScaffold.PathsDistinct` | plugins/uiplugin/uiplugin.go:142-153 | plugin.go and dist/index.html never share a path |
| `PluginScaffold.StepContextsDistinct` | plugins/uiplugin/uiplugin.go:121-156 | the five step errors have pairwise different contexts, so an error names the step that failed |
| `PluginScaffold.Disk.MkdirAll` | plugins/uiplugin/uiplugin.go:121-123 | reports the host's error and changes nothing, or adds the directory |
| `PluginScaffold.Disk.WriteFile` | plugins/uiplugin/uiplugin.go:143-145 | reports the host's error and leaves the path holding the residue of the refused write (or untouched), or stores the contents |
| `PluginScaffold.Plugin.CreateHandler` | plugins/uiplugin/uiplugin.go:101-170 | the returned directory, the error and the new disk are exactly what `Create` gives for the old disk |
| `PluginScaffold.Plugin.CreateFiles` | plugins/uiplugin/uiplugin.go:120-156 | the five steps leave the result and the disk exactly as `Materialize` says |
| `PluginScaffold.MaterializeSucceedsIffNoRefusal` | plugins/uiplugin/uiplugin.go:120-169 | the filesystem part succeeds iff the host refuses none of its steps |
| `PluginScaffold.MaterializeCreatesExactly` | plugins/uiplugin/uiplugin.go:120-169 | on success: the plugin directory is returned; exactly the three directories and two files are added (missing ancestors of Dir are not modelled, see "Real filesystem semantics" under Left out); each file holds its content; no other file changes |
| `PluginScaffold.MaterializeStopsAtFirstRefusal` | plugins/uiplugin/uiplugin.go:120-156 | the first refused step in step order ends the protocol with that step's error; exactly the earlier steps are performed, then the refused step's residue is left |
| `PluginScaffold.MaterializeOnlyTouchesPromisedPaths` | plugins/uiplugin/uiplugin.go:120-156 | in every outcome nothing is removed, and only the promised directories and files are added or overwritten |
| `PluginScaffold.CreateRejectsEmptyName` | plugins/uiplugin/uiplugin.go:102-104 | an empty name returns "" and the error "missing plugin name", and leaves the filesystem unchanged |
| `PluginScaffold.CreateDeclined` | plugins/uiplugin/uiplugin.go:112-118 | a declined interactive prompt returns "" and no error, and leaves the filesystem unchanged |
| `PluginScaffold.CreateSucceeds` | plugins/uiplugin/uiplugin.go:106-169 | an accepted name succeeds iff no step is refused. It then returns Join(Dir, snakecase(name)), adds exactly Dir, the plugin directory and its dist directory, and adds exactly plugin.go and dist/index.html with the generated contents (missing ancestors of Dir are not modelled, see "Real filesystem semantics" under Left out) |
| `PluginScaffold.CreateStopsAtFirstRefusal` | plugins/uiplugin/uiplugin.go:120-156 | the first refused step yields "" and "<step context>: <host error>", and keeps exactly the effects of the earlier steps plus the refused write's residue |
| `PluginScaffold.CreateOnlyTouchesPromisedPaths` | plugins/uiplugin/uiplugin.go:101-170 | whatever the inputs, creation removes nothing and touches only the promised paths |
| `PluginScaffold.CreatedFilesDescribePlugin` | plugins/uiplugin/uiplugin.go:136-156 | after success, plugin.go declares the package and registers the name and base, and index.html shows the name, "Welcome to" and the normalised base |
| `PluginScaffold.GeneratedDescriptor` | plugins/uiplugin/uiplugin.go:194-199 | the descriptor literal in the generated `init`, written out by hand from the template (not parsed from the generated text): the raw name, the normalised name as base, "ri-plug-line" and a non-nil tree; its property is `GeneratedDescriptorRegisters` |
| `PluginScaffold.GeneratedDescriptorRegisters` | plugins/uiplugin/uiplugin.go:194-199 | the descriptor a generated plugin.go registers passes the registry's checks unless the normalised name is empty; then it fails the base check |

## Left out

- **Static handler internals.** The static-file handler is not part of this model. This covers content types, 404/500 answers, the index.html fallback and path containment. A mounted route records only its pattern and the asset tree it serves.
- **Router group mechanics.** `RouterGroup` only records the routes it is given. Prefix composition is written out as the path "/ui-plugins", and route conflicts are not modelled.
- **JSON serialisation.** The endpoint's response is modelled as ordered key/value lists per descriptor, not as bytes. The enclosing `{"plugins": ...}` map is the `plugins` field of `ListingResponse`.
- **Concurrency.** The package-level slice has no lock. The registry is modelled as a sequential object.
- **The panic.** It is a returned `Violation` with the registry unchanged. Stack unwinding is not modelled.
- **Cobra wiring.** `MustRegister`, `createCommand`, argument-count checks and attaching the command to the root are not modelled. `Plugin.Register` models only the `Dir` default.
- **Console I/O.** The yes/no prompt and all printed messages are not modelled. The prompt's answer is the input `confirmed`.
- **`inflector.Snakecase`.** It is the parameter `snakecase`. Nothing is assumed about it, neither idempotence nor particular outputs.
- **Real filesystem semantics.**
  - Permission bits are not modelled.
  - `filepath.Join` cleaning is not modelled; `Join` only inserts one separator.
  - `MkdirAll`'s creation of missing ancestors is not modelled: only the named directory is added, and a refused `MkdirAll` adds nothing.
  - What a refused write leaves in the file is an input (the fault's residue); the model does not say which contents (empty, partial) a host leaves.
  - Whether the host refuses a step is an input, independent of the filesystem state.
- **The "failed to generate ... template" branches** (plugins/uiplugin/uiplugin.go:138-140 and 149-151). Both generators always return a nil error, so these branches cannot be taken and are not modelled.
- **Order of content generation.** `Plugin.CreateHandler` computes both file contents before the first filesystem step, while the source computes each just before writing it. Generation is pure and cannot fail, so no outcome differs.
- **The test's import path.** The test expects a different import path for `apis`. The model follows the template in the source.
- PluginTemplates.GeneratePluginGo: the name is inserted raw by `%s` into a Go string literal (plugins/uiplugin/uiplugin.go:195). The model proves that the text contains `Name: "<name>"`, but not that the generated file compiles, nor that it registers the same name, when the name contains a quote, a backslash or a newline.

## Findings

| source | as written | input that shows it | evidently intended | confidence | as-written member | corrected member |
|---|---|---|---|---|---|---|
| apis/ui_plugins.go:23 | `IgnoreRoute` is tagged `json:"_"`, and `encoding/json` accepts `_` as a key name, so the `GET /ui-plugins` response gives every entry a fourth key `"_": <flag>` | any registered descriptor, e.g. `{Name: "a", Base: "a", FS: fs, IgnoreRoute: true}` encodes as name, base, icon and `"_": true` | the tag `json:"-"`, which omits the field, so each entry has exactly name, base and icon as documented at apis/ui_plugins.go:56-67 | not executed | `UiPlugins.ListingResponseAsWritten` | `UiPlugins.ListingResponseIsListing` |
