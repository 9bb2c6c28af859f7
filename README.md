# InvenTree rule sets, modelled in Dafny

This project models the self-contained rule sets of InvenTree, an inventory management
system with a Django back end and a React front end, and proves what those rules promise.

- **Status codes** (`StatusCodes`, `DataImportStatus`): the `StatusCode` enumeration base
  class. It covers member construction, comparison with raw values, the `_is_element`
  filter, first-match lookup by value, `render`/`text`/`label`, the parallel projections
  `items`/`keys`/`labels`, and `names`/`dict`/`list`. `DataImportStatusCode` is the
  concrete instance.
- **Settings stores** (`SettingsState`): the global, user, plugin and machine settings
  caches. Each builds a key-to-value lookup from the fetched list, resolves a setting
  through the `lookup ?? default ?? ''` chain, and replaces list and lookup together on a
  fetch.
- **Panel groups** (`PanelGroup`): which panels can be shown, the tab list and bodies, the
  URL-driven choice of panel, the remembered last-used panel, and the index-route redirect.
- **API state** (`ApiState`): the endpoint path builder `url`, and the stores holding the
  signed-in user and the server description.
- **API forms** (`ApiForm`): initial-value precedence, merging fetched instance data,
  classifying a submission's outcome, and the loading and error-banner flags.
- **Server views** (`Views`): the role and permission check of `InvenTreeRoleMixin`,
  permission-class inference by view type, the password-change chain of `SetPasswordView`,
  and the data `renderJsonResponse` sends.
- **InvenTree barcodes** (`Barcode`): validating scanned data, and finding the stock item,
  stock location or part a barcode names.
- **Table and printing rules** (`PluginList`, `AttachmentTable`, `ModelTypes`, `Report`):
  - plugin row actions, status icon and activation;
  - attachment permission gating, actions and uploads;
  - the model-information table;
  - legacy report printing.

Two helper modules hold shared vocabulary. `Wrappers` defines `Option` and `Result`.
`Strings` defines ASCII case mapping, prefixes and suffixes, join/split and decimal text.

Where the source mutates state (a store, an object's attributes, component state), the
model is a class. Its methods state the whole new state in terms of specification
functions, and lemmas prove the properties of those functions. Calls into code outside
these files are parameters:
- the permission predicates, the password checks and the password validator;
- `isTrue`, `apiUrl` and the JSON parser;
- the outcome of each network request.

## Model

| member | source | states |
|---|---|---|
| `StatusCodes.NewMember` | InvenTree/generic/states/states.py:52-62 | With one argument the label is the value and the colour 'secondary'. With more, the label is the second argument and the colour the third, or 'secondary' when there is none. The value is always the first argument. |
| `StatusCodes.NeIsNotEq` | InvenTree/generic/states/states.py:20-28 | `__ne__` is exactly the negation of `__eq__`. Against a raw value of another type, equality holds iff the member's value equals it. |
| `StatusCodes.CanonicalFrom` | InvenTree/generic/states/states.py:87 | Iterating the enum visits only declared members, never one whose value an earlier member already took (an alias). The visited members' values are pairwise distinct. |
| `StatusCodes.CanonicalVisitsFirsts` | InvenTree/generic/states/states.py:87 | Every declaration whose value is new is visited, and the visited members keep declaration order. |
| `StatusCodes.FilterElementsSpec` | InvenTree/generic/states/states.py:64-89 | `values()` keeps exactly the members that `_is_element` accepts (name not starting with '_', name equal to its upper-case form, int value), and never more members than it visits. |
| `StatusCodes.FirstWithValue` | InvenTree/generic/states/states.py:91-94 | The lookup finds nothing iff no element has the key as value. A found member is an element with that value. When the first element matches, it is the one returned. |
| `StatusCodes.Render` | InvenTree/generic/states/states.py:84-104 | A None key gets the whole list from `values`. With no status codes the list is falsy and None is passed back; otherwise reading `.color` raises AttributeError. Any other unknown key is passed back unchanged. A known key becomes the badge built from the matching element's colour and label. |
| `StatusCodes.KeysDistinct` | InvenTree/generic/states/states.py:116-119 | No value repeats in `keys()`. |
| `StatusCodes.LookupOwnValue` | InvenTree/generic/states/states.py:84-145 | For every status code, `values`, `text`, `label` and `render` on its own value find that very code. |
| `StatusCodes.TextIsLabel` | InvenTree/generic/states/states.py:84-145 | `text` and `label` agree on every key. They raise AttributeError exactly for the None key, in every class, because `values(None)` is a list. Any other unknown key comes back unchanged, and a known key gives its code's label. |
| `StatusCodes.NonElementsHidden` | InvenTree/generic/states/states.py:64-94 | A declared member that is not a status code never appears in `values()`. A member with a non-int value is not among the `keys()`. |
| `StatusCodes.ItemsZipKeysLabels` | InvenTree/generic/states/states.py:111-124 | `items`, `keys` and `labels` have the length of `values()`, and `items()[i] == (keys()[i], labels()[i])`. |
| `StatusCodes.ElementsOfWellFormed` | InvenTree/generic/states/states.py:84-89 | A class whose declarations all qualify and have distinct values yields exactly its declarations, in order. |
| `StatusCodes.NamesDictList` | InvenTree/generic/states/states.py:126-160 | With distinct names, `names()` maps each code's name to its value. `dict()` maps it to the record at the same position of `list()`, and that record holds the code's colour, value, label and name. |
| `StatusCodes.DictForKeyAsWritten` | InvenTree/generic/states/states.py:147-155 | `dict()` and `dict(None)` give the full dictionary, one entry per code name. Any other key raises TypeError (see Findings). |
| `StatusCodes.DictForKeyMatches` | InvenTree/generic/states/states.py:147-155 | The corrected `dict(key)` holds the records of exactly the status codes whose value is `key`. A name is one of its keys iff a code with that value carries it, and each such code's name maps to that code's own record. |
| `DataImportStatus.Constructed` | src/backend/InvenTree/importer/status_codes.py:11-15 | Each member is what `__new__` builds from its declaration tuple. |
| `DataImportStatus.AllDeclaredAreCodes` | src/backend/InvenTree/importer/status_codes.py:11-15 | All five declarations are status codes, with no aliases, in declaration order. |
| `DataImportStatus.FiveCodesInOrder` | src/backend/InvenTree/importer/status_codes.py:11-15 | The keys are exactly 0, 10, 20, 30, 40, in that order. |
| `DataImportStatus.ValuesStrictlyIncrease` | src/backend/InvenTree/importer/status_codes.py:11-15 | The values are ints that strictly increase in declaration order. |
| `DataImportStatus.Colours` | src/backend/InvenTree/importer/status_codes.py:11-15 | INITIAL is 'secondary', the three middle states 'primary', COMPLETE 'success'. COMPLETE is the only code listed as 'success'. |
| `DataImportStatus.LabelsByValue` | src/backend/InvenTree/importer/status_codes.py:11-15 | The labels are Initial, Mapping, Importing, Processing, Complete, and a label lookup on each value returns that code's label. |
| `DataImportStatus.DictForKeyCounterexample` | src/backend/InvenTree/importer/status_codes.py:11 | `dict(0)` as written raises TypeError, while the corrected lookup gives INITIAL's record. |
| `DataImportStatus.NoneKeyIsNoKey` | InvenTree/generic/states/states.py:84-155 | `dict(None)` is the full five-name dictionary, while `render(None)`, `text(None)` and `label(None)` raise AttributeError. |
| `SettingsState.GenerateLookup` | src/frontend/src/states/SettingsState.tsx:183-189 | The loop over the settings builds exactly the specification lookup. |
| `SettingsState.LookupKeys` | src/frontend/src/states/SettingsState.tsx:183-189 | The lookup's keys are exactly the keys of the settings in the list. |
| `SettingsState.LastWriteWins` | src/frontend/src/states/SettingsState.tsx:185-187 | The lookup holds the value of a key's last setting. |
| `SettingsState.OfConfigTypeSpec` | src/frontend/src/states/SettingsState.tsx:155-157 | The machine filter keeps exactly the settings of its config type. |
| `SettingsState.SettingsStore.constructor` | src/frontend/src/states/SettingsState.tsx:26-30 | A store starts with an empty list and an empty lookup. |
| `SettingsState.SettingsStore.FetchSettings` | src/frontend/src/states/SettingsState.tsx:31-47 | Without a login the global and user stores are untouched. A failed request changes nothing. A successful one replaces list and lookup together: the machine store keeps only its config type, and the lookup is generated from what was kept. |
| `SettingsState.SettingsStore.GetSetting` | src/frontend/src/states/SettingsState.tsx:48-50 | The looked-up value, else the caller's default, else ''. |
| `SettingsState.SettingsStore.IsSet` | src/frontend/src/states/SettingsState.tsx:51-54 | `isTrue` of the looked-up value, else of the boolean default, else of 'false'. |
| `SettingsState.GetAfterFetch` | src/frontend/src/states/SettingsState.tsx:39-50 | In a store a fetch has filled, `getSetting` gives the value of the last setting with the key. For a key no setting carries, it gives the caller's default or ''. |
| `SettingsState.MachineLookupKeys` | src/frontend/src/states/SettingsState.tsx:155-160 | The machine store's lookup has exactly the keys of the settings of its config type. |
| `PanelGroup.ActivePanelsSpec` | src/frontend/src/components/nav/PanelGroup.tsx:57-60 | The active panels are exactly those neither hidden nor disabled. |
| `PanelGroup.ActivePanelsAppend` | src/frontend/src/components/nav/PanelGroup.tsx:57-60 | Filtering keeps the panels' order. |
| `PanelGroup.IndexOfName` | src/frontend/src/components/nav/PanelGroup.tsx:75 | `findIndex` gives -1 iff no panel has the name, else the first position holding it. |
| `PanelGroup.ActiveNameMeans` | src/frontend/src/components/nav/PanelGroup.tsx:57-60 | A name is active iff some panel with that name is neither hidden nor disabled. |
| `PanelGroup.IndexCandidate` | src/frontend/src/components/nav/PanelGroup.tsx:186-188 | The candidate is a truthy `selectedPanel`, else the page's non-empty last-used panel, else the first panel's name. |
| `PanelGroup.IndexTarget` | src/frontend/src/components/nav/PanelGroup.tsx:186-197 | The target is '' or an active panel. It is the candidate when that is active, else the first active panel, else ''. |
| `PanelGroup.RouteTo` | src/frontend/src/components/nav/PanelGroup.tsx:74-80 | Navigating to '' lands on the index route. Any other name becomes the route parameter. |
| `PanelGroup.VisibleTabs` | src/frontend/src/components/nav/PanelGroup.tsx:113-135 | The i-th tab is that of the i-th non-hidden panel, in panel order, with disabled panels included and marked disabled. There is no other tab. |
| `PanelGroup.EnabledTabs` | src/frontend/src/components/nav/PanelGroup.tsx:113-135 | The enabled tabs are exactly the active panels. |
| `PanelGroup.BodyOf` | src/frontend/src/components/nav/PanelGroup.tsx:152-175 | The headline is the panel's label unless `showHeadline` is exactly false. A panel without content shows the placeholder. |
| `PanelGroup.Bodies` | src/frontend/src/components/nav/PanelGroup.tsx:152-175 | The i-th body is that of the i-th non-hidden panel, in panel order, and there is no other body. |
| `PanelGroup.TabsMatchBodies` | src/frontend/src/components/nav/PanelGroup.tsx:113-175 | There are as many tabs as bodies, and the i-th tab and the i-th body belong to the same panel. |
| `PanelGroup.PanelGroupView.constructor` | src/frontend/src/components/nav/PanelGroup.tsx:47-55 | The group starts from the URL's panel and the stored last-used panels, with no callback calls. |
| `PanelGroup.PanelGroupView.InitialEffect` | src/frontend/src/components/nav/PanelGroup.tsx:66-71 | A truthy URL panel becomes the page's last-used panel. Otherwise nothing changes. |
| `PanelGroup.PanelGroupView.HandlePanelChange` | src/frontend/src/components/nav/PanelGroup.tsx:74-86 | An inactive name clears the page's entry and goes to the index route without a callback. An active one is navigated to, with the remembered panel left unchanged, and a non-empty name is reported when a callback is given. |
| `PanelGroup.PanelGroupView.SelectedPanelEffect` | src/frontend/src/components/nav/PanelGroup.tsx:89-93 | A truthy `selectedPanel` that differs from the URL's panel is applied as a panel change. An active one becomes the URL's panel, leaves the remembered panel alone and is reported when a callback is given. An inactive one clears the page's entry and shows the index route, reporting nothing. Otherwise nothing changes. |
| `PanelGroup.PanelGroupView.ActivePanelEffect` | src/frontend/src/components/nav/PanelGroup.tsx:96-101 | The URL always carries a panel on this route. An inactive URL panel clears the page's entry and goes to the index route. An active one is left alone. |
| `PanelGroup.PanelGroupView.ResolveIndex` | src/frontend/src/components/nav/PanelGroup.tsx:181-201 | The index route redirects to `IndexTarget`. |
| `PanelGroup.IndexReturnsToLastUsed` | src/frontend/src/components/nav/PanelGroup.tsx:186-197 | With no selection, an active remembered panel is where the index route goes. |
| `PanelGroup.IndexPrefersSelected` | src/frontend/src/components/nav/PanelGroup.tsx:186-197 | An active, truthy selected panel wins over the remembered one. |
| `ApiState.OneCasePerMember` | src/frontend/src/states/ApiState.tsx:48-126 | The switch recognises every member's value as that member, so each member has its own case. |
| `ApiState.UrlFor` | src/frontend/src/states/ApiState.tsx:75-127 | The path builder fails only for `approval_detail_type` without kwargs (reading `type` of undefined). |
| `ApiState.Url` | src/frontend/src/states/ApiState.tsx:75-127 | A string that is no member's value gives ''. A member's value gives that member's path. |
| `ApiState.FixedPathsIgnoreArguments` | src/frontend/src/states/ApiState.tsx:77-87 | The user paths, approval_start and barcode do not depend on pk, kwargs or the URL base. |
| `ApiState.DetailPathShape` | src/frontend/src/states/ApiState.tsx:101-114 | A detail path is the pk-less path without its final '/', then pk verbatim, then '/'. |
| `ApiState.PoDetailHasLeadingSlash` | src/frontend/src/states/ApiState.tsx:88-89 | po_detail is purchase_order_detail with a leading '/'. |
| `ApiState.ApprovalDetailTypeShape` | src/frontend/src/states/ApiState.tsx:92-94 | The path is '/approval/' + kwargs.type + ':' + pk + '/', where a missing type reads as 'undefined'. |
| `ApiState.ClosedPathsEndWithSlash` | src/frontend/src/states/ApiState.tsx:76-114 | Every path except approval_detail and the frontend ones ends with '/'. |
| `ApiState.OpenEndedPaths` | src/frontend/src/states/ApiState.tsx:90-91 | The open-ended paths end with pk. The frontend ones start with '/' + URL base + '/'. |
| `ApiState.UserOf` | src/frontend/src/states/ApiState.tsx:20-26 | The user record takes its id from pk and copies email and username. The name is first name, a space, and last name. |
| `ApiState.UserNameSplits` | src/frontend/src/states/ApiState.tsx:22 | When neither name part holds a space, the display name splits back into first and last name. |
| `ApiState.ApiStore.constructor` | src/frontend/src/states/ApiState.tsx:14-15 | The store starts without a user. |
| `ApiState.ApiStore.SetUser` | src/frontend/src/states/ApiState.tsx:16 | `setUser` replaces the user. |
| `ApiState.ApiStore.FetchApiState` | src/frontend/src/states/ApiState.tsx:17-28 | A response replaces the user with the record built from it. A failed request leaves the user as it was, and the returned promise is rejected, since there is no `.catch`. |
| `ApiState.ServerApiStore.constructor` | src/frontend/src/states/ApiState.tsx:37-38 | The server store starts from the empty description. |
| `ApiState.ServerApiStore.SetServer` | src/frontend/src/states/ApiState.tsx:39 | `setServer` replaces the description. |
| `ApiState.ServerApiStore.FetchServerApiState` | src/frontend/src/states/ApiState.tsx:40-46 | The response data replaces the description. A failed request leaves it as it was, and the returned promise is rejected, since there is no `.catch`. |
| `ApiForm.InitialValue` | src/frontend/src/components/forms/ApiForm.tsx:213-229 | The field's value, else its default, else the definition's value, else its default. There is no value iff all four are absent. |
| `ApiForm.InitialValuesSpec` | src/frontend/src/components/forms/ApiForm.tsx:211-238 | Every declared field with an initial value holds it, and every other key keeps its previous value. |
| `ApiForm.ResponseMergeSpec` | src/frontend/src/components/forms/ApiForm.tsx:186-208 | Declared fields present in the response take the response's value. Every other key, including undeclared response keys, keeps its value. |
| `ApiForm.Classify` | src/frontend/src/components/forms/ApiForm.tsx:254-306 | Resolved 200/201/204 is success. A rejection with status 400 carries field errors. Anything else is a failure reported with its status, or 0 when there is no response. |
| `ApiForm.RenderedFields` | src/frontend/src/components/forms/ApiForm.tsx:346-359 | The fields rendered are exactly the declared fields that are not hidden. |
| `ApiForm.RenderedFieldsAppend` | src/frontend/src/components/forms/ApiForm.tsx:346-359 | Fields render in declaration order, one entry per field that is not hidden. A concatenation renders each part in turn, and a single field renders as its name unless it is hidden. |
| `ApiForm.ApiFormState.constructor` | src/frontend/src/components/forms/ApiForm.tsx:314 | A form starts loading, with no values, errors or events. |
| `ApiForm.ApiFormState.InitialiseValues` | src/frontend/src/components/forms/ApiForm.tsx:211-238 | The loop over the fields sets the values `InitialValuesSpec` describes and nothing else. |
| `ApiForm.ApiFormState.ApplyInitialData` | src/frontend/src/components/forms/ApiForm.tsx:190-204 | The loop merges the response as `ResponseMergeSpec` describes and nothing else. |
| `ApiForm.ApiFormState.SubmitRequest` | src/frontend/src/components/forms/ApiForm.tsx:245-254 | The request carries all form values, hidden fields included, to the form URL, using the lower-cased method or 'get'. |
| `ApiForm.ApiFormState.SubmitForm` | src/frontend/src/components/forms/ApiForm.tsx:241-254 | Submitting sets loading, sends `SubmitRequest` and changes nothing else. |
| `ApiForm.ApiFormState.HandleOutcome` | src/frontend/src/components/forms/ApiForm.tsx:256-306 | Success: `onFormSuccess` gets the data, and a notice is shown only with a success message. A 400: field errors and non-field errors (or []) are set, loading clears, and there is no error callback. A failure: `invalidResponse` then `onFormError`. |
| `ApiForm.ApiFormState.SyncLoading` | src/frontend/src/components/forms/ApiForm.tsx:313-318 | Loading is true iff either query is fetching. |
| `ApiForm.ApiFormState.SubmitDisabled` | src/frontend/src/components/forms/ApiForm.tsx:381 | The submit button is disabled iff the form is loading. |
| `ApiForm.ApiFormState.ShowErrorBanner` | src/frontend/src/components/forms/ApiForm.tsx:333 | The error banner shows iff there are field errors or non-field errors. |
| `ApiForm.HiddenFieldsSubmitted` | src/frontend/src/components/forms/ApiForm.tsx:245-254 | A hidden field of a form is not rendered, yet the request its submission sends carries the field's value. |
| `Views.RolesRequired` | InvenTree/InvenTree/views.py:99-104 | A string gives one requirement, a list or tuple its elements, and anything else none. |
| `Views.FirstEntry` | InvenTree/InvenTree/views.py:191-196 | No entry iff the view derives from none of the map's classes. Otherwise the entry is that of the first class in map order it derives from. |
| `Views.GetPermissionClass` | InvenTree/InvenTree/views.py:160-196 | A truthy `permission_class` wins. Otherwise the first matching map entry, or None. |
| `Views.CheckRoles` | InvenTree/InvenTree/views.py:112-124 | True iff every requirement is a known 'role.permission' the user holds. An error is a ValueError, and only arises when some requirement is malformed or unknown. |
| `Views.HasPermission` | InvenTree/InvenTree/views.py:97-158 | A superuser passes. Failing roles decide before anything else. Permission is only granted once the roles pass. An AttributeError only arises for a model without a permission class. |
| `Views.AfterRolesPass` | InvenTree/InvenTree/views.py:127-158 | Once the roles pass: a `permission_required` defers to the base check; otherwise a model is checked against '<app_label>_<model_name>', an unresolved permission class is an AttributeError, and no model means True. |
| `Views.SuperuserSkipsParsing` | InvenTree/InvenTree/views.py:107-110 | A superuser passes even when a requirement is malformed, which the role loop alone would reject. |
| `Views.FirstFailingRoleDecides` | InvenTree/InvenTree/views.py:112-124 | A role the user lacks, met before any malformed requirement, gives False rather than an error. |
| `Views.InferredPermissionClasses` | InvenTree/InvenTree/views.py:181-194 | An update view gets 'change', a create view 'add', an AJAX view 'view'. |
| `Views.UnmappedViewHasNoClass` | InvenTree/InvenTree/views.py:191-196 | A view deriving from none of the mapped classes gets no permission class. |
| `Views.RenderJsonResponse` | InvenTree/InvenTree/views.py:253-304 | A non-AJAX request is redirected to '/'. Otherwise the data carries 'title' and 'html_form', entries of `get_data()` overwrite keys of the same name, and no other key appears. |
| `Views.SetPasswordView.constructor` | InvenTree/InvenTree/views.py:528-537 | The view starts with no form errors and nothing saved. |
| `Views.SetPasswordView.Post` | InvenTree/InvenTree/views.py:539-578 | The checks run in order: form, match, old password, validator. Each runs only if all earlier ones passed. A mismatch flags both password fields. The password is saved iff every check passed, and `form_valid` reports that flag. |
| `Views.PasswordResponseKeys` | InvenTree/InvenTree/views.py:578 | The AJAX response holds exactly form_valid, title and html_form. |
| `Barcode.Get` | InvenTree/plugin/builtin/barcodes/inventree_barcode.py:76-80 | A dict lookup finds a value iff the key is present. |
| `Barcode.IntOf` | InvenTree/plugin/builtin/barcodes/inventree_barcode.py:70-74 | `int()` keeps an int, turns a bool into 0/1, and fails on a dict, a list or None. |
| `Barcode.NatToStringDigits` | InvenTree/plugin/builtin/barcodes/inventree_barcode.py:70-74 | The decimal text of a natural number is all digits and denotes that number. |
| `Barcode.ParseIntRoundTrip` | InvenTree/plugin/builtin/barcodes/inventree_barcode.py:70-74 | `int()` reads back the decimal text of every integer. |
| `Barcode.FirstKey` | InvenTree/plugin/builtin/barcodes/inventree_barcode.py:63-64 | No index iff no key's lower-case form is the target. Otherwise the index is the first key whose lower-case form is the target. |
| `Barcode.PrimaryKey` | InvenTree/plugin/builtin/barcodes/inventree_barcode.py:68-80 | The pk is `int(value)` when that succeeds, else the dict's 'id'. A dict without 'id' raises the validation error naming the key; a non-dict fails with TypeError. |
| `Barcode.GetObject` | InvenTree/plugin/builtin/barcodes/inventree_barcode.py:61-88 | Non-dict data raises AttributeError. With no matching key the result is None. A found object is one of the table's objects. |
| `Barcode.LookupByFirstKey` | InvenTree/plugin/builtin/barcodes/inventree_barcode.py:63-86 | The first matching key decides. A pk in the table gives its object. A nested 'id' that is an object or a list raises TypeError in the ORM's integer conversion. Any other pk raises '... does not exist' against that key. |
| `Barcode.GetStockItem` | InvenTree/plugin/builtin/barcodes/inventree_barcode.py:61-88 | None iff the data is a dict with no key that lower-cases to 'stockitem'. A found item comes from the table. |
| `Barcode.GetStockLocation` | InvenTree/plugin/builtin/barcodes/inventree_barcode.py:90-116 | The same rule for 'stocklocation'. |
| `Barcode.GetPart` | InvenTree/plugin/builtin/barcodes/inventree_barcode.py:118-143 | The same rule for 'part'. |
| `Barcode.FoundByIntegerKey` | InvenTree/plugin/builtin/barcodes/inventree_barcode.py:120-139 | An integer pk under a key of any letter case finds the part. |
| `Barcode.TextAndNestedKeys` | InvenTree/plugin/builtin/barcodes/inventree_barcode.py:68-80 | The decimal text of a pk, and a nested object with that 'id', find the same stock item as the integer pk. |
| `Barcode.MissingIdReported` | InvenTree/plugin/builtin/barcodes/inventree_barcode.py:104-108 | A nested object without 'id' is reported against the key as given. |
| `Barcode.InvenTreeBarcodePlugin.constructor` | InvenTree/plugin/builtin/barcodes/inventree_barcode.py:24-40 | The plugin holds the scanned data. |
| `Barcode.InvenTreeBarcodePlugin.Validate` | InvenTree/plugin/builtin/barcodes/inventree_barcode.py:28-59 | A dict is accepted unchanged, whatever its keys. A string is parsed and replaces the data, and is accepted iff it parses to a dict. Anything else is rejected. |
| `Barcode.ValidatedDataHasKeys` | InvenTree/plugin/builtin/barcodes/inventree_barcode.py:40-64 | Once the data is a dict, the lookups never fail with AttributeError. |
| `PluginList.PluginIcon` | src/frontend/src/components/tables/plugin/PluginListTable.tsx:247-269 | Active for installed and active, inactive for installed and not active, not installed otherwise. |
| `PluginList.DescriptionOf` | src/frontend/src/components/tables/plugin/PluginListTable.tsx:300-306 | The description is shown iff the plugin is active. |
| `PluginList.RowActions` | src/frontend/src/components/tables/plugin/PluginListTable.tsx:399-425 | Built-in and not-installed plugins get no action. Others get exactly one, which flips `active`: 'Deactivate' in red or 'Activate' in green. |
| `PluginList.ActivationRequest` | src/frontend/src/components/tables/plugin/PluginListTable.tsx:360-372 | The PATCH goes to the plugin's detail URL followed by 'activate/', carrying the requested state. |
| `PluginList.ActionFlipsIcon` | src/frontend/src/components/tables/plugin/PluginListTable.tsx:399-420 | An offered action, once applied, switches the icon between active and inactive, and requests activation iff the plugin is inactive. |
| `PluginList.OutcomeNotice` | src/frontend/src/components/tables/plugin/PluginListTable.tsx:373-391 | A success notice is green; a failure is a red error notice. |
| `PluginList.PluginTableView.constructor` | src/frontend/src/components/tables/plugin/PluginListTable.tsx:274-275 | The table starts unrefreshed, with no requests and no notifications. |
| `PluginList.PluginTableView.ConfirmActivation` | src/frontend/src/components/tables/plugin/PluginListTable.tsx:359-392 | The PATCH is sent; progress is shown, then hidden, then the outcome. Only a success refreshes the table. |
| `AttachmentTable.CellOf` | src/frontend/src/tables/general/AttachmentTable.tsx:32-40 | A file link when there is an attachment, else an external link when there is a link, else '-'. |
| `AttachmentTable.UploadFor` | src/frontend/src/tables/general/AttachmentTable.tsx:152-158 | One POST to the table URL, with the file under 'attachment' and pk's decimal text under the model name. |
| `AttachmentTable.UploadsOf` | src/frontend/src/tables/general/AttachmentTable.tsx:151-168 | There is one upload per file, in order. |
| `AttachmentTable.NoticesOf` | src/frontend/src/tables/general/AttachmentTable.tsx:157-178 | There is one notice per file, for its outcome. |
| `AttachmentTable.SuccessesCount` | src/frontend/src/tables/general/AttachmentTable.tsx:159-178 | The refreshes number all the files iff every upload succeeded, and none iff every upload failed. |
| `AttachmentTable.TableSlotAsWritten` | src/frontend/src/tables/general/AttachmentTable.tsx:232-247 | The table is shown iff pk > 0 (see Findings). |
| `AttachmentTable.ZeroPkRendersZero` | src/frontend/src/tables/general/AttachmentTable.tsx:232 | As written, pk 0 renders the text '0' where the table would be. |
| `AttachmentTable.TableSlotOf` | src/frontend/src/tables/general/AttachmentTable.tsx:232-247 | The table shows iff pk > 0, filtered by {model: pk}, with row actions attached iff both edit and delete are allowed. Otherwise nothing shows. |
| `AttachmentTable.SlotCorrectionOnlyAtZero` | src/frontend/src/tables/general/AttachmentTable.tsx:232 | The correction changes the rendering at pk 0 only. |
| `AttachmentTable.DropzoneShown` | src/frontend/src/tables/general/AttachmentTable.tsx:249 | The drop zone shows iff edit is allowed and pk > 0, exactly when the table would. |
| `AttachmentTable.AttachmentTableView.constructor` | src/frontend/src/tables/general/AttachmentTable.tsx:84-85 | Edit and delete start disallowed. |
| `AttachmentTable.AttachmentTableView.LoadPermissions` | src/frontend/src/tables/general/AttachmentTable.tsx:92-106 | Edit is allowed iff the OPTIONS actions contain 'POST', delete iff they contain 'DELETE'. Missing actions allow neither, and an error changes nothing. |
| `AttachmentTable.RowActionsFor` | src/frontend/src/tables/general/AttachmentTable.tsx:109-148 | An edit action iff edit is allowed, listed first, for the record's file or link. A delete action iff delete is allowed, listed last. |
| `AttachmentTable.AttachmentTableView.RowActions` | src/frontend/src/tables/general/AttachmentTable.tsx:109-148 | The actions are `RowActionsFor` under the view's current permission flags. |
| `AttachmentTable.AttachmentTableView.TableActions` | src/frontend/src/tables/general/AttachmentTable.tsx:182-228 | The add-file and add-link actions exist iff edit is allowed. |
| `AttachmentTable.AttachmentTableView.EditSaved` | src/frontend/src/tables/general/AttachmentTable.tsx:122-124 | A saved edit updates the returned row only, without a refresh. |
| `AttachmentTable.AttachmentTableView.RefreshTable` | src/frontend/src/tables/general/AttachmentTable.tsx:135-139 | A delete refreshes the whole table. |
| `AttachmentTable.AttachmentTableView.UploadFiles` | src/frontend/src/tables/general/AttachmentTable.tsx:151-180 | The loop sends one upload per file and shows one notice per file, refreshing once per success. |
| `AttachmentTable.EditTypeMatchesCell` | src/frontend/src/tables/general/AttachmentTable.tsx:32-121 | When editing is allowed, the first row action is the edit action. Its type is 'file' iff the row's cell is a file link, and 'link' otherwise. |
| `ModelTypes.LabelsNonEmpty` | src/frontend/src/components/render/ModelType.tsx:19-203 | Every entry has non-empty singular and plural labels. |
| `ModelTypes.PkRouteEndsWithPk` | src/frontend/src/components/render/ModelType.tsx:19-203 | A detail route in the table's shape ends with ':pk/'. |
| `ModelTypes.AllRoutesWellFormed` | src/frontend/src/components/render/ModelType.tsx:19-203 | Every `url_detail` and every `cui_detail` ends with '/:pk/' and contains ':pk' exactly once. |
| `ModelTypes.OverviewIffDetail` | src/frontend/src/components/render/ModelType.tsx:82-86 | An entry has a detail route iff it has an overview route. Only stockhistory and purchaseorderline lack them. |
| `ModelTypes.EndpointIdentifiesModel` | src/frontend/src/components/render/ModelType.tsx:210-212 | Reading an entry's endpoint back gives the entry. |
| `ModelTypes.EndpointsDistinct` | src/frontend/src/components/render/ModelType.tsx:19-203 | No two entries share an API endpoint. |
| `ModelTypes.ModelInfo` | src/frontend/src/components/render/ModelType.tsx:210-212 | The entry for a type has non-empty labels. It has an overview route iff it has a detail route. Its detail routes end with '/:pk/' and hold one ':pk'. Its endpoint maps back to the type. |
| `Report.OptionText` | src/backend/InvenTree/templates/js/translated/report.js:42-49 | The name, followed by ' - ' and the description iff the description is non-empty. |
| `Report.OptionsOf` | src/backend/InvenTree/templates/js/translated/report.js:40-54 | One option per template, in order, valued with its pk. |
| `Report.SelectReport` | src/backend/InvenTree/templates/js/translated/report.js:27-104 | A single template is chosen at once, with its pk. Otherwise the given or default modal opens with the select box, after a count of the selected items when there are any. |
| `Report.PrintUrl` | src/backend/InvenTree/templates/js/translated/report.js:151 | The template list URL, the pk, '/print/?items=', then the item string. |
| `Report.PrintUrlCarriesItems` | src/backend/InvenTree/templates/js/translated/report.js:129-151 | Splitting the URL's items on ',' gives back the selected items, when no item holds a comma. |
| `Report.ReportPrinter.constructor` | src/backend/InvenTree/templates/js/translated/report.js:118-138 | Nothing has been shown, requested or opened yet. |
| `Report.ReportPrinter.PrintReports` | src/backend/InvenTree/templates/js/translated/report.js:118-138 | Missing or empty items: an alert and no request. Otherwise one request for enabled templates of the model type, with the items joined by ','. |
| `Report.ReportPrinter.TemplatesReceived` | src/backend/InvenTree/templates/js/translated/report.js:58-156 | No template: an alert only. One: its print URL opens. Several: the default modal is appended to the earlier ones, with the 'Select Test Report Template' title. Its content is the 'items selected' count when there are items, then the select box. |
| `Report.ReportPrinter.ModalSubmitted` | src/backend/InvenTree/templates/js/translated/report.js:91-102 | The modal closes, and the chosen template's print URL opens. |

## Left out

- Translations: labels and messages are the untranslated English text, and `_()`/`t` are not modelled.
- The network: each request's outcome (response, status, failure) is a parameter. Timing, caching, react-query state and the order in which concurrent requests complete are not modelled.
- Foreign helpers are parameters or predicates:
  - `check_user_role`, `RuleSet`, `password_validation`, `user.check_password`;
  - `isTrue`, `apiUrl`, `json.loads`, the `{% url %}` tag.
- Page navigation is recorded as the resulting route parameter; the router is not modelled. `LocalState.setLastUsedPanel` is not part of this model; it is taken to write the page's entry of the last-used-panel map.
- Notifications, modals and the DOM are records of what was shown. The report form's HTML is a list of structured parts, not markup.
- `InvenTreeTable` is not part of this model: its paging, selection and `updateRecord` internals are out, and the table's calls are recorded as events.
- The settings stores' `endpoint` and `pathParams` fields only name the URL; they are left out.
- `StatusCode.tag` and the docstring handling of `BaseEnum.__init__` are left out; they do not affect lookups.
- `StatusCodes.Values`: lookup keys are ints, strings or None. A member of the same class used as a key matches through the reflected `__eq__` in Python; `PyValue` cannot express that, so such keys are not modelled.
- `Barcode.IntOf`: Python's `int()` on strings is modelled for ASCII digits, an optional sign and ASCII whitespace. Underscores, non-ASCII digits and non-ASCII whitespace are not, and a float truncates in Python but is not a JSON value in this model.
- `Barcode.PrimaryKey`: the ORM's conversion of a lookup pk is modelled as Python's `int()` (`IntOf`), so a text 'id' such as "5" finds object 5. A text pk `int()` rejects and a null pk find no object; an object or list pk raises TypeError. Django's other field types and custom primary keys are not modelled.
- `Barcode.Get`: a JSON object is a list of entries and `Get` returns the first entry with the key. `json.loads` keeps the last value of a repeated key; barcodes with repeated keys are not modelled faithfully.
- `ApiState.UrlFor`: pk is the text a template literal interpolates, so JavaScript's conversion of non-string pks to text is not modelled.
- `ApiForm.InitialValue`: form values are modelled as text, and JavaScript's other value types are not distinguished.
- `ModelTypes.ModelInfo` assembles an entry from its columns. The API endpoint is an enumeration, not the endpoint's URL string, since `ApiEndpoints` is not among the files modelled.
- `Strings.Upper` and `Strings.Lower` map ASCII letters only; Python's and JavaScript's Unicode case mapping is not modelled.

## Findings

| source | as written | input that shows it | evidently intended | confidence | as-written member | corrected member |
|---|---|---|---|---|---|---|
| InvenTree/generic/states/states.py:147-155 | `dict(key)` iterates over `values(key)`, which for a key other than None is a single member or None, neither iterable | `DataImportStatusCode.dict(0)` raises TypeError | the records of the codes whose value is `key` | not executed | `DataImportStatus.DictForKeyCounterexample` | `StatusCodes.DictForKeyMatches` |
| src/frontend/src/tables/general/AttachmentTable.tsx:232 | `{pk && pk > 0 && (...)}` evaluates to `0` when pk is 0, and React renders the number | pk = 0 shows a stray '0' above the (absent) table | nothing shown when pk is not positive | not executed | `AttachmentTable.ZeroPkRendersZero` | `AttachmentTable.TableSlotOf` |
