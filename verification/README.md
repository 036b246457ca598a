# Lowcoder: OAuth wizard, Switch widget and Postman Echo plugin, modelled in Dafny

This project models three small pieces of Lowcoder, the low-code application builder.

- **The generic OAuth provider wizard** (`GenericOAuthForm`). It has three steps:
  - Step 0 reads the issuer and fetches its OpenID Connect discovery document from the issuer followed by `/.well-known/openid-configuration`. It then seeds a provider configuration from that document.
  - Step 1 merges the provider details the user entered.
  - Step 2 replaces the identity field mappings and submits the configuration with `enableRegister: true`.
  - Cancel goes back one step. At step 0 it calls `onCancel` and resets the form.
- **The Switch widget.** The model covers:
  - the migration of its legacy style record (`fixOldData`, which renames `unChecked` to `unchecked`);
  - the effects of one toggle;
  - the label-style tokens it offers;
  - the property-panel sections each editor mode shows;
  - the names and instance methods it exposes to scripts.
- **The Postman Echo data-source plugin.** The model covers how an OpenAPI operation is labelled, the query configuration built from the parsed document, and the configuration a run forwards.

Files and modules:

- `wrappers.dfy` (`Wrappers`): `Option`.
- `js_runtime.dfy` (`JsRuntime`): the JavaScript semantics the code relies on. This means dynamically typed values, plain objects as maps, truthiness, `hasOwnProperty` and property reads, template-literal text and `Array.prototype.join`. It also has `split` as the inverse of `join` and lodash `upperFirst`.
- `generic_oauth_form.dfy` (`GenericOAuth`): the wizard.
  - Pure record builders: `Seed`, `MergeDetails`, `WithSourceMappings` and `SubmissionConfig`.
  - The class `GenericOAuthForm`. Its fields are the state cells `currentStep`, `issuerDetails` and `saveLoading`, plus the form store, the pending request and a log of outside effects.
  - Each request-making handler is split in two at the `await` or `.then` on its request. `Step1Save` and `DiscoverySettled` are the two halves of `handleStep1Save`. `SaveAuthProvider` and `SaveSettled` are the two halves of `saveAuthProvider`.
  - Form validation, the discovery outcome and the save outcome are parameters.
- `switch_comp.dfy` (`SwitchComp`): the Switch widget. Its declared events are `EventOptions`: the shared change event (assumed to be `"change"`), `"true"` and `"false"`. Its exposed instance methods are `ExposedMethods` (focus with options, blur, click).
- `postman_echo.dfy` (`PostmanEcho`): the plugin. The generic OpenAPI parser and runner are not part of this model. Their inputs and outputs appear as type parameters.

The model reproduces these behaviours of the code:

- Cancel at step 0 does not clear the accumulated configuration.
- The seeded `sourceMappings` is an array of single-key objects, not one mapping.
- A second discovery replaces the accumulated configuration wholesale.
- The issuer is not trimmed before `/.well-known/openid-configuration` is appended. An issuer ending in "/" gives a "//" in the address (`DiscoveryUrlKeepsTrailingSlash`). Section 4.1 of OpenID Connect Discovery 1.0 removes the trailing "/" first.
- The code makes every mapping required only through form validation (the rules at GenericOAuthForm.tsx:272). Validation is a parameter here.
- A discovery request whose promise rejects never reaches `setSaveLoading(false)`. From then on the Save button stays in its loading state and ignores presses (`RejectedDiscoveryBlocksSave`).
- `axios` is imported directly. Under its default status validation, any status outside 2xx rejects the request (the helper `AxiosOutcome` models this), so an HTTP error from the discovery endpoint also leaves the Save button loading for good (`HttpErrorBlocksSave`). The `status >= 400` test at line 111 is then never true (`StatusGuardUnreachable`). It could only be true if axios's defaults were changed elsewhere in the application, for example through a global `axios.defaults.validateStatus`. `DiscoverySettled` still models that branch, for any status it is given. See "## Findings".

## Model

| member | source | states |
|---|---|---|
| JsRuntime.SplitJoin | client/packages/lowcoder/src/pages/setting/idSource/OAuthForms/GenericOAuthForm.tsx:124 | joining a non-empty list of separator-free fields and splitting the result gives back the same fields in the same order |
| JsRuntime.SplitWithoutSeparator | client/packages/lowcoder/src/pages/setting/idSource/OAuthForms/GenericOAuthForm.tsx:124 | a string without the separator splits into itself alone |
| JsRuntime.SplitFirstField | client/packages/lowcoder/src/pages/setting/idSource/OAuthForms/GenericOAuthForm.tsx:124 | a separator-free field followed by the separator splits off as the first field |
| JsRuntime.UpperFirst | server/node-service/src/plugins/postmanEcho/index.ts:19 | same length; first character upper-cased; rest unchanged |
| JsRuntime.UpperFirstIdempotent | server/node-service/src/plugins/postmanEcho/index.ts:19 | upper-casing the first character twice equals doing it once |
| GenericOAuth.DiscoveryUrl | client/packages/lowcoder/src/pages/setting/idSource/OAuthForms/GenericOAuthForm.tsx:108 | the request address is the issuer text followed by `/.well-known/openid-configuration` |
| GenericOAuth.DiscoveryUrlKeepsTrailingSlash | client/packages/lowcoder/src/pages/setting/idSource/OAuthForms/GenericOAuthForm.tsx:108 | an issuer ending in "/" is not trimmed, so the address has "//" before the well-known path |
| GenericOAuth.IdentityMappingsShape | client/packages/lowcoder/src/pages/setting/idSource/OAuthForms/GenericOAuthForm.tsx:125-127 | mapping the keys gives one `{k: k}` object per key, in key order |
| GenericOAuth.MergeIdentityMappings | client/packages/lowcoder/src/pages/setting/idSource/OAuthForms/GenericOAuthForm.tsx:125-127 | merging those single-key objects would give the map sending each key to itself; the wizard never performs this merge, so this only states what the list denotes |
| GenericOAuth.IdentityMapCons | client/packages/lowcoder/src/pages/setting/idSource/OAuthForms/GenericOAuthForm.tsx:125-127 | the identity map of a key list is its first key's entry plus the identity map of the rest |
| GenericOAuth.SeedFields | client/packages/lowcoder/src/pages/setting/idSource/OAuthForms/GenericOAuthForm.tsx:114-128 | the seed holds exactly the ten seeded keys; authType is Generic; source and sourceName are empty; endpoints are copied from the document; jwksUri is undefined when absent; the scope is "" when no scope is supported, and the single scope when there is one |
| GenericOAuth.SeedScopeRoundTrip | client/packages/lowcoder/src/pages/setting/idSource/OAuthForms/GenericOAuthForm.tsx:124 | for a non-empty list of scope names without commas, splitting the seeded scope (the names joined with ",") at the commas gives back the provider's list in order |
| GenericOAuth.SeedSourceMappings | client/packages/lowcoder/src/pages/setting/idSource/OAuthForms/GenericOAuthForm.tsx:20-25 | the seeded sourceMappings is an array of four single-key objects: uid, email, username, avatar, in that order (not one object); if merged, which the wizard never does, they would form the identity mapping |
| GenericOAuth.MergeDetails | client/packages/lowcoder/src/pages/setting/idSource/OAuthForms/GenericOAuthForm.tsx:138-141 | the keys are the union; entered values override; fields absent from the form are kept |
| GenericOAuth.WithSourceMappings | client/packages/lowcoder/src/pages/setting/idSource/OAuthForms/GenericOAuthForm.tsx:148-154 | only sourceMappings changes, and it becomes one object of the entered values; every other field is kept |
| GenericOAuth.SubmissionConfig | client/packages/lowcoder/src/pages/setting/idSource/OAuthForms/GenericOAuthForm.tsx:87-90 | the submitted record is the values plus `enableRegister: true`; nothing else changes |
| GenericOAuth.SubmissionKeepsDetails | client/packages/lowcoder/src/pages/setting/idSource/OAuthForms/GenericOAuthForm.tsx:138-155 | details entered at step 1 reach the submitted record unchanged, except sourceMappings and enableRegister; fields not re-entered are kept |
| GenericOAuth.GenericOAuthForm.constructor | client/packages/lowcoder/src/pages/setting/idSource/OAuthForms/GenericOAuthForm.tsx:79-83 | starts at step 0, with no details, not loading, an empty form and nothing pending |
| GenericOAuth.GenericOAuthForm.Step1Save | client/packages/lowcoder/src/pages/setting/idSource/OAuthForms/GenericOAuthForm.tsx:104-108 | failed validation changes nothing; otherwise it sets loading and requests the discovery URL of the entered issuer; step and details unchanged |
| GenericOAuth.GenericOAuthForm.DiscoverySettled | client/packages/lowcoder/src/pages/setting/idSource/OAuthForms/GenericOAuthForm.tsx:108-132 | rejected: still loading, nothing else changes; status >= 400: loading cleared, step and details unchanged; otherwise: details and form seeded, step 0 becomes 1 |
| GenericOAuth.GenericOAuthForm.DiscoverySettledFinally | client/packages/lowcoder/src/pages/setting/idSource/OAuthForms/GenericOAuthForm.tsx:106-113 | the intended continuation: the loading state is cleared however the request ends; otherwise as DiscoverySettled |
| GenericOAuth.GenericOAuthForm.Step2Save | client/packages/lowcoder/src/pages/setting/idSource/OAuthForms/GenericOAuthForm.tsx:136-144 | failed validation changes nothing; otherwise details become the merge with the entered values, and the step goes up by one; no key is lost |
| GenericOAuth.GenericOAuthForm.SaveAuthProvider | client/packages/lowcoder/src/pages/setting/idSource/OAuthForms/GenericOAuthForm.tsx:85-91 | sets loading and sends the values with `enableRegister: true` |
| GenericOAuth.GenericOAuthForm.SaveSettled | client/packages/lowcoder/src/pages/setting/idSource/OAuthForms/GenericOAuthForm.tsx:92-101 | loading cleared on every outcome; onSave is called exactly when the response validates; a failure shows its message; step and details unchanged |
| GenericOAuth.GenericOAuthForm.Step3Save | client/packages/lowcoder/src/pages/setting/idSource/OAuthForms/GenericOAuthForm.tsx:146-160 | failed validation changes nothing; otherwise only sourceMappings is replaced, that record is submitted, and the step does not advance |
| GenericOAuth.GenericOAuthForm.HandleSave | client/packages/lowcoder/src/pages/setting/idSource/OAuthForms/GenericOAuthForm.tsx:162-172 | dispatches on the current step; failed validation changes nothing; the step stays in 0..2 |
| GenericOAuth.GenericOAuthForm.PressSave | client/packages/lowcoder/src/pages/setting/idSource/OAuthForms/GenericOAuthForm.tsx:291-297 | while loading, a press changes nothing; otherwise it does what HandleSave does |
| GenericOAuth.GenericOAuthForm.HandleCancel | client/packages/lowcoder/src/pages/setting/idSource/OAuthForms/GenericOAuthForm.tsx:174-180 | step 0: onCancel is called and the form is reset, while the step stays 0 and the details are kept; later steps: the step goes down by one |
| GenericOAuth.CancelKeepsDiscoveredDetails | client/packages/lowcoder/src/pages/setting/idSource/OAuthForms/GenericOAuthForm.tsx:174-180 | after discovery, going back and cancelling leaves step 0 with the discovered configuration still held |
| GenericOAuth.CompleteSession | client/packages/lowcoder/src/pages/setting/idSource/OAuthForms/GenericOAuthForm.tsx:104-172 | a full session ends on step 2, not loading; the seed merged with the details and the new mappings is submitted once; onSave is called last |
| GenericOAuth.StatusGuardUnreachable | client/packages/lowcoder/src/pages/setting/idSource/OAuthForms/GenericOAuthForm.tsx:108-113 | every response that reaches the continuation has a status below 400; a status of 400 or above rejects |
| GenericOAuth.RejectedDiscoveryBlocksSave | client/packages/lowcoder/src/pages/setting/idSource/OAuthForms/GenericOAuthForm.tsx:104-113 | after a rejected discovery, the loading state never clears and later presses issue no request |
| SwitchComp.FixOldData | client/packages/lowcoder/src/comps/comps/switchComp.tsx:72-82 | a record with `unChecked` becomes exactly {label, handle, unchecked, checked}, with unchecked taken from unChecked and other keys dropped; anything else (null and undefined included) is returned unchanged; the result never has `unChecked` |
| SwitchComp.FixOldDataIdempotent | client/packages/lowcoder/src/comps/comps/switchComp.tsx:72-82 | migrating twice equals migrating once |
| SwitchComp.FixOldDataLegacyRecord | client/packages/lowcoder/src/comps/comps/switchComp.tsx:72-80 | a legacy four-colour record keeps its colours under the new keys |
| SwitchComp.ToggleEffects | client/packages/lowcoder/src/comps/comps/switchComp.tsx:119-123 | the value update comes first, then "change", then exactly one of "true"/"false" matching the new state; every event fired is a declared option |
| SwitchComp.SwitchInstance.constructor | client/packages/lowcoder/src/comps/comps/switchComp.tsx:89-91 | the value starts as given, and no events have been fired yet |
| SwitchComp.SwitchInstance.OnChange | client/packages/lowcoder/src/comps/comps/switchComp.tsx:119-123 | the value becomes the new state, the toggle's effects are appended in order, and only declared events are ever fired |
| SwitchComp.SwitchLabelStyle | client/packages/lowcoder/src/comps/comps/switchComp.tsx:95-100 | a token is kept exactly when it is in the list and is named neither accent nor validate |
| SwitchComp.SwitchLabelStyleAppend | client/packages/lowcoder/src/comps/comps/switchComp.tsx:95-100 | filtering distributes over concatenation, so kept tokens keep their order |
| SwitchComp.SwitchLabelStyleKeepsAllowed | client/packages/lowcoder/src/comps/comps/switchComp.tsx:95-100 | a list without excluded names is returned unchanged |
| SwitchComp.PropertyPanels | client/packages/lowcoder/src/comps/comps/switchComp.tsx:129-168 | the basic section is always shown; interaction is shown iff the mode is logic or both; label and style sections are shown iff it is layout or both |
| SwitchComp.LogicModePanels | client/packages/lowcoder/src/comps/comps/switchComp.tsx:129-146 | logic mode shows exactly the basic, form-data and interaction sections, in that order |
| SwitchComp.LayoutModePanels | client/packages/lowcoder/src/comps/comps/switchComp.tsx:129-168 | layout mode shows every section except interaction, in panel order |
| SwitchComp.BothModesShowAllPanels | client/packages/lowcoder/src/comps/comps/switchComp.tsx:132-165 | in mode both, every section is shown in panel order |
| SwitchComp.ExposedNames | client/packages/lowcoder/src/comps/comps/switchComp.tsx:173-176 | "value" comes first, followed by the common names |
| SwitchComp.ExposedNamesDistinct | client/packages/lowcoder/src/comps/comps/switchComp.tsx:173-176 | the exposed names are unique iff the common ones are unique and none is "value" |
| PostmanEcho.ActionLabel | server/node-service/src/plugins/postmanEcho/index.ts:18-20 | a non-empty summary is upper-firsted; otherwise the operationId is; with neither, the label is ""; in this ASCII model, the label has the length of its source |
| PostmanEcho.ActionLabelIgnoresRoute | server/node-service/src/plugins/postmanEcho/index.ts:18 | the label does not depend on the method or the path |
| PostmanEcho.ActionLabelStable | server/node-service/src/plugins/postmanEcho/index.ts:18-20 | a non-empty label used as a summary labels to itself |
| PostmanEcho.BuildQueryConfig | server/node-service/src/plugins/postmanEcho/index.ts:31-42 | type "query", label "Action", categories label "Resources"; the parser's categories and actions pass through unchanged |
| PostmanEcho.Run | server/node-service/src/plugins/postmanEcho/index.ts:43-50 | the action is forwarded unchanged, with url "", serverURL "" and the data source's configuration as dynamicParamsConfig |
| GenericOAuth.HttpErrorBlocksSave | client/packages/lowcoder/src/pages/setting/idSource/OAuthForms/GenericOAuthForm.tsx:104-113 | as written: after a discovery answered with a status of 400 or above, the loading state never clears, and a press with a corrected issuer issues no request |
| GenericOAuth.FailedDiscoveryAllowsRetry | client/packages/lowcoder/src/pages/setting/idSource/OAuthForms/GenericOAuthForm.tsx:104-113 | intended: with the loading state cleared, a press after the same error requests the corrected issuer's discovery document |

## Left out

- Rendering, styled-components CSS (`getStyle`, `SwitchWrapper`), the antd widgets and the `trans` lookups are presentation only.
- The network: `axios.get`, `IdSourceApi.saveConfig`, `validateResponse` and the message toasts. Their outcomes are parameters, and the toasts appear as logged effects.
- `JsValue` has no number case, because no value stored in the modelled records is a number. The numbers the code does use, `res.status` and `currentStep`, are modelled as `int`.
- The property order of objects is not modelled, because objects are maps.
- antd `setFieldsValue` merges nested values deeply. The model overrides top-level keys only.
- The wizard's validation rules are not modelled: the required issuer, the required detail fields taken from `authConfig` (whose module is not part of this model) and the required mappings. `validateFields()` is a parameter: `None` when it fails, otherwise the values.
- The value of `AuthType.Generic` is not visible. The constant `GenericAuthType` stands for it.
- The value of `changeEvent` is not visible either: its module is not part of this model. `ChangeEvent` assumes it is `"change"`, the name the toggle fires at switchComp.tsx:121. The declared-events invariant (`FiresDeclaredEvents`, `ToggleEffects`, `SwitchInstance.Valid`) relies on that assumption for the change event.
- React state updates are applied in call order. Two things are not modelled:
  - the double invocation of state updaters in strict development mode, where the step-2 updater would submit twice;
  - responses that arrive after the wizard is unmounted.
- Form validation is synchronous in the model. In the code, each handler first waits on `validateFields().then` (lines 105, 137, 147). `saveLoading` is set only inside that continuation (line 106), and step 1 sets none at all. So two presses before validation resolves would each run `setCurrentStep(s => s + 1)` (lines 132, 142), which can push the step past 2. `Valid()`'s bound of 0..2 on the step relies on validation being synchronous. So does `HandleSave`'s requirement that no request is pending, which `PressSave` meets through the loading state only because of it.
- A discovery document without `scopes_supported` makes `join` throw. That case is not modelled: the document is typed with all its required fields. `console.log` is left out.
- JsRuntime.UpperFirst: case mapping covers ASCII only. lodash maps the first Unicode code point. That mapping can lengthen the string: `upperFirst("ß…")` gives "SS…". So the length clause holds only in this model.
- PostmanEcho.ActionLabel: upper-casing covers ASCII only, as in `UpperFirst`. A summary that starts with "ß" gets a longer label from lodash, so the clause saying the label has the length of its source holds only in this model.
- `parseOpenApi`, `runOpenApi` and the bundled `postmanEcho.spec.json` are not part of this model. So the catalogue's categories and actions, and the promise `run` returns, are abstract.
- The plugin's catalogue metadata (id, name, icon, category) is constant data with no behaviour, so it is not modelled.
- For the same reason, the plugin's `dataSourceConfig` (`type: "dataSource"`, no params) is not modelled.
- `eventHandlerControl` is not part of this model. Fired events are logged, and which handlers they run is not modelled.
- `refMethods` is not part of this model, so neither is its behaviour on an unmounted instance. `withExposingConfigs` is not part of this model either. `ExposedNamesDistinct` states when the exposed names are unique, but the build-time check is not modelled.
- The contents of `formDataChildren` and `FormDataPropertyView` are not modelled. Neither is how `migrateOldData` applies `fixOldData`.

## Findings

| source | as written | input that shows it | evidently intended | confidence | as-written member | corrected member |
|---|---|---|---|---|---|---|
| client/packages/lowcoder/src/pages/setting/idSource/OAuthForms/GenericOAuthForm.tsx:106-113 | The loading state is cleared only after `await axios.get(...)` resolves. Under axios's default status validation, any HTTP error rejects that await, so neither `setSaveLoading(false)` nor the `status >= 400` test runs. | the discovery endpoint answers 404, e.g. because the issuer was mistyped | a failed discovery clears the loading state, as the `finally` in `saveAuthProvider` does, so a corrected issuer can be submitted | medium, not executed; it assumes axios's global defaults are not changed elsewhere | GenericOAuth.HttpErrorBlocksSave | GenericOAuth.GenericOAuthForm.DiscoverySettledFinally |
