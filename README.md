# Plant tracker dashboard: a Dafny model of its client-side logic

This project models the client-side behaviour of the plant-tracker dashboard, a React front end for a REST back end. It covers:

- the plant table: `ResponsiveTable/index.js` and the older `Table.js`. This means adopting a search result or fetching the plant list, the page-reset rules, the pagination slice, extracting the image from a QR value, the confirmed delete and the choice between spinner, error and table;
- the care-recommendation parser in `FormattedRecommendations.js`, with its step-by-step reveal;
- the weather widget: the sky-code icon ranges, the fetch outcome and the five-day card;
- the reports dashboard: the health distribution, the latest growth measurement, the sensor and harvest prefixes, the sensor icons and the all-or-nothing update of its five lists;
- the login hook, the user-management hook and section, including the pending-delete modal;
- the five registration sections: the controlled draft, submission, coercion of the request body and the snackbar.

Every `fetch` is a parameter of the operation that awaits it: `Api.Response` says whether it answered ok (with the parsed payload), answered with a non-ok status (with the `message` field of its body), or was rejected. A body that fails to parse as JSON counts as a rejected request. The one exception is the reports dashboard, whose five bodies are read only after all five status checks, so there the ok payload is optional.

Each component whose handlers update state hooks is a class. The hooks are fields. Effects and event handlers are methods, and they run one after another. Each method's `ensures` gives the complete new state. Everything the components compute from their state is written as functions. Lemmas state the properties those functions have.

The JavaScript built-ins the code relies on are modelled precisely in `JsString` and `JsArray`:

- `split` with a non-empty separator, `indexOf`/`includes`, `startsWith`;
- `trim` with the full ECMAScript whitespace set;
- `parseInt` with no radix (leading whitespace, sign, `0x`, longest digit run), `String(n)`;
- ASCII `toLowerCase`, `replace` with a string pattern;
- `slice` and `filter`.

Module layout: `Wrappers`, `JsString`, `JsArray` and `Api` are shared. `PlantRows` holds the pure logic shared by both tables. `ResponsiveTable`, `LegacyTable`, `Recommendations`, `Weather`, `Reports`, `Login`, `UserManagement` and `Registration` each model one component. `Registration` covers all five registration files.

Where the code and a plain reading of the components' intent differ, the model follows the code:

- `handleOpenQR` throws when a value has the image prefix but no `base64,`, so the modal does not open.
- The plant form's field `fecha_estado` finds no draft key.
- A cancelled user delete leaves the user pending.
- After a new recommendation with fewer sections, `visibleSections` can exceed the section count, because the counter is never reset. The displayed slice is clipped.

## Model

| member | source | states |
|---|---|---|
| Api.FetchPlants | src/app/utils/api.js:3-24 | no token gives the missing-token error with no request; otherwise success exactly for an ok array body, which becomes the data; a non-ok status gives `HTTP error! status: <n>`, a non-array body `Data is not an array`, a rejection its own message |
| Api.HttpError | src/app/utils/api.js:16-18 | the message starts with `HTTP error! status: ` and the status parses back out of it with `parseInt` |
| Api.HttpErrorInjective | src/app/utils/api.js:17 | different statuses give different messages |
| Api.DeletePlant | src/app/utils/api.js:26-51 | success exactly with a token and an ok answer; otherwise the missing-token error, `Failed to delete plant. Status: <n>`, or the rethrown rejection |
| PlantRows.AdoptedRows | src/app/components/ResponsiveTable/index.js:41-45 | a falsy search result adopts nothing; one plant becomes a one-row list, an array is adopted as it is |
| PlantRows.DisplayRows | src/app/components/ResponsiveTable/index.js:126-129 | the visible rows have length min(rpp, max(0, rows − page·rpp)) and row k is row page·rpp + k |
| PlantRows.PagesTileRows | src/app/components/ResponsiveTable/index.js:126-129 | for any positive page size the pages laid end to end are exactly the rows, in order |
| PlantRows.PagesFromSuffix | src/app/components/ResponsiveTable/index.js:126-129 | the pages from a given page on are the rows from that page's first row on |
| PlantRows.LastPageLength | src/app/components/ResponsiveTable/index.js:126-129 | the last page holds rows mod rpp rows, or a full page when the division is exact, and the page after it is empty |
| PlantRows.ParseQR | src/app/components/ResponsiveTable/index.js:74-84 | no image exactly when the value is falsy or lacks the `<img src="data:image/` prefix; a TypeError exactly when the prefix is there without `base64,`; otherwise the URI is the gif data-URI prefix plus the text after the first `base64,`, up to the end, a `"` or the next `base64,` |
| PlantRows.QrPayloadShape | src/app/components/ResponsiveTable/index.js:76 | `split("base64,")[1].split('"')[0]` is the text right after the first `base64,`, free of `"` and `base64,`, ending at the end, a `"` or the next `base64,` |
| PlantRows.WithoutCodigo | src/app/components/ResponsiveTable/index.js:95 | a row is kept exactly when it was there and its codigo differs |
| PlantRows.DeleteRemovesExactly | src/app/components/ResponsiveTable/index.js:95 | the row count drops by the number of rows with the code, so by one for a unique code; the kept rows keep their order across any cut |
| PlantRows.RenderTable | src/app/components/ResponsiveTable/index.js:104-154 | spinner exactly while either loading flag is set; otherwise an alert exactly when either error is truthy, showing the fetch error first; otherwise the visible slice with count = number of rows |
| ResponsiveTable.PlantTable.constructor | src/app/components/ResponsiveTable/index.js:26-35 | page 0, 10 rows per page, no rows, loading, no fetch error, both modals closed, nothing selected or pending |
| ResponsiveTable.PlantTable.LoadData | src/app/components/ResponsiveTable/index.js:39-59 | a truthy search result becomes the rows with no fetch; otherwise a successful fetch sets the rows and a failed one sets the fetch error and keeps the rows; loading ends |
| ResponsiveTable.PlantTable.Mount | src/app/components/ResponsiveTable/index.js:39-63 | the first commit: the load, then page 0 |
| ResponsiveTable.PlantTable.ReceiveProps | src/app/components/ResponsiveTable/index.js:58-63 | the load reruns exactly when the token changed or the search result is a different object (`Object.is`), an equal copy included; the page resets exactly when the search result is a different object; nothing else moves |
| ResponsiveTable.PlantTable.ChangePage | src/app/components/ResponsiveTable/index.js:65-67 | the page becomes the new page |
| ResponsiveTable.PlantTable.ChangeRowsPerPage | src/app/components/ResponsiveTable/index.js:69-72 | the new page size, and page 0 |
| ResponsiveTable.PlantTable.OpenQR | src/app/components/ResponsiveTable/index.js:74-84 | an image opens the modal with its URI and records the plant code; no image opens it with no URI and keeps the code; the TypeError case changes nothing |
| ResponsiveTable.PlantTable.CloseQR | src/app/components/ResponsiveTable/index.js:171 | the QR modal closes |
| ResponsiveTable.PlantTable.DeleteClick | src/app/components/ResponsiveTable/index.js:86-89 | the row becomes pending and the confirmation opens |
| ResponsiveTable.PlantTable.CancelDelete | src/app/components/ResponsiveTable/index.js:177 | the confirmation closes, and the row stays pending |
| ResponsiveTable.PlantTable.ConfirmDelete | src/app/components/ResponsiveTable/index.js:91-102 | with a pending row and a successful delete every row with its codigo goes; otherwise the rows stay; the confirmation closes and nothing is pending |
| ResponsiveTable.PlantTable.View | src/app/components/ResponsiveTable/index.js:104-154 | the spinner exactly while loading; otherwise the alert exactly when there is a fetch error or an error prop, the fetch error first; a table view shows the current slice and the row count |
| ResponsiveTable.SingleSearchResult | src/app/components/ResponsiveTable/index.js:41-45 | a one-plant search result renders that row alone, count 1, page 0 of 10, whatever the network says |
| ResponsiveTable.DeleteUniquePlant | src/app/components/ResponsiveTable/index.js:91-102 | confirming the delete of a plant with a unique code leaves one row fewer, exactly the rows with other codes |
| LegacyTable.LegacyPlantTable.constructor | src/app/components/Table.js:115-121 | page 0, 10 rows per page, no rows, loading, no fetch error, QR modal closed with nothing selected |
| LegacyTable.LegacyPlantTable.FetchData | src/app/components/Table.js:125-163 | a truthy search result becomes the rows; otherwise the token, status and array checks of the inline request, with the fetch error set and the rows kept on any failure; loading ends |
| LegacyTable.LegacyPlantTable.Mount | src/app/components/Table.js:125-167 | the first commit: the fetch, then page 0 |
| LegacyTable.LegacyPlantTable.ReceiveProps | src/app/components/Table.js:162-167 | refetch exactly when the token changed or the search result is a different object, an equal copy included; page reset exactly when the search result is a different object |
| LegacyTable.LegacyPlantTable.ChangePage | src/app/components/Table.js:169-171 | the page becomes the new page |
| LegacyTable.LegacyPlantTable.ChangeRowsPerPage | src/app/components/Table.js:173-176 | the new page size, and page 0 |
| LegacyTable.LegacyPlantTable.OpenQR | src/app/components/Table.js:177-188 | the modal opens, with the image URI or with none when the value is falsy or unprefixed; a prefixed value without `base64,` throws first and changes nothing |
| LegacyTable.LegacyPlantTable.CloseQR | src/app/components/Table.js:190-192 | the modal closes and keeps the selected image |
| LegacyTable.LegacyPlantTable.View | src/app/components/Table.js:241-266 | the same render priority as the responsive table: spinner while loading, then the alert exactly for a fetch error or an error prop, then the current slice and the row count |
| LegacyTable.WithoutToken | src/app/components/Table.js:133-136 | with no search result and no token the table shows the missing-token error whatever the network says |
| Recommendations.Sections | src/app/components/FormattedRecommendations.js:19 | the sections are exactly the non-blank `**`-pieces, none containing `**` |
| Recommendations.DroppedPiecesAreBlank | src/app/components/FormattedRecommendations.js:19 | the pieces dropped are exactly the blank ones |
| Recommendations.ParseSection | src/app/components/FormattedRecommendations.js:61-67 | without a colon the title is empty and the content is the section; with one, the title is the text before the first colon and the content the text after it up to the second colon or the end |
| Recommendations.ColonContent | src/app/components/FormattedRecommendations.js:64 | the second piece of `split(':')` runs from after the first colon to the next colon or the end |
| Recommendations.Heading | src/app/components/FormattedRecommendations.js:72-79 | no heading exactly for an empty title; the trimmed title at index 0, `<i>. ` before it after that |
| Recommendations.HeadingNumber | src/app/components/FormattedRecommendations.js:79 | a numbered heading reads back through `parseInt` as its index |
| Recommendations.Body | src/app/components/FormattedRecommendations.js:86 | the trimmed content, or the whole section trimmed when the content is empty |
| Recommendations.RenderedHeading | src/app/components/FormattedRecommendations.js:61-86 | a section gets a heading exactly when it has a colon that is not its first character; without a colon it renders as its trimmed self with no heading |
| Recommendations.Displayed | src/app/components/FormattedRecommendations.js:60 | min(visible, count) sections, rendered in order with their indexes |
| Recommendations.RecommendationReveal.constructor | src/app/components/FormattedRecommendations.js:18-37 | nothing visible, the interval running |
| Recommendations.RecommendationReveal.Tick | src/app/components/FormattedRecommendations.js:26-33 | one more section while any is hidden, otherwise the interval stops; the bound visible ≤ count is preserved |
| Recommendations.RecommendationReveal.ChangeRecommendation | src/app/components/FormattedRecommendations.js:25-37 | the counter is kept; the interval restarts exactly when the section count changed |
| Recommendations.RecommendationReveal.View | src/app/components/FormattedRecommendations.js:60 | while the bound holds, exactly `visibleSections` sections show |
| Recommendations.RevealAll | src/app/components/FormattedRecommendations.js:25-37 | letting the interval run to its end shows every section and stops the interval |
| Weather.IconForCode | src/app/components/WeatherWidget.js:44-52 | each icon exactly on its ranges: 0–12 and 31–34 sun, 13–18 snow, 19–30 and 35–43 rain, anything else or NaN cloud |
| Weather.WeatherIconOfNumber | src/app/components/WeatherWidget.js:45 | a code written as an integer gets that integer's icon |
| Weather.WeatherIconWithoutNumber | src/app/components/WeatherWidget.js:45-51 | a code with no leading number shows a cloud |
| Weather.PrecipText | src/app/components/WeatherWidget.js:82 | a falsy precip shows as `0` |
| Weather.RenderWeather | src/app/components/WeatherWidget.js:54-70 | loading first, then a truthy error, then the no-data message exactly for a missing or empty array; otherwise one card per day for the first five |
| Weather.WeatherWidget.constructor | src/app/components/WeatherWidget.js:6-8 | empty data, loading, no error |
| Weather.WeatherWidget.FetchWeather | src/app/components/WeatherWidget.js:11-39 | no token: the missing-token error and no request; ok replaces the data; non-ok or rejected gives `Error fetching weather data: ` and the cause; loading ends in every case |
| Weather.WeatherWidget.ChangeToken | src/app/components/WeatherWidget.js:41-42 | the effect reruns exactly on a new token, with the outcomes of the fetch |
| Weather.WithoutToken | src/app/components/WeatherWidget.js:13-17 | mounting without a token shows the missing-token error whatever the network says |
| Weather.FailedRequest | src/app/components/WeatherWidget.js:27-35 | a non-ok answer shows the weather prefix and the HTTP message, from which the status parses back |
| Reports.PlantHealthData | src/app/components/ReportsSection.js:54-58 | the three bars count `Saludable`, neither, and `Crítico`, and sum to the number of plants |
| Reports.AllHealthy | src/app/components/ReportsSection.js:54-58 | with every plant healthy the other bars are 0 |
| Reports.LatestEvolution | src/app/components/ReportsSection.js:80-85 | null exactly for no measurements, otherwise one of them |
| Reports.LatestIsEarliestMaximum | src/app/components/ReportsSection.js:82-84 | the reduce yields a measurement with the latest date, the earliest in the list among those tied |
| Reports.GrowthCard | src/app/components/ReportsSection.js:107 | `N/A` without measurements, otherwise some measurement's altura followed by ` cm` |
| Reports.GrowthCardIsLatest | src/app/components/ReportsSection.js:80-107 | with measurements, the card shows the altura of one with the latest date, the earliest in the list among those tied |
| Reports.IconForSensor | src/app/components/ReportsSection.js:130-134 | thermometer, droplet and sun exactly for their three types, wind for every other |
| Reports.SensorCards | src/app/components/ReportsSection.js:129-134 | one card per sensor for the first min(4, n) sensors, in order |
| Reports.RecentProductions | src/app/components/ReportsSection.js:143 | the prefix of at most 3 harvests, all of them when fewer |
| Reports.Dashboard.constructor | src/app/components/ReportsSection.js:6-10 | five empty lists |
| Reports.Dashboard.FetchData | src/app/components/ReportsSection.js:16-52 | no token or any response not ok: no list changes; otherwise the lists are set in order up to the first body that fails to parse |
| Reports.EmptyDashboard | src/app/components/ReportsSection.js:106-110 | empty lists show zero counts and `N/A` growth |
| Reports.MountWithFailedRequest | src/app/components/ReportsSection.js:34-36 | one failed request leaves the whole dashboard empty |
| Reports.MountWithAnswers | src/app/components/ReportsSection.js:38-42 | five good answers fill all counts and at most four sensor cards |
| Login.FetchUserInfo | src/app/components/useLogin.js:57-77 | the payload exactly for an ok answer, `undefined` otherwise |
| Login.LoginHook.constructor | src/app/components/useLogin.js:4-8 | empty credentials and error, not loading, no user information |
| Login.LoginHook.BeginAttempt | src/app/components/useLogin.js:12-13 | loading on, error cleared |
| Login.LoginHook.FinishAttempt | src/app/components/useLogin.js:18-51 | ok: token stored, user information set, `{token, userInfo}` returned; non-ok `Credenciales inválidas`, rejected `Error en el inicio de sesión`, nothing stored; loading off |
| Login.LoginHook.HandleLogin | src/app/components/useLogin.js:10-55 | a missing credential sets the guard message and leaves loading, storage and user information alone; otherwise the attempt's outcomes with the error cleared on success |
| Login.LoginWithoutPassword | src/app/components/useLogin.js:52-54 | no password: no result, the guard message, nothing stored |
| Login.LoginWithoutUserInfo | src/app/components/useLogin.js:30-43 | a failed user-information fetch still logs in, with no user information and the token stored |
| Login.RejectedLogin | src/app/components/useLogin.js:44-51 | rejected credentials keep an earlier stored token and end loading |
| UserManagement.ServerMessage | src/app/components/useUserManagement.js:66 | the server's message unless empty, else the fallback |
| UserManagement.UserManagementHook.constructor | src/app/components/useUserManagement.js:4-10 | empty fields and banners, not loading, no users |
| UserManagement.UserManagementHook.FetchUsers | src/app/components/useUserManagement.js:16-37 | ok replaces the users; otherwise the users stay and the error says which failure |
| UserManagement.UserManagementHook.ChangeToken | src/app/components/useUserManagement.js:12-14 | the fetch reruns exactly on a new token |
| UserManagement.UserManagementHook.HandleCreateUser | src/app/components/useUserManagement.js:39-73 | ok: success banner, fields cleared, list refreshed; non-ok: server message or default; rejected: connection message; fields kept on failure; loading off |
| UserManagement.UserManagementHook.DeleteUser | src/app/components/useUserManagement.js:75-106 | true exactly for an ok answer, with the success banner and a refresh; otherwise the error banner; loading off |
| UserManagement.RoleBadge | src/app/components/UserManagementSection.js:190-192 | purple exactly for `Administrador` |
| UserManagement.RenderUsers | src/app/components/UserManagementSection.js:166-220 | the no-users message exactly for an empty list; otherwise one entry per user with its badge |
| UserManagement.UserManagementSection.constructor | src/app/components/UserManagementSection.js:28-31 | a fresh hook, modal closed, nobody pending |
| UserManagement.UserManagementSection.DeleteClick | src/app/components/UserManagementSection.js:47-50 | the user becomes pending and the modal opens |
| UserManagement.UserManagementSection.CancelDelete | src/app/components/UserManagementSection.js:229 | the modal closes; the user stays pending |
| UserManagement.UserManagementSection.ConfirmDelete | src/app/components/UserManagementSection.js:52-63 | the delete runs only for a pending user and gives its result, leaving the hook as `deleteUser` does: on success the banner and the refreshed list or the refresh's error, on failure the list kept and the server's or the connection error; the modal closes and nothing is pending |
| UserManagement.CreateAccepted | src/app/components/useUserManagement.js:58-63 | an accepted creation clears the form and shows the refreshed list and the success banner |
| UserManagement.CreateRefused | src/app/components/useUserManagement.js:64-72 | a refused creation keeps the typed fields and shows the server's reason or the default |
| UserManagement.ConfirmFlow | src/app/components/UserManagementSection.js:52-63 | confirm with nobody pending deletes nothing; after a click it reports the delete; the modal ends closed |
| UserManagement.CancelThenConfirm | src/app/components/UserManagementSection.js:229 | after a cancel the user is still pending and a confirm still deletes them |
| Registration.InitialDraft | src/app/components/PlantRegistrationSection.js:7-16 | the draft has exactly the section's keys, all empty |
| Registration.DraftSizes | src/app/components/PlantRegistrationSection.js:7-16 | the drafts have 8, 5, 4, 5 and 4 fields |
| Registration.RequestBody | src/app/components/ProductionRegistrationSection.js:38-42 | the draft's keys, each verbatim except the number field and the date field; no body exactly when the date does not parse |
| Registration.VerbatimBody | src/app/components/GrowthRegistrationSection.js:39 | the plant, growth and sensor bodies are the draft verbatim |
| Registration.PlantFieldLookup | src/app/components/PlantRegistrationSection.js:87-129 | every plant field finds its draft key except `fecha_estado` |
| Registration.PlainNameIsKey | src/app/components/PlantRegistrationSection.js:87 | a lower-case name without spaces is its own lookup key |
| Registration.RegistrationForm.constructor | src/app/components/PlantRegistrationSection.js:7-21 | the initial draft, the closed success-coloured snackbar, no token |
| Registration.RegistrationForm.LoadStoredToken | src/app/components/AnomalyRegistrationSection.js:19-26 | a truthy stored token is adopted, otherwise the token stays |
| Registration.RegistrationForm.HandleChange | src/app/components/PlantRegistrationSection.js:23-29 | the named field takes the value and every other field is unchanged |
| Registration.RegistrationForm.HandleSubmit | src/app/components/PlantRegistrationSection.js:31-71 | the request carries the section's body (coerced for the production and anomaly forms, verbatim for the plant, growth and sensor forms, as the handlers of the five `*RegistrationSection.js` files build it) and, for the anomaly and sensor sections, the bearer token; an ok answer shows the section's success snackbar and restores the initial draft; anything else, an unparsable production date included, shows its error snackbar and keeps the draft |
| Registration.RegistrationForm.CloseSnackbar | src/app/components/PlantRegistrationSection.js:134 | the snackbar hides and keeps its text and colour |
| Registration.RegisterAccepted | src/app/components/PlantRegistrationSection.js:45-60 | an accepted submission after an edit restores the initial draft and shows success |
| Registration.RegisterRefused | src/app/components/PlantRegistrationSection.js:61-70 | a refused submission keeps the edit and the other empty fields and shows the section's error |
| Registration.HarvestWithBadDate | src/app/components/ProductionRegistrationSection.js:41 | an unparsable harvest date sends nothing and shows the error |
| Registration.AnomalyBearer | src/app/components/AnomalyRegistrationSection.js:45-51 | the stored token is the bearer; the date goes as an ISO date and `id_planta` as a number |

## Left out

- Network details are not modelled: the URLs, headers, HTTP methods and JSON encoding of requests. Each `fetch` is an outcome parameter.
- Timing is not modelled: the 1500 ms minimum spinner of the login, the 500 ms interval (one callback is one `Tick`), the snackbar auto-hide and the scroll-into-view effect.
- Concurrency is not modelled. Effects and handlers run one after another and each completes before the next starts. The model does not capture overlapping requests or the stale `rows` captured by the delete handler. It also treats the user-list refresh after a create or delete, which ends after loading does, as applied right after the action.
- `Number(...)` and `new Date(...).toISOString()` are not computed: the body keeps the text they apply to. The `validDate` parameter decides whether `toISOString` throws.
- The reports dashboard compares dates as integer timestamps, so `Invalid Date`, which compares false with everything, is not modelled.
- `toLowerCase` is modelled on ASCII letters only. Every field name in the source is ASCII.
- The model does not cover a login answer without a `token` field, which `localStorage` would store as the text `undefined`. The token is a string.
- JSON bodies of unexpected shape are not modelled where the code does not check them. The weather widget's non-array body is modelled as `JsonOther`, which shows the no-data message. A JSON `null` body is not modelled: there `!weatherData.length` throws during the render. A JSON string or an object with a `length` field is not modelled either. Non-array bodies in the reports and user lists would make the render throw, and they are not modelled either.
- The QR download of `Table.js` and the QR modal are left out: they are DOM and file-download code.
- `ConfirmationModal` is used without an import in `ResponsiveTable/index.js`. That only affects the rendered element, and rendering is modelled only up to the choice of view.
- `DesktopTable.js` passes `row.id` to the delete handler. The model's delete takes a row, as `ResponsiveTable/index.js` expects.
- The `onSelectPlant` callback, the theme, the media query and the shrink-to-fit layout are presentation.
- The presentation-only files are not part of this model: `DesktopTable.js`, `MobileCard.js`, `MobileCardList.js`, `styles.js`, `constants.js`, `ConfirmationModal.js`, `PlantTrackerQRModal.js`, `FormField.js`, the sidebar, dashboard, landing and login components and the animations. The same goes for the user search box, which has no state.
- `FormField.js` does not bind `value` or `onChange`. `handleChange` is modelled as written, even though no field calls it.
- A page size arrives through `+event.target.value` from a fixed option list. It is taken as a natural number.
- Unmounting and remounting the recommendation component are not modelled; only the interval cleanup on a change of section count is modelled.
- Nothing resets the weather widget's `loading` or `error` when a new token arrives, in the source or in the model. A stale error can therefore outlive a later successful fetch; this is modelled, not left out, and is noted here only as a caution.
