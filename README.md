# Batch traceability front end — a Dafny model

This project models the page logic of a React admin front end for product and
batch traceability. Operators keep a product catalogue and production batches.
Each batch gets a QR code that opens a public batch profile page. Each view of
that page tries to record where it was viewed from. A second, smaller
application lists employees and gives each one a QR code that opens their
profile card.

Every network reply, browser API result and fresh id is a parameter of the
model. What is modelled is what the pages do with those values:

- **Public batch profile** (`batch_profile.dfy`, module `BatchProfile`):
  - the place name built from a reverse-geocoding reply, and its two fallback
    literals;
  - the location record, and the access-log request built from it;
  - the loading / error / not-found / profile choice;
  - the fixed fallback literal of every displayed field;
  - image bytes turned into a `data:` URL with Base64 (`base64.dfy`, module
    `Base64`, following section 4 of RFC 4648);
  - the page state, and the body scroll lock toggled by zooming, as two
    classes.
- **Batch QR page** (`batch_detail.dfy`): the QR payload URL and the branch
  order. It is proved that the route table of the batch application
  (`routing.dfy`) turns the payload back into the same identification number.
- **Batch form** (`batch_production.dfy`):
  - calendar dates in `YYYY-MM-DD` form;
  - the validation schema, including the expiry-after-manufacture test;
  - the mapping of loaded data into the form;
  - the create / edit request.
- **Batch list** (`batch_master.dfy`): the row display fallbacks, the
  navigation paths of the row actions, and a class for the list state. A
  delete is a click that sends the request and captures the list, and a
  later settlement that filters the captured list.
- **Employee QR page and profile card** (`employees.dfy`): the lookup by
  stringified id in the static employee list and the QR payload, with the
  round trip through the employee route table. Both pages search the static
  list, not the list page's records.
- **Employee list page** (`employee_page.dfy`): a class whose handlers add,
  edit, update and delete records. Each handler is proved equal to a step
  function on the page state, and the lemmas state what the steps do. The
  form is submitted only when the browser's constraint validation lets it
  through: a name, and a well-formed email.
- **Product dialog** (`add_product.dfy`):
  - the schema;
  - the multipart body, built by a method with two loops;
  - the create / update request;
  - a class holding the form values, the preview map and the upload flag.
    Picking a file changes only the preview, never the values submitted.

Shared pieces:

- `text.dfy`: `Array.join`, `String.split`, decimal rendering of numbers and
  zero padding.
- `lists.dfy`: `filter`, `map`, `find` and `findIndex` by a key.
- `fetch.dfy`: the loading / error / missing / ready order the pages share,
  and HTTP requests.
- `qr.dfy`: the QR component's inputs (payload, size, level).
- `wrappers.dfy`: `Option` and `Result`.

Where the code and its design description disagree, the model follows the
code:

- The profile page reads `cautionary_symbol_image.data` without a guard, so a
  batch without that image makes the render throw. `RenderProfile` returns
  `RenderError` then, as `MinimalPayloadThrows` shows.
- The access-log request reads the batch data captured when the location
  request was made. At first mount that data is still `null`, so no access
  log is posted (`MountTimePipelineNeverLogs`). The effect that makes the
  request re-runs when the identification number changes without a remount.
  It then captures the data of the batch shown before, so the log it posts
  names the previous batch (`LocationPipeline` with that data).
- Without `VITE_API_URL`, the product dialog's fallback URL already ends in
  `/products`, and the request adds `/products` again
  (`DefaultUrlRepeatsSegment`).

## Model

| member | source | states |
|---|---|---|
| BatchProfile.Present | src/pages/BatchCreation/BatchProfile.jsx:65-70 | `filter(Boolean)` keeps only non-empty components; the result is empty exactly when every component is absent or empty |
| BatchProfile.PlaceNameCases | src/pages/BatchCreation/BatchProfile.jsx:65-72 | no usable component gives exactly "Unknown Location"; otherwise the name is the present components joined by ", " in the order city/town/village, state/region, country |
| BatchProfile.PlaceNameSplits | src/pages/BatchCreation/BatchProfile.jsx:65-72 | splitting a comma-free place name at ", " gives back exactly the components it was built from, in order |
| BatchProfile.PresentKeepsNoComma | src/pages/BatchCreation/BatchProfile.jsx:65-70 | dropping empty components keeps every kept component unchanged, so comma-free components stay comma-free |
| BatchProfile.JoinNonEmpty | src/pages/BatchCreation/BatchProfile.jsx:71-72 | a join of non-empty parts is never empty, so the "Unknown Location" fallback applies only when no component is present |
| BatchProfile.PuneExample | src/pages/BatchCreation/BatchProfile.jsx:65-72 | city "Pune", state "MH", country "India" give "Pune, MH, India" |
| BatchProfile.ReverseGeocode | src/pages/BatchCreation/BatchProfile.jsx:58-77 | the lookup fails exactly when the request fails or the reply has no address; otherwise it yields the composed place name |
| BatchProfile.LocationOf | src/pages/BatchCreation/BatchProfile.jsx:21-45 | the location keeps the coordinates unchanged, has source "geolocation", and is named by the geocoder or "Unknown" when it fails |
| BatchProfile.LocationNameFallbacks | src/pages/BatchCreation/BatchProfile.jsx:34-44 | a failed request or a reply without address gives exactly "Unknown"; a reply with an address gives its place name; the name is never empty |
| BatchProfile.AccessLogRequest | src/pages/BatchCreation/BatchProfile.jsx:80-88 | a body exists exactly when batch data is present; it carries batch number and product name from the batch, the coordinates unchanged, and the location name as `address` |
| BatchProfile.LocationPipeline | src/pages/BatchCreation/BatchProfile.jsx:18-55 | without a position nothing is stored or sent; with one the user location is set, and a log request is built exactly when batch data is present |
| BatchProfile.MountTimePipelineNeverLogs | src/pages/BatchCreation/BatchProfile.jsx:80-100 | with the batch data captured at mount time (`null`) no access-log request is ever built, though the user location is still set |
| BatchProfile.PipelineRecord | src/pages/BatchCreation/BatchProfile.jsx:21-33 | with a position and batch data the request carries that batch's fields and the same location record that is stored |
| BatchProfile.ToBytes | src/pages/BatchCreation/BatchProfile.jsx:170 | `Uint8Array` conversion keeps one byte per element |
| BatchProfile.BufferToDataUrl | src/pages/BatchCreation/BatchProfile.jsx:168-175 | no buffer gives null; otherwise the URL is "data:image/jpeg;base64," followed by exactly the RFC 4648 Base64 encoding of the buffer's bytes, which decodes back to those bytes |
| BatchProfile.RenderedFields | src/pages/BatchCreation/BatchProfile.jsx:316-455 | the render fails exactly when the cautionary image is missing; otherwise each field shows its payload value or, when that is falsy, its fixed literal, and the optional panels appear exactly when their image is present |
| BatchProfile.MinimalPayloadThrows | src/pages/BatchCreation/BatchProfile.jsx:404-408 | a batch without a cautionary symbol image cannot be rendered |
| BatchProfile.BodyStyle.constructor | src/pages/BatchCreation/BatchProfile.jsx:121-130 | the body starts with no overflow style |
| BatchProfile.ProfilePage.constructor | src/pages/BatchCreation/BatchProfile.jsx:9-15 | the page starts loading, without data, error, zoom or location, and the mount effect sets the body overflow to "auto" |
| BatchProfile.ProfilePage.FetchSettled | src/pages/BatchCreation/BatchProfile.jsx:102-117 | loading ends either way; success stores the data, failure sets the error and leaves the data as it was |
| BatchProfile.ProfilePage.PositionSettled | src/pages/BatchCreation/BatchProfile.jsx:18-55 | a position sets the user location; the access-log request is the mount-time pipeline's and is always absent; nothing else changes |
| BatchProfile.ProfilePage.CloseZoom | src/pages/BatchCreation/BatchProfile.jsx:177-179 | the zoom is cleared and, when one was open, the body overflow returns to "auto" |
| BatchProfile.ProfilePage.Unmount | src/pages/BatchCreation/BatchProfile.jsx:127-129 | the effect cleanup leaves the body overflow "auto" |
| BatchProfile.ProfilePage.View | src/pages/BatchCreation/BatchProfile.jsx:132-166 | loading, then error, then missing data (with a link to /batches) are checked in that order, and only then is the profile rendered |
| BatchProfile.ZoomableImage.constructor | src/pages/BatchCreation/BatchProfile.jsx:213-234 | an image starts unzoomed, with the body overflow "auto" |
| BatchProfile.ZoomableImage.Preview | src/pages/BatchCreation/BatchProfile.jsx:242-267 | a picture is drawn exactly when there is image data; otherwise "No image available" |
| BatchProfile.ZoomableImage.Click | src/pages/BatchCreation/BatchProfile.jsx:216-218 | clicking zooms the image and the body overflow becomes "hidden"; on a zoomed image nothing changes |
| BatchProfile.ZoomableImage.Close | src/pages/BatchCreation/BatchProfile.jsx:220-223 | closing unzooms and the body overflow becomes "auto"; on an unzoomed image nothing changes |
| BatchProfile.ZoomableImage.Unmount | src/pages/BatchCreation/BatchProfile.jsx:231-233 | teardown leaves the body overflow "auto", whatever the zoom state was |
| Base64.Encode | src/pages/BatchCreation/BatchProfile.jsx:174 | `btoa` output is four characters per started group of three bytes |
| Base64.DecodeEncode | src/pages/BatchCreation/BatchProfile.jsx:174 | decoding the Base64 of any byte sequence gives those bytes back |
| Base64.EncodeInjective | src/pages/BatchCreation/BatchProfile.jsx:174 | different byte sequences have different encodings |
| Base64.Latin1Codes | src/pages/BatchCreation/BatchProfile.jsx:170-173 | the `reduce` makes one character per byte, whose code is the byte's value |
| Base64.BtoaLatin1 | src/pages/BatchCreation/BatchProfile.jsx:170-174 | `btoa` never rejects that string, and its result is the Base64 of the bytes |
| Fetch.SelectPhase | src/pages/BatchCreation/BatchDetail.jsx:31-60 | loading wins, then error, then missing data; data is used only when none of those holds |
| BatchDetail.View | src/pages/BatchCreation/BatchDetail.jsx:31-90 | branch order loading, error ("Error loading data"), missing ("Batch not found!"); a QR of size 256 at level "H" is drawn only for loaded data, with the profile URL as payload and a link back to /batches |
| BatchDetail.Interpolate | src/pages/BatchCreation/BatchDetail.jsx:63 | the template literal writes a string as itself, a JSON `null` as "null" and an absent field as "undefined" |
| BatchDetail.UnsetNumberOpensLiteralProfile | src/pages/BatchCreation/BatchDetail.jsx:62-79 | a batch whose number is `null` or absent still gets a QR code, and it opens the profile page of the number "null" or "undefined" |
| BatchDetail.ProfileUrlShape | src/pages/BatchCreation/BatchDetail.jsx:62-63 | the payload is "http://", hostname, ":", port, then the path "/batchesprofile/" and the identification number, whatever the page's own scheme |
| BatchDetail.QrOpensProfile | src/routes/AppRoutes.jsx:35-38 | for a plain identification number, the payload URL resolves to the public profile route with that same number as parameter |
| BatchDetail.ResolveProfilePath | src/routes/AppRoutes.jsx:22-38 | the path `batchesprofile/<n>` passes over every earlier route and matches the profile route with parameter n |
| BatchDetail.QrPayloadIdentifies | src/pages/BatchCreation/BatchDetail.jsx:62-63 | different plain identification numbers give different payloads |
| BatchDetail.SlashedNumberNotFound | src/routes/AppRoutes.jsx:33-38 | an identification number containing "/" is not read back: its URL falls through to the catch-all page |
| BatchDetail.ResolveSlashedPath | src/routes/AppRoutes.jsx:33 | a three-segment `batchesprofile` path reaches the catch-all route |
| BatchProduction.ParseDate | src/pages/BatchCreation/BatchProductionPage.jsx:80-85 | a date read from `YYYY-MM-DD` text is a valid calendar date |
| BatchProduction.ParseFormatDate | src/pages/BatchCreation/BatchProductionPage.jsx:80-85 | a valid date formatted as `YYYY-MM-DD` reads back as the same date |
| BatchProduction.FormatDateInjective | src/pages/BatchCreation/BatchProductionPage.jsx:80-85 | different valid dates format differently |
| BatchProduction.BeforeStrictTotal | src/pages/BatchCreation/BatchProductionPage.jsx:41 | "is after" on dates is irreflexive, transitive and total on distinct dates |
| BatchProduction.Validate | src/pages/BatchCreation/BatchProductionPage.jsx:26-44 | the schema reports no field twice, so at most four errors |
| BatchProduction.ValidateReports | src/pages/BatchCreation/BatchProductionPage.jsx:26-44 | batch number and product name are reported exactly when empty; a date exactly when it is not a date; expiry also exactly when both dates are set and expiry is not strictly after manufacture |
| BatchProduction.ValidateEmpty | src/pages/BatchCreation/BatchProductionPage.jsx:26-44 | the form is valid exactly when both required texts are non-empty, both dates cast, and the expiry rule holds |
| BatchProduction.MissingDatePasses | src/pages/BatchCreation/BatchProductionPage.jsx:39-40 | the expiry test passes whenever either date is missing |
| BatchProduction.SameDateFails | src/pages/BatchCreation/BatchProductionPage.jsx:41 | equal manufacture and expiry dates fail the expiry test with its message |
| BatchProduction.ReportsAppend | src/pages/BatchCreation/BatchProductionPage.jsx:26-44 | the schema's errors for a field are those of each of its tests together |
| BatchProduction.ReportsSingle | src/pages/BatchCreation/BatchProductionPage.jsx:26-44 | a single test reports its field exactly when it fails |
| BatchProduction.ResetValuesFields | src/pages/BatchCreation/BatchProductionPage.jsx:76-86 | loaded texts fill the form, and each of the three missing or empty texts becomes ""; loaded dates become their `YYYY-MM-DD` text, missing ones null |
| BatchProduction.ResetValuesExpiry | src/pages/BatchCreation/BatchProductionPage.jsx:76-86 | a loaded form never fails the date cast, and fails the expiry test exactly when both loaded dates are present and expiry is not after manufacture |
| BatchProduction.FormAfterLoad | src/pages/BatchCreation/BatchProductionPage.jsx:70-92 | a loaded batch resets the form to its values; a failed or empty load leaves the form unchanged |
| BatchProduction.SubmitRequest | src/pages/BatchCreation/BatchProductionPage.jsx:111-118 | a request is sent exactly when the form is valid; it carries the schema's cast values (the texts as entered, each date as the date it reads or null), is a PUT to `/batches/{id}` exactly in edit mode and a POST to `/batches` otherwise |
| BatchProduction.SentFormsAreValid | src/pages/BatchCreation/BatchProductionPage.jsx:26-44 | every sent body has both required texts, no invalid date and, when both dates are set, expiry strictly after manufacture |
| BatchProduction.ResubmitLoadedBatch | src/pages/BatchCreation/BatchProductionPage.jsx:76-118 | saving a loaded batch unchanged goes through exactly when its required texts are present and its dates are in order, and sends back the dates it was loaded with |
| BatchProduction.DefaultsAfterLoad | src/pages/BatchCreation/BatchProductionPage.jsx:76-86 | the values a bare `reset()` restores: the loaded batch's form after a successful load, the empty defaults otherwise |
| BatchProduction.SettleSubmit | src/pages/BatchCreation/BatchProductionPage.jsx:118-125 | success resets the form to the current defaults and navigates to /batches; failure keeps the form and stays |
| BatchProduction.SaveRestoresDefaults | src/pages/BatchCreation/BatchProductionPage.jsx:76-125 | after a successful save the create form is empty again, while the edit form shows the loaded batch again, which differs from the empty form when the batch has a number |
| BatchMaster.DeleteRequest | src/pages/BatchCreation/Batchmaster.jsx:41 | the delete is a DELETE to `/batches/{id}` |
| BatchMaster.EditPathOpensForm | src/pages/BatchCreation/Batchmaster.jsx:49-51 | for an id that is one plain segment, the edit path resolves to the batch form's edit route with that id as parameter |
| BatchMaster.QrPathOpensQrPage | src/pages/BatchCreation/Batchmaster.jsx:53-55 | for a plain id other than "production", the QR path resolves to the batch QR page with that id as parameter |
| BatchMaster.ProductionIdOpensCreateForm | src/pages/BatchCreation/Batchmaster.jsx:53-55 | the QR path of a batch whose id is "production" opens the empty creation form, which the router ranks first |
| BatchMaster.NumericIdIsPlain | src/pages/BatchCreation/Batchmaster.jsx:49-55 | a numeric id in decimal is a plain segment other than "production", so both row paths open their pages |
| BatchMaster.ResolveEditSegments | src/routes/AppRoutes.jsx:22-30 | `batches/production/<d>` passes over the shorter batch routes and matches the edit route |
| BatchMaster.ResolveQrSegments | src/routes/AppRoutes.jsx:22-31 | `batches/<d>` matches the QR route when d is not "production" |
| BatchMaster.RowFallbacks | src/pages/BatchCreation/Batchmaster.jsx:154-179 | a missing identification number or date shows "N/A"; present ones are shown as given; batch number and product name show their value, or nothing when missing |
| BatchMaster.BatchMasterPage.constructor | src/pages/BatchCreation/Batchmaster.jsx:19-21 | the list starts empty and loading |
| BatchMaster.BatchMasterPage.FetchSettled | src/pages/BatchCreation/Batchmaster.jsx:24-37 | loading ends either way; success stores the rows, failure sets the error |
| BatchMaster.BatchMasterPage.ClickDelete | src/pages/BatchCreation/Batchmaster.jsx:39-41 | a click sends a DELETE to `/batches/{id}` and captures the current list, changing nothing |
| BatchMaster.BatchMasterPage.DeleteSettled | src/pages/BatchCreation/Batchmaster.jsx:41-46 | success sets the list to the captured list without the rows of the id, the rest in order; failure leaves the list unchanged and alerts |
| BatchMaster.DeleteOrderMatters | src/pages/BatchCreation/Batchmaster.jsx:39-46 | two deletes settled one after the other remove both batches; when both were clicked before either settled, the last settlement still holds the first batch |
| BatchMaster.OverlappingDeletes | src/pages/BatchCreation/Batchmaster.jsx:39-46 | on the page itself, two clicks followed by two successful settlements leave the first deleted batch in the list |
| BatchMaster.BatchMasterPage.View | src/pages/BatchCreation/Batchmaster.jsx:57-179 | spinner while loading, then the error text, and only then one row per batch in list order |
| BatchMaster.DeleteUniqueBatch | src/pages/BatchCreation/Batchmaster.jsx:42 | deleting a batch whose id is unique removes exactly that row and keeps the others in order |
| Lists.RemoveKey | src/pages/EmployeePage.jsx:43 | `filter` by id keeps no record with the id, keeps every other record, and adds none |
| Lists.RemoveKeyAppend | src/pages/BatchCreation/Batchmaster.jsx:42 | filtering distributes over concatenation, so the kept records stay in their order |
| Lists.RemoveKeyIdempotent | src/pages/EmployeePage.jsx:43 | deleting the same id twice changes nothing more |
| Lists.UpdateKey | src/pages/EmployeePage.jsx:56-58 | `map` keeps the length, changes each record with the key and leaves every other one unchanged |
| Lists.Find | src/pages/EmployeeDetail.jsx:9 | `find` succeeds exactly when some record has the key, and returns the first such record |
| Lists.FindUnique | src/pages/EmployeeProfile.jsx:15 | with a unique key, `find` returns exactly that record |
| Routing.Resolve | src/routes/AppRoutes.jsx:20-39 | a resolved route is one of the table's routes |
| Employees.DetailOf | src/pages/EmployeeDetail.jsx:9-31 | over the records searched, "Employee not found!" and no QR exactly when no id matches; otherwise a QR of size 256 at level "H" of the first matching employee's card URL, with a link back to "/" |
| Employees.EmployeeDetailView | src/pages/EmployeeDetail.jsx:3-31 | the same, with the static employee list as the records searched |
| Employees.ProfileOf | src/pages/EmployeeProfile.jsx:15-68 | over the records searched, "Employee not found!" with a link to "/" exactly when no id matches; otherwise the card of the first matching employee, every field from that record |
| Employees.EmployeeProfileView | src/pages/EmployeeProfile.jsx:3-68 | the same, with the static employee list as the records searched |
| Employees.SameLookup | src/pages/EmployeeProfile.jsx:15 | both pages find the same employee for a route id: the QR exists exactly when the card does, and both use the same record |
| Employees.EmployeeUrlShape | src/pages/EmployeeDetail.jsx:23-24 | the payload is "http://", hostname, ":", port, then `/employee/qrcode/` and the stringified id |
| Employees.ResolveCardPath | src/App.jsx:12-14 | `employee/qrcode/<id>` matches the profile card route with that id |
| Employees.ResolveDetailPath | src/App.jsx:12-13 | `/employee/<id>` matches the QR page route with that id |
| Employees.QrOpensSameEmployee | src/App.jsx:14 | with unique plain ids, an employee's QR payload resolves to the card route with their id, and looking that id up in the same list finds that same employee |
| Employees.StaticIdsUnique | src/mocks/employees.js:1-94 | the ten static employees have distinct ids |
| Employees.StaticQrRoundTrip | src/mocks/employees.js:1-94 | for every static employee the QR page draws the QR code of their card URL, that URL resolves to the card route with their id, and the card shows that same employee |
| Employees.StaticIdsFound | src/pages/EmployeeDetail.jsx:9 | a numeric route id finds a record exactly when it is 1 to 10 |
| Employees.TextIdNotFound | src/pages/EmployeeProfile.jsx:15 | a route id that is not all digits, such as a generated one, shows "Employee not found!" on both pages |
| EmployeePage.ChangeOnlyThatInput | src/pages/EmployeePage.jsx:19-21 | typing sets that one input and leaves the other inputs, the list and the editing id alone |
| EmployeePage.AddNeedsNameAndEmail | src/pages/EmployeePage.jsx:25 | without a name or an email, adding leaves list and form unchanged |
| EmployeePage.AddAppendsOne | src/pages/EmployeePage.jsx:26-35 | a successful add appends exactly one record, holding the form's six fields and the fresh id unless the form has one, after the unchanged list, and empties the form |
| EmployeePage.DeleteRemovesOnlyThatId | src/pages/EmployeePage.jsx:38-45 | nothing happens unless confirmed; a confirmed delete removes every record with the id and keeps all others |
| EmployeePage.DeleteUndoesAdd | src/pages/EmployeePage.jsx:26-45 | adding under a new id and then deleting that id gives the original list back |
| EmployeePage.EditLoadsRecord | src/pages/EmployeePage.jsx:47-51 | editing sets the editing id and loads the first record with that id into the form, leaving the list alone |
| EmployeePage.UpdateMergesTarget | src/pages/EmployeePage.jsx:53-69 | the form is merged over the records with the editing id; all others and the length are kept; editing stops and the form is emptied |
| EmployeePage.EditThenUpdateUnchanged | src/pages/EmployeePage.jsx:47-69 | editing a uniquely identified employee and submitting unchanged leaves the list as it was |
| EmployeePage.SubmitDispatch | src/pages/EmployeePage.jsx:86 | submit updates exactly when the editing id is truthy and adds otherwise |
| EmployeePage.ListLinkOpensQrPage | src/pages/EmployeePage.jsx:284-290 | a row's QR link opens the QR page with the row's id, which draws the row's QR code when a static record has that id and says "Employee not found!" otherwise |
| EmployeePage.AddedEmployeeNotFound | src/pages/EmployeePage.jsx:26-35 | an employee added with a generated id is listed, yet both id pages show "Employee not found!" for it |
| EmployeePage.MalformedFormNotSubmittable | src/pages/EmployeePage.jsx:101-129 | the browser blocks submission of a form without a name or with an email that has no "@" |
| EmployeePage.StaticListComplete | src/mocks/employees.js:1-94 | every static employee has a name and an email |
| EmployeePage.SubmitKeepsRecordsComplete | src/pages/EmployeePage.jsx:23-129 | submitting a form the browser lets through keeps every record with a name and an email |
| EmployeePage.OtherStepsKeepRecordsComplete | src/pages/EmployeePage.jsx:19-51 | typing, editing and deleting keep every record with a name and an email |
| EmployeePage.EmployeeListPage.constructor | src/pages/EmployeePage.jsx:8-17 | the page starts from the static list, an empty form and no editing id |
| EmployeePage.EmployeeListPage.HandleChange | src/pages/EmployeePage.jsx:19-21 | the new state is the change step of the old one |
| EmployeePage.EmployeeListPage.HandleAddEmployee | src/pages/EmployeePage.jsx:23-36 | the new state is the add step of the old one |
| EmployeePage.EmployeeListPage.HandleDelete | src/pages/EmployeePage.jsx:38-45 | the new state is the delete step of the old one |
| EmployeePage.EmployeeListPage.HandleEdit | src/pages/EmployeePage.jsx:47-51 | the new state is the edit step of the old one |
| EmployeePage.EmployeeListPage.HandleUpdateEmployee | src/pages/EmployeePage.jsx:53-69 | runs only on a form the browser lets through; the new state is the update step of the old one |
| EmployeePage.EmployeeListPage.Submit | src/pages/EmployeePage.jsx:86-129 | runs only on a form the browser lets through (a name, and an email of the form local@labels); the new state is the submit step of the old one |
| AddProduct.ApiUrl | src/pages/ProductMaster/AddProduct.jsx:22-23 | the configured URL when set and non-empty, otherwise "http://localhost:5000/api/products" |
| AddProduct.Validate | src/pages/ProductMaster/AddProduct.jsx:26-43 | no messages exactly when every rule passes; every failing rule's message is reported and only those |
| AddProduct.SchemaFields | src/pages/ProductMaster/AddProduct.jsx:26-43 | the schema checks the seven text fields and then the three image fields, in their fixed order |
| AddProduct.SchemaRequiresAll | src/pages/ProductMaster/AddProduct.jsx:26-43 | the form passes exactly when all seven texts are non-empty and all three image fields are present |
| AddProduct.BuildFormData | src/pages/ProductMaster/AddProduct.jsx:102-128 | the body has ten entries: the seven text fields in order, each its value or "", then the three image fields in order, each its first file |
| AddProduct.ProductRequest | src/pages/ProductMaster/AddProduct.jsx:73-81 | a PUT to `{API}/products/{id}` exactly when a product is being edited, a POST to `{API}/products` otherwise, carrying the body |
| AddProduct.DefaultUrlRepeatsSegment | src/pages/ProductMaster/AddProduct.jsx:22-23 | without a configured URL, a new product is posted to ".../api/products/products" |
| AddProduct.ProductDialog.constructor | src/pages/ProductMaster/AddProduct.jsx:48-63 | not uploading, every image's preview null, and the form holding the values the inputs had when registered |
| AddProduct.ProductDialog.InputText | src/pages/ProductMaster/AddProduct.jsx:188-274 | typing into a registered text input sets that field's value and nothing else |
| AddProduct.ProductDialog.HandleImageChange | src/pages/ProductMaster/AddProduct.jsx:91-100 | with a file only that key's preview changes, to the object URL; without one nothing changes; the form values are never changed |
| AddProduct.ProductDialog.BeginSubmit | src/pages/ProductMaster/AddProduct.jsx:73-133 | uploading becomes true; the request is a PUT to `{API}/products/{id}` when editing and a POST to `{API}/products` otherwise; its body carries the ten fields in their fixed order, each text field's form value or "", each image field's first file |
| AddProduct.PickedFileNotSent | src/pages/ProductMaster/AddProduct.jsx:91-128 | a dialog opened with empty file inputs sends "undefined" for every image, even after a file is picked |
| AddProduct.ProductDialog.FinishSubmit | src/pages/ProductMaster/AddProduct.jsx:132-138 | uploading becomes false whatever the outcome; the dialog closes only on success |
| Text.DecimalRoundTrip | src/pages/EmployeePage.jsx:285 | a number written into a path in decimal reads back as the same number |
| Text.NatToDecimalInjective | src/pages/EmployeeDetail.jsx:9 | different numeric ids have different strings |
| Text.SplitJoin | src/pages/BatchCreation/BatchProfile.jsx:71 | splitting a join at its separator gives the parts back when no part contains the separator |

## Left out

- Network calls, the browser's geolocation API and the reverse-geocoding service are not modelled. Their results are parameters: replies, positions and a `succeeded` flag.
- The order in which asynchronous callbacks settle is left to the caller: each settlement is one method call. A handler that uses state captured before it awaited (the batch list's delete) receives that captured value as an argument, so the lost update is modelled (`BatchMaster.DeleteOrderMatters`). React's batching and re-rendering between settlements are not modelled.
- Coordinates are passed through unchanged as `real`. Floating-point behaviour is not modelled.
- Locale date formatting (`toLocaleDateString`) and `dayjs` parsing of arbitrary backend text are not modelled. Dates shown by the lists stay the backend's raw text. The batch form works on `YYYY-MM-DD` calendar dates only.
- BatchProduction.ParseDate: checks day 1–31 without the month's length, and does not model yup's lenient casting of other date formats.
- React Router is modelled by segment matching only. Its case-insensitive comparison of static segments and its percent-decoding of parameters are left out, and so is the browser's rewriting of a URL's path: dot-segment removal, `\` read as `/`, the stripping of tabs and newlines, and percent-encoding. The round-trip lemmas therefore require each identifier to be one plain segment: not empty, not `.` or `..`, and without `/`, `\`, `?`, `#`, `%`, tab or newline. Such a path needs none of that rewriting.
- `src/main.jsx` mounts only the employee application, and wraps `App`, which has a `BrowserRouter` of its own, in a second `BrowserRouter`. React Router 6 and later refuse a router inside another, so as written that entry point fails when it renders. The model takes `App`'s route table as the active one. The batch route table (`src/routes/AppRoutes.jsx`), which no entry point mounts, is modelled on its own.
- BatchProduction.SubmitRequest: the body holds each cast date as a calendar date. yup casts it to a `Date` at local midnight, and axios sends that as a `toISOString` UTC timestamp, which can fall on the previous day; that serialisation is not modelled.
- BatchMaster: a batch id is opaque text. A numeric id from the backend is taken as its decimal text (`NumericIdIsPlain`).
- Routing.Resolve: the table is listed in the router's ranking order and the first match is taken; the ranking algorithm itself is not modelled.
- QR symbol generation is not modelled. `Qr.QrRequest` holds only the payload, size and error-correction level handed to the component.
- `nanoid` is left out: the fresh id is a parameter.
- The three-second success message (`setTimeout`), the product-name list fetched for the batch form's drop-down, and the product query-cache invalidation are not modelled.
- AddProduct.ProductDialog.constructor: the initial form values are a parameter. The edit-mode `defaultValues` and `setValue` population, which puts the product's stored image text where a file list is expected, is not modelled; only file lists are.
- AddProduct.ProductDialog.HandleImageChange: the file input's `onChange` replaces the one `register` gives it, so a picked file reaches only the preview and never the submitted values (`PickedFileNotSent`). The stray one-argument `setValue(event.target.value)` call, which sets no registered field, is not modelled.
- AddProduct.ProductDialog.BeginSubmit: requires the three image fields to be present, which the schema guarantees before `onSubmit` runs. Reading `[0]` of a missing one would throw, and that path is not modelled.
- The image preview shown next to each file input (`productToEdit?.[key] || previewImages[key]`) is not modelled.
- EmployeePage.EmployeeListPage.Submit: the browser's validation is modelled as a required name and an email of the form local@labels; the browser's trimming of the email value and the number input's rejection of non-numeric salary text are not modelled.
- BatchProfile.ProfilePage: models one identification number from mount to unmount. A change of the route parameter without a remount, which re-runs the fetch and the location request, is not a method of the class.
- BatchProfile.ZoomableImage: does not model React remounting the component when the parent page re-renders. Each instance is modelled from mount to unmount.
- BatchMaster.BatchMasterPage.FetchSettled: takes a list of rows; a reply whose `data` field is missing is not modelled.
- Styling, layout chrome, the error boundary, the 404 page, the dashboard, the access-log list and the product list page are not modelled.
