# Vendor database: create form and directory view, in Dafny

The vendor database is a small web application that tracks IT vendors. Its
server routes hand JSON straight to the data store, so the logic worth
stating lives in two browser pages:

- **Add IT Vendor** (`src/app/vendors/new/page.tsx`). The submit handler
  turns the raw form into a vendor payload. Required text fields are
  trimmed. Optional text fields are trimmed and become null when nothing is
  left. Numeric fields become null when empty. The status defaults to
  `PENDING`. A guard refuses the payload when the name, domain or email is
  empty, before any request goes out. Two pieces of page state,
  `submitting` and `error`, follow the submission through start, rejection,
  failed request and success.
- **Vendor directory** (`src/app/page.tsx`). The home page shows three
  counts (total, approved, pending), one table row per vendor with a
  sub-domain line, a location cell, a status badge and a star rating, and
  it picks between a loading message, an empty message and the table.

The project has four modules:

- `Options` (`option.dfy`): the optional value, JavaScript's `null`.
- `JsString` (`js_string.dfy`): the ECMAScript string operations the pages
  use. `trim` removes the WhiteSpace and LineTerminator characters of the
  ECMAScript language specification. `repeat` and `padEnd` take a
  one-character string. Truthiness of a `string | null` is also here.
- `NewVendor` (`new_vendor.dfy`): the payload, the normaliser, the guard,
  and the class `NewVendorPage` with the submission state.
- `Directory` (`directory.dfy`): counts, cells, badge labels and the view
  choice.

The normaliser is proved against an inverse. `ToForm` fills in the form
that produces a given payload, writing each number as text with a function
`show` that the number parser `parse` reads back. For every such pair, every
payload with the normalised shape comes back unchanged from
`Normalise(ToForm(p, show), parse)`, so normalising twice changes nothing. `Trim` is pinned down by two lemmas. Its result sits between two
blank margins of the input, and any trimmed string between blank margins is
what `Trim` returns.

Two behaviours of the code are worth stating outright. An optional text
field holding only whitespace becomes null, because the value is trimmed
before it is tested (`src/app/vendors/new/page.tsx:21-29`). A failed create
shows the server's error text, falling back to "Failed to create vendor"
when that text is empty (`src/app/vendors/new/page.tsx:55`); a request that
throws shows the error's message, falling back to "Something went wrong"
when that message is empty (`src/app/vendors/new/page.tsx:62`).

## Model

| member | source | states |
|---|---|---|
| JsString.Trim | src/app/vendors/new/page.tsx:19-29 | the result has no whitespace at either end, and it is empty exactly when the input is all whitespace |
| JsString.TrimIsInfix | src/app/vendors/new/page.tsx:19-29 | the trimmed text is a slice of the input, and what was cut off on each side is whitespace only |
| JsString.TrimUnique | src/app/vendors/new/page.tsx:19-29 | any trimmed string wrapped in whitespace margins trims back to itself, so trim is fully determined |
| JsString.TrimTrimmed | src/app/vendors/new/page.tsx:19-29 | trimming an already trimmed string changes nothing (trim of trim) |
| Options.Option.GetOr | src/app/page.tsx:157 | `x ?? d` is the value when there is one and the default otherwise |
| JsString.Truthy | src/app/page.tsx:147 | a `string \| null` is truthy exactly when, read with an empty default, it is not the empty string |
| JsString.Repeat | src/app/page.tsx:169 | `c.repeat(n)` has length n, and every character is c |
| JsString.PadEnd | src/app/page.tsx:169 | `padEnd` leaves a long-enough string alone; otherwise it keeps the string as a prefix and fills up to the target length with the filler |
| JsString.OccurrencesRepeat | src/app/page.tsx:169 | `c.repeat(n)` contains exactly n copies of c and no other character |
| NewVendor.Filled | src/app/vendors/new/page.tsx:30-37 | a form entry is truthy exactly when the input is present and its text is not empty |
| NewVendor.Raw | src/app/vendors/new/page.tsx:19-29 | the raw text of an input is empty exactly when the entry is not truthy, and is the input's text when it is |
| NewVendor.NumericValue | src/app/vendors/new/page.tsx:30-37 | a numeric field is null exactly when its raw text is empty, and otherwise is the parsed raw text |
| NewVendor.RequiredValue | src/app/vendors/new/page.tsx:19-22 | a required field never starts or ends with whitespace |
| NewVendor.OptionalValue | src/app/vendors/new/page.tsx:21-29 | an optional text field is null, or it is non-empty with no whitespace at either end |
| NewVendor.StatusValue | src/app/vendors/new/page.tsx:36 | the status sent is never empty |
| NewVendor.Normalise | src/app/vendors/new/page.tsx:18-38 | every payload built from a form has the normalised shape: trimmed required fields, optional text null or non-empty and trimmed, a non-empty status |
| NewVendor.RequiredFields | src/app/vendors/new/page.tsx:19-22 | name, domain and email are the raw values trimmed, an absent field reading as empty; each is empty exactly when its raw value is blank |
| NewVendor.OptionalFields | src/app/vendors/new/page.tsx:21-29 | each of the eight optional text fields is null exactly when its raw value is blank or absent, and otherwise holds the trimmed raw value |
| NewVendor.NumericFields | src/app/vendors/new/page.tsx:30-37 | experience, employee strength and rating are null exactly when the raw value is empty or absent, and otherwise hold the parsed raw value |
| NewVendor.StatusField | src/app/vendors/new/page.tsx:36 | the status is PENDING when the form gives none, and the given value unchanged otherwise |
| NewVendor.MandatoryPresent | src/app/vendors/new/page.tsx:40 | the guard passes exactly when every required field (name, domain, email) is non-empty |
| NewVendor.GuardRejectsBlank | src/app/vendors/new/page.tsx:40-44 | the guard refuses a form exactly when its name, domain or email is absent or all whitespace |
| NewVendor.NormaliseRoundTrip | src/app/vendors/new/page.tsx:18-38 | whenever the numbers are written as text that the number parser reads back, every payload of the normalised shape is what its own filled-in form yields, so the normaliser's outputs are exactly the normalised payloads |
| NewVendor.NormaliseIdempotent | src/app/vendors/new/page.tsx:19-29 | normalising a payload again, entered as a form with its numbers written as text the number parser reads back, gives the same payload |
| NewVendor.FailureMessage | src/app/vendors/new/page.tsx:53-63 | a message is shown exactly when the request did not succeed, and it is never empty; an HTTP error shows the server's text, or "Failed to create vendor" when that text is empty; a thrown error shows its own message, or "Something went wrong" when that message is empty |
| NewVendor.NewVendorPage.constructor | src/app/vendors/new/page.tsx:11-12 | the page starts not submitting, with no error and no request sent |
| NewVendor.NewVendorPage.Begin | src/app/vendors/new/page.tsx:15-16 | a submission sets `submitting` and clears the error |
| NewVendor.NewVendorPage.Reject | src/app/vendors/new/page.tsx:40-44 | a refused payload shows "Name, Domain and Email are mandatory." and resets `submitting` |
| NewVendor.NewVendorPage.Send | src/app/vendors/new/page.tsx:46-51 | the request log grows by exactly the payload sent, and only a payload that passed the guard can be sent |
| NewVendor.NewVendorPage.Fail | src/app/vendors/new/page.tsx:60-63 | a failed request shows its message and resets `submitting` |
| NewVendor.NewVendorPage.HandleSubmit | src/app/vendors/new/page.tsx:14-65 | with a blank name, domain or email no request is sent and the mandatory message is shown; otherwise exactly the normalised payload is sent, and then either the failure message is shown with `submitting` reset, or the page moves to "/" with `submitting` still set; the page invariant holds throughout: an error appears only with `submitting` off, and every request sent passed the guard |
| Directory.WithStatus | src/app/page.tsx:39-40 | the filter keeps exactly the vendors with the given status, and never more vendors than there are |
| Directory.WithStatusAppend | src/app/page.tsx:39-40 | filtering a concatenated list is filtering each part |
| Directory.StatusPartition | src/app/page.tsx:38-40 | the pending, approved and rejected counts add up to the total, because each vendor has exactly one status |
| Directory.NoneWithStatus | src/app/page.tsx:39-40 | a status count is zero exactly when no vendor has that status |
| Directory.Summarize | src/app/page.tsx:38-40 | the total is the number of vendors; approved plus pending never exceeds the total and equals it exactly when no vendor is rejected; each count is zero exactly when no vendor has that status |
| Directory.SummaryAfterCreate | src/app/page.tsx:38-40 | one more vendor at the head of the list adds one to the total and one to the count of its own status only |
| Directory.SubDomainCell | src/app/page.tsx:147 | the sub-domain line is never empty: it shows the sub-domain when non-empty, else an em dash |
| Directory.Location | src/app/page.tsx:156-158 | the location is "city, country" when both are non-empty, the non-empty one alone when only one is, and an em dash when neither is; it is never empty |
| Directory.LocationIsJoin | src/app/page.tsx:156-158 | the location equals the comma-join of the non-empty parts of city and country, or an em dash when there are none |
| Directory.Stars | src/app/page.tsx:169 | the star cell has length five for a rating up to five and the rating itself above; position i holds a filled star exactly when i is below the rating, and an empty star otherwise |
| Directory.StarsCount | src/app/page.tsx:169 | the star cell shows exactly r filled stars, and 5 - r empty ones when r is at most five |
| Directory.StarsOfThree | src/app/page.tsx:169 | a rating of three is drawn as "★★★☆☆" |
| Directory.RatingCell | src/app/page.tsx:167-175 | a missing rating shows "Not rated"; a rating r shows exactly the star cell of r |
| Directory.RatingCellRoundTrip | src/app/page.tsx:167-175 | the rating can be read back from its cell, so different ratings give different cells |
| Directory.StatusLabel | src/app/page.tsx:217-233 | every status has a badge label: Pending, Approved or Rejected, and the label reads back to that status |
| Directory.StatusLabelInjective | src/app/page.tsx:217-233 | two statuses share a badge label exactly when they are the same status |
| Directory.RenderRow | src/app/page.tsx:144-176 | a row shows name, domain and email verbatim, and its sub-domain line, location, badge and rating cell are exactly the cells the page draws from the vendor's fields; the badge reads back to the vendor's status and the rating cell to its rating |
| Directory.RenderRows | src/app/page.tsx:133-178 | the table has one row per vendor, in list order, each rendered from its vendor |
| Directory.View | src/app/page.tsx:108-119 | the loading message shows exactly while loading; otherwise the empty message shows exactly for an empty list, and the table, with one row per vendor, exactly for a non-empty one |

## Left out

- The data store routes (`src/app/api/vendors/route.ts`, `src/app/api/vendors/[id]/route.ts`) pass requests straight to a database library that is not visible. They do no validation of their own, so they are not modelled.
- The vendor detail page (`src/app/vendors/[id]/page.tsx`), the layout and the redirect page are not part of this model.
- Network calls, `router.push`/`router.refresh`, `window.location`, React state hooks, the `useEffect` fetch, animations and CSS class strings are not modelled. The response to the create request is a method parameter (created, HTTP error with its body, or thrown error with its message). Navigation is a `route` field.
- NewVendor.Normalise: JavaScript's `Number(...)` is a parameter `parse: string -> int`. NaN, fractions and float parsing are not modelled. Only the presence of a numeric field is fixed, and it depends only on the raw value being empty or not.
- NewVendor.Form: `FormData` is a map from the page's fixed input names to text. File entries and repeated names are not modelled. The inputs are named by a datatype rather than by their string names.
- NewVendor.Normalise: the status value is passed on as the raw string. The source casts it to the status type without checking it.
- Directory.RatingCell: requires a non-negative rating. `'★'.repeat` throws a RangeError for a negative count, and the page would fail to render. Ratings are integers here, so fractional counts are not modelled either.
- JsString.Trim: strings are sequences of Unicode characters, not UTF-16 code units. This makes no difference to `trim`, because every whitespace character is a single code unit. `padEnd` is modelled for a one-character filler only, which is the only way the page uses it.
- Directory.Vendor: the status is a three-valued type. A list response holding some other status string, or a response that is not an array, is not modelled.
- Concurrent submissions are not modelled. The disabled submit button keeps them from happening, and `HandleSubmit` runs each submission to completion.
