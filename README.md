# Builder backend: project images, bookings and the booking e-mail

A Dafny model of the decision logic in a small Express/SQLite backend for a
builder's portfolio. Projects have up to five images each; a contact form
stores bookings and sends a notification e-mail.

- `http.dfy`, module `Http`: request-body values as a handler sees them.
  A value is `undefined`, `null` or a string. The module gives JavaScript
  truthiness, template-literal interpolation and SQLite parameter binding,
  where `undefined` and `null` both become NULL. It also defines the response
  record (status code, JSON body).
- `mailer.dfy`, module `Mailer`: the `mailOptions` record that
  `sendBookingEmail` builds. `from` is the submitter's e-mail value. `to` is
  the configured mailbox, passed in as a parameter. The subject is
  `New Booking from <name>`. The text is five labelled lines joined by
  newlines. The module also has a line splitter and a parser for that text.
  It proves that the text reads back as the five values whenever name,
  email, phone and location hold no newline; the message may span lines.
- `bookings.dfy`, module `Bookings`: `POST /bookings` as a method on a class
  holding the bookings table. The required-field check is a pure predicate.
  The outcomes of the INSERT and of the mail transport are parameters. A
  failed notification changes only the response. The stored row stays.
- `projects.dfy`, module `Projects`: the projects and images tables as the
  fields of a `ProjectStore` class, with `Create` (`POST /projects`) and
  `UploadImage` (`POST /projects/:id/images`). `ListProjects`
  (`GET /projects`) is a pure function over the two tables. The store
  invariant `Valid()` includes `WithinCap`: no project id has more than five
  image rows. Every method preserves it, so the cap holds after any
  sequence of calls.

External outcomes are parameters of the operations:
- the DB errors of each query;
- the upload service's result (error message or secure URL);
- the mail transport's result;
- the creation time stamp.

Facts about the code that shape the model:
- The code handles one file per request (`upload.single("image")`),
  not a batch.
- It refuses when the project already has 5 or more images, counted
  before the upload.
- It does not check that the project exists before counting and inserting
  image rows. The model does not check either.
- It has no per-file partial-success reporting.

## Model

| member | source | states |
|---|---|---|
| `Mailer.BookingEmail` | utils/mailer.js:12-18 | `from` is the submitter's email value and `to` is the configured mailbox. The subject is "New Booking from " followed by the interpolated name. The text is Name/Email/Phone/Location/Message, each label with its value, joined by "\n". |
| `Mailer.BookingTextLines` | utils/mailer.js:17 | When no value holds a newline, cutting the text at newlines gives exactly the five labelled lines, in order. |
| `Mailer.BookingTextRoundTrip` | utils/mailer.js:17 | When none of name, email, phone and location holds a newline, parsing the text gives back exactly the five interpolated field values; the message may hold newlines. |
| `Bookings.HasRequiredFields` | routes/bookings.js:14-16 | Validation fails exactly when one of name, email, phone or location is missing, null or the empty string. |
| `Bookings.MessageNotValidated` | routes/bookings.js:14 | Changing `message` never changes the validation verdict. |
| `Bookings.StoredRowIsSubmission` | routes/bookings.js:19-22 | The row written for a valid submission has all four required columns non-empty and equal to the submitted strings. `message` is stored as given, or NULL when absent or null. |
| `Bookings.BookingTable.Submit` | routes/bookings.js:10-32 | Invalid input: 400 "All fields are required", nothing stored, no e-mail. Insert error: 500 with its message, nothing stored, no e-mail. Otherwise exactly one row with the five values is appended and the booking e-mail is sent; mail success gives 200 `{success: true}`, mail failure gives 500 "Booking saved but email failed to send" with the row kept. The table invariant (every row complete) is preserved. |
| `Bookings.NotificationDoesNotAffectStorage` | routes/bookings.js:22-31 | From any table of complete rows, a successful mail and a failed mail leave the same table: the old rows followed by the submitted row. |
| `Projects.CountAppend` | routes/projects.js:68-70 | Appending an image row adds one to the COUNT of its own project and leaves every other project's count unchanged. |
| `Projects.AcceptedUploadKeepsCap` | routes/projects.js:74-92 | An insert that passed the `count < 5` guard raises that project's count by one and keeps every project at 5 images or fewer. |
| `Projects.UnguardedUploadBreaksCap` | routes/projects.js:74-76 | Without the guard, appending to a project that already has 5 images would break the cap. |
| `Projects.ImagesOf` | routes/projects.js:39-44 | A project's image URLs number exactly its COUNT of image rows. Each URL occurs exactly as often as a row `(project id, url)` occurs in the table. |
| `Projects.InsertNewestFirst` | routes/projects.js:31 | Inserting into a list ordered newest first keeps it ordered newest first and adds exactly that project. |
| `Projects.SortNewestFirst` | routes/projects.js:31 | `ORDER BY created_at DESC` gives a permutation of the projects ordered by time stamp, newest first. |
| `Projects.FirstFetchError` | routes/projects.js:36-52 | There is an error exactly when some listed project's image query fails, and the error is the message of one of those listed projects' failed queries. |
| `Projects.ListProjects` | routes/projects.js:30-54 | A failed project query gives 500 with its message. If any project's image query fails, the whole request gives 500 with the message of one of those projects' failed queries and no partial list. Otherwise it gives 200 and a listing with every project exactly once, all columns kept, newest first, each carrying exactly the URLs of its own image rows. |
| `Projects.ListedWithinCap` | routes/projects.js:36-44 | Over an images table within the cap, every listed project carries at most five image URLs. |
| `Projects.ListedWhenStored` | routes/projects.js:36-44 | Every stored project appears in the listing, with all its columns and the URLs of its image rows. |
| `Projects.ProjectStore.Create` | routes/projects.js:17-27 | Insert error: 500 with its message, and neither table nor the id counter changes. Otherwise exactly one row is appended, holding the bound title, description, owner_name, location and completion_date. The response is 201 with the new id, which no earlier project has. |
| `Projects.ProjectStore.UploadImage` | routes/projects.js:57-102 | No file: 400 "No image file uploaded". Count error: 500. Five or more images: 400 "Max 5 images allowed per project". In these three cases nothing is uploaded and the images table is unchanged. Upload error or insert error: 500, no row. Success: exactly one row `(id, secure_url)` is appended and the response is 200 `{success: true, imageUrl}`. The projects table never changes, and the five-image cap holds afterwards for every project. |
| `Projects.SixthUploadRefused` | routes/projects.js:74-76 | After five successful uploads to a fresh project, a sixth is refused with 400 before reaching the upload service, and the project keeps exactly five images. |

## Left out

- Express routing, JSON and CORS middleware, the schema bootstrap, the health check and `app.listen` are left out: they are process plumbing with no decisions.
- The SQLite, image-service and nodemailer calls are left out. Only their outcomes are modelled, as parameters. The schema file is not part of this model, so any column constraint surfaces only as an insert-error parameter.
- The Cloudinary configuration and connection check are left out: they are foreign-library calls.
- `Projects.ListProjects`: it does not say which failure's message is reported. `Promise.all` rejects with the first failure in time, and completion order is not modelled. The contract says only that the message is the error of the image query of one of the listed projects. The body picks the first failure in listing order.
- `Projects.SortNewestFirst`: projects with equal `created_at` keep table order. SQLite leaves that order unspecified. `created_at` is an integer time stamp supplied by the caller, not SQLite's `CURRENT_TIMESTAMP` text.
- `Projects.ImagesOf`: URLs come back in table order because the query has no ORDER BY. Only the URLs and their multiplicities are part of the contract.
- The check-then-act race between the COUNT query and the INSERT under concurrent requests is left out. The cap is proved for sequential execution only.
- A remote upload left behind when the image INSERT fails is not modelled.
- The `:id` route parameter is an integer in the model. SQLite coerces the textual parameter to the integer column; non-numeric ids are not modelled.
- Only strings, `null` and absent properties are modelled as request-body values. Numbers, booleans and objects, with their own truthiness and string forms, are left out.
- The catch-all `try/catch` of the booking handler (routes/bookings.js:34-35) is left out. No step of the modelled path throws synchronously.
- Booking timestamps and booking ids are left out; the booking handler never reads them back.
- The booking handler is modelled as finishing each request before the next begins. Completion order across requests is not modelled.
- Multi-file batches, partial-success aggregation, update, delete, search, get-by-id and booking listing are not in the code and are not modelled.
- The SMTP smoke-test script is left out: it only sends a fixed message.
