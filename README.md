# rubik request core, modelled in Dafny

This project models the request core of the rubik web framework. It has two parts.

- **`inject`** (injector.go) binds one HTTP request onto the fields of a destination entity:
  - It flattens the path parameters into a params map.
  - It reads the body and decodes it by content type: JSON, URL-encoded or multipart.
  - It visits the entity's fields in order. For each field it resolves the field's `rubik` tag into a transport, a key and a required flag. It then fetches the raw value from the query, the body map, the multipart file table or the params map.
  - A missing required value aborts binding, and so does a failed validation rule.
  - Otherwise `injectValueByType` coerces the value into the field.
- **`boot`** (boot.go) walks every router and every route:
  - It checks each declared entity and remembers whether any check failed.
  - It registers a GET handler for every route that has a controller and whose entity was accepted.
  - The registered handler calls the controller and turns its `(resp, err)` pair into a status, a Content-Type and a body.

Modules:

- `Options`: the option type.
- `Text`: the few `strings` operations the injector uses.
- `Tags`: tag resolution, as a pure function.
- `Coercion`: `injectValueByType`, as the function `Coerce` and the in-place method `InjectValueByType`.
- `Injector`: `inject`.
  - Reflection is replaced by a list of field descriptors and an `array<Slot>` holding one slot per field.
  - The method `Inject` is proved equal to the function `InjectSpec`, and the lemmas are stated about `InjectSpec`.
- `Boot`: the class `App`, whose `mux` field holds the registrations.
  - Its method `Boot` has the two nested loops.
  - It is proved equal to the functions `Registrations` and `Errored`.
- `Respond`: the registered handler.
  - The response decision is the function `Decide`.
  - The method `Handle`, which has the stack-trace loop, is proved equal to it.

Some helpers are defined outside the files modelled here: `capitalize`, `unCapitalize`, `checker.Check`, `safeRouterPath`, `safeRoutePath` and `checkIsEntity`. They are function-valued parameters, so every property holds whatever those helpers do.

Some behaviours of the code are easy to miss; the model follows the code:

- The registered handler does not call `inject`. It passes the route's entity value, or a blank request entity, straight to the controller (boot.go:39-45).
- An error from `url.ParseQuery` is ignored (injector.go:51). A malformed URL-encoded body is therefore not a binding error.
- The default key is `unCapitalize(field.Name)` (injector.go:79).
- The `File` and `[]File` cases of `injectValueByType` come after the `Struct` and `Slice` cases and have the same kinds, so they never run. File fields are never written.
- Binding writes each field in place as it goes. A required field that is missing leaves the earlier fields already written (`Injector.RunStopsAt`).
- A field with transport `form` on a request that is not multipart dereferences the nil `req.MultipartForm`. This is modelled as the outcome `Panicked`.
- An error with an empty message is ignored, and the result is rendered as if there were no error.

## Model

| member | source | states |
|---|---|---|
| Tags.Resolve | injector.go:76-104 | required exactly when the tag holds a `!`; the transport is never empty and holds no `!` or `\|`; the key is the default key or a non-empty word free of `!` and `\|` |
| Tags.Locate | injector.go:87-104 | for a marker-free tag, the transport is non-empty and free of separators, and the key is the default or a non-empty separator-free word |
| Tags.MarkersStrippedFirst | injector.go:82-85 | a tag resolves like the same tag with every `!` removed, except for the required flag |
| Tags.EmptyTagDefaults | injector.go:78-87 | a tag that is empty once the markers are removed gives transport `query` and key `unCapitalize(name)` |
| Tags.PipeTag | injector.go:88-96 | in `key\|transport[\|...]` each non-empty part replaces its default and each empty part keeps it; text after a second `\|` is ignored |
| Tags.LocatePipe | injector.go:88-96 | the same result, for a tag whose markers are already removed |
| Tags.BareTag | injector.go:97-103 | a word without `\|` that names a transport sets only the transport; any other word sets only the key |
| Text.RemoveAll | injector.go:84 | `strings.ReplaceAll(tag, "!", "")` leaves no `!`, never lengthens the tag, and keeps every other character as often as it occurs |
| Text.RemoveAllConcat | injector.go:84 | removal works piecewise over a concatenation, so the characters kept stay in their order |
| Text.RemoveAllIdempotent | injector.go:84 | removing the markers twice is removing them once |
| Text.Before | injector.go:89-91 | the first segment of `strings.Split` is the prefix before the first separator and holds no separator |
| Text.After | injector.go:89-94 | the text after the first separator rebuilds the tag together with the first segment |
| Text.LowerChar | injector.go:130 | the lower-case form of a character is never an ASCII capital; a capital becomes its small letter (32 code points on) and any other character is kept |
| Text.LowerSameIff | injector.go:130 | two keys have the same lower-case form exactly when they have the same length and agree character by character up to ASCII case |
| Text.LowerIdempotent | injector.go:130 | lower-casing twice is lower-casing once |
| Coercion.Atoi | injector.go:166 | text parses exactly when, after an optional `+` or `-`, it is a non-empty run of decimal digits whose signed value lies within Go's 64-bit `int` range, and it parses to that value |
| Coercion.Coerce | injector.go:152-206 | only a string value reaching a settable string, int or bool field changes it; a string field takes any string; an int or bool field takes exactly the parsed value or stays unchanged; struct, slice, float and other fields never change; the field keeps a value of its kind |
| Coercion.InjectValueByType | injector.go:152-246 | writes `Coerce`'s result into slot `i` of the destination and changes no other slot |
| Coercion.ItoaAtoi | injector.go:160-170 | every 64-bit integer written in decimal is parsed back to itself by an int field's coercion |
| Coercion.ParseBool | injector.go:197 | `1`, `t`, `T`, `TRUE`, `true` and `True` parse to true; `0`, `f`, `F`, `FALSE`, `false` and `False` parse to false; any other text does not parse |
| Coercion.FormatBoolParseBool | injector.go:197 | `true` and `false` parse back to their boolean |
| Injector.CollectParams | injector.go:28-36 | the params loop builds exactly `ParamMap`: each parameter stored under its capitalised key, later ones overwriting earlier ones |
| Injector.ParamMapKeys | injector.go:31-36 | a key is in the params map exactly when some parameter's key capitalises to it |
| Injector.ParamMapLatest | injector.go:31-36 | of several parameters with the same capitalised key, the last one's value is kept |
| Injector.ParamLookupFinds | injector.go:129-131 | a `param` field finds the matching parameter whatever the case of its key: every key with the same lower-case form reads the same value |
| Injector.ParamLookupMisses | injector.go:129-134 | without a matching parameter a `param` field reads the empty string |
| Injector.Flatten | injector.go:49-55 | the normalisation loop builds a body map with exactly the form's keys, each with its first value (`FirstValues`) |
| Injector.UrlEncodedFirstValues | injector.go:49-55 | the body map of a URL-encoded request keeps exactly its keys, each with its first value |
| Injector.DecodeBody | injector.go:38-63 | fails exactly when reading or decoding fails, with the read error first, then the JSON or multipart error; otherwise yields the body map and the file table |
| Injector.DecodeErrorsFirst | injector.go:38-63 | `inject` reports a read, JSON or multipart error exactly when that stage fails, and leaves every field unchanged; an unrecognised content type is no error |
| Injector.BodyFieldValue | injector.go:116-121 | on a decoded JSON request a `body` field reads the JSON value under its key, on a URL-encoded request the key's first value, and nil when the key is absent; it is missing exactly when that is nil or empty text |
| Injector.ParamFieldValue | injector.go:129-135 | a `param` field reads the params map under `capitalize(ToLower(key))`, and is missing exactly when that reads the empty string |
| Injector.BodyFieldsEmptyOtherwise | injector.go:116-121 | for a multipart or unrecognised request a `body` field fetches nil and counts as missing |
| Injector.Fetch | injector.go:109-136 | only a `form` field without a parsed multipart form reaches the nil form; an unknown transport fetches nil and is never missing; a `form` value is missing exactly when it has no files, any other known transport's exactly when it is nil or empty text |
| Injector.QueryFieldFirstValue | injector.go:110-115 | a `query` field reads the first URL value under its key, and is missing exactly when the key has no value or an empty first value |
| Injector.FormFieldParts | injector.go:122-128 | on a multipart request a `form` field reads every file part under its key and is missing exactly when there is none; on any other request it reaches the nil form |
| Injector.FieldStep | injector.go:69-147 | one field visit aborts only with a missing-value or validation error; a required field whose value is missing always aborts, and a missing-value abort needs a required field with a known transport and a missing value, and names its key and transport; a `form` field without a parsed multipart form always panics; a validation rule aborts exactly when the value was found, the rule is non-empty and the checker rejects the field, with the checker's message; a passing field receives its fetched value coerced to its kind; the `Entity` field is skipped; a field keeps a value of its kind; only a `form` field without a parsed multipart form panics |
| Injector.InjectField | injector.go:70-146 | visiting field `i` does what `FieldStep` specifies and writes only slot `i`, and only when the visit goes on |
| Injector.Run | injector.go:69-149 | the field loop keeps the number of fields and the fields already passed; a failure carries the error of a field that aborted; a success returns the final slots |
| Injector.BindFields | injector.go:65-149 | the field loop over the destination array produces exactly the outcome and the slots of `Run` over each field's step |
| Injector.Inject | injector.go:24-150 | `inject` returns exactly the outcome `InjectSpec` specifies and leaves the destination's slots as `InjectSpec` says |
| Injector.RunStopsAt | injector.go:106-135 | when field `j` aborts after every earlier field passed, binding fails with `j`'s error; earlier fields hold their new values, and `j` and every later field are untouched |
| Injector.RunBound | injector.go:69-149 | binding succeeds exactly when every field passes, and then each field holds its new value |
| Injector.RunKeepsFits | injector.go:146-147 | whatever the outcome, every field still holds a value of its kind |
| Injector.RequiredFieldAborts | injector.go:106-135 | a required field whose value is missing makes `inject` fail with "Data: <key> is required but not found inside <transport>." and leaves it and every later field unchanged |
| Injector.InvalidFieldAborts | injector.go:138-144 | a field whose value was found but whose validation rule the checker rejects makes `inject` fail with the checker's message, once earlier fields passed, and leaves it and every later field unchanged |
| Injector.BoundEntity | injector.go:146-149 | `inject` succeeds exactly when decoding succeeds and every field visit goes on, and the entity holds each field's coerced value |
| Injector.InjectKeepsFits | injector.go:152-206 | `inject` never leaves a field holding a value of another kind |
| Injector.OneField | injector.go:69-149 | binding a one-field entity gives that field's visit as the outcome |
| Injector.NameTag | injector.go:82-95 | the tag `name\|body!` reads the body under `name` and is required |
| Injector.NameTagText | injector.go:82-85 | removing the marker from `name\|body!` leaves `name\|body` |
| Injector.JsonNameBound | injector.go:116-121 | the JSON body `{"name":"Ann"}` binds `Ann` to a string field `Name` tagged `name\|body!` |
| Injector.JsonNameMissing | injector.go:106-121 | the same field on the JSON body `{}` fails with "Data: name is required but not found inside body." |
| Injector.QueryAgeBound | injector.go:110-170 | a query `?age=<text>` binds an untagged int field `Age` to exactly the integer `Atoi` parses the text to |
| Boot.App.Boot | boot.go:13-108 | appends exactly `Registrations` to the mux, and returns the boot error exactly when `Errored` holds |
| Boot.App.MountRoutes | boot.go:19-101 | one router's routes append exactly `RouteRegistrations`, and the errored flag becomes set exactly when one of the routes is rejected |
| Boot.AnyRejectedIff | boot.go:26-33 | a router's walk sets the errored flag exactly when one of its routes declares an entity that fails the check |
| Boot.ErroredIff | boot.go:104-107 | boot fails exactly when some route of some router declares an entity that fails the check; routes without a controller play no part |
| Boot.RouteRegistrationsIff | boot.go:19-36 | a registration is present for a router exactly when it is a GET handler for one of its served routes, mounted at `safeRouterPath(basePath) + safeRoutePath(path)` |
| Boot.RouteRegistrationsCount | boot.go:19-36 | a router adds as many registrations as it has served routes |
| Boot.RegisteredIff | boot.go:18-36 | a registration is present on the mux exactly when it is a GET handler for a served route of some router, at its mounted path |
| Boot.RegistrationsCount | boot.go:18-36 | the mux receives as many registrations as there are served routes over all routers, so with the two lemmas above there is exactly one handler per served route |
| Boot.OnlyServedRegistered | boot.go:26-36 | every registration is a GET handler for a route that has a controller and an accepted entity |
| Respond.Handle | boot.go:37-97 | the handler passes the route's entity, or a blank one, to the controller, and answers exactly `Decide` of the reply |
| Respond.TraceLines | boot.go:61-68 | a stack trace is as long as its frames plus one newline per frame, and ends in a newline |
| Respond.TraceTextAppend | boot.go:65-67 | the trace of two runs of frames is the first run's trace followed by the second's |
| Respond.TraceFrameLine | boot.go:65-67 | frame `k` is written as its own newline-terminated line, right after the lines of the frames before it |
| Respond.RestErrorResponse | boot.go:49-56 | a RestErrorMixin error answers with its code, content type `application/json` and its JSON encoding as the whole body, whatever the result |
| Respond.PlainErrorResponse | boot.go:58-72 | any other error with a message answers 500, with no content type set, and a body that is exactly the message followed by the trace's lines when the error carries a trace |
| Respond.EmptyMessageIgnored | boot.go:59-75 | an error with an empty message is ignored, and the result is rendered as if there were no error |
| Respond.ResultResponse | boot.go:75-92 | with no error the status is 200; a RenderMixin sets its content type and writes its content; a string or byte slice is written verbatim; anything else writes nothing |

## Left out

- JSON, URL-query and multipart parsing, and `ioutil.ReadAll`: the request carries what each decoder yields, or a flag for its failure. The 32 MB multipart memory bound is not modelled.
- The multipart body is read by `ioutil.ReadAll` before `ParseMultipartForm` sees it. Whether that parse then succeeds is taken as an input.
- Float32 and Float64 coercion (injector.go:171-190) needs floating-point parsing. Those fields are opaque and are never changed.
- The `File` and `[]File` cases (injector.go:207-244) are unreachable and read files, so they are not modelled.
- The Content-Type header is compared whole with the three constants (injector.go:27, 43-57), so a header with parameters such as `; charset=utf-8` or `; boundary=…` matches none and the request counts as unrecognised. The model takes the recognised content type as an input and does not show this.
- Reflection is replaced by field descriptors. A field is settable exactly when its name starts with an ASCII capital letter.
- `strings.ToLower` is modelled for ASCII letters only.
- Coercion.Atoi: follows `strconv.Atoi` on a 64-bit platform. The sign and decimal digits are ASCII only, and no other integer width is modelled.
- The helpers `capitalize`, `unCapitalize`, `checker.Check`, `safeRouterPath`, `safeRoutePath` and `checkIsEntity` are not part of this model. They are parameters.
- `bootStatic` and the empty stubs `bootGuard`, `bootMiddlewares`, `bootController`, `handleResponse` and `handleErrorResponse` (boot.go:110-125) touch the filesystem or do nothing.
- probe.go is a test harness and is not part of this model.
- `httprouter` panics when the same path is registered twice. This is not modelled, and registrations are a list.
- `net/http` panics on a status code outside 100-999, and it sniffs a Content-Type when none is set. Neither is modelled; the response records only the Content-Type the handler sets.
- JSON encoding of a RestErrorMixin error is an input (its encoded bytes). Rendering of stack frames (`%+s:%d`) is an input too: one line per frame.
- Debug, warning and error log messages are not modelled.
- Concurrency between requests is not modelled. Each request is handled as one sequential call.
