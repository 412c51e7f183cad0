/**
 * `inject` (injector.go:22-150): bind the data of one request onto the
 * fields of a destination entity.
 *
 * The request's body is reduced to a flat body map according to its
 * content type, the path parameters to a flat params map, and then the
 * entity's fields are visited in order: each resolves its tag, fetches a
 * raw value from its transport, may abort binding (a required value that
 * is missing, a failed validation rule) and is otherwise coerced into its
 * slot. Reflection over the destination struct is replaced by a list of
 * field descriptors and an array holding one slot per field.
 */
module Injector {
  import opened Options
  import opened Text
  import opened Tags
  import opened Coercion

  /** The content types the injector recognises, and every other one. */
  datatype ContentType = Json | UrlEncoded | Multipart | Unrecognised

  /** `url.Values` as `url.ParseQuery` builds them: every key holds at least one value. */
  type FormValues = m: map<string, seq<string>> | forall k :: k in m ==> |m[k]| > 0 witness map[]

  /**
   * What `inject` reads from the request. The decoders themselves are not
   * modelled: each field holds what the corresponding decoder yields.
   */
  datatype Request = Request(
    contentType: ContentType,
    query: map<string, seq<string>>,               // req.URL.Query()
    bodyRead: bool,                                // ioutil.ReadAll(req.Body) succeeded
    json: Option<map<string, Value>>,              // json.Unmarshal of the body; None on a decode error
    urlEncoded: FormValues,                        // url.ParseQuery of the body
    multipart: Option<map<string, seq<FilePart>>>  // file table after req.ParseMultipartForm; None on a parse error
  )

  /** One path parameter matched by the router. */
  datatype Param = Param(key: string, value: string)

  /** One field of the destination struct: its name, its `rubik` tag and its kind. */
  datatype Field = Field(name: string, tag: string, kind: Kind)

  /**
   * Helpers whose definitions lie outside the injector: `capitalize`,
   * `unCapitalize` and the validation rule checker `checker.Check`, which
   * yields an error message or None.
   */
  datatype Hooks = Hooks(capitalize: string -> string,
                         unCapitalize: string -> string,
                         check: (Slot, string) -> Option<string>)

  datatype InjectError =
    | ReadError                 // reading the body failed
    | JsonError                 // the body is not a JSON object
    | MultipartError            // the multipart form could not be parsed
    | Required(message: string) // a required value is missing
    | Invalid(message: string)  // a validation rule rejected a field

  /**
   * The result of `inject`: the bound entity, an error, or a run-time panic
   * (a `form` field read on a request whose multipart form was never parsed
   * dereferences the nil `req.MultipartForm`).
   */
  datatype Outcome = Bound(entity: seq<Slot>) | Failed(error: InjectError) | Panicked

  /**
   * The request as the field loop sees it: query values, the body map, the
   * multipart file table (None while `req.MultipartForm` is nil) and the
   * params map.
   */
  datatype Views = Views(query: map<string, seq<string>>,
                         body: map<string, Value>,
                         files: Option<map<string, seq<FilePart>>>,
                         params: map<string, string>)

  /** `url.Values.Get`: the first value under `key`, or "". */
  function QueryGet(query: map<string, seq<string>>, key: string): string
  {
    if key in query && |query[key]| > 0 then query[key][0] else ""
  }

  /** The params map after storing each parameter, in order, under its capitalised key. */
  function ParamMap(pm: seq<Param>, capitalize: string -> string): map<string, string>
  {
    if pm == [] then map[]
    else ParamMap(pm[..|pm| - 1], capitalize)[capitalize(pm[|pm| - 1].key) := pm[|pm| - 1].value]
  }

  /** The params map read under `capitalize(strings.ToLower(key))`; "" when absent. */
  function ParamLookup(params: map<string, string>, key: string, capitalize: string -> string): string
  {
    var k := capitalize(Lower(key));
    if k in params then params[k] else ""
  }

  /** A URL-encoded body flattened to the first value of each key. */
  function FirstValues(encs: FormValues): map<string, Value>
  {
    map k | k in encs :: Str(encs[k][0])
  }

  /** The body map for the request's content type (once decoding succeeded). */
  function BodyMap(req: Request): map<string, Value>
  {
    match req.contentType
    case Json => if req.json.Some? then req.json.value else map[]
    case UrlEncoded => FirstValues(req.urlEncoded)
    case Multipart => map[]
    case Unrecognised => map[]
  }

  /** Reading the body and decoding it for its content type succeeded. */
  predicate Decoded(req: Request)
  {
    req.bodyRead
    && (req.contentType == Json ==> req.json.Some?)
    && (req.contentType == Multipart ==> req.multipart.Some?)
  }

  function ViewsOf(req: Request, pm: seq<Param>, hooks: Hooks): Views
  {
    Views(req.query, BodyMap(req), FilesOf(req), ParamMap(pm, hooks.capitalize))
  }

  /** The multipart file table, which only a multipart request gets parsed. */
  function FilesOf(req: Request): Option<map<string, seq<FilePart>>>
  {
    if req.contentType == Multipart then req.multipart else None
  }

  /** The error of the first decoding stage that fails. */
  function DecodeError(req: Request): InjectError
  {
    if !req.bodyRead then ReadError
    else if req.contentType == Json then JsonError
    else MultipartError
  }

  /** Go's rule for exported field names, which reflection may set. */
  predicate Exported(name: string)
  {
    name != "" && 'A' <= name[0] <= 'Z'
  }

  /** The raw value fetched for a field, and whether it counts as missing. */
  datatype Fetched = Got(val: Value, missing: bool) | NilForm

  /** The transport switch of injector.go:109-136 (an unknown transport fetches nil). */
  function Fetch(views: Views, r: Resolution, capitalize: string -> string): (fetched: Fetched)
    // only a `form` field without a parsed multipart form reaches the nil form
    ensures fetched.NilForm? <==> r.transport == "form" && views.files.None?
    // an unknown transport fetches nil, and nil never counts as missing there
    ensures r.transport !in Transports ==> fetched == Got(Nil, false)
    // for a known transport, a value is missing exactly when it is no files (`form`) or nil or empty text
    ensures fetched.Got? && r.transport in Transports ==>
              (fetched.missing <==> if r.transport == "form" then fetched.val == Files([])
                                    else fetched.val in {Nil, Str("")})
  {
    if r.transport == "query" then
      var v := QueryGet(views.query, r.key);
      Got(Str(v), v == "")
    else if r.transport == "body" then
      var v := if r.key in views.body then views.body[r.key] else Nil;
      Got(v, v == Nil || v == Str(""))
    else if r.transport == "form" then
      match views.files
      case None => NilForm
      case Some(table) =>
        var parts := if r.key in table then table[r.key] else [];
        Got(Files(parts), parts == [])
    else if r.transport == "param" then
      var v := ParamLookup(views.params, r.key, capitalize);
      Got(Str(v), v == "")
    else
      Got(Nil, false)
  }

  function RequiredMessage(key: string, transport: string): string
  {
    "Data: " + key + " is required but not found inside " + transport + "."
  }

  /** What visiting one field does: its new slot, an error that ends binding, or a panic. */
  datatype Step = Next(slot: Slot) | Abort(error: InjectError) | Crash

  /** One iteration of the field loop (injector.go:69-147) on a field whose slot holds `slot`. */
  function FieldStep(views: Views, rules: map<string, string>, hooks: Hooks, f: Field, slot: Slot): (s: Step)
    // the loop body only ever ends binding with a missing value or a failed rule
    ensures s.Abort? ==> s.error.Required? || s.error.Invalid?
    // a field stays within its kind
    ensures s.Next? && Fits(f.kind, slot) ==> Fits(f.kind, s.slot)
    // the embedded `Entity` field is passed over
    ensures f.name == "Entity" ==> s == Next(slot)
    // a missing value aborts only a required field, and names its key and transport
    ensures s.Abort? && s.error.Required? ==>
              var r := Resolve(f.name, f.tag, hooks.unCapitalize);
              r.required && r.transport in Transports && s.error.message == RequiredMessage(r.key, r.transport)
    // only a `form` field on a request without a parsed multipart form panics
    ensures s.Crash? ==> Resolve(f.name, f.tag, hooks.unCapitalize).transport == "form" && views.files.None?
    // a required field whose value is missing always aborts, naming its key and transport
    ensures var r := Resolve(f.name, f.tag, hooks.unCapitalize);
            var fetched := Fetch(views, r, hooks.capitalize);
            f.name != "Entity" && r.required && fetched.Got? && fetched.missing ==>
              s == Abort(Required(RequiredMessage(r.key, r.transport)))
    // a missing-value abort needs a missing value: a present value never aborts as missing
    ensures var r := Resolve(f.name, f.tag, hooks.unCapitalize);
            var fetched := Fetch(views, r, hooks.capitalize);
            s.Abort? && s.error.Required? ==> f.name != "Entity" && fetched.Got? && fetched.missing
    // a `form` field without a parsed multipart form always panics
    ensures var r := Resolve(f.name, f.tag, hooks.unCapitalize);
            f.name != "Entity" && Fetch(views, r, hooks.capitalize).NilForm? ==> s == Crash
    // a validation rule aborts exactly when the field's value was found and the checker rejects the field
    ensures var r := Resolve(f.name, f.tag, hooks.unCapitalize);
            var fetched := Fetch(views, r, hooks.capitalize);
            f.name != "Entity" ==>
              (s.Abort? && s.error.Invalid? <==>
                 fetched.Got? && !(r.required && fetched.missing)
                 && f.name in rules && rules[f.name] != "" && hooks.check(slot, rules[f.name]).Some?)
    ensures s.Abort? && s.error.Invalid? ==>
              f.name in rules && hooks.check(slot, rules[f.name]) == Some(s.error.message)
    // a passing field receives its fetched value, coerced to its kind
    ensures var r := Resolve(f.name, f.tag, hooks.unCapitalize);
            var fetched := Fetch(views, r, hooks.capitalize);
            f.name != "Entity" && s.Next? ==>
              fetched.Got? && s.slot == Coerce(f.kind, fetched.val, Exported(f.name), slot)
  {
    if f.name == "Entity" then Next(slot)
    else
      var r := Resolve(f.name, f.tag, hooks.unCapitalize);
      match Fetch(views, r, hooks.capitalize)
      case NilForm => Crash
      case Got(val, missing) =>
        if r.required && missing then
          Abort(Required(RequiredMessage(r.key, r.transport)))
        else if f.name in rules && rules[f.name] != "" && hooks.check(slot, rules[f.name]).Some? then
          Abort(Invalid(hooks.check(slot, rules[f.name]).value))
        else
          Next(Coerce(f.kind, val, Exported(f.name), slot))
  }

  /**
   * The field loop run from field `i` on, given what each iteration does to
   * its field (`steps[k]` for field `k`): the outcome and the final slots.
   * An iteration reads and writes only its own field, so the steps can be
   * taken on the slots as they were before the loop.
   */
  function Run(steps: seq<Step>, slots: seq<Slot>, i: nat): (r: (Outcome, seq<Slot>))
    requires |slots| == |steps| && i <= |steps|
    ensures |r.1| == |steps|
    ensures r.1[..i] == slots[..i]
    ensures r.0.Failed? ==> exists k :: i <= k < |steps| && steps[k] == Abort(r.0.error)
    ensures r.0.Bound? ==> r.0.entity == r.1
    decreases |steps| - i
  {
    if i == |steps| then (Bound(slots), slots)
    else
      match steps[i]
      case Next(s) => Run(steps, slots[i := s], i + 1)
      case Abort(e) => (Failed(e), slots)
      case Crash => (Panicked, slots)
  }

  /** What each iteration of the field loop does to its field. */
  function Steps(views: Views, rules: map<string, string>, hooks: Hooks,
                 fields: seq<Field>, slots: seq<Slot>): (steps: seq<Step>)
    requires |slots| == |fields|
    ensures |steps| == |fields|
    ensures forall k :: 0 <= k < |fields| ==> steps[k] == FieldStep(views, rules, hooks, fields[k], slots[k])
  {
    seq(|fields|, k requires 0 <= k < |fields| => FieldStep(views, rules, hooks, fields[k], slots[k]))
  }

  /** `inject` as a function of the request and the destination's slots before the call. */
  function InjectSpec(req: Request, pm: seq<Param>, fields: seq<Field>, slots: seq<Slot>,
                      rules: map<string, string>, hooks: Hooks): (Outcome, seq<Slot>)
    requires |slots| == |fields|
  {
    if !req.bodyRead then (Failed(ReadError), slots)
    else if req.contentType == Json && req.json.None? then (Failed(JsonError), slots)
    else if req.contentType == Multipart && req.multipart.None? then (Failed(MultipartError), slots)
    else Run(Steps(ViewsOf(req, pm, hooks), rules, hooks, fields, slots), slots, 0)
  }

  /** The path-parameter loop of injector.go:31-36. */
  method CollectParams(pm: seq<Param>, capitalize: string -> string) returns (params: map<string, string>)
    ensures params == ParamMap(pm, capitalize)
  {
    params := map[];
    var i := 0;
    while i < |pm|
      invariant i <= |pm|
      invariant params == ParamMap(pm[..i], capitalize)
    {
      assert pm[..i + 1][..i] == pm[..i];
      params := params[capitalize(pm[i].key) := pm[i].value];
      i := i + 1;
    }
    assert pm[..i] == pm;
  }

  /** The URL-encoded normalisation loop of injector.go:53-55: keep the first value of each key. */
  method Flatten(encs: FormValues) returns (body: map<string, Value>)
    ensures body.Keys == encs.Keys
    ensures forall k :: k in body ==> body[k] == Str(encs[k][0])
    ensures body == FirstValues(encs)
  {
    body := map[];
    var rest := encs.Keys;
    while rest != {}
      invariant rest <= encs.Keys
      invariant body.Keys == encs.Keys - rest
      invariant forall k :: k in body ==> k in encs && body[k] == Str(encs[k][0])
      decreases rest
    {
      var k :| k in rest;
      body := body[k := Str(encs[k][0])];
      rest := rest - {k};
    }
  }

  /**
   * `inject(req, pm, en, v)`: `en` holds the destination's fields, `fields`
   * describes them, `rules` is the validation map `v`.
   */
  method Inject(req: Request, pm: seq<Param>, en: array<Slot>, fields: seq<Field>,
                rules: map<string, string>, hooks: Hooks) returns (out: Outcome)
    requires en.Length == |fields|
    modifies en
    ensures (out, en[..]) == InjectSpec(req, pm, fields, old(en[..]), rules, hooks)
  {
    var params := CollectParams(pm, hooks.capitalize);
    var body, files, err := DecodeBody(req);
    if err.Some? {
      return Failed(err.value);
    }
    var views := Views(req.query, body, files, params);
    out := BindFields(views, rules, hooks, fields, en);
  }

  /**
   * Reading the body and decoding it by content type (injector.go:38-63):
   * the body map and the file table, or the error that ends binding.
   */
  method DecodeBody(req: Request)
    returns (body: map<string, Value>, files: Option<map<string, seq<FilePart>>>, err: Option<InjectError>)
    ensures err.Some? <==> !Decoded(req)
    ensures err.Some? ==> err.value == DecodeError(req)
    ensures err.None? ==> body == BodyMap(req) && files == FilesOf(req)
  {
    body, files, err := map[], None, None;
    if !req.bodyRead {
      return body, files, Some(ReadError);
    }
    match req.contentType {
      case Json =>
        if req.json.None? {
          return body, files, Some(JsonError);
        }
        body := req.json.value;
      case UrlEncoded =>
        body := Flatten(req.urlEncoded);
      case Multipart =>
        if req.multipart.None? {
          return body, files, Some(MultipartError);
        }
        files := req.multipart;
      case Unrecognised =>
    }
  }

  /** The field loop of injector.go:69-147 over the destination's slots. */
  method BindFields(views: Views, rules: map<string, string>, hooks: Hooks, fields: seq<Field>, en: array<Slot>)
    returns (out: Outcome)
    requires en.Length == |fields|
    modifies en
    ensures (out, en[..]) == Run(Steps(views, rules, hooks, fields, old(en[..])), old(en[..]), 0)
  {
    ghost var steps := Steps(views, rules, hooks, fields, old(en[..]));
    var i := 0;
    while i < |fields|
      invariant i <= |fields|
      invariant en[i..] == old(en[..])[i..]
      invariant Run(steps, old(en[..]), 0) == Run(steps, en[..], i)
    {
      ghost var before := en[..];
      assert before[i] == old(en[..])[i] by {
        assert before[i] == before[i..][0];
      }
      var step := InjectField(views, rules, hooks, fields[i], en, i);
      assert step == steps[i];
      match step {
        case Abort(e) =>
          assert Run(steps, before, i) == (Failed(e), before);
          return Failed(e);
        case Crash =>
          assert Run(steps, before, i) == (Panicked, before);
          return Panicked;
        case Next(_) =>
      }
      assert Run(steps, before, i) == Run(steps, en[..], i + 1);
      i := i + 1;
    }
    out := Bound(en[..]);
  }

  /** The body of the field loop (injector.go:70-146) for field `i`, slot `en[i]`. */
  method InjectField(views: Views, rules: map<string, string>, hooks: Hooks,
                     field: Field, en: array<Slot>, i: nat) returns (step: Step)
    requires i < en.Length
    modifies en
    ensures step == FieldStep(views, rules, hooks, field, old(en[i]))
    ensures en[..] == if step.Next? then old(en[..])[i := step.slot] else old(en[..])
  {
    if field.name == "Entity" {
      return Next(en[i]);
    }
    var r := Resolve(field.name, field.tag, hooks.unCapitalize);
    // what the visit must come to, and what the transport switch below must fetch
    ghost var expected := FieldStep(views, rules, hooks, field, en[i]);
    ghost var fetched := Fetch(views, r, hooks.capitalize);
    var val: Value, missing: bool;
    if r.transport == "query" {
      var v := QueryGet(views.query, r.key);
      val, missing := Str(v), v == "";
    } else if r.transport == "body" {
      val := if r.key in views.body then views.body[r.key] else Nil;
      missing := val == Nil || val == Str("");
    } else if r.transport == "form" {
      if views.files.None? {
        return Crash;
      }
      var files := if r.key in views.files.value then views.files.value[r.key] else [];
      val, missing := Files(files), files == [];
    } else if r.transport == "param" {
      var paramKey := hooks.capitalize(Lower(r.key));
      var v := if paramKey in views.params then views.params[paramKey] else "";
      val, missing := Str(v), v == "";
    } else {
      val, missing := Nil, false;
    }
    assert fetched == Got(val, missing);
    if r.required && missing {
      return Abort(Required(RequiredMessage(r.key, r.transport)));
    }

    if field.name in rules && rules[field.name] != "" {
      var err := hooks.check(en[i], rules[field.name]);
      if err.Some? {
        return Abort(Invalid(err.value));
      }
    }

    InjectValueByType(val, en, i, field.kind, Exported(field.name));
    step := Next(en[i]);
  }

  // ---------------------------------------------------------------------
  // Path parameters

  /** A key is in the params map exactly when some parameter capitalises to it. */
  lemma {:induction false} ParamMapKeys(pm: seq<Param>, capitalize: string -> string, k: string)
    ensures k in ParamMap(pm, capitalize) <==> exists i :: 0 <= i < |pm| && capitalize(pm[i].key) == k
  {
    if pm != [] {
      var init := pm[..|pm| - 1];
      ParamMapKeys(init, capitalize, k);
      if k in ParamMap(init, capitalize) {
        var i :| 0 <= i < |init| && capitalize(init[i].key) == k;
        assert pm[i] == init[i];
      }
      if exists i :: 0 <= i < |pm| && capitalize(pm[i].key) == k {
        var i :| 0 <= i < |pm| && capitalize(pm[i].key) == k;
        if i < |init| {
          assert init[i] == pm[i];
        }
      }
    }
  }

  /** Of several parameters under one capitalised key, the last one wins. */
  lemma {:induction false} ParamMapLatest(pm: seq<Param>, capitalize: string -> string, i: nat)
    requires i < |pm|
    requires forall j :: i < j < |pm| ==> capitalize(pm[j].key) != capitalize(pm[i].key)
    ensures capitalize(pm[i].key) in ParamMap(pm, capitalize)
    ensures ParamMap(pm, capitalize)[capitalize(pm[i].key)] == pm[i].value
  {
    if i < |pm| - 1 {
      var init := pm[..|pm| - 1];
      assert init[i] == pm[i];
      ParamMapLatest(init, capitalize, i);
    }
  }

  /**
   * A `param` field finds the last parameter whose capitalised key equals
   * the capitalised lower-cased field key, whatever the case of that key.
   */
  lemma ParamLookupFinds(pm: seq<Param>, capitalize: string -> string, key: string, i: nat)
    requires i < |pm| && capitalize(pm[i].key) == capitalize(Lower(key))
    requires forall j :: i < j < |pm| ==> capitalize(pm[j].key) != capitalize(pm[i].key)
    ensures forall other :: Lower(other) == Lower(key) ==>
              ParamLookup(ParamMap(pm, capitalize), other, capitalize) == pm[i].value
  {
    ParamMapLatest(pm, capitalize, i);
  }

  /** With no parameter under the capitalised lower-cased key, a `param` field reads "". */
  lemma ParamLookupMisses(pm: seq<Param>, capitalize: string -> string, key: string)
    requires forall j :: 0 <= j < |pm| ==> capitalize(pm[j].key) != capitalize(Lower(key))
    ensures ParamLookup(ParamMap(pm, capitalize), key, capitalize) == ""
  {
    ParamMapKeys(pm, capitalize, capitalize(Lower(key)));
  }

  // ---------------------------------------------------------------------
  // Body decoding

  /** A URL-encoded body keeps exactly its keys, each with its first value. */
  lemma UrlEncodedFirstValues(req: Request)
    requires req.contentType == UrlEncoded
    ensures BodyMap(req).Keys == req.urlEncoded.Keys
    ensures forall k :: k in req.urlEncoded ==> BodyMap(req)[k] == Str(req.urlEncoded[k][0])
  {
  }

  /**
   * Read, JSON and multipart errors are reported before any field is
   * visited, exactly when that stage fails, and leave the entity as it was;
   * an unrecognised content type is no error.
   */
  lemma DecodeErrorsFirst(req: Request, pm: seq<Param>, fields: seq<Field>, slots: seq<Slot>,
                          rules: map<string, string>, hooks: Hooks)
    requires |slots| == |fields|
    ensures var (out, final) := InjectSpec(req, pm, fields, slots, rules, hooks);
            (out.Failed? && out.error in {ReadError, JsonError, MultipartError}) <==> !Decoded(req)
    ensures var (out, final) := InjectSpec(req, pm, fields, slots, rules, hooks);
            !Decoded(req) ==> final == slots
    ensures var (out, final) := InjectSpec(req, pm, fields, slots, rules, hooks);
            req.bodyRead && req.contentType == Unrecognised ==> !(out.Failed? && out.error in {ReadError, JsonError, MultipartError})
  {
  }

  /**
   * A `query` field reads the first value given for its key in the URL, and
   * is missing exactly when the key has no value or its first value is empty.
   */
  lemma QueryFieldFirstValue(req: Request, pm: seq<Param>, hooks: Hooks, r: Resolution)
    requires r.transport == "query"
    ensures var fetched := Fetch(ViewsOf(req, pm, hooks), r, hooks.capitalize);
            fetched.Got? && fetched.val.Str?
            && (r.key in req.query && req.query[r.key] != [] ==> fetched.val == Str(req.query[r.key][0]))
            && (fetched.missing <==> r.key !in req.query || req.query[r.key] == [] || req.query[r.key][0] == "")
  {
  }

  /**
   * On a parsed multipart request a `form` field reads every file part
   * under its key and is missing exactly when there is none; on any other
   * request it dereferences the nil multipart form.
   */
  lemma FormFieldParts(req: Request, pm: seq<Param>, hooks: Hooks, r: Resolution)
    requires r.transport == "form" && Decoded(req)
    ensures var fetched := Fetch(ViewsOf(req, pm, hooks), r, hooks.capitalize);
            if req.contentType == Multipart then
              var table := req.multipart.value;
              fetched.Got? && fetched.val.Files?
              && (r.key in table ==> fetched.val.parts == table[r.key])
              && (fetched.missing <==> r.key !in table || table[r.key] == [])
            else fetched.NilForm?
  {
  }

  /**
   * A `body` field reads the decoded body under its key: the JSON value, or
   * the first URL-encoded value, and nil when the key is absent.
   */
  lemma BodyFieldValue(req: Request, pm: seq<Param>, hooks: Hooks, r: Resolution)
    requires r.transport == "body" && Decoded(req)
    requires req.contentType in {Json, UrlEncoded}
    ensures var fetched := Fetch(ViewsOf(req, pm, hooks), r, hooks.capitalize);
            fetched.Got?
            && (req.contentType == Json ==>
                  fetched.val == if r.key in req.json.value then req.json.value[r.key] else Nil)
            && (req.contentType == UrlEncoded ==>
                  fetched.val == if r.key in req.urlEncoded then Str(req.urlEncoded[r.key][0]) else Nil)
            && (fetched.missing <==> fetched.val in {Nil, Str("")})
  {
  }

  /**
   * A `param` field reads the params map under the capitalised lower-cased
   * key, and is missing exactly when that reads the empty string.
   */
  lemma ParamFieldValue(req: Request, pm: seq<Param>, hooks: Hooks, r: Resolution)
    requires r.transport == "param"
    ensures var fetched := Fetch(ViewsOf(req, pm, hooks), r, hooks.capitalize);
            var v := ParamLookup(ParamMap(pm, hooks.capitalize), r.key, hooks.capitalize);
            fetched == Got(Str(v), v == "")
  {
  }

  /** Without a JSON or URL-encoded body every `body` field fetches nil and counts as missing. */
  lemma BodyFieldsEmptyOtherwise(req: Request, pm: seq<Param>, hooks: Hooks, r: Resolution)
    requires req.contentType in {Multipart, Unrecognised}
    requires r.transport == "body"
    ensures Fetch(ViewsOf(req, pm, hooks), r, hooks.capitalize) == Got(Nil, true)
  {
  }

  // ---------------------------------------------------------------------
  // The field loop

  /**
   * When every field from `i` up to `j` passes and field `j` aborts,
   * binding fails with `j`'s error: the fields before `j` hold their new
   * values and `j` and every later field keep theirs.
   */
  lemma {:induction false} RunStopsAt(steps: seq<Step>, slots: seq<Slot>, i: nat, j: nat)
    requires |slots| == |steps| && i <= j < |steps|
    requires forall k :: i <= k < j ==> steps[k].Next?
    requires steps[j].Abort?
    ensures var (out, final) := Run(steps, slots, i);
            out == Failed(steps[j].error)
            && final[j..] == slots[j..]
            && forall k :: i <= k < j ==> final[k] == steps[k].slot
    decreases j - i
  {
    if i < j {
      var next := slots[i := steps[i].slot];
      RunStopsAt(steps, next, i + 1, j);
      var final := Run(steps, next, i + 1).1;
      assert final[..i + 1] == next[..i + 1];
      assert final[j..] == next[j..] == slots[j..];
    }
  }

  /**
   * Binding from field `i` succeeds exactly when every remaining field
   * passes, and then each remaining field holds its new value.
   */
  lemma {:induction false} RunBound(steps: seq<Step>, slots: seq<Slot>, i: nat)
    requires |slots| == |steps| && i <= |steps|
    ensures var (out, final) := Run(steps, slots, i);
            out.Bound? <==> forall k :: i <= k < |steps| ==> steps[k].Next?
    ensures var (out, final) := Run(steps, slots, i);
            out.Bound? ==> forall k :: i <= k < |steps| ==> final[k] == steps[k].slot
    decreases |steps| - i
  {
    if i < |steps| && steps[i].Next? {
      var next := slots[i := steps[i].slot];
      RunBound(steps, next, i + 1);
      var final := Run(steps, next, i + 1).1;
      assert final[..i + 1] == next[..i + 1];
    }
  }

  /** A field that each step leaves within its kind stays within it, whatever the outcome. */
  lemma {:induction false} RunKeepsFits(kinds: seq<Kind>, steps: seq<Step>, slots: seq<Slot>, i: nat)
    requires |slots| == |steps| == |kinds| && i <= |steps|
    requires forall k :: 0 <= k < |kinds| ==> Fits(kinds[k], slots[k])
    requires forall k :: 0 <= k < |kinds| && steps[k].Next? ==> Fits(kinds[k], steps[k].slot)
    ensures var final := Run(steps, slots, i).1;
            forall k :: 0 <= k < |kinds| ==> Fits(kinds[k], final[k])
    decreases |steps| - i
  {
    if i < |steps| && steps[i].Next? {
      RunKeepsFits(kinds, steps, slots[i := steps[i].slot], i + 1);
    }
  }

  /**
   * A required field whose value is missing from its transport makes
   * `inject` fail with "Data: <key> is required but not found inside
   * <transport>.", once every earlier field has passed; it and every later
   * field are left as they were.
   */
  lemma RequiredFieldAborts(req: Request, pm: seq<Param>, fields: seq<Field>, slots: seq<Slot>,
                            rules: map<string, string>, hooks: Hooks, j: nat)
    requires |slots| == |fields| && j < |fields| && Decoded(req)
    requires forall k :: 0 <= k < j ==> FieldStep(ViewsOf(req, pm, hooks), rules, hooks, fields[k], slots[k]).Next?
    requires fields[j].name != "Entity"
    requires var r := Resolve(fields[j].name, fields[j].tag, hooks.unCapitalize);
             r.required && Fetch(ViewsOf(req, pm, hooks), r, hooks.capitalize).Got?
             && Fetch(ViewsOf(req, pm, hooks), r, hooks.capitalize).missing
    ensures var r := Resolve(fields[j].name, fields[j].tag, hooks.unCapitalize);
            var (out, final) := InjectSpec(req, pm, fields, slots, rules, hooks);
            out == Failed(Required("Data: " + r.key + " is required but not found inside " + r.transport + "."))
            && final[j..] == slots[j..]
  {
    var steps := Steps(ViewsOf(req, pm, hooks), rules, hooks, fields, slots);
    RunStopsAt(steps, slots, 0, j);
  }

  /**
   * A field whose value was found but whose validation rule the checker
   * rejects makes `inject` fail with the checker's message, once every
   * earlier field has passed; it and every later field are left as they
   * were.
   */
  lemma InvalidFieldAborts(req: Request, pm: seq<Param>, fields: seq<Field>, slots: seq<Slot>,
                           rules: map<string, string>, hooks: Hooks, j: nat)
    requires |slots| == |fields| && j < |fields| && Decoded(req)
    requires forall k :: 0 <= k < j ==> FieldStep(ViewsOf(req, pm, hooks), rules, hooks, fields[k], slots[k]).Next?
    requires fields[j].name != "Entity"
    requires var r := Resolve(fields[j].name, fields[j].tag, hooks.unCapitalize);
             var fetched := Fetch(ViewsOf(req, pm, hooks), r, hooks.capitalize);
             fetched.Got? && !(r.required && fetched.missing)
    requires fields[j].name in rules && rules[fields[j].name] != ""
    requires hooks.check(slots[j], rules[fields[j].name]).Some?
    ensures var (out, final) := InjectSpec(req, pm, fields, slots, rules, hooks);
            out == Failed(Invalid(hooks.check(slots[j], rules[fields[j].name]).value))
            && final[j..] == slots[j..]
  {
    var steps := Steps(ViewsOf(req, pm, hooks), rules, hooks, fields, slots);
    RunStopsAt(steps, slots, 0, j);
  }

  /** A bound entity holds, field by field, what each loop iteration produced. */
  lemma BoundEntity(req: Request, pm: seq<Param>, fields: seq<Field>, slots: seq<Slot>,
                    rules: map<string, string>, hooks: Hooks)
    requires |slots| == |fields|
    ensures var (out, final) := InjectSpec(req, pm, fields, slots, rules, hooks);
            out.Bound? <==> Decoded(req) && forall k :: 0 <= k < |fields| ==>
                              FieldStep(ViewsOf(req, pm, hooks), rules, hooks, fields[k], slots[k]).Next?
    ensures var (out, final) := InjectSpec(req, pm, fields, slots, rules, hooks);
            out.Bound? ==> forall k :: 0 <= k < |fields| ==>
                             out.entity[k] == FieldStep(ViewsOf(req, pm, hooks), rules, hooks, fields[k], slots[k]).slot
  {
    RunBound(Steps(ViewsOf(req, pm, hooks), rules, hooks, fields, slots), slots, 0);
  }

  /** Binding never leaves a field holding a value of another kind. */
  lemma InjectKeepsFits(req: Request, pm: seq<Param>, fields: seq<Field>, slots: seq<Slot>,
                        rules: map<string, string>, hooks: Hooks)
    requires |slots| == |fields|
    requires forall k :: 0 <= k < |fields| ==> Fits(fields[k].kind, slots[k])
    ensures var final := InjectSpec(req, pm, fields, slots, rules, hooks).1;
            forall k :: 0 <= k < |fields| ==> Fits(fields[k].kind, final[k])
  {
    if Decoded(req) {
      var kinds := seq(|fields|, k requires 0 <= k < |fields| => fields[k].kind);
      RunKeepsFits(kinds, Steps(ViewsOf(req, pm, hooks), rules, hooks, fields, slots), slots, 0);
    }
  }

  // ---------------------------------------------------------------------
  // Worked requests

  /** Binding a one-field entity is that field's loop iteration. */
  lemma OneField(req: Request, field: Field, slot: Slot, hooks: Hooks)
    requires Decoded(req)
    ensures InjectSpec(req, [], [field], [slot], map[], hooks).0
         == match FieldStep(ViewsOf(req, [], hooks), map[], hooks, field, slot)
            case Next(s) => Bound([s])
            case Abort(e) => Failed(e)
            case Crash => Panicked
  {
    var steps := Steps(ViewsOf(req, [], hooks), map[], hooks, [field], [slot]);
    assert steps == [FieldStep(ViewsOf(req, [], hooks), map[], hooks, field, slot)];
    assert InjectSpec(req, [], [field], [slot], map[], hooks) == Run(steps, [slot], 0);
    if steps[0].Next? {
      var s := steps[0].slot;
      assert [slot][0 := s] == [s];
      assert Run(steps, [slot], 0) == Run(steps, [s], 1);
      assert Run(steps, [s], 1) == (Bound([s]), [s]);
    }
  }

  /** A JSON body `{"name":"Ann"}` binds a string field `Name` tagged `name|body!`. */
  lemma JsonNameBound(req: Request, field: Field, hooks: Hooks)
    requires req == Request(Json, map[], true, Some(map["name" := Str("Ann")]), map[], None)
    requires field == Field("Name", "name|body!", String)
    ensures InjectSpec(req, [], [field], [StrSlot("")], map[], hooks).0 == Bound([StrSlot("Ann")])
  {
    var views := ViewsOf(req, [], hooks);
    var r := Resolution("body", "name", true);
    assert views.body == map["name" := Str("Ann")];
    assert Fetch(views, r, hooks.capitalize) == Got(Str("Ann"), false);
    assert Exported(field.name) by {
      assert field.name[0] == 'N';
    }
    assert Coerce(String, Str("Ann"), true, StrSlot("")) == StrSlot("Ann");
    NameTag(field.name, field.tag, hooks.unCapitalize);
    StepByResolution(views, hooks, field, StrSlot(""), r);
    OneField(req, field, StrSlot(""), hooks);
  }

  /** The same field on the JSON body `{}` fails, naming its key and transport. */
  lemma JsonNameMissing(req: Request, field: Field, hooks: Hooks)
    requires req == Request(Json, map[], true, Some(map[]), map[], None)
    requires field == Field("Name", "name|body!", String)
    ensures InjectSpec(req, [], [field], [StrSlot("")], map[], hooks).0
         == Failed(Required("Data: " + "name" + " is required but not found inside " + "body" + "."))
  {
    var views := ViewsOf(req, [], hooks);
    var r := Resolution("body", "name", true);
    assert Fetch(views, r, hooks.capitalize) == Got(Nil, true);
    NameTag(field.name, field.tag, hooks.unCapitalize);
    StepByResolution(views, hooks, field, StrSlot(""), r);
    OneField(req, field, StrSlot(""), hooks);
  }


  /**
   * Without validation rules, a field's loop iteration depends on its tag
   * only through the tag's resolution.
   */
  lemma StepByResolution(views: Views, hooks: Hooks, f: Field, slot: Slot, r: Resolution)
    requires f.name != "Entity" && Resolve(f.name, f.tag, hooks.unCapitalize) == r
    ensures FieldStep(views, map[], hooks, f, slot)
         == match Fetch(views, r, hooks.capitalize)
            case NilForm => Crash
            case Got(v, missing) =>
              if r.required && missing then Abort(Required(RequiredMessage(r.key, r.transport)))
              else Next(Coerce(f.kind, v, Exported(f.name), slot))
  {
  }

  /** The tag `name|body!` reads the body under "name" and is required. */
  lemma NameTag(name: string, tag: string, unCapitalize: string -> string)
    requires tag == "name|body!"
    ensures Resolve(name, tag, unCapitalize) == Resolution("body", "name", true)
  {
    NameTagText(tag);
    PipeTag(name, tag, "name", "body", "", unCapitalize);
  }

  lemma NameTagText(tag: string)
    requires tag == "name|body!"
    ensures '!' in tag
    ensures RemoveAll(tag, '!') == "name" + "|" + "body" + ""
  {
    assert tag[9] == '!';
    var word := "name|body";
    assert tag == word + ['!'];
    assert '!' !in word;
    RemoveAllTrailing(word, '!');
  }

  /** A query `?age=<text>` binds an untagged int field `Age` to whatever `Atoi` parses the text to. */
  lemma QueryAgeBound(req: Request, field: Field, hooks: Hooks, text: string, n: int)
    requires Atoi(text) == Some(n)
    requires req == Request(Unrecognised, map["age" := [text]], true, None, map[], None)
    requires field == Field("Age", "", Int)
    requires hooks.unCapitalize("Age") == "age"
    ensures InjectSpec(req, [], [field], [IntSlot(0)], map[], hooks).0 == Bound([IntSlot(n)])
  {
    var views := ViewsOf(req, [], hooks);
    var r := Resolution("query", "age", false);
    EmptyTagDefaults(field.name, field.tag, hooks.unCapitalize);
    assert Resolve(field.name, field.tag, hooks.unCapitalize) == r;
    assert Fetch(views, r, hooks.capitalize) == Got(Str(text), false);
    assert Exported(field.name) by {
      assert field.name[0] == 'A';
    }
    assert Coerce(Int, Str(text), true, IntSlot(0)) == IntSlot(n);
    StepByResolution(views, hooks, field, IntSlot(0), r);
    OneField(req, field, IntSlot(0), hooks);
  }
}
