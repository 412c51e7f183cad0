/**
 * Resolution of a field's `rubik` struct tag into the transport the value
 * is read from, the key it is read under and whether it is required
 * (injector.go:76-104).
 *
 * Grammar: every `!` anywhere marks the field required and is dropped;
 * what remains is empty (defaults), `key|transport` (either part may be
 * empty, text after a second `|` is ignored), or a single word that is a
 * transport name or else a key.
 */
module Tags {
  import opened Text

  /** The transports `isOneOf` recognises. */
  const Transports: seq<string> := ["query", "body", "form", "param"]

  const DefaultTransport: string := "query"

  datatype Resolution = Resolution(transport: string, key: string, required: bool)

  /** `isOneOf(s, options...)`: membership in the list of options. */
  predicate IsOneOf(s: string, options: seq<string>)
  {
    s in options
  }

  /**
   * The resolution of `tag` for a field called `name`; `unCapitalize` is
   * the repository's helper that derives the default key from the name.
   */
  function Resolve(name: string, tag: string, unCapitalize: string -> string): (r: Resolution)
    ensures r.required <==> '!' in tag
    ensures r.transport != "" && '!' !in r.transport && '|' !in r.transport
    ensures r.key == unCapitalize(name) || (r.key != "" && '!' !in r.key && '|' !in r.key)
  {
    var (transport, key) := Locate(RemoveAll(tag, '!'), unCapitalize(name));
    Resolution(transport, key, '!' in tag)
  }

  /**
   * The transport and key named by a tag whose markers are already
   * removed, given the default key.
   */
  function Locate(stripped: string, key: string): (r: (string, string))
    requires '!' !in stripped
    ensures r.0 != "" && '!' !in r.0 && '|' !in r.0
    ensures r.1 == key || (r.1 != "" && '!' !in r.1 && '|' !in r.1)
  {
    if stripped == "" then
      (DefaultTransport, key)
    else if '|' in stripped then
      var first := Before(stripped, '|');
      var second := Before(After(stripped, '|'), '|');
      (if second != "" then second else DefaultTransport, if first != "" then first else key)
    else if IsOneOf(stripped, Transports) then
      (stripped, key)
    else
      (DefaultTransport, stripped)
  }

  /**
   * Markers are removed before anything else is read: a tag resolves like
   * the same tag with every `!` dropped, except for the required flag.
   */
  lemma MarkersStrippedFirst(name: string, tag: string, unCapitalize: string -> string)
    ensures Resolve(name, tag, unCapitalize)
         == Resolve(name, RemoveAll(tag, '!'), unCapitalize).(required := '!' in tag)
  {
    RemoveAllIdempotent(tag, '!');
  }

  /** An empty tag, or one made only of markers, keeps both defaults. */
  lemma EmptyTagDefaults(name: string, tag: string, unCapitalize: string -> string)
    requires RemoveAll(tag, '!') == ""
    ensures Resolve(name, tag, unCapitalize) == Resolution("query", unCapitalize(name), '!' in tag)
  {
  }

  /**
   * A tag that reads `key|transport` once markers are dropped (possibly
   * followed by further `|`-separated text) takes each non-empty part and
   * keeps the default for each empty one.
   */
  lemma PipeTag(name: string, tag: string, key: string, transport: string,
                rest: string, unCapitalize: string -> string)
    requires RemoveAll(tag, '!') == key + "|" + transport + rest
    requires '|' !in key && '|' !in transport
    requires rest == [] || rest[0] == '|'
    ensures Resolve(name, tag, unCapitalize)
         == Resolution(if transport != "" then transport else "query",
                       if key != "" then key else unCapitalize(name),
                       '!' in tag)
  {
    LocatePipe(RemoveAll(tag, '!'), key, transport, rest, unCapitalize(name));
  }

  lemma LocatePipe(stripped: string, key: string, transport: string, rest: string, default: string)
    requires '!' !in stripped
    requires stripped == key + "|" + transport + rest
    requires '|' !in key && '|' !in transport
    requires rest == [] || rest[0] == '|'
    ensures Locate(stripped, default)
         == (if transport != "" then transport else "query", if key != "" then key else default)
  {
    var tail := transport + rest;
    assert stripped == key + ['|'] + tail;
    AfterJoin(key, '|', tail);
    BeforeJoin(key, '|', tail);
    if rest == [] {
      assert tail == transport;
    } else {
      assert tail == transport + ['|'] + rest[1..];
      BeforeJoin(transport, '|', rest[1..]);
    }
  }

  /**
   * A tag with no `|`: a transport name sets only the transport; any other
   * word sets only the key.
   */
  lemma BareTag(name: string, tag: string, unCapitalize: string -> string)
    requires RemoveAll(tag, '!') != "" && '|' !in tag
    ensures var word := RemoveAll(tag, '!');
            var r := Resolve(name, tag, unCapitalize);
            if word in Transports then r.transport == word && r.key == unCapitalize(name)
            else r.transport == "query" && r.key == word
  {
    RemoveAllSubset(tag, '!', '|');
  }
}
