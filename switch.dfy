/** One run of the context switcher: resolve the named context in the store,
    then patch it into the tool config. The document is written back only on
    success. */
module Switch {
  import opened Failures
  import opened Contexts
  import opened ToolConfig

  /** Specification of a run: the new tool config, or why the run stopped. */
  function Switched(store: Store, hostKey: string, name: string, doc: Document): (r: Result<Document>)
    ensures hostKey !in store ==> r == Err(HostNotFound)
    ensures r.Ok? <==>
      && hostKey in store
      && IsValid(FirstMatch(store[hostKey].contexts, name))
      && Patchable(doc, store[hostKey].host)
    ensures Resolution(store, hostKey, name).Err? ==> r == Err(Resolution(store, hostKey, name).error)
    ensures Resolution(store, hostKey, name).Ok? ==>
      r == Patched(doc, store[hostKey].host, FirstMatch(store[hostKey].contexts, name))
    ensures r.Ok? ==>
      && hostKey in store
      && var c := FirstMatch(store[hostKey].contexts, name);
         && IsValid(c) && c.name == name
         && Patchable(doc, store[hostKey].host)
         && FieldScoped(doc, r.value, store[hostKey].host, c)
  {
    match Resolution(store, hostKey, name)
    case Err(e) => Err(e)
    case Ok(sel) => Patched(doc, sel.host, sel.context)
  }

  /** The tool config is addressed by the entry's inner host field: when that
      differs from the lookup key, the lookup key's own entry in the tool
      config is left as it was. */
  lemma PatchTargetsInnerHost(store: Store, hostKey: string, name: string, doc: Document)
    requires hostKey in store && store[hostKey].host != hostKey
    requires Switched(store, hostKey, name, doc).Ok?
    requires hostKey in doc[HostsKey].entries
    ensures Switched(store, hostKey, name, doc).value[HostsKey].entries[hostKey] == doc[HostsKey].entries[hostKey]
  {
  }

  /** A run stops with the resolution's error, whatever the tool config holds,
      whenever resolution fails: no patch is attempted. */
  lemma ResolutionFailureSkipsPatch(store: Store, hostKey: string, name: string, doc1: Document, doc2: Document)
    requires Resolution(store, hostKey, name).Err?
    ensures Switched(store, hostKey, name, doc1) == Switched(store, hostKey, name, doc2)
    ensures Switched(store, hostKey, name, doc1).error == Resolution(store, hostKey, name).error
  {
  }

  /** A run as the program performs it. */
  method SwitchContext(store: Store, hostKey: string, name: string, doc: Document) returns (r: Result<Document>)
    ensures r == Switched(store, hostKey, name, doc)
  {
    var sel := ResolveContext(store, hostKey, name);
    if sel.Err? {
      return Err(sel.error);
    }
    r := ApplyPatch(doc, sel.value.host, sel.value.context);
  }

  /** Two contexts for one host; selecting the second patches its user and
      token and keeps the other fields and hosts. */
  lemma SelectSecondContext()
    ensures
      var store := map["gitlab.com" := HostEntry("gitlab.com",
        [Context("work", "alice", "t1"), Context("personal", "bob", "t2")])];
      var doc := map[
        HostsKey := Mapping(map[
          "gitlab.com" := Mapping(map[UserKey := Str("alice"), TokenKey := Str("t1"), "api_protocol" := Str("https")]),
          "example.org" := Mapping(map[UserKey := Str("carol")])]),
        "editor" := Str("vim")];
      Switched(store, "gitlab.com", "personal", doc) == Ok(map[
        HostsKey := Mapping(map[
          "gitlab.com" := Mapping(map[UserKey := Str("bob"), TokenKey := Str("t2"), "api_protocol" := Str("https")]),
          "example.org" := Mapping(map[UserKey := Str("carol")])]),
        "editor" := Str("vim")])
  {
    var cs := [Context("work", "alice", "t1"), Context("personal", "bob", "t2")];
    var store := map["gitlab.com" := HostEntry("gitlab.com", cs)];
    assert FirstMatch(cs, "personal") == cs[1] by {
      FirstMatchIsEarliest(cs, "personal", 1);
    }
    assert Resolution(store, "gitlab.com", "personal") == Ok(Selection("gitlab.com", cs[1]));
    var fields := map[UserKey := Str("alice"), TokenKey := Str("t1"), "api_protocol" := Str("https")];
    var other := Mapping(map[UserKey := Str("carol")]);
    var hosts := map["gitlab.com" := Mapping(fields), "example.org" := other];
    var doc := map[HostsKey := Mapping(hosts), "editor" := Str("vim")];
    var fields' := map[UserKey := Str("bob"), TokenKey := Str("t2"), "api_protocol" := Str("https")];
    assert fields[UserKey := Str("bob")][TokenKey := Str("t2")] == fields';
    assert hosts["gitlab.com" := Mapping(fields')]
      == map["gitlab.com" := Mapping(fields'), "example.org" := other];
    assert doc[HostsKey := Mapping(hosts["gitlab.com" := Mapping(fields')])]
      == map[HostsKey := Mapping(map["gitlab.com" := Mapping(fields'), "example.org" := other]), "editor" := Str("vim")];
  }

  /** A context that matches by name but has no token stops the run. */
  lemma MatchWithoutToken(doc: Document)
    ensures
      var store := map["gitlab.com" := HostEntry("gitlab.com",
        [Context("work", "alice", ""), Context("work", "alice", "t1")])];
      Switched(store, "gitlab.com", "work", doc) == Err(InvalidContext)
  {
  }

  /** A tool config without a `hosts` key stops the run. */
  lemma ConfigWithoutHosts()
    ensures
      var store := map["gitlab.com" := HostEntry("gitlab.com", [Context("work", "alice", "t1")])];
      Switched(store, "gitlab.com", "work", map["editor" := Str("vim")]) == Err(MissingKey)
  {
  }
}
