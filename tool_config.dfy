/** The CLI tool's own configuration, as an untyped document tree, and the
    patch that installs a resolved context into it. */
module ToolConfig {
  import opened Failures
  import opened Contexts

  /** A decoded YAML value: a string, a mapping with string keys, or anything
      else (numbers, booleans, lists, null, mappings with other keys). */
  datatype Value = Str(s: string) | Mapping(entries: map<string, Value>) | Other

  /** A decoded tool config: its top level is a mapping. */
  type Document = map<string, Value>

  const HostsKey := "hosts"
  const UserKey := "user"
  const TokenKey := "token"

  /** The document has a `hosts` mapping with a mapping entry for `target`. */
  predicate Patchable(doc: Document, target: string) {
    && HostsKey in doc
    && doc[HostsKey].Mapping?
    && target in doc[HostsKey].entries
    && doc[HostsKey].entries[target].Mapping?
  }

  /** `doc'` is `doc` with `hosts[target].user` and `hosts[target].token` set
      from `ctx`, and every other key at every level left as it was. */
  ghost predicate FieldScoped(doc: Document, doc': Document, target: string, ctx: Context)
    requires Patchable(doc, target)
  {
    && doc'.Keys == doc.Keys
    && (forall k :: k in doc && k != HostsKey ==> doc'[k] == doc[k])
    && doc'[HostsKey].Mapping?
    && var hosts, hosts' := doc[HostsKey].entries, doc'[HostsKey].entries;
       && hosts'.Keys == hosts.Keys
       && (forall h :: h in hosts && h != target ==> hosts'[h] == hosts[h])
       && hosts'[target].Mapping?
       && var fields, fields' := hosts[target].entries, hosts'[target].entries;
          && fields'.Keys == fields.Keys + {UserKey, TokenKey}
          && fields'[UserKey] == Str(ctx.user)
          && fields'[TokenKey] == Str(ctx.token)
          && (forall f :: f in fields && f != UserKey && f != TokenKey ==> fields'[f] == fields[f])
  }

  /** Specification of the patch. It fails with a missing key when `hosts` is
      absent or not a mapping or has no entry for `target`; it fails with
      `TargetNotMapping` when that entry is not a mapping; otherwise it sets
      the two credential fields and changes nothing else. */
  function Patched(doc: Document, target: string, ctx: Context): (r: Result<Document>)
    ensures r.Ok? <==> Patchable(doc, target)
    ensures r == Err(MissingKey) <==>
      !(HostsKey in doc && doc[HostsKey].Mapping? && target in doc[HostsKey].entries)
    ensures r == Err(TargetNotMapping) <==>
      && HostsKey in doc && doc[HostsKey].Mapping? && target in doc[HostsKey].entries
      && !doc[HostsKey].entries[target].Mapping?
    ensures r.Ok? ==> FieldScoped(doc, r.value, target, ctx)
  {
    if HostsKey !in doc || !doc[HostsKey].Mapping? then Err(MissingKey)
    else
      var hosts := doc[HostsKey].entries;
      if target !in hosts then Err(MissingKey)
      else if !hosts[target].Mapping? then Err(TargetNotMapping)
      else
        var fields := hosts[target].entries[UserKey := Str(ctx.user)][TokenKey := Str(ctx.token)];
        Ok(doc[HostsKey := Mapping(hosts[target := Mapping(fields)])])
  }

  /** The field-scoped description determines the patched document: there is
      exactly one document that differs from `doc` only in the two fields. */
  lemma FieldScopedIsUnique(doc: Document, d1: Document, d2: Document, target: string, ctx: Context)
    requires Patchable(doc, target)
    requires FieldScoped(doc, d1, target, ctx) && FieldScoped(doc, d2, target, ctx)
    ensures d1 == d2
  {
    var hosts1, hosts2 := d1[HostsKey].entries, d2[HostsKey].entries;
    var fields1, fields2 := hosts1[target].entries, hosts2[target].entries;
    assert fields1 == fields2 by {
      forall f | f in fields1 ensures fields1[f] == fields2[f] {
        if f != UserKey && f != TokenKey {
          assert f in doc[HostsKey].entries[target].entries;
        }
      }
    }
    assert hosts1 == hosts2 by {
      forall h | h in hosts1 ensures hosts1[h] == hosts2[h] {
        if h != target {
          assert h in doc[HostsKey].entries;
        }
      }
    }
    forall k | k in d1 ensures d1[k] == d2[k] {
      if k != HostsKey {
        assert k in doc;
      }
    }
  }

  /** Patching twice with the same context gives the same document as
      patching once. */
  lemma PatchIsIdempotent(doc: Document, target: string, ctx: Context)
    requires Patched(doc, target, ctx).Ok?
    ensures Patched(Patched(doc, target, ctx).value, target, ctx) == Patched(doc, target, ctx)
  {
    var once := Patched(doc, target, ctx).value;
    assert Patchable(once, target);
    var twice := Patched(once, target, ctx).value;
    assert FieldScoped(doc, twice, target, ctx) by {
      var fields := doc[HostsKey].entries[target].entries;
      var fields' := twice[HostsKey].entries[target].entries;
      forall f | f in fields && f != UserKey && f != TokenKey ensures fields'[f] == fields[f] {
        assert f in once[HostsKey].entries[target].entries;
      }
      forall h | h in doc[HostsKey].entries && h != target
        ensures twice[HostsKey].entries[h] == doc[HostsKey].entries[h]
      {
        assert h in once[HostsKey].entries;
      }
      forall k | k in doc && k != HostsKey ensures twice[k] == doc[k] {
        assert k in once;
      }
    }
    FieldScopedIsUnique(doc, once, twice, target, ctx);
  }

  /** The patch as the program performs it: check the structure step by step,
      then overwrite the two fields of the host's mapping and store the
      mappings back into their parents. */
  method ApplyPatch(content: Document, target: string, ctx: Context) returns (r: Result<Document>)
    ensures r == Patched(content, target, ctx)
  {
    if HostsKey !in content {
      return Err(MissingKey);
    }
    if !content[HostsKey].Mapping? {
      return Err(MissingKey);
    }
    var hosts := content[HostsKey].entries;
    if target !in hosts {
      return Err(MissingKey);
    }
    if !hosts[target].Mapping? {
      return Err(TargetNotMapping);
    }
    var fields := hosts[target].entries;
    fields := fields[UserKey := Str(ctx.user)];
    fields := fields[TokenKey := Str(ctx.token)];
    hosts := hosts[target := Mapping(fields)];
    var updated := content[HostsKey := Mapping(hosts)];
    r := Ok(updated);
  }
}
