/** The context store and the resolution of a named context in it. */
module Contexts {
  import opened Failures

  /** One named credential for a host. */
  datatype Context = Context(name: string, user: string, token: string)

  /** The store's entry for one host key: the host name used to address the
      tool config, and the ordered list of contexts. */
  datatype HostEntry = HostEntry(host: string, contexts: seq<Context>)

  /** The context store, keyed by the host name given on the command line. */
  type Store = map<string, HostEntry>

  /** What a successful resolution yields: the host to patch and the context. */
  datatype Selection = Selection(host: string, context: Context)

  /** The zero value of a context: every field empty. */
  const ZeroContext := Context("", "", "")

  /** A context is usable only when all three of its fields are non-empty. */
  predicate IsValid(c: Context): (b: bool)
    ensures b <==> |c.name| > 0 && |c.user| > 0 && |c.token| > 0
    ensures b ==> c != ZeroContext
  {
    c.name != "" && c.user != "" && c.token != ""
  }

  /** `k` is the position of the earliest context in `cs` called `name`. */
  ghost predicate IsFirstMatch(cs: seq<Context>, name: string, k: int) {
    && 0 <= k < |cs|
    && cs[k].name == name
    && forall j :: 0 <= j < k ==> cs[j].name != name
  }

  /** Specification of the selection loop: the earliest context called
      `name`, or the zero context when there is none. */
  function FirstMatch(cs: seq<Context>, name: string): (r: Context)
    ensures r == ZeroContext || (r in cs && r.name == name)
    ensures (forall i :: 0 <= i < |cs| ==> cs[i].name != name) ==> r == ZeroContext
  {
    if cs == [] then ZeroContext
    else if cs[0].name == name then cs[0]
    else FirstMatch(cs[1..], name)
  }

  /** First match wins: the selected context is the one at the earliest
      position whose name matches, whatever comes after it. */
  lemma {:induction false} FirstMatchIsEarliest(cs: seq<Context>, name: string, k: int)
    requires IsFirstMatch(cs, name, k)
    ensures FirstMatch(cs, name) == cs[k]
  {
    if k > 0 {
      assert cs[0].name != name;
      assert IsFirstMatch(cs[1..], name, k - 1) by {
        forall j | 0 <= j < k - 1 ensures cs[1..][j].name != name {
          assert cs[1..][j] == cs[j + 1];
        }
      }
      FirstMatchIsEarliest(cs[1..], name, k - 1);
    }
  }

  /** Contexts with other names placed before the list do not change the
      selection. */
  lemma {:induction false} FirstMatchSkipsOthers(before: seq<Context>, cs: seq<Context>, name: string)
    requires forall i :: 0 <= i < |before| ==> before[i].name != name
    ensures FirstMatch(before + cs, name) == FirstMatch(cs, name)
  {
    if before == [] {
      assert before + cs == cs;
    } else {
      assert (before + cs)[0] == before[0];
      assert (before + cs)[1..] == before[1..] + cs;
      forall i | 0 <= i < |before[1..]| ensures before[1..][i].name != name {
        assert before[1..][i] == before[i + 1];
      }
      FirstMatchSkipsOthers(before[1..], cs, name);
    }
  }

  /** Once a list holds a context called `name`, anything appended after it
      (later duplicates included) does not change the selection. */
  lemma {:induction false} FirstMatchIgnoresLater(cs: seq<Context>, after: seq<Context>, name: string)
    requires exists i :: 0 <= i < |cs| && cs[i].name == name
    ensures FirstMatch(cs + after, name) == FirstMatch(cs, name)
  {
    assert cs != [];
    assert (cs + after)[0] == cs[0];
    if cs[0].name != name {
      assert (cs + after)[1..] == cs[1..] + after;
      var i :| 0 <= i < |cs| && cs[i].name == name;
      assert cs[1..][i - 1] == cs[i];
      FirstMatchIgnoresLater(cs[1..], after, name);
    }
  }

  /** The selection loop: scan the contexts in order and stop at the first
      one whose name is `name`; if none matches the zero context remains. */
  method SelectContext(cs: seq<Context>, name: string) returns (hostCtx: Context)
    ensures hostCtx == FirstMatch(cs, name)
  {
    hostCtx := ZeroContext;
    var i := 0;
    while i < |cs|
      invariant 0 <= i <= |cs|
      invariant hostCtx == ZeroContext
      invariant FirstMatch(cs[i..], name) == FirstMatch(cs, name)
    {
      if cs[i].name == name {
        hostCtx := cs[i];
        break;
      }
      assert cs[i..][1..] == cs[i + 1..];
      i := i + 1;
    }
  }

  /** Specification of resolution: look the host key up, select the first
      context with the requested name, and accept it only if it is valid. */
  function Resolution(store: Store, hostKey: string, name: string): (r: Result<Selection>)
    ensures r == Err(HostNotFound) <==> hostKey !in store
    ensures r.Ok? ==> hostKey in store && r.value.host == store[hostKey].host
    ensures r.Ok? ==> IsValid(r.value.context) && r.value.context.name == name
    ensures r.Ok? ==> r.value.context in store[hostKey].contexts
  {
    if hostKey !in store then Err(HostNotFound)
    else
      var entry := store[hostKey];
      var c := FirstMatch(entry.contexts, name);
      if IsValid(c) then Ok(Selection(entry.host, c)) else Err(InvalidContext)
  }

  /** Resolution succeeds with exactly the earliest context of the given name,
      and only when that context is valid; the host to patch is the entry's
      inner host field. */
  lemma ResolvedIsFirstValidMatch(store: Store, hostKey: string, name: string, sel: Selection)
    ensures Resolution(store, hostKey, name) == Ok(sel) <==>
      && hostKey in store
      && sel.host == store[hostKey].host
      && IsValid(sel.context)
      && exists k :: IsFirstMatch(store[hostKey].contexts, name, k) && store[hostKey].contexts[k] == sel.context
  {
    if hostKey in store {
      var cs := store[hostKey].contexts;
      if Resolution(store, hostKey, name) == Ok(sel) {
        var i :| 0 <= i < |cs| && cs[i] == sel.context;
        var k := EarliestMatch(cs, name, i);
        FirstMatchIsEarliest(cs, name, k);
      }
      if exists k :: IsFirstMatch(cs, name, k) && cs[k] == sel.context {
        var k :| IsFirstMatch(cs, name, k) && cs[k] == sel.context;
        FirstMatchIsEarliest(cs, name, k);
      }
    }
  }

  /** Resolution fails with an invalid context exactly when the host is known
      and either no context has the requested name, or the earliest one that
      has it lacks a name, a user or a token. */
  lemma InvalidContextCases(store: Store, hostKey: string, name: string)
    ensures Resolution(store, hostKey, name) == Err(InvalidContext) <==>
      && hostKey in store
      && ((forall i :: 0 <= i < |store[hostKey].contexts| ==> store[hostKey].contexts[i].name != name)
          || exists k :: IsFirstMatch(store[hostKey].contexts, name, k) && !IsValid(store[hostKey].contexts[k]))
  {
    if hostKey in store {
      var cs := store[hostKey].contexts;
      if exists i :: 0 <= i < |cs| && cs[i].name == name {
        var i :| 0 <= i < |cs| && cs[i].name == name;
        var k := EarliestMatch(cs, name, i);
        FirstMatchIsEarliest(cs, name, k);
        forall k' | IsFirstMatch(cs, name, k') ensures k' == k { }
      }
    }
  }

  /** A context missing any of its three fields is refused even when it is
      the first one with the requested name. */
  lemma IncompleteContextRejected(store: Store, hostKey: string, name: string, k: int)
    requires hostKey in store && IsFirstMatch(store[hostKey].contexts, name, k)
    requires var c := store[hostKey].contexts[k]; c.name == "" || c.user == "" || c.token == ""
    ensures Resolution(store, hostKey, name) == Err(InvalidContext)
  {
    FirstMatchIsEarliest(store[hostKey].contexts, name, k);
  }

  /** Given any matching position, the earliest matching position. */
  lemma EarliestMatch(cs: seq<Context>, name: string, i: int) returns (k: int)
    requires 0 <= i < |cs| && cs[i].name == name
    ensures IsFirstMatch(cs, name, k) && k <= i
  {
    if exists j :: 0 <= j < i && cs[j].name == name {
      var j :| 0 <= j < i && cs[j].name == name;
      k := EarliestMatch(cs, name, j);
    } else {
      k := i;
    }
  }

  /** The resolution step as the program performs it: look the host key up,
      run the selection loop, then check validity. */
  method ResolveContext(store: Store, hostKey: string, name: string) returns (r: Result<Selection>)
    ensures r == Resolution(store, hostKey, name)
  {
    if hostKey !in store {
      return Err(HostNotFound);
    }
    var entry := store[hostKey];
    var hostCtx := SelectContext(entry.contexts, name);
    if !IsValid(hostCtx) {
      return Err(InvalidContext);
    }
    r := Ok(Selection(entry.host, hostCtx));
  }
}
