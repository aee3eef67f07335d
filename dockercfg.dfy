/** Locating the registry-push credential of a namespace
    (`getDockercfg` in controllers/falcon/phase_building.go).

    The secrets of the namespace arrive, in the order the cluster listed
    them, as the result of the list call; the lookup returns the
    `.dockercfg` payload of the first secret that passes four checks. */
module Dockercfg {
  import opened Wrappers

  type Bytes = seq<bv8>

  const DockercfgSecretType: string := "kubernetes.io/dockercfg"
  const ServiceAccountAnnotation: string := "kubernetes.io/service-account.name"
  const BuilderServiceAccount: string := "builder"
  const DockercfgKey: string := ".dockercfg"

  /** A cluster secret, reduced to the parts the lookup reads. A Go map
      that is nil is `None`; a non-nil map, even an empty one, is `Some`. */
  datatype Secret = Secret(
    secretType: string,
    annotations: Option<map<string, string>>,
    data: Option<map<string, Bytes>>)

  /** Go's `m[k]` on a map of strings: the zero value "" when `k` is absent. */
  function Lookup(m: map<string, string>, k: string): string {
    if k in m then m[k] else ""
  }

  /** The four checks of the search loop, in the order the loop makes them. */
  predicate Qualifies(s: Secret) {
    && s.data.Some?
    && s.secretType == DockercfgSecretType
    && s.annotations.Some? && Lookup(s.annotations.value, ServiceAccountAnnotation) == BuilderServiceAccount
    && DockercfgKey in s.data.value
  }

  /** The credential a qualifying secret carries. */
  function Payload(s: Secret): Bytes
    requires Qualifies(s)
  {
    s.data.value[DockercfgKey]
  }

  /** `items[i]` is the first secret of `items` that qualifies. */
  ghost predicate FirstQualifying(items: seq<Secret>, i: int) {
    && 0 <= i < |items|
    && Qualifies(items[i])
    && forall j :: 0 <= j < i ==> !Qualifies(items[j])
  }

  /** The search over the listed secrets: the payload of the first one, in
      list order, that qualifies; `None` when none does. */
  function FirstDockercfg(items: seq<Secret>): Option<Bytes> {
    if items == [] then None
    else if Qualifies(items[0]) then Some(Payload(items[0]))
    else FirstDockercfg(items[1..])
  }

  /** The search finds a credential exactly when some listed secret
      qualifies, and what it finds is the payload of the first such secret. */
  lemma {:induction false} FirstDockercfgFinds(items: seq<Secret>)
    ensures FirstDockercfg(items).Some? <==> exists i :: 0 <= i < |items| && Qualifies(items[i])
    ensures FirstDockercfg(items).Some? ==>
      exists i :: FirstQualifying(items, i) && FirstDockercfg(items).value == Payload(items[i])
  {
    if items == [] {
    } else if Qualifies(items[0]) {
      assert FirstQualifying(items, 0);
    } else {
      FirstDockercfgFinds(items[1..]);
      if exists i :: 0 <= i < |items| && Qualifies(items[i]) {
        var i :| 0 <= i < |items| && Qualifies(items[i]);
        assert items[1..][i - 1] == items[i];
      }
      if FirstDockercfg(items).Some? {
        var i :| FirstQualifying(items[1..], i) && FirstDockercfg(items[1..]).value == Payload(items[1..][i]);
        assert FirstQualifying(items, i + 1);
      }
    }
  }

  const NotFoundPrefix: string := "Cannot find suitable secret in namespace "

  /** The text of the error returned when no secret qualifies: it names the
      namespace right after the fixed prefix. */
  function NotFoundMessage(namespace: string): (m: string)
    ensures OccursAt(m, NotFoundPrefix, 0)
    ensures OccursAt(m, namespace, |NotFoundPrefix|)
  {
    NotFoundPrefix + namespace + " to push falcon-image to the registry"
  }

  /** `word` occurs in `text` starting at index `k`. */
  ghost predicate OccursAt(text: string, word: string, k: int) {
    0 <= k && k + |word| <= |text| && text[k..k + |word|] == word
  }

  /** `word` occurs somewhere in `text`. */
  ghost predicate Mentions(text: string, word: string) {
    exists k :: OccursAt(text, word, k)
  }

  /** Go's pair of results `([]byte, error)`. */
  datatype Fetched = Fetched(payload: Bytes, err: Option<Error>)

  /** What `getDockercfg` returns, given the outcome of listing the
      namespace's secrets. */
  function LookupDockercfg(namespace: string, listed: Result<seq<Secret>>): Fetched {
    match listed
    case Err(e) => Fetched([], Some(e))
    case Ok(items) =>
      match FirstDockercfg(items)
      case Some(value) => Fetched(value, None)
      case None => Fetched([], Some(NotFoundMessage(namespace)))
  }

  /** `getDockercfg` succeeds exactly when the list call succeeded and some
      listed secret qualifies, and then returns the payload of the first
      one; otherwise it returns no bytes, and either the list call's own
      error or an error naming the namespace. */
  lemma LookupDockercfgContract(namespace: string, listed: Result<seq<Secret>>)
    ensures var r := LookupDockercfg(namespace, listed);
      && (r.err.Some? ==> r.payload == [])
      && (listed.Err? ==> r.err == Some(listed.error))
      && (listed.Ok? ==> (r.err.None? <==> exists i :: 0 <= i < |listed.value| && Qualifies(listed.value[i])))
      && (listed.Ok? && r.err.Some? ==> Mentions(r.err.value, namespace))
      && (r.err.None? ==> listed.Ok? && exists i :: FirstQualifying(listed.value, i) && r.payload == Payload(listed.value[i]))
  {
    if listed.Ok? {
      FirstDockercfgFinds(listed.value);
    }
    if listed.Ok? && FirstDockercfg(listed.value).None? {
      assert OccursAt(NotFoundMessage(namespace), namespace, |NotFoundPrefix|);
    }
  }

  /** `getDockercfg` after its list call: a loop over the listed secrets
      that skips each one failing a check and returns at the first that
      passes them all. */
  method GetDockercfg(namespace: string, listed: Result<seq<Secret>>) returns (payload: Bytes, err: Option<Error>)
    ensures Fetched(payload, err) == LookupDockercfg(namespace, listed)
  {
    if listed.Err? {
      return [], Some(listed.error);
    }
    var items := listed.value;
    var i := 0;
    while i < |items|
      invariant 0 <= i <= |items|
      invariant FirstDockercfg(items) == FirstDockercfg(items[i..])
    {
      var secret := items[i];
      assert items[i..][1..] == items[i + 1..];
      i := i + 1;
      if secret.data.None? {
        continue;
      }
      if secret.secretType != DockercfgSecretType {
        continue;
      }
      if secret.annotations.None? || Lookup(secret.annotations.value, ServiceAccountAnnotation) != BuilderServiceAccount {
        continue;
      }
      if DockercfgKey !in secret.data.value {
        continue;
      }
      return secret.data.value[DockercfgKey], None;
    }
    return [], Some(NotFoundMessage(namespace));
  }

  /** The first qualifying secret decides the result, whatever follows it. */
  lemma {:induction false} FirstDockercfgAt(items: seq<Secret>, i: int)
    requires FirstQualifying(items, i)
    ensures FirstDockercfg(items) == Some(Payload(items[i]))
  {
    if i > 0 {
      assert FirstQualifying(items[1..], i - 1);
      FirstDockercfgAt(items[1..], i - 1);
    }
  }

  /** Secrets that fail a check and come before the rest do not affect the
      result. */
  lemma {:induction false} SkipRejected(rejected: seq<Secret>, rest: seq<Secret>)
    requires forall j :: 0 <= j < |rejected| ==> !Qualifies(rejected[j])
    ensures FirstDockercfg(rejected + rest) == FirstDockercfg(rest)
  {
    if rejected != [] {
      var all := rejected + rest;
      assert all[0] == rejected[0] && !Qualifies(all[0]);
      assert all[1..] == rejected[1..] + rest;
      assert FirstDockercfg(all) == FirstDockercfg(all[1..]);
      SkipRejected(rejected[1..], rest);
    } else {
      assert rejected + rest == rest;
    }
  }

  /** A secret failing a check is never selected: taking it out of the list,
      wherever it stands, leaves the result unchanged. */
  lemma {:induction false} RemoveRejected(items: seq<Secret>, k: int)
    requires 0 <= k < |items| && !Qualifies(items[k])
    ensures FirstDockercfg(items) == FirstDockercfg(items[..k] + items[k + 1..])
  {
    var rest := items[..k] + items[k + 1..];
    if k > 0 {
      assert rest[0] == items[0];
      if !Qualifies(items[0]) {
        assert rest[1..] == items[1..][..k - 1] + items[1..][k..];
        RemoveRejected(items[1..], k - 1);
      }
    } else {
      assert rest == items[1..];
    }
  }

  /** When exactly one listed secret qualifies, its payload is the result
      whatever order the cluster lists the secrets in. */
  lemma SingleQualifyingIsOrderIndependent(items: seq<Secret>, i: int, reordered: seq<Secret>)
    requires 0 <= i < |items| && Qualifies(items[i])
    requires forall j :: 0 <= j < |items| && j != i ==> !Qualifies(items[j])
    requires multiset(reordered) == multiset(items)
    ensures FirstDockercfg(items) == FirstDockercfg(reordered) == Some(Payload(items[i]))
  {
    FirstDockercfgAt(items, i);
    assert items[i] in multiset(reordered);
    var r := FirstDockercfg(reordered);
    var n :| 0 <= n < |reordered| && reordered[n] == items[i];
    FirstDockercfgFinds(reordered);
    var k :| FirstQualifying(reordered, k) && r.value == Payload(reordered[k]);
    assert reordered[k] in multiset(items);
    var m :| 0 <= m < |items| && items[m] == reordered[k];
  }

  /** When no listed secret qualifies, no reordering of the list finds a
      credential either. */
  lemma NoQualifyingIsOrderIndependent(items: seq<Secret>, reordered: seq<Secret>)
    requires forall j :: 0 <= j < |items| ==> !Qualifies(items[j])
    requires multiset(reordered) == multiset(items)
    ensures FirstDockercfg(items) == FirstDockercfg(reordered) == None
  {
    FirstDockercfgFinds(items);
    FirstDockercfgFinds(reordered);
    forall k | 0 <= k < |reordered|
      ensures !Qualifies(reordered[k])
    {
      assert reordered[k] in multiset(items);
    }
  }

  /** Reading a nil map as an empty one, which is what Go's map lookup
      does, the nil checks on `Data` and `Annotations` select nothing the
      remaining checks would not: a secret qualifies exactly when its type
      is right, its service-account annotation is "builder" and its data
      holds a `.dockercfg` entry, so in particular its data is non-empty. */
  lemma QualifiesWithoutNilChecks(s: Secret)
    ensures Qualifies(s) <==>
      && s.secretType == DockercfgSecretType
      && Lookup(if s.annotations.Some? then s.annotations.value else map[], ServiceAccountAnnotation) == BuilderServiceAccount
      && DockercfgKey in (if s.data.Some? then s.data.value else map[])
    ensures Qualifies(s) ==> |s.data.value| > 0
  {
    if Qualifies(s) {
      assert s.data.value.Keys != {};
    }
  }

  /** A namespace holding only the builder's dockercfg secret yields its
      payload. */
  lemma SingleBuilderSecretFound()
    ensures LookupDockercfg("ns1", Ok([Secret(DockercfgSecretType,
      Some(map[ServiceAccountAnnotation := BuilderServiceAccount]),
      Some(map[DockercfgKey := [0x58, 0x59, 0x5A]]))])) == Fetched([0x58, 0x59, 0x5A], None)
  {
  }

  /** A namespace without secrets yields an error naming the namespace. */
  lemma EmptyNamespaceNotFound()
    ensures var r := LookupDockercfg("ns1", Ok([]));
      r.payload == [] && r.err == Some(NotFoundMessage("ns1")) && Mentions(r.err.value, "ns1")
  {
    LookupDockercfgContract("ns1", Ok([]));
  }
}
