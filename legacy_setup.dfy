/**
 * Setup of the older backend (internal/backend/setup.go, repeated in
 * internal/backend/kubernetes.go): create the namespace or find it, then
 * create the credentials secret or overwrite the StringData of the existing
 * one.  The API server is a store object; which calls fail for reasons other
 * than the store's state (network, permissions) is given by `Faults`.
 */
module LegacySetup {
  import opened Wrappers

  const SecretName := "bca-credentials"

  /** A Secret as Setup handles it: its StringData. */
  datatype Secret = Secret(stringData: map<string, string>)

  datatype Call =
    | CreateNamespace(ns: string)
    | GetNamespace(ns: string)
    | CreateSecret(ns: string, name: string)
    | GetSecret(ns: string, name: string)
    | UpdateSecret(ns: string, name: string)
  {
    predicate WritesSecret() { CreateSecret? || UpdateSecret? }
    predicate OnNamespace() { CreateNamespace? || GetNamespace? }
  }

  /** Which calls fail regardless of the store's state, and with what error. */
  datatype Faults = Faults(
    createNamespace: Option<string>,
    getNamespace: Option<string>,
    createSecret: Option<string>,
    getSecret: Option<string>,
    updateSecret: Option<string>)

  const NoFaults := Faults(None, None, None, None, None)

  /** The API server: namespaces, secrets keyed by (namespace, name), and the
    * calls made so far. */
  class Cluster {
    var namespaces: set<string>
    var secrets: map<(string, string), Secret>
    var calls: seq<Call>

    constructor (namespaces: set<string>, secrets: map<(string, string), Secret>)
      ensures this.namespaces == namespaces && this.secrets == secrets && calls == []
    {
      this.namespaces := namespaces;
      this.secrets := secrets;
      calls := [];
    }

    /** Create fails when the namespace already exists. */
    method CreateNamespace(ns: string, fault: Option<string>) returns (r: Result<(), string>)
      modifies this
      ensures calls == old(calls) + [Call.CreateNamespace(ns)] && secrets == old(secrets)
      ensures r.Ok? <==> fault.None? && ns !in old(namespaces)
      ensures namespaces == if r.Ok? then old(namespaces) + {ns} else old(namespaces)
    {
      calls := calls + [Call.CreateNamespace(ns)];
      if fault.Some? {
        return Err(fault.value);
      }
      if ns in namespaces {
        return Err("namespaces \"" + ns + "\" already exists");
      }
      namespaces := namespaces + {ns};
      return Ok(());
    }

    method GetNamespace(ns: string, fault: Option<string>) returns (r: Result<(), string>)
      modifies this
      ensures calls == old(calls) + [Call.GetNamespace(ns)]
      ensures namespaces == old(namespaces) && secrets == old(secrets)
      ensures r.Ok? <==> fault.None? && ns in namespaces
    {
      calls := calls + [Call.GetNamespace(ns)];
      if fault.Some? {
        return Err(fault.value);
      }
      if ns !in namespaces {
        return Err("namespaces \"" + ns + "\" not found");
      }
      return Ok(());
    }

    /** Create fails when the secret exists or its namespace does not. */
    method CreateSecret(ns: string, name: string, s: Secret, fault: Option<string>) returns (r: Result<(), string>)
      modifies this
      ensures calls == old(calls) + [Call.CreateSecret(ns, name)] && namespaces == old(namespaces)
      ensures r.Ok? <==> fault.None? && ns in namespaces && (ns, name) !in old(secrets)
      ensures secrets == if r.Ok? then old(secrets)[(ns, name) := s] else old(secrets)
    {
      calls := calls + [Call.CreateSecret(ns, name)];
      if fault.Some? {
        return Err(fault.value);
      }
      if ns !in namespaces || (ns, name) in secrets {
        return Err("cannot create secret " + name);
      }
      secrets := secrets[(ns, name) := s];
      return Ok(());
    }

    method GetSecret(ns: string, name: string, fault: Option<string>) returns (r: Result<Secret, string>)
      modifies this
      ensures calls == old(calls) + [Call.GetSecret(ns, name)]
      ensures namespaces == old(namespaces) && secrets == old(secrets)
      ensures r.Ok? <==> fault.None? && (ns, name) in secrets
      ensures r.Ok? ==> r.value == secrets[(ns, name)]
    {
      calls := calls + [Call.GetSecret(ns, name)];
      if fault.Some? {
        return Err(fault.value);
      }
      if (ns, name) !in secrets {
        return Err("secrets \"" + name + "\" not found");
      }
      return Ok(secrets[(ns, name)]);
    }

    /** Update replaces a stored secret. */
    method UpdateSecret(ns: string, name: string, s: Secret, fault: Option<string>) returns (r: Result<(), string>)
      modifies this
      ensures calls == old(calls) + [Call.UpdateSecret(ns, name)] && namespaces == old(namespaces)
      ensures r.Ok? <==> fault.None? && (ns, name) in old(secrets)
      ensures fault.Some? ==> r == Err(fault.value)
      ensures secrets == if r.Ok? then old(secrets)[(ns, name) := s] else old(secrets)
    {
      calls := calls + [Call.UpdateSecret(ns, name)];
      if fault.Some? {
        return Err(fault.value);
      }
      if (ns, name) !in secrets {
        return Err("secrets \"" + name + "\" not found");
      }
      secrets := secrets[(ns, name) := s];
      return Ok(());
    }
  }

  /** Setup's errors, wrapping the failing call's error. */
  datatype SetupError = NamespaceFailed(cause: string) | SecretFailed(cause: string) | UpdateFailed(cause: string)
  {
    function Message(): string {
      match this
      case NamespaceFailed(e) => "failed to create or get namespace: " + e
      case SecretFailed(e) => "failed to create or get secret: " + e
      case UpdateFailed(e) => "failed to update secret: " + e
    }
  }

  /** The namespace step succeeds: Create works, or Get finds the namespace. */
  predicate NamespaceReady(f: Faults, namespaces: set<string>, ns: string) {
    (f.createNamespace.None? && ns !in namespaces) || (f.getNamespace.None? && ns in namespaces)
  }

  function NamespaceCalls(f: Faults, namespaces: set<string>, ns: string): seq<Call> {
    if f.createNamespace.None? && ns !in namespaces then [Call.CreateNamespace(ns)]
    else [Call.CreateNamespace(ns), Call.GetNamespace(ns)]
  }

  /**
   * Setup.  Any namespace Create error falls back to Get; a failing Get
   * stops before any secret call.  A failing secret Create falls back to Get,
   * then the StringData of the fetched secret is replaced and it is updated.
   * Secrets other than bca-credentials in this namespace never change.
   */
  method Setup(c: Cluster, namespace: string, credentials: map<string, string>, f: Faults)
    returns (r: Result<(), SetupError>)
    modifies c
    ensures var key := (namespace, SecretName);
      var nsCalls := old(c.calls) + NamespaceCalls(f, old(c.namespaces), namespace);
      && c.namespaces == old(c.namespaces) + (if NamespaceReady(f, old(c.namespaces), namespace) then {namespace} else {})
      && (!NamespaceReady(f, old(c.namespaces), namespace) ==>
            r.Err? && r.error.NamespaceFailed? && c.calls == nsCalls && c.secrets == old(c.secrets))
      && (NamespaceReady(f, old(c.namespaces), namespace) && f.createSecret.None? && key !in old(c.secrets) ==>
            r.Ok? && c.calls == nsCalls + [Call.CreateSecret(namespace, SecretName)] &&
            c.secrets == old(c.secrets)[key := Secret(credentials)])
      && (NamespaceReady(f, old(c.namespaces), namespace) && !(f.createSecret.None? && key !in old(c.secrets)) ==>
            if f.getSecret.Some? || key !in old(c.secrets) then
              r.Err? && r.error.SecretFailed? && c.secrets == old(c.secrets) &&
              c.calls == nsCalls + [Call.CreateSecret(namespace, SecretName), Call.GetSecret(namespace, SecretName)]
            else
              c.calls == nsCalls + [Call.CreateSecret(namespace, SecretName), Call.GetSecret(namespace, SecretName),
                                    Call.UpdateSecret(namespace, SecretName)] &&
              if f.updateSecret.None? then
                r.Ok? && c.secrets == old(c.secrets)[key := old(c.secrets)[key].(stringData := credentials)]
              else
                r == Err(UpdateFailed(f.updateSecret.value)) && c.secrets == old(c.secrets))
    ensures r.Ok? ==> (namespace in c.namespaces &&
      (namespace, SecretName) in c.secrets && c.secrets[(namespace, SecretName)].stringData == credentials)
    ensures f == NoFaults ==> r.Ok?
  {
    var nsResult := c.CreateNamespace(namespace, f.createNamespace);
    if nsResult.Err? {
      var got := c.GetNamespace(namespace, f.getNamespace);
      if got.Err? {
        return Err(NamespaceFailed(got.error));
      }
    }
    var secret := Secret(credentials);
    var created := c.CreateSecret(namespace, SecretName, secret, f.createSecret);
    if created.Err? {
      var existing := c.GetSecret(namespace, SecretName, f.getSecret);
      if existing.Err? {
        return Err(SecretFailed(existing.error));
      }
      var updated := existing.value.(stringData := secret.stringData);
      var res := c.UpdateSecret(namespace, SecretName, updated, f.updateSecret);
      if res.Err? {
        return Err(UpdateFailed(res.error));
      }
    }
    return Ok(());
  }

  /** Running Setup twice with different credentials, as a second `setup`
    * invocation does: both succeed and the secret then holds every key of the
    * second map with its new value. */
  method SetupTwice(namespace: string, first: map<string, string>, second: map<string, string>)
    returns (c: Cluster, r1: Result<(), SetupError>, r2: Result<(), SetupError>)
    ensures r1.Ok? && r2.Ok?
    ensures namespace in c.namespaces && (namespace, SecretName) in c.secrets
    ensures forall k :: k in second ==> (k in c.secrets[(namespace, SecretName)].stringData &&
      c.secrets[(namespace, SecretName)].stringData[k] == second[k])
  {
    c := new Cluster({}, map[]);
    r1 := Setup(c, namespace, first, NoFaults);
    r2 := Setup(c, namespace, second, NoFaults);
  }
}
