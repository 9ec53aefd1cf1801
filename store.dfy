/** The object store behind controller-runtime's client: records keyed by
    (kind, namespace, name). A call on a key in `failing` answers a transient
    backend error; otherwise Create answers AlreadyExists on a present key and
    Get, Update and Delete answer NotFound on an absent one. `State` is the
    store as a value; the `Store` class is the store the managers mutate. */
module Store {
  import opened Wrappers
  import opened Resources

  datatype Kind =
    | SecretKind
    | CertificateKind
    | MultiClusterServiceKind
    | ClusterDeploymentKind
    | CredentialKind
    | RegionKind
    | ServiceAccountKind

  /** Cluster-scoped kinds are addressed with the empty namespace. */
  datatype Key = Key(kind: Kind, namespace: string, name: string)

  datatype ApiError = NotFound | AlreadyExists | Unavailable

  /** An error as the operator returns it: straight from the store, wrapped with
      a context message, or created by the operator itself. */
  datatype Error =
    | Api(code: ApiError)
    | Wrapped(context: string, cause: Error)
    | Fault(message: string)

  datatype Object =
    | SecretObj(secret: Secret)
    | CertificateObj(certificate: Certificate)
    | MultiClusterServiceObj(mcs: MultiClusterService)
    | ClusterDeploymentObj(cd: ClusterDeployment)
    | CredentialObj(credential: Credential)
    | RegionObj(region: Region)
    | ServiceAccountObj(serviceAccount: ServiceAccount)

  datatype State = State(objects: map<Key, Object>, failing: set<Key>, events: seq<Event>) {

    function Get(k: Key): (r: Result<Object, ApiError>)
      ensures r.Ok? <==> k !in failing && k in objects
      ensures r.Ok? ==> r.value == objects[k]
      ensures r.Err? ==> r.error == (if k in failing then Unavailable else NotFound)
    {
      if k in failing then Err(Unavailable)
      else if k in objects then Ok(objects[k])
      else Err(NotFound)
    }

    function GetSecret(namespace: string, name: string): Result<Secret, ApiError> {
      match Get(Key(SecretKind, namespace, name))
      case Err(e) => Err(e)
      case Ok(o) => if o.SecretObj? then Ok(o.secret) else Err(NotFound)
    }

    function GetClusterDeployment(namespace: string, name: string): Result<ClusterDeployment, ApiError> {
      match Get(Key(ClusterDeploymentKind, namespace, name))
      case Err(e) => Err(e)
      case Ok(o) => if o.ClusterDeploymentObj? then Ok(o.cd) else Err(NotFound)
    }

    function GetCredential(namespace: string, name: string): Result<Credential, ApiError> {
      match Get(Key(CredentialKind, namespace, name))
      case Err(e) => Err(e)
      case Ok(o) => if o.CredentialObj? then Ok(o.credential) else Err(NotFound)
    }

    function GetRegion(name: string): Result<Region, ApiError> {
      match Get(Key(RegionKind, "", name))
      case Err(e) => Err(e)
      case Ok(o) => if o.RegionObj? then Ok(o.region) else Err(NotFound)
    }

    function GetServiceAccount(namespace: string, name: string): Result<ServiceAccount, ApiError> {
      match Get(Key(ServiceAccountKind, namespace, name))
      case Err(e) => Err(e)
      case Ok(o) => if o.ServiceAccountObj? then Ok(o.serviceAccount) else Err(NotFound)
    }

    function CreateError(k: Key): Option<ApiError> {
      if k in failing then Some(Unavailable)
      else if k in objects then Some(AlreadyExists)
      else None
    }

    /** The store after a Create of `o` at `k`: written only when the call succeeds. */
    function Create(k: Key, o: Object): (s: State)
      ensures s.failing == failing && s.events == events
      ensures s.objects == if CreateError(k).None? then objects[k := o] else objects
    {
      if CreateError(k).None? then this.(objects := objects[k := o]) else this
    }

    function DeleteError(k: Key): Option<ApiError> {
      if k in failing then Some(Unavailable)
      else if k !in objects then Some(NotFound)
      else None
    }

    function Delete(k: Key): (s: State)
      ensures s.failing == failing && s.events == events
      ensures s.objects == if DeleteError(k).None? then objects - {k} else objects
      ensures k !in s.objects <==> k !in objects || DeleteError(k).None?
    {
      if DeleteError(k).None? then this.(objects := objects - {k}) else this
    }

    function UpdateError(k: Key): Option<ApiError> {
      if k in failing then Some(Unavailable)
      else if k !in objects then Some(NotFound)
      else None
    }

    function Update(k: Key, o: Object): (s: State)
      ensures s.failing == failing && s.events == events
      ensures s.objects == if UpdateError(k).None? then objects[k := o] else objects
    {
      if UpdateError(k).None? then this.(objects := objects[k := o]) else this
    }

    function Emit(e: Event): (s: State)
      ensures s.objects == objects && s.failing == failing && s.events == events + [e]
    {
      this.(events := events + [e])
    }
  }

  /** What a manager step leaves behind: the new store and the error it returns. */
  datatype Outcome = Outcome(state: State, err: Option<Error>)

  /** Two stores hold the same thing, or nothing, at `k`. */
  ghost predicate AgreesAt(s: State, t: State, k: Key) {
    (k in s.objects <==> k in t.objects) && (k in s.objects ==> s.objects[k] == t.objects[k])
  }

  /** The API server as the operator's client sees it. `failing` is fixed for a
      run: the backend's faults are an input, not something the operator changes. */
  class Store {
    var objects: map<Key, Object>
    var failing: set<Key>
    var events: seq<Event>

    function View(): State
      reads this
    {
      State(objects, failing, events)
    }

    constructor (objects: map<Key, Object>, failing: set<Key>)
      ensures View() == State(objects, failing, [])
    {
      this.objects := objects;
      this.failing := failing;
      this.events := [];
    }

    method Create(k: Key, o: Object) returns (err: Option<ApiError>)
      modifies this`objects
      ensures err == old(View()).CreateError(k)
      ensures View() == old(View()).Create(k, o)
    {
      err := View().CreateError(k);
      if err.None? {
        objects := objects[k := o];
      }
    }

    method Delete(k: Key) returns (err: Option<ApiError>)
      modifies this`objects
      ensures err == old(View()).DeleteError(k)
      ensures View() == old(View()).Delete(k)
    {
      err := View().DeleteError(k);
      if err.None? {
        objects := objects - {k};
      }
    }

    method Update(k: Key, o: Object) returns (err: Option<ApiError>)
      modifies this`objects
      ensures err == old(View()).UpdateError(k)
      ensures View() == old(View()).Update(k, o)
    {
      err := View().UpdateError(k);
      if err.None? {
        objects := objects[k := o];
      }
    }

    /** record.Event / record.Warn: append an event. */
    method Record(e: Event)
      modifies this`events
      ensures View() == old(View()).Emit(e)
    {
      events := events + [e];
    }
  }
}
