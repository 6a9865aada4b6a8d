/**
 Ensuring the read-only service account, role and binding (internal/capi/readonly.go) against
 a model of the API server: Create refuses an object that exists, Update one that does not,
 and Update refuses to change a binding's roleRef. Any call may in addition fail on the way
 there, leaving the server unchanged, or on the way back, after it has taken effect.
 */
module ReadOnlyRbac {
  import opened Outcomes

  const SA_NAME := "capi-shell-mcp-read-only"
  const SA_NAMESPACE := "kube-system"

  datatype Rule = Rule(apiGroups: seq<string>, resources: seq<string>, nonResourceUrls: seq<string>, verbs: seq<string>)
  datatype RoleRef = RoleRef(apiGroup: string, kind: string, name: string)
  datatype Subject = Subject(kind: string, name: string, ns: string)
  datatype Binding = Binding(roleRef: RoleRef, subjects: seq<Subject>)

  const READ_ONLY_RULES := [
    Rule(["*"], ["*"], [], ["get", "list", "watch"]),
    Rule([], [], ["*"], ["get"])]

  const READ_ONLY_BINDING := Binding(
    RoleRef("rbac.authorization.k8s.io", "ClusterRole", SA_NAME),
    [Subject("ServiceAccount", SA_NAME, SA_NAMESPACE)])

  datatype Account = Account(ns: string, name: string)

  datatype Objects = Objects(accounts: set<Account>, roles: map<string, seq<Rule>>, bindings: map<string, Binding>)

  datatype Reason = AlreadyExists | NotFound | Invalid | Other
  datatype ApiError = ApiError(reason: Reason, message: string)

  /** What befalls one call: nothing, or it fails before or after the server acts on it. */
  datatype Fault = NoFault | RequestLost(message: string) | ResponseLost(message: string)

  predicate HasAt(s: string, i: nat, sub: string)
    requires i <= |s|
  {
    sub <= s[i..]
  }

  predicate Contains(s: string, sub: string) {
    exists i | 0 <= i <= |s| :: HasAt(s, i, sub)
  }

  predicate IsImmutableRoleRefError(e: ApiError) {
    e.reason == Invalid && Contains(e.message, "roleRef") && Contains(e.message, "immutable")
  }

  /** `sub` occurs somewhere in `s`. */
  lemma ContainsIff(s: string, sub: string)
    ensures Contains(s, sub) <==> exists before, after :: s == before + sub + after
  {
    if i :| 0 <= i <= |s| && HasAt(s, i, sub) {
      assert s == s[..i] + sub + s[i + |sub|..];
    }
    if before, after :| s == before + sub + after {
      assert s[|before|..] == sub + after;
      assert HasAt(s, |before|, sub);
    }
  }

  // ---------------------------------------------------------------- what a binding grants

  datatype Access = OnResource(verb: string, apiGroup: string, resource: string) | OnUrl(verb: string, url: string)

  predicate Covers(listed: seq<string>, x: string) {
    "*" in listed || x in listed
  }

  predicate Allows(rule: Rule, a: Access) {
    match a
    case OnResource(verb, group, resource) =>
      Covers(rule.verbs, verb) && Covers(rule.apiGroups, group) && Covers(rule.resources, resource)
    case OnUrl(verb, url) => Covers(rule.verbs, verb) && Covers(rule.nonResourceUrls, url)
  }

  /** The binding grants `who` the access, by some rule of the cluster role it refers to, as that role now is. */
  predicate Grants(o: Objects, binding: string, who: Subject, a: Access) {
    binding in o.bindings &&
    var b := o.bindings[binding];
    && who in b.subjects && b.roleRef.apiGroup == "rbac.authorization.k8s.io" && b.roleRef.kind == "ClusterRole"
    && b.roleRef.name in o.roles && exists rule | rule in o.roles[b.roleRef.name] :: Allows(rule, a)
  }

  /** Reading anything, for the read-only account; nothing else, and nobody else. */
  predicate MayRead(who: Subject, a: Access) {
    && who == Subject("ServiceAccount", "capi-shell-mcp-read-only", "kube-system")
    && match a
       case OnResource(verb, _, _) => verb == "get" || verb == "list" || verb == "watch"
       case OnUrl(verb, _) => verb == "get"
  }

  /** The account exists, and its binding lets it read everything and do nothing else. */
  ghost predicate ReadsAndNoMore(o: Objects) {
    && Account("kube-system", "capi-shell-mcp-read-only") in o.accounts
    && forall who, a :: Grants(o, "capi-shell-mcp-read-only", who, a) <==> MayRead(who, a)
  }

  // ---------------------------------------------------------------- the API server

  datatype Request =
    | CreateAccount(account: Account)
    | CreateRole(name: string, rules: seq<Rule>) | UpdateRole(name: string, rules: seq<Rule>)
    | CreateBinding(name: string, binding: Binding) | UpdateBinding(name: string, binding: Binding)
    | DeleteBinding(name: string)

  datatype Reply = Reply(after: Objects, err: Option<ApiError>)

  function Refuse(o: Objects, reason: Reason, message: string): Reply {
    Reply(o, Some(ApiError(reason, message)))
  }

  /** What the server does with a request; a changed roleRef is reported as `roleRefMessage`. */
  function Handle(o: Objects, req: Request, roleRefMessage: string): Reply {
    match req
    case CreateAccount(a) =>
      if a in o.accounts then Refuse(o, AlreadyExists, "serviceaccount exists")
      else Reply(o.(accounts := o.accounts + {a}), None)
    case CreateRole(n, rules) =>
      if n in o.roles then Refuse(o, AlreadyExists, "clusterrole exists")
      else Reply(o.(roles := o.roles[n := rules]), None)
    case UpdateRole(n, rules) =>
      if n !in o.roles then Refuse(o, NotFound, "clusterrole not found")
      else Reply(o.(roles := o.roles[n := rules]), None)
    case CreateBinding(n, b) =>
      if n in o.bindings then Refuse(o, AlreadyExists, "clusterrolebinding exists")
      else Reply(o.(bindings := o.bindings[n := b]), None)
    case UpdateBinding(n, b) =>
      if n !in o.bindings then Refuse(o, NotFound, "clusterrolebinding not found")
      else if o.bindings[n].roleRef != b.roleRef then Refuse(o, Invalid, roleRefMessage)
      else Reply(o.(bindings := o.bindings[n := b]), None)
    case DeleteBinding(n) =>
      if n !in o.bindings then Refuse(o, NotFound, "clusterrolebinding not found")
      else Reply(o.(bindings := o.bindings - {n}), None)
  }

  function Next(faults: seq<Fault>): Fault {
    if faults == [] then NoFault else faults[0]
  }

  function Rest(faults: seq<Fault>): seq<Fault> {
    if faults == [] then [] else faults[1..]
  }

  predicate Faultless(faults: seq<Fault>) {
    forall f | f in faults :: f == NoFault
  }

  lemma FaultlessOn(faults: seq<Fault>)
    requires Faultless(faults)
    ensures Next(faults) == NoFault && Faultless(Rest(faults))
  {
    if faults != [] {
      assert faults[0] in faults;
      forall f | f in faults[1..] ensures f == NoFault { assert f in faults; }
    }
  }

  class ApiServer {
    var objects: Objects
    var faults: seq<Fault>  // what is in store for the coming calls; nothing once used up
    const roleRefMessage: string

    constructor (objects: Objects, faults: seq<Fault>, roleRefMessage: string)
      ensures this.objects == objects && this.faults == faults && this.roleRefMessage == roleRefMessage
    {
      this.objects, this.faults, this.roleRefMessage := objects, faults, roleRefMessage;
    }

    method Call(req: Request) returns (err: Option<ApiError>)
      modifies this
      ensures faults == Rest(old(faults))
      ensures Faultless(old(faults)) ==> Next(old(faults)) == NoFault && Faultless(faults)
      ensures var reply := Handle(old(objects), req, roleRefMessage);
              match Next(old(faults))
              case NoFault => objects == reply.after && err == reply.err
              case RequestLost(m) => objects == old(objects) && err == Some(ApiError(Other, m))
              case ResponseLost(m) => objects == reply.after && err == Some(ApiError(Other, m))
    {
      if Faultless(faults) { FaultlessOn(faults); }
      var fault := Next(faults);
      faults := Rest(faults);
      var reply := Handle(objects, req, roleRefMessage);
      if !fault.RequestLost? {
        objects := reply.after;
      }
      err := if fault.NoFault? then reply.err else Some(ApiError(Other, fault.message));
    }
  }

  // ---------------------------------------------------------------- EnsureReadOnlyRBAC

  predicate Desired(o: Objects) {
    && Account(SA_NAMESPACE, SA_NAME) in o.accounts
    && SA_NAME in o.roles && o.roles[SA_NAME] == READ_ONLY_RULES
    && SA_NAME in o.bindings && o.bindings[SA_NAME] == READ_ONLY_BINDING
  }

  /** What is desired is an account that can read everything and do nothing else. */
  lemma DesiredReadsAndNoMore(o: Objects)
    requires Desired(o)
    ensures ReadsAndNoMore(o)
  {
    var b := o.bindings[SA_NAME];
    assert READ_ONLY_RULES[0] in READ_ONLY_RULES && READ_ONLY_RULES[1] in READ_ONLY_RULES;
    forall who, a ensures Grants(o, SA_NAME, who, a) <==> MayRead(who, a) {
      assert who in b.subjects <==> who == b.subjects[0];
      assert (exists rule | rule in READ_ONLY_RULES :: Allows(rule, a))
             <==> Allows(READ_ONLY_RULES[0], a) || Allows(READ_ONLY_RULES[1], a);
    }
  }

  /** No other object is touched, and no account goes away. */
  ghost predicate OthersKept(o: Objects, o': Objects) {
    && o.accounts <= o'.accounts <= o.accounts + {Account(SA_NAMESPACE, SA_NAME)}
    && o'.roles - {SA_NAME} == o.roles - {SA_NAME}
    && o'.bindings - {SA_NAME} == o.bindings - {SA_NAME}
  }

  /** The binding exists and refers to another role. */
  predicate ForeignRoleRef(o: Objects) {
    SA_NAME in o.bindings && o.bindings[SA_NAME].roleRef != READ_ONLY_BINDING.roleRef
  }

  /** A changed roleRef is reported in a form the code recognises. */
  predicate Recognised(roleRefMessage: string) {
    IsImmutableRoleRefError(ApiError(Invalid, roleRefMessage))
  }

  /** Lines 47-61: the account and the role. */
  method EnsureAccountAndRole(api: ApiServer) returns (err: Option<ApiError>)
    modifies api
    ensures var o, o' := old(api.objects), api.objects;
            && o.accounts <= o'.accounts <= o.accounts + {Account(SA_NAMESPACE, SA_NAME)}
            && o'.roles - {SA_NAME} == o.roles - {SA_NAME} && o'.bindings == o.bindings
            && (err.None? ==> Account(SA_NAMESPACE, SA_NAME) in o'.accounts
                              && SA_NAME in o'.roles && o'.roles[SA_NAME] == READ_ONLY_RULES)
            && (Desired(o) ==> o' == o)
    ensures Faultless(old(api.faults)) ==> err.None? && Faultless(api.faults)
  {
    err := api.Call(CreateAccount(Account(SA_NAMESPACE, SA_NAME)));
    if err.Some? && err.value.reason != AlreadyExists {
      return;
    }
    err := api.Call(CreateRole(SA_NAME, READ_ONLY_RULES));
    if err.Some? {
      if err.value.reason != AlreadyExists {
        return;
      }
      err := api.Call(UpdateRole(SA_NAME, READ_ONLY_RULES));
      assert Desired(old(api.objects)) ==> api.objects.roles == old(api.objects).roles;
    }
  }

  predicate BindingDesired(o: Objects) {
    SA_NAME in o.bindings && o.bindings[SA_NAME] == READ_ONLY_BINDING
  }

  /** Lines 71-81: the binding exists; it is updated, or deleted and recreated if its roleRef has changed. */
  method ReplaceBinding(api: ApiServer) returns (err: Option<ApiError>)
    requires SA_NAME in api.objects.bindings
    modifies api
    ensures var o, o' := old(api.objects), api.objects;
            && o'.accounts == o.accounts && o'.roles == o.roles && o'.bindings - {SA_NAME} == o.bindings - {SA_NAME}
            && (err.None? ==> BindingDesired(o')) && (ForeignRoleRef(o') ==> ForeignRoleRef(o))
            && (BindingDesired(o) ==> o' == o)
    ensures Faultless(old(api.faults)) ==>
              (err.None? <==> !ForeignRoleRef(old(api.objects)) || Recognised(api.roleRefMessage))
  {
    ghost var o := api.objects;
    err := api.Call(UpdateBinding(SA_NAME, READ_ONLY_BINDING));
    assert BindingDesired(o) ==> api.objects.bindings == o.bindings;
    if err.Some? {
      assert Faultless(old(api.faults)) ==> ForeignRoleRef(o) && err.value == ApiError(Invalid, api.roleRefMessage);
      if !IsImmutableRoleRefError(err.value) {
        return;
      }
      err := api.Call(DeleteBinding(SA_NAME));
      if err.Some? {
        return;
      }
      err := api.Call(CreateBinding(SA_NAME, READ_ONLY_BINDING));
    }
  }

  /** Lines 63-82: the binding, created, or replaced if it exists. */
  method EnsureBinding(api: ApiServer) returns (err: Option<ApiError>)
    modifies api
    ensures var o, o' := old(api.objects), api.objects;
            && o'.accounts == o.accounts && o'.roles == o.roles && o'.bindings - {SA_NAME} == o.bindings - {SA_NAME}
            && (err.None? ==> BindingDesired(o')) && (ForeignRoleRef(o') ==> ForeignRoleRef(o))
            && (BindingDesired(o) ==> o' == o)
    ensures Faultless(old(api.faults)) ==>
              (err.None? <==> !ForeignRoleRef(old(api.objects)) || Recognised(api.roleRefMessage))
  {
    err := api.Call(CreateBinding(SA_NAME, READ_ONLY_BINDING));
    if err.None? {
      return;
    }
    if err.value.reason != AlreadyExists {
      return;
    }
    err := ReplaceBinding(api);
  }

  /**
   From every initial state and under every pattern of faults: success means the desired state,
   no other object is touched, and a state that is already as desired is left as it is. Without
   faults the call succeeds if and only if the binding does not refer to another role, or the
   server's report of that is recognised.
   */
  method EnsureReadOnlyRBAC(api: ApiServer) returns (err: Option<ApiError>)
    modifies api
    ensures err.None? ==> Desired(api.objects) && ReadsAndNoMore(api.objects)
    ensures OthersKept(old(api.objects), api.objects)
    ensures Desired(old(api.objects)) ==> api.objects == old(api.objects)
    ensures ForeignRoleRef(api.objects) ==> ForeignRoleRef(old(api.objects))
    ensures Faultless(old(api.faults)) ==>
              (err.None? <==> !ForeignRoleRef(old(api.objects)) || Recognised(api.roleRefMessage))
  {
    err := EnsureAccountAndRole(api);
    if err.Some? {
      return;
    }
    err := EnsureBinding(api);
    if err.None? { DesiredReadsAndNoMore(api.objects); }
  }

  /**
   A run cut short at any call, between the delete and the recreate included, leaves a state
   from which a retry without faults succeeds if the call would have succeeded without faults
   in the first place; and whatever the report would have been, once the foreign binding is gone.
   */
  method EnsureThenRetry(api: ApiServer)
    returns (first: Option<ApiError>, ghost between: Objects, retry: Option<ApiError>)
    modifies api
    ensures retry.None? <==> !ForeignRoleRef(between) || Recognised(api.roleRefMessage)
    ensures ForeignRoleRef(between) ==> ForeignRoleRef(old(api.objects)) && first.Some?
    ensures retry.None? ==> Desired(api.objects) && ReadsAndNoMore(api.objects)
    ensures OthersKept(old(api.objects), api.objects)
  {
    first := EnsureReadOnlyRBAC(api);
    between := api.objects;
    api.faults := [];
    retry := EnsureReadOnlyRBAC(api);
  }

  /** Both words are needed, and the reason. */
  lemma ReportsRecognisedOrNot()
    ensures Recognised("roleRef: Forbidden: roleRef is immutable")
    ensures !Recognised("roleRef: cannot change roleRef")
    ensures !Recognised("field is immutable")
    ensures forall reason :: reason != Invalid ==>
              !IsImmutableRoleRefError(ApiError(reason, "roleRef: Forbidden: roleRef is immutable"))
  {
    var good, bad, worse := "roleRef: Forbidden: roleRef is immutable", "roleRef: cannot change roleRef",
      "field is immutable";
    assert HasAt(good, 0, "roleRef");
    assert HasAt(good, 31, "immutable");
    assert forall i :: 0 <= i < |bad| ==> bad[i] != 'i';
    forall i | 0 <= i <= |bad| ensures !HasAt(bad, i, "immutable") {
      assert "immutable"[0] == 'i';
    }
    assert forall i :: 0 <= i < |worse| ==> worse[i] != 'r';
    forall i | 0 <= i <= |worse| ensures !HasAt(worse, i, "roleRef") {
      assert "roleRef"[0] == 'r';
    }
  }
}
