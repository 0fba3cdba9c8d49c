/**
 * The Digital Twins resource provider's pure logic: locating an instance by
 * name, reading the resource group and subscription out of an Azure Resource
 * Manager id, and the argument checks and defaults of `create`,
 * `add_endpoint` and `create_adx_data_connection`.
 *
 * Arguments Python receives as `None` or "" are both the empty string here.
 * Service calls are represented by their results, passed in as parameters.
 */
module DigitalTwinsResource {
  import opened Wrappers
  import opened Json

  // ---------------------------------------------------------------------------
  // Case-insensitive names

  /** ASCII lower-casing of one character. */
  function LowerChar(c: char): char {
    if 'A' <= c <= 'Z' then (c as int + 32) as char else c
  }

  function Lower(s: string): (r: string)
    ensures |r| == |s|
    ensures forall i | 0 <= i < |s| :: r[i] == LowerChar(s[i])
  {
    seq(|s|, i requires 0 <= i < |s| => LowerChar(s[i]))
  }

  /** Lower-casing twice is lower-casing once. */
  lemma LowerIdempotent(s: string)
    ensures Lower(Lower(s)) == Lower(s)
  {
    assert forall i | 0 <= i < |s| :: LowerChar(LowerChar(s[i])) == LowerChar(s[i]);
  }

  // ---------------------------------------------------------------------------
  // find_instance

  /** A listed Digital Twins instance: its name and its resource id. */
  datatype Instance = Instance(name: string, id: string)

  datatype FindError = AmbiguousName | NotFound(name: string)

  /** All instances of the listing, page after page. */
  function Flatten(pages: seq<seq<Instance>>): seq<Instance> {
    if pages == [] then [] else Flatten(pages[..|pages| - 1]) + pages[|pages| - 1]
  }

  /** The instances whose name equals `name` ignoring case, in listing order. */
  function Matching(name: string, collection: seq<Instance>): seq<Instance> {
    if collection == [] then []
    else
      var last := collection[|collection| - 1];
      Matching(name, collection[..|collection| - 1]) + (if Lower(last.name) == Lower(name) then [last] else [])
  }

  /** Discovery over the whole listing: the single match, or an error for none or several. */
  function Discover(name: string, collection: seq<Instance>): (r: Result<Instance, FindError>)
    ensures r.Success? <==> |Matching(name, collection)| == 1
    ensures r.Success? ==> r.value == Matching(name, collection)[0]
    ensures r == Failure(AmbiguousName) <==> |Matching(name, collection)| > 1
    ensures r == Failure(NotFound(name)) <==> |Matching(name, collection)| == 0
  {
    var found := Matching(name, collection);
    if found == [] then Failure(NotFound(name))
    else if |found| > 1 then Failure(AmbiguousName)
    else Success(found[0])
  }

  /**
   * `find_instance`. With a resource group the instance is fetched directly
   * (`direct` is what the service returns) and no page of the listing is
   * read; without one, every page is read and the name is looked up.
   */
  method FindInstance(name: string, resourceGroup: string, direct: Instance, pages: seq<seq<Instance>>)
    returns (r: Result<Instance, FindError>, pagesRead: nat)
    ensures resourceGroup != "" ==> r == Success(direct) && pagesRead == 0
    ensures resourceGroup == "" ==> r == Discover(name, Flatten(pages)) && pagesRead == |pages|
  {
    if resourceGroup != "" {
      return Success(direct), 0;
    }
    var collection: seq<Instance> := [];
    pagesRead := 0;
    while pagesRead < |pages|
      invariant pagesRead <= |pages|
      invariant collection == Flatten(pages[..pagesRead])
    {
      assert pages[..pagesRead + 1][..pagesRead] == pages[..pagesRead];
      collection := collection + pages[pagesRead];
      pagesRead := pagesRead + 1;
    }
    assert pages[..pagesRead] == pages;
    r := Discover(name, collection);
  }

  /** An instance matches exactly when it is listed and its name equals the wanted one ignoring case. */
  lemma {:induction false} MatchingMembership(name: string, collection: seq<Instance>, x: Instance)
    ensures x in Matching(name, collection) <==> x in collection && Lower(x.name) == Lower(name)
    decreases |collection|
  {
    if collection != [] {
      var init := collection[..|collection| - 1];
      MatchingMembership(name, init, x);
      assert collection == init + [collection[|collection| - 1]];
    }
  }

  /** The case of the wanted name does not matter. */
  lemma {:induction false} MatchingIgnoresCase(name1: string, name2: string, collection: seq<Instance>)
    requires Lower(name1) == Lower(name2)
    ensures Matching(name1, collection) == Matching(name2, collection)
    decreases |collection|
  {
    if collection != [] {
      MatchingIgnoresCase(name1, name2, collection[..|collection| - 1]);
    }
  }

  /** Two listed instances whose names differ only in case make discovery ambiguous. */
  lemma {:induction false} CaseVariantsAreAmbiguous(name: string, collection: seq<Instance>, i: nat, j: nat)
    requires i < j < |collection|
    requires Lower(collection[i].name) == Lower(name) && Lower(collection[j].name) == Lower(name)
    ensures Discover(name, collection) == Failure(AmbiguousName)
    decreases |collection|
  {
    var init := collection[..|collection| - 1];
    if j < |collection| - 1 {
      CaseVariantsAreAmbiguous(name, init, i, j);
    } else {
      MatchingMembership(name, init, collection[i]);
      assert collection[i] == init[i];
    }
  }

  // ---------------------------------------------------------------------------
  // Resource ids: `str.split("/")` and positional segments

  /** Python's `s.split("/")`: the pieces between separators, at least one. */
  function Split(s: string): (parts: seq<string>)
    ensures |parts| >= 1
    ensures forall p | p in parts :: '/' !in p
  {
    if s == [] then [""]
    else if s[0] == '/' then [""] + Split(s[1..])
    else
      var rest := Split(s[1..]);
      [[s[0]] + rest[0]] + rest[1..]
  }

  /** The inverse of `Split`: `"/".join(parts)`. */
  function Join(parts: seq<string>): string
    requires |parts| >= 1
  {
    if |parts| == 1 then parts[0] else parts[0] + "/" + Join(parts[1..])
  }

  lemma {:induction false} JoinSplit(s: string)
    ensures Join(Split(s)) == s
    decreases |s|
  {
    if s != [] {
      JoinSplit(s[1..]);
      if s[0] != '/' {
        var rest := Split(s[1..]);
        if |rest| > 1 {
          assert ([[s[0]] + rest[0]] + rest[1..])[1..] == rest[1..];
        }
      }
    }
  }

  lemma {:induction false} SplitPrefix(a: string, b: string)
    requires '/' !in a
    ensures Split(a + "/" + b) == [a] + Split(b)
    decreases |a|
  {
    if a == [] {
      assert a + "/" + b == "/" + b;
    } else {
      assert (a + "/" + b)[1..] == a[1..] + "/" + b;
      SplitPrefix(a[1..], b);
      assert [a[0]] + a[1..] == a;
    }
  }

  lemma {:induction false} SplitSingle(a: string)
    requires '/' !in a
    ensures Split(a) == [a]
    decreases |a|
  {
    if a != [] {
      SplitSingle(a[1..]);
      assert [a[0]] + a[1..] == a;
    }
  }

  /** Splitting a join of separator-free pieces gives the pieces back. */
  lemma {:induction false} SplitJoin(parts: seq<string>)
    requires |parts| >= 1 && forall p | p in parts :: '/' !in p
    ensures Split(Join(parts)) == parts
    decreases |parts|
  {
    if |parts| == 1 {
      SplitSingle(parts[0]);
    } else {
      SplitJoin(parts[1..]);
      SplitPrefix(parts[0], Join(parts[1..]));
    }
  }

  /** The k-th `/`-separated segment of an id; an IndexError when there are not that many. */
  function Segment(id: string, k: nat): (r: Result<string, PyError>)
    ensures r.Failure? <==> |Split(id)| <= k
    ensures r.Failure? ==> r.error == IndexError(k)
  {
    var parts := Split(id);
    if k < |parts| then Success(parts[k]) else Failure(IndexError(k))
  }

  /** `get_rg`: the fifth segment of the instance id. */
  function GetRg(id: string): Result<string, PyError> {
    Segment(id, 4)
  }

  /** The subscription of an instance: the third segment of its id. */
  function Subscription(id: string): Result<string, PyError> {
    Segment(id, 2)
  }

  /** The resource id of a Digital Twins instance. */
  function InstanceId(subscription: string, resourceGroup: string, name: string): string {
    Join(["", "subscriptions", subscription, "resourceGroups", resourceGroup,
          "providers", "Microsoft.DigitalTwins", "digitalTwinsInstances", name])
  }

  /** On a well-formed instance id, `get_rg` and the subscription lookup give back the parts the id was built from. */
  lemma InstanceIdSegments(subscription: string, resourceGroup: string, name: string)
    requires '/' !in subscription && '/' !in resourceGroup && '/' !in name
    ensures GetRg(InstanceId(subscription, resourceGroup, name)) == Success(resourceGroup)
    ensures Subscription(InstanceId(subscription, resourceGroup, name)) == Success(subscription)
  {
    var parts := ["", "subscriptions", subscription, "resourceGroups", resourceGroup,
                  "providers", "Microsoft.DigitalTwins", "digitalTwinsInstances", name];
    assert forall p | p in parts :: '/' !in p;
    SplitJoin(parts);
  }

  /** An id with fewer than five segments makes `get_rg` raise. */
  lemma ShortIdHasNoResourceGroup(id: string)
    requires |Split(id)| < 5
    ensures GetRg(id) == Failure(IndexError(4))
  {
  }

  // ---------------------------------------------------------------------------
  // add_endpoint argument checks

  const EventHub := "eventhub"
  const ServiceBus := "servicebus"
  const KeyBased := "KeyBased"
  const IdentityBased := "IdentityBased"

  datatype EndpointArgError = NamespaceRequired | PolicyRequired | DeadLetterSasUriRequired | DeadLetterUriRequired

  /** The arguments `add_endpoint` accepts, stated as one condition. */
  predicate EndpointArgsAccepted(endpointType: string, namespace: string, policy: string,
                                 deadLetterUri: string, deadLetterSecret: string, authType: string)
  {
    && (endpointType == EventHub || endpointType == ServiceBus ==> namespace != "" && (authType == KeyBased ==> policy != ""))
    && !(deadLetterUri != "" && authType == KeyBased)
    && !(deadLetterSecret != "" && authType == IdentityBased)
  }

  /** The checks at the head of `add_endpoint`, in their order; `None` when they all pass. */
  function CheckEndpointArgs(endpointType: string, namespace: string, policy: string,
                             deadLetterUri: string, deadLetterSecret: string, authType: string): (r: Option<EndpointArgError>)
    ensures r.None? <==> EndpointArgsAccepted(endpointType, namespace, policy, deadLetterUri, deadLetterSecret, authType)
    ensures r == Some(NamespaceRequired) <==> (endpointType == EventHub || endpointType == ServiceBus) && namespace == ""
    ensures r == Some(PolicyRequired) <==>
      (endpointType == EventHub || endpointType == ServiceBus) && namespace != "" && authType == KeyBased && policy == ""
  {
    if endpointType == EventHub || endpointType == ServiceBus then
      if namespace == "" then Some(NamespaceRequired)
      else if authType == KeyBased && policy == "" then Some(PolicyRequired)
      else CheckDeadLetter(deadLetterUri, deadLetterSecret, authType)
    else CheckDeadLetter(deadLetterUri, deadLetterSecret, authType)
  }

  function CheckDeadLetter(deadLetterUri: string, deadLetterSecret: string, authType: string): (r: Option<EndpointArgError>)
    ensures r == Some(DeadLetterSasUriRequired) <==> deadLetterUri != "" && authType == KeyBased
    ensures r == Some(DeadLetterUriRequired) <==> deadLetterSecret != "" && authType == IdentityBased
    ensures r.None? || r == Some(DeadLetterSasUriRequired) || r == Some(DeadLetterUriRequired)
  {
    if deadLetterUri != "" && authType == KeyBased then Some(DeadLetterSasUriRequired)
    else if deadLetterSecret != "" && authType == IdentityBased then Some(DeadLetterUriRequired)
    else None
  }

  /** Endpoint types other than Event Hubs and Service Bus ignore the namespace and the policy. */
  lemma OtherTypesIgnoreNamespace(endpointType: string, ns1: string, ns2: string, p1: string, p2: string,
                                  deadLetterUri: string, deadLetterSecret: string, authType: string)
    requires endpointType != EventHub && endpointType != ServiceBus
    ensures CheckEndpointArgs(endpointType, ns1, p1, deadLetterUri, deadLetterSecret, authType)
         == CheckEndpointArgs(endpointType, ns2, p2, deadLetterUri, deadLetterSecret, authType)
  {
  }

  /** Identity-based endpoints never need a policy. */
  lemma IdentityBasedNeedsNoPolicy(endpointType: string, namespace: string, deadLetterUri: string)
    requires namespace != ""
    ensures CheckEndpointArgs(endpointType, namespace, "", deadLetterUri, "", IdentityBased).None?
  {
  }

  // ---------------------------------------------------------------------------
  // create: identity and role checks, and the rbac handler

  datatype CreateError = RoleRequired

  /** What `create` asks the service for. */
  datatype CreateRequest = CreateRequest(location: string, identityType: string, publicNetworkAccess: string)

  /**
   * The request `create` builds. The location falls back to the resource
   * group's (`groupLocation`, looked up by the CLI); assigning the identity
   * with scopes but no role raises before any service call.
   */
  function CreateRequestFor(location: string, groupLocation: string, assignIdentity: bool, scopes: seq<string>,
                            roleType: string, publicNetworkAccess: string): (r: Result<CreateRequest, CreateError>)
    ensures r.Failure? <==> assignIdentity && |scopes| > 0 && roleType == ""
    ensures r.Success? ==> (r.value.identityType == "SystemAssigned" <==> assignIdentity)
    ensures r.Success? && !assignIdentity ==> r.value.identityType == "None"
    ensures r.Success? ==> r.value.location == (if location != "" then location else groupLocation)
    ensures r.Success? ==> r.value.publicNetworkAccess == publicNetworkAccess
  {
    if assignIdentity && |scopes| > 0 && roleType == "" then Failure(RoleRequired)
    else
      Success(CreateRequest(
        if location != "" then location else groupLocation,
        if assignIdentity then "SystemAssigned" else "None",
        publicNetworkAccess))
  }

  /** One role assignment the rbac handler makes. */
  datatype RoleAssignment = RoleAssignment(principalId: Json, scope: string, roleType: string)

  /** The created instance's identity, when it is a dict. */
  predicate HasIdentityDict(instance: Object) {
    "identity" in instance && instance["identity"].JObj? && instance["identity"].fields != map[]
  }

  /** The handler assigns roles: a principal, some scopes, and an identity type that lower-cases to "systemassigned". */
  predicate AssignsRoles(instance: Object, scopes: seq<string>) {
    && HasIdentityDict(instance)
    && Truthy(GetOrNull(instance["identity"].fields, "principal_id"))
    && |scopes| > 0
    && GetOrNull(instance["identity"].fields, "type").JStr?
    && Lower(GetOrNull(instance["identity"].fields, "type").s) == "systemassigned"
  }

  /** The handler raises: a truthy identity that is not a dict, or a truthy identity type that is not a string while a principal and scopes are present. */
  predicate RbacRaises(instance: Object, scopes: seq<string>) {
    var identity := GetOrNull(instance, "identity");
    || (Truthy(identity) && !identity.JObj?)
    || (identity.JObj? && Truthy(identity)
        && Truthy(GetOrNull(identity.fields, "principal_id")) && |scopes| > 0
        && Truthy(GetOrNull(identity.fields, "type")) && !GetOrNull(identity.fields, "type").JStr?)
  }

  /** `rbac_handler`: the role assignments made once the instance exists, one per scope, in order. */
  method RbacHandler(instance: Object, scopes: seq<string>, roleType: string) returns (r: Result<seq<RoleAssignment>, PyError>)
    ensures r.Failure? <==> RbacRaises(instance, scopes)
    ensures r.Success? && !AssignsRoles(instance, scopes) ==> r.value == []
    ensures r.Success? && AssignsRoles(instance, scopes) ==>
      && |r.value| == |scopes|
      && forall i | 0 <= i < |scopes| ::
           r.value[i] == RoleAssignment(instance["identity"].fields["principal_id"], scopes[i], roleType)
  {
    var identity := GetOrNull(instance, "identity");
    if !Truthy(identity) {
      return Success([]);
    }
    if !identity.JObj? {
      return Failure(AttributeError);
    }
    var identityType := GetOrNull(identity.fields, "type");
    var principalId := GetOrNull(identity.fields, "principal_id");
    if !(Truthy(principalId) && |scopes| > 0 && Truthy(identityType)) {
      return Success([]);
    }
    if !identityType.JStr? {
      return Failure(AttributeError);
    }
    if Lower(identityType.s) != "systemassigned" {
      return Success([]);
    }
    var assignments: seq<RoleAssignment> := [];
    for i := 0 to |scopes|
      invariant |assignments| == i
      invariant forall j | 0 <= j < i :: assignments[j] == RoleAssignment(principalId, scopes[j], roleType)
    {
      assignments := assignments + [RoleAssignment(principalId, scopes[i], roleType)];
    }
    return Success(assignments);
  }

  /**
   * An instance created without assigning an identity reports the identity
   * type the request set, "None", and then no role is assigned, whatever
   * the scopes.
   */
  lemma UnassignedIdentityGetsNoRoles(location: string, groupLocation: string, scopes: seq<string>, roleType: string,
                                      access: string, instance: Object)
    requires CreateRequestFor(location, groupLocation, false, scopes, roleType, access).Success?
    requires HasIdentityDict(instance)
    requires GetOrNull(instance["identity"].fields, "type") ==
             JStr(CreateRequestFor(location, groupLocation, false, scopes, roleType, access).value.identityType)
    ensures !AssignsRoles(instance, scopes)
  {
    assert Lower("None")[0] == 'n';
  }

  /** An instance created with its identity assigned, reporting "SystemAssigned" and a principal, gets a role on every scope. */
  lemma AssignedIdentityGetsRoles(location: string, groupLocation: string, scopes: seq<string>, roleType: string,
                                  access: string, instance: Object)
    requires CreateRequestFor(location, groupLocation, true, scopes, roleType, access).Success?
    requires |scopes| > 0 && HasIdentityDict(instance)
    requires Truthy(GetOrNull(instance["identity"].fields, "principal_id"))
    requires GetOrNull(instance["identity"].fields, "type") ==
             JStr(CreateRequestFor(location, groupLocation, true, scopes, roleType, access).value.identityType)
    ensures AssignsRoles(instance, scopes)
    ensures roleType != ""
  {
    var t := "SystemAssigned";
    assert Lower(t) == "systemassigned";
  }

  // ---------------------------------------------------------------------------
  // create_adx_data_connection: defaults

  /** The resource groups and subscriptions an ADX data connection is created with. */
  datatype AdxSettings = AdxSettings(
    resourceGroup: string,
    adxResourceGroup: string,
    adxSubscription: string,
    ehResourceGroup: string,
    ehSubscription: string)

  datatype AdxError = Lookup(findError: FindError) | Python(pyError: PyError) | ConnectionNameTooShort

  /**
   * The head of `create_adx_data_connection`, in its order: the instance
   * lookup (`found`, the result of `FindInstance`), the resource group and
   * subscription read from its id, the connection-name length check, then
   * the defaults for the ADX and Event Hub resource groups and
   * subscriptions.
   */
  function AdxSettingsFor(found: Result<Instance, FindError>, resourceGroup: string, connName: string,
                          adxResourceGroup: string, adxSubscription: string,
                          ehResourceGroup: string, ehSubscription: string): (r: Result<AdxSettings, AdxError>)
    ensures found.Failure? ==> r == Failure(Lookup(found.error))
    ensures r == Failure(ConnectionNameTooShort) <==>
      found.Success? && (resourceGroup != "" || GetRg(found.value.id).Success?) &&
      Subscription(found.value.id).Success? && |connName| <= 2
    ensures r.Success? ==> |connName| > 2 && found.Success?
    ensures r.Success? ==> (resourceGroup != "" || GetRg(found.value.id).Success?) && Subscription(found.value.id).Success?
    ensures r.Success? ==> r.value.resourceGroup == (if resourceGroup != "" then resourceGroup else GetRg(found.value.id).value)
    ensures r.Success? ==> r.value.adxResourceGroup == (if adxResourceGroup != "" then adxResourceGroup else r.value.resourceGroup)
    ensures r.Success? ==> r.value.ehResourceGroup == (if ehResourceGroup != "" then ehResourceGroup else r.value.resourceGroup)
    ensures r.Success? ==> r.value.adxSubscription == (if adxSubscription != "" then adxSubscription else Subscription(found.value.id).value)
    ensures r.Success? ==> r.value.ehSubscription == (if ehSubscription != "" then ehSubscription else Subscription(found.value.id).value)
  {
    match found
    case Failure(e) => Failure(Lookup(e))
    case Success(instance) =>
      var rg := if resourceGroup != "" then Success(resourceGroup) else GetRg(instance.id);
      if rg.Failure? then Failure(Python(rg.error))
      else
        var subscription := Subscription(instance.id);
        if subscription.Failure? then Failure(Python(subscription.error))
        else if |connName| <= 2 then Failure(ConnectionNameTooShort)
        else
          Success(AdxSettings(
            rg.value,
            if adxResourceGroup != "" then adxResourceGroup else rg.value,
            if adxSubscription != "" then adxSubscription else subscription.value,
            if ehResourceGroup != "" then ehResourceGroup else rg.value,
            if ehSubscription != "" then ehSubscription else subscription.value))
  }

  /**
   * With none of the resource groups and subscriptions given, the ADX and
   * Event Hub resources are looked up in the instance's own resource group
   * and subscription, as its id names them.
   */
  lemma AdxDefaultsToInstance(subscription: string, group: string, name: string, connName: string)
    requires '/' !in subscription && '/' !in group && '/' !in name
    requires |connName| > 2
    ensures var r := AdxSettingsFor(Success(Instance(name, InstanceId(subscription, group, name))), "", connName, "", "", "", "");
      r == Success(AdxSettings(group, group, subscription, group, subscription))
  {
    InstanceIdSegments(subscription, group, name);
  }

  /** A lookup failure wins over a short connection name: the name is checked only once the instance is found. */
  lemma LookupCheckedFirst(e: FindError, resourceGroup: string, connName: string)
    ensures AdxSettingsFor(Failure(e), resourceGroup, connName, "", "", "", "") == Failure(Lookup(e))
  {
  }
}
