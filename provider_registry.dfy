/**
 * The provider function's registry (lib/codebuild-resource-provider.resource.ts): one provider
 * Lambda per scope, created in the scope's stack on first request and found there afterwards.
 */
module ResourceProvider {
  import opened Wrappers

  /** Six minutes, the Lambda timeout when none is given. */
  const DefaultTimeoutSeconds := 6 * 60
  const UidSuffix := "-codebuild-resource-provider"

  /** The optional properties: a function name and a timeout (the role is left out). */
  datatype ProviderProps = ProviderProps(functionName: Option<string>, timeoutSeconds: Option<nat>)

  /** `props?.timeout ?? Duration.minutes(6)`, in seconds. */
  function TimeoutOf(props: Option<ProviderProps>): nat
  {
    if props.Some? && props.value.timeoutSeconds.Some? then props.value.timeoutSeconds.value
    else DefaultTimeoutSeconds
  }

  /** `props?.functionName`. */
  function FunctionNameOf(props: Option<ProviderProps>): Option<string>
  {
    if props.Some? then props.value.functionName else None
  }

  /** The child id under which a scope's provider lives in its stack. */
  function Uid(scopeUniqueId: string): (uid: string)
    ensures |uid| == |scopeUniqueId| + |UidSuffix|
    ensures uid[..|scopeUniqueId|] == scopeUniqueId && uid[|scopeUniqueId|..] == UidSuffix
  {
    scopeUniqueId + UidSuffix
  }

  /** Different scopes get different child ids, hence different providers. */
  lemma UidInjective(a: string, b: string)
    ensures Uid(a) == Uid(b) <==> a == b
  {
    if Uid(a) == Uid(b) {
      assert |a| == |b|;
      assert a == Uid(a)[..|a|] == Uid(b)[..|b|] == b;
    }
  }

  /** The provider Lambda. Its ARN is a deploy-time token, taken as given. */
  class Provider {
    const id: string
    const functionName: Option<string>
    const timeoutSeconds: nat
    const functionArn: string

    constructor (id: string, props: Option<ProviderProps>, functionArn: string)
      ensures this.id == id && this.functionArn == functionArn
      ensures functionName == FunctionNameOf(props)
      ensures timeoutSeconds == TimeoutOf(props)
    {
      this.id := id;
      this.functionName := FunctionNameOf(props);
      this.timeoutSeconds := TimeoutOf(props);
      this.functionArn := functionArn;
    }
  }

  /** A stack, as far as the registry sees it: its children by id. */
  class Stack {
    var children: map<string, Provider>

    constructor ()
      ensures children == map[]
    {
      children := map[];
    }
  }

  /**
   * `getOrCreate`: the provider already registered under the scope's child id, whatever the
   * props; otherwise a new one, built from the props and registered there. `arn` is the token
   * a new provider gets.
   */
  method GetOrCreate(stack: Stack, scopeUniqueId: string, props: Option<ProviderProps>, arn: string)
    returns (provider: Provider)
    modifies stack
    ensures Uid(scopeUniqueId) in old(stack.children) ==>
      provider == old(stack.children)[Uid(scopeUniqueId)] && stack.children == old(stack.children)
    ensures Uid(scopeUniqueId) !in old(stack.children) ==>
      && fresh(provider)
      && provider.id == Uid(scopeUniqueId)
      && provider.functionArn == arn
      && provider.functionName == FunctionNameOf(props)
      && provider.timeoutSeconds == TimeoutOf(props)
      && stack.children == old(stack.children)[Uid(scopeUniqueId) := provider]
  {
    var uid := Uid(scopeUniqueId);
    if uid in stack.children {
      provider := stack.children[uid];
    } else {
      provider := new Provider(uid, props, arn);
      stack.children := stack.children[uid := provider];
    }
  }

  /** `getOrCreateServiceToken`: the ARN of the scope's provider. */
  method GetOrCreateServiceToken(stack: Stack, scopeUniqueId: string, props: Option<ProviderProps>, arn: string)
    returns (token: string)
    modifies stack
    ensures Uid(scopeUniqueId) in stack.children
    ensures token == stack.children[Uid(scopeUniqueId)].functionArn
    ensures Uid(scopeUniqueId) in old(stack.children) ==>
      token == old(stack.children)[Uid(scopeUniqueId)].functionArn && stack.children == old(stack.children)
    ensures Uid(scopeUniqueId) !in old(stack.children) ==> token == arn
  {
    var provider := GetOrCreate(stack, scopeUniqueId, props, arn);
    token := provider.functionArn;
  }

  /**
   * Asking twice for the same scope gives the same provider and the same token, with the
   * second props and token ignored; asking for another scope gives another provider.
   */
  method SecondRequest(stack: Stack, scope: string, other: string,
                       props1: Option<ProviderProps>, props2: Option<ProviderProps>, arn1: string, arn2: string)
    returns (first: Provider, second: Provider, third: Provider)
    requires scope != other && Uid(other) !in stack.children
    modifies stack
    ensures first == second
    ensures Uid(scope) !in old(stack.children) ==> second.timeoutSeconds == TimeoutOf(props1)
    ensures third != first
  {
    first := GetOrCreate(stack, scope, props1, arn1);
    second := GetOrCreate(stack, scope, props2, arn2);
    UidInjective(scope, other);
    third := GetOrCreate(stack, other, props2, arn2);
  }
}
