/**
  Model of services/ingestionPolicies/IngestionPolicyService.go: the admission decision that
  folds every policy's (allow, ttl) bindings into one verdict, and the add, update and delete
  callbacks that keep the policy store and the per-name version record.
*/
module IngestionPolicies {
  import opened Wrappers
  import opened Errors

  /** The namespace every policy is stored under by add and update. */
  const PolicyNamespace: string := "keas.ingestion"

  datatype IngestionPolicyDecision = IngestionPolicyDecision(Allow: bool, TTL: int)

  /** The decision before any policy is consulted. */
  const Initial := IngestionPolicyDecision(true, -1)

  /** Go's zero value, returned beside an error. */
  const ZeroDecision := IngestionPolicyDecision(false, 0)

  /**
    One policy's evaluation as the library reports it: an evaluation error, or the "allow"
    binding with the result of converting the "ttl" binding to an int64.
  */
  datatype Bindings = Bindings(allow: bool, ttl: Result<int, Error>)
  type Evaluation = Result<Bindings, Error>

  /** OPAService.EvaluatePolicy for the event being decided, as an oracle per policy key. */
  type Evaluator = string -> Evaluation

  predicate Fails(e: Evaluation) {
    e.Failure? || e.value.ttl.Failure?
  }

  function ErrorOf(e: Evaluation): Error
    requires Fails(e)
  {
    if e.Failure? then e.error else e.value.ttl.error
  }

  /** The allow binding of a successful evaluation. */
  predicate AllowOf(e: Evaluation) {
    e.Success? && e.value.allow
  }

  /** The ttl of a successful evaluation (0, which is ignored, otherwise). */
  function TtlOf(e: Evaluation): int {
    if Fails(e) then 0 else e.value.ttl.value
  }

  /** One loop iteration on a successful evaluation: a deny clears Allow, a larger non-zero ttl replaces TTL. */
  function Step(acc: IngestionPolicyDecision, allow: bool, ttl: int): IngestionPolicyDecision {
    IngestionPolicyDecision(acc.Allow && allow, if ttl > acc.TTL && ttl != 0 then ttl else acc.TTL)
  }

  /** The loop of GetDecision from accumulator `acc` over `keys`, stopping at the first error. */
  function Fold(acc: IngestionPolicyDecision, keys: seq<string>, evaluate: Evaluator): (IngestionPolicyDecision, Option<Error>)
    decreases |keys|
  {
    if |keys| == 0 then (acc, None)
    else
      var e := evaluate(keys[0]);
      if Fails(e) then (ZeroDecision, Some(ErrorOf(e)))
      else Fold(Step(acc, e.value.allow, e.value.ttl.value), keys[1..], evaluate)
  }

  /** GetDecision's result for the policy keys in the order the store lists them. */
  function Decide(keys: seq<string>, evaluate: Evaluator): (IngestionPolicyDecision, Option<Error>) {
    Fold(Initial, keys, evaluate)
  }

  predicate AllSucceed(keys: seq<string>, evaluate: Evaluator) {
    forall i :: 0 <= i < |keys| ==> !Fails(evaluate(keys[i]))
  }

  /** `t` is the largest of -1 and the policies' non-zero ttls. */
  predicate IsMaxTtl(t: int, keys: seq<string>, evaluate: Evaluator) {
    && t >= -1
    && (forall i :: 0 <= i < |keys| && TtlOf(evaluate(keys[i])) != 0 ==> TtlOf(evaluate(keys[i])) <= t)
    && (t == -1 || exists i :: 0 <= i < |keys| && TtlOf(evaluate(keys[i])) != 0 && TtlOf(evaluate(keys[i])) == t)
  }

  lemma {:induction false} FoldFails(acc: IngestionPolicyDecision, keys: seq<string>, evaluate: Evaluator)
    ensures Fold(acc, keys, evaluate).1.Some? <==> !AllSucceed(keys, evaluate)
    ensures Fold(acc, keys, evaluate).1.Some? ==> Fold(acc, keys, evaluate).0 == ZeroDecision
    decreases |keys|
  {
    if |keys| > 0 {
      var e := evaluate(keys[0]);
      if !Fails(e) {
        FoldFails(Step(acc, e.value.allow, e.value.ttl.value), keys[1..], evaluate);
        assert forall i :: 1 <= i < |keys| ==> keys[i] == keys[1..][i - 1];
      }
    }
  }

  lemma {:induction false} FoldAllow(acc: IngestionPolicyDecision, keys: seq<string>, evaluate: Evaluator)
    requires AllSucceed(keys, evaluate)
    ensures Fold(acc, keys, evaluate).0.Allow <==>
              acc.Allow && forall i :: 0 <= i < |keys| ==> AllowOf(evaluate(keys[i]))
    decreases |keys|
  {
    if |keys| > 0 {
      var e := evaluate(keys[0]);
      assert !Fails(e);
      assert forall i :: 1 <= i < |keys| ==> keys[i] == keys[1..][i - 1];
      FoldAllow(Step(acc, e.value.allow, e.value.ttl.value), keys[1..], evaluate);
    }
  }

  lemma {:induction false} FoldTtl(acc: IngestionPolicyDecision, keys: seq<string>, evaluate: Evaluator)
    requires AllSucceed(keys, evaluate)
    ensures var t := Fold(acc, keys, evaluate).0.TTL;
            && t >= acc.TTL
            && (forall i :: 0 <= i < |keys| && TtlOf(evaluate(keys[i])) != 0 ==> TtlOf(evaluate(keys[i])) <= t)
            && (t == acc.TTL || exists i :: 0 <= i < |keys| && TtlOf(evaluate(keys[i])) != 0 && TtlOf(evaluate(keys[i])) == t)
    decreases |keys|
  {
    if |keys| > 0 {
      var e := evaluate(keys[0]);
      assert !Fails(e);
      var next := Step(acc, e.value.allow, e.value.ttl.value);
      assert forall i :: 1 <= i < |keys| ==> keys[i] == keys[1..][i - 1];
      FoldTtl(next, keys[1..], evaluate);
      var t := Fold(acc, keys, evaluate).0.TTL;
      if t != acc.TTL && t != next.TTL {
        var j :| 0 <= j < |keys[1..]| && TtlOf(evaluate(keys[1..][j])) != 0 && TtlOf(evaluate(keys[1..][j])) == t;
        assert keys[1..][j] == keys[j + 1];
      }
    }
  }

  /**
    What GetDecision computes. An error from any policy, even after a deny, yields that error
    and the zero decision. Otherwise Allow holds exactly when every policy allows (deny wins)
    and TTL is the largest of -1 and the non-zero ttls, so it is -1 or positive, never 0.
  */
  lemma DecisionSpec(keys: seq<string>, evaluate: Evaluator)
    ensures var (d, err) := Decide(keys, evaluate);
            && (err.Some? <==> exists i :: 0 <= i < |keys| && Fails(evaluate(keys[i])))
            && (err.Some? ==> d == ZeroDecision)
            && (err.None? ==> (d.Allow <==> forall i :: 0 <= i < |keys| ==> AllowOf(evaluate(keys[i]))))
            && (err.None? ==> IsMaxTtl(d.TTL, keys, evaluate))
            && (err.None? ==> d.TTL == -1 || d.TTL > 0)
  {
    FoldFails(Initial, keys, evaluate);
    if AllSucceed(keys, evaluate) {
      FoldAllow(Initial, keys, evaluate);
      FoldTtl(Initial, keys, evaluate);
    }
  }

  /** With no policies the decision is to allow, with TTL -1. */
  lemma FailOpen(evaluate: Evaluator)
    ensures Decide([], evaluate) == (Initial, None)
  {
  }

  /** The decision weighs the set of policies, not their order. */
  lemma DecisionOrderIndependent(keys: seq<string>, others: seq<string>, evaluate: Evaluator)
    requires multiset(keys) == multiset(others)
    ensures Decide(keys, evaluate).1.Some? == Decide(others, evaluate).1.Some?
    ensures Decide(keys, evaluate).1.None? ==> Decide(keys, evaluate).0 == Decide(others, evaluate).0
  {
    forall k ensures k in keys <==> k in others {
      assert k in keys <==> k in multiset(keys);
      assert k in others <==> k in multiset(others);
    }
    DecisionSpec(keys, evaluate);
    DecisionSpec(others, evaluate);
    if exists i :: 0 <= i < |keys| && Fails(evaluate(keys[i])) {
      var i :| 0 <= i < |keys| && Fails(evaluate(keys[i]));
      assert keys[i] in others;
      var j :| 0 <= j < |others| && others[j] == keys[i];
    }
    if exists j :: 0 <= j < |others| && Fails(evaluate(others[j])) {
      var j :| 0 <= j < |others| && Fails(evaluate(others[j]));
      assert others[j] in keys;
      var i :| 0 <= i < |keys| && keys[i] == others[j];
    }
    if Decide(keys, evaluate).1.None? {
      var d, e := Decide(keys, evaluate).0, Decide(others, evaluate).0;
      if !d.Allow {
        var i :| 0 <= i < |keys| && !AllowOf(evaluate(keys[i]));
        assert keys[i] in others;
        var j :| 0 <= j < |others| && others[j] == keys[i];
      }
      if !e.Allow {
        var j :| 0 <= j < |others| && !AllowOf(evaluate(others[j]));
        assert others[j] in keys;
        var i :| 0 <= i < |keys| && keys[i] == others[j];
      }
      if d.TTL != -1 {
        var i :| 0 <= i < |keys| && TtlOf(evaluate(keys[i])) != 0 && TtlOf(evaluate(keys[i])) == d.TTL;
        assert keys[i] in others;
        var j :| 0 <= j < |others| && others[j] == keys[i];
      }
      if e.TTL != -1 {
        var j :| 0 <= j < |others| && TtlOf(evaluate(others[j])) != 0 && TtlOf(evaluate(others[j])) == e.TTL;
        assert others[j] in keys;
        var i :| 0 <= i < |keys| && keys[i] == others[j];
      }
    }
  }

  /** The fields of the IngestionPolicy resource the service reads. */
  datatype Defaults = Defaults(Allow: bool, TTL: int)
  datatype IngestionPolicySpec = IngestionPolicySpec(Defaults: Defaults, Policy: string)
  datatype IngestionPolicy = IngestionPolicy(Name: string, Namespace: string, ResourceVersion: string, Spec: IngestionPolicySpec)

  /** Where the policy store files a policy. */
  datatype PolicyId = PolicyId(namespace: string, name: string)

  /** What the policy store holds for a policy: its default bindings and its rule text. */
  datatype StoredPolicy = StoredPolicy(allow: bool, ttl: int, rule: string)

  /** The entry an add or update stores: the default allow, the default ttl with 0 read as -1, the rule. */
  function StoredFor(policy: IngestionPolicy): StoredPolicy {
    var ttl := if policy.Spec.Defaults.TTL != 0 then policy.Spec.Defaults.TTL else -1;
    StoredPolicy(policy.Spec.Defaults.Allow, ttl, policy.Spec.Policy)
  }

  /** An add or update is redundant when the name's recorded version is the resource's. */
  predicate SameVersion(versions: map<string, string>, policy: IngestionPolicy) {
    policy.Name in versions && versions[policy.Name] == policy.ResourceVersion
  }

  class IngestionPolicyService {
    /** The policy store (OPAService), by namespace and name. */
    var policies: map<PolicyId, StoredPolicy>
    /** The last applied ResourceVersion per policy name. */
    var versions: map<string, string>

    constructor ()
      ensures policies == map[] && versions == map[]
    {
      policies, versions := map[], map[];
    }

    /**
      The store and the version record describe the same policies: every stored policy sits
      in the service's namespace under a recorded name, and every recorded name is stored.
    */
    ghost predicate Consistent()
      reads this
    {
      && (forall id :: id in policies ==> id.namespace == PolicyNamespace && id.name in versions)
      && (forall name :: name in versions ==> PolicyId(PolicyNamespace, name) in policies)
    }

    /**
      GetDecision, over the keys the store lists and the library's evaluation of each: the
      result is Decide's, whose properties DecisionSpec and DecisionOrderIndependent state.
    */
    method GetDecision(keys: seq<string>, evaluate: Evaluator) returns (decision: IngestionPolicyDecision, err: Option<Error>)
      ensures (decision, err) == Decide(keys, evaluate)
    {
      var result := Initial;
      if |keys| == 0 {
        return result, None;
      }
      for i := 0 to |keys|
        invariant Fold(result, keys[i..], evaluate) == Decide(keys, evaluate)
      {
        assert keys[i..][1..] == keys[i + 1..];
        var e := evaluate(keys[i]);
        if e.Failure? {
          return ZeroDecision, Some(e.error);
        }
        var allow := e.value.allow;
        var ttl := e.value.ttl;
        if ttl.Failure? {
          return ZeroDecision, Some(ttl.error);
        }
        if !allow {
          result := result.(Allow := false);
        }
        if ttl.value > result.TTL && ttl.value != 0 {
          result := result.(TTL := ttl.value);
        }
      }
      assert keys[|keys|..] == [];
      return result, None;
    }

    /**
      addOrUpdateIngestionPolicy: a resource whose version is already recorded changes
      nothing and returns false; any other is stored under the service's namespace and its
      version recorded, and the result is true.
    */
    method AddOrUpdateIngestionPolicy(policy: IngestionPolicy) returns (changed: bool)
      modifies this
      ensures changed <==> !SameVersion(old(versions), policy)
      ensures !changed ==> policies == old(policies) && versions == old(versions)
      ensures changed ==>
                && policies == old(policies)[PolicyId(PolicyNamespace, policy.Name) := StoredFor(policy)]
                && versions == old(versions)[policy.Name := policy.ResourceVersion]
      ensures old(Consistent()) ==> Consistent()
    {
      if policy.Name in versions && versions[policy.Name] == policy.ResourceVersion {
        return false;
      }
      var allow := policy.Spec.Defaults.Allow;
      var ttl := -1;
      if policy.Spec.Defaults.TTL != 0 {
        ttl := policy.Spec.Defaults.TTL;
      }
      policies := policies[PolicyId(PolicyNamespace, policy.Name) := StoredPolicy(allow, ttl, policy.Spec.Policy)];
      versions := versions[policy.Name := policy.ResourceVersion];
      return true;
    }

    /**
      The delete callback as written: it removes the store entry under the resource's own
      namespace, where add never put it, and forgets the version.
    */
    method OnDeletedIngestionPolicy(policy: IngestionPolicy)
      modifies this
      ensures policies == old(policies) - {PolicyId(policy.Namespace, policy.Name)}
      ensures versions == old(versions) - {policy.Name}
      ensures old(Consistent()) && policy.Namespace != PolicyNamespace && policy.Name in old(versions) ==>
                !Consistent()
    {
      policies := policies - {PolicyId(policy.Namespace, policy.Name)};
      versions := versions - {policy.Name};
    }

    /** The delete callback as evidently intended: it removes the entry add stored. */
    method OnDeletedIngestionPolicyIntended(policy: IngestionPolicy)
      modifies this
      ensures policies == old(policies) - {PolicyId(PolicyNamespace, policy.Name)}
      ensures versions == old(versions) - {policy.Name}
      ensures old(Consistent()) ==> Consistent() && forall id :: id in policies ==> id.name != policy.Name
    {
      policies := policies - {PolicyId(PolicyNamespace, policy.Name)};
      versions := versions - {policy.Name};
    }
  }

  /** Applying the same resource twice: the second application never changes anything. */
  method ApplyTwice(svc: IngestionPolicyService, policy: IngestionPolicy) returns (first: bool, second: bool)
    modifies svc
    ensures !second
    ensures first <==> !SameVersion(old(svc.versions), policy)
    ensures svc.policies == if first then old(svc.policies)[PolicyId(PolicyNamespace, policy.Name) := StoredFor(policy)]
                            else old(svc.policies)
    ensures svc.versions == if first then old(svc.versions)[policy.Name := policy.ResourceVersion]
                            else old(svc.versions)
  {
    first := svc.AddOrUpdateIngestionPolicy(policy);
    second := svc.AddOrUpdateIngestionPolicy(policy);
  }

  /**
    A policy added and then deleted from a namespace other than the service's own: as
    written the store still holds it, as intended it is gone.
  */
  method DeletedPolicyStaysStored() returns (storedAsWritten: bool, storedAsIntended: bool)
    ensures storedAsWritten
    ensures !storedAsIntended
  {
    var policy := IngestionPolicy("deny-all", "default", "1", IngestionPolicySpec(Defaults(false, 0), "package keas"));
    var svc := new IngestionPolicyService();
    var _ := svc.AddOrUpdateIngestionPolicy(policy);
    svc.OnDeletedIngestionPolicy(policy);
    storedAsWritten := PolicyId(PolicyNamespace, policy.Name) in svc.policies;
    var fixed := new IngestionPolicyService();
    var _ := fixed.AddOrUpdateIngestionPolicy(policy);
    fixed.OnDeletedIngestionPolicyIntended(policy);
    storedAsIntended := PolicyId(PolicyNamespace, policy.Name) in fixed.policies;
  }
}
