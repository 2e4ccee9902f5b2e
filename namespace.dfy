/** The fully-qualified Event Hubs namespace built from the configured one. */
module Namespace {

  const ServiceBusSuffix := ".servicebus.windows.net"

  /** Python's substring test `sub in s`, searching from the left. */
  function Contains(s: string, sub: string): bool
    decreases |s|
  {
    if |sub| <= |s| && s[..|sub|] == sub then true
    else if |s| == 0 then false
    else Contains(s[1..], sub)
  }

  /** `sub` occurs in `s` starting at index `i`. */
  ghost predicate OccursAt(s: string, sub: string, i: nat) {
    i + |sub| <= |s| && s[i..i + |sub|] == sub
  }

  /** The search agrees with the declarative definition of an occurrence. */
  lemma {:induction false} ContainsIff(s: string, sub: string)
    ensures Contains(s, sub) <==> exists i: nat :: OccursAt(s, sub, i)
    decreases |s|
  {
    if |sub| <= |s| && s[..|sub|] == sub {
      assert OccursAt(s, sub, 0);
    } else if |s| == 0 {
      assert |sub| > 0;
    } else {
      ContainsIff(s[1..], sub);
      forall j: nat | OccursAt(s[1..], sub, j) ensures OccursAt(s, sub, j + 1) {
        assert s[1..][j..j + |sub|] == s[j + 1..][..|sub|] == s[j + 1..j + 1 + |sub|];
      }
      forall i: nat | OccursAt(s, sub, i) ensures i >= 1 && OccursAt(s[1..], sub, i - 1) {
        assert s[1..][i - 1..i - 1 + |sub|] == s[i..i + |sub|];
      }
    }
  }

  /** Whatever precedes it, a string ends with an occurrence of itself. */
  lemma AppendedContains(s: string, t: string)
    ensures Contains(s + t, t)
  {
    ContainsIff(s + t, t);
    assert OccursAt(s + t, t, |s|);
  }

  /**
   * The namespace is kept when it already names the Service Bus domain
   * anywhere in it, and otherwise gets the domain appended.
   */
  function FullyQualifiedNamespace(ns: string): (r: string)
    ensures Contains(r, ServiceBusSuffix)
    ensures ns <= r
    ensures Contains(ns, ServiceBusSuffix) <==> r == ns
    ensures !Contains(ns, ServiceBusSuffix) <==> r == ns + ServiceBusSuffix
  {
    if Contains(ns, ServiceBusSuffix) then ns
    else AppendedContains(ns, ServiceBusSuffix); ns + ServiceBusSuffix
  }

  /** Normalising an already normalised namespace changes nothing. */
  lemma FullyQualifiedIdempotent(ns: string)
    ensures FullyQualifiedNamespace(FullyQualifiedNamespace(ns)) == FullyQualifiedNamespace(ns)
  {
  }
}
