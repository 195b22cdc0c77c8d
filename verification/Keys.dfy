/** The names under which the ledger lives in Redis. */
module Keys {

  const BUDGET := "budget:"
  const RESERVATION := "reservation:"
  const DEFAULT_ORG := "default"

  function OrgOrDefault(org: string): string {
    if org == "" then DEFAULT_ORG else org
  }

  function BudgetKey(org: string, bucket: string): string {
    BUDGET + OrgOrDefault(org) + ":" + bucket
  }

  /** The names in full; without an organisation it is "default". */
  lemma KeyNames(org: string, bucket: string)
    ensures BudgetKey("", bucket) == "budget:default:" + bucket
    ensures org != "" ==> BudgetKey(org, bucket) == "budget:" + org + ":" + bucket
    ensures ReservationKey(bucket) == "reservation:" + bucket
  {
    assert "budget:" + "default" + ":" + bucket == "budget:default:" + bucket;
  }

  /** What the reservation hash stores, so that a script can rebuild the budget key. */
  function ScopedBucketID(org: string, bucket: string): string {
    OrgOrDefault(org) + ":" + bucket
  }

  function ReservationKey(id: string): string { RESERVATION + id }

  /** The parts before and after the first colon. */
  function SplitScope(scoped: string): (string, string) {
    SplitScopeFrom(scoped, 0)
  }

  function SplitScopeFrom(scoped: string, i: nat): (string, string)
    requires i <= |scoped|
    decreases |scoped| - i
  {
    if i == |scoped| then (DEFAULT_ORG, scoped)
    else if scoped[i] == ':' then (scoped[..i], scoped[i + 1..])
    else SplitScopeFrom(scoped, i + 1)
  }

  method ParseScopedBucket(scoped: string) returns (org: string, bucket: string)
    ensures (org, bucket) == SplitScope(scoped)
  {
    for i := 0 to |scoped|
      invariant SplitScope(scoped) == SplitScopeFrom(scoped, i)
    {
      if scoped[i] == ':' {
        return scoped[..i], scoped[i + 1..];
      }
    }
    return DEFAULT_ORG, scoped;
  }

  /** The script's 'budget:' .. bucket_id is the key the caller computed. */
  lemma ScopedRebuildsBudgetKey(org: string, bucket: string)
    ensures BUDGET + ScopedBucketID(org, bucket) == BudgetKey(org, bucket)
  {
  }

  lemma {:induction false} SplitAtFirstColon(scoped: string, i: nat, colon: nat)
    requires i <= colon < |scoped| && scoped[colon] == ':'
    requires ':' !in scoped[i..colon]
    ensures SplitScopeFrom(scoped, i) == (scoped[..colon], scoped[colon + 1..])
    decreases colon - i
  {
    if i < colon {
      assert scoped[i] == scoped[i..colon][0];
      assert scoped[i + 1..colon] == scoped[i..colon][1..];
      SplitAtFirstColon(scoped, i + 1, colon);
    }
  }

  lemma FirstColon(s: string) returns (colon: nat)
    requires ':' in s
    ensures colon < |s| && s[colon] == ':' && ':' !in s[..colon]
  {
    colon := 0;
    while s[colon] != ':'
      invariant colon < |s| && ':' in s[colon..] && ':' !in s[..colon]
      decreases |s| - colon
    {
      assert s[colon..] == [s[colon]] + s[colon + 1..];
      assert s[..colon + 1] == s[..colon] + [s[colon]];
      colon := colon + 1;
    }
  }

  /** Parsing a scoped id gives back the pair it was made of exactly when the organisation
      has no colon. */
  lemma ParseInvertsScope(org: string, bucket: string)
    ensures SplitScope(ScopedBucketID(org, bucket)) == (OrgOrDefault(org), bucket)
      <==> ':' !in OrgOrDefault(org)
  {
    var o := OrgOrDefault(org);
    var scoped := ScopedBucketID(org, bucket);
    if ':' !in o {
      assert scoped[0..|o|] == o;
      SplitAtFirstColon(scoped, 0, |o|);
    } else {
      var colon := FirstColon(o);
      assert scoped[0..colon] == o[..colon];
      SplitAtFirstColon(scoped, 0, colon);
      assert |scoped[..colon]| < |o|;
    }
  }

  /** A stored id is what its parts would be scoped to exactly when it has a non-empty part
      before a colon. */
  lemma ScopeInvertsParse(scoped: string)
    ensures var (org, bucket) := SplitScope(scoped);
            ScopedBucketID(org, bucket) == scoped <==> ':' in scoped && scoped[0] != ':'
    ensures var (org, bucket) := SplitScope(scoped);
            if ':' in scoped then org + ":" + bucket == scoped && ':' !in org
            else org == "default" && bucket == scoped
  {
    if ':' in scoped {
      var colon := FirstColon(scoped);
      assert scoped[0..colon] == scoped[..colon];
      SplitAtFirstColon(scoped, 0, colon);
      assert scoped == scoped[..colon] + ":" + scoped[colon + 1..];
    } else {
      NoColon(scoped, 0);
    }
  }

  lemma {:induction false} NoColon(scoped: string, i: nat)
    requires i <= |scoped| && ':' !in scoped
    ensures SplitScopeFrom(scoped, i) == (DEFAULT_ORG, scoped)
    decreases |scoped| - i
  {
    if i < |scoped| {
      NoColon(scoped, i + 1);
    }
  }

  /** One organisation's name continues the other's past a colon. */
  predicate Clash(o: string, o': string) {
    o + ":" <= o' || o' + ":" <= o
  }

  /** Two pairs share a budget key only if they are the same or their organisations clash. */
  lemma BudgetKeyInjective(org: string, bucket: string, org': string, bucket': string)
    requires BudgetKey(org, bucket) == BudgetKey(org', bucket')
    requires !Clash(OrgOrDefault(org), OrgOrDefault(org'))
    ensures OrgOrDefault(org) == OrgOrDefault(org') && bucket == bucket'
  {
    var o, o' := OrgOrDefault(org), OrgOrDefault(org');
    ScopedRebuildsBudgetKey(org, bucket);
    ScopedRebuildsBudgetKey(org', bucket');
    PrefixInjective(BUDGET, ScopedBucketID(org, bucket), ScopedBucketID(org', bucket'));
    if |o| < |o'| {
      PrefixOf(o + ":", bucket, o', ":" + bucket');
    } else if |o'| < |o| {
      PrefixOf(o' + ":", bucket', o, ":" + bucket);
    } else {
      assert (o + ":" + bucket)[..|o|] == o && (o' + ":" + bucket')[..|o|] == o';
      assert (o + ":" + bucket)[|o| + 1..] == bucket && (o' + ":" + bucket')[|o| + 1..] == bucket';
    }
  }

  lemma PrefixOf(s: string, t: string, s': string, t': string)
    requires s + t == s' + t' && |s| <= |s'|
    ensures s <= s'
  {
    assert (s + t)[..|s|] == s && (s' + t')[..|s|] == s'[..|s|];
  }

  /** Where one name does continue the other, some of their named buckets share a key. */
  lemma ClashCollides(o: string, o': string) returns (bucket: string, bucket': string)
    requires o != "" && o + ":" <= o'
    ensures bucket != "" && bucket' != "" && BudgetKey(o, bucket) == BudgetKey(o', bucket')
  {
    bucket, bucket' := o'[|o| + 1..] + ":x", "x";
    assert o' == o + ":" + o'[|o| + 1..];
    assert BUDGET + o + ":" + bucket == BUDGET + o' + ":" + bucket';
  }

  /** Whether a bucket of one organisation and a bucket of the other, both with a name, have the
      same key. */
  ghost predicate ShareKey(org: string, org': string) {
    exists bucket, bucket' :: bucket != "" && bucket' != "" && BudgetKey(org, bucket) == BudgetKey(org', bucket')
  }

  /** So two different organisations have buckets with the same key exactly when they clash;
      without a colon in either they never do. */
  lemma BudgetKeyCollision(org: string, org': string)
    requires OrgOrDefault(org) != OrgOrDefault(org')
    ensures ShareKey(org, org') <==> Clash(OrgOrDefault(org), OrgOrDefault(org'))
    ensures Clash(OrgOrDefault(org), OrgOrDefault(org')) ==> ':' in OrgOrDefault(org) || ':' in OrgOrDefault(org')
  {
    var o, o' := OrgOrDefault(org), OrgOrDefault(org');
    if Clash(o, o') {
      if o + ":" <= o' {
        assert o'[|o|] == ':';
        var bucket, bucket' := ClashCollides(o, o');
        assert BudgetKey(org, bucket) == BudgetKey(org', bucket');
      } else {
        assert o[|o'|] == ':';
        var bucket', bucket := ClashCollides(o', o);
        assert BudgetKey(org, bucket) == BudgetKey(org', bucket');
      }
    } else {
      forall bucket, bucket' ensures BudgetKey(org, bucket) != BudgetKey(org', bucket') {
        if BudgetKey(org, bucket) == BudgetKey(org', bucket') {
          BudgetKeyInjective(org, bucket, org', bucket');
        }
      }
    }
  }

  lemma KeyspacesDisjoint(scoped: string, id: string)
    ensures BUDGET + scoped != ReservationKey(id)
  {
    assert (BUDGET + scoped)[0] == 'b';
    assert ReservationKey(id)[0] == 'r';
  }

  lemma PrefixesDiffer(k: string)
    ensures !(BUDGET <= k && RESERVATION <= k)
  {
    if BUDGET <= k {
      assert k[0] == 'b';
    }
  }

  lemma PrefixInjective(p: string, s: string, t: string)
    ensures p + s == p + t <==> s == t
  {
    assert (p + s)[|p|..] == s && (p + t)[|p|..] == t;
  }
}
