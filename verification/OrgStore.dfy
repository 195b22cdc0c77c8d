/** The in-memory organisation store: organisations by id, an index from email to id, API
    keys by hash, and the bucket registry. */
module OrgStore {
  import opened Text
  import opened Wrappers

  function LowerChar(c: char): char {
    if 'A' <= c <= 'Z' then c - 'A' + 'a' else c
  }

  function ToLower(s: string): string {
    seq(|s|, i requires 0 <= i < |s| => LowerChar(s[i]))
  }

  function Normalize(email: string): string { ToLower(TrimSpace(email)) }

  /** Trimmed, with every capital letter made small and nothing else changed. */
  lemma NormalizeExactly(email: string)
    ensures |Normalize(email)| == |TrimSpace(email)|
    ensures forall i :: 0 <= i < |Normalize(email)| ==>
      var c := TrimSpace(email)[i];
      Normalize(email)[i] as int == c as int + if 65 <= c as int <= 90 then 32 else 0
  {
  }

  lemma NormalizeIdempotent(email: string)
    ensures Normalize(Normalize(email)) == Normalize(email)
  {
    var trimmed := TrimSpace(email);
    TrimSpaceFixedPoint(email);
    assert Trimmed(ToLower(trimmed));
    TrimSpaceFixedPoint(ToLower(trimmed));
    assert ToLower(ToLower(trimmed)) == ToLower(trimmed);
  }

  datatype Org = Org(id: string, name: string, email: string, plan: string, slackWebhook: string,
                     defaultBucket: string, customer: string, subscription: string)

  datatype ApiKey = ApiKey(id: string, org: string, hash: string, prefix: string, revoked: bool)

  datatype Store = Store(orgs: map<string, Org>, byEmail: map<string, string>, keys: map<string, ApiKey>,
                         buckets: set<string>)

  const NO_ORGS := Store(map[], map[], map[], {})

  /** The store's operations.  Minted ids and hashes are inputs, and so is the organisation that
      a downgrade happens to meet first. */
  datatype Op =
    | CreateOrg(name: string, email: string, newID: string)
    | UpdateSlack(org: string, url: string)
    | SetDefaultBucket(org: string, bucket: string)
    | ApplyCheckout(org: string, plan: string, customer: string, subscription: string)
    | Downgrade(subscription: string, met: string)
    | CreateKey(org: string, key: ApiKey)
    | UpsertBucket(org: string, bucket: string)

  function Update(s: Store, id: string, f: Org -> Org): Store {
    if id in s.orgs then s.(orgs := s.orgs[id := f(s.orgs[id])]) else s
  }

  function Step(s: Store, op: Op): Store {
    match op
    case CreateOrg(name, email, newID) =>
      var e := Normalize(email);
      if e != "" && e in s.byEmail then s
      else
        s.(orgs := s.orgs[newID := Org(newID, name, e, "trial", "", "", "", "")],
           byEmail := if e == "" then s.byEmail else s.byEmail[e := newID])
    case UpdateSlack(id, url) => Update(s, id, (o: Org) => o.(slackWebhook := url))
    case SetDefaultBucket(id, bucket) => Update(s, id, (o: Org) => o.(defaultBucket := bucket))
    case ApplyCheckout(id, plan, customer, subscription) =>
      Update(s, id, (o: Org) => o.(plan := plan, customer := customer, subscription := subscription))
    case Downgrade(subscription, met) =>
      if met in s.orgs && s.orgs[met].subscription == subscription
      then Update(s, met, (o: Org) => o.(plan := "trial", subscription := ""))
      else s
    case CreateKey(id, key) =>
      if id in s.orgs then s.(keys := s.keys[key.hash := key.(org := id, revoked := false)]) else s
    case UpsertBucket(org, bucket) => s.(buckets := s.buckets + {org + ":" + bucket})
  }

  /** Random ids and keys are new. */
  predicate Fresh(s: Store, op: Op) {
    && (op.CreateOrg? ==> op.newID !in s.orgs)
    && (op.CreateKey? ==> op.key.hash !in s.keys)
  }

  predicate FreshRun(s: Store, ops: seq<Op>)
    decreases ops
  {
    ops == [] || (Fresh(s, ops[0]) && FreshRun(Step(s, ops[0]), ops[1..]))
  }

  function Exec(s: Store, ops: seq<Op>): Store
    decreases ops
  {
    if ops == [] then s else Exec(Step(s, ops[0]), ops[1..])
  }

  /** The indexes agree with the organisations: an email is indexed, under one id, exactly when
      it is the non-empty normalised email of the organisation with that id, and every key
      belongs to an organisation that exists. */
  ghost predicate Consistent(s: Store) {
    && (forall e :: e in s.byEmail ==> e != "" && s.byEmail[e] in s.orgs && s.orgs[s.byEmail[e]].email == e)
    && (forall id :: id in s.orgs && s.orgs[id].email != "" ==>
         s.orgs[id].email in s.byEmail && s.byEmail[s.orgs[id].email] == id)
    && (forall id :: id in s.orgs ==> s.orgs[id].id == id)
    && (forall h :: h in s.keys ==> s.keys[h].hash == h && s.keys[h].org in s.orgs && !s.keys[h].revoked)
  }

  /** No operation drops an organisation, moves an email or reassigns a key. */
  predicate Extends(s: Store, t: Store) {
    && (forall id :: id in s.orgs ==> id in t.orgs && t.orgs[id].email == s.orgs[id].email)
    && (forall e :: e in s.byEmail ==> e in t.byEmail && t.byEmail[e] == s.byEmail[e])
    && (forall h :: h in s.keys ==> h in t.keys && t.keys[h] == s.keys[h])
  }

  lemma CreateConsistent(s: Store, name: string, email: string, newID: string)
    requires Consistent(s) && newID !in s.orgs
    ensures var t := Step(s, CreateOrg(name, email, newID));
            Consistent(t) && Extends(s, t)
  {
    NormalizeIdempotent(email);
    var t := Step(s, CreateOrg(name, email, newID));
    if t != s {
      assert forall id :: id in t.orgs ==> id == newID || (id in s.orgs && t.orgs[id] == s.orgs[id]);
      assert forall id :: id in s.orgs ==> id in t.orgs && t.orgs[id] == s.orgs[id];
    }
  }

  /** The same organisations under the same emails, with the same indexes. */
  ghost predicate SameIndexes(s: Store, t: Store) {
    && t.orgs.Keys == s.orgs.Keys
    && (forall id :: id in s.orgs ==> t.orgs[id].id == s.orgs[id].id && t.orgs[id].email == s.orgs[id].email)
    && t.byEmail == s.byEmail && t.keys == s.keys
  }

  lemma SameIndexesKeep(s: Store, t: Store)
    requires Consistent(s) && SameIndexes(s, t)
    ensures Consistent(t) && Extends(s, t)
  {
    assert forall id :: id in t.orgs <==> id in s.orgs;
  }

  lemma SameIndexesTransitive(s: Store, t: Store, u: Store)
    requires SameIndexes(s, t) && SameIndexes(t, u)
    ensures SameIndexes(s, u)
  {
    assert forall id :: id in t.orgs <==> id in s.orgs;
  }

  lemma UpdateKeeps(s: Store, id: string, f: Org -> Org)
    requires forall o: Org :: f(o).id == o.id && f(o).email == o.email
    ensures SameIndexes(s, Update(s, id, f))
  {
    assert forall other :: other in Update(s, id, f).orgs <==> other in s.orgs;
  }

  /** The operations on an organisation's other fields, and on buckets, touch neither index. */
  lemma FieldStepKeeps(s: Store, op: Op)
    requires !op.CreateOrg? && !op.CreateKey?
    ensures SameIndexes(s, Step(s, op))
  {
    match op
    case UpdateSlack(id, url) => UpdateKeeps(s, id, (o: Org) => o.(slackWebhook := url));
    case SetDefaultBucket(id, bucket) => UpdateKeeps(s, id, (o: Org) => o.(defaultBucket := bucket));
    case ApplyCheckout(id, plan, customer, subscription) =>
      UpdateKeeps(s, id, (o: Org) => o.(plan := plan, customer := customer, subscription := subscription));
    case Downgrade(_, met) => UpdateKeeps(s, met, (o: Org) => o.(plan := "trial", subscription := ""));
    case UpsertBucket(_, _) =>
  }

  // ---- What the operations write, field by field ----

  /** What becomes of an organisation that is there. */
  lemma FieldsAfter(s: Store, op: Op, id: string)
    requires id in s.orgs && Fresh(s, op)
    ensures id in Step(s, op).orgs
    ensures var o, p := s.orgs[id], Step(s, op).orgs[id];
            var downgraded := op.Downgrade? && op.met == id && o.subscription == op.subscription;
            && p.id == o.id && p.name == o.name && p.email == o.email
            && p.slackWebhook == (if op.UpdateSlack? && op.org == id then op.url else o.slackWebhook)
            && p.defaultBucket == (if op.SetDefaultBucket? && op.org == id then op.bucket else o.defaultBucket)
            && p.customer == (if op.ApplyCheckout? && op.org == id then op.customer else o.customer)
            && p.subscription == (if op.ApplyCheckout? && op.org == id then op.subscription
                                  else if downgraded then "" else o.subscription)
            && p.plan == (if op.ApplyCheckout? && op.org == id then op.plan else if downgraded then "trial" else o.plan)
  {
  }

  /** An organisation appears only by being created, on trial and with nothing else set, unless its
      email already has one. */
  lemma OrgCreated(s: Store, op: Op, id: string)
    requires id !in s.orgs
    ensures id in Step(s, op).orgs <==>
      op.CreateOrg? && op.newID == id && (Normalize(op.email) == "" || Normalize(op.email) !in s.byEmail)
    ensures id in Step(s, op).orgs ==>
      var p := Step(s, op).orgs[id];
      && p.id == id && p.name == op.name && p.email == Normalize(op.email) && p.plan == "trial"
      && p.slackWebhook == p.defaultBucket == p.customer == p.subscription == ""
  {
  }

  /** A key appears only by being minted for an organisation that exists, and is kept as it is, not
      revoked; a bucket only by being registered, under its organisation. */
  lemma KeysAndBucketsAfter(s: Store, op: Op, h: string, bucket: string)
    requires Fresh(s, op)
    ensures h in Step(s, op).keys <==> h in s.keys || (op.CreateKey? && op.key.hash == h && op.org in s.orgs)
    ensures h in s.keys ==> Step(s, op).keys[h] == s.keys[h]
    ensures h in Step(s, op).keys && h !in s.keys ==>
      var k := Step(s, op).keys[h];
      k.org == op.org && k.hash == h && k.id == op.key.id && k.prefix == op.key.prefix && !k.revoked
    ensures bucket in Step(s, op).buckets <==>
      bucket in s.buckets || (op.UpsertBucket? && bucket == op.org + ":" + op.bucket)
  {
  }

  lemma StepConsistent(s: Store, op: Op)
    requires Consistent(s) && Fresh(s, op)
    ensures Consistent(Step(s, op)) && Extends(s, Step(s, op))
  {
    match op
    case CreateOrg(name, email, newID) => CreateConsistent(s, name, email, newID);
    case CreateKey(_, _) =>
    case _ =>
      FieldStepKeeps(s, op);
      SameIndexesKeep(s, Step(s, op));
  }

  lemma ExtendsTransitive(s: Store, t: Store, u: Store)
    requires Extends(s, t) && Extends(t, u)
    ensures Extends(s, u)
  {
  }

  lemma {:induction false} RunConsistent(s: Store, ops: seq<Op>)
    requires Consistent(s) && FreshRun(s, ops)
    ensures Consistent(Exec(s, ops)) && Extends(s, Exec(s, ops))
    decreases ops
  {
    if ops != [] {
      StepConsistent(s, ops[0]);
      RunConsistent(Step(s, ops[0]), ops[1..]);
    }
  }

  /** In every run of the store with fresh ids and keys the indexes agree with the table. */
  lemma IndexesAgree(ops: seq<Op>)
    requires FreshRun(NO_ORGS, ops)
    ensures var s := Exec(NO_ORGS, ops);
            && (forall e, id :: e in s.byEmail && s.byEmail[e] == id <==> e != "" && id in s.orgs && s.orgs[id].email == e)
            && (forall h :: h in s.keys ==> s.keys[h].org in s.orgs)
  {
    RunConsistent(NO_ORGS, ops);
  }

  /** Two organisations never share a non-empty email. */
  lemma OneOrgPerEmail(s: Store, id: string, id': string)
    requires Consistent(s) && id in s.orgs && id' in s.orgs
    requires s.orgs[id].email == s.orgs[id'].email != ""
    ensures id == id'
  {
    assert s.byEmail[s.orgs[id].email] == id;
  }

  // ---- Looking up a key ----

  datatype Auth = InvalidKey | RevokedKey | Authenticated(org: Org, keyID: string, prefix: string)

  function Lookup(s: Store, hash: string -> string, raw: string): Auth {
    if |raw| < 4 || raw[..3] != "tg_" then InvalidKey
    else if hash(raw) !in s.keys then InvalidKey
    else
      var key := s.keys[hash(raw)];
      if key.revoked then RevokedKey
      else if key.org !in s.orgs then InvalidKey
      else Authenticated(s.orgs[key.org], key.id, key.prefix)
  }

  /** A well-formed key is accepted exactly when its hash is stored, and then for the
      organisation it was minted for. */
  lemma LookupExactly(s: Store, hash: string -> string, raw: string)
    requires Consistent(s) && |raw| >= 4 && raw[..3] == "tg_"
    ensures Lookup(s, hash, raw).Authenticated? <==> hash(raw) in s.keys
    ensures !Lookup(s, hash, raw).RevokedKey?
    ensures hash(raw) in s.keys ==>
      var (auth, key) := (Lookup(s, hash, raw), s.keys[hash(raw)]);
      auth.org.id == key.org && auth.org == s.orgs[key.org] && auth.keyID == key.id && auth.prefix == key.prefix
    ensures hash(raw) !in s.keys ==> Lookup(s, hash, raw) == InvalidKey
  {
  }

  /** Anything else is invalid, whatever its hash. */
  lemma MalformedKeyIsInvalid(s: Store, hash: string -> string, raw: string)
    requires !("tg_" <= raw) || |raw| < 4
    ensures Lookup(s, hash, raw) == InvalidKey
  {
  }

  /** The record kept of a new raw key: its hash and its first eleven characters. */
  function Minted(hash: string -> string, org: string, raw: string, keyID: string): ApiKey {
    ApiKey(keyID, org, hash(raw), if |raw| > 11 then raw[..11] else raw, false)
  }

  /** A stored key that is revoked is refused as such, and one without its organisation as invalid. */
  lemma UnusableKeyIsRefused(s: Store, hash: string -> string, raw: string)
    requires |raw| >= 4 && raw[..3] == "tg_" && hash(raw) in s.keys
    ensures Lookup(s, hash, raw) == RevokedKey <==> s.keys[hash(raw)].revoked
    ensures Lookup(s, hash, raw) == InvalidKey <==> !s.keys[hash(raw)].revoked && s.keys[hash(raw)].org !in s.orgs
  {
  }

  /** "tg_" and eight more characters of the key are kept readable, and the rest only as a hash. */
  lemma MintedExactly(hash: string -> string, org: string, raw: string, keyID: string)
    ensures var k := Minted(hash, org, raw, keyID);
            && k.id == keyID && k.org == org && k.hash == hash(raw) && !k.revoked
            && k.prefix <= raw && |k.prefix| == if |raw| < 11 then |raw| else 11
  {
  }

  // ---- The store object ----

  class MemoryOrgStore {
    var orgs: map<string, Org>
    var byEmail: map<string, string>
    var keys: map<string, ApiKey>
    var buckets: set<string>
    const hash: string -> string

    constructor (hash: string -> string)
      ensures Value() == NO_ORGS && this.hash == hash
    {
      orgs, byEmail, keys, buckets := map[], map[], map[], {};
      this.hash := hash;
    }

    function Value(): Store
      reads this
    {
      Store(orgs, byEmail, keys, buckets)
    }

    method CreateOrgWithEmail(name: string, email: string, newID: string) returns (org: Org)
      requires Consistent(Value()) && newID !in orgs
      modifies this
      ensures Value() == Step(old(Value()), CreateOrg(name, email, newID))
      ensures Consistent(Value())
      ensures org.id in orgs && orgs[org.id] == org && org.email == Normalize(email)
      ensures org.email != "" ==> byEmail[org.email] == org.id
    {
      StepConsistent(Value(), CreateOrg(name, email, newID));
      NormalizeIdempotent(email);
      var e := Normalize(email);
      if e != "" && e in byEmail {
        assert byEmail[e] in orgs;
        return orgs[byEmail[e]];
      }
      org := Org(newID, name, e, "trial", "", "", "", "");
      orgs := orgs[newID := org];
      if e != "" {
        byEmail := byEmail[e := newID];
      }
    }

    method FindOrgByEmail(email: string) returns (found: Option<Org>)
      requires Consistent(Value())
      ensures found.Some? <==> exists id :: id in orgs && orgs[id].email == Normalize(email) != ""
      ensures found.Some? <==> Normalize(email) in byEmail
      ensures found.Some? ==> found.value.id == byEmail[Normalize(email)]
      ensures found.Some? ==> found.value.id in orgs && orgs[found.value.id] == found.value
    {
      var e := Normalize(email);
      if e !in byEmail {
        return None;
      }
      assert byEmail[e] in orgs;
      return Some(orgs[byEmail[e]]);
    }

    method Apply(op: Op) returns (ok: bool)
      requires op.UpdateSlack? || op.SetDefaultBucket? || op.ApplyCheckout?
      modifies this`orgs
      ensures ok <==> op.org in orgs
      ensures Value() == Step(old(Value()), op)
    {
      if op.org !in orgs {
        return false;
      }
      var o := orgs[op.org];
      match op {
        case UpdateSlack(_, url) => o := o.(slackWebhook := url);
        case SetDefaultBucket(_, bucket) => o := o.(defaultBucket := bucket);
        case ApplyCheckout(_, plan, customer, subscription) =>
          o := o.(plan := plan, customer := customer, subscription := subscription);
      }
      orgs := orgs[op.org := o];
      return true;
    }

    /** Visits the organisations in no particular order and downgrades the first that has the
        subscription; every other one stays as it was. */
    method DowngradeBySubscription(subscription: string) returns (ok: bool, ghost met: string)
      modifies this`orgs
      ensures ok <==> exists id :: id in old(orgs) && old(orgs)[id].subscription == subscription
      ensures ok ==> met in old(orgs) && old(orgs)[met].subscription == subscription
      ensures ok ==> met in orgs && orgs[met] == old(orgs)[met].(plan := "trial", subscription := "")
      ensures Value() == if ok then Step(old(Value()), Downgrade(subscription, met)) else old(Value())
    {
      met := "";
      var rest := orgs.Keys;
      while rest != {}
        invariant orgs == old(orgs) && rest <= orgs.Keys
        invariant forall id :: id in orgs && id !in rest ==> orgs[id].subscription != subscription
        decreases rest
      {
        var id :| id in rest;
        rest := rest - {id};
        var o := orgs[id];
        if o.subscription == subscription {
          orgs := orgs[id := o.(plan := "trial", subscription := "")];
          return true, id;
        }
      }
      ok := false;
    }

    method CreateAPIKey(org: string, raw: string, keyID: string) returns (key: Option<ApiKey>)
      requires Consistent(Value()) && hash(raw) !in keys
      requires |raw| >= 4 && raw[..3] == "tg_"
      modifies this
      ensures Consistent(Value())
      ensures key.Some? <==> org in orgs
      ensures key.Some? ==> key.value == Minted(hash, org, raw, keyID)
      ensures Value() == Step(old(Value()), CreateKey(org, Minted(hash, org, raw, keyID)))
      ensures key.Some? ==> Lookup(Value(), hash, raw) == Authenticated(orgs[org], keyID, key.value.prefix)
    {
      if org !in orgs {
        return None;
      }
      var minted := Minted(hash, org, raw, keyID);
      ghost var before := Value();
      keys := keys[hash(raw) := minted];
      key := Some(minted);
      assert Value() == Step(before, CreateKey(org, minted));
      assert Consistent(Value()) by {
        StepConsistent(before, CreateKey(org, minted));
      }
    }

    method LookupAPIKey(raw: string) returns (auth: Auth)
      ensures auth == Lookup(Value(), hash, raw)
    {
      if raw == "" || |raw| < 4 || raw[..3] != "tg_" {
        return InvalidKey;
      }
      if hash(raw) !in keys {
        return InvalidKey;
      }
      var key := keys[hash(raw)];
      if key.revoked {
        return RevokedKey;
      }
      if key.org !in orgs {
        return InvalidKey;
      }
      return Authenticated(orgs[key.org], key.id, key.prefix);
    }

    method UpsertBucket(org: string, bucket: string)
      modifies this`buckets
      ensures Value() == Step(old(Value()), Op.UpsertBucket(org, bucket))
    {
      buckets := buckets + {org + ":" + bucket};
    }
  }
}
