/** Self-serve provisioning: the sequence of store operations that ProvisionSignup makes, alone
    and interleaved with any number of other provisionings and store operations. */
module Provision {
  import opened OrgStore
  import opened Wrappers

  const DEFAULT_BUCKET := "default"

  function ParseSignupPlan(plan: string): Option<string> {
    var p := Normalize(plan);
    if p in ["trial", "indie", "team"] then Some(p) else None
  }

  /** A plan is one of three, in whatever case and padding. */
  lemma PlansAre(plan: string)
    ensures ParseSignupPlan(plan).Some? <==> Normalize(plan) == "trial" || Normalize(plan) == "indie" || Normalize(plan) == "team"
    ensures ParseSignupPlan(plan).Some? ==> ParseSignupPlan(plan).value == Normalize(plan)
  {
  }

  /** A request to provision, with the inputs of ProvisionSignup. */
  datatype Signup = Signup(session: string, email: string, plan: string, customer: string, subscription: string) {
    predicate Acceptable() {
      Normalize(email) != "" && ParseSignupPlan(plan).Some? && session != ""
    }
  }

  // ---- One provisioning as a sequence of atomic steps ----

  /** Which store operation comes next. */
  datatype Stage = Find | Create | Checkout | Bucket | Register | Mint | Finished

  datatype Provisioning = Provisioning(signup: Signup, stage: Stage, org: string, keyHash: string)

  /** One atomic step, with the ids it would mint.  A step whose organisation has gone would fail
      and the provisioning would stay where it is. */
  function Advance(s: Store, p: Provisioning, newID: string, key: ApiKey): (Store, Provisioning) {
    var email := Normalize(p.signup.email);
    match p.stage
    case Find =>
      // FindOrgByEmail normalises once more
      var e := Normalize(email);
      (s, if e in s.byEmail then p.(stage := Checkout, org := s.byEmail[e]) else p.(stage := Create))
    case Create =>
      var t := Step(s, CreateOrg(email, email, newID));
      (t, if Normalize(email) in t.byEmail then p.(stage := Checkout, org := t.byEmail[Normalize(email)]) else p)
    case Checkout =>
      if p.org !in s.orgs || ParseSignupPlan(p.signup.plan).None? then (s, p)
      else
        (Step(s, ApplyCheckout(p.org, ParseSignupPlan(p.signup.plan).value, p.signup.customer, p.signup.subscription)),
         p.(stage := Bucket))
    case Bucket =>
      if p.org !in s.orgs then (s, p) else (Step(s, SetDefaultBucket(p.org, DEFAULT_BUCKET)), p.(stage := Register))
    case Register =>
      (Step(s, UpsertBucket(p.org, DEFAULT_BUCKET)), p.(stage := Mint))
    case Mint =>
      if p.org !in s.orgs then (s, p)
      else (Step(s, CreateKey(p.org, key)), p.(stage := Finished, keyHash := key.hash))
    case Finished => (s, p)
  }

  // ---- Many provisionings at once ----

  datatype World = World(store: Store, running: map<nat, Provisioning>)

  datatype Event =
    | Other(op: Op)
    | Begin(n: nat, signup: Signup)
    | Move(n: nat, newID: string, key: ApiKey)

  predicate Allowed(w: World, ev: Event) {
    match ev
    case Other(op) => Fresh(w.store, op)
    case Begin(n, signup) => n !in w.running && signup.Acceptable()
    case Move(n, newID, key) => n in w.running && newID !in w.store.orgs && key.hash !in w.store.keys
  }

  function Next(w: World, ev: Event): World {
    match ev
    case Other(op) => w.(store := Step(w.store, op))
    case Begin(n, signup) => w.(running := w.running[n := Provisioning(signup, Find, "", "")])
    case Move(n, newID, key) =>
      if n !in w.running then w
      else
        var (s, p) := Advance(w.store, w.running[n], newID, key);
        World(s, w.running[n := p])
  }

  predicate AllowedRun(w: World, events: seq<Event>)
    decreases events
  {
    events == [] || (Allowed(w, events[0]) && AllowedRun(Next(w, events[0]), events[1..]))
  }

  function Run(w: World, events: seq<Event>): World
    decreases events
  {
    if events == [] then w else Run(Next(w, events[0]), events[1..])
  }

  /** Whether a provisioning has got as far as having an organisation. */
  predicate HasOrg(p: Provisioning) { !p.stage.Find? && !p.stage.Create? }

  /** A provisioning that has an organisation has the one indexed under its email, and the key it
      minted resolves to it. */
  predicate Settled(s: Store, p: Provisioning) {
    var email := Normalize(p.signup.email);
    && p.signup.Acceptable()
    && (HasOrg(p) ==> email in s.byEmail && s.byEmail[email] == p.org)
    && (p.stage.Finished? ==> p.keyHash in s.keys && s.keys[p.keyHash].org == p.org)
  }

  ghost predicate Inv(w: World) {
    Consistent(w.store) && forall n :: n in w.running ==> Settled(w.store, w.running[n])
  }

  lemma SettledPersists(s: Store, t: Store, p: Provisioning)
    requires Settled(s, p) && Extends(s, t)
    ensures Settled(t, p)
  {
  }

  /** The store operation a provisioning makes next, if any. */
  lemma AdvanceKeepsStore(s: Store, p: Provisioning, newID: string, key: ApiKey)
    requires Consistent(s) && newID !in s.orgs && key.hash !in s.keys
    ensures Consistent(Advance(s, p, newID, key).0) && Extends(s, Advance(s, p, newID, key).0)
  {
    var email := Normalize(p.signup.email);
    match p.stage
    case Create => CreateConsistent(s, email, email, newID);
    case Checkout =>
      if p.org in s.orgs && ParseSignupPlan(p.signup.plan).Some? {
        StepConsistent(s, ApplyCheckout(p.org, ParseSignupPlan(p.signup.plan).value, p.signup.customer, p.signup.subscription));
      }
    case Bucket => StepConsistent(s, SetDefaultBucket(p.org, DEFAULT_BUCKET));
    case Register => StepConsistent(s, UpsertBucket(p.org, DEFAULT_BUCKET));
    case Mint => StepConsistent(s, CreateKey(p.org, key));
    case _ =>
  }

  lemma AdvanceSettles(s: Store, p: Provisioning, newID: string, key: ApiKey)
    requires Consistent(s) && Settled(s, p) && newID !in s.orgs && key.hash !in s.keys
    ensures Settled(Advance(s, p, newID, key).0, Advance(s, p, newID, key).1)
  {
    if p.stage.Create? {
      CreateSettles(s, p, newID, key);
    } else if p.stage.Find? {
      NormalizeIdempotent(p.signup.email);
    } else {
      AdvanceKeepsStore(s, p, newID, key);
      SettledPersists(s, Advance(s, p, newID, key).0, p);
      LaterStep(s, p, newID, key);
    }
  }

  lemma CreateSettles(s: Store, p: Provisioning, newID: string, key: ApiKey)
    requires Consistent(s) && Settled(s, p) && p.stage.Create? && newID !in s.orgs
    ensures Settled(Advance(s, p, newID, key).0, Advance(s, p, newID, key).1)
  {
    NormalizeIdempotent(p.signup.email);
    CreateResolves(s, Normalize(p.signup.email), newID);
  }

  /** After it has its organisation a provisioning keeps it, and only mints its key. */
  lemma LaterStep(s: Store, p: Provisioning, newID: string, key: ApiKey)
    requires HasOrg(p)
    ensures var (t, q) := Advance(s, p, newID, key);
            && q.signup == p.signup && q.org == p.org && HasOrg(q)
            && (q.stage.Finished? ==>
                 if p.stage.Finished? then q == p else q.keyHash in t.keys && t.keys[q.keyHash].org == p.org)
  {
  }

  lemma NextKeepsInv(w: World, ev: Event)
    requires Inv(w) && Allowed(w, ev)
    ensures Inv(Next(w, ev)) && Extends(w.store, Next(w, ev).store)
  {
    match ev
    case Other(op) =>
      StepConsistent(w.store, op);
    case Begin(_, _) =>
    case Move(n, newID, key) =>
      AdvanceKeepsStore(w.store, w.running[n], newID, key);
      AdvanceSettles(w.store, w.running[n], newID, key);
    var w' := Next(w, ev);
    forall n | n in w'.running && n in w.running && w'.running[n] == w.running[n] ensures Settled(w'.store, w'.running[n]) {
      SettledPersists(w.store, w'.store, w.running[n]);
    }
  }

  lemma {:induction false} RunKeepsInv(w: World, events: seq<Event>)
    requires Inv(w) && AllowedRun(w, events)
    ensures Inv(Run(w, events)) && Extends(w.store, Run(w, events).store)
    decreases events
  {
    if events != [] {
      NextKeepsInv(w, events[0]);
      RunKeepsInv(Next(w, events[0]), events[1..]);
    }
  }

  /** However provisionings are replayed or interleaved, with each other and with other store
      operations, and wherever they stop: any two for the same email that have an organisation have
      the same one, it is the only one with that email, and if one of them minted a key, that key
      is accepted for it. */
  lemma OneOrgHoweverInterleaved(events: seq<Event>, m: nat, n: nat, hash: string -> string, raw: string)
    requires AllowedRun(World(NO_ORGS, map[]), events)
    requires var w := Run(World(NO_ORGS, map[]), events);
             && m in w.running && n in w.running && HasOrg(w.running[m]) && HasOrg(w.running[n])
             && Normalize(w.running[m].signup.email) == Normalize(w.running[n].signup.email)
    ensures var w := Run(World(NO_ORGS, map[]), events);
            var email := Normalize(w.running[n].signup.email);
            && w.running[m].org == w.running[n].org
            && (forall id :: id in w.store.orgs && w.store.orgs[id].email == email <==> id == w.running[n].org)
            && (w.running[n].stage.Finished? && |raw| >= 4 && raw[..3] == "tg_" && hash(raw) == w.running[n].keyHash ==>
                 Lookup(w.store, hash, raw).Authenticated? && Lookup(w.store, hash, raw).org.id == w.running[n].org)
  {
    RunKeepsInv(World(NO_ORGS, map[]), events);
    var w := Run(World(NO_ORGS, map[]), events);
    assert Settled(w.store, w.running[m]) && Settled(w.store, w.running[n]);
    if w.running[n].stage.Finished? && |raw| >= 4 && raw[..3] == "tg_" && hash(raw) == w.running[n].keyHash {
      LookupExactly(w.store, hash, raw);
    }
  }

  // ---- ProvisionSignup ----

  datatype Outcome = Rejected | SeedFailed(org: string) | SecretFailed(org: string) | Provisioned(org: string, raw: string)

  /** The organisation an undisturbed provisioning resolves to. */
  function OrgFor(s: Store, signup: Signup, newID: string): string {
    var email := Normalize(signup.email);
    if email in s.byEmail then s.byEmail[email] else newID
  }

  /** The store operations of an undisturbed provisioning, up to the minting of its key. */
  function SetUp(s: Store, signup: Signup, newID: string): Store
    requires signup.Acceptable()
  {
    var email := Normalize(signup.email);
    var org := OrgFor(s, signup, newID);
    Configure(Step(s, CreateOrg(email, email, newID)), signup, org)
  }

  function Configure(s: Store, signup: Signup, org: string): Store
    requires signup.Acceptable()
  {
    var s1 := Step(s, ApplyCheckout(org, ParseSignupPlan(signup.plan).value, signup.customer, signup.subscription));
    var s2 := Step(s1, SetDefaultBucket(org, DEFAULT_BUCKET));
    Step(s2, UpsertBucket(org, DEFAULT_BUCKET))
  }

  lemma ConfigureKeeps(s: Store, signup: Signup, org: string)
    requires signup.Acceptable()
    ensures SameIndexes(s, Configure(s, signup, org))
  {
    var op1 := ApplyCheckout(org, ParseSignupPlan(signup.plan).value, signup.customer, signup.subscription);
    var s1 := Step(s, op1);
    var s2 := Step(s1, SetDefaultBucket(org, DEFAULT_BUCKET));
    FieldStepKeeps(s, op1);
    FieldStepKeeps(s1, SetDefaultBucket(org, DEFAULT_BUCKET));
    FieldStepKeeps(s2, UpsertBucket(org, DEFAULT_BUCKET));
    SameIndexesTransitive(s, s1, s2);
    SameIndexesTransitive(s, s2, Step(s2, UpsertBucket(org, DEFAULT_BUCKET)));
  }

  lemma CreateResolves(s: Store, email: string, newID: string)
    requires Consistent(s) && email != "" && Normalize(email) == email
    ensures var t, org := Step(s, CreateOrg(email, email, newID)), if email in s.byEmail then s.byEmail[email] else newID;
            t.byEmail == s.byEmail[email := org] && t.orgs.Keys == s.orgs.Keys + {org} && t.keys == s.keys
  {
  }

  lemma SetUpResolves(s: Store, signup: Signup, newID: string)
    requires signup.Acceptable() && Consistent(s) && newID !in s.orgs
    ensures var t, org := SetUp(s, signup, newID), OrgFor(s, signup, newID);
            && Consistent(t) && Extends(s, t) && t.keys == s.keys
            && t.byEmail == s.byEmail[Normalize(signup.email) := org]
            && t.orgs.Keys == s.orgs.Keys + {org}
  {
    NormalizeIdempotent(signup.email);
    var email := Normalize(signup.email);
    var s0 := Step(s, CreateOrg(email, email, newID));
    CreateConsistent(s, email, email, newID);
    CreateResolves(s, email, newID);
    ConfigureKeeps(s0, signup, OrgFor(s, signup, newID));
    SameIndexesKeep(s0, SetUp(s, signup, newID));
    ExtendsTransitive(s, s0, SetUp(s, signup, newID));
  }

  /** The moves of one provisioning that nobody disturbs: two until it has an organisation, or one
      if there already is one, and four more.  `newID` is minted if needed, `spare` never is. */
  function MovesOf(s: Store, n: nat, signup: Signup, newID: string, spare: string, key: ApiKey): seq<Event> {
    (if Normalize(signup.email) in s.byEmail then [Move(n, newID, key)] else [Move(n, newID, key), Move(n, newID, key)])
    + FourMoves(n, spare, key)
  }

  function FourMoves(n: nat, spare: string, key: ApiKey): seq<Event> {
    [Move(n, spare, key), Move(n, spare, key), Move(n, spare, key), Move(n, spare, key)]
  }

  lemma RunMove(w: World, n: nat, newID: string, key: ApiKey, rest: seq<Event>, s: Store, p: Provisioning)
    requires n in w.running && newID !in w.store.orgs && key.hash !in w.store.keys
    requires Advance(w.store, w.running[n], newID, key) == (s, p)
    ensures var w' := World(s, w.running[n := p]);
            && Run(w, [Move(n, newID, key)] + rest) == Run(w', rest)
            && AllowedRun(w, [Move(n, newID, key)] + rest) == AllowedRun(w', rest)
  {
    assert ([Move(n, newID, key)] + rest)[1..] == rest;
  }

  /** What is left of an undisturbed provisioning that has its organisation and is at some stage:
      the moves end in this store, with the key minted. */
  ghost predicate Completes(w: World, n: nat, moves: seq<Event>, p: Provisioning, s: Store, key: ApiKey) {
    && Run(w, moves) == World(s, w.running[n := p.(stage := Finished, keyHash := key.hash)])
    && AllowedRun(w, moves)
  }

  predicate Underway(w: World, n: nat, p: Provisioning, stage: Stage, spare: string, key: ApiKey) {
    && n in w.running && w.running[n] == p && p.stage == stage && p.signup.Acceptable()
    && p.org in w.store.orgs && spare !in w.store.orgs && key.hash !in w.store.keys
  }

  /** A first move, and what is left after it. */
  lemma OneMove(w: World, n: nat, newID: string, key: ApiKey, rest: seq<Event>, s: Store, p: Provisioning, end: Store)
    requires n in w.running && newID !in w.store.orgs && key.hash !in w.store.keys
    requires Advance(w.store, w.running[n], newID, key) == (s, p)
    requires Completes(World(s, w.running[n := p]), n, rest, p, end, key)
    requires p.signup == w.running[n].signup
    ensures Completes(w, n, [Move(n, newID, key)] + rest, p, end, key)
  {
    RunMove(w, n, newID, key, rest, s, p);
    assert w.running[n := p][n := p.(stage := Finished, keyHash := key.hash)]
        == w.running[n := p.(stage := Finished, keyHash := key.hash)];
  }

  lemma FromMint(w: World, n: nat, p: Provisioning, spare: string, key: ApiKey)
    requires Underway(w, n, p, Mint, spare, key)
    ensures Completes(w, n, [Move(n, spare, key)], p, Step(w.store, CreateKey(p.org, key)), key)
  {
    RunMove(w, n, spare, key, [], Step(w.store, CreateKey(p.org, key)), p.(stage := Finished, keyHash := key.hash));
    assert [Move(n, spare, key)] + [] == [Move(n, spare, key)];
  }

  lemma FromRegister(w: World, n: nat, p: Provisioning, spare: string, key: ApiKey)
    requires Underway(w, n, p, Register, spare, key)
    ensures Completes(w, n, [Move(n, spare, key), Move(n, spare, key)], p,
                      Step(Step(w.store, UpsertBucket(p.org, DEFAULT_BUCKET)), CreateKey(p.org, key)), key)
  {
    var s, q := Step(w.store, UpsertBucket(p.org, DEFAULT_BUCKET)), p.(stage := Mint);
    FromMint(World(s, w.running[n := q]), n, q, spare, key);
    OneMove(w, n, spare, key, [Move(n, spare, key)], s, q, Step(s, CreateKey(p.org, key)));
    assert [Move(n, spare, key)] + [Move(n, spare, key)] == [Move(n, spare, key), Move(n, spare, key)];
  }

  lemma FromBucket(w: World, n: nat, p: Provisioning, spare: string, key: ApiKey)
    requires Underway(w, n, p, Bucket, spare, key)
    ensures var s := Step(Step(w.store, SetDefaultBucket(p.org, DEFAULT_BUCKET)), UpsertBucket(p.org, DEFAULT_BUCKET));
            Completes(w, n, [Move(n, spare, key), Move(n, spare, key), Move(n, spare, key)], p, Step(s, CreateKey(p.org, key)), key)
  {
    var move, s, q := Move(n, spare, key), Step(w.store, SetDefaultBucket(p.org, DEFAULT_BUCKET)), p.(stage := Register);
    assert s.orgs.Keys == w.store.orgs.Keys;
    FromRegister(World(s, w.running[n := q]), n, q, spare, key);
    OneMove(w, n, spare, key, [move, move], s, q, Step(Step(s, UpsertBucket(p.org, DEFAULT_BUCKET)), CreateKey(p.org, key)));
    assert [move] + [move, move] == [move, move, move];
  }

  lemma FromCheckout(w: World, n: nat, p: Provisioning, spare: string, key: ApiKey)
    requires Underway(w, n, p, Checkout, spare, key)
    ensures Completes(w, n, FourMoves(n, spare, key), p, Step(Configure(w.store, p.signup, p.org), CreateKey(p.org, key)), key)
  {
    var move, q := Move(n, spare, key), p.(stage := Bucket);
    var s := Step(w.store, ApplyCheckout(p.org, ParseSignupPlan(p.signup.plan).value, p.signup.customer, p.signup.subscription));
    assert s.orgs.Keys == w.store.orgs.Keys;
    FromBucket(World(s, w.running[n := q]), n, q, spare, key);
    OneMove(w, n, spare, key, [move, move, move], s, q, Step(Configure(w.store, p.signup, p.org), CreateKey(p.org, key)));
    assert [move] + [move, move, move] == FourMoves(n, spare, key);
  }

  lemma FromCreate(w: World, n: nat, p: Provisioning, newID: string, spare: string, key: ApiKey)
    requires Consistent(w.store) && n in w.running && w.running[n] == p && p.stage.Create? && p.signup.Acceptable()
    requires Normalize(p.signup.email) !in w.store.byEmail
    requires newID !in w.store.orgs && spare !in w.store.orgs && spare != newID && key.hash !in w.store.keys
    ensures Completes(w, n, [Move(n, newID, key)] + FourMoves(n, spare, key), p.(org := newID),
                      Step(SetUp(w.store, p.signup, newID), CreateKey(newID, key)), key)
  {
    var email := Normalize(p.signup.email);
    var s, q := Step(w.store, CreateOrg(email, email, newID)), p.(stage := Checkout, org := newID);
    NormalizeIdempotent(p.signup.email);
    CreateResolves(w.store, email, newID);
    assert newID in s.orgs.Keys && spare !in s.orgs.Keys;
    FromCheckout(World(s, w.running[n := q]), n, q, spare, key);
    OneMove(w, n, newID, key, FourMoves(n, spare, key), s, q, Step(SetUp(w.store, p.signup, newID), CreateKey(newID, key)));
  }

  lemma FromKnown(w: World, n: nat, p: Provisioning, newID: string, spare: string, key: ApiKey)
    requires Consistent(w.store) && n in w.running && w.running[n] == p && p.stage.Find? && p.signup.Acceptable()
    requires Normalize(p.signup.email) in w.store.byEmail
    requires newID !in w.store.orgs && spare !in w.store.orgs && key.hash !in w.store.keys
    ensures var org := w.store.byEmail[Normalize(p.signup.email)];
            Completes(w, n, [Move(n, newID, key)] + FourMoves(n, spare, key), p.(org := org),
                      Step(SetUp(w.store, p.signup, newID), CreateKey(org, key)), key)
  {
    var email := Normalize(p.signup.email);
    var org := w.store.byEmail[email];
    var q := p.(stage := Checkout, org := org);
    NormalizeIdempotent(p.signup.email);
    FromCheckout(World(w.store, w.running[n := q]), n, q, spare, key);
    assert Step(w.store, CreateOrg(email, email, newID)) == w.store;
    OneMove(w, n, newID, key, FourMoves(n, spare, key), w.store, q,
            Step(SetUp(w.store, p.signup, newID), CreateKey(org, key)));
  }

  /** One provisioning that nobody disturbs makes the very store operations of ProvisionSignup, and
      is one of the runs that are allowed. */
  lemma UndisturbedIsProvisionSignup(w: World, n: nat, signup: Signup, newID: string, spare: string, key: ApiKey)
    requires Consistent(w.store) && signup.Acceptable()
    requires n in w.running && w.running[n] == Provisioning(signup, Find, "", "")
    requires newID !in w.store.orgs && spare !in w.store.orgs && spare != newID && key.hash !in w.store.keys
    ensures var org, moves := OrgFor(w.store, signup, newID), MovesOf(w.store, n, signup, newID, spare, key);
            && Run(w, moves) == World(Step(SetUp(w.store, signup, newID), CreateKey(org, key)),
                                      w.running[n := Provisioning(signup, Finished, org, key.hash)])
            && AllowedRun(w, moves)
  {
    var p, first := w.running[n], Move(n, newID, key);
    NormalizeIdempotent(signup.email);
    if Normalize(signup.email) in w.store.byEmail {
      FromKnown(w, n, p, newID, spare, key);
    } else {
      var q := p.(stage := Create);
      FromCreate(World(w.store, w.running[n := q]), n, q, newID, spare, key);
      var moves := [first] + FourMoves(n, spare, key);
      RunMove(w, n, newID, key, moves, w.store, q);
      assert w.running[n := q][n := Provisioning(signup, Finished, newID, key.hash)]
          == w.running[n := Provisioning(signup, Finished, newID, key.hash)];
      assert [first] + moves == MovesOf(w.store, n, signup, newID, spare, key);
    }
  }

  /** How a signup leaves the store: the organisation of the email has the plan, customer,
      subscription and default bucket of the signup, that bucket is registered, and every other
      organisation is as it was. */
  lemma SignupConfigures(s: Store, signup: Signup, newID: string)
    requires signup.Acceptable() && Consistent(s) && newID !in s.orgs
    ensures var t, org := SetUp(s, signup, newID), OrgFor(s, signup, newID);
            && org in t.orgs
            && t.orgs[org].plan == Normalize(signup.plan) && t.orgs[org].defaultBucket == "default"
            && t.orgs[org].customer == signup.customer && t.orgs[org].subscription == signup.subscription
            && t.orgs[org].email == Normalize(signup.email)
            && (if org in s.orgs then t.orgs[org].name == s.orgs[org].name && t.orgs[org].slackWebhook == s.orgs[org].slackWebhook
                else t.orgs[org].name == Normalize(signup.email) && t.orgs[org].slackWebhook == "")
            && t.buckets == s.buckets + {org + ":default"}
            && forall other :: other in s.orgs && other != org ==> other in t.orgs && t.orgs[other] == s.orgs[other]
  {
    NormalizeIdempotent(signup.email);
    PlansAre(signup.plan);
    var email, org := Normalize(signup.email), OrgFor(s, signup, newID);
    CreateResolves(s, email, newID);
    var s0 := Step(s, CreateOrg(email, email, newID));
    assert org in s0.orgs.Keys;
    assert s0.buckets == s.buckets;
    ConfigureWrites(s0, signup, org);
    forall other | other in s.orgs && other != org
      ensures other in SetUp(s, signup, newID).orgs && SetUp(s, signup, newID).orgs[other] == s.orgs[other]
    {
      assert s0.orgs[other] == s.orgs[other];
    }
  }

  lemma ConfigureWrites(s: Store, signup: Signup, org: string)
    requires signup.Acceptable() && org in s.orgs
    ensures var t := Configure(s, signup, org);
            && org in t.orgs
            && t.orgs[org] == s.orgs[org].(plan := ParseSignupPlan(signup.plan).value, customer := signup.customer,
                                           subscription := signup.subscription, defaultBucket := "default")
            && t.buckets == s.buckets + {org + ":default"}
            && forall other :: other in s.orgs && other != org ==> other in t.orgs && t.orgs[other] == s.orgs[other]
  {
    assert org + ":" + "default" == org + ":default";
  }

  /** So a later cancellation of that subscription finds the organisation: some organisation has the
      subscription, and if it is the one met it is back on trial with everything else kept. */
  lemma SignupCanBeDowngraded(s: Store, signup: Signup, newID: string)
    requires signup.Acceptable() && Consistent(s) && newID !in s.orgs
    ensures var t, org := SetUp(s, signup, newID), OrgFor(s, signup, newID);
            var u := Step(t, Downgrade(signup.subscription, org));
            && org in t.orgs && t.orgs[org].subscription == signup.subscription
            && org in u.orgs && u.orgs[org].plan == "trial" && u.orgs[org].subscription == ""
            && u.orgs[org].customer == signup.customer && u.orgs[org].defaultBucket == "default"
            && u.orgs[org].email == Normalize(signup.email)
  {
    SignupConfigures(s, signup, newID);
  }

  /** Replaying a provisioning, by whoever and for whatever plan, resolves to the organisation of
      the first one and leaves its keys valid. */
  lemma ReplayResolvesToSameOrg(s: Store, first: Signup, newID: string, again: Signup, newID': string)
    requires first.Acceptable() && again.Acceptable() && Normalize(first.email) == Normalize(again.email)
    requires Consistent(s) && newID !in s.orgs && newID' !in SetUp(s, first, newID).orgs
    ensures var t := SetUp(s, first, newID);
            && OrgFor(t, again, newID') == OrgFor(s, first, newID)
            && SetUp(t, again, newID').orgs.Keys == t.orgs.Keys
            && SetUp(t, again, newID').keys == t.keys
  {
    SetUpResolves(s, first, newID);
    SetUpResolves(SetUp(s, first, newID), again, newID');
  }

  /** The key minted at the end of a provisioning is accepted, for the organisation resolved. */
  lemma MintedKeyIsAccepted(s: Store, signup: Signup, newID: string, hash: string -> string, raw: string, keyID: string)
    requires signup.Acceptable() && Consistent(s) && newID !in s.orgs && hash(raw) !in s.keys
    requires |raw| >= 4 && raw[..3] == "tg_"
    ensures var org := OrgFor(s, signup, newID);
            var t := Step(SetUp(s, signup, newID), CreateKey(org, Minted(hash, org, raw, keyID)));
            Lookup(t, hash, raw).Authenticated? && Lookup(t, hash, raw).org.id == org
  {
    SetUpResolves(s, signup, newID);
    var org, ready := OrgFor(s, signup, newID), SetUp(s, signup, newID);
    assert org in ready.orgs && ready.orgs[org].id == org;
    FreshKeyIsAccepted(ready, org, hash, raw, keyID);
  }

  lemma FreshKeyIsAccepted(s: Store, org: string, hash: string -> string, raw: string, keyID: string)
    requires org in s.orgs && |raw| >= 4 && raw[..3] == "tg_"
    ensures Lookup(Step(s, CreateKey(org, Minted(hash, org, raw, keyID))), hash, raw)
      == Authenticated(s.orgs[org], keyID, Minted(hash, org, raw, keyID).prefix)
  {
  }

  class Provisioner {
    const orgs: MemoryOrgStore

    constructor (orgs: MemoryOrgStore)
      ensures this.orgs == orgs
    {
      this.orgs := orgs;
    }

    /** `seeded` and `kept` say whether the calls that seed the trial budget and store the setup
        secret succeed; `newID`, `raw` and `keyID` are what would be minted. */
    method ProvisionSignup(signup: Signup, newID: string, raw: string, keyID: string, seeded: bool, kept: bool)
      returns (r: Outcome)
      requires Consistent(orgs.Value()) && newID !in orgs.orgs && orgs.hash(raw) !in orgs.keys
      requires |raw| >= 4 && raw[..3] == "tg_"
      modifies orgs
      ensures Consistent(orgs.Value())
      ensures !signup.Acceptable() ==> r == Rejected && orgs.Value() == old(orgs.Value())
      ensures r == Rejected <==>
        || Normalize(signup.email) == "" || signup.session == "" || Normalize(signup.plan) !in {"trial", "indie", "team"}
      ensures signup.Acceptable() ==>
        var org, ready := OrgFor(old(orgs.Value()), signup, newID), SetUp(old(orgs.Value()), signup, newID);
        && r == (if !seeded then SeedFailed(org) else if !kept then SecretFailed(org) else Provisioned(org, raw))
        && orgs.Value() == (if seeded then Step(ready, CreateKey(org, Minted(orgs.hash, org, raw, keyID))) else ready)
    {
      var email := Normalize(signup.email);
      if email == "" {
        return Rejected;
      }
      var plan := ParseSignupPlan(signup.plan);
      if plan.None? || signup.session == "" {
        return Rejected;
      }
      SetUpResolves(orgs.Value(), signup, newID);
      var org := Resolve(signup.email, newID);
      ConfigureOrg(signup, org);
      if !seeded {
        return SeedFailed(org);
      }
      assert org in orgs.orgs && orgs.orgs[org].id == org;
      var key := orgs.CreateAPIKey(org, raw, keyID);
      return if kept then Provisioned(org, raw) else SecretFailed(org);
    }

    /** The organisation of an email, created if there is none. */
    method Resolve(address: string, newID: string) returns (org: string)
      requires Consistent(orgs.Value()) && newID !in orgs.orgs && Normalize(address) != ""
      modifies orgs
      ensures orgs.Value() == Step(old(orgs.Value()), CreateOrg(Normalize(address), Normalize(address), newID))
      ensures org == (if Normalize(address) in old(orgs.byEmail) then old(orgs.byEmail)[Normalize(address)] else newID)
    {
      var email := Normalize(address);
      NormalizeIdempotent(address);
      var found := orgs.FindOrgByEmail(email);
      if found.Some? {
        return found.value.id;
      }
      var created := orgs.CreateOrgWithEmail(email, email, newID);
      return created.id;
    }

    method ConfigureOrg(signup: Signup, org: string)
      requires signup.Acceptable()
      modifies orgs
      ensures orgs.Value() == Configure(old(orgs.Value()), signup, org)
    {
      var plan := ParseSignupPlan(signup.plan).value;
      var ok := orgs.Apply(ApplyCheckout(org, plan, signup.customer, signup.subscription));
      ok := orgs.Apply(SetDefaultBucket(org, DEFAULT_BUCKET));
      orgs.UpsertBucket(org, DEFAULT_BUCKET);
    }
  }
}
