/**
 * The authority of `broadcast-state.ts`: presence records, publications, subscriptions, and who is told what.
 */
module Authorities {
  import opened Prelude
  import Orders

  const LIFETIME_MIN := 60
  const LIFETIME_MAX := 3600
  const PUBLISH_INTERVAL := 5

  datatype Topic = OnPresence | OnPublication

  /** A plain record carries its state, a sealed one what the authority never opens. */
  datatype Form = Plain(state: string) | Sealed(kid: string, sealedState: string)

  datatype Record = Record(id: string, device: string, audience: Option<string>, form: Form, seqNo: int, expiresAt: int)

  datatype Publication = Publication(id: string, publisher: string, state: string, variants: set<string>, expires: Option<int>, provenance: seq<string>)

  datatype Body =
    | PresenceBody(available: bool, records: seq<Record>)
    | PublicationBody(state: string, publication: string, provenance: seq<string>)

  datatype Grant = Grant(id: string, validUntil: int)

  datatype Subscription = Subscription(
    device: string, subscriber: string, target: string, events: seq<Topic>,
    seqNo: nat, expiresAt: int,
    own: bool, grant: Option<Grant>, audience: Option<string>, wantsSealed: bool,
    lastBody: Option<Body>)

  datatype Policy = Policy(isPublic: bool, allow: set<string>, audience: Option<string>)

  /** `subs` by id with `listed` the order they were made in; `pubs` by stream with `streams` likewise. */
  datatype State = State(
    now: int, grace: int, identities: map<string, string>,
    policy: map<string, Policy>, capabilities: map<string, string>,
    pubs: map<string, Publication>, streams: seq<string>,
    subs: map<string, Subscription>, listed: seq<string>,
    bound: map<string, string>, seen: set<string>,
    records: map<string, map<string, Record>>, graceUntil: map<string, int>,
    lastAccepted: map<string, int>, revoked: map<string, int>)

  datatype Emission =
    | Notify(to: string, subscription: string, seqNo: nat, ended: Option<string>, body: Body)
    | PublicationState(stream: string, state: string)
    | Provenance(stream: string, processor: string)
    | Refuse(to: string, about: string, reason: string, retryAfter: Option<int>)
    | Blocked(to: string, session: string)
    | SubscriptionEnd(id: string, replaced: bool)
    | Drop(why: string)

  datatype Result = Result(a: State, emit: seq<Emission>)

  /** A claim presented with a `subscribe`; anything but a decodable grant never admits. */
  datatype Claim =
    | OtherClaim
    | GrantClaim(verified: bool, identity: string, grantee: string, scope: set<string>, validUntil: Option<int>, id: string, audience: Option<string>)

  datatype Request = Request(
    from: string, id: string, target: string, events: seq<Topic>, expiresIn: int,
    capability: Option<string>, claims: seq<Claim>, wantsSealed: bool)

  datatype Event =
    | Advance(seconds: nat)
    | SetPolicy(target: string, policy: Policy)
    | IssueCapability(token: string, target: string)
    | Bind(device: string, identity: string)
    | Unbind(device: string, identity: string)
    | Publish(from: string, publisher: string, stream: string, id: string, state: string, variants: set<string>, expires: Option<int>)
    | Unpublish(from: string, publisher: string, stream: string, publication: string)
    | Attest(from: string, processor: string, stream: string, publication: string, variant: Option<string>)
    | Subscribe(request: Request)
    | PutRecord(from: string, subject: string, signed: Option<string>, issuedAt: int, r: Record)
    | RevokeGrant(from: string, grant: string, validUntil: int)

  function RecordKey(device: string, audience: Option<string>): string {
    match audience case None => device case Some(x) => device + "/" + x
  }

  function RevokeKey(identity: string, grant: string): string {
    identity + "\n" + grant
  }

  function IdentityOf(a: State, did: string): string {
    if did in a.identities then a.identities[did] else did
  }

  // ---- who sees what

  predicate Sees(s: Subscription, r: Record) {
    && (r.form.Sealed? ==> s.wantsSealed)
    && (s.own || r.audience.None? || r.audience == s.audience)
  }

  function Held(records: map<string, map<string, Record>>, target: string): map<string, Record> {
    if target in records then records[target] else map[]
  }

  function Visible(records: map<string, map<string, Record>>, s: Subscription): set<Record> {
    var held := Held(records, s.target);
    set k | k in held && Sees(s, held[k]) :: held[k]
  }

  /** By device, then by audience, a record without one first. */
  predicate Precedes(a: Record, b: Record) {
    || Less(a.device, b.device)
    || (a.device == b.device && b.audience.Some? && (a.audience.None? || Less(a.audience.value, b.audience.value)))
  }

  /** No two records of one device and audience. */
  ghost predicate Apart(rs: set<Record>) {
    forall a, b :: a in rs && b in rs && a.device == b.device && a.audience == b.audience ==> a == b
  }

  lemma PrecedesTotal(a: Record, b: Record)
    ensures Precedes(a, b) || Precedes(b, a) || (a.device == b.device && a.audience == b.audience)
    ensures !(Precedes(a, b) && Precedes(b, a))
    ensures !Precedes(a, a)
  {
    LessTotal(a.device, b.device);
    LessTotal(a.device, a.device);
    if a.audience.Some? { LessTotal(a.audience.value, a.audience.value); }
    if a.audience.Some? && b.audience.Some? { LessTotal(a.audience.value, b.audience.value); }
  }

  lemma PrecedesTransitive(a: Record, b: Record, c: Record)
    requires Precedes(a, b) && Precedes(b, c)
    ensures Precedes(a, c)
  {
    if Less(a.device, b.device) && Less(b.device, c.device) { LessTransitive(a.device, b.device, c.device); }
    if a.audience.Some? && b.audience.Some? && c.audience.Some?
       && Less(a.audience.value, b.audience.value) && Less(b.audience.value, c.audience.value) {
      LessTransitive(a.audience.value, b.audience.value, c.audience.value);
    }
  }

  lemma PrecedesOrders(rs: set<Record>)
    requires Apart(rs)
    ensures Orders.Total(Precedes, rs)
  {
    forall a, b | a in rs && b in rs ensures a != b ==> Precedes(a, b) != Precedes(b, a)
                                     ensures !Precedes(a, a)
    {
      PrecedesTotal(a, b);
      PrecedesTotal(a, a);
    }
    forall a, b, c | a in rs && b in rs && c in rs && Precedes(a, b) && Precedes(b, c) ensures Precedes(a, c) {
      PrecedesTransitive(a, b, c);
    }
  }

  /** The records in order; a map never holds two of one device and audience. */
  ghost function InOrder(rs: set<Record>): (q: seq<Record>)
    ensures Apart(rs) ==> |q| == |rs| && forall r :: r in q <==> r in rs
  {
    if !Apart(rs) then [] else PrecedesOrders(rs); Orders.InOrder(Precedes, rs)
  }

  /** Whatever order a list of the records starts in, sorting it gives one sequence. */
  lemma OrderIsUnique(rs: set<Record>, q: seq<Record>)
    requires Apart(rs) && Orders.Ascending(Precedes, q) && forall r :: r in q <==> r in rs
    ensures q == InOrder(rs)
  {
    PrecedesOrders(rs);
    Orders.OrderIsUnique(Precedes, rs, q);
  }

  predicate Asserted(bound: map<string, string>, target: string, visible: set<Record>) {
    exists d :: d in bound && bound[d] == target && (forall r :: r in visible ==> r.device != d)
  }

  /** The presence body for one subscription, computed afresh. */
  ghost function BodyFor(records: map<string, map<string, Record>>, bound: map<string, string>, s: Subscription): Body {
    var visible := Visible(records, s);
    PresenceBody(Asserted(bound, s.target, visible), InOrder(visible))
  }

  // ---- telling subscribers

  ghost function BodyOn(a: State, s: Subscription, t: Topic): Body {
    if t == OnPresence then BodyFor(a.records, a.bound, s)
    else if s.target in a.pubs then
      var p := a.pubs[s.target];
      PublicationBody(p.state, p.id, p.provenance)
    else PublicationBody("", "", [])
  }

  ghost function Told(a: State, id: string, t: Topic, ended: Option<string>): Result
    requires id in a.subs
  {
    var s := a.subs[id];
    var body := BodyOn(a, s, t);
    var s' := s.(seqNo := s.seqNo + 1, lastBody := if t == OnPresence then Some(body) else s.lastBody);
    Result(a.(subs := a.subs[id := s']), [Notify(s.device, id, s.seqNo + 1, ended, body)])
  }

  ghost function Then(r: Result, s: Result): Result { Result(s.a, r.emit + s.emit) }

  /** Every subscription to the target's topic, in the order they were made. */
  ghost function TellAll(a: State, ids: seq<string>, target: string, t: Topic): Result {
    if ids == [] then Result(a, [])
    else
      var r := TellAll(a, ids[..|ids| - 1], target, t);
      var id := ids[|ids| - 1];
      if id in r.a.subs && r.a.subs[id].target == target && t in r.a.subs[id].events
      then Then(r, Told(r.a, id, t, None)) else r
  }

  ghost function TellChanged(a: State, ids: seq<string>): Result {
    if ids == [] then Result(a, [])
    else
      var r := TellChanged(a, ids[..|ids| - 1]);
      var id := ids[|ids| - 1];
      if id in r.a.subs && OnPresence in r.a.subs[id].events
         && r.a.subs[id].lastBody != Some(BodyFor(r.a.records, r.a.bound, r.a.subs[id]))
      then Then(r, Told(r.a, id, OnPresence, None)) else r
  }

  function IdsFor(subs: map<string, Subscription>, target: string): set<string> {
    set id | id in subs && subs[id].target == target
  }

  ghost function ByTarget(subs: map<string, Subscription>, targets: seq<string>): seq<string> {
    if targets == [] then []
    else ByTarget(subs, targets[..|targets| - 1]) + Sorted(IdsFor(subs, targets[|targets| - 1]))
  }

  /** Subscriptions by target, then by id. */
  ghost function TellingOrder(subs: map<string, Subscription>): seq<string> {
    ByTarget(subs, Sorted(set id | id in subs :: subs[id].target))
  }

  ghost function NotifyChanged(a: State): Result {
    TellChanged(a, TellingOrder(a.subs))
  }

  function WithoutId(listed: seq<string>, id: string): seq<string> {
    if listed == [] then []
    else WithoutId(listed[..|listed| - 1], id) + if listed[|listed| - 1] == id then [] else [listed[|listed| - 1]]
  }

  function Removed(a: State, id: string): State {
    a.(subs := a.subs - {id}, listed := WithoutId(a.listed, id))
  }

  /** A terminal notify, on the first topic subscribed to. */
  ghost function Ended(a: State, id: string, reason: string): Result
    requires id in a.subs && a.subs[id].events != []
  {
    var r := Told(a, id, a.subs[id].events[0], Some(reason));
    Result(Removed(r.a, id), r.emit)
  }

  ghost function EndEach(a: State, ids: seq<string>, reason: string): Result {
    if ids == [] then Result(a, [])
    else
      var r := EndEach(a, ids[..|ids| - 1], reason);
      var id := ids[|ids| - 1];
      if id in r.a.subs && r.a.subs[id].events != [] then Then(r, Ended(r.a, id, reason)) else r
  }

  ghost function WithState(a: State, stream: string, p: Publication, state: string): Result {
    var b := a.(pubs := a.pubs[stream := p.(state := state)],
                streams := if stream in a.streams then a.streams else a.streams + [stream]);
    Then(Result(b, [PublicationState(stream, state)]), TellAll(b, b.listed, stream, OnPublication))
  }

  // ---- the clock

  ghost function ExpireEach(a: State, streams: seq<string>): Result {
    if streams == [] then Result(a, [])
    else
      var r := ExpireEach(a, streams[..|streams| - 1]);
      var stream := streams[|streams| - 1];
      if stream in r.a.pubs && r.a.pubs[stream].state == "live" && r.a.pubs[stream].expires.Some? && r.a.pubs[stream].expires.value <= r.a.now
      then Then(r, WithState(r.a, stream, r.a.pubs[stream], "expired")) else r
  }

  function LapseReason(s: Subscription, now: int): Option<string> {
    if s.expiresAt <= now then Some("session.expired")
    else if s.grant.Some? && s.grant.value.validUntil <= now then Some("policy.terminated")
    else None
  }

  ghost function LapseEach(a: State, ids: seq<string>): Result {
    if ids == [] then Result(a, [])
    else
      var r := LapseEach(a, ids[..|ids| - 1]);
      var id := ids[|ids| - 1];
      if id in r.a.subs && r.a.subs[id].events != [] && LapseReason(r.a.subs[id], r.a.now).Some?
      then Then(r, Ended(r.a, id, LapseReason(r.a.subs[id], r.a.now).value)) else r
  }

  predicate Kept(r: Record, graceUntil: map<string, int>, now: int) {
    now < r.expiresAt && (r.device in graceUntil ==> now < graceUntil[r.device])
  }

  function KeptOf(held: map<string, Record>, graceUntil: map<string, int>, now: int): map<string, Record> {
    map k | k in held && Kept(held[k], graceUntil, now) :: held[k]
  }

  function Still(m: map<string, int>, now: int): map<string, int> {
    map k | k in m && now < m[k] :: m[k]
  }

  function Cleaned(a: State): State {
    a.(revoked := Still(a.revoked, a.now),
       records := (map t | t in a.records :: KeptOf(a.records[t], a.graceUntil, a.now)),
       graceUntil := Still(a.graceUntil, a.now))
  }

  ghost function OnAdvance(a: State, seconds: nat): Result {
    var b := a.(now := a.now + seconds);
    var e := ExpireEach(b, b.streams);
    var l := LapseEach(e.a, Sorted(e.a.subs.Keys));
    Then(Then(e, l), NotifyChanged(Cleaned(l.a)))
  }

  // ---- bindings and records

  predicate HoldsOf(held: map<string, Record>, device: string) {
    exists k :: k in held && held[k].device == device
  }

  function DropDevice(held: map<string, Record>, device: string): map<string, Record> {
    map k | k in held && held[k].device != device :: held[k]
  }

  ghost function OnBind(a: State, device: string, identity: string): Result {
    NotifyChanged(a.(bound := a.bound[device := identity], seen := a.seen + {identity}, graceUntil := a.graceUntil - {device}))
  }

  /** An unbinding device that holds a record and has no grace running. */
  predicate Leaves(a: State, device: string, identity: string) {
    HoldsOf(Held(a.records, identity), device) && device !in a.graceUntil
  }

  function RecordsAfter(a: State, device: string, identity: string): map<string, map<string, Record>> {
    if Leaves(a, device, identity) && a.grace == 0 then a.records[identity := DropDevice(Held(a.records, identity), device)]
    else a.records
  }

  function GraceAfter(a: State, device: string, identity: string): map<string, int> {
    if Leaves(a, device, identity) && a.grace != 0 then a.graceUntil[device := a.now + a.grace] else a.graceUntil
  }

  function Unbound(a: State, device: string, identity: string): State {
    a.(bound := a.bound - {device}, records := RecordsAfter(a, device, identity), graceUntil := GraceAfter(a, device, identity))
  }

  ghost function OnUnbind(a: State, device: string, identity: string): Result {
    NotifyChanged(Unbound(a, device, identity))
  }

  /** Why a record is refused, the first reason that applies. */
  function RefusalOf(a: State, from: string, subject: string, device: Option<string>, issuedAt: int, r: Record): Option<(string, Option<int>)> {
    var key := RecordKey(from, r.audience);
    var held := Held(a.records, subject);
    var lifetime := r.expiresAt - issuedAt;
    if device != Some(from) || subject != IdentityOf(a, from) then Some(("presence.signer-mismatch", None))
    else if lifetime < LIFETIME_MIN || LIFETIME_MAX < lifetime then Some(("presence.lifetime", None))
    else if key in held && r.seqNo <= held[key].seqNo then Some(("presence.stale", None))
    else if key in a.lastAccepted && a.now - a.lastAccepted[key] < PUBLISH_INTERVAL then
      Some(("policy.rate-limited", Some(PUBLISH_INTERVAL - (a.now - a.lastAccepted[key]))))
    else None
  }

  function Accepted(a: State, from: string, subject: string, r: Record): State {
    var key := RecordKey(from, r.audience);
    a.(records := a.records[subject := Held(a.records, subject)[key := r.(device := from)]],
       lastAccepted := a.lastAccepted[key := a.now])
  }

  ghost function OnRecord(a: State, from: string, subject: string, device: Option<string>, issuedAt: int, r: Record): Result {
    var refusal := RefusalOf(a, from, subject, device, issuedAt, r);
    if refusal.Some? then Result(a, [Refuse(from, r.id, refusal.value.0, refusal.value.1)])
    else NotifyChanged(Accepted(a, from, subject, r))
  }

  function AdmittedBy(a: State, identity: string, grant: string): set<string> {
    set id | id in a.subs && a.subs[id].grant.Some? && a.subs[id].grant.value.id == grant && a.subs[id].target == identity
  }

  ghost function OnRevocation(a: State, from: string, grant: string, validUntil: int): Result {
    var identity := IdentityOf(a, from);
    var b := if a.now < validUntil then a.(revoked := a.revoked[RevokeKey(identity, grant) := validUntil]) else a;
    EndEach(b, Sorted(AdmittedBy(b, identity, grant)), "policy.terminated")
  }

  // ---- publications

  function StartsWith(s: string, prefix: string): bool { |prefix| <= |s| && s[..|prefix|] == prefix }

  ghost function OnPublish(a: State, from: string, publisher: string, stream: string, id: string, state: string,
                           variants: set<string>, expires: Option<int>): Result {
    var sender := IdentityOf(a, from);
    if publisher != sender then Result(a, [Drop("publisher-mismatch")])
    else if !StartsWith(stream, sender + ":") then Result(a, [Drop("stream-id-namespace")])
    else if stream in a.pubs && !Less(a.pubs[stream].id, id) then Result(a, [Drop("stale-publication")])
    else WithState(a, stream, Publication(id, sender, "", variants, expires, []), state)
  }

  ghost function OnUnpublish(a: State, from: string, publisher: string, stream: string, publication: string): Result {
    var sender := IdentityOf(a, from);
    if publisher != sender || (stream in a.pubs && a.pubs[stream].publisher != sender) then Result(a, [Drop("publisher-mismatch")])
    else if stream !in a.pubs || a.pubs[stream].id != publication then Result(a, [Drop("unknown-publication")])
    else WithState(a, stream, a.pubs[stream], "withdrawn")
  }

  /** The first stream, in the order they were first published, whose record has this id. */
  function StreamOf(a: State, streams: seq<string>, publication: string): Option<string> {
    if streams == [] then None
    else if streams[0] in a.pubs && a.pubs[streams[0]].id == publication then Some(streams[0])
    else StreamOf(a, streams[1..], publication)
  }

  ghost function OnAttest(a: State, from: string, processor: string, stream: string, publication: string, variant: Option<string>): Result {
    var found := StreamOf(a, a.streams, publication);
    if found.None? then Result(a, [Drop("provenance-unknown-publication")])
    else if found.value != stream then Result(a, [Drop("provenance-stream-mismatch")])
    else if processor != IdentityOf(a, from) then Result(a, [Drop("provenance-processor-mismatch")])
    else if stream !in a.pubs || (variant.Some? && variant.value !in a.pubs[stream].variants) then Result(a, [Drop("provenance-variant-unknown")])
    else
      var p := a.pubs[stream];
      var b := a.(pubs := a.pubs[stream := p.(provenance := p.provenance + [processor])]);
      Then(Result(b, [Provenance(stream, processor)]), TellAll(b, b.listed, stream, OnPublication))
  }

  // ---- subscribing

  predicate Admits(a: State, c: Claim, subscriber: string, target: string) {
    && c.GrantClaim? && c.verified && c.identity == target && c.grantee == subscriber && "dsip.subscribe" in c.scope
    && c.validUntil.Some? && a.now < c.validUntil.value && RevokeKey(target, c.id) !in a.revoked
  }

  function AdmittingGrant(a: State, claims: seq<Claim>, subscriber: string, target: string): (c: Claim)
    ensures c.GrantClaim? ==> c in claims && Admits(a, c, subscriber, target)
  {
    if claims == [] then OtherClaim
    else if Admits(a, claims[0], subscriber, target) then claims[0]
    else AdmittingGrant(a, claims[1..], subscriber, target)
  }

  datatype Admission = Refused | Admitted(own: bool, grant: Option<Grant>, audience: Option<string>)

  function Admit(a: State, q: Request): Admission {
    var subscriber := IdentityOf(a, q.from);
    var capability := q.capability.Some? && q.capability.value in a.capabilities && a.capabilities[q.capability.value] == q.target;
    var named := q.target in a.policy || q.target in a.seen || q.target in a.identities.Values || q.target in a.capabilities.Values;
    var byPolicy := q.target in a.policy && (a.policy[q.target].isPublic || subscriber in a.policy[q.target].allow);
    if !named || (OnPublication in q.events && q.target !in a.pubs) then Refused
    else if OnPresence !in q.events then
      if q.target in a.policy && (byPolicy || capability) then Admitted(false, None, None) else Refused
    else if subscriber == q.target then Admitted(true, None, None)
    else
      var g := AdmittingGrant(a, q.claims, subscriber, q.target);
      if g.GrantClaim? then Admitted(false, Some(Grant(g.id, Or(g.validUntil, 0))), g.audience)
      else if capability then Admitted(false, None, None)
      else if byPolicy then Admitted(false, None, a.policy[q.target].audience)
      else Refused
  }

  predicate SameAs(s: Subscription, q: Request) {
    s.device == q.from && s.target == q.target && s.events == q.events
  }

  function PriorOf(a: State, listed: seq<string>, q: Request): (p: Option<string>)
    ensures p.Some? ==> p.value in listed && p.value in a.subs && SameAs(a.subs[p.value], q)
    ensures p.None? ==> forall id :: id in listed && id in a.subs ==> !SameAs(a.subs[id], q)
  {
    if listed == [] then None
    else if listed[0] in a.subs && SameAs(a.subs[listed[0]], q) then Some(listed[0])
    else PriorOf(a, listed[1..], q)
  }

  function NewSubscription(a: State, q: Request, m: Admission): Subscription
    requires m.Admitted?
  {
    Subscription(q.from, IdentityOf(a, q.from), q.target, q.events, 0, a.now + q.expiresIn, m.own, m.grant, m.audience, q.wantsSealed, None)
  }

  /** The first notifies carry current state, one per topic asked for. */
  ghost function TellEach(a: State, id: string, topics: seq<Topic>): Result
    requires id in a.subs
    ensures id in TellEach(a, id, topics).a.subs
  {
    if topics == [] then Result(a, [])
    else
      var r := TellEach(a, id, topics[..|topics| - 1]);
      Then(r, Told(r.a, id, topics[|topics| - 1], None))
  }

  /** The request is not a termination and is admitted: it makes a subscription. */
  predicate TakesUp(a: State, q: Request) { q.expiresIn != 0 && Admit(a, q).Admitted? }

  function WithSubscription(a: State, id: string, s: Subscription): State {
    a.(subs := a.subs[id := s], listed := a.listed + [id])
  }

  function Without(a: State, prior: Option<string>): State {
    if prior.Some? then Removed(a, prior.value) else a
  }

  ghost function OnSubscribe(a: State, q: Request): Result {
    var prior := PriorOf(a, a.listed, q);
    var admission := Admit(a, q);
    if q.expiresIn == 0 then
      if prior.None? then Result(a, [Drop("no-matching-subscription")])
      else Result(Removed(a, prior.value), [SubscriptionEnd(prior.value, false)])
    else if admission.Refused? then Result(a, [Blocked(q.from, q.id)])
    else
      var c := WithSubscription(Without(a, prior), q.id, NewSubscription(a, q, admission));
      Then(Result(c, if prior.Some? then [SubscriptionEnd(prior.value, true)] else []), TellEach(c, q.id, q.events))
  }

  ghost function Step(a: State, ev: Event): Result {
    match ev
    case Advance(seconds) => OnAdvance(a, seconds)
    case SetPolicy(target, policy) => Result(a.(policy := a.policy[target := policy]), [])
    case IssueCapability(token, target) => Result(a.(capabilities := a.capabilities[token := target]), [])
    case Bind(device, identity) => OnBind(a, device, identity)
    case Unbind(device, identity) => OnUnbind(a, device, identity)
    case Publish(from, publisher, stream, id, state, variants, expires) => OnPublish(a, from, publisher, stream, id, state, variants, expires)
    case Unpublish(from, publisher, stream, publication) => OnUnpublish(a, from, publisher, stream, publication)
    case Attest(from, processor, stream, publication, variant) => OnAttest(a, from, processor, stream, publication, variant)
    case Subscribe(q) => OnSubscribe(a, q)
    case PutRecord(from, subject, signed, issuedAt, r) => OnRecord(a, from, subject, signed, issuedAt, r)
    case RevokeGrant(from, grant, validUntil) => OnRevocation(a, from, grant, validUntil)
  }

  // ---- what every authority keeps

  ghost predicate Current(a: State, id: string) {
    id in a.subs && (OnPresence in a.subs[id].events ==> a.subs[id].lastBody == Some(BodyFor(a.records, a.bound, a.subs[id])))
  }

  /** Every presence subscription was last told what would be computed for it now. */
  ghost predicate AllCurrent(a: State) {
    forall id :: id in a.subs ==> Current(a, id)
  }

  predicate KeyedHeld(held: map<string, Record>) {
    forall k :: k in held ==> k == RecordKey(held[k].device, held[k].audience)
  }

  predicate KeyedRight(records: map<string, map<string, Record>>) {
    forall t :: t in records ==> KeyedHeld(records[t])
  }

  predicate NoRepeat(listed: seq<string>) {
    forall i, j :: 0 <= i < j < |listed| ==> listed[i] != listed[j]
  }

  /** Records sit under their own keys; subscriptions ask for something and are listed once each. */
  ghost predicate Wf(a: State) {
    && KeyedRight(a.records)
    && (forall id :: id in a.subs ==> a.subs[id].events != [])
    && NoRepeat(a.listed) && (forall id :: id in a.listed <==> id in a.subs)
  }

  ghost predicate AuthorityOk(a: State) { Wf(a) && AllCurrent(a) }

  /** Kept records are what a body's list is sorted from: never two of one device and audience. */
  lemma VisibleApart(records: map<string, map<string, Record>>, s: Subscription)
    requires KeyedRight(records)
    ensures Apart(Visible(records, s))
  {
  }

  /** How a subscription differs after being told something: its number and its last body, nothing its body depends on. */
  predicate SameRight(s: Subscription, t: Subscription) {
    t == s.(seqNo := t.seqNo, lastBody := t.lastBody)
  }

  lemma SameRightBody(records: map<string, map<string, Record>>, bound: map<string, string>, s: Subscription, t: Subscription)
    requires SameRight(s, t)
    ensures BodyFor(records, bound, s) == BodyFor(records, bound, t)
  {
    assert Visible(records, s) == Visible(records, t);
  }

  /** `b` is `a` after telling subscribers things: only numbers and last bodies differ. */
  ghost predicate OnlyTold(a: State, b: State) {
    && b == a.(subs := b.subs) && b.subs.Keys == a.subs.Keys
    && forall id :: id in a.subs ==> SameRight(a.subs[id], b.subs[id])
  }

  predicate Tells(e: Emission, id: string) {
    e.Notify? && e.subscription == id && e.body.PresenceBody? && e.ended.None?
  }

  function CountTold(emit: seq<Emission>, id: string): nat {
    if emit == [] then 0 else CountTold(emit[..|emit| - 1], id) + if Tells(emit[|emit| - 1], id) then 1 else 0
  }

  lemma {:induction false} CountAppend(a: seq<Emission>, b: seq<Emission>, id: string)
    ensures CountTold(a + b, id) == CountTold(a, id) + CountTold(b, id)
  {
    if b == [] {
      assert a + b == a;
    } else {
      assert (a + b)[..|a + b| - 1] == a + b[..|b| - 1];
      CountAppend(a, b[..|b| - 1], id);
    }
  }

  lemma CountOne(e: Emission, id: string)
    ensures CountTold([e], id) == if Tells(e, id) then 1 else 0
    ensures CountTold([], id) == 0
  {
    assert [e][..0] == [];
  }

  // ---- telling what changed

  lemma ToldEffect(a: State, id: string, t: Topic, ended: Option<string>)
    requires id in a.subs
    ensures var r := Told(a, id, t, ended);
            && OnlyTold(a, r.a)
            && (t == OnPresence ==> Current(r.a, id))
            && (t == OnPublication ==> r.a.subs[id].lastBody == a.subs[id].lastBody)
            && (forall x :: x in a.subs && x != id ==> r.a.subs[x] == a.subs[x])
            && (forall x :: CountTold(r.emit, x) == if x == id && t == OnPresence && ended.None? then 1 else 0)
  {
    var r := Told(a, id, t, ended);
    assert r.a.subs.Keys == a.subs.Keys;
    SameRightBody(a.records, a.bound, a.subs[id], r.a.subs[id]);
    forall x ensures CountTold(r.emit, x) == if x == id && t == OnPresence && ended.None? then 1 else 0 {
      CountOne(r.emit[0], x);
    }
  }

  lemma OnlyToldTrans(a: State, b: State, c: State)
    requires OnlyTold(a, b) && OnlyTold(b, c)
    ensures OnlyTold(a, c)
  {
  }

  lemma CurrentStays(a: State, b: State, id: string)
    requires OnlyTold(a, b) && Current(a, id) && b.subs[id].lastBody == a.subs[id].lastBody
    ensures Current(b, id)
  {
    SameRightBody(a.records, a.bound, a.subs[id], b.subs[id]);
  }

  /** Going through `ids`, each one whose body changed is told once and is then current; the others hear nothing. */
  lemma {:induction false} TellChangedEffect(a: State, ids: seq<string>)
    requires NoRepeat(ids)
    ensures var r := TellChanged(a, ids);
            && OnlyTold(a, r.a)
            && (forall id :: id in a.subs && id in ids ==> Current(r.a, id))
            && (forall id :: id in a.subs && id !in ids ==> r.a.subs[id] == a.subs[id])
            && (forall id :: CountTold(r.emit, id) == if id in a.subs && id in ids && !Current(a, id) then 1 else 0)
  {
    hide BodyFor, SameRight;
    if ids == [] {
      TellNone(a);
    } else {
      var front, id := ids[..|ids| - 1], ids[|ids| - 1];
      assert ids == front + [id];
      TellChangedEffect(a, front);
      TellOneMore(a, front, id);
    }
  }

  lemma TellNone(a: State)
    ensures OnlyTold(a, a) && forall id :: CountTold([], id) == 0
  {
  }

  lemma TellOneMore(a: State, front: seq<string>, id: string)
    requires NoRepeat(front + [id])
    requires var r := TellChanged(a, front);
             && OnlyTold(a, r.a)
             && (forall x :: x in a.subs && x in front ==> Current(r.a, x))
             && (forall x :: x in a.subs && x !in front ==> r.a.subs[x] == a.subs[x])
             && (forall x :: CountTold(r.emit, x) == if x in a.subs && x in front && !Current(a, x) then 1 else 0)
    ensures var r := TellChanged(a, front + [id]);
            && OnlyTold(a, r.a)
            && (forall x :: x in a.subs && x in front + [id] ==> Current(r.a, x))
            && (forall x :: x in a.subs && x !in front + [id] ==> r.a.subs[x] == a.subs[x])
            && (forall x :: CountTold(r.emit, x) == if x in a.subs && x in front + [id] && !Current(a, x) then 1 else 0)
  {
    hide BodyFor, SameRight, Tells, CountTold;
    var ids := front + [id];
    assert ids[..|ids| - 1] == front && ids[|ids| - 1] == id;
    var r := TellChanged(a, front);
    assert forall i :: 0 <= i < |front| ==> ids[i] == front[i] && ids[i] != ids[|front|];
    assert id !in front;
    if id in r.a.subs && OnPresence in r.a.subs[id].events
       && r.a.subs[id].lastBody != Some(BodyFor(r.a.records, r.a.bound, r.a.subs[id])) {
      var t := Told(r.a, id, OnPresence, None);
      ToldEffect(r.a, id, OnPresence, None);
      OnlyToldTrans(a, r.a, t.a);
      forall x ensures CountTold(r.emit + t.emit, x) == CountTold(r.emit, x) + CountTold(t.emit, x) { CountAppend(r.emit, t.emit, x); }
      forall x | x in a.subs && x in front ensures Current(t.a, x) { CurrentStays(r.a, t.a, x); }
    }
  }

  lemma {:induction false} ByTargetHas(subs: map<string, Subscription>, targets: seq<string>, id: string)
    ensures id in ByTarget(subs, targets) <==> id in subs && subs[id].target in targets
  {
    if targets != [] {
      var front, t := targets[..|targets| - 1], targets[|targets| - 1];
      assert targets == front + [t];
      ByTargetHas(subs, front, id);
    }
  }

  lemma {:induction false} SortedNoRepeat(s: set<string>)
    ensures NoRepeat(Sorted(s))
    decreases |s|
  {
    if s != {} {
      var m := Least(s);
      SortedNoRepeat(s - {m});
      assert m !in Sorted(s - {m});
    }
  }

  lemma {:induction false} ByTargetNoRepeat(subs: map<string, Subscription>, targets: seq<string>)
    requires NoRepeat(targets)
    ensures NoRepeat(ByTarget(subs, targets))
  {
    if targets != [] {
      var front, t := targets[..|targets| - 1], targets[|targets| - 1];
      ByTargetNoRepeat(subs, front);
      SortedNoRepeat(IdsFor(subs, t));
      var a, b := ByTarget(subs, front), Sorted(IdsFor(subs, t));
      forall i, j | 0 <= i < j < |a + b| ensures (a + b)[i] != (a + b)[j] {
        if i < |a| <= j {
          assert (a + b)[i] in a && (a + b)[j] in b;
          ByTargetHas(subs, front, (a + b)[i]);
          assert t !in front;
        }
      }
    }
  }

  lemma TellingOrderHas(subs: map<string, Subscription>)
    ensures NoRepeat(TellingOrder(subs)) && forall id :: id in TellingOrder(subs) <==> id in subs
  {
    var targets := set id | id in subs :: subs[id].target;
    SortedNoRepeat(targets);
    ByTargetNoRepeat(subs, Sorted(targets));
    forall id ensures id in TellingOrder(subs) <==> id in subs {
      ByTargetHas(subs, Sorted(targets), id);
      if id in subs { assert subs[id].target in targets; }
    }
  }

  /** After it, every subscription is current, and exactly those that were not have been told, once. */
  lemma NotifyChangedEffect(a: State)
    ensures var r := NotifyChanged(a);
            && OnlyTold(a, r.a) && AllCurrent(r.a)
            && (forall id :: CountTold(r.emit, id) == if id in a.subs && !Current(a, id) then 1 else 0)
  {
    TellingOrderHas(a.subs);
    TellChangedEffect(a, TellingOrder(a.subs));
    assert NotifyChanged(a).a.subs.Keys == a.subs.Keys;
  }

  // ---- steps that tell nobody about presence

  /** Some subscriptions may have ended, the rest are as they were but for their numbers. */
  ghost predicate Quiet(a: State, b: State) {
    && b.records == a.records && b.bound == a.bound && b.now == a.now && b.graceUntil == a.graceUntil && b.revoked == a.revoked
    && b.subs.Keys <= a.subs.Keys
    && (forall id :: id in b.subs ==> SameRight(a.subs[id], b.subs[id]) && b.subs[id].lastBody == a.subs[id].lastBody)
    && NoRepeat(b.listed) && (forall id :: id in b.listed <==> id in b.subs)
  }

  predicate Silent(emit: seq<Emission>) {
    forall e :: e in emit && e.Notify? ==> e.ended.Some? || e.body.PublicationBody?
  }

  lemma {:induction false} SilentCount(emit: seq<Emission>, id: string)
    requires Silent(emit)
    ensures CountTold(emit, id) == 0
  {
    if emit != [] {
      assert emit[|emit| - 1] in emit;
      SilentCount(emit[..|emit| - 1], id);
    }
  }

  lemma QuietTrans(a: State, b: State, c: State)
    requires Quiet(a, b) && Quiet(b, c)
    ensures Quiet(a, c)
  {
  }

  lemma QuietKeeps(a: State, b: State)
    requires AuthorityOk(a) && Quiet(a, b)
    ensures AuthorityOk(b)
  {
    forall id | id in b.subs ensures Current(b, id) {
      assert Current(a, id);
      SameRightBody(a.records, a.bound, a.subs[id], b.subs[id]);
    }
  }

  lemma ToldPublicly(a: State, id: string)
    requires Wf(a) && id in a.subs
    ensures var r := Told(a, id, OnPublication, None); Quiet(a, r.a) && Silent(r.emit) && Wf(r.a)
  {
    ToldEffect(a, id, OnPublication, None);
  }

  lemma {:induction false} TellAllQuiet(a: State, ids: seq<string>, target: string)
    requires Wf(a)
    ensures var r := TellAll(a, ids, target, OnPublication); Quiet(a, r.a) && Silent(r.emit) && Wf(r.a)
  {
    hide Quiet, Wf;
    if ids == [] {
      QuietSelf(a);
    } else {
      TellAllQuiet(a, ids[..|ids| - 1], target);
      var r := TellAll(a, ids[..|ids| - 1], target, OnPublication);
      var id := ids[|ids| - 1];
      if id in r.a.subs {
        ToldPublicly(r.a, id);
        QuietTrans(a, r.a, Told(r.a, id, OnPublication, None).a);
      }
    }
  }

  lemma QuietSelf(a: State)
    requires Wf(a)
    ensures Quiet(a, a)
  {
  }

  lemma {:induction false} WithoutIdHas(listed: seq<string>, id: string)
    requires NoRepeat(listed)
    ensures NoRepeat(WithoutId(listed, id)) && forall x :: x in WithoutId(listed, id) <==> x in listed && x != id
  {
    if listed != [] {
      var front, last := listed[..|listed| - 1], listed[|listed| - 1];
      assert listed == front + [last];
      WithoutIdHas(front, id);
      var kept := WithoutId(front, id);
      assert forall i :: 0 <= i < |front| ==> listed[i] == front[i] && listed[i] != listed[|front|];
      assert last !in kept;
    }
  }

  lemma RemovedQuiet(a: State, id: string)
    requires Wf(a)
    ensures Quiet(a, Removed(a, id)) && Wf(Removed(a, id))
  {
    WithoutIdHas(a.listed, id);
  }

  lemma EndedQuiet(a: State, id: string, reason: string)
    requires Wf(a) && id in a.subs
    ensures var r := Ended(a, id, reason); Quiet(a, r.a) && Silent(r.emit) && Wf(r.a) && id !in r.a.subs
  {
    var t := Told(a, id, a.subs[id].events[0], Some(reason));
    ToldEffect(a, id, a.subs[id].events[0], Some(reason));
    assert Wf(t.a);
    WithoutIdHas(t.a.listed, id);
  }

  lemma {:induction false} EndEachQuiet(a: State, ids: seq<string>, reason: string)
    requires Wf(a)
    ensures var r := EndEach(a, ids, reason); Quiet(a, r.a) && Silent(r.emit) && Wf(r.a) && forall id :: id in ids ==> id !in r.a.subs
  {
    hide Wf;
    if ids == [] {
      QuietSelf(a);
    } else {
      var front, id := ids[..|ids| - 1], ids[|ids| - 1];
      assert ids == front + [id];
      EndEachQuiet(a, front, reason);
      var r := EndEach(a, front, reason);
      if id in r.a.subs {
        Asks(r.a, id);
        EndedQuiet(r.a, id, reason);
        QuietTrans(a, r.a, Ended(r.a, id, reason).a);
      }
    }
  }

  lemma Asks(a: State, id: string)
    requires Wf(a) && id in a.subs
    ensures a.subs[id].events != []
  {
  }

  lemma {:induction false} LapseEachQuiet(a: State, ids: seq<string>)
    requires Wf(a)
    ensures var r := LapseEach(a, ids);
            && Quiet(a, r.a) && Silent(r.emit) && Wf(r.a)
            && (forall id :: id in ids && id in r.a.subs ==> LapseReason(a.subs[id], a.now).None?)
  {
    hide Wf;
    if ids == [] {
      QuietSelf(a);
    } else {
      var front, id := ids[..|ids| - 1], ids[|ids| - 1];
      assert ids == front + [id];
      LapseEachQuiet(a, front);
      var r := LapseEach(a, front);
      if id in r.a.subs {
        Asks(r.a, id);
        if LapseReason(r.a.subs[id], r.a.now).Some? {
          EndedQuiet(r.a, id, LapseReason(r.a.subs[id], r.a.now).value);
          QuietTrans(a, r.a, Ended(r.a, id, LapseReason(r.a.subs[id], r.a.now).value).a);
        }
      }
    }
  }

  lemma WithStateQuiet(a: State, stream: string, p: Publication, state: string)
    requires Wf(a)
    ensures var r := WithState(a, stream, p, state); Quiet(a, r.a) && Silent(r.emit) && Wf(r.a)
  {
    var b := a.(pubs := a.pubs[stream := p.(state := state)],
                streams := if stream in a.streams then a.streams else a.streams + [stream]);
    TellAllQuiet(b, b.listed, stream);
  }

  lemma {:induction false} ExpireEachQuiet(a: State, streams: seq<string>)
    requires Wf(a)
    ensures var r := ExpireEach(a, streams); Quiet(a, r.a) && Silent(r.emit) && Wf(r.a)
  {
    hide Quiet, Wf, WithState;
    if streams == [] {
      QuietSelf(a);
    } else {
      ExpireEachQuiet(a, streams[..|streams| - 1]);
      var r := ExpireEach(a, streams[..|streams| - 1]);
      var stream := streams[|streams| - 1];
      if stream in r.a.pubs {
        WithStateQuiet(r.a, stream, r.a.pubs[stream], "expired");
        QuietTrans(a, r.a, WithState(r.a, stream, r.a.pubs[stream], "expired").a);
      }
    }
  }

  // ---- every step

  ghost predicate BodyChanges(a: State, b: State, id: string)
    requires id in a.subs && id in b.subs
  {
    BodyFor(a.records, a.bound, a.subs[id]) != BodyFor(b.records, b.bound, b.subs[id])
  }

  /** An old subscription is told once if its body changed and not otherwise; an ended one is not told. */
  ghost predicate ToldExactly(a: State, r: Result, id: string) {
    id in a.subs ==>
      if id in r.a.subs then
        SameRight(a.subs[id], r.a.subs[id])
        && CountTold(r.emit, id) == (if OnPresence in a.subs[id].events && BodyChanges(a, r.a, id) then 1 else 0)
      else CountTold(r.emit, id) == 0
  }

  lemma QuietExact(a: State, r: Result, id: string)
    requires Quiet(a, r.a) && Silent(r.emit)
    ensures ToldExactly(a, r, id)
  {
    SilentCount(r.emit, id);
    if id in r.a.subs { SameRightBody(a.records, a.bound, a.subs[id], r.a.subs[id]); }
  }

  lemma ChangeOne(a: State, b: State, emit: seq<Emission>, c: State, id: string)
    requires AllCurrent(a) && Quiet(a, b) && Silent(emit) && c.subs == b.subs
    ensures ToldExactly(a, Then(Result(b, emit), NotifyChanged(c)), id)
  {
    hide BodyFor, SameRight, CountTold, Tells, NotifyChanged;
    var t := NotifyChanged(c);
    NotifyChangedEffect(c);
    CountAppend(emit, t.emit, id);
    SilentCount(emit, id);
    if id in b.subs {
      assert Current(a, id);
      SameRightBody(a.records, a.bound, a.subs[id], b.subs[id]);
      SameRightBody(c.records, c.bound, b.subs[id], t.a.subs[id]);
      SameRightTrans(a.subs[id], b.subs[id], t.a.subs[id]);
      SameEvents(a.subs[id], b.subs[id]);
    }
  }

  lemma SameEvents(s: Subscription, t: Subscription)
    requires SameRight(s, t)
    ensures s.events == t.events
  {
  }

  /** Quietly from `a` to `b`, then records or bindings change to `c`, then whoever is affected is told. */
  lemma ChangeExact(a: State, b: State, emit: seq<Emission>, c: State)
    requires AllCurrent(a) && Quiet(a, b) && Silent(emit) && Wf(b)
    requires c.subs == b.subs && c.listed == b.listed && KeyedRight(c.records)
    ensures var r := Then(Result(b, emit), NotifyChanged(c));
            && AuthorityOk(r.a) && r.a == c.(subs := r.a.subs) && r.a.subs.Keys <= a.subs.Keys && forall id :: ToldExactly(a, r, id)
  {
    hide BodyFor, CountTold, Tells, NotifyChanged, ToldExactly, Current, KeyedRight;
    NotifyChangedEffect(c);
    assert Wf(NotifyChanged(c).a);
    forall id ensures ToldExactly(a, Then(Result(b, emit), NotifyChanged(c)), id) {
      ChangeOne(a, b, emit, c, id);
    }
  }

  lemma SameRightTrans(s: Subscription, t: Subscription, u: Subscription)
    requires SameRight(s, t) && SameRight(t, u)
    ensures SameRight(s, u)
  {
  }

  lemma CleanedKeyed(a: State)
    requires KeyedRight(a.records)
    ensures KeyedRight(Cleaned(a).records)
  {
  }

  /** What an advance does before anybody is told of changed bodies. */
  ghost function Settled(a: State, seconds: nat): Result {
    var b := a.(now := a.now + seconds);
    var e := ExpireEach(b, b.streams);
    Then(e, LapseEach(e.a, Sorted(e.a.subs.Keys)))
  }

  lemma SettledQuiet(a: State, seconds: nat)
    requires Wf(a)
    ensures var b, r := a.(now := a.now + seconds), Settled(a, seconds);
            && Quiet(b, r.a) && Silent(r.emit) && Wf(r.a)
            && (forall id :: id in r.a.subs ==> LapseReason(r.a.subs[id], r.a.now).None?)
  {
    hide ExpireEach, LapseEach, Sorted, Wf, KeyedRight, Silent, LapseReason, Quiet, SameRight;
    var b := a.(now := a.now + seconds);
    NowWf(a, b);
    var e := ExpireEach(b, b.streams);
    ExpireEachQuiet(b, b.streams);
    var ids := Sorted(e.a.subs.Keys);
    var l := LapseEach(e.a, ids);
    LapseEachQuiet(e.a, ids);
    SilentBoth(e.emit, l.emit);
    QuietTrans(b, e.a, l.a);
    forall id | id in l.a.subs ensures LapseReason(l.a.subs[id], l.a.now).None? {
      QuietGives(e.a, l.a, id);
      assert id in ids;
      SameLapse(e.a.subs[id], l.a.subs[id], e.a.now);
    }
  }

  lemma QuietGives(a: State, b: State, id: string)
    requires Quiet(a, b) && id in b.subs
    ensures id in a.subs && SameRight(a.subs[id], b.subs[id]) && b.now == a.now
  {
  }

  lemma SameLapse(s: Subscription, t: Subscription, now: int)
    requires SameRight(s, t)
    ensures LapseReason(s, now) == LapseReason(t, now)
  {
  }

  lemma NowWf(a: State, b: State)
    requires Wf(a) && b == a.(now := b.now)
    ensures Wf(b)
  {
  }

  lemma AdvanceKeeps(a: State, seconds: nat)
    requires AuthorityOk(a)
    ensures var r := OnAdvance(a, seconds);
            && AuthorityOk(r.a) && (forall id :: ToldExactly(a, r, id)) && r.a.now == a.now + seconds
            && NothingStale(r.a) && r.a.subs.Keys <= a.subs.Keys && r.a.revoked.Keys <= a.revoked.Keys
  {
    hide BodyFor, AllCurrent, ExpireEach, LapseEach, NotifyChanged, CountTold, Kept, Quiet, SameRight, KeyedRight, Silent, ToldExactly, Wf,
      LapseReason;
    var b := a.(now := a.now + seconds);
    AdvancedOk(a, b);
    SettledQuiet(a, seconds);
    var l := Settled(a, seconds);
    var c := Cleaned(l.a);
    WfKeyed(l.a);
    CleanedKeyed(l.a);
    ChangeExact(b, l.a, l.emit, c);
    var r := Then(l, NotifyChanged(c));
    assert r == OnAdvance(a, seconds);
    forall id ensures ToldExactly(a, r, id) { ExactFrom(a, b, r, id); }
    NotifyChangedEffect(c);
    forall id | id in r.a.subs ensures LapseReason(r.a.subs[id], r.a.now).None? {
      SameLapse(l.a.subs[id], r.a.subs[id], r.a.now);
    }
    CleanedFresh(l.a);
    FreshStill(c, r.a);
    QuietNow(b, l.a);
  }

  lemma QuietNow(a: State, b: State)
    requires Quiet(a, b)
    ensures b.now == a.now && b.revoked == a.revoked
  {
  }

  lemma SilentBoth(a: seq<Emission>, b: seq<Emission>)
    requires Silent(a) && Silent(b)
    ensures Silent(a + b)
  {
  }

  lemma WfKeyed(a: State)
    requires Wf(a)
    ensures KeyedRight(a.records)
  {
  }

  lemma ExactFrom(a: State, b: State, r: Result, id: string)
    requires b == a.(now := b.now) && ToldExactly(b, r, id)
    ensures ToldExactly(a, r, id)
  {
  }

  lemma FreshStill(c: State, r: State)
    requires r == c.(subs := r.subs)
    requires (forall t, k :: t in c.records && k in c.records[t] ==> c.now < c.records[t][k].expiresAt)
    requires forall d :: d in c.graceUntil ==> c.now < c.graceUntil[d]
    requires forall k :: k in c.revoked ==> c.now < c.revoked[k]
    requires forall id :: id in r.subs ==> LapseReason(r.subs[id], r.now).None?
    ensures NothingStale(r)
  {
  }

  lemma AdvancedOk(a: State, b: State)
    requires AuthorityOk(a) && b == a.(now := b.now)
    ensures AuthorityOk(b)
  {
    forall id | id in b.subs ensures Current(b, id) { assert Current(a, id); }
  }

  /** Nothing is held past its time: no subscription, record, grace or revocation. */
  ghost predicate NothingStale(a: State) {
    && (forall id :: id in a.subs ==> LapseReason(a.subs[id], a.now).None?)
    && (forall t, k :: t in a.records && k in a.records[t] ==> a.now < a.records[t][k].expiresAt)
    && (forall d :: d in a.graceUntil ==> a.now < a.graceUntil[d])
    && (forall k :: k in a.revoked ==> a.now < a.revoked[k])
  }

  lemma CleanedFresh(a: State)
    ensures var c := Cleaned(a);
            && (forall t, k :: t in c.records && k in c.records[t] ==> c.now < c.records[t][k].expiresAt)
            && (forall d :: d in c.graceUntil ==> c.now < c.graceUntil[d])
            && (forall k :: k in c.revoked ==> c.now < c.revoked[k])
  {
    hide KeptOf, Still;
    var c := Cleaned(a);
    StillFresh(a.revoked, a.now);
    StillFresh(a.graceUntil, a.now);
    forall t, k | t in c.records && k in c.records[t] ensures c.now < c.records[t][k].expiresAt {
      KeptFresh(a.records[t], a.graceUntil, a.now);
    }
  }

  lemma StillFresh(m: map<string, int>, now: int)
    ensures forall k :: k in Still(m, now) ==> now < Still(m, now)[k]
  {
  }

  lemma KeptFresh(held: map<string, Record>, graceUntil: map<string, int>, now: int)
    ensures forall k :: k in KeptOf(held, graceUntil, now) ==> now < KeptOf(held, graceUntil, now)[k].expiresAt
  {
  }

  lemma DropKeyed(held: map<string, Record>, device: string)
    requires KeyedHeld(held)
    ensures KeyedHeld(DropDevice(held, device))
  {
    hide RecordKey;
  }

  lemma UnboundKeyed(a: State, device: string, identity: string)
    requires KeyedRight(a.records)
    ensures KeyedRight(Unbound(a, device, identity).records)
  {
    hide KeyedHeld, DropDevice, HoldsOf, KeyedRight, Held;
    var held := Held(a.records, identity);
    HeldKeyed(a.records, identity);
    DropKeyed(held, device);
    PutKeyed(a.records, identity, DropDevice(held, device));
  }

  lemma HeldKeyed(records: map<string, map<string, Record>>, t: string)
    requires KeyedRight(records)
    ensures KeyedHeld(Held(records, t))
  {
  }

  lemma PutKeyed(records: map<string, map<string, Record>>, t: string, held: map<string, Record>)
    requires KeyedRight(records) && KeyedHeld(held)
    ensures KeyedRight(records[t := held])
  {
    hide KeyedHeld;
  }

  lemma AcceptedKeyed(a: State, from: string, subject: string, r: Record)
    requires KeyedRight(a.records)
    ensures KeyedRight(Accepted(a, from, subject, r).records)
  {
    hide RecordKey, KeyedRight;
    var held := Held(a.records, subject);
    HeldKeyed(a.records, subject);
    PutKeyed(a.records, subject, held[RecordKey(from, r.audience) := r.(device := from)]);
  }

  /** A change of records or bindings alone, followed by telling. */
  lemma PlainChange(a: State, c: State)
    requires AuthorityOk(a) && c.subs == a.subs && c.listed == a.listed && KeyedRight(c.records)
    ensures var r := NotifyChanged(c);
            && AuthorityOk(r.a) && r.a == c.(subs := r.a.subs) && r.a.subs.Keys <= a.subs.Keys && forall id :: ToldExactly(a, r, id)
  {
    hide AuthorityOk, NotifyChanged, KeyedRight, ToldExactly;
    OkGives(a);
    QuietSelf(a);
    ChangeExact(a, a, [], c);
    assert [] + NotifyChanged(c).emit == NotifyChanged(c).emit;
    assert Then(Result(a, []), NotifyChanged(c)) == NotifyChanged(c);
  }

  lemma OkGives(a: State)
    requires AuthorityOk(a)
    ensures Wf(a) && KeyedRight(a.records) && AllCurrent(a)
  {
  }

  // ---- subscribing keeps

  function CountTopic(topics: seq<Topic>): nat {
    if topics == [] then 0 else CountTopic(topics[..|topics| - 1]) + if topics[|topics| - 1] == OnPresence then 1 else 0
  }

  /** Only one subscription has been told things. */
  ghost predicate OnlyToldOne(a: State, b: State, id: string) {
    id in a.subs && id in b.subs && b == a.(subs := a.subs[id := b.subs[id]]) && SameRight(a.subs[id], b.subs[id])
  }

  lemma ToldOne(a: State, id: string, t: Topic)
    requires id in a.subs
    ensures var r := Told(a, id, t, None);
            && OnlyToldOne(a, r.a, id) && (t == OnPresence ==> Current(r.a, id)) && (t == OnPublication && Current(a, id) ==> Current(r.a, id))
  {
    ToldEffect(a, id, t, None);
    var r := Told(a, id, t, None);
    SameRightBody(a.records, a.bound, a.subs[id], r.a.subs[id]);
  }

  lemma ToldOneTrans(a: State, b: State, c: State, id: string)
    requires OnlyToldOne(a, b, id) && OnlyToldOne(b, c, id)
    ensures OnlyToldOne(a, c, id)
  {
    assert a.subs[id := b.subs[id]][id := c.subs[id]] == a.subs[id := c.subs[id]];
  }

  lemma OneIsOnly(a: State, b: State, id: string)
    requires OnlyToldOne(a, b, id)
    ensures OnlyTold(a, b) && forall x :: x in a.subs && x != id ==> b.subs[x] == a.subs[x]
  {
    assert b.subs.Keys == a.subs.Keys;
  }

  lemma ToldOneSelf(a: State, id: string)
    requires id in a.subs
    ensures OnlyToldOne(a, a, id)
  {
    assert a.subs[id := a.subs[id]] == a.subs;
  }

  /** A new subscription is told once for each topic it asked for, and is then current; nobody else hears. */
  lemma {:induction false} TellEachEffect(a: State, id: string, topics: seq<Topic>)
    requires id in a.subs
    ensures var r := TellEach(a, id, topics);
            && OnlyToldOne(a, r.a, id) && (OnPresence in topics ==> Current(r.a, id))
            && (forall x :: CountTold(r.emit, x) == if x == id then CountTopic(topics) else 0)
  {
    hide Told, Current, OnlyToldOne;
    if topics == [] {
      ToldOneSelf(a, id);
    } else {
      var front, t := topics[..|topics| - 1], topics[|topics| - 1];
      assert topics == front + [t];
      TellEachEffect(a, id, front);
      CountTopicStep(front, t);
      var r := TellEach(a, id, front);
      ToldOne(r.a, id, t);
      ToldOneTrans(a, r.a, Told(r.a, id, t, None).a, id);
      forall x ensures CountTold(TellEach(a, id, topics).emit, x) == if x == id then CountTopic(topics) else 0 {
        TellEachCount(a, id, front, t, x);
      }
    }
  }

  lemma TellEachStep(a: State, id: string, front: seq<Topic>, t: Topic)
    requires id in a.subs
    ensures var r := TellEach(a, id, front);
            TellEach(a, id, front + [t]) == Then(r, Told(r.a, id, t, None))
  {
    var topics := front + [t];
    assert topics[..|topics| - 1] == front && topics[|topics| - 1] == t;
    hide Told, Then;
  }

  lemma CountTopicStep(front: seq<Topic>, t: Topic)
    ensures CountTopic(front + [t]) == CountTopic(front) + if t == OnPresence then 1 else 0
    ensures OnPresence in front + [t] <==> OnPresence in front || t == OnPresence
  {
    assert (front + [t])[..|front|] == front;
  }

  lemma TellEachCount(a: State, id: string, front: seq<Topic>, t: Topic, x: string)
    requires id in a.subs
    requires CountTold(TellEach(a, id, front).emit, x) == if x == id then CountTopic(front) else 0
    ensures CountTold(TellEach(a, id, front + [t]).emit, x) == if x == id then CountTopic(front + [t]) else 0
  {
    hide BodyFor, SameRight, Tells, CountTold, CountTopic, TellEach, Told, Current, OnlyTold;
    TellEachStep(a, id, front, t);
    CountTopicStep(front, t);
    var r := TellEach(a, id, front);
    var s := Told(r.a, id, t, None);
    ToldEffect(r.a, id, t, None);
    CountAppend(r.emit, s.emit, x);
  }

  lemma AddedWf(b: State, id: string, s: Subscription)
    requires Wf(b) && id !in b.subs && s.events != []
    ensures Wf(WithSubscription(b, id, s))
  {
    var listed := b.listed + [id];
    assert forall i :: 0 <= i < |b.listed| ==> listed[i] in b.listed;
  }

  lemma AddedKeeps(a: State, b: State, emit: seq<Emission>, id: string, s: Subscription)
    requires AuthorityOk(a) && Quiet(a, b) && Silent(emit) && Wf(b) && id !in b.subs && s.events != []
    ensures var c := WithSubscription(b, id, s);
            var r := Then(Result(c, emit), TellEach(c, id, s.events));
            && AuthorityOk(r.a) && id in r.a.subs && CountTold(r.emit, id) == CountTopic(s.events)
            && forall x :: x != id ==> ToldExactly(a, r, x)
  {
    hide BodyFor, SameRight, CountTold, Tells, KeyedRight, ToldExactly, BodyChanges, Wf;
    var c := WithSubscription(b, id, s);
    AddedWf(b, id, s);
    TellEachEffect(c, id, s.events);
    var t := TellEach(c, id, s.events);
    OneIsOnly(c, t.a, id);
    var r := Then(Result(c, emit), t);
    QuietKeeps(a, b);
    forall x ensures CountTold(r.emit, x) == CountTold(t.emit, x) { CountAppend(emit, t.emit, x); SilentCount(emit, x); }
    forall x | x in r.a.subs ensures Current(r.a, x) {
      if x == id { SameEvents(s, r.a.subs[id]); } else { assert Current(b, x); }
    }
    ToldOneWf(c, t.a, id);
    forall x | x != id ensures ToldExactly(a, r, x) { BesideExact(a, b, r, x); }
  }

  lemma ToldOneWf(a: State, b: State, id: string)
    requires Wf(a) && OnlyToldOne(a, b, id)
    ensures Wf(b)
  {
    hide KeyedRight;
    forall x | x in b.subs ensures b.subs[x].events != [] { SameEvents(a.subs[x], b.subs[x]); }
  }

  /** Subscriptions beside the new one are told nothing and mean what they did. */
  lemma BesideExact(a: State, b: State, r: Result, x: string)
    requires Quiet(a, b) && r.a.records == b.records && r.a.bound == b.bound
    requires CountTold(r.emit, x) == 0 && (x in r.a.subs ==> x in b.subs && r.a.subs[x] == b.subs[x])
    ensures ToldExactly(a, r, x)
  {
    hide BodyFor, SameRight, CountTold;
    if x in a.subs && x in r.a.subs { SameRightBody(a.records, a.bound, a.subs[x], r.a.subs[x]); }
  }

  /** A subscribe that is taken up asks for something, under an id that is new or that of the subscription it replaces. */
  predicate Permitted(a: State, ev: Event) {
    ev.Subscribe? && TakesUp(a, ev.request) ==>
      && ev.request.events != []
      && (ev.request.id in a.subs ==> PriorOf(a, a.listed, ev.request) == Some(ev.request.id))
  }

  /** Whoever's subscription is replaced is told nothing more, and the one taken up is told once for each topic. */
  ghost predicate ToldOnSubscribe(a: State, q: Request, r: Result, id: string) {
    if TakesUp(a, q) && q.id == id then id in r.a.subs && CountTold(r.emit, id) == CountTopic(q.events) else ToldExactly(a, r, id)
  }

  lemma SubscribeKeeps(a: State, q: Request)
    requires AuthorityOk(a) && Permitted(a, Subscribe(q))
    ensures var r := OnSubscribe(a, q); AuthorityOk(r.a) && forall id :: ToldOnSubscribe(a, q, r, id)
  {
    hide AuthorityOk, ToldExactly, Quiet, Wf, TellEach, CountTold, Silent, Admit, WithoutId;
    OkGives(a);
    QuietSelf(a);
    var prior := PriorOf(a, a.listed, q);
    var r := OnSubscribe(a, q);
    var b := Without(a, prior);
    if prior.Some? { RemovedQuiet(a, prior.value); }
    if q.expiresIn == 0 || Admit(a, q).Refused? {
      QuietKeeps(a, r.a);
      assert Silent(r.emit) by { OneQuiet(r.emit[0]); }
      forall id ensures ToldExactly(a, r, id) { QuietExact(a, r, id); }
    } else {
      var emit := if prior.Some? then [SubscriptionEnd(prior.value, true)] else [];
      assert Silent(emit) by { if emit != [] { OneQuiet(emit[0]); } else { NoneQuiet(); } }
      AddedKeeps(a, b, emit, q.id, NewSubscription(a, q, Admit(a, q)));
    }
  }

  lemma OneQuiet(e: Emission)
    requires !e.Notify?
    ensures Silent([e])
  {
  }

  lemma NoneQuiet()
    ensures Silent([])
  {
  }

  // ---- the remaining events keep

  lemma QuietStep(a: State, r: Result)
    requires AuthorityOk(a) && Quiet(a, r.a) && Silent(r.emit)
    ensures AuthorityOk(r.a) && r.a.subs.Keys <= a.subs.Keys && r.a.revoked == a.revoked && forall id :: ToldExactly(a, r, id)
  {
    QuietKeeps(a, r.a);
    forall id ensures ToldExactly(a, r, id) { QuietExact(a, r, id); }
  }

  /** Only policies, capabilities or publications differ. */
  lemma AsideQuiet(a: State, b: State)
    requires Wf(a) && b == a.(policy := b.policy, capabilities := b.capabilities, pubs := b.pubs)
    ensures Quiet(a, b) && Wf(b)
  {
  }

  lemma RevokedOk(a: State, b: State)
    requires AuthorityOk(a) && b == a.(revoked := b.revoked)
    ensures AuthorityOk(b)
  {
    forall id | id in b.subs ensures Current(b, id) { assert Current(a, id); }
  }

  lemma ExactBeside(a: State, b: State, r: Result, id: string)
    requires b == a.(revoked := b.revoked) && ToldExactly(b, r, id)
    ensures ToldExactly(a, r, id)
  {
  }

  lemma RevocationKeeps(a: State, from: string, grant: string, validUntil: int)
    requires AuthorityOk(a)
    ensures var r := OnRevocation(a, from, grant, validUntil);
            && AuthorityOk(r.a) && (forall id :: ToldExactly(a, r, id)) && r.a.subs.Keys <= a.subs.Keys
            && AdmittedBy(r.a, IdentityOf(a, from), grant) == {}
            && r.a.revoked.Keys <= a.revoked.Keys + {RevokeKey(IdentityOf(a, from), grant)}
  {
    hide AuthorityOk, ToldExactly, Wf, EndEach, Quiet, SameRight, Silent;
    var identity := IdentityOf(a, from);
    var b := if a.now < validUntil then a.(revoked := a.revoked[RevokeKey(identity, grant) := validUntil]) else a;
    RevokedOk(a, b);
    OkGives(b);
    var ids := Sorted(AdmittedBy(b, identity, grant));
    EndEachQuiet(b, ids, "policy.terminated");
    var r := EndEach(b, ids, "policy.terminated");
    QuietStep(b, r);
    forall id ensures ToldExactly(a, r, id) { ExactBeside(a, b, r, id); }
    forall id | id in r.a.subs ensures id !in AdmittedBy(r.a, identity, grant) {
      assert id !in ids;
      QuietGives(b, r.a, id);
      SameGrant(b.subs[id], r.a.subs[id]);
    }
  }

  lemma SameGrant(s: Subscription, t: Subscription)
    requires SameRight(s, t)
    ensures s.grant == t.grant && s.target == t.target
  {
  }

  lemma DropKeeps(a: State, why: string)
    requires AuthorityOk(a)
    ensures forall id :: ToldExactly(a, Result(a, [Drop(why)]), id)
  {
    QuietSelf(a);
    OneQuiet(Drop(why));
    QuietStep(a, Result(a, [Drop(why)]));
  }

  lemma PublishKeeps(a: State, stream: string, p: Publication, state: string)
    requires AuthorityOk(a)
    ensures var r := WithState(a, stream, p, state);
            AuthorityOk(r.a) && r.a.subs.Keys <= a.subs.Keys && r.a.revoked == a.revoked && forall id :: ToldExactly(a, r, id)
  {
    hide ToldExactly, WithState;
    WithStateQuiet(a, stream, p, state);
    QuietStep(a, WithState(a, stream, p, state));
  }

  lemma AttestKeeps(a: State, stream: string, processor: string)
    requires AuthorityOk(a) && stream in a.pubs
    ensures var p := a.pubs[stream];
            var b := a.(pubs := a.pubs[stream := p.(provenance := p.provenance + [processor])]);
            var r := Then(Result(b, [Provenance(stream, processor)]), TellAll(b, b.listed, stream, OnPublication));
            AuthorityOk(r.a) && r.a.subs.Keys <= a.subs.Keys && r.a.revoked == a.revoked && forall id :: ToldExactly(a, r, id)
  {
    hide AuthorityOk, ToldExactly, Wf, Quiet, TellAll, Silent;
    OkGives(a);
    var p := a.pubs[stream];
    var b := a.(pubs := a.pubs[stream := p.(provenance := p.provenance + [processor])]);
    AsideQuiet(a, b);
    TellAllQuiet(b, b.listed, stream);
    var t := TellAll(b, b.listed, stream, OnPublication);
    QuietTrans(a, b, t.a);
    OneQuiet(Provenance(stream, processor));
    SilentBoth([Provenance(stream, processor)], t.emit);
    QuietStep(a, Then(Result(b, [Provenance(stream, processor)]), t));
  }

  lemma PublicationsKeep(a: State, ev: Event)
    requires AuthorityOk(a) && (ev.Publish? || ev.Unpublish? || ev.Attest?)
    ensures AuthorityOk(Step(a, ev).a) && forall id :: ToldExactly(a, Step(a, ev), id)
    ensures Step(a, ev).a.subs.Keys <= a.subs.Keys && Step(a, ev).a.revoked == a.revoked
  {
    hide AuthorityOk, ToldExactly, TellAll, WithState, StreamOf, StartsWith, Less, IdentityOf;
    var r := Step(a, ev);
    if r.emit != [] && r.emit[0].Drop? && r == Result(a, [Drop(r.emit[0].why)]) {
      DropKeeps(a, r.emit[0].why);
    } else {
      match ev
      case Publish(from, publisher, stream, id, state, variants, expires) =>
        PublishKeeps(a, stream, Publication(id, IdentityOf(a, from), "", variants, expires, []), state);
      case Unpublish(from, publisher, stream, publication) =>
        PublishKeeps(a, stream, a.pubs[stream], "withdrawn");
      case Attest(from, processor, stream, publication, variant) =>
        AttestKeeps(a, stream, processor);
    }
  }

  /** What a `subscribe` leaves besides who was told: at most one subscription more, with what it was admitted with. */
  lemma SubscribeAdds(a: State, q: Request)
    requires AuthorityOk(a) && Permitted(a, Subscribe(q))
    ensures var r := OnSubscribe(a, q);
            && r.a.subs.Keys <= (if TakesUp(a, q) then a.subs.Keys + {q.id} else a.subs.Keys) && r.a.revoked == a.revoked
            && (TakesUp(a, q) ==> q.id in r.a.subs && r.a.subs[q.id].grant == Admit(a, q).grant && r.a.subs[q.id].target == q.target)
  {
    hide AuthorityOk, TellEach, Admit, PriorOf, Removed, WithSubscription, Without, NewSubscription;
    var prior := PriorOf(a, a.listed, q);
    if q.expiresIn == 0 {
      if prior.Some? { RemovedGives(a, prior.value); }
    } else if Admit(a, q).Refused? {
      assert OnSubscribe(a, q).a == a;
    } else {
      WithoutGives(a, prior);
      var c := WithSubscription(Without(a, prior), q.id, NewSubscription(a, q, Admit(a, q)));
      AddedGives(Without(a, prior), a, q, Admit(a, q));
      TellEachEffect(c, q.id, q.events);
      ToldOneGives(c, OnSubscribe(a, q).a, q.id);
    }
  }

  lemma RemovedGives(a: State, id: string)
    ensures Removed(a, id).subs.Keys <= a.subs.Keys && Removed(a, id).revoked == a.revoked
  {
  }

  lemma WithoutGives(a: State, prior: Option<string>)
    ensures Without(a, prior).subs.Keys <= a.subs.Keys && Without(a, prior).revoked == a.revoked
  {
  }

  lemma AddedGives(b: State, a: State, q: Request, m: Admission)
    requires m.Admitted?
    ensures var c := WithSubscription(b, q.id, NewSubscription(a, q, m));
            && c.subs.Keys == b.subs.Keys + {q.id} && c.revoked == b.revoked
            && c.subs[q.id].grant == m.grant && c.subs[q.id].target == q.target
  {
  }

  lemma ToldOneGives(a: State, b: State, id: string)
    requires OnlyToldOne(a, b, id)
    ensures b.subs.Keys == a.subs.Keys && b.revoked == a.revoked && id in a.subs
    ensures b.subs[id].grant == a.subs[id].grant && b.subs[id].target == a.subs[id].target
  {
  }

  /**
   * After every event each presence subscription's last body is the one computed afresh; the subscription a request makes
   * is told once for each topic, and of all others that were there before exactly those whose body changed, once.
   */
  lemma StepKeeps(a: State, ev: Event)
    requires AuthorityOk(a) && Permitted(a, ev)
    ensures AuthorityOk(Step(a, ev).a)
    ensures forall id :: if ev.Subscribe? then ToldOnSubscribe(a, ev.request, Step(a, ev), id) else ToldExactly(a, Step(a, ev), id)
    ensures ev.Advance? ==> NothingStale(Step(a, ev).a)
  {
    hide AuthorityOk, ToldExactly, ToldOnSubscribe, TakesUp, Wf, Quiet, NotifyChanged, OnSubscribe, OnRevocation, OnAdvance, OnPublish, OnUnpublish, OnAttest, KeyedRight;
    OkGives(a);
    match ev
    case Advance(seconds) => AdvanceKeeps(a, seconds);
    case SetPolicy(target, policy) => AsideQuiet(a, Step(a, ev).a); NoneQuiet(); QuietStep(a, Step(a, ev));
    case IssueCapability(token, target) => AsideQuiet(a, Step(a, ev).a); NoneQuiet(); QuietStep(a, Step(a, ev));
    case Bind(device, identity) =>
      PlainChange(a, a.(bound := a.bound[device := identity], seen := a.seen + {identity}, graceUntil := a.graceUntil - {device}));
    case Unbind(device, identity) =>
      UnboundKeyed(a, device, identity);
      PlainChange(a, Unbound(a, device, identity));
    case Publish(_, _, _, _, _, _, _) => PublicationsKeep(a, ev);
    case Unpublish(_, _, _, _) => PublicationsKeep(a, ev);
    case Attest(_, _, _, _, _) => PublicationsKeep(a, ev);
    case Subscribe(q) => SubscribeKeeps(a, q);
    case PutRecord(from, subject, signed, issuedAt, r) =>
      if RefusalOf(a, from, subject, signed, issuedAt, r).Some? {
        QuietSelf(a);
        OneQuiet(Step(a, ev).emit[0]);
        QuietStep(a, Step(a, ev));
      } else {
        AcceptedKeyed(a, from, subject, r);
        PlainChange(a, Accepted(a, from, subject, r));
      }
    case RevokeGrant(from, grant, validUntil) => RevocationKeeps(a, from, grant, validUntil);
  }

  // ---- revoked grants

  lemma {:induction false} RevokeKeyInjective(i: string, g: string, j: string, h: string)
    requires '\n' !in i && '\n' !in j && RevokeKey(i, g) == RevokeKey(j, h)
    ensures i == j && g == h
  {
    var k := RevokeKey(i, g);
    assert k == i + (['\n'] + g) && k == j + (['\n'] + h);
    assert forall x :: 0 <= x < |i| ==> k[x] == i[x] && i[x] in i;
    assert forall x :: 0 <= x < |j| ==> k[x] == j[x] && j[x] in j;
    assert k[|i|] == '\n' && k[|j|] == '\n';
    assert i == k[..|i|] && j == k[..|j|];
    assert g == k[|i| + 1..] && h == k[|j| + 1..];
  }

  /** No subscription rests on a grant its target has revoked. */
  ghost predicate NoneRevoked(a: State) {
    forall id :: id in a.subs ==> '\n' !in a.subs[id].target && (a.subs[id].grant.Some? ==> RevokeKey(a.subs[id].target, a.subs[id].grant.value.id) !in a.revoked)
  }

  /** Identities and targets are DIDs, which hold no line break. */
  predicate PlainNames(a: State, ev: Event) {
    match ev
    case Subscribe(q) => '\n' !in q.target
    case RevokeGrant(from, _, _) => '\n' !in IdentityOf(a, from)
    case _ => true
  }

  lemma AdmittedUnrevoked(a: State, q: Request)
    ensures var m := Admit(a, q); m.Admitted? && m.grant.Some? ==> RevokeKey(q.target, m.grant.value.id) !in a.revoked
  {
  }

  lemma NoneRevokedStays(a: State, r: Result)
    requires NoneRevoked(a) && r.a.revoked.Keys <= a.revoked.Keys && r.a.subs.Keys <= a.subs.Keys && forall id :: ToldExactly(a, r, id)
    ensures NoneRevoked(r.a)
  {
    hide BodyFor, CountTold;
    forall id | id in r.a.subs
      ensures '\n' !in r.a.subs[id].target && (r.a.subs[id].grant.Some? ==> RevokeKey(r.a.subs[id].target, r.a.subs[id].grant.value.id) !in r.a.revoked)
    {
      assert ToldExactly(a, r, id);
      SameGrant(a.subs[id], r.a.subs[id]);
      assert id in a.subs.Keys;
    }
  }

  /** Once revoked, a grant carries no subscription until the revocation is dropped with the grant's own end. */
  lemma RevokedStaysOut(a: State, ev: Event)
    requires AuthorityOk(a) && Permitted(a, ev) && NoneRevoked(a) && PlainNames(a, ev)
    ensures NoneRevoked(Step(a, ev).a)
  {
    hide AuthorityOk, ToldExactly, ToldOnSubscribe, TakesUp, NoneRevoked, NotifyChanged, OnSubscribe, OnRevocation, OnAdvance, OnPublish, OnUnpublish,
      OnAttest, KeyedRight, Admit;
    OkGives(a);
    StepKeeps(a, ev);
    var r := Step(a, ev);
    match ev
    case Advance(seconds) => AdvanceKeeps(a, seconds); NoneRevokedStays(a, r);
    case Bind(device, identity) =>
      PlainChange(a, a.(bound := a.bound[device := identity], seen := a.seen + {identity}, graceUntil := a.graceUntil - {device}));
      NoneRevokedStays(a, r);
    case Unbind(device, identity) =>
      UnboundKeyed(a, device, identity);
      PlainChange(a, Unbound(a, device, identity));
      NoneRevokedStays(a, r);
    case Subscribe(q) => SubscribedUnrevoked(a, q, r);
    case PutRecord(from, subject, signed, issuedAt, x) =>
      if RefusalOf(a, from, subject, signed, issuedAt, x).None? {
        AcceptedKeyed(a, from, subject, x);
        PlainChange(a, Accepted(a, from, subject, x));
      }
      NoneRevokedStays(a, r);
    case RevokeGrant(from, grant, validUntil) => RevokedUnrevoked(a, from, grant, validUntil);
    case SetPolicy(_, _) => NoneRevokedStays(a, r);
    case IssueCapability(_, _) => NoneRevokedStays(a, r);
    case Publish(_, _, _, _, _, _, _) => PublicationsKeep(a, ev); NoneRevokedStays(a, r);
    case Unpublish(_, _, _, _) => PublicationsKeep(a, ev); NoneRevokedStays(a, r);
    case Attest(_, _, _, _, _) => PublicationsKeep(a, ev); NoneRevokedStays(a, r);
  }

  lemma SubscribedUnrevoked(a: State, q: Request, r: Result)
    requires AuthorityOk(a) && Permitted(a, Subscribe(q)) && NoneRevoked(a) && '\n' !in q.target
    requires r == OnSubscribe(a, q) && forall id :: ToldOnSubscribe(a, q, r, id)
    ensures NoneRevoked(r.a)
  {
    hide AuthorityOk, BodyFor, CountTold, OnSubscribe, Admit, RevokeKey, TellingOrder;
    SubscribeAdds(a, q);
    AdmittedUnrevoked(a, q);
    forall id | id in r.a.subs
      ensures '\n' !in r.a.subs[id].target && (r.a.subs[id].grant.Some? ==> RevokeKey(r.a.subs[id].target, r.a.subs[id].grant.value.id) !in r.a.revoked)
    {
      assert ToldOnSubscribe(a, q, r, id);
      if !(TakesUp(a, q) && id == q.id) { assert id in a.subs.Keys; SameGrant(a.subs[id], r.a.subs[id]); }
    }
  }

  lemma RevokedUnrevoked(a: State, from: string, grant: string, validUntil: int)
    requires AuthorityOk(a) && NoneRevoked(a) && '\n' !in IdentityOf(a, from)
    ensures NoneRevoked(OnRevocation(a, from, grant, validUntil).a)
  {
    hide AuthorityOk, BodyFor, CountTold, OnRevocation, RevokeKey;
    RevocationKeeps(a, from, grant, validUntil);
    var r := OnRevocation(a, from, grant, validUntil);
    var identity := IdentityOf(a, from);
    forall id | id in r.a.subs
      ensures '\n' !in r.a.subs[id].target && (r.a.subs[id].grant.Some? ==> RevokeKey(r.a.subs[id].target, r.a.subs[id].grant.value.id) !in r.a.revoked)
    {
      assert ToldExactly(a, r, id);
      assert id in a.subs;
      SameGrant(a.subs[id], r.a.subs[id]);
      assert id !in AdmittedBy(r.a, identity, grant);
      var s := r.a.subs[id];
      if s.grant.Some? && RevokeKey(s.target, s.grant.value.id) == RevokeKey(identity, grant) {
        RevokeKeyInjective(s.target, s.grant.value.id, identity, grant);
      }
    }
  }
}
