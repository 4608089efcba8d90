/** The authorization server's stores of pending consents, codes and refresh tokens, and where every
    token they ever issue comes from. Random values are names never used before. */
module OAuth {
  import opened PlayTypes
  import opened Text

  const CONSENT_TTL_SECONDS := 600
  const MAX_EMAIL_CHARS := 320
  const SCOPES_SUPPORTED := ["mcp"]

  /** Strip, lower-case and validate; what the pattern accepts is left open. */
  function NormalizeEmail(pattern: string -> bool, email: string): Result<string> {
    var value := Canon(email);
    if value == "" then Err("email address is required")
    else if |value| > MAX_EMAIL_CHARS then Err("email address is too long")
    else if !pattern(value) then Err("invalid email address")
    else Ok(value)
  }

  /** Normalising again changes nothing. */
  lemma {:induction false} NormalizeIdempotent(pattern: string -> bool, email: string)
    requires NormalizeEmail(pattern, email).Ok?
    ensures NormalizeEmail(pattern, NormalizeEmail(pattern, email).value) == NormalizeEmail(pattern, email)
  {
    CanonIdempotent(email);
  }

  datatype Pending = Pending(client: string, redirectUri: string, scopes: seq<string>, resource: string,
                             issuer: string, expiresAt: int)

  datatype Code = Code(client: string, redirectUri: string, scopes: seq<string>, resource: string, issuer: string,
                       email: string)

  datatype Refresh = Refresh(client: string, scopes: seq<string>, resource: string, issuer: string, email: string)

  /** The claims of a signed access token. */
  datatype Access = Access(issuer: string, audience: string, email: string, scopes: seq<string>, client: string)

  datatype Tokens = Tokens(access: Access, refresh: string)

  datatype Reply = Invalid | Denied | Allowed(code: string) | AskedAgain(token: string)

  function CodeFor(p: Pending, email: string): Code {
    Code(p.client, p.redirectUri, p.scopes, p.resource, p.issuer, email)
  }

  /** The provider's four dictionaries. */
  datatype Store = Store(clients: set<string>, pending: map<string, Pending>, codes: map<string, Code>,
                         refresh: map<string, Refresh>)
  {

    /** A consent token works once, and only until its deadline. */
    function TakePending(token: string, now: int): (Store, Option<Pending>) {
      (this.(pending := pending - {token}),
       if token in pending && pending[token].expiresAt >= now then Some(pending[token]) else None)
    }

    /** The answer to a consent form: a denial, a code for a good email, or the same form again. */
    function Complete(pattern: string -> bool, token: string, now: int, allow: bool, email: string, name: string)
      : (Store, Reply)
    {
      var (rest, taken) := TakePending(token, now);
      if taken.None? then (rest, Invalid)
      else if !allow then (rest, Denied)
      else if NormalizeEmail(pattern, email).Ok? then
        (rest.(codes := codes[name := CodeFor(taken.value, NormalizeEmail(pattern, email).value)]), Allowed(name))
      else if taken.value.client !in clients then (rest, Invalid)
      else (rest.(pending := rest.pending[name := taken.value]), AskedAgain(name))
    }

    /** New tokens for a grant: refused without a signing secret, an issuer or a resource. */
    function Issue(client: string, scopes: seq<string>, resource: string, issuer: string, email: string, signing: bool,
                   name: string)
      : (Store, Result<Tokens>)
    {
      if !signing then (this, Err("token signing secret is not configured"))
      else if issuer == "" || resource == "" then (this, Err("resource is required"))
      else
        var granted := if scopes == [] then SCOPES_SUPPORTED else scopes;
        (this.(refresh := refresh[name := Refresh(client, granted, resource, issuer, email)]),
         Ok(Tokens(Access(issuer, resource, email, granted, client), name)))
    }

    /** A code is removed by the first attempt to redeem it, whoever makes it. */
    function ExchangeCode(pattern: string -> bool, client: string, code: string, signing: bool, name: string)
      : (Store, Result<Tokens>)
    {
      var rest := this.(codes := codes - {code});
      if code !in codes || codes[code].client != client then (rest, Err("authorization code does not exist"))
      else
        var email := NormalizeEmail(pattern, codes[code].email);
        if email.Err? then (rest, Err("grant has no email identity"))
        else
          rest.Issue(client, codes[code].scopes, codes[code].resource, codes[code].issuer, email.value, signing, name)
    }

    function ExchangeRefresh(pattern: string -> bool, client: string, token: string, scopes: seq<string>, signing: bool,
                             name: string)
      : (Store, Result<Tokens>)
    {
      var rest := this.(refresh := refresh - {token});
      if token !in refresh || refresh[token].client != client then (rest, Err("refresh token does not exist"))
      else
        var email := NormalizeEmail(pattern, refresh[token].email);
        if email.Err? then (rest, Err("grant has no email identity"))
        else rest.Issue(client, scopes, refresh[token].resource, refresh[token].issuer, email.value, signing, name)
    }
  }

  // ---------------------------------------------------------------------------------------------
  // The provider

  class Provider {
    const pattern: string -> bool
    var clients: set<string>
    var pending: map<string, Pending>
    var codes: map<string, Code>
    var refresh: map<string, Refresh>

    function Contents(): Store
      reads this
    {
      Store(clients, pending, codes, refresh)
    }

    constructor (pattern: string -> bool)
      ensures this.pattern == pattern && Contents() == Store({}, map[], map[], map[])
    {
      this.pattern := pattern;
      clients, pending, codes, refresh := {}, map[], map[], map[];
    }

    method StorePending(p: Pending, token: string)
      modifies this`pending
      ensures Contents() == old(Contents()).(pending := old(pending)[token := p])
    {
      pending := pending[token := p];
    }

    method TakePending(token: string, now: int) returns (p: Option<Pending>)
      modifies this`pending
      ensures (Contents(), p) == old(Contents()).TakePending(token, now)
    {
      p := if token in pending then Some(pending[token]) else None;
      pending := pending - {token};
      if p.Some? && p.value.expiresAt < now {
        p := None;
      }
    }

    method StoreCode(code: Code, name: string)
      modifies this`codes
      ensures Contents() == old(Contents()).(codes := old(codes)[name := code])
    {
      codes := codes[name := code];
    }

    method IssueTokensLocked(client: string, scopes: seq<string>, resource: string, issuer: string, email: string,
                             signing: bool, name: string)
      returns (r: Result<Tokens>)
      modifies this`refresh
      ensures (Contents(), r) == old(Contents()).Issue(client, scopes, resource, issuer, email, signing, name)
    {
      if !signing { return Err("token signing secret is not configured"); }
      if issuer == "" || resource == "" { return Err("resource is required"); }
      var granted := if scopes == [] then SCOPES_SUPPORTED else scopes;
      refresh := refresh[name := Refresh(client, granted, resource, issuer, email)];
      r := Ok(Tokens(Access(issuer, resource, email, granted, client), name));
    }

    method ExchangeAuthorizationCode(client: string, code: string, signing: bool, name: string)
      returns (r: Result<Tokens>)
      modifies this`codes, this`refresh
      ensures (Contents(), r) == old(Contents()).ExchangeCode(pattern, client, code, signing, name)
      ensures code !in codes
    {
      var stored := if code in codes then Some(codes[code]) else None;
      codes := codes - {code};
      if stored.None? || stored.value.client != client {
        return Err("authorization code does not exist");
      }
      var email := NormalizeEmail(pattern, stored.value.email);
      if email.Err? { return Err("grant has no email identity"); }
      r := IssueTokensLocked(client, stored.value.scopes, stored.value.resource, stored.value.issuer, email.value,
                             signing, name);
    }

    method ExchangeRefreshToken(client: string, token: string, scopes: seq<string>, signing: bool, name: string)
      returns (r: Result<Tokens>)
      requires name != token
      modifies this`refresh
      ensures (Contents(), r) == old(Contents()).ExchangeRefresh(pattern, client, token, scopes, signing, name)
      ensures token !in refresh
    {
      var stored := if token in refresh then Some(refresh[token]) else None;
      refresh := refresh - {token};
      if stored.None? || stored.value.client != client {
        return Err("refresh token does not exist");
      }
      var email := NormalizeEmail(pattern, stored.value.email);
      if email.Err? { return Err("grant has no email identity"); }
      r := IssueTokensLocked(client, scopes, stored.value.resource, stored.value.issuer, email.value, signing, name);
    }

    /** Takes the pending consent, then stores a code, or the consent under a new token. */
    method CompleteConsent(token: string, now: int, allow: bool, rawEmail: string, name: string) returns (reply: Reply)
      requires name != token
      modifies this`pending, this`codes
      ensures (Contents(), reply) == old(Contents()).Complete(pattern, token, now, allow, rawEmail, name)
      // The form works once, and only in time.
      ensures token !in pending
      ensures !reply.Invalid? ==> token in old(pending) && now <= old(pending)[token].expiresAt
      // Asking again is the same request with the same deadline, under another name.
      ensures reply.AskedAgain? ==>
                name in pending && pending[name] == old(pending)[token] && codes == old(codes)
      // A code carries the request's client, resource and issuer, and a normal email.
      ensures reply.Allowed? ==>
                && allow && name in codes && Normal(pattern, codes[name].email)
                && codes[name] == CodeFor(old(pending)[token], codes[name].email)
      ensures !reply.Allowed? ==> codes == old(codes)
    {
      var p := TakePending(token, now);
      if p.None? { return Invalid; }
      if !allow { return Denied; }
      var email := NormalizeEmail(pattern, rawEmail);
      if email.Ok? { NormalizeIdempotent(pattern, rawEmail); }
      if email.Err? {
        if p.value.client !in clients { return Invalid; }
        StorePending(p.value, name);
        return AskedAgain(name);
      }
      StoreCode(CodeFor(p.value, email.value), name);
      reply := Allowed(name);
    }
  }

  // ---------------------------------------------------------------------------------------------
  // Whole runs

  /** Where a consent stands: in a form, with a thread answering the form, or as a token. */
  datatype Holder =
    | InForm(token: string)
    | InHand(thread: nat)
    | AsCode(token: string)
    | AsRefresh(token: string)
    | Spent

  /** One consent request, from the moment the page is first shown. */
  datatype Consent = Consent(client: string, resource: string, issuer: string, deadline: int, email: Option<string>,
                             holder: Holder)

  /** Tokens issued, and the consent they descend from. */
  datatype Grant = Grant(access: Access, consent: nat)

  /** A form a thread is answering. */
  datatype Hand = Hand(request: Pending, consent: nat)

  /** The store with the threads answering forms, and the history of every name. */
  datatype Sys = Sys(
    store: Store,
    hands: map<nat, Hand>,
    origin: map<string, nat>,      // every name ever used, and the consent it was for
    consents: seq<Consent>,
    taken: seq<string>,            // names redeemed, in order: forms answered in time, codes and refresh tokens removed
    issued: seq<Grant>)

  function Init(): Sys { Sys(Store({}, map[], map[], map[]), map[], map[], [], [], []) }

  datatype Step =
    | Register(client: string)
    | Begin(name: string, request: Pending, now: int)
    | Take(thread: nat, token: string, now: int)
    | Deny(thread: nat)
    | Allow(thread: nat, email: string, name: string)
    | AskAgain(thread: nat, name: string)
    | RedeemCode(client: string, token: string, signing: bool, name: string)
    | RedeemRefresh(client: string, token: string, scopes: seq<string>, signing: bool, name: string)
    | Revoke(token: string)
    | Reset

  predicate Enabled(s: Sys, step: Step) {
    match step
    case Begin(name, p, now) =>
      name !in s.origin && p.client in s.store.clients && p.expiresAt == now + CONSENT_TTL_SECONDS
    case Take(thread, _, _) => thread !in s.hands
    case Deny(thread) => thread in s.hands
    case Allow(thread, _, name) => thread in s.hands && name !in s.origin
    case AskAgain(thread, name) => thread in s.hands && name !in s.origin
    case RedeemCode(_, _, _, name) => name !in s.origin
    case RedeemRefresh(_, _, _, _, name) => name !in s.origin
    case _ => true
  }

  function Hold(s: Sys, c: nat, holder: Holder): Sys {
    if c < |s.consents| then s.(consents := s.consents[c := s.consents[c].(holder := holder)]) else s
  }

  function BeginNext(s: Sys, name: string, p: Pending): Sys {
    s.(store := s.store.(pending := s.store.pending[name := p]), origin := s.origin[name := |s.consents|],
       consents := s.consents + [Consent(p.client, p.resource, p.issuer, p.expiresAt, None, InForm(name))])
  }

  function TakeNext(s: Sys, thread: nat, token: string, now: int): Sys {
    var (rest, p) := s.store.TakePending(token, now);
    if token !in s.store.pending || token !in s.origin then s.(store := rest)
    else
      var c := s.origin[token];
      if p.None? then Hold(s.(store := rest), c, Spent)
      else
        var held := s.(store := rest, hands := s.hands[thread := Hand(p.value, c)], taken := s.taken + [token]);
        Hold(held, c, InHand(thread))
  }

  function AllowNext(s: Sys, pattern: string -> bool, thread: nat, email: string, name: string): Sys
    requires thread in s.hands
  {
    var hand := s.hands[thread];
    var normal := NormalizeEmail(pattern, email);
    if normal.Err? || hand.consent >= |s.consents| then s
    else
      var given := s.consents[hand.consent].(email := Some(normal.value), holder := AsCode(name));
      s.(store := s.store.(codes := s.store.codes[name := CodeFor(hand.request, normal.value)]),
         hands := s.hands - {thread},
         origin := s.origin[name := hand.consent],
         consents := s.consents[hand.consent := given])
  }

  function AskAgainNext(s: Sys, thread: nat, name: string): Sys
    requires thread in s.hands
  {
    var hand, left := s.hands[thread], s.(hands := s.hands - {thread});
    if hand.request.client !in s.store.clients then Hold(left, hand.consent, Spent)
    else
      var asked := left.(store := s.store.(pending := s.store.pending[name := hand.request]),
                         origin := s.origin[name := hand.consent]);
      Hold(asked, hand.consent, InForm(name))
  }

  /** A redeemed token: its consent now stands as the refresh token issued for it, or as nothing. */
  function RedeemNext(s: Sys, rest: Store, r: Result<Tokens>, token: string, name: string): Sys {
    if token !in s.origin then s.(store := rest)
    else
      var c := s.origin[token];
      var used := s.(store := rest, taken := s.taken + [token]);
      if r.Err? then Hold(used, c, Spent)
      else
        var renewed := used.(origin := s.origin[name := c], issued := s.issued + [Grant(r.value.access, c)]);
        Hold(renewed, c, AsRefresh(name))
  }

  function ResetNext(s: Sys): Sys {
    s.(store := Store({}, map[], map[], map[]),
       consents := seq(|s.consents|, c requires 0 <= c < |s.consents| =>
                     if s.consents[c].holder.InHand? then s.consents[c] else s.consents[c].(holder := Spent)))
  }

  function Next(s: Sys, pattern: string -> bool, step: Step): Sys
    requires Enabled(s, step)
  {
    match step
    case Register(client) => s.(store := s.store.(clients := s.store.clients + {client}))
    case Begin(name, p, _) => BeginNext(s, name, p)
    case Take(thread, token, now) => TakeNext(s, thread, token, now)
    case Deny(thread) => Hold(s.(hands := s.hands - {thread}), s.hands[thread].consent, Spent)
    case Allow(thread, email, name) => AllowNext(s, pattern, thread, email, name)
    case AskAgain(thread, name) => AskAgainNext(s, thread, name)
    case RedeemCode(client, token, signing, name) =>
      var (rest, r) := s.store.ExchangeCode(pattern, client, token, signing, name);
      if token in s.store.codes then RedeemNext(s, rest, r, token, name) else s.(store := rest)
    case RedeemRefresh(client, token, scopes, signing, name) =>
      var (rest, r) := s.store.ExchangeRefresh(pattern, client, token, scopes, signing, name);
      if token in s.store.refresh then RedeemNext(s, rest, r, token, name) else s.(store := rest)
    case Revoke(token) =>
      if token in s.store.refresh && token in s.origin then
        Hold(s.(store := s.store.(refresh := s.store.refresh - {token})), s.origin[token], Spent)
      else s
    case Reset => ResetNext(s)
  }

  // ---------------------------------------------------------------------------------------------
  // What every run keeps

  predicate Normal(pattern: string -> bool, email: string) { NormalizeEmail(pattern, email) == Ok(email) }

  predicate From(s: Sys, token: string, holder: Holder) {
    token in s.origin && s.origin[token] < |s.consents| && s.consents[s.origin[token]].holder == holder
  }

  predicate SameRequest(p: Pending, c: Consent) {
    p.client == c.client && p.resource == c.resource && p.issuer == c.issuer && p.expiresAt == c.deadline
  }

  predicate FormOk(s: Sys, t: string)
    requires t in s.store.pending
  {
    From(s, t, InForm(t)) && SameRequest(s.store.pending[t], s.consents[s.origin[t]])
  }

  predicate HandOk(s: Sys, h: nat)
    requires h in s.hands
  {
    var c := s.hands[h].consent;
    c < |s.consents| && s.consents[c].holder == InHand(h) && SameRequest(s.hands[h].request, s.consents[c])
  }

  predicate Given(pattern: string -> bool, c: Consent, client: string, resource: string, issuer: string, email: string)
  {
    && c.client == client && c.resource == resource && c.issuer == issuer && c.email == Some(email)
    && Normal(pattern, email)
  }

  predicate CodeOk(s: Sys, pattern: string -> bool, t: string)
    requires t in s.store.codes
  {
    var k := s.store.codes[t];
    From(s, t, AsCode(t)) && Given(pattern, s.consents[s.origin[t]], k.client, k.resource, k.issuer, k.email)
  }

  predicate RefreshOk(s: Sys, pattern: string -> bool, t: string)
    requires t in s.store.refresh
  {
    var k := s.store.refresh[t];
    From(s, t, AsRefresh(t)) && Given(pattern, s.consents[s.origin[t]], k.client, k.resource, k.issuer, k.email)
  }

  predicate IssuedOk(s: Sys, pattern: string -> bool, g: Grant) {
    g.consent < |s.consents|
    && Given(pattern, s.consents[g.consent], g.access.client, g.access.audience, g.access.issuer, g.access.email)
  }

  predicate Live(s: Sys, t: string) { t in s.store.pending || t in s.store.codes || t in s.store.refresh }

  ghost predicate StoreInv(s: Sys, pattern: string -> bool) {
    && (forall t :: t in s.store.pending ==> FormOk(s, t))
    && (forall h :: h in s.hands ==> HandOk(s, h))
    && (forall t :: t in s.store.codes ==> CodeOk(s, pattern, t))
    && (forall t :: t in s.store.refresh ==> RefreshOk(s, pattern, t))
  }

  ghost predicate TakenInv(s: Sys) {
    && (forall i :: 0 <= i < |s.taken| ==> s.taken[i] in s.origin && !Live(s, s.taken[i]))
    && (forall i, j :: 0 <= i < j < |s.taken| ==> s.taken[i] != s.taken[j])
  }

  /** The email of a consent still in a form has not been given. */
  ghost predicate IssuedInv(s: Sys, pattern: string -> bool) {
    && (forall g :: g in s.issued ==> IssuedOk(s, pattern, g))
    && (forall c :: 0 <= c < |s.consents| && (s.consents[c].holder.InForm? || s.consents[c].holder.InHand?) ==>
        s.consents[c].email.None?)
  }

  ghost predicate Inv(s: Sys, pattern: string -> bool) { StoreInv(s, pattern) && TakenInv(s) && IssuedInv(s, pattern) }

  /** One step moves one consent: all others, and all names, stay as they were. */
  ghost predicate Carried(s: Sys, t: Sys, c: nat) {
    && |s.consents| <= |t.consents|
    && (forall k :: 0 <= k < |s.consents| && k != c ==> t.consents[k] == s.consents[k])
    && (forall n :: n in s.origin ==> n in t.origin && t.origin[n] == s.origin[n])
    && (c < |s.consents| ==> SameAsk(s.consents[c], t.consents[c]))
  }

  ghost predicate Steady(s: Sys, t: Sys) {
    |s.consents| <= |t.consents| && forall k :: 0 <= k < |s.consents| ==> SameAsk(s.consents[k], t.consents[k])
  }

  /** A consent keeps what was asked, and its email once it has one. */
  predicate SameAsk(a: Consent, b: Consent) {
    && b.client == a.client && b.resource == a.resource && b.issuer == a.issuer && b.deadline == a.deadline
    && (a.email.Some? ==> b.email == a.email)
  }

  /** Everything kept was kept before, except what the moved consent now stands as, and except what it
      stood as. */
  ghost predicate StoreFollows(s: Sys, t: Sys, was: Holder, now: Holder) {
    && (forall n :: n in t.store.pending && now != InForm(n) ==>
          was != InForm(n) && n in s.store.pending && t.store.pending[n] == s.store.pending[n])
    && (forall h :: h in t.hands && now != InHand(h) ==> was != InHand(h) && h in s.hands && t.hands[h] == s.hands[h])
    && (forall n :: n in t.store.codes && now != AsCode(n) ==>
          was != AsCode(n) && n in s.store.codes && t.store.codes[n] == s.store.codes[n])
    && (forall n :: n in t.store.refresh && now != AsRefresh(n) ==>
          was != AsRefresh(n) && n in s.store.refresh && t.store.refresh[n] == s.store.refresh[n])
  }

  predicate NewOk(t: Sys, pattern: string -> bool, now: Holder) {
    match now
    case InForm(n) => n in t.store.pending ==> FormOk(t, n)
    case InHand(h) => h in t.hands ==> HandOk(t, h)
    case AsCode(n) => n in t.store.codes ==> CodeOk(t, pattern, n)
    case AsRefresh(n) => n in t.store.refresh ==> RefreshOk(t, pattern, n)
    case Spent => true
  }

  lemma {:induction false} StoreMoves(s: Sys, t: Sys, pattern: string -> bool, c: nat, was: Holder, now: Holder)
    requires StoreInv(s, pattern) && Carried(s, t, c) && StoreFollows(s, t, was, now) && NewOk(t, pattern, now)
    requires c < |s.consents| ==> s.consents[c].holder == was
    ensures StoreInv(t, pattern) && Steady(s, t)
  {
    forall n | n in t.store.pending ensures FormOk(t, n) {
      assert now != InForm(n) ==> FormOk(s, n);
    }
    forall h | h in t.hands ensures HandOk(t, h) {
      assert now != InHand(h) ==> HandOk(s, h);
    }
    forall n | n in t.store.codes ensures CodeOk(t, pattern, n) {
      assert now != AsCode(n) ==> CodeOk(s, pattern, n);
    }
    forall n | n in t.store.refresh ensures RefreshOk(t, pattern, n) {
      assert now != AsRefresh(n) ==> RefreshOk(s, pattern, n);
    }
  }

  /** Nothing redeemed comes back to life: what lives now lived before, or has a new name. */
  lemma {:induction false} TakenMoves(s: Sys, t: Sys, c: nat)
    requires TakenInv(s) && Carried(s, t, c)
    requires forall n :: Live(t, n) ==> Live(s, n) || n !in s.origin
    requires t.taken == s.taken || (|t.taken| == |s.taken| + 1 && t.taken[..|s.taken|] == s.taken &&
                                    var n := t.taken[|s.taken|]; Live(s, n) && n in t.origin && !Live(t, n))
    ensures TakenInv(t)
  {
    forall i | 0 <= i < |t.taken| ensures t.taken[i] in t.origin && !Live(t, t.taken[i]) {
      assert i < |s.taken| ==> t.taken[i] == s.taken[i];
    }
    forall i, j | 0 <= i < j < |t.taken| ensures t.taken[i] != t.taken[j] {
      assert t.taken[i] == s.taken[i] && (j < |s.taken| ==> t.taken[j] == s.taken[j]);
    }
  }

  lemma {:induction false} IssuedMoves(s: Sys, t: Sys, pattern: string -> bool, c: nat)
    requires IssuedInv(s, pattern) && Carried(s, t, c)
    requires t.issued == s.issued || (exists g :: t.issued == s.issued + [g] && IssuedOk(t, pattern, g))
    requires forall k :: 0 <= k < |t.consents| && (k == c || k >= |s.consents|) ==>
               (t.consents[k].holder.InForm? || t.consents[k].holder.InHand? ==> t.consents[k].email.None?)
    ensures IssuedInv(t, pattern)
  {
    forall g | g in t.issued ensures IssuedOk(t, pattern, g) {
      if g in s.issued {
        assert IssuedOk(s, pattern, g);
      }
    }
  }

  lemma {:induction false} BeginKeeps(s: Sys, pattern: string -> bool, name: string, p: Pending)
    requires Inv(s, pattern) && name !in s.origin
    ensures Inv(BeginNext(s, name, p), pattern) && Steady(s, BeginNext(s, name, p))
  {
    var t, c := BeginNext(s, name, p), |s.consents|;
    StoreMoves(s, t, pattern, c, Spent, InForm(name));
    TakenMoves(s, t, c);
    IssuedMoves(s, t, pattern, c);
  }

  lemma {:induction false} TakeInTime(s: Sys, pattern: string -> bool, thread: nat, token: string, now: int)
    requires Inv(s, pattern) && thread !in s.hands && token in s.store.pending
    requires s.store.pending[token].expiresAt >= now
    ensures Inv(TakeNext(s, thread, token, now), pattern) && Steady(s, TakeNext(s, thread, token, now))
  {
    assert FormOk(s, token);
    var t, c := TakeNext(s, thread, token, now), s.origin[token];
    TakeTaken(s, pattern, thread, token, now);
    StoreMoves(s, t, pattern, c, InForm(token), InHand(thread));
    IssuedMoves(s, t, pattern, c);
  }

  lemma {:induction false} TakeTaken(s: Sys, pattern: string -> bool, thread: nat, token: string, now: int)
    requires Inv(s, pattern) && thread !in s.hands && token in s.store.pending
    requires s.store.pending[token].expiresAt >= now
    ensures TakenInv(TakeNext(s, thread, token, now))
  {
    assert FormOk(s, token);
    TakenMoves(s, TakeNext(s, thread, token, now), s.origin[token]);
  }

  lemma {:induction false} TakeTooLate(s: Sys, pattern: string -> bool, thread: nat, token: string, now: int)
    requires Inv(s, pattern) && token in s.store.pending && s.store.pending[token].expiresAt < now
    ensures Inv(TakeNext(s, thread, token, now), pattern) && Steady(s, TakeNext(s, thread, token, now))
  {
    assert FormOk(s, token);
    var t, c := TakeNext(s, thread, token, now), s.origin[token];
    StoreMoves(s, t, pattern, c, InForm(token), Spent);
    TakenMoves(s, t, c);
    IssuedMoves(s, t, pattern, c);
  }

  lemma {:induction false} TakeKeeps(s: Sys, pattern: string -> bool, thread: nat, token: string, now: int)
    requires Inv(s, pattern) && thread !in s.hands
    ensures Inv(TakeNext(s, thread, token, now), pattern) && Steady(s, TakeNext(s, thread, token, now))
  {
    if token !in s.store.pending {
      assert TakeNext(s, thread, token, now) == s;
    } else if s.store.pending[token].expiresAt >= now {
      TakeInTime(s, pattern, thread, token, now);
    } else {
      TakeTooLate(s, pattern, thread, token, now);
    }
  }

  lemma {:induction false} DropKeeps(s: Sys, pattern: string -> bool, thread: nat)
    requires Inv(s, pattern) && thread in s.hands
    ensures Inv(Hold(s.(hands := s.hands - {thread}), s.hands[thread].consent, Spent), pattern)
        && Steady(s, Hold(s.(hands := s.hands - {thread}), s.hands[thread].consent, Spent))
  {
    assert HandOk(s, thread);
    var c := s.hands[thread].consent;
    var t := Hold(s.(hands := s.hands - {thread}), c, Spent);
    StoreMoves(s, t, pattern, c, InHand(thread), Spent);
    TakenMoves(s, t, c);
    IssuedMoves(s, t, pattern, c);
  }

  lemma {:induction false} AllowKeeps(s: Sys, pattern: string -> bool, thread: nat, email: string, name: string)
    requires Inv(s, pattern) && thread in s.hands && name !in s.origin
    ensures Inv(AllowNext(s, pattern, thread, email, name), pattern)
        && Steady(s, AllowNext(s, pattern, thread, email, name))
  {
    assert HandOk(s, thread);
    var c, t := s.hands[thread].consent, AllowNext(s, pattern, thread, email, name);
    if NormalizeEmail(pattern, email).Ok? {
      NormalizeIdempotent(pattern, email);
      StoreMoves(s, t, pattern, c, InHand(thread), AsCode(name));
      TakenMoves(s, t, c);
      IssuedMoves(s, t, pattern, c);
    }
  }

  lemma {:induction false} AskAgainKeeps(s: Sys, pattern: string -> bool, thread: nat, name: string)
    requires Inv(s, pattern) && thread in s.hands && name !in s.origin
    ensures Inv(AskAgainNext(s, thread, name), pattern) && Steady(s, AskAgainNext(s, thread, name))
  {
    assert HandOk(s, thread);
    if s.hands[thread].request.client in s.store.clients {
      var c, t := s.hands[thread].consent, AskAgainNext(s, thread, name);
      StoreMoves(s, t, pattern, c, InHand(thread), InForm(name));
      TakenMoves(s, t, c);
      IssuedMoves(s, t, pattern, c);
    } else {
      DropKeeps(s, pattern, thread);
    }
  }

  lemma {:induction false} RevokeKeeps(s: Sys, pattern: string -> bool, token: string)
    requires Inv(s, pattern) && token in s.store.refresh
    ensures token in s.origin
    ensures Inv(Hold(s.(store := s.store.(refresh := s.store.refresh - {token})), s.origin[token], Spent), pattern)
        && Steady(s, Hold(s.(store := s.store.(refresh := s.store.refresh - {token})), s.origin[token], Spent))
  {
    assert RefreshOk(s, pattern, token);
    var c := s.origin[token];
    var t := Hold(s.(store := s.store.(refresh := s.store.refresh - {token})), c, Spent);
    StoreMoves(s, t, pattern, c, AsRefresh(token), Spent);
    TakenMoves(s, t, c);
    IssuedMoves(s, t, pattern, c);
  }

  lemma {:induction false} ResetKeeps(s: Sys, pattern: string -> bool)
    requires Inv(s, pattern)
    ensures Inv(ResetNext(s), pattern) && Steady(s, ResetNext(s))
  {
  }

  /** What a redemption leaves: the token is gone, and a new refresh token, if any, carries its grant. */
  ghost predicate Redeemed(before: Store, rest: Store, r: Result<Tokens>, token: string, name: string, email: string,
                           resource: string, issuer: string, client: string) {
    && rest.clients == before.clients && rest.pending == before.pending && rest.codes == before.codes - {token}
    && (r.Err? ==> rest.refresh == before.refresh - {token})
    && (r.Ok? ==>
          var a := r.value.access;
          && a.email == email && a.audience == resource && a.issuer == issuer && a.client == client
          && rest.refresh == (before.refresh - {token})[name := Refresh(client, a.scopes, resource, issuer, email)])
  }

  lemma {:induction false} RedeemCarried(s: Sys, rest: Store, r: Result<Tokens>, token: string, name: string)
    requires token in s.origin && s.origin[token] < |s.consents| && name !in s.origin
    ensures Carried(s, RedeemNext(s, rest, r, token, name), s.origin[token])
  {
  }

  /** The consent of a redeemed token moves on to the refresh token issued for it, or to nothing. */
  lemma {:induction false} RedeemFollows(s: Sys, pattern: string -> bool, rest: Store, r: Result<Tokens>, token: string,
                                         name: string, was: Holder, email: string, resource: string, issuer: string,
                                         client: string)
    requires From(s, token, was) && (was == AsCode(token) || was == AsRefresh(token)) && token !in s.store.pending
    requires Redeemed(s.store, rest, r, token, name, email, resource, issuer, client)
    ensures StoreFollows(s, RedeemNext(s, rest, r, token, name), was, if r.Ok? then AsRefresh(name) else Spent)
  {
  }

  lemma {:induction false} RedeemNew(s: Sys, pattern: string -> bool, rest: Store, r: Result<Tokens>, token: string,
                                     name: string, email: string, resource: string, issuer: string, client: string)
    requires token in s.origin && s.origin[token] < |s.consents|
    requires Redeemed(s.store, rest, r, token, name, email, resource, issuer, client)
    requires r.Ok? ==> Given(pattern, s.consents[s.origin[token]], client, resource, issuer, email)
    ensures NewOk(RedeemNext(s, rest, r, token, name), pattern, if r.Ok? then AsRefresh(name) else Spent)
  {
  }

  lemma {:induction false} RedeemStore(s: Sys, pattern: string -> bool, rest: Store, r: Result<Tokens>, token: string,
                                       name: string, was: Holder, email: string, resource: string, issuer: string,
                                       client: string)
    requires Inv(s, pattern) && name !in s.origin && Live(s, token) && token !in s.store.pending && From(s, token, was)
    requires was == AsCode(token) || was == AsRefresh(token)
    requires Redeemed(s.store, rest, r, token, name, email, resource, issuer, client)
    requires r.Ok? ==> Given(pattern, s.consents[s.origin[token]], client, resource, issuer, email)
    ensures StoreInv(RedeemNext(s, rest, r, token, name), pattern) && Steady(s, RedeemNext(s, rest, r, token, name))
  {
    RedeemCarried(s, rest, r, token, name);
    RedeemFollows(s, pattern, rest, r, token, name, was, email, resource, issuer, client);
    RedeemNew(s, pattern, rest, r, token, name, email, resource, issuer, client);
    StoreMoves(s, RedeemNext(s, rest, r, token, name), pattern, s.origin[token], was,
               if r.Ok? then AsRefresh(name) else Spent);
  }

  lemma {:induction false} RedeemLive(s: Sys, rest: Store, r: Result<Tokens>, token: string, name: string,
                                      email: string, resource: string, issuer: string, client: string, n: string)
    requires token in s.origin && name !in s.origin && token !in s.store.pending
    requires Redeemed(s.store, rest, r, token, name, email, resource, issuer, client)
    ensures Live(RedeemNext(s, rest, r, token, name), n) ==> n != token && (Live(s, n) || n == name)
  {
  }

  lemma {:induction false} RedeemTaken(s: Sys, rest: Store, r: Result<Tokens>, token: string, name: string,
                                       email: string, resource: string, issuer: string, client: string)
    requires TakenInv(s) && name !in s.origin && Live(s, token) && token !in s.store.pending
    requires token in s.origin && s.origin[token] < |s.consents|
    requires Redeemed(s.store, rest, r, token, name, email, resource, issuer, client)
    ensures TakenInv(RedeemNext(s, rest, r, token, name))
  {
    var t := RedeemNext(s, rest, r, token, name);
    RedeemCarried(s, rest, r, token, name);
    forall n ensures Live(t, n) ==> n != token && (Live(s, n) || n == name) {
      RedeemLive(s, rest, r, token, name, email, resource, issuer, client, n);
    }
    TakenMoves(s, t, s.origin[token]);
  }

  lemma {:induction false} RedeemIssued(s: Sys, pattern: string -> bool, rest: Store, r: Result<Tokens>, token: string,
                                        name: string, was: Holder, email: string, resource: string, issuer: string,
                                        client: string)
    requires Inv(s, pattern) && name !in s.origin && Live(s, token) && token !in s.store.pending && From(s, token, was)
    requires was == AsCode(token) || was == AsRefresh(token)
    requires Redeemed(s.store, rest, r, token, name, email, resource, issuer, client)
    requires r.Ok? ==> Given(pattern, s.consents[s.origin[token]], client, resource, issuer, email)
    ensures IssuedInv(RedeemNext(s, rest, r, token, name), pattern)
  {
    var t, c := RedeemNext(s, rest, r, token, name), s.origin[token];
    RedeemCarried(s, rest, r, token, name);
    if r.Ok? {
      assert IssuedOk(t, pattern, Grant(r.value.access, c));
    }
    IssuedMoves(s, t, pattern, c);
  }

  lemma {:induction false} RedeemKeeps(s: Sys, pattern: string -> bool, rest: Store, r: Result<Tokens>, token: string,
                                       name: string, was: Holder, email: string, resource: string, issuer: string,
                                       client: string)
    requires Inv(s, pattern) && name !in s.origin && Live(s, token) && token !in s.store.pending && From(s, token, was)
    requires was == AsCode(token) || was == AsRefresh(token)
    requires Redeemed(s.store, rest, r, token, name, email, resource, issuer, client)
    requires r.Ok? ==> Given(pattern, s.consents[s.origin[token]], client, resource, issuer, email)
    ensures Inv(RedeemNext(s, rest, r, token, name), pattern) && Steady(s, RedeemNext(s, rest, r, token, name))
  {
    RedeemStore(s, pattern, rest, r, token, name, was, email, resource, issuer, client);
    RedeemTaken(s, rest, r, token, name, email, resource, issuer, client);
    RedeemIssued(s, pattern, rest, r, token, name, was, email, resource, issuer, client);
  }

  lemma {:induction false} CodeExchange(store: Store, pattern: string -> bool, client: string, token: string,
                                        signing: bool, name: string)
    requires token in store.codes && token !in store.refresh && Normal(pattern, store.codes[token].email)
    ensures var (rest, r) := store.ExchangeCode(pattern, client, token, signing, name);
            var k := store.codes[token];
            Redeemed(store, rest, r, token, name, k.email, k.resource, k.issuer, k.client)
  {
    assert store.refresh - {token} == store.refresh;
  }

  lemma {:induction false} RefreshExchange(store: Store, pattern: string -> bool, client: string, token: string,
                                           scopes: seq<string>, signing: bool, name: string)
    requires token in store.refresh && token !in store.codes && Normal(pattern, store.refresh[token].email)
    ensures var (rest, r) := store.ExchangeRefresh(pattern, client, token, scopes, signing, name);
            var k := store.refresh[token];
            Redeemed(store, rest, r, token, name, k.email, k.resource, k.issuer, k.client)
  {
    assert store.codes - {token} == store.codes;
  }

  /** A name is live in one place only. */
  lemma {:induction false} OnePlace(s: Sys, pattern: string -> bool, token: string)
    requires StoreInv(s, pattern)
    ensures token in s.store.codes ==> token !in s.store.pending && token !in s.store.refresh
    ensures token in s.store.refresh ==> token !in s.store.pending && token !in s.store.codes
  {
    assert token in s.store.pending ==> FormOk(s, token);
    assert token in s.store.codes ==> CodeOk(s, pattern, token);
    assert token in s.store.refresh ==> RefreshOk(s, pattern, token);
  }

  lemma {:induction false} RedeemCodeKeeps(s: Sys, pattern: string -> bool, client: string, token: string,
                                           signing: bool, name: string)
    requires Inv(s, pattern) && name !in s.origin && token in s.store.codes
    ensures var (rest, r) := s.store.ExchangeCode(pattern, client, token, signing, name);
            Inv(RedeemNext(s, rest, r, token, name), pattern) && Steady(s, RedeemNext(s, rest, r, token, name))
  {
    assert CodeOk(s, pattern, token);
    OnePlace(s, pattern, token);
    CodeExchange(s.store, pattern, client, token, signing, name);
    var k := s.store.codes[token];
    var (rest, r) := s.store.ExchangeCode(pattern, client, token, signing, name);
    RedeemKeeps(s, pattern, rest, r, token, name, AsCode(token), k.email, k.resource, k.issuer, k.client);
  }

  lemma {:induction false} RedeemRefreshKeeps(s: Sys, pattern: string -> bool, client: string, token: string,
                                              scopes: seq<string>, signing: bool, name: string)
    requires Inv(s, pattern) && name !in s.origin && token in s.store.refresh
    ensures var (rest, r) := s.store.ExchangeRefresh(pattern, client, token, scopes, signing, name);
            Inv(RedeemNext(s, rest, r, token, name), pattern) && Steady(s, RedeemNext(s, rest, r, token, name))
  {
    assert RefreshOk(s, pattern, token);
    OnePlace(s, pattern, token);
    RefreshExchange(s.store, pattern, client, token, scopes, signing, name);
    var k := s.store.refresh[token];
    var (rest, r) := s.store.ExchangeRefresh(pattern, client, token, scopes, signing, name);
    RedeemKeeps(s, pattern, rest, r, token, name, AsRefresh(token), k.email, k.resource, k.issuer, k.client);
  }

  lemma {:induction false} StepKeeps(s: Sys, pattern: string -> bool, step: Step)
    requires Inv(s, pattern) && Enabled(s, step)
    ensures Inv(Next(s, pattern, step), pattern) && Steady(s, Next(s, pattern, step))
  {
    match step
    case Register(client) =>
    case Begin(name, p, _) => BeginKeeps(s, pattern, name, p);
    case Take(thread, token, now) => TakeKeeps(s, pattern, thread, token, now);
    case Deny(thread) => DropKeeps(s, pattern, thread);
    case Allow(thread, email, name) => AllowKeeps(s, pattern, thread, email, name);
    case AskAgain(thread, name) => AskAgainKeeps(s, pattern, thread, name);
    case RedeemCode(client, token, signing, name) =>
      if token in s.store.codes { RedeemCodeKeeps(s, pattern, client, token, signing, name); }
      else { assert s.store.codes - {token} == s.store.codes; }
    case RedeemRefresh(client, token, scopes, signing, name) =>
      if token in s.store.refresh { RedeemRefreshKeeps(s, pattern, client, token, scopes, signing, name); }
      else { assert s.store.refresh - {token} == s.store.refresh; }
    case Revoke(token) => if token in s.store.refresh { RevokeKeeps(s, pattern, token); }
    case Reset => ResetKeeps(s, pattern);
  }

  predicate Follows(s: Sys, pattern: string -> bool, step: Step, t: Sys) {
    Enabled(s, step) && t == Next(s, pattern, step)
  }

  predicate IsRun(states: seq<Sys>, pattern: string -> bool, steps: seq<Step>) {
    && |states| == |steps| + 1 && states[0] == Init()
    && forall i :: 0 <= i < |steps| ==> Follows(states[i], pattern, steps[i], states[i + 1])
  }

  lemma {:induction false} RunInv(states: seq<Sys>, pattern: string -> bool, steps: seq<Step>, i: nat)
    requires IsRun(states, pattern, steps) && i < |states|
    ensures Inv(states[i], pattern)
    decreases i
  {
    if i > 0 {
      RunInv(states, pattern, steps, i - 1);
      assert Follows(states[i - 1], pattern, steps[i - 1], states[i - 1 + 1]);
      StepKeeps(states[i - 1], pattern, steps[i - 1]);
    }
  }

  /** The step of a run by which a thread holding a form answers it. */
  function Answer(pattern: string -> bool, thread: nat, allow: bool, email: string, name: string): Step {
    if !allow then Deny(thread)
    else if NormalizeEmail(pattern, email).Ok? then Allow(thread, email, name)
    else AskAgain(thread, name)
  }

  /** Answering a form is two steps of a run: the form is taken, and if that was in time the thread denies,
      allows or asks again. So what holds of every run holds of every completed consent. */
  lemma {:induction false} CompleteIsTwoSteps(s: Sys, pattern: string -> bool, thread: nat, token: string, now: int,
                                              allow: bool, email: string, name: string)
    requires Inv(s, pattern) && Enabled(s, Take(thread, token, now)) && name !in s.origin
    ensures var (rest, reply) := s.store.Complete(pattern, token, now, allow, email, name);
            var taken := Next(s, pattern, Take(thread, token, now));
            if thread !in taken.hands then taken.store == rest && reply == Invalid
            else
              var answer := Answer(pattern, thread, allow, email, name);
              && Enabled(taken, answer) && Next(taken, pattern, answer).store == rest
              && (reply.Allowed? <==> answer.Allow?) && (reply.Denied? <==> answer.Deny?)
              && (reply.AskedAgain? ==> answer.AskAgain?)
  {
    if token in s.store.pending {
      assert FormOk(s, token);
    }
  }

  /** Over a whole run no consent token, code or refresh token is redeemed twice, and none that was
      redeemed is ever accepted again. */
  lemma {:induction false} RedeemedOnce(states: seq<Sys>, pattern: string -> bool, steps: seq<Step>, i: nat)
    requires IsRun(states, pattern, steps) && i < |states|
    ensures var s := states[i];
            && (forall j, k :: 0 <= j < k < |s.taken| ==> s.taken[j] != s.taken[k])
            && (forall j :: 0 <= j < |s.taken| ==> !Live(s, s.taken[j]))
  {
    RunInv(states, pattern, steps, i);
  }

  /** Every access token ever issued carries the client, issuer, resource and normalised email of the
      consent it descends from. */
  lemma {:induction false} TokensKeepTheirConsent(states: seq<Sys>, pattern: string -> bool, steps: seq<Step>, i: nat,
                                                  g: Grant)
    requires IsRun(states, pattern, steps) && i < |states| && g in states[i].issued
    ensures g.consent < |states[i].consents|
    ensures var c := states[i].consents[g.consent];
            && g.access.client == c.client && g.access.issuer == c.issuer && g.access.audience == c.resource
            && c.email == Some(g.access.email) && Normal(pattern, g.access.email)
  {
    RunInv(states, pattern, steps, i);
    assert IssuedOk(states[i], pattern, g);
  }

  /** A consent is never worth two live credentials: two live names of the same consent are the same name. */
  lemma {:induction false} OneCredential(states: seq<Sys>, pattern: string -> bool, steps: seq<Step>, i: nat, a: string,
                                         b: string)
    requires IsRun(states, pattern, steps) && i < |states| && Live(states[i], a) && Live(states[i], b)
    ensures a in states[i].origin && b in states[i].origin
    ensures states[i].origin[a] == states[i].origin[b] ==> a == b
  {
    RunInv(states, pattern, steps, i);
    LiveHolder(states[i], pattern, a);
    LiveHolder(states[i], pattern, b);
  }

  lemma {:induction false} LiveHolder(s: Sys, pattern: string -> bool, a: string)
    requires StoreInv(s, pattern) && Live(s, a)
    ensures From(s, a, InForm(a)) || From(s, a, AsCode(a)) || From(s, a, AsRefresh(a))
  {
    assert a in s.store.pending ==> FormOk(s, a);
    assert a in s.store.codes ==> CodeOk(s, pattern, a);
    assert a in s.store.refresh ==> RefreshOk(s, pattern, a);
  }

  /** However often its form is shown again, a consent keeps the deadline it was given when first shown. */
  lemma {:induction false} RedisplayKeepsDeadline(states: seq<Sys>, pattern: string -> bool, steps: seq<Step>, i: nat,
                                                  token: string)
    requires IsRun(states, pattern, steps) && i < |states| && token in states[i].store.pending
    ensures token in states[i].origin && states[i].origin[token] < |states[i].consents|
    ensures states[i].store.pending[token].expiresAt == states[i].consents[states[i].origin[token]].deadline
  {
    RunInv(states, pattern, steps, i);
    assert FormOk(states[i], token);
  }

  /** What was asked for in a consent never changes, and its email, once given, stays. */
  lemma {:induction false} ConsentsAreKept(states: seq<Sys>, pattern: string -> bool, steps: seq<Step>, i: nat, j: nat,
                                           c: nat)
    requires IsRun(states, pattern, steps) && i <= j < |states| && c < |states[i].consents|
    ensures c < |states[j].consents| && SameAsk(states[i].consents[c], states[j].consents[c])
    decreases j
  {
    if i < j {
      ConsentsAreKept(states, pattern, steps, i, j - 1, c);
      RunInv(states, pattern, steps, j - 1);
      assert Follows(states[j - 1], pattern, steps[j - 1], states[j - 1 + 1]);
      StepKeeps(states[j - 1], pattern, steps[j - 1]);
      assert SameAsk(states[j - 1].consents[c], states[j].consents[c]);
    }
  }

  /** A form is answered only by the deadline its consent was given when first shown. */
  lemma {:induction false} AnsweredInTime(states: seq<Sys>, pattern: string -> bool, steps: seq<Step>, i: nat)
    requires IsRun(states, pattern, steps) && i < |steps|
    requires steps[i].Take? && steps[i].thread in states[i + 1].hands
    ensures var c := states[i + 1].hands[steps[i].thread].consent;
            c < |states[i].consents| && steps[i].now <= states[i].consents[c].deadline
  {
    RunInv(states, pattern, steps, i);
    assert Follows(states[i], pattern, steps[i], states[i + 1]);
    var token := steps[i].token;
    assert token in states[i].store.pending && FormOk(states[i], token);
  }

  predicate Redeems(s: Sys, step: Step) {
    (step.RedeemCode? && step.token in s.store.codes) || (step.RedeemRefresh? && step.token in s.store.refresh)
  }

  /** Whoever redeems a live code or refresh token uses it up; only the client its consent was for gets
      tokens for it. */
  lemma {:induction false} OnlyItsOwnClient(states: seq<Sys>, pattern: string -> bool, steps: seq<Step>, i: nat)
    requires IsRun(states, pattern, steps) && i < |steps| && Redeems(states[i], steps[i])
    ensures !Live(states[i + 1], steps[i].token)
    ensures states[i + 1].issued != states[i].issued ==>
              && |states[i + 1].issued| == |states[i].issued| + 1
              && states[i + 1].issued[|states[i].issued|].access.client == steps[i].client
  {
    RunInv(states, pattern, steps, i);
    RunInv(states, pattern, steps, i + 1);
    RedeemUses(states[i], pattern, steps[i]);
    assert Follows(states[i], pattern, steps[i], states[i + 1]);
    assert states[i + 1].taken[|states[i].taken|] == steps[i].token;
  }

  /** What one step of redeeming does to the history. */
  ghost predicate UsedUp(s: Sys, t: Sys, token: string, client: string) {
    && t.taken == s.taken + [token]
    && (t.issued != s.issued ==>
          && |t.issued| == |s.issued| + 1
          && t.issued[|s.issued|].access.client == client)
  }

  lemma {:induction false} CodeUses(s: Sys, pattern: string -> bool, client: string, token: string, signing: bool,
                                    name: string)
    requires token in s.store.codes && token in s.origin
    ensures var (rest, r) := s.store.ExchangeCode(pattern, client, token, signing, name);
            UsedUp(s, RedeemNext(s, rest, r, token, name), token, client)
  {
  }

  lemma {:induction false} RefreshUses(s: Sys, pattern: string -> bool, client: string, token: string,
                                       scopes: seq<string>, signing: bool, name: string)
    requires token in s.store.refresh && token in s.origin
    ensures var (rest, r) := s.store.ExchangeRefresh(pattern, client, token, scopes, signing, name);
            UsedUp(s, RedeemNext(s, rest, r, token, name), token, client)
  {
  }

  lemma {:induction false} RedeemUses(s: Sys, pattern: string -> bool, step: Step)
    requires Inv(s, pattern) && Enabled(s, step) && Redeems(s, step)
    ensures UsedUp(s, Next(s, pattern, step), step.token, step.client)
  {
    match step
    case RedeemCode(client, token, signing, name) =>
      assert CodeOk(s, pattern, token);
      CodeUses(s, pattern, client, token, signing, name);
    case RedeemRefresh(client, token, scopes, signing, name) =>
      assert RefreshOk(s, pattern, token);
      RefreshUses(s, pattern, client, token, scopes, signing, name);
  }
}
