/**
 * The Express server's state and routes: the in-memory table of admin
 * sessions (token to expiry time in milliseconds), the stored contact
 * submissions, the `authenticateAdmin` gate, login and logout, and the
 * contact routes behind the gate. Time is the caller's `now`; the tokens
 * and record ids the server would draw at random are fresh inputs.
 */
module Backend {
  import opened Wrappers
  import opened JsText
  import opened ContactValidation
  import opened ContactListing

  /** 24 hours in milliseconds: the lifetime a login grants and a request renews. */
  const SessionLifetime := 24 * 60 * 60 * 1000

  const BearerPrefix := "Bearer "

  /** A stored submission, as the database holds it. */
  datatype Contact = Contact(
    id: string, name: string, email: string, subject: string, message: string,
    createdAt: int, ipAddress: string, userAgent: string)

  /** The status code and `message` of a JSON answer. */
  datatype Reply = Reply(status: int, message: string)

  /** The answer to a login: on success it carries the token and its expiry. */
  datatype LoginReply = LoginReply(status: int, message: string, token: Option<string>, expires: Option<int>)

  /** What the `authenticateAdmin` gate decided. */
  datatype Gate = NoToken | Refused | Admitted(token: string)

  /** The 401 answer for a gate that did not admit the request. */
  function GateReply(g: Gate): Reply
    requires !g.Admitted?
  {
    if g.NoToken? then Reply(401, "No token provided") else Reply(401, "Invalid or expired token")
  }

  /** `req.headers.authorization?.replace('Bearer ', '')`. */
  function HeaderToken(authorization: Option<string>): (t: Option<string>)
    ensures authorization.None? <==> t.None?
  {
    match authorization
    case None => None
    case Some(h) => Some(ReplaceFirst(h, BearerPrefix, ""))
  }

  /**
   * The token of a gated request: the header's, unless that is absent or
   * empty, then the `token` query parameter; `None` when neither is a
   * non-empty string.
   */
  function RequestToken(authorization: Option<string>, query: Option<string>): (t: Option<string>)
    ensures t.Some? ==> t.value != ""
    ensures Truthy(HeaderToken(authorization)) ==> t == HeaderToken(authorization)
    ensures !Truthy(HeaderToken(authorization)) ==> (t.Some? <==> Truthy(query)) && (t.Some? ==> t == query)
  {
    var h := HeaderToken(authorization);
    if Truthy(h) then h else if Truthy(query) then query else None
  }

  /** A client that sends `Authorization: Bearer <token>` is known by that token. */
  lemma BearerHeaderRoundTrip(token: string, query: Option<string>)
    requires token != ""
    ensures RequestToken(Some(BearerPrefix + token), query) == Some(token)
  {
    ReplaceLeadingPrefix(BearerPrefix, token);
  }

  /**
   * The gate on the session table at time `now`: the new table and the
   * decision. A session is live iff it exists and its expiry is not
   * before `now`; a live one is renewed to `now + SessionLifetime`, any
   * other token is evicted, and no other entry changes.
   */
  function AuthStep(sessions: map<string, int>, authorization: Option<string>, query: Option<string>, now: int)
    : (r: (Gate, map<string, int>))
    ensures r.0.NoToken? <==> RequestToken(authorization, query).None?
    ensures r.0.NoToken? ==> r.1 == sessions
    ensures r.0.Admitted? <==>
      var t := RequestToken(authorization, query);
      t.Some? && t.value in sessions && sessions[t.value] >= now
    ensures r.0.Admitted? ==>
      r.0.token == RequestToken(authorization, query).value
      && r.1 == sessions[r.0.token := now + SessionLifetime]
    ensures r.0.Refused? ==> r.1 == sessions - {RequestToken(authorization, query).value}
  {
    match RequestToken(authorization, query)
    case None => (NoToken, sessions)
    case Some(t) =>
      if t !in sessions || sessions[t] < now then (Refused, sessions - {t})
      else (Admitted(t), sessions[t := now + SessionLifetime])
  }

  /** The gate touches the entry of the request's token and no other. */
  lemma AuthLeavesOthers(sessions: map<string, int>, authorization: Option<string>, query: Option<string>, now: int, other: string)
    requires RequestToken(authorization, query) != Some(other)
    ensures var m := AuthStep(sessions, authorization, query, now).1;
      (other in m <==> other in sessions) && (other in m ==> m[other] == sessions[other])
  {
  }

  /** `/api/admin/logout`: delete the header's token, if non-empty. */
  function LogoutStep(sessions: map<string, int>, authorization: Option<string>): (m: map<string, int>)
    ensures Truthy(HeaderToken(authorization)) ==>
      m.Keys == sessions.Keys - {HeaderToken(authorization).value}
    ensures !Truthy(HeaderToken(authorization)) ==> m == sessions
    ensures forall k :: k in m ==> k in sessions && m[k] == sessions[k]
  {
    var t := HeaderToken(authorization);
    if Truthy(t) then sessions - {t.value} else sessions
  }

  /** Logging out twice is logging out once. */
  lemma LogoutIdempotent(sessions: map<string, int>, authorization: Option<string>)
    ensures LogoutStep(LogoutStep(sessions, authorization), authorization) == LogoutStep(sessions, authorization)
  {
  }

  /**
   * A token granted at `loginTime` admits a request made with
   * `Bearer <token>` up to `SessionLifetime` later, and the request
   * extends the session; a request after that is refused and evicts it.
   */
  lemma FreshSessionLifetime(sessions: map<string, int>, token: string, loginTime: int, now: int, query: Option<string>)
    requires token != ""
    ensures var m := sessions[token := loginTime + SessionLifetime];
      var r := AuthStep(m, Some(BearerPrefix + token), query, now);
      && (now <= loginTime + SessionLifetime ==> r.0 == Admitted(token) && r.1[token] == now + SessionLifetime)
      && (now > loginTime + SessionLifetime ==> r.0 == Refused && token !in r.1)
  {
    BearerHeaderRoundTrip(token, query);
  }

  /** No two stored contacts share an id. */
  ghost predicate DistinctIds(cs: seq<Contact>) {
    forall i, j :: 0 <= i < j < |cs| ==> cs[i].id != cs[j].id
  }

  /** The position of the contact with id `id`, if stored. */
  function FindId(cs: seq<Contact>, id: string): (k: Option<nat>)
    ensures k.Some? ==> k.value < |cs| && cs[k.value].id == id
    ensures k.None? ==> forall i :: 0 <= i < |cs| ==> cs[i].id != id
  {
    if cs == [] then None
    else match FindId(cs[..|cs| - 1], id)
      case Some(k) => Some(k)
      case None => if cs[|cs| - 1].id == id then Some(|cs| - 1) else None
  }

  /** The contacts with the one at position `k` taken out, order kept. */
  function RemoveAt(cs: seq<Contact>, k: nat): (r: seq<Contact>)
    requires k < |cs|
    ensures |r| == |cs| - 1
    ensures forall i :: 0 <= i < k ==> r[i] == cs[i]
    ensures forall i :: k <= i < |r| ==> r[i] == cs[i + 1]
  {
    cs[..k] + cs[k + 1..]
  }

  /** The stored contacts newest first, as the listing sorts them. */
  function NewestFirst(cs: seq<Contact>): (r: seq<Contact>)
    ensures |r| == |cs|
    ensures forall i :: 0 <= i < |cs| ==> r[i] == cs[|cs| - 1 - i]
  {
    if cs == [] then [] else [cs[|cs| - 1]] + NewestFirst(cs[..|cs| - 1])
  }

  /** Deleting a stored id leaves every other contact and no contact with that id. */
  lemma DeleteRemovesExactlyOne(cs: seq<Contact>, id: string)
    requires DistinctIds(cs)
    requires FindId(cs, id).Some?
    ensures var r := RemoveAt(cs, FindId(cs, id).value);
      && (forall i :: 0 <= i < |r| ==> r[i].id != id)
      && (forall c :: c in cs && c.id != id ==> c in r)
      && DistinctIds(r)
  {
    var k := FindId(cs, id).value;
    var r := RemoveAt(cs, k);
    forall c | c in cs && c.id != id
      ensures c in r
    {
      var i :| 0 <= i < |cs| && cs[i] == c;
      if i < k { assert r[i] == c; } else { assert i > k; assert r[i - 1] == c; }
    }
  }

  class Server {
    /** `adminSessions`: token to expiry time. */
    var sessions: map<string, int>
    /** The stored contacts, oldest first. */
    var contacts: seq<Contact>

    ghost predicate Valid()
      reads this
    {
      DistinctIds(contacts)
    }

    constructor ()
      ensures Valid() && sessions == map[] && contacts == []
    {
      sessions := map[];
      contacts := [];
    }

    /**
     * POST /api/admin/login. An unset or empty admin password answers 500
     * before the password is looked at; a wrong password answers 401; in
     * both cases the table is unchanged. Otherwise `freshToken` is stored
     * with expiry `now + SessionLifetime` and returned.
     */
    method Login(password: Option<string>, adminPassword: Option<string>, freshToken: string, now: int)
      returns (r: LoginReply)
      modifies this
      ensures contacts == old(contacts)
      ensures !Truthy(adminPassword) ==>
        r == LoginReply(500, "Admin password not configured", None, None) && sessions == old(sessions)
      ensures Truthy(adminPassword) && password != adminPassword ==>
        r == LoginReply(401, "Invalid password", None, None) && sessions == old(sessions)
      ensures Truthy(adminPassword) && password == adminPassword ==>
        && r == LoginReply(200, "Login successful", Some(freshToken), Some(now + SessionLifetime))
        && sessions == old(sessions)[freshToken := now + SessionLifetime]
    {
      if !Truthy(adminPassword) {
        return LoginReply(500, "Admin password not configured", None, None);
      }
      if password != adminPassword {
        return LoginReply(401, "Invalid password", None, None);
      }
      var expires := now + SessionLifetime;
      sessions := sessions[freshToken := expires];
      r := LoginReply(200, "Login successful", Some(freshToken), Some(expires));
    }

    /**
     * POST /api/admin/logout: only the header's token is deleted (the
     * query string is not consulted), and the answer is always success.
     */
    method Logout(authorization: Option<string>) returns (r: Reply)
      modifies this
      ensures r == Reply(200, "Logged out")
      ensures sessions == LogoutStep(old(sessions), authorization)
      ensures contacts == old(contacts)
    {
      var token := HeaderToken(authorization);
      if Truthy(token) {
        sessions := sessions - {token.value};
      }
      r := Reply(200, "Logged out");
    }

    /** The `authenticateAdmin` middleware. */
    method Authenticate(authorization: Option<string>, query: Option<string>, now: int) returns (g: Gate)
      modifies this
      ensures (g, sessions) == AuthStep(old(sessions), authorization, query, now)
      ensures contacts == old(contacts)
    {
      var token := RequestToken(authorization, query);
      if token.None? {
        return NoToken;
      }
      var t := token.value;
      if t !in sessions || sessions[t] < now {
        sessions := sessions - {t};
        return Refused;
      }
      sessions := sessions[t := now + SessionLifetime];
      g := Admitted(t);
    }

    /**
     * POST /api/contact. A submission that fails validation is refused
     * with 400 and the first failing check's message; a valid one is
     * stored (unless the database write fails: 500, nothing stored) and
     * then mailed; a failed mail still answers 500 but the contact stays
     * stored.
     */
    method Submit(body: Submission, id: string, now: int, ip: string, userAgent: string, saved: bool, mailed: bool)
      returns (r: Reply)
      requires Valid()
      requires forall c :: c in contacts ==> c.id != id
      modifies this
      ensures Valid() && sessions == old(sessions)
      ensures Validate(body).Invalid? ==>
        r == Reply(400, RejectionMessage(Validate(body).reason)) && contacts == old(contacts)
      ensures Validate(body).Valid? && !saved ==>
        r == Reply(500, "Something went wrong. Please try again later.") && contacts == old(contacts)
      ensures Validate(body).Valid? && saved ==>
        var f := Validate(body).fields;
        && contacts == old(contacts) + [Contact(id, f.name, f.email, f.subject, f.message, now, ip, userAgent)]
        && r == (if mailed then Reply(200, "Message sent successfully! Thank you for contacting us.")
                 else Reply(500, "Something went wrong. Please try again later."))
    {
      var v := Validate(body);
      if v.Invalid? {
        return Reply(400, RejectionMessage(v.reason));
      }
      if !saved {
        return Reply(500, "Something went wrong. Please try again later.");
      }
      var f := v.fields;
      contacts := contacts + [Contact(id, f.name, f.email, f.subject, f.message, now, ip, userAgent)];
      if mailed {
        r := Reply(200, "Message sent successfully! Thank you for contacting us.");
      } else {
        r := Reply(500, "Something went wrong. Please try again later.");
      }
    }

    /**
     * GET /api/contacts behind the gate: a refused request gets the gate's
     * 401 and never reaches the route (`listing` is `None`); an admitted
     * one gets the requested page.
     */
    method ListContacts(authorization: Option<string>, query: Option<string>, now: int,
                        pageQ: Option<string>, limitQ: Option<string>)
      returns (g: Gate, listing: Option<Listing<Contact>>)
      modifies this
      ensures (g, sessions) == AuthStep(old(sessions), authorization, query, now)
      ensures contacts == old(contacts)
      ensures listing.Some? <==> g.Admitted?
      ensures g.Admitted? ==> listing == Some(List(NewestFirst(contacts), pageQ, limitQ))
    {
      g := Authenticate(authorization, query, now);
      if g.Admitted? {
        listing := Some(List(NewestFirst(contacts), pageQ, limitQ));
      } else {
        listing := None;
      }
    }

    /** DELETE /api/contacts/:id behind the gate: 401, 404, or the contact removed. */
    method Delete(authorization: Option<string>, query: Option<string>, now: int, id: string)
      returns (r: Reply)
      requires Valid()
      modifies this
      ensures Valid()
      ensures var (g, m) := AuthStep(old(sessions), authorization, query, now);
        && sessions == m
        && (!g.Admitted? ==> r == GateReply(g) && contacts == old(contacts))
        && (g.Admitted? && FindId(old(contacts), id).None? ==>
              r == Reply(404, "Contact not found") && contacts == old(contacts))
        && (g.Admitted? && FindId(old(contacts), id).Some? ==>
              r == Reply(200, "Contact deleted successfully")
              && contacts == RemoveAt(old(contacts), FindId(old(contacts), id).value))
    {
      var g := Authenticate(authorization, query, now);
      if !g.Admitted? {
        return GateReply(g);
      }
      var k := FindId(contacts, id);
      if k.None? {
        return Reply(404, "Contact not found");
      }
      DeleteRemovesExactlyOne(contacts, id);
      contacts := RemoveAt(contacts, k.value);
      r := Reply(200, "Contact deleted successfully");
    }

    /** GET /api/contacts/:id behind the gate: 401, 404 or the contact. */
    method Get(authorization: Option<string>, query: Option<string>, now: int, id: string)
      returns (r: Reply, found: Option<Contact>)
      modifies this
      ensures contacts == old(contacts)
      ensures var (g, m) := AuthStep(old(sessions), authorization, query, now);
        && sessions == m
        && (!g.Admitted? ==> r == GateReply(g) && found.None?)
        && (g.Admitted? ==> (found.Some? <==> FindId(contacts, id).Some?))
        && (found.Some? ==> r.status == 200 && found.value in contacts && found.value.id == id)
        && (g.Admitted? && found.None? ==> r == Reply(404, "Contact not found"))
    {
      var g := Authenticate(authorization, query, now);
      if !g.Admitted? {
        return GateReply(g), None;
      }
      var k := FindId(contacts, id);
      if k.None? {
        return Reply(404, "Contact not found"), None;
      }
      r, found := Reply(200, ""), Some(contacts[k.value]);
    }
  }
}
