// The WebSocket service: a registry of authenticated clients keyed by user
// id, each with the stock codes it subscribed to; the message handlers
// that update it, the cleanup on close, and the periodic quote push.

module WebSocket {
  import opened Util

  /** A socket, compared by identity. */
  type Socket = nat

  datatype Client = Client(socket: Socket, userId: string, subscriptions: seq<string>)

  /** The replies and pushes the service sends; the quote update carries
    * the codes of the quotes it contains. */
  datatype Message =
    | FormatError | UnknownType | AuthError | AuthSuccess
    | SubscribeParamError | NotAuthenticated | SubscribeSuccess(codes: seq<string>)
    | UnsubscribeSuccess | QuoteUpdate(codes: seq<string>)

  datatype Delivery = Delivery(to: Socket, message: Message)

  /** The `codes` field of a payload: missing (`undefined` or `null`), some
    * value that is not an array, or an array of codes. */
  datatype Codes = Missing | NotArray | Array(list: seq<string>)

  /** The fields read from a payload. */
  datatype Payload = Payload(userId: Option<string>, token: Option<string>, codes: Codes)

  /** A parsed message; a missing payload makes the handler's destructuring
    * throw. */
  datatype Request = Request(kind: string, payload: Option<Payload>)

  /** The registry: the clients map and its insertion order, which decides
    * which entry the close handler finds first. */
  datatype Registry = Registry(clients: map<string, Client>, order: seq<string>)

  predicate NoDups<T(==)>(s: seq<T>)
  {
    forall i, j :: 0 <= i < j < |s| ==> s[i] != s[j]
  }

  /** The order lists each key once; every subscription list is free of
    * duplicates. */
  ghost predicate WellFormed(r: Registry)
  {
    NoDups(r.order)
    && (forall k :: k in r.clients <==> k in r.order)
    && (forall k :: k in r.clients ==> NoDups(r.clients[k].subscriptions))
  }

  /** Neither missing nor the empty string. */
  predicate Truthy(x: Option<string>)
  {
    x.Some? && x.value != ""
  }

  // ---------------------------------------------------------------------
  // List helpers
  // ---------------------------------------------------------------------

  /** Appends each of `ys`, in order, unless already present. */
  function AddAbsent(xs: seq<string>, ys: seq<string>): seq<string>
  {
    if |ys| == 0 then xs
    else
      var acc := AddAbsent(xs, ys[..|ys| - 1]);
      if ys[|ys| - 1] in acc then acc else acc + [ys[|ys| - 1]]
  }

  /** The entries of `xs` not in `ys`, in order. */
  function Without(xs: seq<string>, ys: seq<string>): (r: seq<string>)
    ensures |r| <= |xs|
  {
    if |xs| == 0 then []
    else Without(xs[..|xs| - 1], ys) + (if xs[|xs| - 1] in ys then [] else [xs[|xs| - 1]])
  }

  /** The entries of `xs` that are in `ys`, in order. */
  function Only(xs: seq<string>, ys: seq<string>): (r: seq<string>)
    ensures |r| <= |xs|
  {
    if |xs| == 0 then []
    else Only(xs[..|xs| - 1], ys) + (if xs[|xs| - 1] in ys then [xs[|xs| - 1]] else [])
  }

  /** Adding keeps what was there as a prefix, adds exactly the new codes,
    * and never duplicates one. */
  lemma {:induction false} AddAbsentMeaning(xs: seq<string>, ys: seq<string>)
    requires NoDups(xs)
    ensures NoDups(AddAbsent(xs, ys))
    ensures xs <= AddAbsent(xs, ys)
    ensures forall x :: x in AddAbsent(xs, ys) <==> x in xs || x in ys
  {
    if |ys| > 0 {
      var init := ys[..|ys| - 1];
      AddAbsentMeaning(xs, init);
      assert forall x :: x in ys <==> x in init || x == ys[|ys| - 1];
    }
  }

  /** Removal keeps exactly the entries not named, without duplicating
    * any. */
  lemma {:induction false} WithoutMeaning(xs: seq<string>, ys: seq<string>)
    ensures forall x :: x in Without(xs, ys) <==> x in xs && x !in ys
    ensures NoDups(xs) ==> NoDups(Without(xs, ys))
  {
    if |xs| > 0 {
      var init := xs[..|xs| - 1];
      WithoutMeaning(init, ys);
      assert forall x :: x in xs <==> x in init || x == xs[|xs| - 1];
      if NoDups(xs) {
        assert NoDups(init);
        assert xs[|xs| - 1] !in init;
      }
    }
  }

  lemma {:induction false} OnlyMeaning(xs: seq<string>, ys: seq<string>)
    ensures forall x :: x in Only(xs, ys) <==> x in xs && x in ys
    ensures NoDups(xs) ==> NoDups(Only(xs, ys))
  {
    if |xs| > 0 {
      var init := xs[..|xs| - 1];
      OnlyMeaning(init, ys);
      assert forall x :: x in xs <==> x in init || x == xs[|xs| - 1];
      if NoDups(xs) {
        assert NoDups(init);
        assert xs[|xs| - 1] !in init;
      }
    }
  }

  // ---------------------------------------------------------------------
  // Handlers, as transitions of the registry
  // ---------------------------------------------------------------------

  /** `clients.set(k, …)`: a new key goes to the end of the order, an
    * existing key keeps its place. */
  function Register(order: seq<string>, k: string): seq<string>
  {
    if k in order then order else order + [k]
  }

  /** Rejects a missing user id or token; otherwise (re)registers the user
    * on this socket with no subscriptions. */
  function Auth(r: Registry, ws: Socket, p: Payload): (Registry, seq<Delivery>)
  {
    if !Truthy(p.userId) || !Truthy(p.token) then (r, [Delivery(ws, AuthError)])
    else
      var u := p.userId.value;
      (Registry(r.clients[u := Client(ws, u, [])], Register(r.order, u)), [Delivery(ws, AuthSuccess)])
  }

  /** Needs a user id and an array of codes, then a registered user (on
    * any socket); adds the codes not yet subscribed. */
  function Subscribe(r: Registry, ws: Socket, p: Payload): (Registry, seq<Delivery>)
  {
    if !Truthy(p.userId) || !p.codes.Array? then (r, [Delivery(ws, SubscribeParamError)])
    else if p.userId.value !in r.clients then (r, [Delivery(ws, NotAuthenticated)])
    else
      var u := p.userId.value;
      var c := r.clients[u];
      (Registry(r.clients[u := c.(subscriptions := AddAbsent(c.subscriptions, p.codes.list))], r.order),
       [Delivery(ws, SubscribeSuccess(p.codes.list))])
  }

  /** Silently ignores an unknown user; with an array removes those codes,
    * otherwise clears every subscription. The closing log line joins the
    * codes, which throws for a value that is neither missing nor an array,
    * so that case also gets the format error after the success reply. */
  function Unsubscribe(r: Registry, ws: Socket, p: Payload): (Registry, seq<Delivery>)
  {
    if p.userId.None? || p.userId.value !in r.clients then (r, [])
    else
      var u := p.userId.value;
      var c := r.clients[u];
      var kept := if p.codes.Array? then Without(c.subscriptions, p.codes.list) else [];
      (Registry(r.clients[u := c.(subscriptions := kept)], r.order),
       [Delivery(ws, UnsubscribeSuccess)] + (if p.codes.NotArray? then [Delivery(ws, FormatError)] else []))
  }

  /** The position of the first key, in insertion order, whose client is on
    * socket `ws`. */
  function FirstOnSocket(order: seq<string>, clients: map<string, Client>, ws: Socket): (i: Option<nat>)
    requires forall j :: 0 <= j < |order| ==> order[j] in clients
    ensures i.Some? ==> i.value < |order| && clients[order[i.value]].socket == ws
    ensures i.Some? ==> forall j :: 0 <= j < i.value ==> clients[order[j]].socket != ws
    ensures i.None? ==> forall j :: 0 <= j < |order| ==> clients[order[j]].socket != ws
  {
    if |order| == 0 then None
    else if clients[order[0]].socket == ws then Some(0)
    else
      var rest := FirstOnSocket(order[1..], clients, ws);
      if rest.None? then None else Some(rest.value + 1)
  }

  /** Deletes the first entry on the closed socket and stops there. */
  function Close(r: Registry, ws: Socket): Registry
    requires WellFormed(r)
  {
    var i := FirstOnSocket(r.order, r.clients, ws);
    if i.None? then r
    else Registry(r.clients - {r.order[i.value]}, r.order[..i.value] + r.order[i.value + 1..])
  }

  /** Every subscribed code once, in the order the clients and their lists
    * are visited. */
  function AllSubscriptions(order: seq<string>, clients: map<string, Client>): seq<string>
    requires forall j :: 0 <= j < |order| ==> order[j] in clients
  {
    if |order| == 0 then []
    else AddAbsent(AllSubscriptions(order[..|order| - 1], clients), clients[order[|order| - 1]].subscriptions)
  }

  /** One update per client with subscriptions, holding the quotes among
    * `all` that it subscribed to. */
  function Updates(order: seq<string>, clients: map<string, Client>, all: seq<string>): seq<Delivery>
    requires forall j :: 0 <= j < |order| ==> order[j] in clients
  {
    if |order| == 0 then []
    else
      var c := clients[order[|order| - 1]];
      Updates(order[..|order| - 1], clients, all)
      + (if |c.subscriptions| > 0 then [Delivery(c.socket, QuoteUpdate(Only(all, c.subscriptions)))] else [])
  }

  /** Nothing is sent while nobody subscribes. */
  function Push(r: Registry): seq<Delivery>
    requires WellFormed(r)
  {
    var all := AllSubscriptions(r.order, r.clients);
    if |all| == 0 then [] else Updates(r.order, r.clients, all)
  }

  /** Dispatch on the message type; an unparsable message, or a known type
    * without a payload, gets the format error. */
  function Handle(r: Registry, ws: Socket, req: Option<Request>): (Registry, seq<Delivery>)
  {
    if req.None? then (r, [Delivery(ws, FormatError)])
    else
      var kind := req.value.kind;
      if kind != "auth" && kind != "subscribe" && kind != "unsubscribe" then (r, [Delivery(ws, UnknownType)])
      else if req.value.payload.None? then (r, [Delivery(ws, FormatError)])
      else if kind == "auth" then Auth(r, ws, req.value.payload.value)
      else if kind == "subscribe" then Subscribe(r, ws, req.value.payload.value)
      else Unsubscribe(r, ws, req.value.payload.value)
  }

  // ---------------------------------------------------------------------
  // Properties of the transitions
  // ---------------------------------------------------------------------

  lemma AuthPreserves(r: Registry, ws: Socket, p: Payload)
    requires WellFormed(r)
    ensures WellFormed(Auth(r, ws, p).0)
  {
    if Truthy(p.userId) && Truthy(p.token) {
      var u := p.userId.value;
      var o := Register(r.order, u);
      assert forall k :: k in o <==> k in r.order || k == u;
      assert NoDups(o) by {
        if u !in r.order {
          forall i, j | 0 <= i < j < |o| ensures o[i] != o[j] {
            if j == |r.order| { assert o[i] in r.order; }
          }
        }
      }
    }
  }

  /** A missing user id or token changes nothing and answers with the
    * authentication error; otherwise the user is registered on this
    * socket with no subscriptions and everyone else is untouched. */
  lemma AuthRules(r: Registry, ws: Socket, p: Payload)
    ensures !Truthy(p.userId) || !Truthy(p.token) <==> Auth(r, ws, p) == (r, [Delivery(ws, AuthError)])
    ensures Truthy(p.userId) && Truthy(p.token) ==>
      var r' := Auth(r, ws, p).0;
      r'.clients[p.userId.value] == Client(ws, p.userId.value, [])
      && (forall k :: k in r.clients && k != p.userId.value ==> k in r'.clients && r'.clients[k] == r.clients[k])
      && r'.clients.Keys == r.clients.Keys + {p.userId.value}
  {
  }

  lemma SubscribePreserves(r: Registry, ws: Socket, p: Payload)
    requires WellFormed(r)
    ensures WellFormed(Subscribe(r, ws, p).0)
  {
    if Truthy(p.userId) && p.codes.Array? && p.userId.value in r.clients {
      AddAbsentMeaning(r.clients[p.userId.value].subscriptions, p.codes.list);
    }
  }

  /** A successful subscription keeps the earlier codes as a prefix, adds
    * exactly the requested ones, and changes no other client. */
  lemma SubscribeRules(r: Registry, ws: Socket, p: Payload)
    requires WellFormed(r)
    ensures !Truthy(p.userId) || !p.codes.Array? <==> Subscribe(r, ws, p) == (r, [Delivery(ws, SubscribeParamError)])
    ensures Truthy(p.userId) && p.codes.Array? && p.userId.value !in r.clients ==>
      Subscribe(r, ws, p) == (r, [Delivery(ws, NotAuthenticated)])
    ensures Truthy(p.userId) && p.codes.Array? && p.userId.value in r.clients ==>
      Subscribe(r, ws, p).1 == [Delivery(ws, SubscribeSuccess(p.codes.list))]
    ensures Truthy(p.userId) && p.codes.Array? && p.userId.value in r.clients ==>
      var old_ := r.clients[p.userId.value].subscriptions;
      var new_ := Subscribe(r, ws, p).0.clients[p.userId.value].subscriptions;
      old_ <= new_ && NoDups(new_)
      && (forall code :: code in new_ <==> code in old_ || code in p.codes.list)
      && Subscribe(r, ws, p).0.clients.Keys == r.clients.Keys
      && Subscribe(r, ws, p).0.clients[p.userId.value].socket == r.clients[p.userId.value].socket
      && Subscribe(r, ws, p).0.order == r.order
      && (forall k :: k in r.clients && k != p.userId.value ==> Subscribe(r, ws, p).0.clients[k] == r.clients[k])
  {
    if Truthy(p.userId) && p.codes.Array? && p.userId.value in r.clients {
      AddAbsentMeaning(r.clients[p.userId.value].subscriptions, p.codes.list);
    }
  }

  lemma UnsubscribePreserves(r: Registry, ws: Socket, p: Payload)
    requires WellFormed(r)
    ensures WellFormed(Unsubscribe(r, ws, p).0)
  {
    if p.userId.Some? && p.userId.value in r.clients && p.codes.Array? {
      WithoutMeaning(r.clients[p.userId.value].subscriptions, p.codes.list);
    }
  }

  /** An unknown user changes nothing and gets no reply; otherwise exactly
    * the named codes are dropped, the rest keeping their order, or all of
    * them without an array; the user's socket and every other client are
    * untouched; the reply is the unsubscribe success, followed by the
    * format error when `codes` is present but not an array. */
  lemma UnsubscribeRules(r: Registry, ws: Socket, p: Payload)
    ensures p.userId.None? || p.userId.value !in r.clients <==> Unsubscribe(r, ws, p) == (r, [])
    ensures p.userId.Some? && p.userId.value in r.clients && p.codes.Array? ==>
      var new_ := Unsubscribe(r, ws, p).0.clients[p.userId.value].subscriptions;
      new_ == Without(r.clients[p.userId.value].subscriptions, p.codes.list)
      && forall code :: code in new_ <==> code in r.clients[p.userId.value].subscriptions && code !in p.codes.list
    ensures p.userId.Some? && p.userId.value in r.clients && !p.codes.Array? ==>
      Unsubscribe(r, ws, p).0.clients[p.userId.value].subscriptions == []
    ensures p.userId.Some? && p.userId.value in r.clients ==>
      var r' := Unsubscribe(r, ws, p).0;
      Unsubscribe(r, ws, p).1 == (if p.codes.NotArray? then [Delivery(ws, UnsubscribeSuccess), Delivery(ws, FormatError)]
                                  else [Delivery(ws, UnsubscribeSuccess)])
      && r'.clients.Keys == r.clients.Keys && r'.order == r.order
      && r'.clients[p.userId.value].socket == r.clients[p.userId.value].socket
      && r'.clients[p.userId.value].userId == r.clients[p.userId.value].userId
      && (forall k :: k in r.clients && k != p.userId.value ==> r'.clients[k] == r.clients[k])
  {
    if p.userId.Some? && p.userId.value in r.clients && p.codes.Array? {
      WithoutMeaning(r.clients[p.userId.value].subscriptions, p.codes.list);
    }
  }

  /** Dropping position `i` keeps every other entry and no duplicates. */
  lemma RemoveAt(s: seq<string>, i: nat)
    requires NoDups(s) && i < |s|
    ensures NoDups(s[..i] + s[i + 1..])
    ensures forall x :: x in s[..i] + s[i + 1..] <==> x in s && x != s[i]
  {
    var o := s[..i] + s[i + 1..];
    assert forall j :: 0 <= j < |o| ==> o[j] == if j < i then s[j] else s[j + 1];
    forall x | x in s && x != s[i] ensures x in o {
      var j :| 0 <= j < |s| && s[j] == x;
      if j < i { assert o[j] == x; } else { assert o[j - 1] == x; }
    }
  }

  lemma ClosePreserves(r: Registry, ws: Socket)
    requires WellFormed(r)
    ensures WellFormed(Close(r, ws))
  {
    var i := FirstOnSocket(r.order, r.clients, ws);
    if i.Some? {
      RemoveAt(r.order, i.value);
    }
  }

  /** Close removes the first entry on that socket and nothing else; when
    * no entry is on it the registry is unchanged. */
  lemma CloseRules(r: Registry, ws: Socket)
    requires WellFormed(r)
    ensures (forall k :: k in r.clients ==> r.clients[k].socket != ws) ==> Close(r, ws) == r
    ensures (exists k :: k in r.clients && r.clients[k].socket == ws) ==>
      exists k :: k in r.clients && r.clients[k].socket == ws && Close(r, ws).clients == r.clients - {k}
  {
    var i := FirstOnSocket(r.order, r.clients, ws);
    if exists k :: k in r.clients && r.clients[k].socket == ws {
      var k :| k in r.clients && r.clients[k].socket == ws;
      var j :| 0 <= j < |r.order| && r.order[j] == k;
      assert i.Some?;
    } else if i.Some? {
      assert r.order[i.value] in r.clients;
    }
  }

  lemma {:induction false} AllSubscriptionsMeaning(order: seq<string>, clients: map<string, Client>)
    requires forall j :: 0 <= j < |order| ==> order[j] in clients
    ensures NoDups(AllSubscriptions(order, clients))
    ensures forall code :: code in AllSubscriptions(order, clients) <==>
      exists j :: 0 <= j < |order| && code in clients[order[j]].subscriptions
  {
    if |order| > 0 {
      var init := order[..|order| - 1];
      var last := clients[order[|order| - 1]].subscriptions;
      AllSubscriptionsMeaning(init, clients);
      AddAbsentMeaning(AllSubscriptions(init, clients), last);
      forall code | exists j :: 0 <= j < |order| && code in clients[order[j]].subscriptions
        ensures code in AllSubscriptions(order, clients)
      {
        var j :| 0 <= j < |order| && code in clients[order[j]].subscriptions;
        if j < |init| { assert order[j] == init[j]; }
      }
      forall code | code in AllSubscriptions(init, clients)
        ensures exists j :: 0 <= j < |order| && code in clients[order[j]].subscriptions
      {
        var j :| 0 <= j < |init| && code in clients[init[j]].subscriptions;
        assert order[j] == init[j];
      }
    }
  }

  /** Each update goes to a client with subscriptions and carries the
    * quotes among `all` it subscribed to; none is sent only when nobody has
    * a subscription. */
  lemma {:induction false} UpdatesMeaning(order: seq<string>, clients: map<string, Client>, all: seq<string>)
    requires forall j :: 0 <= j < |order| ==> order[j] in clients
    ensures |Updates(order, clients, all)| <= |order|
    ensures |Updates(order, clients, all)| == 0 <==>
      forall j :: 0 <= j < |order| ==> clients[order[j]].subscriptions == []
    ensures forall d :: d in Updates(order, clients, all) ==>
      exists j :: 0 <= j < |order| && |clients[order[j]].subscriptions| > 0
        && d == Delivery(clients[order[j]].socket, QuoteUpdate(Only(all, clients[order[j]].subscriptions)))
  {
    if |order| > 0 {
      var init := order[..|order| - 1];
      UpdatesMeaning(init, clients, all);
      assert forall j :: 0 <= j < |init| ==> init[j] == order[j];
      forall d | d in Updates(init, clients, all)
        ensures exists j :: 0 <= j < |order| && |clients[order[j]].subscriptions| > 0
                  && d == Delivery(clients[order[j]].socket, QuoteUpdate(Only(all, clients[order[j]].subscriptions)))
      {
        var j :| 0 <= j < |init| && |clients[init[j]].subscriptions| > 0
          && d == Delivery(clients[init[j]].socket, QuoteUpdate(Only(all, clients[init[j]].subscriptions)));
        assert order[j] == init[j];
      }
    }
  }

  /** The periodic push sends nothing exactly when no client has a
    * subscription. */
  lemma PushSilent(r: Registry)
    requires WellFormed(r)
    ensures Push(r) == [] <==> forall k :: k in r.clients ==> r.clients[k].subscriptions == []
  {
    var all := AllSubscriptions(r.order, r.clients);
    AllSubscriptionsMeaning(r.order, r.clients);
    UpdatesMeaning(r.order, r.clients, all);
    var quiet := forall j :: 0 <= j < |r.order| ==> r.clients[r.order[j]].subscriptions == [];
    assert quiet <==> forall k :: k in r.clients ==> r.clients[k].subscriptions == [] by {
      if quiet {
        forall k | k in r.clients ensures r.clients[k].subscriptions == [] {
          var j :| 0 <= j < |r.order| && r.order[j] == k;
        }
      }
    }
    assert |all| > 0 ==> !quiet by {
      if |all| > 0 {
        assert all[0] in all;
      }
    }
    assert !quiet ==> |all| > 0 by {
      if !quiet {
        var j :| 0 <= j < |r.order| && r.clients[r.order[j]].subscriptions != [];
        assert r.clients[r.order[j]].subscriptions[0] in all;
      }
    }
  }

  /** A pushed update goes to a registered client and names exactly that
    * client's codes, each once. */
  lemma PushRules(r: Registry)
    requires WellFormed(r)
    ensures forall d :: d in Push(r) ==>
      exists k :: k in r.clients && d.to == r.clients[k].socket && d.message.QuoteUpdate? && NoDups(d.message.codes)
        && forall code :: code in d.message.codes <==> code in r.clients[k].subscriptions
  {
    var all := AllSubscriptions(r.order, r.clients);
    AllSubscriptionsMeaning(r.order, r.clients);
    UpdatesMeaning(r.order, r.clients, all);
    forall d | d in Push(r)
      ensures exists k :: k in r.clients && d.to == r.clients[k].socket && d.message.QuoteUpdate? && NoDups(d.message.codes)
                && forall code :: code in d.message.codes <==> code in r.clients[k].subscriptions
    {
      var j :| 0 <= j < |r.order| && |r.clients[r.order[j]].subscriptions| > 0
        && d == Delivery(r.clients[r.order[j]].socket, QuoteUpdate(Only(all, r.clients[r.order[j]].subscriptions)));
      OnlyMeaning(all, r.clients[r.order[j]].subscriptions);
    }
  }

  /** Every message keeps the registry well formed; a message of another
    * type is answered with an error and changes nothing. */
  lemma HandleRules(r: Registry, ws: Socket, req: Option<Request>)
    requires WellFormed(r)
    ensures WellFormed(Handle(r, ws, req).0)
    ensures req.Some? && req.value.kind !in {"auth", "subscribe", "unsubscribe"} ==>
      Handle(r, ws, req) == (r, [Delivery(ws, UnknownType)])
    ensures req.None? ==> Handle(r, ws, req) == (r, [Delivery(ws, FormatError)])
  {
    if req.Some? && req.value.payload.Some? {
      var p := req.value.payload.value;
      AuthPreserves(r, ws, p);
      SubscribePreserves(r, ws, p);
      UnsubscribePreserves(r, ws, p);
    }
  }

  // ---------------------------------------------------------------------
  // The service, updating its registry in place
  // ---------------------------------------------------------------------

  /** Appends each code of `codes` not already present. */
  method AddEach(all: seq<string>, codes: seq<string>) returns (r: seq<string>)
    ensures r == AddAbsent(all, codes)
  {
    r := all;
    var j := 0;
    while j < |codes|
      invariant 0 <= j <= |codes|
      invariant r == AddAbsent(all, codes[..j])
    {
      assert codes[..j + 1][..j] == codes[..j];
      if codes[j] !in r {
        r := r + [codes[j]];
      }
      j := j + 1;
    }
    assert codes[..|codes|] == codes;
  }

  class Service {
    var clients: map<string, Client>
    var order: seq<string>
    /** Every message sent so far, in order. */
    var outbox: seq<Delivery>

    function State(): Registry
      reads this
    {
      Registry(clients, order)
    }

    ghost predicate Valid()
      reads this
    {
      WellFormed(State())
    }

    constructor ()
      ensures Valid() && clients == map[] && order == [] && outbox == []
    {
      clients := map[];
      order := [];
      outbox := [];
    }

    method HandleAuth(ws: Socket, p: Payload)
      requires Valid()
      modifies this
      ensures Valid()
      ensures State() == Auth(old(State()), ws, p).0
      ensures outbox == old(outbox) + Auth(old(State()), ws, p).1
    {
      AuthPreserves(State(), ws, p);
      if !Truthy(p.userId) || !Truthy(p.token) {
        outbox := outbox + [Delivery(ws, AuthError)];
        return;
      }
      var u := p.userId.value;
      clients := clients[u := Client(ws, u, [])];
      if u !in order {
        order := order + [u];
      }
      outbox := outbox + [Delivery(ws, AuthSuccess)];
    }

    method HandleSubscribe(ws: Socket, p: Payload)
      requires Valid()
      modifies this
      ensures Valid()
      ensures State() == Subscribe(old(State()), ws, p).0
      ensures outbox == old(outbox) + Subscribe(old(State()), ws, p).1
    {
      SubscribePreserves(State(), ws, p);
      if !Truthy(p.userId) || !p.codes.Array? {
        outbox := outbox + [Delivery(ws, SubscribeParamError)];
        return;
      }
      var u := p.userId.value;
      if u !in clients {
        outbox := outbox + [Delivery(ws, NotAuthenticated)];
        return;
      }
      var client := clients[u];
      var codes := p.codes.list;
      var subscriptions := client.subscriptions;
      var i := 0;
      while i < |codes|
        invariant 0 <= i <= |codes|
        invariant subscriptions == AddAbsent(client.subscriptions, codes[..i])
      {
        assert codes[..i + 1][..i] == codes[..i];
        if codes[i] !in subscriptions {
          subscriptions := subscriptions + [codes[i]];
        }
        i := i + 1;
      }
      assert codes[..|codes|] == codes;
      clients := clients[u := client.(subscriptions := subscriptions)];
      outbox := outbox + [Delivery(ws, SubscribeSuccess(codes))];
    }

    method HandleUnsubscribe(ws: Socket, p: Payload)
      requires Valid()
      modifies this
      ensures Valid()
      ensures State() == Unsubscribe(old(State()), ws, p).0
      ensures outbox == old(outbox) + Unsubscribe(old(State()), ws, p).1
    {
      UnsubscribePreserves(State(), ws, p);
      if p.userId.None? || p.userId.value !in clients {
        return;
      }
      var u := p.userId.value;
      var client := clients[u];
      if p.codes.Array? {
        clients := clients[u := client.(subscriptions := Without(client.subscriptions, p.codes.list))];
      } else {
        clients := clients[u := client.(subscriptions := [])];
      }
      outbox := outbox + [Delivery(ws, UnsubscribeSuccess)];
      if p.codes.NotArray? {
        outbox := outbox + [Delivery(ws, FormatError)];
      }
    }

    method HandleClose(ws: Socket)
      requires Valid()
      modifies this
      ensures Valid()
      ensures State() == Close(old(State()), ws)
      ensures outbox == old(outbox)
    {
      ClosePreserves(State(), ws);
      var i := 0;
      while i < |order|
        invariant 0 <= i <= |order|
        invariant forall j :: 0 <= j < i ==> clients[order[j]].socket != ws
      {
        if clients[order[i]].socket == ws {
          assert FirstOnSocket(order, clients, ws) == Some(i) by {
            FirstOnSocketUnique(order, clients, ws, i);
          }
          clients := clients - {order[i]};
          order := order[..i] + order[i + 1..];
          return;
        }
        i := i + 1;
      }
    }

    /** The codes every client subscribes to, each once, in first-seen
      * order. */
    method CollectSubscriptions() returns (all: seq<string>)
      requires Valid()
      ensures all == AllSubscriptions(order, clients)
    {
      all := [];
      var i := 0;
      while i < |order|
        invariant 0 <= i <= |order|
        invariant all == AllSubscriptions(order[..i], clients)
      {
        assert order[..i + 1][..i] == order[..i];
        all := AddEach(all, clients[order[i]].subscriptions);
        i := i + 1;
      }
      assert order[..|order|] == order;
    }

    /** Sends each subscribing client, in registration order, its own
      * codes among `all`. */
    method SendUpdates(all: seq<string>)
      requires Valid()
      modifies this
      ensures clients == old(clients) && order == old(order)
      ensures outbox == old(outbox) + Updates(order, clients, all)
    {
      var i := 0;
      while i < |order|
        invariant 0 <= i <= |order|
        invariant clients == old(clients) && order == old(order)
        invariant outbox == old(outbox) + Updates(order[..i], clients, all)
      {
        assert order[..i + 1][..i] == order[..i];
        var client := clients[order[i]];
        if |client.subscriptions| > 0 {
          outbox := outbox + [Delivery(client.socket, QuoteUpdate(Only(all, client.subscriptions)))];
        }
        i := i + 1;
      }
      assert order[..|order|] == order;
    }

    method PushQuotes()
      requires Valid()
      modifies this
      ensures Valid()
      ensures State() == old(State())
      ensures outbox == old(outbox) + Push(old(State()))
    {
      var all := CollectSubscriptions();
      if |all| > 0 {
        SendUpdates(all);
      }
    }

    method HandleMessage(ws: Socket, req: Option<Request>)
      requires Valid()
      modifies this
      ensures Valid()
      ensures State() == Handle(old(State()), ws, req).0
      ensures outbox == old(outbox) + Handle(old(State()), ws, req).1
    {
      if req.None? {
        outbox := outbox + [Delivery(ws, FormatError)];
        return;
      }
      var kind := req.value.kind;
      if kind != "auth" && kind != "subscribe" && kind != "unsubscribe" {
        outbox := outbox + [Delivery(ws, UnknownType)];
        return;
      }
      if req.value.payload.None? {
        outbox := outbox + [Delivery(ws, FormatError)];
        return;
      }
      var p := req.value.payload.value;
      if kind == "auth" {
        HandleAuth(ws, p);
      } else if kind == "subscribe" {
        HandleSubscribe(ws, p);
      } else {
        HandleUnsubscribe(ws, p);
      }
    }
  }

  /** The first index on the socket is the one the scan stops at. */
  lemma {:induction false} FirstOnSocketUnique(order: seq<string>, clients: map<string, Client>, ws: Socket, i: nat)
    requires forall j :: 0 <= j < |order| ==> order[j] in clients
    requires i < |order| && clients[order[i]].socket == ws
    requires forall j :: 0 <= j < i ==> clients[order[j]].socket != ws
    ensures FirstOnSocket(order, clients, ws) == Some(i)
  {
    if i > 0 {
      FirstOnSocketUnique(order[1..], clients, ws, i - 1);
    }
  }
}
