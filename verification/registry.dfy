/** The token registry of linksocks/server.go: reverse tokens with their ports,
    the internal tokens of autonomy tokens, connector and forward tokens. */
module Registry {
  import opened Bytes
  import opened PortPool

  type Token = string

  /** A port of -1 means that the token has no local proxy. `internal` lists the
      tokens made for the clients of an autonomy token. */
  datatype State = State(
    tokens: map<Token, int>, autonomy: set<Token>, internal: map<Token, seq<Token>>, connectors: map<Token, Token>,
    forwards: set<Token>, used: set<int>)

  const EMPTY: State := State(map[], {}, map[], map[], {}, {})

  predicate Exists(s: State, t: Token) { t in s.forwards || t in s.tokens || t in s.connectors }

  /** `generated` and `start` are the random token and the random position. */
  datatype Request = Request(token: Token, port: int, autonomy: bool, generated: Token, start: nat)

  function NameOf(r: Request): Token { if r.token == "" then r.generated else r.token }

  predicate Startable(ports: seq<int>, start: nat) { ports != [] ==> start < |ports| }

  /** The result is the port, or None for an error. */
  function AddReverse(ports: seq<int>, s: State, r: Request): (State, Option<int>)
    requires Startable(ports, r.start)
  {
    if r.token == "anonymous" || (r.token != "" && Exists(s, r.token)) then (s, None)
    else
      var t := NameOf(r);
      if r.autonomy then (s.(tokens := s.tokens[t := -1], autonomy := s.autonomy + {t}), Some(-1))
      else if t in s.tokens then (s, Some(s.tokens[t]))
      else
        var p := Pick(ports, s.used, r.port, r.start);
        if p.None? then (s, None)
        else if p.value == 0 then (s.(used := s.used + {0}), None)
        else (s.(tokens := s.tokens[t := p.value], autonomy := s.autonomy - {t}, used := s.used + {p.value}), p)
  }

  /** A client of an autonomy token joins under an internal token. */
  function Join(s: State, parent: Token, name: Token): State {
    if parent !in s.tokens || parent !in s.autonomy then s
    else
      var names := if parent in s.internal then s.internal[parent] else [];
      s.(tokens := s.tokens[name := -1], autonomy := s.autonomy + {name}, internal := s.internal[parent := names + [name]])
  }

  function AddForward(s: State, token: Token, generated: Token): State {
    if token == "anonymous" || (token != "" && Exists(s, token)) then s
    else s.(forwards := s.forwards + {if token == "" then generated else token})
  }

  function AddConnector(s: State, token: Token, target: Token, generated: Token): State {
    var t := if token == "" then generated else token;
    if token == "anonymous" || target !in s.tokens || Exists(s, t) then s else s.(connectors := s.connectors[t := target])
  }

  function Drop(s: State, gone: set<Token>): State { s.(tokens := s.tokens - gone, autonomy := s.autonomy - gone) }

  function DropInternal(s: State, t: Token): State {
    if t !in s.internal then s else Drop(s, Members(s.internal[t])).(internal := s.internal - {t})
  }

  function Unpoint(connectors: map<Token, Token>, t: Token): map<Token, Token> {
    map c | c in connectors && connectors[c] != t :: connectors[c]
  }

  function Remove(s: State, t: Token): State {
    var u := DropInternal(s, t);
    if t in u.connectors then u.(connectors := u.connectors - {t})
    else if t in u.tokens then
      Drop(u, {t}).(connectors := Unpoint(u.connectors, t), used := u.used - {u.tokens[t]})
    else u.(forwards := u.forwards - {t})
  }

  // ---------------------------------------------------------------- the runs

  datatype Event =
    | Add(request: Request)
    | Joined(parent: Token, name: Token)
    | Forwarded(token: Token, generated: Token)
    | Connected(token: Token, target: Token, generated: Token)
    | Removed(token: Token)

  function Next(ports: seq<int>, s: State, ev: Event): State {
    match ev
    case Add(r) => if Startable(ports, r.start) then AddReverse(ports, s, r).0 else s
    case Joined(parent, name) => Join(s, parent, name)
    case Forwarded(token, generated) => AddForward(s, token, generated)
    case Connected(token, target, generated) => AddConnector(s, token, target, generated)
    case Removed(t) => Remove(s, t)
  }

  function Run(ports: seq<int>, evs: seq<Event>): State {
    if evs == [] then EMPTY else Next(ports, Run(ports, evs[..|evs| - 1]), evs[|evs| - 1])
  }

  // ------------------------------------------------------------ the invariant

  function Held(tokens: map<Token, int>): set<int> { set t | t in tokens && tokens[t] != -1 :: tokens[t] }

  /** Tokens hold no port or a positive one, no two hold the same, and exactly
      the held ports are in use. */
  ghost predicate Exact(s: State) {
    && (forall t | t in s.tokens :: s.tokens[t] == -1 || s.tokens[t] > 0)
    && (forall t, u | t in s.tokens && u in s.tokens && t != u && s.tokens[t] != -1 :: s.tokens[t] != s.tokens[u])
    && s.used == Held(s.tokens)
  }

  /** A name listed as internal holds no port. */
  ghost predicate Portless(tokens: map<Token, int>, names: seq<Token>) {
    forall i | 0 <= i < |names| && names[i] in tokens :: tokens[names[i]] == -1
  }

  ghost predicate InternalOk(s: State) { forall p | p in s.internal :: Portless(s.tokens, s.internal[p]) }

  ghost predicate Inv(s: State) { Exact(s) && InternalOk(s) }

  ghost predicate Positive(ports: seq<int>) { forall i | 0 <= i < |ports| :: ports[i] > 0 }

  ghost predicate Unlisted(s: State, t: Token) {
    forall p, i | p in s.internal && 0 <= i < |s.internal[p]| :: s.internal[p][i] != t
  }

  /** Requested ports are not negative, generated tokens are new, a reverse
      token is not named like an internal one, and an internal token is not
      named like a token that holds a port. */
  ghost predicate Fair(s: State, ev: Event) {
    match ev
    case Add(r) => r.port >= 0 && (r.token == "" ==> !Exists(s, r.generated)) && Unlisted(s, NameOf(r))
    case Joined(_, name) => name in s.tokens ==> s.tokens[name] == -1
    case _ => true
  }

  ghost predicate AllFair(ports: seq<int>, evs: seq<Event>)
    decreases |evs|
  {
    evs != [] ==> AllFair(ports, evs[..|evs| - 1]) && Fair(Run(ports, evs[..|evs| - 1]), evs[|evs| - 1])
  }

  lemma GainExact(s: State, t: Token, port: int)
    requires Exact(s) && t !in s.tokens && port > 0 && port !in s.used
    ensures Exact(s.(tokens := s.tokens[t := port], autonomy := s.autonomy - {t}, used := s.used + {port}))
  {
    var after := s.tokens[t := port];
    assert port in Held(after) by {
      assert after[t] == port;
    }
    forall p | p in s.used
      ensures p in Held(after)
    {
      var u :| u in s.tokens && s.tokens[u] != -1 && s.tokens[u] == p;
      assert after[u] == p;
    }
    forall u | u in s.tokens && s.tokens[u] != -1
      ensures s.tokens[u] in s.used
    {
    }
  }

  lemma PortlessExact(s: State, t: Token)
    requires Exact(s) && (t in s.tokens ==> s.tokens[t] == -1)
    ensures Exact(s.(tokens := s.tokens[t := -1], autonomy := s.autonomy + {t}))
  {
    var after := s.tokens[t := -1];
    forall p | p in s.used
      ensures p in Held(after)
    {
      var u :| u in s.tokens && s.tokens[u] != -1 && s.tokens[u] == p;
      assert after[u] == p;
    }
  }

  lemma DropExact(s: State, gone: set<Token>)
    requires Exact(s) && forall t | t in gone && t in s.tokens :: s.tokens[t] == -1
    ensures Exact(Drop(s, gone))
  {
    var after := s.tokens - gone;
    forall p | p in s.used
      ensures p in Held(after)
    {
      var u :| u in s.tokens && s.tokens[u] != -1 && s.tokens[u] == p;
      assert after[u] == p;
    }
  }

  /** Removing a token returns its port and no other. */
  lemma ReturnExact(s: State, t: Token)
    requires Exact(s) && t in s.tokens
    ensures Exact(Drop(s, {t}).(connectors := Unpoint(s.connectors, t), used := s.used - {s.tokens[t]}))
  {
    var after := s.tokens - {t};
    forall p | p in s.used - {s.tokens[t]}
      ensures p in Held(after)
    {
      var u :| u in s.tokens && s.tokens[u] != -1 && s.tokens[u] == p;
      assert after[u] == p;
    }
    forall p | p in Held(after)
      ensures p in s.used && p != s.tokens[t]
    {
      var u :| u in after && after[u] != -1 && after[u] == p;
      assert s.tokens[u] == p;
    }
  }

  lemma InternalExact(s: State, t: Token)
    requires Exact(s) && (t in s.internal ==> Portless(s.tokens, s.internal[t]))
    ensures Exact(DropInternal(s, t))
  {
    if t in s.internal {
      forall u | u in Members(s.internal[t]) && u in s.tokens
        ensures s.tokens[u] == -1
      {
        var i :| 0 <= i < |s.internal[t]| && s.internal[t][i] == u;
      }
      DropExact(s, Members(s.internal[t]));
    }
  }

  lemma RemoveExact(s: State, t: Token)
    requires Exact(s) && (t in s.internal ==> Portless(s.tokens, s.internal[t]))
    ensures Exact(Remove(s, t))
  {
    InternalExact(s, t);
    var u := DropInternal(s, t);
    if t !in u.connectors && t in u.tokens {
      ReturnExact(u, t);
    }
  }

  /** A listed internal token that holds a port is forgotten with its port
      still in use. */
  lemma RemoveLeaks(s: State, t: Token, name: Token)
    requires Exact(s) && t in s.internal && name in s.internal[t] && name in s.tokens && s.tokens[name] != -1
    ensures s.tokens[name] in Remove(s, t).used && s.tokens[name] !in Held(Remove(s, t).tokens)
  {
    var p, u, v := s.tokens[name], DropInternal(s, t), Remove(s, t);
    assert p in Held(s.tokens);
    assert name !in u.tokens;
    forall x | x in v.tokens
      ensures v.tokens[x] != p
    {
      assert x in s.tokens && s.tokens[x] == v.tokens[x] && x != name;
    }
  }

  /** Removing a token keeps the pool exact if and only if none of the internal
      tokens listed for it holds a port. */
  lemma RemoveExactIff(s: State, t: Token)
    requires Exact(s)
    ensures Exact(Remove(s, t)) <==> (t in s.internal ==> Portless(s.tokens, s.internal[t]))
  {
    if t in s.internal && !Portless(s.tokens, s.internal[t]) {
      var i :| 0 <= i < |s.internal[t]| && s.internal[t][i] in s.tokens && s.tokens[s.internal[t][i]] != -1;
      RemoveLeaks(s, t, s.internal[t][i]);
    } else {
      RemoveExact(s, t);
    }
  }

  /** A client chooses its own internal name. Joining keeps the pool exact if
      and only if the name does not hold a port already. */
  lemma JoinExactIff(s: State, parent: Token, name: Token)
    requires Exact(s)
    ensures Exact(Join(s, parent, name)) <==>
              !(parent in s.tokens && parent in s.autonomy && name in s.tokens && s.tokens[name] != -1)
  {
    var t := Join(s, parent, name);
    if parent in s.tokens && parent in s.autonomy {
      if name in s.tokens && s.tokens[name] != -1 {
        var p := s.tokens[name];
        assert p in Held(s.tokens);
        assert forall x | x in t.tokens && x != name :: x in s.tokens && t.tokens[x] == s.tokens[x];
        assert p !in Held(t.tokens);
      } else {
        PortlessExact(s, name);
      }
    }
  }

  // ------------------------------------------------------------- every run

  lemma AddKeeps(ports: seq<int>, s: State, r: Request)
    requires Inv(s) && Positive(ports) && Startable(ports, r.start) && Fair(s, Add(r))
    ensures Inv(AddReverse(ports, s, r).0)
  {
    var t := NameOf(r);
    if r.token != "anonymous" && !(r.token != "" && Exists(s, r.token)) {
      if r.autonomy {
        PortlessExact(s, t);
      } else {
        var p := Pick(ports, s.used, r.port, r.start);
        if r.port == 0 {
          PickAny(ports, s.used, r.start);
        }
        if p.Some? {
          GainExact(s, t, p.value);
        }
      }
      AddInternal(s, AddReverse(ports, s, r).0, t);
    }
  }

  lemma AddInternal(s: State, t: State, name: Token)
    requires InternalOk(s) && Unlisted(s, name) && t.internal == s.internal
    requires t.tokens == s.tokens || (name in t.tokens && t.tokens == s.tokens[name := t.tokens[name]])
    ensures InternalOk(t)
  {
    forall p | p in t.internal
      ensures Portless(t.tokens, t.internal[p])
    {
      assert Portless(s.tokens, s.internal[p]);
    }
  }

  lemma JoinKeeps(s: State, parent: Token, name: Token)
    requires Inv(s) && Fair(s, Joined(parent, name))
    ensures Inv(Join(s, parent, name))
  {
    if parent in s.tokens && parent in s.autonomy {
      PortlessExact(s, name);
      var t := Join(s, parent, name);
      assert t.used == s.used && Exact(t);
      forall p | p in t.internal
        ensures Portless(t.tokens, t.internal[p])
      {
        if p in s.internal {
          assert Portless(s.tokens, s.internal[p]);
        }
      }
    }
  }

  lemma RemoveKeeps(s: State, t: Token)
    requires Inv(s)
    ensures Inv(Remove(s, t))
  {
    RemoveExact(s, t);
    var u := Remove(s, t);
    forall p | p in u.internal
      ensures Portless(u.tokens, u.internal[p])
    {
      assert p in s.internal && u.internal[p] == s.internal[p] && Portless(s.tokens, s.internal[p]);
      assert forall x | x in u.tokens :: x in s.tokens && u.tokens[x] == s.tokens[x];
    }
  }

  /** Over any sequence of calls, live reverse tokens hold pairwise distinct
      positive ports and the ports in use are exactly those. */
  lemma {:induction false} PortsExact(ports: seq<int>, evs: seq<Event>)
    requires Positive(ports) && AllFair(ports, evs)
    ensures Inv(Run(ports, evs))
    decreases |evs|
  {
    if evs != [] {
      PortsExact(ports, evs[..|evs| - 1]);
      var s, ev := Run(ports, evs[..|evs| - 1]), evs[|evs| - 1];
      match ev
      case Add(r) =>
        if Startable(ports, r.start) {
          AddKeeps(ports, s, r);
        }
      case Joined(parent, name) => JoinKeeps(s, parent, name);
      case Removed(t) => RemoveKeeps(s, t);
      case _ =>
    }
  }

  /** What the last condition is for: a token named like a removed internal
      token loses its port when the autonomy token goes. */
  lemma ReusedInternalName(ports: seq<int>)
    requires Startable(ports, 0)
    ensures var s1 := AddReverse(ports, EMPTY, Request("a", 0, true, "", 0)).0;
            var s2 := Remove(Join(s1, "a", "x"), "x");
            var s3 := AddReverse(ports, s2, Request("x", 5, false, "", 0)).0;
            && "x" in s3.tokens && s3.tokens["x"] == 5 && s3.used == {5}
            && Remove(s3, "a").used == {5} && Remove(s3, "a").tokens == map[]
  {
    var s1 := AddReverse(ports, EMPTY, Request("a", 0, true, "", 0)).0;
    assert s1.tokens == map["a" := -1];
    var j := Join(s1, "a", "x");
    assert [] + ["x"] == ["x"];
    assert j.tokens == map["a" := -1, "x" := -1] && j.internal == map["a" := ["x"]];
    var s2 := Remove(j, "x");
    assert s2.tokens == map["a" := -1] && s2.used == {} && s2.internal == map["a" := ["x"]];
    var s3 := AddReverse(ports, s2, Request("x", 5, false, "", 0)).0;
    assert s3.tokens == map["a" := -1, "x" := 5] && s3.used == {5};
    assert Members(["x"]) == {"x"} by {
      assert "x" in ["x"];
    }
    var u := DropInternal(s3, "a");
    assert u.tokens == map["a" := -1];
  }

  // --------------------------------------------------------------- the object

  class TokenRegistry {
    const pool: Pool
    var tokens: map<Token, int>
    var autonomy: set<Token>
    var internal: map<Token, seq<Token>>
    var connectors: map<Token, Token>
    var forwards: set<Token>

    ghost function View(): State
      reads this, pool
    {
      State(tokens, autonomy, internal, connectors, forwards, pool.used)
    }

    constructor (pool: Pool)
      requires pool.used == {}
      ensures View() == EMPTY && this.pool == pool
    {
      this.pool := pool;
      tokens, autonomy, internal, connectors, forwards := map[], {}, map[], map[], {};
    }

    method AddReverseToken(r: Request) returns (port: Option<int>)
      requires Startable(pool.ports, r.start)
      modifies this, pool
      ensures (View(), port) == AddReverse(pool.ports, old(View()), r)
    {
      if r.token == "anonymous" {
        return None;
      }
      if r.token != "" && (r.token in forwards || r.token in tokens || r.token in connectors) {
        return None;
      }
      var token := if r.token == "" then r.generated else r.token;
      if r.autonomy {
        tokens, autonomy := tokens[token := -1], autonomy + {token};
        return Some(-1);
      }
      if token in tokens {
        return Some(tokens[token]);
      }
      var granted := pool.Get(r.port, r.start);
      if granted == 0 {
        return None;
      }
      tokens, autonomy := tokens[token := granted], autonomy - {token};
      return Some(granted);
    }

    method JoinClient(parent: Token, name: Token)
      modifies this
      ensures View() == Join(old(View()), parent, name)
    {
      if parent in tokens && parent in autonomy {
        var names := if parent in internal then internal[parent] else [];
        tokens, autonomy := tokens[name := -1], autonomy + {name};
        internal := internal[parent := names + [name]];
      }
    }

    method DropInternalTokens(token: Token)
      modifies `tokens, `autonomy, `internal
      ensures View() == DropInternal(old(View()), token)
    {
      if token in internal {
        var names := internal[token];
        var i := 0;
        while i < |names|
          invariant 0 <= i <= |names| && internal == old(internal)
          invariant tokens == old(tokens) - Members(names[..i]) && autonomy == old(autonomy) - Members(names[..i])
        {
          MembersMore(names, i);
          tokens, autonomy := tokens - {names[i]}, autonomy - {names[i]};
          i := i + 1;
        }
        assert names[..i] == names;
        internal := internal - {token};
      }
    }

    /** The connector tokens of a reverse token go with it, in any order. */
    method DropConnectors(token: Token)
      modifies `connectors
      ensures connectors == Unpoint(old(connectors), token)
    {
      var rest := connectors.Keys;
      while rest != {}
        invariant rest <= old(connectors).Keys
        invariant forall c | c in connectors :: c in old(connectors) && connectors[c] == old(connectors)[c]
        invariant forall c | c in old(connectors) :: c in connectors <==> c in rest || old(connectors)[c] != token
        decreases |rest|
      {
        var c :| c in rest;
        if connectors[c] == token {
          connectors := connectors - {c};
        }
        rest := rest - {c};
      }
    }

    method RemoveToken(token: Token)
      modifies this, pool
      ensures View() == Remove(old(View()), token)
    {
      DropInternalTokens(token);
      if token in connectors {
        connectors := connectors - {token};
        return;
      }
      if token in tokens {
        var port := tokens[token];
        DropConnectors(token);
        tokens, autonomy := tokens - {token}, autonomy - {token};
        pool.Put(port);
        return;
      }
      forwards := forwards - {token};
    }
  }
}
