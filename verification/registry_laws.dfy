/** What each registry call answers and changes, and when connector tokens go
    on pointing at live reverse tokens. */
module RegistryLaws {
  import opened Bytes
  import opened PortPool
  import opened Registry

  // ------------------------------------------------------------------ adding

  /** No port can be had: the requested one is taken, or all of the pool's. */
  ghost predicate NoPort(ports: seq<int>, used: set<int>, requested: int) {
    if requested != 0 then requested in used else forall i | 0 <= i < |ports| :: ports[i] in used
  }

  lemma PickIff(ports: seq<int>, used: set<int>, requested: int, start: nat)
    requires Startable(ports, start)
    ensures var p := Pick(ports, used, requested, start);
            && (p.None? <==> NoPort(ports, used, requested))
            && (p.Some? ==> p.value !in used && if requested != 0 then p.value == requested else p.value in ports)
  {
    if requested == 0 {
      PickAny(ports, used, start);
    }
  }

  /** The name is the reserved one or is taken. */
  predicate Denied(s: State, r: Request) {
    r.token == "anonymous" || (r.token != "" && (r.token in s.forwards || r.token in s.tokens || r.token in s.connectors))
  }

  /** A request is refused if and only if its name is not to be had, or it needs
      a port and there is none. */
  lemma AddRefusedIff(ports: seq<int>, s: State, r: Request)
    requires Positive(ports) && Startable(ports, r.start)
    ensures AddReverse(ports, s, r).1.None? <==>
              Denied(s, r) || (!r.autonomy && NameOf(r) !in s.tokens && NoPort(ports, s.used, r.port))
    ensures AddReverse(ports, s, r).1.None? ==> AddReverse(ports, s, r).0 == s
  {
    PickIff(ports, s.used, r.port, r.start);
  }

  /** The answer to a request is the port its token then holds. A new port was
      free, is the requested one or one of the pool, and is now in use; an
      autonomy token has none. Nothing else changes. */
  lemma AddAnswers(ports: seq<int>, s: State, r: Request)
    requires Positive(ports) && Startable(ports, r.start) && AddReverse(ports, s, r).1.Some?
    ensures var (t, p) := AddReverse(ports, s, r); var name := NameOf(r);
            && name in t.tokens && t.tokens[name] == p.value && t.tokens - {name} == s.tokens - {name}
            && t.connectors == s.connectors && t.forwards == s.forwards && t.internal == s.internal
            && (r.autonomy ==> p.value == -1 && name in t.autonomy && t.used == s.used)
            && (!r.autonomy && name in s.tokens ==> t == s)
            && (!r.autonomy && name !in s.tokens ==>
                  && p.value !in s.used && (if r.port != 0 then p.value == r.port else p.value in ports)
                  && t.used == s.used + {p.value} && name !in t.autonomy)
  {
    PickIff(ports, s.used, r.port, r.start);
  }

  // ---------------------------------------------------------------- removing

  /** The internal tokens listed for a token. */
  function Listed(s: State, t: Token): set<Token> { if t in s.internal then Members(s.internal[t]) else {} }

  /** Removing this name removes a reverse token of its own. */
  predicate Releases(s: State, t: Token) { t !in s.connectors && t in s.tokens && t !in Listed(s, t) }

  /** What is left after a token was removed: exactly the tokens that are neither
      it nor listed for it, the connectors that are not it and do not point at
      it, and all ports but its own. */
  lemma RemoveLeaves(s: State, t: Token)
    ensures var u := Remove(s, t);
            && (forall x :: x in u.tokens <==> x in s.tokens && x !in Listed(s, t) && !(x == t && Releases(s, t)))
            && (forall x | x in u.tokens :: u.tokens[x] == s.tokens[x])
            && (forall c :: c in u.connectors <==> c in s.connectors && c != t && !(Releases(s, t) && s.connectors[c] == t))
            && (forall c | c in u.connectors :: u.connectors[c] == s.connectors[c])
            && u.used == (if Releases(s, t) then s.used - {s.tokens[t]} else s.used)
            && u.forwards == (if t in s.connectors || Releases(s, t) then s.forwards else s.forwards - {t})
            && u.autonomy == s.autonomy - Listed(s, t) - (if Releases(s, t) then {t} else {}) && u.internal == s.internal - {t}
  {
  }

  /** A client that joins an autonomy token is listed for it under its internal
      name, which holds no port; anybody else changes nothing. */
  lemma JoinLists(s: State, parent: Token, name: Token)
    ensures var t := Join(s, parent, name);
            if parent in s.tokens && parent in s.autonomy
            then
              && Listed(t, parent) == Listed(s, parent) + {name} && t.internal - {parent} == s.internal - {parent}
              && t.tokens == s.tokens[name := -1] && name in t.autonomy && t.used == s.used && t.connectors == s.connectors
            else t == s
  {
    if parent in s.tokens && parent in s.autonomy {
      var names := if parent in s.internal then s.internal[parent] else [];
      assert Members(names + [name]) == Members(names) + {name};
    }
  }

  // -------------------------------------------------- where connectors point

  /** Every connector token points at a reverse token that exists. */
  ghost predicate Pointed(s: State) { forall c | c in s.connectors :: s.connectors[c] in s.tokens }

  /** A connector other than t points at an internal token listed for t. */
  ghost predicate PointsInside(s: State, t: Token) {
    exists c :: c in s.connectors && c != t && s.connectors[c] in Listed(s, t)
  }

  /** Removing a token leaves no connector dangling if and only if none points
      at an internal token that goes with it. */
  lemma RemovePointedIff(s: State, t: Token)
    requires Pointed(s)
    ensures Pointed(Remove(s, t)) <==> !PointsInside(s, t)
  {
    var u := Remove(s, t);
    RemoveLeaves(s, t);
    if PointsInside(s, t) {
      var c :| c in s.connectors && c != t && s.connectors[c] in Listed(s, t);
      assert c in u.connectors && u.connectors[c] !in u.tokens;
    } else {
      forall c | c in u.connectors
        ensures u.connectors[c] in u.tokens
      {
        assert s.connectors[c] !in Listed(s, t);
      }
    }
  }

  lemma OthersPointed(ports: seq<int>, s: State, ev: Event)
    requires Pointed(s) && !ev.Removed?
    ensures Pointed(Next(ports, s, ev))
  {
  }

  /** No removal takes away an internal token that a connector points at. */
  ghost predicate NothingInside(ports: seq<int>, evs: seq<Event>)
    decreases |evs|
  {
    evs != [] ==>
      && NothingInside(ports, evs[..|evs| - 1])
      && var last := evs[|evs| - 1]; last.Removed? ==> !PointsInside(Run(ports, evs[..|evs| - 1]), last.token)
  }

  /** In every such run every connector token points at a live reverse token. */
  lemma {:induction false} ConnectorsPointed(ports: seq<int>, evs: seq<Event>)
    requires NothingInside(ports, evs)
    ensures Pointed(Run(ports, evs))
    decreases |evs|
  {
    if evs != [] {
      var s, last := Run(ports, evs[..|evs| - 1]), evs[|evs| - 1];
      ConnectorsPointed(ports, evs[..|evs| - 1]);
      if last.Removed? {
        RemovePointedIff(s, last.token);
      } else {
        OthersPointed(ports, s, last);
      }
    }
  }

  /** A connector is accepted exactly for a target that exists and a name that
      is neither reserved nor taken, and then points at it. */
  lemma ConnectorAddedIff(s: State, token: Token, target: Token, generated: Token)
    ensures var t, name := AddConnector(s, token, target, generated), if token == "" then generated else token;
            if token != "anonymous" && target in s.tokens && !Exists(s, name)
            then t == s.(connectors := s.connectors[name := target]) else t == s
  {
  }

  /** A forward token is accepted exactly under a name that is neither reserved
      nor taken, or under a generated one. */
  lemma ForwardAddedIff(s: State, token: Token, generated: Token)
    ensures var t := AddForward(s, token, generated);
            if token == "" then t == s.(forwards := s.forwards + {generated})
            else if token != "anonymous" && !Exists(s, token) then t == s.(forwards := s.forwards + {token})
            else t == s
  {
  }

  /** An autonomy token, a client in it, a connector at the client's token: when
      the autonomy token goes the connector is left dangling. */
  lemma DanglingConnector(ports: seq<int>)
    requires Startable(ports, 0)
    ensures var s1 := AddReverse(ports, EMPTY, Request("a", 0, true, "", 0)).0;
            var s2 := AddConnector(Join(s1, "a", "i"), "c", "i", "");
            Pointed(s2) && !Pointed(Remove(s2, "a"))
  {
    var s1 := AddReverse(ports, EMPTY, Request("a", 0, true, "", 0)).0;
    var j := Join(s1, "a", "i");
    assert [] + ["i"] == ["i"];
    assert j.tokens == map["a" := -1, "i" := -1] && j.internal == map["a" := ["i"]];
    var s2 := AddConnector(j, "c", "i", "");
    assert s2.connectors == map["c" := "i"];
    assert "i" in Listed(s2, "a") by {
      assert "i" in ["i"];
    }
    RemovePointedIff(s2, "a");
  }
}
