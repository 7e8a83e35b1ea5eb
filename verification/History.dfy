/** Whole histories: the events a run actually puts through `apply`, in order, whether
    delivered directly or taken from the buffer. */
module History {
  import opened Names
  import opened Lifecycle
  import opened Reducer

  /** The facts after applying each event in turn; refused ones may leave their small trace. */
  ghost function RunFacts(f: Facts, es: seq<Event>): Facts {
    if es == [] then f else Apply(RunFacts(f, es[..|es| - 1]), es[|es| - 1]).result
  }

  lemma RunFactsSnoc(f: Facts, es: seq<Event>, e: Event)
    ensures RunFacts(f, es + [e]) == Apply(RunFacts(f, es), e).result
  {
    hide Apply;
    assert (es + [e])[..|es|] == es;
  }

  lemma {:induction false} RunFactsConcat(f: Facts, a: seq<Event>, b: seq<Event>)
    ensures RunFacts(f, a + b) == RunFacts(RunFacts(f, a), b)
  {
    hide Apply;
    if b == [] {
      assert a + b == a;
    } else {
      var n := |b| - 1;
      assert a + b == (a + b[..n]) + [b[n]];
      RunFactsSnoc(f, a + b[..n], b[n]);
      RunFactsConcat(f, a, b[..n]);
    }
  }

  // ---------------------------------------------------------------- the log of one delivery

  /** The buffered events one replay pass puts through `apply`. */
  ghost function PassLog(s: State, ids: seq<string>): seq<Event>
    requires Distinct(ids) && forall id :: id in ids ==> id in s.ledger.pending
    decreases |ids|
  {
    if ids == [] then []
    else if Blocked(s, s.ledger.pending[ids[0]]) then
      assert forall id :: id in ids[1..] ==> id in ids;
      PassLog(s, ids[1..])
    else
      assert forall id :: id in ids[1..] ==> id in ids && id != ids[0];
      [s.ledger.pending[ids[0]]] + PassLog(Promote(s, ids[0]), ids[1..])
  }

  ghost function ReplayLog(s: State, e: Event): seq<Event>
    decreases |s.ledger.pending|
  {
    var ids := Eligible(s.ledger, e);
    if ids == {} then []
    else
      var r := ReplayPass(s, Ascending(ids), ReasonAccepted);
      PassLog(s, Ascending(ids)) + if r.moved then ReplayLog(r.state, e) else []
  }

  ghost function DeliveryLog(s: State, raw: Event): seq<Event> {
    var e := Normalize(raw);
    if Admit(s, e) != Ready then []
    else [e] + if Apply(s.facts, e).ok then ReplayLog(Settled(s, e), e) else []
  }

  ghost function Log(s: State, es: seq<Event>): seq<Event> {
    if es == [] then [] else Log(s, es[..|es| - 1]) + DeliveryLog(Run(s, es[..|es| - 1]), es[|es| - 1])
  }

  // ---------------------------------------------------------------- the log explains the facts

  /** The reason handed to a pass never decides what it does. */
  lemma {:induction false} PassReason(s: State, ids: seq<string>, a: Reason, b: Reason)
    requires Distinct(ids) && forall id :: id in ids ==> id in s.ledger.pending
    ensures ReplayPass(s, ids, a).state == ReplayPass(s, ids, b).state
    ensures ReplayPass(s, ids, a).moved == ReplayPass(s, ids, b).moved
    decreases |ids|
  {
    hide Promote, Apply, Record, Blocked, Within;
    if ids != [] {
      assert forall id :: id in ids[1..] ==> id in ids && id != ids[0];
      if Blocked(s, s.ledger.pending[ids[0]]) {
        PassReason(s, ids[1..], a, b);
      } else {
        PassReason(Promote(s, ids[0]), ids[1..], ReasonAfter(s, ids[0], a), ReasonAfter(s, ids[0], b));
      }
    }
  }

  lemma OneFact(f: Facts, e: Event)
    ensures RunFacts(f, [e]) == Apply(f, e).result
  {
    hide Apply;
    RunFactsSnoc(f, [], e);
    assert [] + [e] == [e];
  }

  lemma {:induction false} PassFacts(s: State, ids: seq<string>, reason: Reason)
    requires Distinct(ids) && forall id :: id in ids ==> id in s.ledger.pending
    ensures ReplayPass(s, ids, reason).state.facts == RunFacts(s.facts, PassLog(s, ids))
    decreases |ids|
  {
    hide Apply;
    if ids != [] {
      assert forall id :: id in ids[1..] ==> id in ids && id != ids[0];
      if Blocked(s, s.ledger.pending[ids[0]]) {
        PassFacts(s, ids[1..], reason);
      } else {
        var t := Promote(s, ids[0]);
        OneFact(s.facts, s.ledger.pending[ids[0]]);
        PassFacts(t, ids[1..], ReasonAfter(s, ids[0], reason));
        RunFactsConcat(s.facts, [s.ledger.pending[ids[0]]], PassLog(t, ids[1..]));
      }
    }
  }

  lemma {:induction false} ReplayFacts(s: State, e: Event, reason: Reason)
    ensures Replay(s, e, reason).state.facts == RunFacts(s.facts, ReplayLog(s, e))
    decreases |s.ledger.pending|
  {
    hide Apply;
    var ids := Eligible(s.ledger, e);
    if ids != {} {
      var xs := Ascending(ids);
      PassReason(s, xs, reason, ReasonAccepted);
      PassFacts(s, xs, reason);
      var r := ReplayPass(s, xs, reason);
      if r.moved {
        ReplayFacts(r.state, e, r.reason);
        RunFactsConcat(s.facts, PassLog(s, xs), ReplayLog(r.state, e));
      } else {
        assert PassLog(s, xs) + [] == PassLog(s, xs);
      }
    }
  }

  lemma DeliveryFacts(s: State, raw: Event)
    ensures Next(s, raw).facts == RunFacts(s.facts, DeliveryLog(s, raw))
  {
    hide Apply;
    var e := Normalize(raw);
    if Admit(s, e) == Ready {
      OneFact(s.facts, e);
      if Apply(s.facts, e).ok {
        var t := Settled(s, e);
        ReplayFacts(t, e, Apply(s.facts, e).reason);
        RunFactsConcat(s.facts, [e], ReplayLog(t, e));
      } else {
        assert [e] + [] == [e];
      }
    }
  }

  /** Every reachable state's facts are the log applied in order from the starting facts. */
  lemma {:induction false} RunIsLog(s: State, es: seq<Event>)
    ensures Run(s, es).facts == RunFacts(s.facts, Log(s, es))
  {
    hide Reduce;
    if es != [] {
      var n := |es| - 1;
      RunIsLog(s, es[..n]);
      DeliveryFacts(Run(s, es[..n]), es[n]);
      RunFactsConcat(s.facts, Log(s, es[..n]), DeliveryLog(Run(s, es[..n]), es[n]));
    }
  }

  // ---------------------------------------------------------------- the log holds only deliveries

  ghost predicate AllBuffered(log: seq<Event>, buffer: map<string, Event>) {
    forall e :: e in log ==> exists k :: k in buffer && buffer[k] == e
  }

  lemma BufferedCons(e: Event, k: string, rest: seq<Event>, small: map<string, Event>, big: map<string, Event>)
    requires AllBuffered(rest, small) && Within(small, big) && k in big && big[k] == e
    ensures AllBuffered([e] + rest, big)
  {
    forall x | x in [e] + rest ensures exists j :: j in big && big[j] == x {
      if x in rest {
        var j :| j in small && small[j] == x;
        assert j in big && big[j] == x;
      }
    }
  }

  lemma BufferedConcat(a: seq<Event>, b: seq<Event>, small: map<string, Event>, big: map<string, Event>)
    requires AllBuffered(a, big) && AllBuffered(b, small) && Within(small, big)
    ensures AllBuffered(a + b, big)
  {
    forall x | x in a + b ensures exists j :: j in big && big[j] == x {
      if x !in a {
        var j :| j in small && small[j] == x;
        assert j in big && big[j] == x;
      }
    }
  }

  lemma {:induction false} PassBuffered(s: State, ids: seq<string>)
    requires Distinct(ids) && forall id :: id in ids ==> id in s.ledger.pending
    ensures AllBuffered(PassLog(s, ids), s.ledger.pending)
    decreases |ids|
  {
    hide Apply;
    if ids != [] {
      assert forall id :: id in ids[1..] ==> id in ids && id != ids[0];
      if Blocked(s, s.ledger.pending[ids[0]]) {
        PassBuffered(s, ids[1..]);
      } else {
        var t := Promote(s, ids[0]);
        PassBuffered(t, ids[1..]);
        BufferedCons(s.ledger.pending[ids[0]], ids[0], PassLog(t, ids[1..]), t.ledger.pending, s.ledger.pending);
      }
    }
  }

  lemma {:induction false} ReplayBuffered(s: State, e: Event)
    ensures AllBuffered(ReplayLog(s, e), s.ledger.pending)
    decreases |s.ledger.pending|
  {
    hide Apply;
    var ids := Eligible(s.ledger, e);
    if ids != {} {
      var xs := Ascending(ids);
      PassBuffered(s, xs);
      var r := ReplayPass(s, xs, ReasonAccepted);
      if r.moved {
        ReplayBuffered(r.state, e);
        BufferedConcat(PassLog(s, xs), ReplayLog(r.state, e), r.state.ledger.pending, s.ledger.pending);
      } else {
        assert PassLog(s, xs) + [] == PassLog(s, xs);
      }
    }
  }

  predicate Among(e: Event, es: seq<Event>) {
    exists i :: 0 <= i < |es| && e == Normalize(es[i])
  }

  ghost predicate BufferAmong(buffer: map<string, Event>, es: seq<Event>) {
    forall k :: k in buffer ==> Among(buffer[k], es)
  }

  lemma AmongGrows(e: Event, es: seq<Event>, more: Event)
    requires Among(e, es)
    ensures Among(e, es + [more])
  {
    var i :| 0 <= i < |es| && e == Normalize(es[i]);
    assert (es + [more])[i] == es[i];
  }

  lemma DeliveryAmong(s: State, raw: Event, es: seq<Event>)
    requires BufferAmong(s.ledger.pending, es)
    ensures BufferAmong(Next(s, raw).ledger.pending, es + [raw])
    ensures forall x :: x in DeliveryLog(s, raw) ==> Among(x, es + [raw])
  {
    hide Apply, Normalize, Record;
    var all := es + [raw];
    forall k | k in s.ledger.pending ensures Among(s.ledger.pending[k], all) {
      AmongGrows(s.ledger.pending[k], es, raw);
    }
    var e := Normalize(raw);
    assert all[|es|] == raw;
    assert Among(e, all);
    if Admit(s, e) == Ready {
      var t := Settled(s, e);
      assert t.ledger.pending == s.ledger.pending;
      if Apply(s.facts, e).ok {
        ReplayBuffered(t, e);
        assert Within(Replay(t, e, Apply(s.facts, e).reason).state.ledger.pending, t.ledger.pending);
      }
    }
  }

  /** Nothing enters the log that was not delivered. */
  lemma {:induction false} LogAmong(repositoryId: string, es: seq<Event>)
    ensures BufferAmong(Run(NewState(repositoryId), es).ledger.pending, es)
    ensures forall x :: x in Log(NewState(repositoryId), es) ==> Among(x, es)
  {
    hide Reduce, DeliveryLog;
    if es != [] {
      var s := NewState(repositoryId);
      var n := |es| - 1;
      LogAmong(repositoryId, es[..n]);
      DeliveryAmong(Run(s, es[..n]), es[n], es[..n]);
      assert es == es[..n] + [es[n]];
      forall x | x in Log(s, es) ensures Among(x, es) {
        if x in Log(s, es[..n]) {
          AmongGrows(x, es[..n], es[n]);
        }
      }
    }
  }
}
