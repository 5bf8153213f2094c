/**
  The ports that TCP proxies expose on the gateway (mct/cmd/mct-docker-proxy/tcp_proxy.go,
  `NewTCPProxy` and the deferred calls of `Run`).
 */
module PortExpose {

  /**
    A proxy opens its listener, is exposed or refused, and serves until its listener fails; then `Run`
    first unexposes the port and afterwards closes `quit`, which cuts its clients. Construction fails
    when an expose is refused, and leaves the listener open.
   */
  datatype Phase = Opened | Refused | Listening | Stopping | Unexposed | Quit

  datatype Proxy = Proxy(port: nat, v4: bool, phase: Phase)

  /** The gateway's exposed local ports, and every proxy whose construction was begun. */
  datatype State = State(exposed: set<nat>, proxies: seq<Proxy>)

  /** A request can be lost on its way, or reach the gateway and lose its answer: an error in both cases. */
  datatype Post = Lost | Unanswered | Answered

  datatype Event =
    | Listen(port: nat, v4: bool)
    | Expose(p: nat, post: Post)
    | AcceptFails(p: nat)
    | Unexpose(p: nat, post: Post)
    | CloseQuit(p: nat)

  predicate Enabled(s: State, e: Event) {
    match e
    case Listen(_, _) => true
    case Expose(p, _) => p < |s.proxies| && s.proxies[p].phase.Opened?
    case AcceptFails(p) => p < |s.proxies| && s.proxies[p].phase.Listening?
    case Unexpose(p, _) => p < |s.proxies| && s.proxies[p].phase.Stopping?
    case CloseQuit(p) => p < |s.proxies| && s.proxies[p].phase.Unexposed?
  }

  function SetPhase(s: State, p: nat, phase: Phase): State
    requires p < |s.proxies|
  {
    s.(proxies := s.proxies[p := s.proxies[p].(phase := phase)])
  }

  /** The proxy sees its exposure accepted: the request was answered and the local address was free. */
  predicate Accepted(s: State, port: nat, post: Post) {
    post.Answered? && port !in s.exposed
  }

  /** Only IPv4 frontends are exposed, but every proxy unexposes its port. */
  function Step(s: State, e: Event): State
    requires Enabled(s, e)
  {
    match e
    case Listen(port, v4) => s.(proxies := s.proxies + [Proxy(port, v4, Opened)])
    case Expose(p, post) =>
      var port := s.proxies[p].port;
      if !s.proxies[p].v4 then SetPhase(s, p, Listening)
      else SetPhase(s, p, if Accepted(s, port, post) then Listening else Refused).(
        exposed := if post.Lost? then s.exposed else s.exposed + {port})
    case AcceptFails(p) => SetPhase(s, p, Stopping)
    case Unexpose(p, post) =>
      SetPhase(s, p, Unexposed).(exposed := if post.Lost? then s.exposed else s.exposed - {s.proxies[p].port})
    case CloseQuit(p) => SetPhase(s, p, Quit)
  }

  ghost predicate IsHistory(tr: seq<State>, es: seq<Event>) {
    && |tr| == |es| + 1
    && tr[0] == State({}, [])
    && forall i :: 0 <= i < |es| ==> Enabled(tr[i], es[i]) && tr[i + 1] == Step(tr[i], es[i])
  }

  // ----- exposed ports and live proxies -----

  /** Constructed on an IPv4 address and not yet unexposed. A refused one was never constructed. */
  predicate Live(p: Proxy) {
    p.v4 && (p.phase.Listening? || p.phase.Stopping?)
  }

  ghost predicate ExactlyLivePorts(s: State) {
    && (forall i :: 0 <= i < |s.proxies| && Live(s.proxies[i]) ==> s.proxies[i].port in s.exposed)
    && (forall port :: port in s.exposed ==>
          exists i :: 0 <= i < |s.proxies| && Live(s.proxies[i]) && s.proxies[i].port == port)
  }

  ghost predicate DistinctLivePorts(s: State) {
    forall i, j :: 0 <= i < j < |s.proxies| && Live(s.proxies[i]) && Live(s.proxies[j]) ==>
      s.proxies[i].port != s.proxies[j].port
  }

  /** The gateway knows exactly the live IPv4 proxies, one per port. */
  ghost predicate Consistent(s: State) {
    ExactlyLivePorts(s) && DistinctLivePorts(s)
  }

  /**
    The events that break this: the answer to an applied expose is lost, so that the port stays without
    a proxy; a stopping IPv6 proxy unexposes the port of a live IPv4 proxy; or the unexpose request of a
    stopping IPv4 proxy is lost.
   */
  ghost predicate Breaks(s: State, e: Event)
    requires Enabled(s, e)
  {
    match e
    case Expose(p, post) => s.proxies[p].v4 && post.Unanswered? && s.proxies[p].port !in s.exposed
    case Unexpose(p, post) =>
      if s.proxies[p].v4 then post.Lost?
      else
        && !post.Lost?
        && exists i :: 0 <= i < |s.proxies| && Live(s.proxies[i]) && s.proxies[i].port == s.proxies[p].port
    case _ => false
  }

  lemma ListenKeepsConsistent(s: State, e: Event)
    requires Consistent(s) && e.Listen?
    ensures Consistent(Step(s, e))
  {
    var s' := Step(s, e);
    forall port | port in s'.exposed
      ensures exists i :: 0 <= i < |s'.proxies| && Live(s'.proxies[i]) && s'.proxies[i].port == port
    {
      var i :| 0 <= i < |s.proxies| && Live(s.proxies[i]) && s.proxies[i].port == port;
      assert s'.proxies[i] == s.proxies[i];
    }
  }

  lemma ExposeConsistent(s: State, e: Event)
    requires Consistent(s) && e.Expose? && Enabled(s, e)
    ensures Consistent(Step(s, e)) <==> !Breaks(s, e)
  {
    var s', p := Step(s, e), s.proxies[e.p];
    assert forall i :: 0 <= i < |s.proxies| && i != e.p ==> s'.proxies[i] == s.proxies[i];
    assert forall i :: 0 <= i < |s.proxies| && Live(s.proxies[i]) ==> i != e.p;
    if Breaks(s, e) {
      assert p.port in s'.exposed;
      assert forall i :: 0 <= i < |s'.proxies| && Live(s'.proxies[i]) ==> s'.proxies[i].port != p.port;
    } else {
      forall port | port in s'.exposed
        ensures exists i :: 0 <= i < |s'.proxies| && Live(s'.proxies[i]) && s'.proxies[i].port == port
      {
        if port in s.exposed {
          var i :| 0 <= i < |s.proxies| && Live(s.proxies[i]) && s.proxies[i].port == port;
          assert s'.proxies[i] == s.proxies[i];
        } else {
          assert s'.proxies[e.p].port == port && Live(s'.proxies[e.p]);
        }
      }
    }
  }

  lemma PhaseChangeKeepsConsistent(s: State, e: Event)
    requires Consistent(s) && (e.AcceptFails? || e.CloseQuit?) && Enabled(s, e)
    ensures Consistent(Step(s, e))
  {
    var s' := Step(s, e);
    assert forall i :: 0 <= i < |s.proxies| ==>
      Live(s'.proxies[i]) == Live(s.proxies[i]) && s'.proxies[i].port == s.proxies[i].port;
    forall port | port in s'.exposed
      ensures exists i :: 0 <= i < |s'.proxies| && Live(s'.proxies[i]) && s'.proxies[i].port == port
    {
      var i :| 0 <= i < |s.proxies| && Live(s.proxies[i]) && s.proxies[i].port == port;
      assert Live(s'.proxies[i]);
    }
  }

  lemma UnexposeConsistent(s: State, e: Event)
    requires Consistent(s) && e.Unexpose? && Enabled(s, e)
    ensures Consistent(Step(s, e)) <==> !Breaks(s, e)
  {
    var s' := Step(s, e);
    var p := s.proxies[e.p];
    assert forall i :: 0 <= i < |s.proxies| && i != e.p ==> s'.proxies[i] == s.proxies[i];
    assert !Live(s'.proxies[e.p]);
    if Breaks(s, e) {
      if p.v4 {
        assert p.port in s'.exposed;
        assert forall i :: 0 <= i < |s.proxies| && Live(s'.proxies[i]) ==> s'.proxies[i].port != p.port;
      } else {
        var i :| 0 <= i < |s.proxies| && Live(s.proxies[i]) && s.proxies[i].port == p.port;
        assert Live(s'.proxies[i]);
      }
    } else {
      forall port | port in s'.exposed
        ensures exists i :: 0 <= i < |s'.proxies| && Live(s'.proxies[i]) && s'.proxies[i].port == port
      {
        var i :| 0 <= i < |s.proxies| && Live(s.proxies[i]) && s.proxies[i].port == port;
        assert i != e.p;
        assert Live(s'.proxies[i]);
      }
    }
  }

  /** From a consistent state, an event leads to a consistent one exactly if it is not one of those. */
  lemma StepConsistent(s: State, e: Event)
    requires Consistent(s) && Enabled(s, e)
    ensures Consistent(Step(s, e)) <==> !Breaks(s, e)
  {
    match e
    case Listen(_, _) => ListenKeepsConsistent(s, e);
    case Expose(_, _) => ExposeConsistent(s, e);
    case Unexpose(_, _) => UnexposeConsistent(s, e);
    case _ => PhaseChangeKeepsConsistent(s, e);
  }

  lemma {:induction false} UnbrokenIsConsistent(tr: seq<State>, es: seq<Event>, n: nat)
    requires IsHistory(tr, es) && n < |tr|
    requires forall i :: 0 <= i < n ==> !Breaks(tr[i], es[i])
    ensures Consistent(tr[n])
  {
    if n > 0 {
      UnbrokenIsConsistent(tr, es, n - 1);
      StepConsistent(tr[n - 1], es[n - 1]);
    }
  }

  /** Over any history: the gateway agrees with the live proxies throughout exactly if nothing breaks it. */
  lemma HistoryConsistent(tr: seq<State>, es: seq<Event>)
    requires IsHistory(tr, es)
    ensures (forall i :: 0 <= i < |tr| ==> Consistent(tr[i])) <==> (forall i :: 0 <= i < |es| ==> !Breaks(tr[i], es[i]))
  {
    if forall i :: 0 <= i < |tr| ==> Consistent(tr[i]) {
      forall i | 0 <= i < |es|
        ensures !Breaks(tr[i], es[i])
      {
        StepConsistent(tr[i], es[i]);
        assert Consistent(tr[i + 1]);
      }
    } else if forall i :: 0 <= i < |es| ==> !Breaks(tr[i], es[i]) {
      forall i | 0 <= i < |tr|
        ensures Consistent(tr[i])
      {
        UnbrokenIsConsistent(tr, es, i);
      }
    }
  }

  predicate V4WithPosts(e: Event) {
    match e
    case Listen(_, v4) => v4
    case Expose(_, post) => post.Answered?
    case Unexpose(_, post) => post.Answered?
    case _ => true
  }

  lemma {:induction false} OnlyV4Proxies(tr: seq<State>, es: seq<Event>, n: nat)
    requires IsHistory(tr, es) && n < |tr| && forall i :: 0 <= i < |es| ==> V4WithPosts(es[i])
    ensures forall p :: 0 <= p < |tr[n].proxies| ==> tr[n].proxies[p].v4
  {
    if n > 0 {
      OnlyV4Proxies(tr, es, n - 1);
      assert V4WithPosts(es[n - 1]);
    }
  }

  /**
    Over any history of IPv4 proxies whose requests go through, the exposed ports are at every moment
    exactly those of the proxies constructed and not yet unexposed, each of them once.
   */
  lemma V4HistoryConsistent(tr: seq<State>, es: seq<Event>, n: nat)
    requires IsHistory(tr, es) && n < |tr| && forall i :: 0 <= i < |es| ==> V4WithPosts(es[i])
    ensures Consistent(tr[n])
  {
    forall i | 0 <= i < n
      ensures !Breaks(tr[i], es[i])
    {
      OnlyV4Proxies(tr, es, i);
      assert V4WithPosts(es[i]);
    }
    UnbrokenIsConsistent(tr, es, n);
  }

  /** Every proxy unexposes its port before it cuts its clients. */
  lemma {:induction false} UnexposeComesFirst(tr: seq<State>, es: seq<Event>, n: nat, p: nat) returns (i: nat)
    requires IsHistory(tr, es) && n < |tr| && p < |tr[n].proxies|
    requires tr[n].proxies[p].phase.Unexposed? || tr[n].proxies[p].phase.Quit?
    ensures i < n && es[i].Unexpose? && es[i].p == p
  {
    if es[n - 1].Unexpose? && es[n - 1].p == p {
      i := n - 1;
    } else {
      i := UnexposeComesFirst(tr, es, n - 1, p);
    }
  }

  /** A refused proxy keeps its listener and is never unexposed: nothing happens to it any more. */
  lemma {:induction false} RefusedStaysRefused(tr: seq<State>, es: seq<Event>, n: nat, m: nat, p: nat)
    requires IsHistory(tr, es) && n <= m < |tr| && p < |tr[n].proxies| && tr[n].proxies[p].phase.Refused?
    ensures p < |tr[m].proxies| && tr[m].proxies[p] == tr[n].proxies[p]
    ensures m < |es| ==> !es[m].Listen? ==> es[m].p != p
    decreases m
  {
    if n < m {
      RefusedStaysRefused(tr, es, n, m - 1, p);
    }
  }

  /** The run that breaks the equality: an IPv6 proxy stops while an IPv4 proxy serves the same port. */
  lemma StoppingV6CutsV4(port: nat) returns (tr: seq<State>, es: seq<Event>)
    ensures IsHistory(tr, es) && forall i :: 0 <= i < |es| ==>
      (es[i].Expose? || es[i].Unexpose? ==> es[i].post.Answered?)
    ensures var s := tr[|es|]; |s.proxies| == 2 && Live(s.proxies[0]) && s.proxies[0].port == port && s.exposed == {}
  {
    var s0 := State({}, []);
    es := [Listen(port, true), Expose(0, Answered), Listen(port, false), Expose(1, Answered), AcceptFails(1),
           Unexpose(1, Answered)];
    var s1 := Step(s0, es[0]);
    var s2 := Step(s1, es[1]);
    var s3 := Step(s2, es[2]);
    var s4 := Step(s3, es[3]);
    var s5 := Step(s4, es[4]);
    var s6 := Step(s5, es[5]);
    tr := [s0, s1, s2, s3, s4, s5, s6];
    assert s6.proxies[0] == s2.proxies[0] == Proxy(port, true, Listening);
    assert s6.exposed == {};
  }

  // ----- the Go code -----

  /** The gateway and the TCP proxies of one host, as an object. */
  class TCPProxies {
    var exposed: set<nat>
    var proxies: seq<Proxy>

    function Abs(): State
      reads this
    {
      State(exposed, proxies)
    }

    constructor ()
      ensures Abs() == State({}, [])
    {
      exposed, proxies := {}, [];
    }

    /** `NewTCPProxy`: listen, then expose an IPv4 frontend, and fail with the listener open if that fails. */
    method NewTCPProxy(port: nat, v4: bool, post: Post) returns (ok: bool)
      modifies this
      ensures var begun := Step(old(Abs()), Listen(port, v4)); Abs() == Step(begun, Expose(|old(proxies)|, post))
      ensures ok == (!v4 || Accepted(old(Abs()), port, post))
      ensures proxies == old(proxies) + [Proxy(port, v4, if ok then Listening else Refused)]
      ensures exposed == if v4 && !post.Lost? then old(exposed) + {port} else old(exposed)
      ensures old(Consistent(Abs())) && !Consistent(Abs()) ==> v4 && post.Unanswered? && !ok
    {
      ghost var s := Abs();
      proxies := proxies + [Proxy(port, v4, Opened)];
      ghost var begun := Abs();
      ok := !v4;
      if v4 {
        ok := post.Answered? && port !in exposed;
        if !post.Lost? {
          exposed := exposed + {port};
        }
      }
      proxies := proxies[|proxies| - 1 := Proxy(port, v4, if ok then Listening else Refused)];
      if Consistent(s) {
        ListenKeepsConsistent(s, Listen(port, v4));
        ExposeConsistent(begun, Expose(|s.proxies|, post));
      }
    }

    /** The deferred function `unexpose` of `Run`; an error is only logged. */
    method UnexposePort(p: nat, post: Post)
      requires Enabled(Abs(), Unexpose(p, post))
      modifies this
      ensures Abs() == Step(old(Abs()), Unexpose(p, post))
    {
      if !post.Lost? {
        exposed := exposed - {proxies[p].port};
      }
      proxies := proxies[p := proxies[p].(phase := Unexposed)];
    }

    /** The end of `Run`: `Accept` fails, then the deferred calls run in reverse order of their deferral. */
    method EndRun(p: nat, post: Post)
      requires Enabled(Abs(), AcceptFails(p))
      modifies this
      ensures proxies == old(proxies)[p := old(proxies)[p].(phase := Quit)]
      ensures exposed == if post.Lost? then old(exposed) else old(exposed) - {old(proxies)[p].port}
      ensures old(Consistent(Abs())) ==>
        (Consistent(Abs()) <==> !Breaks(Step(old(Abs()), AcceptFails(p)), Unexpose(p, post)))
    {
      ghost var s := Abs();
      proxies := proxies[p := proxies[p].(phase := Stopping)];
      ghost var stopping := Abs();
      UnexposePort(p, post);
      ghost var unexposed := Abs();
      proxies := proxies[p := proxies[p].(phase := Quit)];
      if Consistent(s) {
        PhaseChangeKeepsConsistent(s, AcceptFails(p));
        UnexposeConsistent(stopping, Unexpose(p, post));
        QuitChangesNothing(unexposed, Abs(), p);
      }
    }
  }

  /** Closing `quit` is of no concern to the gateway. */
  lemma QuitChangesNothing(s: State, s': State, p: nat)
    requires p < |s.proxies| && s.proxies[p].phase.Unexposed? && s' == SetPhase(s, p, Quit)
    ensures Consistent(s') <==> Consistent(s)
  {
    assert forall i :: 0 <= i < |s.proxies| ==>
      Live(s'.proxies[i]) == Live(s.proxies[i]) && s'.proxies[i].port == s.proxies[i].port;
  }
}
