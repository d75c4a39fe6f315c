/**
 * A simulated Field Day caller: one pass of the polling loop of
 * `thread_function`, and the loop itself run over a finite sequence of polls.
 */
module CallerAgent {
  import opened Wrappers
  import opened Text
  import opened Scorer
  import opened IdentityGenerator
  import opened Messages

  datatype AgentState = CQ | ResolvingCall | CallResolved

  /** What the operator has typed into the callsign, class and section fields. */
  datatype Guesses = Guesses(callsign: string, klass: string, section: string)

  /**
   * Everything one pass reads: the caller's locals (`current_state`,
   * `answered_message`, the identity), the shared `message` and
   * `call_resolved`, the operator's fields, and the draws a QRZ would use
   * for the caller's next identity. `answered_message` starts as Python's
   * `False`, which equals no string: `None` here.
   */
  datatype TickInput = TickInput(
    state: AgentState,
    message: string,
    answered: Option<string>,
    callResolved: bool,
    identity: Identity,
    guesses: Guesses,
    nextDraws: IdentityDraws)

  /**
   * Everything one pass changes: the locals, the shared `call_resolved`, the
   * phrases handed to the `morse` program in order, whether the shared
   * `message` is cleared to "", and whether the loop breaks.
   */
  datatype TickOutput = TickOutput(
    state: AgentState,
    answered: Option<string>,
    callResolved: bool,
    identity: Identity,
    sent: seq<string>,
    clearMessage: bool,
    stop: bool)

  function TuPhrase(id: Identity): string { "tu " + id.klass + " " + id.section }

  function DePhrase(id: Identity): string { "de " + id.callsign + " " + id.klass + " " + id.section }

  function ClassRepeat(id: Identity): string { id.klass + " " + id.klass }

  function SectionRepeat(id: Identity): string { id.section + " " + id.section }

  /** The values a pass threads from one block of the loop body to the next. */
  datatype Progress = Progress(
    state: AgentState,
    callResolved: bool,
    identity: Identity,
    sent: seq<string>,
    clearMessage: bool)

  /** A "CQ " message resets the caller, which then answers with its callsign. */
  function CqBlock(p: Progress, msg: string): (r: Progress)
    ensures r.identity == p.identity && r.callResolved == p.callResolved && r.clearMessage == p.clearMessage
  {
    var p := if Contains(msg, CqKey) then p.(state := CQ) else p;
    if p.state == CQ && Contains(msg, CqKey) then
      p.(sent := p.sent + [p.identity.callsign], state := ResolvingCall)
    else p
  }

  /**
   * PARTIAL while resolving: an exact guess confirms with "rr"; otherwise the
   * callsign is repeated when `(not call_resolved and error < 1.0) or guess == "?"`.
   */
  function PartialBlock(p: Progress, msg: string, guess: string): (r: Progress)
    ensures r.identity == p.identity && r.clearMessage == p.clearMessage
    ensures p.callResolved ==> r.callResolved
  {
    if p.state == ResolvingCall && Contains(msg, PartialKey) then
      var lev := EditDistance(p.identity.callsign, guess);
      if lev == 0 then
        p.(sent := p.sent + ["rr"], state := CallResolved, callResolved := true)
      else if (!p.callResolved && lev < |p.identity.callsign|) || guess == "?" then
        p.(sent := p.sent + [p.identity.callsign])
      else p
    else p
  }

  /**
   * RESPONSE while resolving: an exact guess answers "tu class section";
   * otherwise `not call_resolved and error < 0.5` asserts the identity.
   */
  function ResponseBlock(p: Progress, msg: string, guess: string): (r: Progress)
    ensures r.identity == p.identity && r.clearMessage == p.clearMessage
    ensures p.callResolved ==> r.callResolved
  {
    if p.state == ResolvingCall && Contains(msg, ResponseKey) then
      var lev := EditDistance(p.identity.callsign, guess);
      if lev == 0 then
        p.(sent := p.sent + [TuPhrase(p.identity)], state := CallResolved, callResolved := true)
      else if !p.callResolved && 2 * lev < |p.identity.callsign| then
        p.(sent := p.sent + [DePhrase(p.identity)])
      else p
    else p
  }

  /** Once resolved: the four independent tests of the last block. */
  function ResolvedBlock(p: Progress, msg: string, nextDraws: IdentityDraws): (r: Progress)
    requires ValidIdentityDraws(nextDraws)
    ensures r.callResolved == p.callResolved
    ensures r.clearMessage && !p.clearMessage ==>
              Contains(msg, QrzKey) && r.state == CQ && r.identity == NewIdentity(nextDraws)
    ensures !r.clearMessage ==> !p.clearMessage && r.identity == p.identity
    ensures p.clearMessage ==> r.clearMessage
  {
    if p.state == CallResolved then
      var p := if Contains(msg, ResponseKey) then p.(sent := p.sent + [TuPhrase(p.identity)]) else p;
      var p := if Contains(msg, ResendClassKey) then p.(sent := p.sent + [ClassRepeat(p.identity)]) else p;
      var p := if Contains(msg, ResendSectionKey) then p.(sent := p.sent + [SectionRepeat(p.identity)]) else p;
      if Contains(msg, QrzKey) then
        p.(identity := NewIdentity(nextDraws), clearMessage := true, state := CQ)
      else p
    else p
  }

  /** The caller's threshold tests need a non-empty callsign: `run_ltest` divides by its length. */
  predicate TickReady(t: TickInput)
  {
    |t.identity.callsign| > 0 && ValidIdentityDraws(t.nextDraws)
  }

  /** One pass of the `while True` loop of `thread_function`. */
  function Tick(t: TickInput): (out: TickOutput)
    requires TickReady(t)
    ensures out.stop <==> Contains(t.message, DieKey)
    ensures out.stop || t.answered == Some(t.message) ==>
              && out.state == t.state && out.answered == t.answered
              && out.callResolved == t.callResolved && out.identity == t.identity
              && out.sent == [] && !out.clearMessage
    ensures !out.stop ==> out.answered == Some(t.message)
    ensures t.callResolved ==> out.callResolved
    ensures out.clearMessage ==> Contains(t.message, QrzKey) && out.state == CQ && out.identity == NewIdentity(t.nextDraws)
    ensures !out.clearMessage ==> out.identity == t.identity
    ensures WellFormedIdentity(t.identity) ==> WellFormedIdentity(out.identity)
    ensures |out.identity.callsign| > 0
  {
    if Contains(t.message, DieKey) then
      TickOutput(t.state, t.answered, t.callResolved, t.identity, [], false, true)
    else if t.answered == Some(t.message) then
      TickOutput(t.state, t.answered, t.callResolved, t.identity, [], false, false)
    else
      var p := Progress(t.state, t.callResolved, t.identity, [], false);
      var p := CqBlock(p, t.message);
      var p := PartialBlock(p, t.message, t.guesses.callsign);
      var p := ResponseBlock(p, t.message, t.guesses.callsign);
      var p := ResolvedBlock(p, t.message, t.nextDraws);
      TickOutput(p.state, Some(t.message), p.callResolved, p.identity, p.sent, p.clearMessage, false)
  }

  // ---------------------------------------------------------------------
  // One pass on each message the operator's buttons can leave
  // ---------------------------------------------------------------------

  /** The error level of the operator's callsign guess against the caller's callsign. */
  function Score(t: TickInput): real
    requires |t.identity.callsign| > 0
  {
    RunLTest(t.identity.callsign, t.guesses.callsign).value
  }

  /** "DIE " stops the caller from any state, changing and sending nothing. */
  lemma TickOnDie(t: TickInput)
    requires TickReady(t) && t.message == Render(Die)
    ensures var out := Tick(t);
            out.stop && out.sent == [] && out.state == t.state
            && out.callResolved == t.callResolved && out.identity == t.identity
  {
    DispatchKeys(Die);
  }

  /** A message already answered is ignored: nothing changes and nothing is sent. */
  lemma TickOnAnswered(t: TickInput, m: Message)
    requires TickReady(t) && t.message == Render(m) && !m.Die?
    requires t.answered == Some(t.message)
    ensures var out := Tick(t);
            !out.stop && out.sent == [] && out.state == t.state && out.answered == t.answered
            && out.callResolved == t.callResolved && out.identity == t.identity && !out.clearMessage
  {
    DispatchKeys(m);
  }

  /** A new CQ, in any state: the caller sends exactly its callsign and waits to be resolved. */
  lemma TickOnCq(t: TickInput, stamp: Stamp)
    requires TickReady(t) && t.message == Render(Cq(stamp)) && t.answered != Some(t.message)
    ensures Tick(t) == TickOutput(ResolvingCall, Some(t.message), t.callResolved, t.identity,
                                  [t.identity.callsign], false, false)
  {
    DispatchKeys(Cq(stamp));
  }

  /**
   * A new PARTIAL only matters while resolving: an exact guess confirms with
   * "rr" and resolves; otherwise the callsign is repeated when
   * `(not call_resolved and score < 1.0) or guess == "?"`.
   */
  lemma TickOnPartial(t: TickInput, stamp: Stamp)
    requires TickReady(t) && t.message == Render(Partial(stamp)) && t.answered != Some(t.message)
    ensures var out := Tick(t);
            !out.stop && out.answered == Some(t.message) && out.identity == t.identity && !out.clearMessage
    ensures var out := Tick(t);
            t.state != ResolvingCall ==>
              out.state == t.state && out.callResolved == t.callResolved && out.sent == []
    ensures var out := Tick(t);
            var score, guess := Score(t), t.guesses.callsign;
            t.state == ResolvingCall ==>
              if score == 0.0 then
                out.state == CallResolved && out.callResolved && out.sent == ["rr"]
              else
                && out.state == ResolvingCall && out.callResolved == t.callResolved
                && out.sent == if (!t.callResolved && score < 1.0) || guess == "?" then [t.identity.callsign] else []
  {
    DispatchKeys(Partial(stamp));
  }

  /**
   * A new RESPONSE: while resolving, an exact guess resolves and, since the
   * resolved block runs in the same pass, "tu class section" goes out twice;
   * otherwise `not call_resolved and score < 0.5` sends "de callsign class
   * section". Once resolved, "tu class section" goes out once.
   */
  lemma TickOnResponse(t: TickInput, stamp: Stamp)
    requires TickReady(t) && t.message == Render(Response(stamp)) && t.answered != Some(t.message)
    ensures var out := Tick(t);
            !out.stop && out.answered == Some(t.message) && out.identity == t.identity && !out.clearMessage
    ensures var out := Tick(t);
            t.state == CQ ==> out.state == CQ && out.callResolved == t.callResolved && out.sent == []
    ensures var out := Tick(t);
            t.state == CallResolved ==>
              out.state == CallResolved && out.callResolved == t.callResolved && out.sent == [TuPhrase(t.identity)]
    ensures var out := Tick(t);
            var score := Score(t);
            t.state == ResolvingCall ==>
              if score == 0.0 then
                && out.state == CallResolved && out.callResolved
                && out.sent == [TuPhrase(t.identity), TuPhrase(t.identity)]
              else
                && out.state == ResolvingCall && out.callResolved == t.callResolved
                && out.sent == if !t.callResolved && score < 0.5 then [DePhrase(t.identity)] else []
  {
    DispatchKeys(Response(stamp));
    var msg, guess := t.message, t.guesses.callsign;
    var p0 := Progress(t.state, t.callResolved, t.identity, [], false);
    assert CqBlock(p0, msg) == p0;
    assert PartialBlock(p0, msg, guess) == p0;
    var p3 := ResponseBlock(p0, msg, guess);
    EditDistanceZeroIff(t.identity.callsign, guess);
    if t.state == ResolvingCall && EditDistance(t.identity.callsign, guess) == 0 {
      assert p3 == p0.(sent := [TuPhrase(t.identity)], state := CallResolved, callResolved := true);
      assert ResolvedBlock(p3, msg, t.nextDraws) == p3.(sent := [TuPhrase(t.identity), TuPhrase(t.identity)]);
    } else if t.state == ResolvingCall {
      assert p3.state == ResolvingCall;
      assert ResolvedBlock(p3, msg, t.nextDraws) == p3;
    } else if t.state == CallResolved {
      assert p3 == p0;
      assert ResolvedBlock(p3, msg, t.nextDraws) == p0.(sent := [TuPhrase(t.identity)]);
    }
  }

  /** A new RESENDCLASS: a resolved caller repeats its class twice; others do nothing. */
  lemma TickOnResendClass(t: TickInput, stamp: Stamp)
    requires TickReady(t) && t.message == Render(ResendClass(stamp)) && t.answered != Some(t.message)
    ensures var out := Tick(t);
            && !out.stop && out.answered == Some(t.message) && out.identity == t.identity && !out.clearMessage
            && out.state == t.state && out.callResolved == t.callResolved
            && out.sent == if t.state == CallResolved then [ClassRepeat(t.identity)] else []
  {
    DispatchKeys(ResendClass(stamp));
  }

  /** A new RESENDSECTION: a resolved caller repeats its section twice; others do nothing. */
  lemma TickOnResendSection(t: TickInput, stamp: Stamp)
    requires TickReady(t) && t.message == Render(ResendSection(stamp)) && t.answered != Some(t.message)
    ensures var out := Tick(t);
            && !out.stop && out.answered == Some(t.message) && out.identity == t.identity && !out.clearMessage
            && out.state == t.state && out.callResolved == t.callResolved
            && out.sent == if t.state == CallResolved then [SectionRepeat(t.identity)] else []
  {
    DispatchKeys(ResendSection(stamp));
  }

  /**
   * A new QRZ: a resolved caller takes a new well-formed identity drawn from
   * `nextDraws`, clears the shared message and goes back to CQ, sending
   * nothing; others do nothing.
   */
  lemma TickOnQrz(t: TickInput, stamp: Stamp)
    requires TickReady(t) && t.message == Render(Qrz(stamp)) && t.answered != Some(t.message)
    ensures var out := Tick(t);
            && !out.stop && out.answered == Some(t.message) && out.sent == []
            && out.callResolved == t.callResolved
    ensures var out := Tick(t);
            t.state == CallResolved ==>
              && out.state == CQ && out.clearMessage
              && out.identity == NewIdentity(t.nextDraws) && WellFormedIdentity(out.identity)
    ensures var out := Tick(t);
            t.state != CallResolved ==> out.state == t.state && out.identity == t.identity && !out.clearMessage
  {
    DispatchKeys(Qrz(stamp));
  }

  /** The empty message (after a QRZ or a round reset) is answered without any effect. */
  lemma TickOnNoMessage(t: TickInput)
    requires TickReady(t) && t.message == Render(NoMessage) && t.answered != Some(t.message)
    ensures Tick(t) == TickOutput(t.state, Some(""), t.callResolved, t.identity, [], false, false)
  {
    DispatchKeys(NoMessage);
  }

  // ---------------------------------------------------------------------
  // The polling loop
  // ---------------------------------------------------------------------

  /** A caller's own locals between two passes. */
  datatype Agent = Agent(state: AgentState, answered: Option<string>, identity: Identity)

  /**
   * What happens before one pass: the operator may have pressed a button,
   * which overwrites the shared message, and has typed some guesses; `nextDraws`
   * are the draws a QRZ in this pass would use.
   */
  datatype Poll = Poll(broadcast: Option<string>, guesses: Guesses, nextDraws: IdentityDraws)

  datatype RunResult = RunResult(agent: Agent, message: string, callResolved: bool, sent: seq<string>, stopped: bool)

  predicate ValidPolls(polls: seq<Poll>)
  {
    forall i :: 0 <= i < |polls| ==> ValidIdentityDraws(polls[i].nextDraws)
  }

  /** `generate_callsign()`, `generate_class()` and `generate_section(callsign)`, run in that order. */
  method DrawIdentity(d: IdentityDraws) returns (id: Identity)
    requires ValidIdentityDraws(d)
    ensures id == NewIdentity(d)
  {
    var callsign := GenerateCallsign(d.call);
    var klass := GenerateClass(d.category, d.number);
    SectionOfGeneratedCallsign(d.call, d.sectionPick);
    var section := GenerateSection(callsign, d.sectionPick).value;
    id := Identity(callsign, klass, section);
  }

  /** The start of `thread_function`: an identity drawn from `d`, state CQ, nothing answered yet. */
  function InitialAgent(d: IdentityDraws): (a: Agent)
    requires ValidIdentityDraws(d)
    ensures WellFormedIdentity(a.identity)
  {
    Agent(CQ, None, NewIdentity(d))
  }

  function PollInput(a: Agent, message: string, callResolved: bool, p: Poll): TickInput
  {
    TickInput(a.state, message, a.answered, callResolved, a.identity, p.guesses, p.nextDraws)
  }

  function Seen(message: string, p: Poll): string
  {
    if p.broadcast.Some? then p.broadcast.value else message
  }

  /**
   * The loop over a sequence of polls: the phrases of every pass in order,
   * until a pass sees "DIE " and breaks. Every identity the caller holds is
   * well-formed.
   */
  function Run(a: Agent, message: string, callResolved: bool, polls: seq<Poll>): (r: RunResult)
    requires WellFormedIdentity(a.identity) && ValidPolls(polls)
    ensures WellFormedIdentity(r.agent.identity)
    ensures r.stopped ==> Contains(r.message, DieKey)
    decreases |polls|
  {
    if polls == [] then RunResult(a, message, callResolved, [], false)
    else
      var msg := Seen(message, polls[0]);
      var out := Tick(PollInput(a, msg, callResolved, polls[0]));
      if out.stop then RunResult(a, msg, callResolved, [], true)
      else
        var rest := Run(Agent(out.state, out.answered, out.identity),
                        if out.clearMessage then "" else msg, out.callResolved, polls[1..]);
        assert ValidPolls(polls[1..]);
        Join(out.sent, rest)
  }

  /** The phrases `sent` go out before those of the run `r`. */
  function Join(sent: seq<string>, r: RunResult): RunResult
  {
    r.(sent := sent + r.sent)
  }

  lemma JoinJoin(s1: seq<string>, s2: seq<string>, r: RunResult)
    ensures Join(s1, Join(s2, r)) == Join(s1 + s2, r)
  {
    assert s1 + (s2 + r.sent) == (s1 + s2) + r.sent;
  }

  /** One poll of the loop, unfolded. */
  lemma RunStep(a: Agent, message: string, callResolved: bool, polls: seq<Poll>)
    requires WellFormedIdentity(a.identity) && ValidPolls(polls) && polls != []
    ensures ValidIdentityDraws(polls[0].nextDraws) && ValidPolls(polls[1..])
    ensures var msg := Seen(message, polls[0]);
            var out := Tick(PollInput(a, msg, callResolved, polls[0]));
            Run(a, message, callResolved, polls) ==
              if out.stop then RunResult(a, msg, callResolved, [], true)
              else Join(out.sent, Run(Agent(out.state, out.answered, out.identity),
                                      if out.clearMessage then "" else msg, out.callResolved, polls[1..]))
  {
    assert ValidIdentityDraws(polls[0].nextDraws);
    assert ValidPolls(polls[1..]);
  }

  /** Poll `i` of the loop, unfolded behind the phrases already sent. */
  lemma RunAfterPass(sent: seq<string>, a: Agent, message: string, callResolved: bool, polls: seq<Poll>, i: nat)
    requires i < |polls|
    requires WellFormedIdentity(a.identity) && ValidPolls(polls[i..])
    ensures ValidIdentityDraws(polls[i].nextDraws) && ValidPolls(polls[i + 1..])
    ensures var msg := Seen(message, polls[i]);
            var out := Tick(PollInput(a, msg, callResolved, polls[i]));
            && WellFormedIdentity(out.identity)
            && (out.stop ==> Join(sent, Run(a, message, callResolved, polls[i..])) == RunResult(a, msg, callResolved, sent, true))
            && (!out.stop ==>
                  Join(sent, Run(a, message, callResolved, polls[i..]))
                  == Join(sent + out.sent, Run(Agent(out.state, out.answered, out.identity),
                                               if out.clearMessage then "" else msg, out.callResolved, polls[i + 1..])))
  {
    RunStep(a, message, callResolved, polls[i..]);
    assert polls[i..][0] == polls[i] && polls[i..][1..] == polls[i + 1..];
    var msg := Seen(message, polls[i]);
    var out := Tick(PollInput(a, msg, callResolved, polls[i]));
    if !out.stop {
      JoinJoin(sent, out.sent, Run(Agent(out.state, out.answered, out.identity),
                                   if out.clearMessage then "" else msg, out.callResolved, polls[i + 1..]));
    }
  }

  /** Once the shared flag is set, no later pass of this caller clears it. */
  lemma {:induction false} RunKeepsResolved(a: Agent, message: string, polls: seq<Poll>)
    requires WellFormedIdentity(a.identity) && ValidPolls(polls)
    ensures Run(a, message, true, polls).callResolved
    decreases |polls|
  {
    if polls != [] {
      var msg := Seen(message, polls[0]);
      var out := Tick(PollInput(a, msg, true, polls[0]));
      if !out.stop {
        assert ValidPolls(polls[1..]);
        RunKeepsResolved(Agent(out.state, out.answered, out.identity),
                         if out.clearMessage then "" else msg, polls[1..]);
      }
    }
  }

  /**
   * A message gets one reaction only: when the next poll brings no press
   * (the usual case between two passes) or rewrites the same text, the
   * second pass sends nothing.
   */
  lemma SameBroadcastAnsweredOnce(a: Agent, message: string, callResolved: bool, p1: Poll, p2: Poll)
    requires WellFormedIdentity(a.identity) && ValidIdentityDraws(p1.nextDraws) && ValidIdentityDraws(p2.nextDraws)
    requires p2.broadcast.None? || p2.broadcast == Some(Seen(message, p1))
    ensures Run(a, message, callResolved, [p1, p2]).sent == Run(a, message, callResolved, [p1]).sent
  {
    var msg := Seen(message, p1);
    var out := Tick(PollInput(a, msg, callResolved, p1));
    RunStep(a, message, callResolved, [p1, p2]);
    RunStep(a, message, callResolved, [p1]);
    if !out.stop {
      var a' := Agent(out.state, out.answered, out.identity);
      var m' := if out.clearMessage then "" else msg;
      assert [p1, p2][1..] == [p2];
      assert [p1][1..] == [];
      RunStep(a', m', out.callResolved, [p2]);
      var out2 := Tick(PollInput(a', Seen(m', p2), out.callResolved, p2));
      if Seen(m', p2) == msg {
        assert out2.sent == [] && !out2.stop;
      } else {
        // The first pass answered a QRZ and cleared the message; "" then has no effect.
        assert Seen(m', p2) == "" == Render(NoMessage);
        assert out.answered == Some(msg) && msg != "";
        TickOnNoMessage(PollInput(a', Seen(m', p2), out.callResolved, p2));
      }
      assert Run(a', m', out.callResolved, [p2]).sent == [];
    }
  }

  /** A poll that broadcasts a new CQ: the callsign goes out and the caller waits to be resolved. */
  lemma RunOnCq(a: Agent, message: string, callResolved: bool, t: Stamp, g: Guesses, f: IdentityDraws, rest: seq<Poll>)
    requires WellFormedIdentity(a.identity) && ValidIdentityDraws(f) && ValidPolls(rest)
    requires a.answered != Some(Render(Cq(t)))
    ensures var polls := [Poll(Some(Render(Cq(t))), g, f)] + rest;
            ValidPolls(polls) &&
            Run(a, message, callResolved, polls)
              == Join([a.identity.callsign],
                      Run(Agent(ResolvingCall, Some(Render(Cq(t))), a.identity), Render(Cq(t)), callResolved, rest))
  {
    var p := Poll(Some(Render(Cq(t))), g, f);
    var polls := [p] + rest;
    assert polls[0] == p && polls[1..] == rest;
    assert ValidPolls(polls);
    TickOnCq(PollInput(a, Render(Cq(t)), callResolved, p), t);
    RunStep(a, message, callResolved, polls);
  }

  /** A poll that broadcasts a new PARTIAL while resolving, with the exact callsign typed: "rr" and resolved. */
  lemma RunOnExactPartial(a: Agent, message: string, callResolved: bool, t: Stamp, g: Guesses, f: IdentityDraws, rest: seq<Poll>)
    requires WellFormedIdentity(a.identity) && ValidIdentityDraws(f) && ValidPolls(rest)
    requires a.state == ResolvingCall && a.answered != Some(Render(Partial(t)))
    requires g.callsign == a.identity.callsign
    ensures var polls := [Poll(Some(Render(Partial(t))), g, f)] + rest;
            ValidPolls(polls) &&
            Run(a, message, callResolved, polls)
              == Join(["rr"], Run(Agent(CallResolved, Some(Render(Partial(t))), a.identity), Render(Partial(t)), true, rest))
  {
    var p := Poll(Some(Render(Partial(t))), g, f);
    var polls := [p] + rest;
    assert polls[0] == p && polls[1..] == rest;
    assert ValidPolls(polls);
    EditDistanceZeroIff(a.identity.callsign, g.callsign);
    TickOnPartial(PollInput(a, Render(Partial(t)), callResolved, p), t);
    RunStep(a, message, callResolved, polls);
  }

  /** Once resolved after a PARTIAL, QRZ gives the caller a fresh identity back in CQ, and DIE stops it. */
  lemma QrzThenDie(id: Identity, g: Guesses, f: IdentityDraws, t2: Stamp, t3: Stamp)
    requires WellFormedIdentity(id) && ValidIdentityDraws(f)
    ensures var polls := [Poll(Some(Render(Qrz(t3))), g, f), Poll(Some(Render(Die)), g, f)];
            ValidPolls(polls) &&
            Run(Agent(CallResolved, Some(Render(Partial(t2))), id), Render(Partial(t2)), true, polls)
              == RunResult(Agent(CQ, Some(Render(Qrz(t3))), NewIdentity(f)), Render(Die), true, [], true)
  {
    var m2, m3, m4 := Render(Partial(t2)), Render(Qrz(t3)), Render(Die);
    var p3, p4 := Poll(Some(m3), g, f), Poll(Some(m4), g, f);
    var a2, a3 := Agent(CallResolved, Some(m2), id), Agent(CQ, Some(m3), NewIdentity(f));
    assert [p3, p4][1..] == [p4] && [p4][1..] == [];
    RenderInjective(Partial(t2), Qrz(t3));
    TickOnQrz(PollInput(a2, m3, true, p3), t3);
    RunStep(a2, m2, true, [p3, p4]);
    TickOnDie(PollInput(a3, m4, true, p4));
    RunStep(a3, "", true, [p4]);
  }

  /**
   * A contact up to resolution: CQ, then PARTIAL with the exact callsign
   * typed; the caller sent its callsign and "rr" and is resolved.
   */
  lemma ContactResolves(d: IdentityDraws, f: IdentityDraws, g: Guesses, t1: Stamp, t2: Stamp)
    requires ValidIdentityDraws(d) && ValidIdentityDraws(f)
    requires g.callsign == NewIdentity(d).callsign
    ensures var polls := [Poll(Some(Render(Cq(t1))), g, f), Poll(Some(Render(Partial(t2))), g, f)];
            var r := Run(InitialAgent(d), "", false, polls);
            && r.agent == Agent(CallResolved, Some(Render(Partial(t2))), NewIdentity(d))
            && r.callResolved && !r.stopped
            && r.sent == [NewIdentity(d).callsign, "rr"]
  {
    var id := NewIdentity(d);
    var m1, m2 := Render(Cq(t1)), Render(Partial(t2));
    var p1, p2 := Poll(Some(m1), g, f), Poll(Some(m2), g, f);
    RenderInjective(Cq(t1), Partial(t2));
    RunOnExactPartial(Agent(ResolvingCall, Some(m1), id), m1, false, t2, g, f, []);
    RunOnCq(InitialAgent(d), "", false, t1, g, f, [p2] + []);
    assert [p1] + ([p2] + []) == [p1, p2];
    assert [p2] + [] == [p2];
  }

  /** From resolving: an exact PARTIAL, QRZ and DIE send only "rr" and leave a fresh identity in CQ. */
  lemma ExactPartialThenQrzThenDie(id: Identity, m1: string, g: Guesses, f: IdentityDraws, t2: Stamp, t3: Stamp)
    requires WellFormedIdentity(id) && ValidIdentityDraws(f)
    requires g.callsign == id.callsign && m1 != Render(Partial(t2))
    ensures var polls := [Poll(Some(Render(Partial(t2))), g, f), Poll(Some(Render(Qrz(t3))), g, f), Poll(Some(Render(Die)), g, f)];
            ValidPolls(polls) &&
            Run(Agent(ResolvingCall, Some(m1), id), m1, false, polls)
              == RunResult(Agent(CQ, Some(Render(Qrz(t3))), NewIdentity(f)), Render(Die), true, ["rr"], true)
  {
    var p2 := Poll(Some(Render(Partial(t2))), g, f);
    var tail := [Poll(Some(Render(Qrz(t3))), g, f), Poll(Some(Render(Die)), g, f)];
    QrzThenDie(id, g, f, t2, t3);
    RunOnExactPartial(Agent(ResolvingCall, Some(m1), id), m1, false, t2, g, f, tail);
    assert [p2] + tail == [p2, tail[0], tail[1]];
  }

  /**
   * A whole contact: after CQ and an exact PARTIAL, QRZ gives the caller a
   * fresh identity back in CQ, and DIE stops it; only the callsign and "rr"
   * went out.
   */
  lemma ContactScenario(d: IdentityDraws, f: IdentityDraws, g: Guesses, t1: Stamp, t2: Stamp, t3: Stamp)
    requires ValidIdentityDraws(d) && ValidIdentityDraws(f)
    requires g.callsign == NewIdentity(d).callsign
    ensures var polls := [Poll(Some(Render(Cq(t1))), g, f), Poll(Some(Render(Partial(t2))), g, f),
                          Poll(Some(Render(Qrz(t3))), g, f), Poll(Some(Render(Die)), g, f)];
            var r := Run(InitialAgent(d), "", false, polls);
            && r.stopped && r.callResolved && r.agent.state == CQ
            && r.agent.identity == NewIdentity(f)
            && r.sent == [NewIdentity(d).callsign, "rr"]
  {
    var m1 := Render(Cq(t1));
    var p1 := Poll(Some(m1), g, f);
    var rest := [Poll(Some(Render(Partial(t2))), g, f), Poll(Some(Render(Qrz(t3))), g, f), Poll(Some(Render(Die)), g, f)];
    RenderInjective(Cq(t1), Partial(t2));
    ExactPartialThenQrzThenDie(NewIdentity(d), m1, g, f, t2, t3);
    RunOnCq(InitialAgent(d), "", false, t1, g, f, rest);
    assert [p1] + rest == [p1, rest[0], rest[1], rest[2]];
  }

  // ---------------------------------------------------------------------
  // The shared fields and the caller thread
  // ---------------------------------------------------------------------

  /** The two fields of the main window that the callers share with the buttons. */
  class Station {
    var message: string
    var callResolved: bool

    constructor ()
      ensures message == "" && !callResolved
    {
      message := "";
      callResolved := false;
    }

    /**
     * `thread_function`: draws an identity, then polls until a pass breaks on
     * "DIE " or the polls run out; returns the phrases sent and whether it broke.
     */
    method RunCaller(draws: IdentityDraws, polls: seq<Poll>) returns (sent: seq<string>, stopped: bool)
      requires ValidIdentityDraws(draws) && ValidPolls(polls)
      modifies this
      ensures var r := Run(InitialAgent(draws), old(message), old(callResolved), polls);
              message == r.message && callResolved == r.callResolved && sent == r.sent && stopped == r.stopped
    {
      var identity := DrawIdentity(draws);
      sent, stopped := PollUntilDie(Agent(CQ, None, identity), polls);
    }

    /** The `while True` loop of `thread_function`, one pass per poll. */
    method PollUntilDie(start: Agent, polls: seq<Poll>) returns (sent: seq<string>, stopped: bool)
      requires WellFormedIdentity(start.identity) && ValidPolls(polls)
      modifies this
      ensures var r := Run(start, old(message), old(callResolved), polls);
              message == r.message && callResolved == r.callResolved && sent == r.sent && stopped == r.stopped
    {
      var agent := start;
      ghost var whole := Run(start, message, callResolved, polls);
      sent, stopped := [], false;
      assert polls[0..] == polls && [] + whole.sent == whole.sent;
      var i := 0;
      while i < |polls|
        invariant 0 <= i <= |polls|
        invariant WellFormedIdentity(agent.identity) && ValidPolls(polls[i..])
        invariant whole == Join(sent, Run(agent, message, callResolved, polls[i..]))
      {
        RunAfterPass(sent, agent, message, callResolved, polls, i);
        var phrases, stop;
        agent, phrases, stop := Pass(agent, polls[i]);
        if stop {
          stopped := true;
          return;
        }
        sent := sent + phrases;
        i := i + 1;
      }
      assert polls[i..] == [];
    }

    /** One pass of the loop body on the shared fields, after the poll's button press. */
    method Pass(agent: Agent, poll: Poll) returns (next: Agent, phrases: seq<string>, stop: bool)
      requires WellFormedIdentity(agent.identity) && ValidIdentityDraws(poll.nextDraws)
      modifies this
      ensures var msg := Seen(old(message), poll);
              var out := Tick(PollInput(agent, msg, old(callResolved), poll));
              && stop == out.stop && phrases == out.sent
              && next == (if stop then agent else Agent(out.state, out.answered, out.identity))
              && message == (if !stop && out.clearMessage then "" else msg)
              && callResolved == out.callResolved
    {
      if poll.broadcast.Some? {
        message := poll.broadcast.value;
      }
      var out := Tick(PollInput(agent, message, callResolved, poll));
      stop, phrases := out.stop, out.sent;
      if stop {
        return agent, phrases, stop;
      }
      next := Agent(out.state, out.answered, out.identity);
      callResolved := out.callResolved;
      if out.clearMessage {
        message := "";
      }
    }
  }
}
