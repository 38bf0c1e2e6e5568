/**
 * The terminal's confirmation handshake (src/cli/terminal.ts): confirm() parks a callback that the next
 * line answers, a timer cancels it after two minutes, lines typed while a command runs are buffered, and
 * "exit" may ask for a confirmation of its own while a command is still running.
 */
module Confirmations {
  import opened Wrappers
  import opened Letters

  /** Exactly the answers whose lower-case form is "yes" or "y". */
  predicate IsYes(s: string) {
    || (|s| == 1 && s[0] in {'y', 'Y'})
    || (|s| == 3 && s[0] in {'y', 'Y'} && s[1] in {'e', 'E'} && s[2] in {'s', 'S'})
  }

  predicate IsExit(s: string) {
    && |s| == 4
    && ((s[0] in {'e', 'E'} && s[1] in {'x', 'X'} && s[2] in {'i', 'I'} && s[3] in {'t', 'T'})
        || (s[0] in {'q', 'Q'} && s[1] in {'u', 'U'} && s[2] in {'i', 'I'} && s[3] in {'t', 'T'}))
  }

  /** The answers that count, told by their lower-case form. */
  lemma YesExactly(s: string)
    ensures IsYes(s) <==> Lower(s) == "yes" || Lower(s) == "y"
  {
    if Lower(s) == "yes" { assert "yes"[0] == 'y' && "yes"[1] == 'e' && "yes"[2] == 's'; }
  }

  lemma ExitExactly(s: string)
    ensures IsExit(s) <==> Lower(s) == "exit" || Lower(s) == "quit"
  {
  }

  const MAX_LINE := 4096

  /**
   * Confirmation k is the k-th one issued; settled[k] is the flag its callback and its timer share; exits
   * are the confirmations that ask whether to leave, and closing says that the shutdown has begun.
   */
  datatype Desk = Desk(
    pending: Option<nat>, processing: bool, buffered: Option<string>, settled: seq<bool>,
    exits: set<nat>, closing: bool)

  datatype Mode = Mode(simulation: bool, agent: bool)

  datatype Resolution = Resolution(k: nat, answer: bool)

  datatype Effect = Effect(desk: Desk, resolved: Option<Resolution>)

  const IDLE := Desk(None, false, None, [], {}, false)

  /** confirm(): consume or discard what was typed ahead, then wait for a line or the timer. */
  function Issue(d: Desk, mode: Mode): Effect {
    var k := |d.settled|;
    if d.buffered.Some? && mode.simulation then
      Effect(d.(buffered := None, settled := d.settled + [true]), Some(Resolution(k, IsYes(d.buffered.value))))
    else
      Effect(d.(buffered := None, settled := d.settled + [false], pending := Some(k)), None)
  }

  /** The callback and the timer: whoever comes first settles, both drop the pending callback. */
  function Settle(d: Desk, k: nat, answer: bool): Effect {
    if k >= |d.settled| || d.settled[k] then Effect(d, None)
    else
      Effect(d.(settled := d.settled[k := true], pending := None, closing := d.closing || (answer && k in d.exits)),
             Some(Resolution(k, answer)))
  }

  /** "exit": live users are asked first, agents and simulations leave at once. */
  function Exit(d: Desk, mode: Mode): Effect {
    if !mode.agent && !mode.simulation then Issue(d.(exits := d.exits + {|d.settled|}), mode)
    else Effect(d.(closing := true), None)
  }

  /** A line, with its sanitised form. */
  function Line(d: Desk, mode: Mode, raw: string, trimmed: string): Effect {
    if d.pending.Some? then Settle(d.(pending := None), d.pending.value, IsYes(raw))
    else if trimmed == "" || |trimmed| > MAX_LINE then Effect(d, None)
    else if IsExit(trimmed) then Exit(d, mode)
    else if d.processing then Effect(d.(buffered := Some(trimmed)), None)
    else Effect(d.(processing := true), None)
  }

  function CommandDone(d: Desk): Desk { d.(processing := false, buffered := None) }

  /** The terminal's fields, updated as confirm, its callback, its timer and the line handler do. */
  class FlashTerminal {
    const mode: Mode
    var pendingConfirmation: Option<nat>
    var processing: bool
    var bufferedLine: Option<string>
    var settled: seq<bool>
    var exits: set<nat>
    var isShuttingDown: bool

    function View(): Desk
      reads this
    {
      Desk(pendingConfirmation, processing, bufferedLine, settled, exits, isShuttingDown)
    }

    constructor (mode: Mode)
      ensures View() == IDLE && this.mode == mode
    {
      this.mode := mode;
      pendingConfirmation, processing, bufferedLine, settled := None, false, None, [];
      exits, isShuttingDown := {}, false;
    }

    method Confirm() returns (resolved: Option<Resolution>)
      modifies this
      ensures Effect(View(), resolved) == Issue(old(View()), mode)
    {
      var k := |settled|;
      if bufferedLine.Some? {
        if mode.simulation {
          var answer := bufferedLine.value;
          bufferedLine := None;
          settled := settled + [true];
          YesExactly(answer);
          return Some(Resolution(k, Lower(answer) == "yes" || Lower(answer) == "y"));
        }
        bufferedLine := None;
      }
      settled := settled + [false];
      pendingConfirmation := Some(k);
      return None;
    }

    method SettleWith(k: nat, answer: bool) returns (resolved: Option<Resolution>)
      modifies this
      ensures Effect(View(), resolved) == Settle(old(View()), k, answer)
    {
      if k >= |settled| || settled[k] { return None; }
      settled := settled[k := true];
      pendingConfirmation := None;
      if answer && k in exits { isShuttingDown := true; }
      return Some(Resolution(k, answer));
    }

    method OnLine(raw: string, trimmed: string) returns (resolved: Option<Resolution>)
      modifies this
      ensures Effect(View(), resolved) == Line(old(View()), mode, raw, trimmed)
    {
      if pendingConfirmation.Some? {
        var k := pendingConfirmation.value;
        pendingConfirmation := None;
        YesExactly(raw);
        resolved := SettleWith(k, Lower(raw) == "yes" || Lower(raw) == "y");
        return;
      }
      if trimmed == "" || |trimmed| > MAX_LINE { return None; }
      ExitExactly(trimmed);
      hide IsYes, IsExit;
      var lower := Lower(trimmed);
      if lower == "exit" || lower == "quit" {
        if !mode.agent && !mode.simulation {
          exits := exits + {|settled|};
          resolved := Confirm();
          return;
        }
        isShuttingDown := true;
        return None;
      }
      if processing {
        bufferedLine := Some(trimmed);
        return None;
      }
      processing := true;
      return None;
    }
  }

  // ---- Runs ----

  datatype Event =
    | Typed(raw: string, trimmed: string)
    | Ask                      // the running command calls confirm()
    | Timer(k: nat)            // the timer of confirmation k fires
    | Finish                   // the running command ends

  /** Why a confirmation was settled, and at which event. */
  datatype Cause = ByLine | ByTypeAhead | ByTimer

  datatype Verdict = Verdict(k: nat, answer: bool, cause: Cause, at: nat)

  /** past is everything that happened; issuedAt[k] is the index of the event that issued confirmation k. */
  datatype State = State(desk: Desk, past: seq<Event>, issuedAt: seq<nat>, verdicts: seq<Verdict>)

  const START := State(IDLE, [], [], [])

  predicate CanHappen(s: State, e: Event) {
    match e
    case Typed(_, _) => true
    case Ask => s.desk.processing
    case Timer(k) => k < |s.desk.settled| && !s.desk.settled[k]
    case Finish => s.desk.processing
  }

  function EffectOf(s: State, mode: Mode, e: Event): Effect {
    match e
    case Typed(raw, trimmed) => Line(s.desk, mode, raw, trimmed)
    case Ask => Issue(s.desk, mode)
    case Timer(k) => Settle(s.desk, k, false)
    case Finish => Effect(CommandDone(s.desk), None)
  }

  function CauseOf(e: Event): Cause {
    match e
    case Typed(_, _) => ByLine
    case Timer(_) => ByTimer
    case _ => ByTypeAhead
  }

  function Next(s: State, mode: Mode, e: Event): State {
    var effect := EffectOf(s, mode, e);
    var now := |s.past|;
    State(effect.desk, s.past + [e],
          if |effect.desk.settled| > |s.desk.settled| then s.issuedAt + [now] else s.issuedAt,
          if effect.resolved.None? then s.verdicts
          else s.verdicts + [Verdict(effect.resolved.value.k, effect.resolved.value.answer, CauseOf(e), now)])
  }

  predicate Reaches(s: State, mode: Mode, es: seq<Event>, t: State)
    decreases |es|
  {
    if es == [] then s == t else CanHappen(s, es[0]) && Reaches(Next(s, mode, es[0]), mode, es[1..], t)
  }

  // ---- Invariant ----

  predicate YesLine(past: seq<Event>, i: int) { 0 <= i < |past| && past[i].Typed? && IsYes(past[i].raw) }

  /** A line whose sanitised form is a yes. */
  predicate YesTypedAhead(past: seq<Event>, i: int) { 0 <= i < |past| && past[i].Typed? && IsYes(past[i].trimmed) }

  /** The command that runs after event i still runs before event j. */
  predicate SameCommand(past: seq<Event>, i: nat, j: nat) {
    forall x :: i < x < j && x < |past| ==> !past[x].Finish?
  }

  /** A positive verdict rests on a yes line typed after the question, or on one typed ahead in simulation. */
  predicate Justified(s: State, mode: Mode, v: Verdict) {
    && v.k < |s.issuedAt| && v.at < |s.past|
    && (v.answer ==>
          match v.cause
          case ByLine => YesLine(s.past, v.at) && v.at > s.issuedAt[v.k]
          case ByTypeAhead =>
            && mode.simulation && v.at == s.issuedAt[v.k]
            && exists i: nat :: i < v.at && YesTypedAhead(s.past, i) && SameCommand(s.past, i, v.at)
          case ByTimer => false)
  }

  /** What is known of the desk alone: the callback being listened to belongs to an unsettled confirmation. */
  predicate DeskInv(d: Desk) {
    d.pending.Some? ==> d.pending.value < |d.settled| && !d.settled[d.pending.value]
  }

  predicate Issued(s: State) {
    && |s.issuedAt| == |s.desk.settled|
    && (forall k :: 0 <= k < |s.issuedAt| ==> s.issuedAt[k] < |s.past|)
  }

  predicate AllJustified(s: State, mode: Mode) {
    forall i :: 0 <= i < |s.verdicts| ==> Justified(s, mode, s.verdicts[i])
  }

  /** The settled flags are exactly the confirmations with a verdict, and no confirmation has two. */
  predicate Booked(settled: seq<bool>, verdicts: seq<Verdict>) {
    && (forall i :: 0 <= i < |verdicts| ==> verdicts[i].k < |settled| && settled[verdicts[i].k])
    && (forall i, j :: 0 <= i < j < |verdicts| ==> verdicts[i].k != verdicts[j].k)
    && (forall k :: 0 <= k < |settled| && settled[k] ==> exists i :: 0 <= i < |verdicts| && verdicts[i].k == k)
  }

  predicate TypedAt(s: State, i: nat, line: string) {
    i < |s.past| && s.past[i].Typed? && s.past[i].trimmed == line && SameCommand(s.past, i, |s.past|)
  }

  /** What is buffered was typed while the command that now runs was running. */
  predicate BufferTyped(s: State) {
    s.desk.buffered.Some? ==> exists i: nat :: i < |s.past| && TypedAt(s, i, s.desk.buffered.value)
  }

  predicate Inv(s: State, mode: Mode) {
    && DeskInv(s.desk) && Issued(s) && BufferTyped(s) && AllJustified(s, mode) && Booked(s.desk.settled, s.verdicts)
  }

  /** What one effect does to the settled flags: nothing, one new question, or one question settled. */
  predicate FlagsMove(before: seq<bool>, after: seq<bool>, resolved: Option<Resolution>) {
    match resolved
    case None => after == before || after == before + [false]
    case Some(r) =>
      || (r.k == |before| && after == before + [true])
      || (r.k < |before| && !before[r.k] && after == before[r.k := true])
  }

  lemma EffectMovesFlags(s: State, mode: Mode, e: Event)
    requires DeskInv(s.desk)
    ensures var effect := EffectOf(s, mode, e);
            DeskInv(effect.desk) && FlagsMove(s.desk.settled, effect.desk.settled, effect.resolved)
  {
    hide IsYes, IsExit;
  }

  lemma VerdictIsBooked(settled: seq<bool>, verdicts: seq<Verdict>, after: seq<bool>, v: Verdict)
    requires Booked(settled, verdicts) && FlagsMove(settled, after, Some(Resolution(v.k, v.answer)))
    ensures Booked(after, verdicts + [v])
  {
    var all := verdicts + [v];
    forall k | 0 <= k < |after| && after[k] ensures exists i :: 0 <= i < |all| && all[i].k == k {
      if k == v.k {
        assert all[|verdicts|].k == k;
      } else {
        var i :| 0 <= i < |verdicts| && verdicts[i].k == k;
        assert all[i].k == k;
      }
    }
  }

  lemma EventKeepsBooks(s: State, mode: Mode, e: Event)
    requires Inv(s, mode)
    ensures var t := Next(s, mode, e); DeskInv(t.desk) && Issued(t) && Booked(t.desk.settled, t.verdicts)
  {
    EffectMovesFlags(s, mode, e);
    hide EffectOf, Justified, AllJustified, DeskInv;
    var effect := EffectOf(s, mode, e);
    if effect.resolved.Some? {
      var r := effect.resolved.value;
      VerdictIsBooked(s.desk.settled, s.verdicts, effect.desk.settled, Verdict(r.k, r.answer, CauseOf(e), |s.past|));
    } else {
      assert Booked(effect.desk.settled, s.verdicts);
    }
  }

  lemma StillJustified(s: State, mode: Mode, e: Event, v: Verdict)
    requires Issued(s) && Justified(s, mode, v)
    ensures Justified(Next(s, mode, e), mode, v)
  {
    hide EffectOf, IsYes;
    var t := Next(s, mode, e);
    if v.answer && v.cause.ByTypeAhead? {
      var i: nat :| i < v.at && YesTypedAhead(s.past, i) && SameCommand(s.past, i, v.at);
      assert YesTypedAhead(t.past, i) && SameCommand(t.past, i, v.at);
    }
  }

  lemma NewVerdictJustified(s: State, mode: Mode, e: Event)
    requires DeskInv(s.desk) && Issued(s) && BufferTyped(s) && EffectOf(s, mode, e).resolved.Some?
    ensures var t := Next(s, mode, e); |t.verdicts| == |s.verdicts| + 1 && Justified(t, mode, t.verdicts[|s.verdicts|])
  {
    hide IsYes, IsExit;
    var t := Next(s, mode, e);
    if s.desk.buffered.Some? {
      var i: nat :| i < |s.past| && TypedAt(s, i, s.desk.buffered.value);
      assert t.past[i] == s.past[i];
      assert YesTypedAhead(t.past, i) <==> IsYes(s.desk.buffered.value);
      assert SameCommand(t.past, i, |s.past|);
    }
  }

  lemma EventKeepsBuffer(s: State, mode: Mode, e: Event)
    requires BufferTyped(s)
    ensures BufferTyped(Next(s, mode, e))
  {
    hide IsYes, IsExit;
    var t := Next(s, mode, e);
    if t.desk.buffered.Some? {
      if t.desk.buffered == s.desk.buffered {
        var i: nat :| i < |s.past| && TypedAt(s, i, s.desk.buffered.value);
        assert TypedAt(t, i, t.desk.buffered.value);
      } else {
        assert TypedAt(t, |s.past|, t.desk.buffered.value);
      }
    }
  }

  lemma EventKeepsInv(s: State, mode: Mode, e: Event)
    requires Inv(s, mode) && CanHappen(s, e)
    ensures Inv(Next(s, mode, e), mode)
  {
    var t := Next(s, mode, e);
    EventKeepsBooks(s, mode, e);
    EventKeepsBuffer(s, mode, e);
    forall i | 0 <= i < |t.verdicts| ensures Justified(t, mode, t.verdicts[i]) {
      hide EffectOf, Justified, Booked, DeskInv, BufferTyped;
      if i < |s.verdicts| { StillJustified(s, mode, e, s.verdicts[i]); } else { NewVerdictJustified(s, mode, e); }
    }
    hide Next, Justified, Booked, DeskInv, BufferTyped, Issued;
  }

  lemma {:induction false} RunKeepsInv(s: State, mode: Mode, es: seq<Event>, t: State)
    requires Inv(s, mode) && Reaches(s, mode, es, t)
    ensures Inv(t, mode)
    decreases |es|
  {
    if es != [] {
      EventKeepsInv(s, mode, es[0]);
      RunKeepsInv(Next(s, mode, es[0]), mode, es[1..], t);
    }
  }

  // ---- Main results ----

  /** No confirmation is settled twice, and the settled flags are exactly the confirmations with a verdict. */
  lemma SettledAtMostOnce(mode: Mode, es: seq<Event>, s: State)
    requires Reaches(START, mode, es, s)
    ensures forall i, j :: 0 <= i < j < |s.verdicts| ==> s.verdicts[i].k != s.verdicts[j].k
    ensures forall k :: 0 <= k < |s.desk.settled| ==>
              (s.desk.settled[k] <==> exists i :: 0 <= i < |s.verdicts| && s.verdicts[i].k == k)
  {
    RunKeepsInv(START, mode, es, s);
  }

  /**
   * Every yes was typed: after the question, or in simulation mode before it, while the command that asks was
   * running already.
   */
  lemma EveryYesWasTyped(mode: Mode, es: seq<Event>, s: State, i: nat)
    requires Reaches(START, mode, es, s) && i < |s.verdicts| && s.verdicts[i].answer
    ensures var v := s.verdicts[i];
            && v.k < |s.issuedAt|
            && (|| (s.issuedAt[v.k] < v.at && YesLine(s.past, v.at))
                || (mode.simulation
                    && exists j: nat :: j < s.issuedAt[v.k] && YesTypedAhead(s.past, j)
                                        && SameCommand(s.past, j, s.issuedAt[v.k])))
  {
    RunKeepsInv(START, mode, es, s);
    assert Justified(s, mode, s.verdicts[i]);
  }

  /** Every confirmation that was settled true was settled by a yes line typed after it was issued. */
  ghost predicate AnsweredAfterAsking(s: State) {
    forall i :: 0 <= i < |s.verdicts| && s.verdicts[i].answer ==>
      var v := s.verdicts[i]; v.k < |s.issuedAt| && s.issuedAt[v.k] < v.at && YesLine(s.past, v.at)
  }

  const OPEN_LINE := Typed("open", "open")
  const YES_LINE := Typed("y", "y")
  const EXIT_LINE := Typed("exit", "exit")

  /** A command is typed, then a yes; when the command asks, the yes is already there. */
  lemma TypedAheadYes(mode: Mode)
    requires mode.simulation
    ensures var s := Next(Next(Next(START, mode, OPEN_LINE), mode, YES_LINE), mode, Ask);
            s.verdicts == [Verdict(0, true, ByTypeAhead, 2)] && s.issuedAt == [2]
    ensures CanHappen(Next(Next(START, mode, OPEN_LINE), mode, YES_LINE), Ask)
  {
    var s1 := Next(START, mode, OPEN_LINE);
    assert s1.desk == Desk(None, true, None, [], {}, false);
    var s2 := Next(s1, mode, YES_LINE);
    assert s2.desk == Desk(None, true, Some("y"), [], {}, false);
  }

  /** A typed-ahead yes does confirm in simulation mode. */
  lemma SimulationConfirmsBeforeTheQuestion(mode: Mode)
    requires mode.simulation
    ensures exists es, s :: Reaches(START, mode, es, s) && !AnsweredAfterAsking(s)
  {
    TypedAheadYes(mode);
    var s2 := Next(Next(START, mode, OPEN_LINE), mode, YES_LINE);
    var s3 := Next(s2, mode, Ask);
    assert CanHappen(START, OPEN_LINE) && CanHappen(Next(START, mode, OPEN_LINE), YES_LINE);
    hide Next, CanHappen;
    ThreeEvents(START, mode, OPEN_LINE, YES_LINE, Ask);
    hide Reaches;
    assert !AnsweredAfterAsking(s3) by { assert s3.verdicts[0].answer; }
  }

  lemma {:induction false} ThreeEvents(s: State, mode: Mode, d: Event, e: Event, f: Event)
    requires CanHappen(s, d) && CanHappen(Next(s, mode, d), e) && CanHappen(Next(Next(s, mode, d), mode, e), f)
    ensures Reaches(s, mode, [d, e, f], Next(Next(Next(s, mode, d), mode, e), mode, f))
  {
    hide Next, CanHappen;
    var t := Next(Next(Next(s, mode, d), mode, e), mode, f);
    assert [d, e, f][1..] == [e, f] && [e, f][1..] == [f] && [f][1..] == [];
    assert Reaches(Next(Next(s, mode, d), mode, e), mode, [f], t);
    assert Reaches(Next(s, mode, d), mode, [e, f], t);
  }

  /**
   * Exactly when a yes always comes after the question: in live mode, however questions, timers and
   * buffered lines overlap, and never in simulation mode.
   */
  lemma SafeExactlyInLiveMode(mode: Mode)
    ensures (forall es, s :: Reaches(START, mode, es, s) ==> AnsweredAfterAsking(s)) <==> !mode.simulation
  {
    if mode.simulation {
      SimulationConfirmsBeforeTheQuestion(mode);
    } else {
      forall es, s | Reaches(START, mode, es, s) ensures AnsweredAfterAsking(s) {
        forall i | 0 <= i < |s.verdicts| && s.verdicts[i].answer
          ensures var v := s.verdicts[i]; v.k < |s.issuedAt| && s.issuedAt[v.k] < v.at && YesLine(s.past, v.at)
        {
          EveryYesWasTyped(mode, es, s, i);
        }
      }
    }
  }

  /** A confirmation that is being listened to is settled by the next line, true exactly for a yes. */
  lemma NextLineAnswers(mode: Mode, es: seq<Event>, s: State, raw: string, trimmed: string)
    requires Reaches(START, mode, es, s) && s.desk.pending.Some?
    ensures EffectOf(s, mode, Typed(raw, trimmed)).resolved
         == Some(Resolution(s.desk.pending.value, Lower(raw) == "yes" || Lower(raw) == "y"))
  {
    RunKeepsInv(START, mode, es, s);
    YesExactly(raw);
    hide IsYes, IsExit;
  }

  /**
   * A question asked over a typed-ahead line: in simulation that line answers it at once, true exactly for a
   * yes; at a live terminal the line is dropped and the question waits for another.
   */
  lemma TypedAheadAnswers(mode: Mode, es: seq<Event>, s: State, line: string)
    requires Reaches(START, mode, es, s) && s.desk.buffered == Some(line)
    ensures var effect, k := EffectOf(s, mode, Ask), |s.desk.settled|;
            && effect.desk.buffered.None?
            && if mode.simulation then
                 && effect.resolved == Some(Resolution(k, Lower(line) == "yes" || Lower(line) == "y"))
                 && effect.desk.pending == s.desk.pending
               else effect.resolved.None? && effect.desk.pending == Some(k)
  {
    YesExactly(line);
    hide IsYes;
  }

  /**
   * A line nobody waits for: blank and over-long ones are dropped, "exit" and "quit" leave at once or, at a
   * live terminal, ask first, and any other starts a command or is kept for the one that runs.
   */
  lemma OtherLinesExactly(mode: Mode, s: State, raw: string, trimmed: string)
    requires s.desk.pending.None?
    ensures var d := s.desk;
            var effect := EffectOf(s, mode, Typed(raw, trimmed));
            && effect.resolved.None?
            && effect.desk ==
               if trimmed == "" || |trimmed| > 4096 then d
               else if Lower(trimmed) == "exit" || Lower(trimmed) == "quit" then
                 if mode.agent || mode.simulation then d.(closing := true)
                 else d.(pending := Some(|d.settled|), settled := d.settled + [false], buffered := None,
                         exits := d.exits + {|d.settled|})
               else if d.processing then d.(buffered := Some(trimmed))
               else d.(processing := true)
  {
    ExitExactly(trimmed);
    hide IsYes, IsExit;
  }

  /** In one event, a confirmation nobody listens to can only be settled by its timer, and stays unheard. */
  lemma DroppedStep(s: State, mode: Mode, e: Event, j: nat)
    requires DeskInv(s.desk) && j < |s.desk.settled| && s.desk.pending != Some(j)
    ensures var n := Next(s, mode, e);
            && DeskInv(n.desk) && j < |n.desk.settled| && n.desk.pending != Some(j)
            && |s.verdicts| <= |n.verdicts| <= |s.verdicts| + 1
            && (|n.verdicts| > |s.verdicts| && n.verdicts[|s.verdicts|].k == j ==>
                  !n.verdicts[|s.verdicts|].answer && n.verdicts[|s.verdicts|].cause.ByTimer?)
  {
    EffectMovesFlags(s, mode, e);
    hide IsYes, IsExit;
  }

  /** A confirmation nobody listens to any more is never answered: all that can still settle it is its timer. */
  lemma {:induction false} DroppedQuestionOnlyTimesOut(s: State, mode: Mode, es: seq<Event>, t: State, j: nat)
    requires DeskInv(s.desk) && j < |s.desk.settled| && s.desk.pending != Some(j) && Reaches(s, mode, es, t)
    ensures |s.verdicts| <= |t.verdicts| && t.desk.pending != Some(j)
    ensures forall i :: |s.verdicts| <= i < |t.verdicts| && t.verdicts[i].k == j ==>
              !t.verdicts[i].answer && t.verdicts[i].cause.ByTimer?
    decreases |es|
  {
    hide Next, CanHappen, DeskInv;
    if es != [] {
      var n := Next(s, mode, es[0]);
      DroppedStep(s, mode, es[0], j);
      DroppedQuestionOnlyTimesOut(n, mode, es[1..], t, j);
      SameVerdictsFirst(n, mode, es[1..], t);
    }
  }

  lemma {:induction false} SameVerdictsFirst(s: State, mode: Mode, es: seq<Event>, t: State)
    requires Reaches(s, mode, es, t)
    ensures s.verdicts <= t.verdicts
    decreases |es|
  {
    hide EffectOf, CanHappen;
    if es != [] { SameVerdictsFirst(Next(s, mode, es[0]), mode, es[1..], t); }
  }

  /** Two questions can be open at once: a command runs, "exit" asks whether to leave, the command asks too. */
  lemma QuestionsDoOverlap(mode: Mode)
    requires !mode.simulation && !mode.agent
    ensures exists es, s :: Reaches(START, mode, es, s) && s.desk.pending == Some(1) && CanHappen(s, Timer(0))
  {
    var s1 := Next(START, mode, OPEN_LINE);
    assert s1.desk == Desk(None, true, None, [], {}, false);
    var s2 := Next(s1, mode, EXIT_LINE);
    assert s2.desk == Desk(Some(0), true, None, [false], {0}, false);
    var s3 := Next(s2, mode, Ask);
    assert s3.desk == Desk(Some(1), true, None, [false, false], {0}, false);
    assert CanHappen(START, OPEN_LINE) && CanHappen(s1, EXIT_LINE) && CanHappen(s2, Ask);
    assert CanHappen(s3, Timer(0));
    hide Next, CanHappen;
    ThreeEvents(START, mode, OPEN_LINE, EXIT_LINE, Ask);
  }

  /**
   * Exactly when a question stays the one being listened to: the event is no line, no timer, and no new
   * question but one that a typed-ahead line answers in simulation mode.
   */
  lemma StaysParkedExactly(mode: Mode, es: seq<Event>, s: State, e: Event)
    requires Reaches(START, mode, es, s) && s.desk.pending.Some? && CanHappen(s, e)
    ensures Next(s, mode, e).desk.pending == s.desk.pending <==>
            e.Finish? || (e.Ask? && mode.simulation && s.desk.buffered.Some?)
  {
    RunKeepsInv(START, mode, es, s);
    EffectMovesFlags(s, mode, e);
    hide IsYes, IsExit, Reaches, Justified, Booked;
  }

  /**
   * When confirmations overlap, the timer of an earlier one also drops the callback of the one being
   * listened to: from then on no yes reaches that question, it can only time out. Safe, but not heard.
   */
  lemma OverlappingTimerSilencesTheOther(mode: Mode, es: seq<Event>, s: State, k: nat, j: nat,
                                          more: seq<Event>, t: State)
    requires Reaches(START, mode, es, s) && CanHappen(s, Timer(k)) && s.desk.pending == Some(j) && j != k
    requires Reaches(Next(s, mode, Timer(k)), mode, more, t)
    ensures forall i :: |s.verdicts| < i < |t.verdicts| && t.verdicts[i].k == j ==>
              !t.verdicts[i].answer && t.verdicts[i].cause.ByTimer?
  {
    RunKeepsInv(START, mode, es, s);
    var n := Next(s, mode, Timer(k));
    EventKeepsInv(s, mode, Timer(k));
    DroppedQuestionOnlyTimesOut(n, mode, more, t, j);
  }

  // ---- Leaving ----

  predicate ConfirmedExit(s: State, i: int) {
    0 <= i < |s.verdicts| && s.verdicts[i].answer && s.verdicts[i].k in s.desk.exits
  }

  ghost predicate ExitInv(s: State) {
    && (forall k :: k in s.desk.exits ==> k < |s.desk.settled|)
    && (s.desk.closing <==> exists i :: ConfirmedExit(s, i))
  }

  /** How one effect changes the questions about leaving and the decision to leave, in live mode. */
  predicate ExitMove(before: Desk, effect: Effect) {
    && (effect.desk.exits == before.exits
        || (effect.desk.exits == before.exits + {|before.settled|} && effect.resolved.None?
            && |effect.desk.settled| == |before.settled| + 1))
    && (effect.desk.closing <==>
        before.closing
        || (effect.resolved.Some? && effect.resolved.value.answer && effect.resolved.value.k in before.exits))
  }

  lemma EffectMovesExits(s: State, mode: Mode, e: Event)
    requires DeskInv(s.desk) && CanHappen(s, e) && !mode.simulation && !mode.agent
    ensures ExitMove(s.desk, EffectOf(s, mode, e))
  {
    hide IsYes, IsExit;
  }

  lemma SameConfirmedExit(s: State, t: State, i: nat)
    requires i < |s.verdicts| && s.verdicts <= t.verdicts && s.verdicts[i].k < |s.desk.settled|
    requires t.desk.exits == s.desk.exits || t.desk.exits == s.desk.exits + {|s.desk.settled|}
    ensures ConfirmedExit(t, i) <==> ConfirmedExit(s, i)
  {
    assert t.verdicts[i] == s.verdicts[i];
  }

  lemma EventKeepsExits(s: State, mode: Mode, e: Event)
    requires Inv(s, mode) && ExitInv(s) && CanHappen(s, e) && !mode.simulation && !mode.agent
    ensures ExitInv(Next(s, mode, e))
  {
    EffectMovesExits(s, mode, e);
    EffectMovesFlags(s, mode, e);
    EventKeepsBooks(s, mode, e);
    var t := Next(s, mode, e);
    var n := |s.verdicts|;
    assert forall i :: 0 <= i < n ==> s.verdicts[i].k < |s.desk.settled|;
    hide EffectOf, Justified, AllJustified, BufferTyped, DeskInv, CanHappen, Inv, Booked, Issued;
    forall i | 0 <= i < n ensures ConfirmedExit(t, i) <==> ConfirmedExit(s, i) {
      SameConfirmedExit(s, t, i);
    }
    if s.desk.closing {
      var i :| ConfirmedExit(s, i);
      assert ConfirmedExit(t, i);
    } else if t.desk.closing {
      assert ConfirmedExit(t, n);
    } else {
      assert forall i :: !ConfirmedExit(t, i);
    }
  }

  lemma {:induction false} RunKeepsExits(s: State, mode: Mode, es: seq<Event>, t: State)
    requires Inv(s, mode) && ExitInv(s) && Reaches(s, mode, es, t) && !mode.simulation && !mode.agent
    ensures ExitInv(t)
    decreases |es|
  {
    hide Inv, ExitInv, Next, CanHappen;
    if es != [] {
      EventKeepsInv(s, mode, es[0]);
      EventKeepsExits(s, mode, es[0]);
      RunKeepsExits(Next(s, mode, es[0]), mode, es[1..], t);
    }
  }

  /**
   * At a live terminal the shutdown an "exit" asks for has begun if and only if one of the questions about
   * leaving was answered yes, by a line typed after that question.
   */
  lemma LeavesOnlyWhenToldTo(mode: Mode, es: seq<Event>, s: State)
    requires Reaches(START, mode, es, s) && !mode.simulation && !mode.agent
    ensures s.desk.closing <==> exists i :: ConfirmedExit(s, i)
    ensures forall i :: ConfirmedExit(s, i) ==>
              var v := s.verdicts[i]; v.k < |s.issuedAt| && s.issuedAt[v.k] < v.at && YesLine(s.past, v.at)
  {
    RunKeepsExits(START, mode, es, s);
    forall i | ConfirmedExit(s, i)
      ensures var v := s.verdicts[i]; v.k < |s.issuedAt| && s.issuedAt[v.k] < v.at && YesLine(s.past, v.at)
    {
      EveryYesWasTyped(mode, es, s, i);
    }
  }
}
