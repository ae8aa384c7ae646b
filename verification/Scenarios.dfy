/** Small logs, and how runs over them are put together step by step. */
module Scenarios {
  import opened Bytes
  import opened Markers
  import opened Listener
  import opened ServerLog
  import opened Protocol

  const G := Event(Gtid, 4, 10, "", [])
  const ORIGIN := Checkpoint(0, 4, 0)
  const LO := Local(0, false, false, false, 'P', 'T', 0, 0, 0)

  function X(end: nat, text: seq<Line<nat>>): Event {
    Event(Xid, 10, end, "", text)
  }

  function Transaction(end: nat, text: seq<Line<nat>>): seq<Event> {
    [G, X(end, text)]
  }

  /** One transaction in each of two files; the first commit has this text after its marker. */
  function Logs(text: seq<Line<nat>>): seq<seq<Event>> {
    [Transaction(20, text), Transaction(20, [])]
  }

  function S0(logs: seq<seq<Event>>): Sys {
    Sys(logs, [], [], [], None, State(NoShared(None), LO), Idle, None, {})
  }

  predicate TextAllowed(cfg: Config, text: seq<Line<nat>>) {
    text == [] || (text == [Text] && cfg.closingText)
  }

  lemma LogsAllowed(cfg: Config, text: seq<Line<nat>>)
    requires TextAllowed(cfg, text)
    ensures Init(cfg, S0(Logs(text)))
  {
    TransactionOk(20, text);
    TransactionOk(20, []);
    assert EventsAllowed(cfg, Logs(text));
  }

  lemma TransactionOk(end: nat, text: seq<Line<nat>>)
    requires (text == [] || text == [Text]) && end > 10
    ensures LogOk(Transaction(end, text)) && !InGroup(Transaction(end, text), 2)
  {
    var log := Transaction(end, text);
    assert !InGroup(log, 0) && InGroup(log, 1) && !InGroup(log, 2) && Offset(log, 1) == 10;
    assert EventOk(log, 0) && EventOk(log, 1);
  }

  /** A run that reaches a state. */
  ghost predicate Reaches(cfg: Config, s0: Sys, acts: seq<Action>, t: Sys) {
    Run(cfg, s0, acts) == Some(t)
  }

  /** One more step of a run. */
  lemma Extend(cfg: Config, s0: Sys, acts: seq<Action>, t: Sys, a: Action)
    returns (acts': seq<Action>, t': Sys)
    requires Reaches(cfg, s0, acts, t) && Enabled(cfg, t, a)
    ensures Reaches(cfg, s0, acts', t') && t' == Apply(cfg, t, a)
    ensures Steady(acts) && !a.ChooseStart? && !a.ClearRange? && !a.Crash? ==> Steady(acts')
  {
    acts', t' := acts + [a], Apply(cfg, t, a);
    assert acts'[..|acts'| - 1] == acts;
  }

  /** The listener captures the next line and acts on it, nothing being flushed or all. */
  lemma Take(cfg: Config, s0: Sys, acts: seq<Action>, t: Sys) returns (acts': seq<Action>, t': Sys)
    requires Reaches(cfg, s0, acts, t) && t.pipe != [] && t.pending == None
    ensures Reaches(cfg, s0, acts', t') && (Steady(acts) ==> Steady(acts'))
    ensures t'.pipe == t.pipe[1..] && t'.pending == None && t'.st == Listen(t.st, t.pipe[0].line)
    ensures t'.logs == t.logs && t'.origin == t.origin && t'.main == t.main && t'.cut == t.cut
    ensures Written(t') == Written(t) + [t.pipe[0]] && (!cfg.flush ==> t'.disk == t.disk)
  {
    hide Reaches;
    acts', t' := Extend(cfg, s0, acts, t, Write);
    assert Written(t') == Written(t) + [t.pipe[0]];
    if cfg.flush {
      acts', t' := Extend(cfg, s0, acts', t', FlushSome(|t'.cache|));
      assert t'.cache == [] && Written(t') == Written(t) + [t.pipe[0]];
    }
    acts', t' := Extend(cfg, s0, acts', t', Handle);
  }

  lemma TakeTwo(cfg: Config, s0: Sys, acts: seq<Action>, t: Sys) returns (acts': seq<Action>, t': Sys)
    requires Reaches(cfg, s0, acts, t) && |t.pipe| >= 2 && t.pending == None
    ensures Reaches(cfg, s0, acts', t') && (Steady(acts) ==> Steady(acts'))
    ensures t'.pipe == t.pipe[2..] && t'.pending == None
    ensures t'.st == Listen(Listen(t.st, t.pipe[0].line), t.pipe[1].line)
    ensures t'.logs == t.logs && t'.origin == t.origin && t'.main == t.main && t'.cut == t.cut
    ensures Written(t') == Written(t) + t.pipe[..2] && (!cfg.flush ==> t'.disk == t.disk)
  {
    hide Reaches, Listen;
    acts', t' := Take(cfg, s0, acts, t);
    acts', t' := Take(cfg, s0, acts', t');
  }

  /** A state of the first round, which starts at `at`, before the listener has handled a line. */
  function Mid(logs: seq<seq<Event>>, at: Checkpoint<nat>, first: Option<nat>, inProgress: Option<Checkpoint<nat>>,
               main: Main, pipe: seq<Item>): Sys {
    Sys(logs, [], [], pipe, None, State(Shared(Some(at), inProgress, Some(at), first, None, false), LO),
        main, Some(at), {})
  }

  /** The first round starts at event `k` of file 0. */
  predicate StartsAt(logs: seq<seq<Event>>, at: Checkpoint<nat>, k: nat) {
    && logs != [] && k <= |logs[0]| && at.name == 0 && at.index == 0
    && Offset(logs[0], k) == at.pos && !InGroup(logs[0], k)
  }

  lemma Started(cfg: Config, logs: seq<seq<Event>>, at: Checkpoint<nat>, k: nat) returns (acts: seq<Action>)
    requires StartsAt(logs, at, k)
    ensures Reaches(cfg, S0(logs), acts, Mid(logs, at, None, None, Idle, []))
  {
    var t := S0(logs);
    acts := [];
    assert Run(cfg, t, acts) == Some(t);
    assert BoundaryAt(logs[0], k, at.pos);
    hide Reaches;
    acts, t := Extend(cfg, S0(logs), acts, t, ChooseStart(at));
    acts, t := Extend(cfg, S0(logs), acts, t, SaveStart);
  }

  /** The main thread has been told of all files and announced the first. */
  lemma Told(cfg: Config, logs: seq<seq<Event>>, at: Checkpoint<nat>, k: nat) returns (acts: seq<Action>)
    requires StartsAt(logs, at, k)
    ensures Reaches(cfg, S0(logs), acts, Mid(logs, at, Some(0), None, Announced(|logs|, 0, at.pos), [Note(First(0))]))
  {
    hide Reaches, S0;
    acts := Started(cfg, logs, at, k);
    var t := Mid(logs, at, None, None, Idle, []);
    acts, t := Extend(cfg, S0(logs), acts, t, Load);
    acts, t := Extend(cfg, S0(logs), acts, t, ClearRange);
    acts, t := Extend(cfg, S0(logs), acts, t, NameFirst);
    acts, t := Extend(cfg, S0(logs), acts, t, Announce);
    assert t.pipe == [Note(First(0))];
  }

  const OPENING: seq<Item> := [Note(First(0)), Note(Start(0))]

  /** It starts on the first file. */
  lemma FirstRound(cfg: Config, logs: seq<seq<Event>>) returns (acts: seq<Action>)
    requires logs != []
    ensures Reaches(cfg, S0(logs), acts, Reader(logs, 0, OPENING))
  {
    hide Reaches, S0;
    acts := Told(cfg, logs, ORIGIN, 0);
    var t := Mid(logs, ORIGIN, Some(0), None, Announced(|logs|, 0, 4), [Note(First(0))]);
    acts, t := Extend(cfg, S0(logs), acts, t, SetProgress);
    acts, t := Extend(cfg, S0(logs), acts, t, Open(0));
    assert t.pipe == OPENING;
  }

  function Reader(logs: seq<seq<Event>>, k: nat, pipe: seq<Item>): Sys {
    Mid(logs, ORIGIN, Some(0), Some(ORIGIN), Reading(|logs|, 0, k, []), pipe)
  }

  /** The reader goes to the next event and prints its first line. */
  lemma PrintOne(cfg: Config, s0: Sys, acts: seq<Action>, t: Sys, it: Item, rest: seq<Item>)
    returns (acts': seq<Action>, t': Sys)
    requires Reaches(cfg, s0, acts, t) && t.main.Reading? && t.main.rest == []
    requires t.main.i < |t.logs| && t.main.k < |t.logs[t.main.i]|
    requires Printed(t.logs[t.main.i][t.main.k], t.main.i, t.main.k) == [it] + rest
    ensures Reaches(cfg, s0, acts', t') && (Steady(acts) ==> Steady(acts'))
    ensures t' == t.(pipe := t.pipe + [it], main := Reading(t.main.n, t.main.i, t.main.k + 1, rest))
  {
    hide Reaches, Printed, Steady;
    acts', t' := Extend(cfg, s0, acts, t, NextEvent);
    acts', t' := Extend(cfg, s0, acts', t', Emit);
    assert ([it] + rest)[1..] == rest;
  }

  /** The reader prints the transaction of a file as far as its commit marker. */
  lemma PrintTransaction(cfg: Config, s0: Sys, acts: seq<Action>, t: Sys, i: nat, end: nat, text: seq<Line<nat>>)
    returns (acts': seq<Action>, t': Sys)
    requires Reaches(cfg, s0, acts, t) && t.main.Reading? && t.main == Reading(t.main.n, i, 0, [])
    requires i < |t.logs| && t.logs[i] == Transaction(end, text)
    ensures Reaches(cfg, s0, acts', t') && (Steady(acts) ==> Steady(acts'))
    ensures t' == t.(pipe := t.pipe + [Begun(i), Committed(i, end)],
                     main := Reading(t.main.n, i, 2, Tagged(text, i, 1)))
  {
    hide Reaches, Steady;
    assert Printed(G, i, 0) == [Begun(i)] + [];
    assert Printed(X(end, text), i, 1) == [Committed(i, end)] + Tagged(text, i, 1);
    acts', t' := PrintOne(cfg, s0, acts, t, Begun(i), []);
    acts', t' := PrintOne(cfg, s0, acts', t', Committed(i, end), Tagged(text, i, 1));
    assert t.pipe + [Begun(i)] + [Committed(i, end)] == t.pipe + [Begun(i), Committed(i, end)];
  }

  function Begun(i: nat): Item {
    Item(Begin(4, 10, ""), i, 0)
  }

  function Committed(i: nat, end: nat): Item {
    Item(Commit(10, Fit(end), ""), i, 1)
  }

  const COMMIT_TEXT := Item(Text, 0, 1)

  function AtStart(): State<nat> {
    State(Shared(Some(ORIGIN), Some(ORIGIN), Some(ORIGIN), Some(0), None, false), LO)
  }

  lemma OpeningHandled(st: State<nat>)
    requires !st.lo.data && st.sh.first == Some(0)
    ensures var t := Listen(Listen(st, First(0)), Start(0));
      t.sh == st.sh && t.lo.name == 0 && !t.lo.data
  {
  }

  /** A transaction handled from any state with no row open saves its commit. */
  lemma TransactionHandled(st: State<nat>, p: nat, e: nat)
    requires !st.lo.data
    ensures var t := Listen(Listen(st, Begin(p, 10, "")), Commit(10, e, ""));
      && t.sh.xai == t.sh.inProgress == Some(Checkpoint(st.lo.name, e, 0))
      && !t.lo.data && t.lo.name == st.lo.name && t.sh.first == st.sh.first && t.sh.last == st.sh.last
  {
  }

  /** The first transaction is printed up to its commit marker and the listener has acted on all of it. */
  lemma Committing(cfg: Config, logs: seq<seq<Event>>, end: nat, text: seq<Line<nat>>)
    returns (acts: seq<Action>, t: Sys)
    requires logs != [] && logs[0] == Transaction(end, text)
    ensures Reaches(cfg, S0(logs), acts, t)
    ensures Written(t) == OPENING + [Begun(0), Committed(0, end)] && (!cfg.flush ==> t.disk == [])
    ensures t.st.sh.xai == t.st.sh.inProgress == Some(Checkpoint(0, Fit(end), 0))
    ensures t.logs == logs && t.origin == Some(ORIGIN) && t.pipe == [] && t.cut == {}
  {
    hide Reaches, Listen, S0;
    acts := FirstRound(cfg, logs);
    t := Reader(logs, 0, OPENING);
    acts, t := PrintTransaction(cfg, S0(logs), acts, t, 0, end, text);
    OpeningHandled(t.st);
    acts, t := TakeTwo(cfg, S0(logs), acts, t);
    TransactionHandled(t.st, 4, Fit(end));
    acts, t := TakeTwo(cfg, S0(logs), acts, t);
    assert Written(t) == OPENING + [Begun(0), Committed(0, end)];
  }
}
