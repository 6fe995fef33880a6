/**
 The process-wide clock behind temporary file names: any number of threads advance one
 shared word by compare-and-swap, interleaved in any way.
 */
module MonotonicClock {
  import opened Decimal

  type Thread = nat

  /** A call in progress: the time it measured, and the word as it last loaded it. */
  datatype Call = Measured(elapsed: nat) | Loaded(elapsed: nat, seen: nat)

  /** `returned` lists the results of finished calls in the order of their exchanges. */
  datatype Clock = Clock(last: nat, calls: map<Thread, Call>, returned: seq<nat>)

  datatype Action =
    | Begins(t: Thread, elapsed: nat)
    | Loads(t: Thread)
    | Exchanges(t: Thread)

  const START: Clock := Clock(0, map[], [])

  function Min(a: nat, b: nat): nat {
    if a < b then a else b
  }

  function Max(a: nat, b: nat): nat {
    if a < b then b else a
  }

  /** What a call that saw `seen` tries to store: a saturating successor, or later. */
  function Proposal(elapsed: nat, seen: nat): nat {
    Max(elapsed, Min(seen + 1, U64_MAX))
  }

  function Next(c: Clock, a: Action): Clock {
    match a
    case Begins(t, elapsed) =>
      if t in c.calls then c else c.(calls := c.calls[t := Measured(Min(elapsed, U64_MAX))])
    case Loads(t) =>
      if t in c.calls && c.calls[t].Measured? then c.(calls := c.calls[t := Loaded(c.calls[t].elapsed, c.last)]) else c
    case Exchanges(t) =>
      if t !in c.calls || c.calls[t].Measured? then c
      else
        var call := c.calls[t];
        var next := Proposal(call.elapsed, call.seen);
        // A lost exchange goes round the loop again.
        if call.seen != c.last then c.(calls := c.calls[t := Measured(call.elapsed)])
        else Clock(next, c.calls - {t}, c.returned + [next])
  }

  function Run(actions: seq<Action>): Clock {
    if actions == [] then START else Next(Run(actions[..|actions| - 1]), actions[|actions| - 1])
  }

  /** The word holds the last result, no result exceeds it, and below saturation the
      results strictly increase. */
  ghost predicate Inv(c: Clock) {
    && c.last <= U64_MAX
    && (forall t :: t in c.calls ==> c.calls[t].elapsed <= U64_MAX)
    && (forall i :: 0 <= i < |c.returned| ==> 0 < c.returned[i] <= c.last)
    && (forall i, j :: 0 <= i < j < |c.returned| ==> c.returned[i] < c.returned[j] || c.returned[i] == U64_MAX)
    && (forall i, j :: 0 <= i < j < |c.returned| ==> c.returned[i] <= c.returned[j])
  }

  lemma NextKeepsInv(c: Clock, a: Action)
    requires Inv(c)
    ensures Inv(Next(c, a))
  {
  }

  predicate MayReturn(elapsed: nat, last: nat, ns: nat) {
    elapsed <= ns && last < ns
  }

  /** An exchange that nobody got ahead of returns the least time that is no earlier than
      measured and later than the last one, as far as the word can hold it; one that
      somebody got ahead of changes nothing and starts over. */
  ghost predicate Exchanged(c: Clock, c': Clock, t: Thread)
    requires t in c.calls && c.calls[t].Loaded?
  {
    var call := c.calls[t];
    if call.seen == c.last then
      && c'.calls == c.calls - {t} && c'.returned == c.returned + [c'.last]
      && c'.last <= U64_MAX && (c.last < U64_MAX ==> MayReturn(call.elapsed, c.last, c'.last))
      && forall m :: MayReturn(call.elapsed, c.last, m) ==> c'.last <= m
    else c' == c.(calls := c.calls[t := Measured(call.elapsed)])
  }

  lemma ExchangeIsLeast(c: Clock, t: Thread)
    requires Inv(c) && t in c.calls && c.calls[t].Loaded?
    ensures Exchanged(c, Next(c, Exchanges(t)), t)
  {
  }

  /** Nothing but an exchange returns a result or moves the word; a call measures once and
      loads the word as it is. */
  lemma OthersOnlyLook(c: Clock, a: Action)
    requires !a.Exchanges?
    ensures var c' := Next(c, a);
            && c'.last == c.last && c'.returned == c.returned
            && (a.Begins? && a.t !in c.calls ==> c'.calls == c.calls[a.t := Measured(Min(a.elapsed, U64_MAX))])
            && (a.Loads? && a.t in c.calls && c.calls[a.t].Measured? ==>
                  c'.calls == c.calls[a.t := Loaded(c.calls[a.t].elapsed, c.last)])
  {
  }

  lemma {:induction false} RunKeepsInv(actions: seq<Action>)
    ensures Inv(Run(actions))
  {
    if actions != [] {
      RunKeepsInv(actions[..|actions| - 1]);
      NextKeepsInv(Run(actions[..|actions| - 1]), actions[|actions| - 1]);
    }
  }

  /** Of two results in any run the later exceeds the earlier if and only if the earlier
      is below saturation. */
  lemma ResultsIncrease(actions: seq<Action>, i: nat, j: nat)
    requires i < j < |Run(actions).returned|
    ensures var r := Run(actions).returned; r[i] < r[j] <==> r[i] < U64_MAX
  {
    RunKeepsInv(actions);
  }

  function TempName(pid: nat, ns: nat): string {
    ".tmp-" + Print(pid) + "-" + Print(ns)
  }

  lemma NumeralsDiffer(a: nat, b: nat)
    requires a != b
    ensures Print(a) != Print(b)
  {
    PrintIsNumeral(a);
    PrintIsNumeral(b);
  }

  /** A process never uses a temporary name twice before its clock saturates. */
  lemma TempNamesDiffer(pid: nat, actions: seq<Action>, i: nat, j: nat)
    requires i < j < |Run(actions).returned|
    ensures var r := Run(actions).returned; TempName(pid, r[i]) == TempName(pid, r[j]) <==> r[i] == U64_MAX
  {
    RunKeepsInv(actions);
    var r := Run(actions).returned;
    var prefix := ".tmp-" + Print(pid) + "-";
    assert TempName(pid, r[i])[|prefix|..] == Print(r[i]) && TempName(pid, r[j])[|prefix|..] == Print(r[j]);
    if r[i] != r[j] {
      NumeralsDiffer(r[i], r[j]);
    }
  }
}
